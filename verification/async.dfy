/** The scheduler of async.c as it updates its state, proved equal to the
    functions of `AsyncModel`. */
module Async {
  import opened AsyncModel
  import opened AsyncProofs

  /** The sweep has looked at `k` entries of the old list and kept `i`. */
  ghost predicate SweptTo(was: World, now: World, i: nat, k: nat)
    requires was.ctxs != []
  {
    var list := was.ctxs[Top(was)];
    k <= |list| && i == |KeepLive(was.bhs, list[..k])|
    && now.oracle == was.oracle && now.halted == was.halted
    && now.bhs == FreeDeleted(was.bhs, list[..k])
    && now.ctxs == was.ctxs[Top(was) := KeepLive(was.bhs, list[..k]) + list[k..]]
  }

  lemma {:induction false} KeepLiveSnoc(bhs: seq<Bh>, list: seq<nat>, b: nat)
    ensures KeepLive(bhs, list + [b]) == KeepLive(bhs, list) + (if b < |bhs| && bhs[b].deleted then [] else [b])
  {
    if list == [] {
      assert list + [b] == [b];
    } else {
      KeepLiveSnoc(bhs, list[1..], b);
      assert (list + [b])[1..] == list[1..] + [b];
    }
  }

  lemma SweepStart(was: World)
    requires was.ctxs != []
    ensures SweptTo(was, was, 0, 0)
  {
    var list := was.ctxs[Top(was)];
    assert KeepLive(was.bhs, list[..0]) + list[0..] == list && was.ctxs[Top(was) := list] == was.ctxs;
    assert FreeDeleted(was.bhs, list[..0]) == was.bhs;
  }

  lemma SweepEnd(was: World, now: World, i: nat, k: nat)
    requires was.ctxs != [] && SweptTo(was, now, i, k) && i >= |now.ctxs[Top(was)]|
    ensures now == Sweep(was)
  {
    var list := was.ctxs[Top(was)];
    assert k == |list| && list[..k] == list && KeepLive(was.bhs, list) + [] == KeepLive(was.bhs, list);
  }

  lemma FreedSnoc(bhs: seq<Bh>, list: seq<nat>, b: nat)
    ensures FreeDeleted(bhs, list + [b])
            == if b < |bhs| && bhs[b].deleted then FreeDeleted(bhs, list)[b := bhs[b].(freed := true)]
               else FreeDeleted(bhs, list)
  {
  }

  /** One round of the sweep at entry `i` of the shrinking list. */
  function SweepRound(now: World, i: nat): World
    requires now.ctxs != [] && i < |now.ctxs[Top(now)]|
  {
    var list := now.ctxs[Top(now)];
    var b := list[i];
    if b < |now.bhs| && now.bhs[b].deleted then
      now.(ctxs := now.ctxs[Top(now) := list[..i] + list[i + 1..]], bhs := now.bhs[b := now.bhs[b].(freed := true)])
    else now
  }

  lemma ListStep(bhs: seq<Bh>, all: seq<nat>, list: seq<nat>, i: nat, k: nat)
    requires k <= |all| && i == |KeepLive(bhs, all[..k])| && list == KeepLive(bhs, all[..k]) + all[k..] && i < |list|
    ensures k < |all| && list[i] == all[k] && all[..k + 1] == all[..k] + [list[i]]
    ensures var gone := list[i] < |bhs| && bhs[list[i]].deleted;
            var kept := KeepLive(bhs, all[..k + 1]);
            |kept| == (if gone then i else i + 1)
            && kept + all[k + 1..] == (if gone then list[..i] + list[i + 1..] else list)
  {
    var kept := KeepLive(bhs, all[..k]);
    assert list[i] == all[k] && all[..k + 1] == all[..k] + [list[i]];
    KeepLiveSnoc(bhs, all[..k], list[i]);
    hide KeepLive;
  }

  lemma SweepStep(was: World, now: World, i: nat, k: nat)
    requires was.ctxs != [] && SweptTo(was, now, i, k) && i < |now.ctxs[Top(was)]|
    ensures k < |was.ctxs[Top(was)]| && |now.ctxs| == |was.ctxs|
    ensures var b := now.ctxs[Top(was)][i];
            SweptTo(was, SweepRound(now, i), if b < |now.bhs| && now.bhs[b].deleted then i else i + 1, k + 1)
  {
    var all, list := was.ctxs[Top(was)], now.ctxs[Top(was)];
    var b := list[i];
    assert b < |was.bhs| ==> now.bhs[b].deleted == was.bhs[b].deleted
                             && now.bhs[b].(freed := true) == was.bhs[b].(freed := true);
    hide KeepLive, FreeDeleted, SweptTo, SweepRound;
    ListStep(was.bhs, all, list, i, k);
    FreedSnoc(was.bhs, all[..k], b);
    var kept := KeepLive(was.bhs, all[..k + 1]) + all[k + 1..];
    UpdateTwice(was.ctxs, Top(was), list, kept);
    RoundLists(now, i);
    assert SweepRound(now, i).bhs == FreeDeleted(was.bhs, all[..k + 1]);
    assert SweepRound(now, i).ctxs == now.ctxs[Top(was) := kept];
    RoundSwept(was, SweepRound(now, i), k + 1);
  }

  lemma RoundLists(now: World, i: nat)
    requires now.ctxs != [] && i < |now.ctxs[Top(now)]|
    ensures var list, r := now.ctxs[Top(now)], SweepRound(now, i);
            var gone := list[i] < |now.bhs| && now.bhs[list[i]].deleted;
            && r.oracle == now.oracle && r.halted == now.halted
            && r.ctxs == now.ctxs[Top(now) := if gone then list[..i] + list[i + 1..] else list]
            && r.bhs == if gone then now.bhs[list[i] := now.bhs[list[i]].(freed := true)] else now.bhs
  {
  }

  lemma RoundSwept(was: World, now: World, k: nat)
    requires was.ctxs != [] && k <= |was.ctxs[Top(was)]|
    requires var list := was.ctxs[Top(was)];
             && now.oracle == was.oracle && now.halted == was.halted
             && now.bhs == FreeDeleted(was.bhs, list[..k])
             && now.ctxs == was.ctxs[Top(was) := KeepLive(was.bhs, list[..k]) + list[k..]]
    ensures SweptTo(was, now, |KeepLive(was.bhs, was.ctxs[Top(was)][..k])|, k)
  {
  }

  lemma UpdateTwice<T>(s: seq<T>, i: nat, x: T, y: T)
    requires i < |s|
    ensures s[i := x][i := y] == s[i := y]
  {
  }

  // ---- Emulated synchronous requests ----

  const NOT_DONE := 0x7fffffff

  /** One `qemu_aio_wait`: the code that it runs, and the result of the request
      if it completes meanwhile. */
  datatype Wait = Wait(code: seq<Action>, result: int)

  function FirstResult(waits: seq<Wait>): int {
    if waits == [] then NOT_DONE
    else if waits[0].result != NOT_DONE then waits[0].result
    else FirstResult(waits[1..])
  }

  /** The result is that of the first wait in which the request completes. */
  lemma {:induction false} FirstResultMeaning(waits: seq<Wait>)
    ensures FirstResult(waits) == NOT_DONE <==> forall k :: 0 <= k < |waits| ==> waits[k].result == NOT_DONE
    ensures FirstResult(waits) != NOT_DONE ==>
              exists k :: && 0 <= k < |waits| && FirstResult(waits) == waits[k].result
                          && forall j :: 0 <= j < k ==> waits[j].result == NOT_DONE
  {
    if waits != [] && waits[0].result == NOT_DONE {
      var rest := waits[1..];
      FirstResultMeaning(rest);
      if FirstResult(rest) != NOT_DONE {
        var k :| && 0 <= k < |rest| && FirstResult(rest) == rest[k].result
                 && forall j :: 0 <= j < k ==> rest[j].result == NOT_DONE;
        assert waits[k + 1] == rest[k] && FirstResult(waits) == waits[k + 1].result;
        forall j | 0 <= j < k + 1 ensures waits[j].result == NOT_DONE {
          assert j > 0 ==> waits[j] == rest[j - 1];
        }
      } else {
        forall k | 0 <= k < |waits| ensures waits[k].result == NOT_DONE {
          assert k > 0 ==> waits[k] == rest[k - 1];
        }
      }
    }
  }

  function CodeUntil(waits: seq<Wait>): seq<Action> {
    if waits == [] then []
    else waits[0].code + if waits[0].result != NOT_DONE then [] else CodeUntil(waits[1..])
  }

  /** Everything that runs between the push and the pop. */
  function IoCode(start: seq<Action>, accepted: bool, early: int, waits: seq<Wait>): seq<Action> {
    start + if accepted && early == NOT_DONE then CodeUntil(waits) else []
  }

  lemma {:induction false} ExecAppend(w: World, a: seq<Action>, b: seq<Action>)
    requires w.ctxs != []
    ensures Exec(w, a + b) == Exec(Exec(w, a), b)
    decreases |a|
  {
    if a == [] {
      assert a + b == b;
    } else if w.halted {
    } else {
      assert (a + b)[0] == a[0] && (a + b)[1..] == a[1..] + b;
      ExecAppend(Step(w, a[0]), a[1..], b);
    }
  }

  lemma NothingLeft(w: World)
    requires w.ctxs != []
    ensures Exec(w, []) == w
  {
  }

  lemma NestedMeans(w: World, body: seq<Action>)
    requires w.ctxs != []
    ensures Push(w).ctxs != []
    ensures Step(w, Nested(body))
            == if Exec(Push(w), body).halted then Exec(Push(w), body) else Pop(Exec(Push(w), body))
  {
  }

  class AsyncContexts {
    var bhs: seq<Bh>
    var ctxs: seq<seq<nat>>
    var oracle: seq<seq<Action>>
    var halted: bool

    function Now(): World
      reads this
    {
      World(bhs, ctxs, oracle, halted)
    }

    constructor (scripts: seq<seq<Action>>)
      ensures Now() == World([], [[]], scripts, false)
    {
      bhs, ctxs, oracle, halted := [], [[]], scripts, false;
    }

    method AsyncContextPush()
      modifies this
      ensures Now() == Push(old(Now()))
    {
      ctxs := ctxs + [[]];
    }

    method QemuBhNew(completion: bool) returns (b: nat)
      requires ctxs != []
      modifies this
      ensures Now() == BhNew(old(Now()), completion) && b == old(|bhs|)
    {
      b := |bhs|;
      bhs := bhs + [Bh(false, false, false, false, |ctxs| - 1, completion, 0, 0)];
      ctxs := ctxs[|ctxs| - 1 := [b] + ctxs[|ctxs| - 1]];
    }

    method QemuBhSchedule(b: nat)
      requires Live(Now(), b)
      modifies this
      ensures Now() == BhSchedule(old(Now()), b, false)
    {
      if bhs[b].scheduled {
        return;
      }
      bhs := bhs[b := bhs[b].(scheduled := true, idle := false, arms := bhs[b].arms + 1)];
    }

    method QemuBhScheduleIdle(b: nat)
      requires Live(Now(), b)
      modifies this
      ensures Now() == BhSchedule(old(Now()), b, true)
    {
      if bhs[b].scheduled {
        return;
      }
      bhs := bhs[b := bhs[b].(scheduled := true, idle := true, arms := bhs[b].arms + 1)];
    }

    method QemuBhCancel(b: nat)
      requires Live(Now(), b)
      modifies this
      ensures Now() == BhCancel(old(Now()), b)
    {
      bhs := bhs[b := bhs[b].(scheduled := false)];
    }

    method QemuBhDelete(b: nat)
      requires Live(Now(), b)
      modifies this
      ensures Now() == BhDelete(old(Now()), b)
    {
      bhs := bhs[b := bhs[b].(scheduled := false)];
      bhs := bhs[b := bhs[b].(deleted := true)];
    }

    /** One callback: `bh_run_aio_completions` deletes its own bottom half first;
        what else a callback does comes from the oracle. */
    method RunCallback(b: nat)
      requires ctxs != [] && Due(Now(), b)
      modifies this
      ensures Now() == RunOne(old(Now()), b)
      decreases |oracle|, 0
    {
      bhs := bhs[b := bhs[b].(scheduled := false)];
      bhs := bhs[b := bhs[b].(idle := false, runs := bhs[b].runs + 1)];
      if bhs[b].completion && !bhs[b].freed {
        QemuBhDelete(b);
      }
      assert Now() == Enter(old(Now()), b);
      if oracle == [] {
        halted := true;
      } else {
        var script := oracle[0];
        oracle := oracle[1..];
        RunScript(script);
      }
    }

    method QemuBhPoll() returns (ret: bool)
      requires ctxs != []
      modifies this
      ensures (Now(), ret) == PollOnce(old(Now()))
      decreases |oracle|, 2
    {
      ghost var was := Now();
      ret := false;
      var list := ctxs[|ctxs| - 1];
      var i := 0;
      while i < |list| && !halted
        invariant i <= |list| && ctxs != [] && |oracle| <= |was.oracle|
        invariant RunList(Now(), list[i..], ret) == RunList(was, list, false)
        decreases |list| - i
      {
        var b := list[i];
        assert list[i..][0] == b && list[i..][1..] == list[i + 1..];
        if b < |bhs| && !bhs[b].deleted && bhs[b].scheduled {
          if !bhs[b].idle {
            ret := true;
          }
          RunCallback(b);
        }
        i := i + 1;
      }
      if !halted {
        RemoveDeleted();
      }
    }

    /** The sweep of `qemu_bh_poll`: unlinks and frees in one pass. */
    method RemoveDeleted()
      requires ctxs != []
      modifies this
      ensures Now() == Sweep(old(Now()))
    {
      hide SweptTo, Sweep;
      ghost var was := Now();
      var top := |ctxs| - 1;
      var list := ctxs[top];
      var i := 0;
      ghost var k := 0;
      SweepStart(was);
      while i < |ctxs[top]|
        invariant top == |ctxs| - 1 == Top(was) && k <= |list|
        invariant SweptTo(was, Now(), i, k)
        decreases |list| - k
      {
        SweepStep(was, Now(), i, k);
        var b := ctxs[top][i];
        if b < |bhs| && bhs[b].deleted {
          ctxs := ctxs[top := ctxs[top][..i] + ctxs[top][i + 1..]];
          bhs := bhs[b := bhs[b].(freed := true)];
        } else {
          i := i + 1;
        }
        k := k + 1;
      }
      SweepEnd(was, Now(), i, k);
    }

    method RunAction(act: Action)
      requires ctxs != []
      modifies this
      ensures Now() == Step(old(Now()), act)
      decreases |oracle|, 4, act
    {
      match act {
        case New =>
          var b := QemuBhNew(false);
        case Schedule(b) =>
          if b < |bhs| && !bhs[b].freed {
            QemuBhSchedule(b);
          }
        case ScheduleIdle(b) =>
          if b < |bhs| && !bhs[b].freed {
            QemuBhScheduleIdle(b);
          }
        case Cancel(b) =>
          if b < |bhs| && !bhs[b].freed {
            QemuBhCancel(b);
          }
        case Delete(b) =>
          if b < |bhs| && !bhs[b].freed {
            QemuBhDelete(b);
          }
        case Poll =>
          var ret := QemuBhPoll();
        case Nested(body) =>
          AsyncContextPush();
          RunScript(body);
          if !halted {
            AsyncContextPop();
          }
      }
    }

    method RunScript(acts: seq<Action>)
      requires ctxs != []
      modifies this
      ensures Now() == Exec(old(Now()), acts)
      decreases |oracle|, 4, acts
    {
      if acts != [] && !halted {
        RunAction(acts[0]);
        RunScript(acts[1..]);
      }
    }

    /** The end of `async_context_pop`. */
    method ReturnToParent()
      requires |ctxs| > 1
      modifies this
      ensures Now() == Leave(old(Now()))
    {
      ctxs := ctxs[..|ctxs| - 1];
      var b := QemuBhNew(true);
      QemuBhSchedule(b);
    }

    method AsyncContextPop()
      requires ctxs != []
      modifies this
      ensures Now() == Pop(old(Now()))
      decreases |oracle|, 3
    {
      hide PollOnce, Leave;
      ghost var was := Now();
      var ret := QemuBhPoll();
      while ret && !halted && |ctxs| != 1
        invariant ctxs != [] && |oracle| <= |was.oracle|
        invariant ret && !halted ==> |oracle| < |was.oracle|
        invariant if halted || |ctxs| == 1 then Now() == Pop(was)
                  else if ret then Pop(Now()) == Pop(was)
                  else Pop(was) == Leave(Now())
        decreases |oracle|, ret && !halted
      {
        ret := QemuBhPoll();
      }
      if halted || |ctxs| == 1 {
        return;
      }
      ReturnToParent();
    }

    /** `bdrv_read_em`, and `bdrv_write_em` alike: the request is started and
        waited for in a context of its own.  `start` is the code that runs while
        it is started, and `early` its result if it completes meanwhile.  Whatever
        all this code does, no bottom half of the contexts around it runs, and
        the result is that of the request. */
    method BdrvReadEm(start: seq<Action>, accepted: bool, early: int, waits: seq<Wait>) returns (asyncRet: int)
      requires Wf(Now()) && !halted
      requires accepted && early == NOT_DONE ==> FirstResult(waits) != NOT_DONE
      modifies this
      ensures Now() == Step(old(Now()), Nested(IoCode(start, accepted, early, waits))) && |old(bhs)| <= |bhs|
      ensures !halted && !accepted ==> asyncRet == -1
      ensures !halted && accepted && early != NOT_DONE ==> asyncRet == early
      ensures !halted && accepted && early == NOT_DONE ==> asyncRet == FirstResult(waits)
      ensures forall b :: 0 <= b < |old(bhs)| && old(bhs)[b].ctx < |old(ctxs)| ==> bhs[b].runs == old(bhs)[b].runs
      ensures !halted ==> |bhs| > 0 && LeftBehind(old(Now()), Now(), |bhs| - 1)
    {
      ghost var io := IoCode(start, accepted, early, waits);
      ContextIsolation(Now(), io);
      NestedMeans(Now(), io);
      hide Step, Exec, Pop, Push, Wf, LeftBehind, FirstResult, CodeUntil, IoCode;
      AsyncContextPush();
      asyncRet := RunRequest(start, accepted, early, waits);
      if !halted {
        AsyncContextPop();
      }
    }

    /** The request itself, between the push and the pop. */
    method RunRequest(start: seq<Action>, accepted: bool, early: int, waits: seq<Wait>) returns (asyncRet: int)
      requires ctxs != [] && (accepted && early == NOT_DONE ==> FirstResult(waits) != NOT_DONE)
      modifies this
      ensures Now() == Exec(old(Now()), IoCode(start, accepted, early, waits))
      ensures !halted && !accepted ==> asyncRet == -1
      ensures !halted && accepted && early != NOT_DONE ==> asyncRet == early
      ensures !halted && accepted && early == NOT_DONE ==> asyncRet == FirstResult(waits)
    {
      hide Exec, FirstResult, CodeUntil;
      ghost var inner := Now();
      asyncRet := NOT_DONE;
      RunScript(start);
      if !accepted {
        asyncRet := -1;
        assert start + [] == start;
      } else {
        asyncRet := early;
        ExecAppend(inner, start, if early == NOT_DONE then CodeUntil(waits) else []);
        asyncRet := WaitFor(asyncRet, waits);
      }
    }

    /** The loop that waits until the request has a result. */
    method WaitFor(early: int, waits: seq<Wait>) returns (asyncRet: int)
      requires ctxs != [] && (early == NOT_DONE ==> FirstResult(waits) != NOT_DONE)
      modifies this
      ensures ctxs != [] && Now() == Exec(old(Now()), if early == NOT_DONE then CodeUntil(waits) else [])
      ensures !halted ==> asyncRet == if early == NOT_DONE then FirstResult(waits) else early
    {
      asyncRet := early;
      NothingLeft(Now());
      var i := 0;
      assert waits[0..] == waits;
      while asyncRet == NOT_DONE && !halted
        invariant i <= |waits| && ctxs != [] && (early != NOT_DONE ==> asyncRet == early)
        invariant asyncRet == NOT_DONE && !halted ==> FirstResult(waits[i..]) == FirstResult(waits) != NOT_DONE
        invariant Exec(Now(), if asyncRet == NOT_DONE then CodeUntil(waits[i..]) else [])
                  == Exec(old(Now()), if early == NOT_DONE then CodeUntil(waits) else [])
        invariant asyncRet != NOT_DONE && !halted ==>
                    asyncRet == if early == NOT_DONE then FirstResult(waits) else early
        decreases |waits| - i
      {
        hide Exec;
        assert waits[i..] != [] && waits[i..][0] == waits[i] && waits[i..][1..] == waits[i + 1..];
        ghost var later := if waits[i].result == NOT_DONE then CodeUntil(waits[i + 1..]) else [];
        ExecAppend(Now(), waits[i].code, later);
        RunScript(waits[i].code);
        asyncRet := waits[i].result;
        i := i + 1;
      }
    }
  }
}
