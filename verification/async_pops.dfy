/** What leaving a context does to its bottom halves (async.c): the flush ends
    with the first poll that ran nothing but idle callbacks, and what those have
    scheduled is left behind with the context. */
module AsyncPops {
  import opened AsyncModel
  import opened AsyncProofs
  import opened Async

  /** The world in which the last poll of `async_context_pop` begins. */
  function LastPoll(w: World): (r: World)
    requires w.ctxs != []
    ensures r.ctxs != []
    decreases |w.oracle|
  {
    var (v, ret) := PollOnce(w);
    if v.halted || |v.ctxs| == 1 || !ret then w else LastPoll(v)
  }

  /** The context that is left, when its polls are over. */
  function Flushed(w: World): (r: World)
    requires w.ctxs != []
    ensures r.ctxs != []
  {
    PollOnce(LastPoll(w)).0
  }

  lemma {:induction false} PopLeavesFlushed(w: World)
    requires w.ctxs != []
    ensures var v := Flushed(w);
            && Pop(w) == (if v.halted || |v.ctxs| == 1 then v else Leave(v))
            && (v.halted || |v.ctxs| == 1 || !PollOnce(LastPoll(w)).1)
    decreases |w.oracle|
  {
    hide PollOnce, Leave;
    var (v, ret) := PollOnce(w);
    if !(v.halted || |v.ctxs| == 1 || !ret) {
      PopLeavesFlushed(v);
    }
  }

  predicate SomeDue(w: World)
    requires w.ctxs != []
  {
    exists b :: b in w.ctxs[Top(w)] && Due(w, b)
  }

  predicate OnlyIdle(w: World)
    requires w.ctxs != []
  {
    forall b :: b in w.ctxs[Top(w)] && Due(w, b) ==> w.bhs[b].idle
  }

  /** What is left scheduled in the context is lost: its list goes with it. */
  predicate Loses(w: World)
    requires w.ctxs != []
  {
    !Pop(w).halted && SomeDue(Flushed(w))
  }

  // ---- Code that schedules from a callback ----

  function Cancels(all: seq<nat>): seq<Action> {
    if all == [] then [] else [Cancel(all[0])] + Cancels(all[1..])
  }

  lemma {:induction false} CancelsEffect(w: World, all: seq<nat>)
    requires w.ctxs != [] && !w.halted
    ensures var v := Exec(w, Cancels(all));
            && v == w.(bhs := v.bhs) && |v.bhs| == |w.bhs|
            && (forall b :: 0 <= b < |w.bhs| ==> v.bhs[b] == w.bhs[b] || v.bhs[b] == w.bhs[b].(scheduled := false))
            && forall b :: b in all && Live(w, b) ==> !v.bhs[b].scheduled
    decreases |all|
  {
    if all != [] {
      CancelsEffect(Step(w, Cancel(all[0])), all[1..]);
    }
  }

  /** A callback that cancels all others and schedules a new bottom half, idle. */
  function Hand(all: seq<nat>, n: nat): seq<Action> { Cancels(all) + [New, ScheduleIdle(n)] }

  /** World `v` is `w` after that callback: nothing but the new one is due. */
  predicate Handed(w: World, v: World, all: seq<nat>) {
    && w.ctxs != [] && |v.bhs| == |w.bhs| + 1 && !v.halted && w.oracle != []
    && v.oracle == w.oracle[1..]
    && v.ctxs == w.ctxs[Top(w) := [|w.bhs|] + w.ctxs[Top(w)]]
    && Due(v, |w.bhs|) && v.bhs[|w.bhs|].idle && !v.bhs[|w.bhs|].freed
    && (forall b :: 0 <= b < |w.bhs| ==> v.bhs[b].freed == w.bhs[b].freed)
    && forall b :: b in all && Live(w, b) ==> !v.bhs[b].scheduled
  }

  lemma HandRuns(w: World, b: nat, all: seq<nat>)
    requires w.ctxs != [] && !w.halted && Live(w, b)
    requires w.oracle != [] && w.oracle[0] == Hand(all, |w.bhs|)
    ensures Handed(w, RunOne(w, b), all)
  {
    var c := Enter(w, b).(oracle := w.oracle[1..]);
    assert RunOne(w, b) == Exec(c, Hand(all, |w.bhs|));
    hide RunOne, Exec;
    CancelsEffect(c, all);
    ExecAppend(c, Cancels(all), [New, ScheduleIdle(|w.bhs|)]);
    var d := Exec(c, Cancels(all));
    HandEnds(d);
    hide Cancels;
  }

  lemma TwoActions(d: World, a: Action, b: Action)
    requires d.ctxs != [] && !d.halted && !Step(d, a).halted
    ensures Exec(d, [a, b]) == Step(Step(d, a), b) && Exec(d, [a]) == Step(d, a)
  {
    var e := Step(d, a);
    assert [a, b][1..] == [b] && [b][1..] == [] && [a][1..] == [];
    hide Step;
    NothingLeft(e);
    NothingLeft(Step(e, b));
    assert Exec(e, [b]) == Exec(Step(e, b), []);
  }

  lemma HandEnds(d: World)
    requires d.ctxs != [] && !d.halted
    ensures var n := |d.bhs|;
            Exec(d, [New, ScheduleIdle(n)]) == BhSchedule(BhNew(d, false), n, true)
  {
    TwoActions(d, New, ScheduleIdle(|d.bhs|));
    hide Exec;
  }

  lemma {:induction false} NothingDue(w: World, list: seq<nat>, ret: bool)
    requires w.ctxs != [] && forall b :: b in list ==> !Due(w, b)
    ensures RunList(w, list, ret) == (w, ret)
    decreases |list|
  {
    if list != [] {
      assert !Due(w, list[0]);
      NothingDue(w, list[1..], ret);
    }
  }

  /** The rest of a list that is all cancelled and older than the new one. */
  lemma HandedRest(w: World, v: World, all: seq<nat>, list: seq<nat>)
    requires Handed(w, v, all) && forall b :: b in list ==> b in all && Live(w, b)
    ensures forall b :: b in list ==> !Due(v, b)
  {
  }

  /** The first callback that is due hands everything over to a new one. */
  lemma {:induction false} HandList(w: World, list: seq<nat>, all: seq<nat>, ret: bool)
    requires w.ctxs != [] && !w.halted && w.oracle != [] && w.oracle[0] == Hand(all, |w.bhs|)
    requires forall b :: b in list ==> b in all && Live(w, b)
    requires exists b :: b in list && Due(w, b)
    ensures var (v, r) := RunList(w, list, ret);
            Handed(w, v, all) && (r ==> ret || exists b :: b in list && Due(w, b) && !w.bhs[b].idle)
    decreases |list|
  {
    var b := list[0];
    if Due(w, b) {
      HandRuns(w, b, all);
      var v := RunOne(w, b);
      HandedRest(w, v, all, list[1..]);
      NothingDue(v, list[1..], ret || !w.bhs[b].idle);
      hide RunOne, Handed, Live, Hand;
    } else {
      HandList(w, list[1..], all, ret);
      hide RunOne, Handed, Live, Hand;
    }
  }

  ghost predicate AllLive(w: World)
    requires w.ctxs != []
  {
    forall b :: b in w.ctxs[Top(w)] ==> Live(w, b)
  }

  lemma HandSweep(w: World, v: World, all: seq<nat>)
    requires w.ctxs != [] && Handed(w, v, all) && AllLive(w) && forall b :: b in w.ctxs[Top(w)] ==> b in all
    ensures var p, n := Sweep(v), |w.bhs|;
            && |p.ctxs| == |w.ctxs| && p.oracle == v.oracle && !p.halted && |p.bhs| == n + 1
            && AllLive(p) && OnlyIdle(p) && SomeDue(p) && forall b :: b in p.ctxs[Top(p)] ==> b in [n] + all
  {
    var p, n, list := Sweep(v), |w.bhs|, v.ctxs[Top(v)];
    forall b | b in p.ctxs[Top(p)]
      ensures Live(p, b) && b in [n] + all && (Due(p, b) ==> b == n)
    {
      KeepLiveFrom(v.bhs, list, b);
    }
    KeepLiveFrom(v.bhs, list, n);
    assert n in list && n in p.ctxs[Top(p)] && Due(p, n);
  }

  /** One poll whose first callback hands over. */
  lemma HandPoll(w: World, all: seq<nat>)
    requires w.ctxs != [] && !w.halted && w.oracle != [] && w.oracle[0] == Hand(all, |w.bhs|)
    requires AllLive(w) && SomeDue(w) && forall b :: b in w.ctxs[Top(w)] ==> b in all
    ensures var (p, ret) := PollOnce(w);
            && |p.ctxs| == |w.ctxs| && p.oracle == w.oracle[1..] && !p.halted && |p.bhs| == |w.bhs| + 1
            && AllLive(p) && OnlyIdle(p) && SomeDue(p) && (forall b :: b in p.ctxs[Top(p)] ==> b in [|w.bhs|] + all)
            && (ret ==> !OnlyIdle(w))
  {
    var list := w.ctxs[Top(w)];
    HandList(w, list, all, false);
    HandSweep(w, RunList(w, list, false).0, all);
    hide RunList, Sweep, Hand, Due, Live;
  }

  /** Two such callbacks, one for each poll. */
  function Hands(w: World): seq<seq<Action>>
    requires w.ctxs != []
  {
    var n, list := |w.bhs|, w.ctxs[Top(w)];
    [Hand(list, n), Hand([n] + list, n + 1)]
  }

  lemma HandsLose(w: World)
    requires |w.ctxs| > 1 && !w.halted && AllLive(w) && SomeDue(w) && w.oracle == Hands(w)
    ensures Loses(w)
  {
    var list := w.ctxs[Top(w)];
    HandPoll(w, list);
    var (p, ret) := PollOnce(w);
    PopLeavesFlushed(w);
    if ret {
      HandPoll(p, [|w.bhs|] + list);
      var (p2, ret2) := PollOnce(p);
      assert !ret2;
      assert LastPoll(p) == p;
      assert LastPoll(w) == p;
    } else {
      assert LastPoll(w) == w;
    }
    hide PollOnce, AllLive, OnlyIdle, SomeDue, Hand;
  }

  lemma QuietKeeps(w: World)
    requires |w.ctxs| > 1 && !w.halted && !SomeDue(w)
    ensures !Loses(w)
  {
    NothingDue(w, w.ctxs[Top(w)], false);
    var v := Sweep(w);
    assert PollOnce(w) == (v, false) && LastPoll(w) == w;
    forall b | b in v.ctxs[Top(v)] ensures !Due(v, b) {
      KeepLiveFrom(w.bhs, w.ctxs[Top(w)], b);
    }
  }

  lemma SameDue(w: World, scripts: seq<seq<Action>>)
    requires w.ctxs != []
    ensures var u := w.(oracle := scripts); (SomeDue(u) <==> SomeDue(w)) && Hands(u) == Hands(w)
  {
    var u := w.(oracle := scripts);
    assert forall b :: Due(u, b) <==> Due(w, b);
  }

  /** Whatever its callbacks do, a pop loses nothing, if and only if nothing is
      due in the context: a callback that runs may schedule again, and the flush
      ends with the first poll that runs only idle ones. */
  lemma PopLosesNothingIff(w: World)
    requires Wf(w) && |w.ctxs| > 1 && !w.halted
    ensures (forall scripts: seq<seq<Action>> :: !Loses(w.(oracle := scripts))) <==> !SomeDue(w)
  {
    if SomeDue(w) {
      forall b | b in w.ctxs[Top(w)] ensures Live(w, b) {
        var j :| 0 <= j < |w.ctxs[Top(w)]| && w.ctxs[Top(w)][j] == b;
        assert Listed(w, Top(w), w.ctxs[Top(w)][j]);
      }
      var u := w.(oracle := Hands(w));
      SameDue(w, Hands(w));
      HandsLose(u);
    } else {
      forall scripts: seq<seq<Action>> ensures !Loses(w.(oracle := scripts)) {
        SameDue(w, scripts);
        QuietKeeps(w.(oracle := scripts));
      }
    }
  }

  lemma {:induction false} LastPollWf(w: World)
    requires Wf(w) && !w.halted && |w.ctxs| > 1
    ensures var u := LastPoll(w); Wf(u) && !u.halted && |u.ctxs| == |w.ctxs|
    decreases |w.oracle|
  {
    PollEffect(w);
    var (v, ret) := PollOnce(w);
    hide PollOnce, Evolves;
    if !(v.halted || |v.ctxs| == 1 || !ret) {
      LastPollWf(v);
    }
  }

  /** A flush whose last poll ran no idle callback loses nothing. */
  lemma FlushWithoutIdle(w: World)
    requires Wf(w) && |w.ctxs| > 1 && !w.halted && !Pop(w).halted
    requires var u := LastPoll(w); true !in Visits(u, u.ctxs[Top(u)])
    ensures !Loses(w)
  {
    LastPollWf(w);
    PopLeavesFlushed(w);
    var u := LastPoll(w);
    PollEffect(u);
    hide PollOnce, LastPoll, Visits, Pop, Evolves;
    QuietPollLeavesNothingScheduled(u);
  }

  /** Code that leaves a context in which one bottom half is scheduled, as an
      idle one, whose callback schedules another: the flush ends before that one
      has run, and no list holds it any more. */
  lemma IdleCallbackLoses()
    ensures var w := World([], [[]], [[New, Schedule(1)]], false);
            var v := Exec(w, [Nested([New, ScheduleIdle(0)])]);
            && !v.halted && |v.bhs| == 3 && v.bhs[1].scheduled && !v.bhs[1].deleted && v.bhs[1].runs == 0
            && v.ctxs == [[2]]
  {
    var none: seq<nat>, zero: seq<nat> := [], [0];
    var w := World([], [none], [[New, Schedule(1)]], false);
    HandEnds(Push(w));
    var u := BhSchedule(BhNew(Push(w), false), 0, true);
    assert u.ctxs[1] == [0] + none == zero && u.ctxs[0] == none && u.ctxs == [none, zero];
    IdlePoll(u);
    var p := PollOnce(u).0;
    hide PollOnce;
    assert Pop(u) == Leave(p);
    assert p.ctxs[..1] == [none] && [2] + none == [2];
    TwoActions(w, Nested([New, ScheduleIdle(0)]), New);
  }

  /** The poll in which it is run. */
  lemma IdlePoll(u: World)
    requires u.ctxs == [[], [0]] && u.oracle == [[New, Schedule(1)]] && !u.halted && |u.bhs| == 1
    requires Due(u, 0) && u.bhs[0].idle && !u.bhs[0].completion
    ensures var (p, ret) := PollOnce(u);
            && !ret && !p.halted && p.ctxs == [[], [1, 0]] && p.oracle == [] && |p.bhs| == 2
            && p.bhs[1].scheduled && !p.bhs[1].deleted && p.bhs[1].runs == 0
  {
    var zero: seq<nat> := [0];
    var c := Enter(u, 0).(oracle := []);
    assert u.oracle[1..] == [];
    TwoActions(c, New, Schedule(1));
    var r := RunOne(u, 0);
    assert r == BhSchedule(BhNew(c, false), 1, false);
    assert zero[1..] == [] && RunList(r, [], false) == (r, false);
    assert RunList(u, zero, false) == (r, false);
    hide RunOne, RunList, Exec;
    assert r.ctxs[1] == [1] + zero == [1, 0] && r.ctxs == [[], [1, 0]];
    assert [1, 0][1..] == zero && KeepLive(r.bhs, []) == [] && KeepLive(r.bhs, zero) == zero;
    assert KeepLive(r.bhs, [1, 0]) == [1] + zero;
  }
}
