/** What the bottom half scheduler guarantees on every run (async.c). */
module AsyncProofs {
  import opened AsyncModel

  // ---- Well-formed worlds ----

  predicate NoPoll(acts: seq<Action>) { forall i :: 0 <= i < |acts| ==> !acts[i].Poll? }

  /** Runs and the pending one, minus the transitions to scheduled. */
  function Balance(x: Bh): int { x.runs + (if x.scheduled then 1 else 0) - x.arms }

  ghost predicate Listed(w: World, i: nat, b: nat) { b < |w.bhs| && w.bhs[b].ctx == i && !w.bhs[b].freed }

  /** Lists hold live bottom halves of their own context, and callbacks do not
      poll the context they run in (they may poll contexts they push). */
  ghost predicate Wf(w: World) {
    w.ctxs != []
    && (forall i, j :: 0 <= i < |w.ctxs| && 0 <= j < |w.ctxs[i]| ==> Listed(w, i, w.ctxs[i][j]))
    && (forall s :: s in w.oracle ==> NoPoll(s))
  }

  // ---- How a world may change ----

  /** Change of one bottom half while contexts below `k` are suspended: no run
      without a transition to scheduled, none once deleted, none below `k`. */
  predicate BhEvolves(x: Bh, y: Bh, k: nat) {
    y.ctx == x.ctx && y.completion == x.completion && x.runs <= y.runs && x.arms <= y.arms
    && Balance(y) <= Balance(x)
    && (x.deleted ==> y.deleted && y.runs == x.runs)
    && (x.freed ==> y.freed)
    && (x.ctx < k ==> y.runs == x.runs && y.freed == x.freed)
  }

  predicate BhCreated(y: Bh, k: nat) {
    Balance(y) <= 0 && (y.ctx < k ==> y.runs == 0 && !y.freed)
  }

  ghost predicate Evolves(w: World, v: World, k: nat) {
    |w.bhs| <= |v.bhs|
    && (forall b :: 0 <= b < |w.bhs| ==> BhEvolves(w.bhs[b], v.bhs[b], k))
    && (forall b :: |w.bhs| <= b < |v.bhs| ==> BhCreated(v.bhs[b], k))
  }

  lemma EvolvesTrans(u: World, v: World, w: World, k: nat)
    requires Evolves(u, v, k) && Evolves(v, w, k)
    ensures Evolves(u, w, k)
  {
    forall b | 0 <= b < |u.bhs| ensures BhEvolves(u.bhs[b], w.bhs[b], k) {
      assert BhEvolves(u.bhs[b], v.bhs[b], k) && BhEvolves(v.bhs[b], w.bhs[b], k);
    }
    forall b | |u.bhs| <= b < |w.bhs| ensures BhCreated(w.bhs[b], k) {
      if b < |v.bhs| {
        assert BhCreated(v.bhs[b], k) && BhEvolves(v.bhs[b], w.bhs[b], k);
      }
    }
  }

  lemma EvolvesWeaken(u: World, v: World, k: nat, m: nat)
    requires Evolves(u, v, k) && m <= k
    ensures Evolves(u, v, m)
  {
    forall b | 0 <= b < |u.bhs| ensures BhEvolves(u.bhs[b], v.bhs[b], m) {
      assert BhEvolves(u.bhs[b], v.bhs[b], k);
    }
    forall b | |u.bhs| <= b < |v.bhs| ensures BhCreated(v.bhs[b], m) {
      assert BhCreated(v.bhs[b], k);
    }
  }

  /** The contexts below the current one are as before; unless the run stopped,
      so is the depth. */
  ghost predicate SameBelow(w: World, v: World) {
    w.ctxs != [] && |v.ctxs| >= |w.ctxs| && v.ctxs[..Top(w)] == w.ctxs[..Top(w)]
    && (!v.halted ==> |v.ctxs| == |w.ctxs|)
  }

  /** `now` is `was` with bottom halves created since then put in front. */
  ghost predicate Prepended(now: seq<nat>, was: seq<nat>, since: nat) {
    |was| <= |now| && now[|now| - |was|..] == was && forall i :: 0 <= i < |now| - |was| ==> now[i] >= since
  }

  ghost predicate Grown(w: World, v: World) {
    SameBelow(w, v) && Prepended(v.ctxs[Top(w)], w.ctxs[Top(w)], |w.bhs|)
  }

  lemma PrependedTrans(a: seq<nat>, b: seq<nat>, c: seq<nat>, m: nat, n: nat)
    requires Prepended(b, a, m) && Prepended(c, b, n) && m <= n
    ensures Prepended(c, a, m)
  {
    forall i | 0 <= i < |c| - |a| ensures c[i] >= m {
      if i >= |c| - |b| {
        assert c[i] == c[|c| - |b|..][i - (|c| - |b|)] == b[i - (|c| - |b|)];
      }
    }
    assert c[|c| - |a|..] == c[|c| - |b|..][|b| - |a|..];
  }

  lemma GrownTrans(u: World, v: World, w: World)
    requires Grown(u, v) && Grown(v, w) && |u.bhs| <= |v.bhs| && |u.ctxs| == |v.ctxs|
    ensures Grown(u, w)
  {
    PrependedTrans(u.ctxs[Top(u)], v.ctxs[Top(u)], w.ctxs[Top(u)], |u.bhs|, |v.bhs|);
  }

  // ---- Elementary operations ----

  /** Flag changes that neither run nor free a bottom half. */
  lemma SetBhEvolves(w: World, b: nat, bh: Bh, k: nat)
    requires Wf(w) && b < |w.bhs| && BhEvolves(w.bhs[b], bh, k) && bh.freed == w.bhs[b].freed
    ensures Wf(SetBh(w, b, bh)) && Evolves(w, SetBh(w, b, bh), k) && (!w.halted ==> Grown(w, SetBh(w, b, bh)))
  {
    var v := SetBh(w, b, bh);
    forall c | 0 <= c < |w.bhs| ensures BhEvolves(w.bhs[c], v.bhs[c], k) {}
    forall i, j | 0 <= i < |v.ctxs| && 0 <= j < |v.ctxs[i]| ensures Listed(v, i, v.ctxs[i][j]) {
      assert Listed(w, i, w.ctxs[i][j]);
    }
  }

  lemma NewEvolves(w: World, completion: bool, k: nat)
    requires Wf(w)
    ensures Wf(BhNew(w, completion)) && Evolves(w, BhNew(w, completion), k)
    ensures !w.halted ==> Grown(w, BhNew(w, completion))
  {
    var v := BhNew(w, completion);
    forall c | 0 <= c < |w.bhs| ensures BhEvolves(w.bhs[c], v.bhs[c], k) {}
    forall i, j | 0 <= i < |v.ctxs| && 0 <= j < |v.ctxs[i]| ensures Listed(v, i, v.ctxs[i][j]) {
      if i == Top(w) {
        assert j > 0 ==> Listed(w, i, w.ctxs[i][j - 1]);
      } else {
        assert Listed(w, i, w.ctxs[i][j]);
      }
    }
  }

  lemma KeepLiveFrom(bhs: seq<Bh>, list: seq<nat>, b: nat)
    ensures b in KeepLive(bhs, list) <==> b in list && !(b < |bhs| && bhs[b].deleted)
  {
  }

  lemma SweepEvolves(w: World)
    requires Wf(w) && !w.halted
    ensures Wf(Sweep(w)) && Evolves(w, Sweep(w), Top(w)) && SameBelow(w, Sweep(w))
  {
    var v, d := Sweep(w), Top(w);
    forall c | 0 <= c < |w.bhs| ensures BhEvolves(w.bhs[c], v.bhs[c], d) {
      if c in w.ctxs[d] {
        var j :| 0 <= j < |w.ctxs[d]| && w.ctxs[d][j] == c;
        assert Listed(w, d, c);
      }
    }
    forall i, j | 0 <= i < |v.ctxs| && 0 <= j < |v.ctxs[i]| ensures Listed(v, i, v.ctxs[i][j]) {
      var b := v.ctxs[i][j];
      if i == d {
        KeepLiveFrom(w.bhs, w.ctxs[d], b);
        var m :| 0 <= m < |w.ctxs[d]| && w.ctxs[d][m] == b;
        assert Listed(w, d, w.ctxs[d][m]);
      } else {
        assert Listed(w, i, w.ctxs[i][j]);
      }
    }
  }

  lemma PushEvolves(w: World, k: nat)
    requires Wf(w)
    ensures Wf(Push(w)) && Evolves(w, Push(w), k)
  {
    var v := Push(w);
    forall i, j | 0 <= i < |v.ctxs| && 0 <= j < |v.ctxs[i]| ensures Listed(v, i, v.ctxs[i][j]) {
      assert Listed(w, i, w.ctxs[i][j]);
    }
    forall c | 0 <= c < |w.bhs| ensures BhEvolves(w.bhs[c], v.bhs[c], k) {}
  }

  lemma EnterEvolves(w: World, b: nat)
    requires Wf(w) && !w.halted && Due(w, b)
    ensures Wf(Enter(w, b)) && Evolves(w, Enter(w, b), w.bhs[b].ctx) && Grown(w, Enter(w, b))
    ensures Enter(w, b).bhs[b].runs == w.bhs[b].runs + 1
    ensures |Enter(w, b).bhs| == |w.bhs| && forall c :: 0 <= c < |w.bhs| && c != b ==> Enter(w, b).bhs[c] == w.bhs[c]
  {
    var k := w.bhs[b].ctx;
    var c := Claim(w, b);
    SetBhEvolves(w, b, c.bhs[b], k);
    if c.bhs[b].completion && !c.bhs[b].freed {
      SetBhEvolves(c, b, c.bhs[b].(scheduled := false, deleted := true), k);
      EvolvesTrans(w, c, BhDelete(c, b), k);
      GrownTrans(w, c, BhDelete(c, b));
    }
  }

  // ---- Whole runs, by induction over the interpreter ----

  /** While the loop of a poll runs over `list`, no other bottom half of this
      context runs, and none of this context is freed. */
  ghost predicate QuietBut(w: World, v: World, list: seq<nat>) {
    |w.bhs| <= |v.bhs|
    && (forall b :: 0 <= b < |w.bhs| && v.bhs[b].ctx == Top(w) ==>
          v.bhs[b].freed == w.bhs[b].freed && (b !in list ==> v.bhs[b].runs == w.bhs[b].runs))
    && (forall b :: |w.bhs| <= b < |v.bhs| && v.bhs[b].ctx == Top(w) ==> v.bhs[b].runs == 0)
  }

  ghost predicate Snapshot(w: World, list: seq<nat>) {
    forall j :: 0 <= j < |list| ==> list[j] < |w.bhs| && w.bhs[list[j]].ctx == Top(w)
  }

  /** What the loop of a poll does over `list`. */
  ghost predicate PollingEffect(w: World, v: World, list: seq<nat>) {
    Wf(v) && Grown(w, v) && Evolves(w, v, Top(w)) && QuietBut(w, v, list)
  }

  lemma NothingPolled(w: World, list: seq<nat>)
    requires Wf(w) && !w.halted
    ensures PollingEffect(w, w, list)
  {
    forall b | 0 <= b < |w.bhs| ensures BhEvolves(w.bhs[b], w.bhs[b], Top(w)) {}
  }

  lemma PollingWiden(w: World, v: World, list: seq<nat>, more: seq<nat>)
    requires PollingEffect(w, v, list) && forall b :: b in list ==> b in more
    ensures PollingEffect(w, v, more)
  {
  }

  lemma QuietTrans(u: World, v: World, w: World, list: seq<nat>)
    requires u.ctxs != [] && Snapshot(u, list) && Top(u) == Top(v)
    requires QuietBut(u, v, list) && QuietBut(v, w, list) && Evolves(v, w, Top(u))
    ensures QuietBut(u, w, list)
  {
    forall b | 0 <= b < |v.bhs| ensures w.bhs[b].ctx == v.bhs[b].ctx {
      assert BhEvolves(v.bhs[b], w.bhs[b], Top(u));
    }
  }

  lemma PollingTrans(u: World, v: World, w: World, list: seq<nat>)
    requires PollingEffect(u, v, list) && !v.halted && PollingEffect(v, w, list) && Snapshot(u, list) && u.ctxs != []
    ensures PollingEffect(u, w, list)
  {
    EvolvesTrans(u, v, w, Top(u));
    GrownTrans(u, v, w);
    QuietTrans(u, v, w, list);
  }

  lemma SnapshotKept(w: World, v: World, list: seq<nat>)
    requires Snapshot(w, list) && PollingEffect(w, v, list) && !v.halted && w.ctxs != []
    ensures Snapshot(v, list)
  {
    forall j | 0 <= j < |list| ensures list[j] < |v.bhs| && v.bhs[list[j]].ctx == Top(v) {
      assert BhEvolves(w.bhs[list[j]], v.bhs[list[j]], Top(w));
    }
  }

  /** Own actions of a callback, then its script: only contexts above run. */
  lemma RunOneTogether(w: World, b: nat, c: World, v: World)
    requires Wf(w) && !w.halted && Due(w, b) && w.bhs[b].ctx == Top(w)
    requires c == Enter(w, b) && Wf(v) && Evolves(c, v, Top(w) + 1) && Grown(c, v)
    ensures PollingEffect(w, v, [b])
  {
    EnterEvolves(w, b);
    EvolvesWeaken(c, v, Top(w) + 1, Top(w));
    EvolvesTrans(w, c, v, Top(w));
    GrownTrans(w, c, v);
    forall i | 0 <= i < |w.bhs| && v.bhs[i].ctx == Top(w)
      ensures v.bhs[i].freed == w.bhs[i].freed && (i != b ==> v.bhs[i].runs == w.bhs[i].runs)
    {
      assert BhEvolves(c.bhs[i], v.bhs[i], Top(w) + 1);
    }
    forall i | |w.bhs| <= i < |v.bhs| && v.bhs[i].ctx == Top(w) ensures v.bhs[i].runs == 0 {
      assert BhCreated(v.bhs[i], Top(w) + 1);
    }
  }

  /** What code does that does not poll its own context: only bottom halves of
      contexts that it pushes run, and the current list only grows in front. */
  ghost predicate Confined(w: World, v: World) {
    Wf(v) && Grown(w, v) && Evolves(w, v, Top(w) + 1)
  }

  /** What any code does: nothing below the current context runs or changes. */
  ghost predicate Isolated(w: World, v: World) {
    Wf(v) && SameBelow(w, v) && Evolves(w, v, Top(w))
  }

  /** Leaving a context: the parent list has one new entry in front, the
      scheduled completion bottom half, and nothing below is changed. */
  ghost predicate Returned(w: World, v: World) {
    && Wf(v) && |w.ctxs| >= 2 && Evolves(w, v, Top(w))
    && if v.halted then |v.ctxs| >= |w.ctxs| && v.ctxs[..Top(w)] == w.ctxs[..Top(w)]
       else
         && |v.ctxs| == Top(w) && v.ctxs[..Top(v)] == w.ctxs[..Top(v)]
         && var c := |v.bhs| - 1;
            c >= |w.bhs| && v.ctxs[Top(v)] == [c] + w.ctxs[Top(v)]
            && v.bhs[c] == Bh(true, false, false, false, Top(v), true, 0, 1)
  }

  lemma ConfinedIsIsolated(w: World, v: World)
    requires w.ctxs != [] && Confined(w, v)
    ensures Isolated(w, v)
  {
    EvolvesWeaken(w, v, Top(w) + 1, Top(w));
  }

  lemma IsolatedTrans(u: World, v: World, w: World)
    requires u.ctxs != [] && Isolated(u, v) && !v.halted && Isolated(v, w)
    ensures Isolated(u, w)
  {
    EvolvesTrans(u, v, w, Top(u));
  }

  lemma ConfinedTrans(u: World, v: World, w: World)
    requires u.ctxs != [] && Confined(u, v) && !v.halted && Confined(v, w)
    ensures Confined(u, w)
  {
    EvolvesTrans(u, v, w, Top(u) + 1);
    GrownTrans(u, v, w);
  }

  lemma NothingDone(w: World)
    requires Wf(w) && !w.halted
    ensures Confined(w, w) && Isolated(w, w)
  {
    forall b | 0 <= b < |w.bhs| ensures BhEvolves(w.bhs[b], w.bhs[b], Top(w) + 1) {}
    ConfinedIsIsolated(w, w);
  }

  lemma {:induction false} RunOneEffect(w: World, b: nat)
    requires Wf(w) && !w.halted && Due(w, b) && w.bhs[b].ctx == Top(w)
    ensures PollingEffect(w, RunOne(w, b), [b])
    decreases |w.oracle|, 0
  {
    EnterEvolves(w, b);
    var c, v := Enter(w, b), RunOne(w, b);
    NothingDone(c);
    if c.oracle == [] {
    } else {
      var c' := c.(oracle := c.oracle[1..]);
      assert c.oracle[0] in c.oracle;
      ExecConfined(c', c.oracle[0]);
    }
    hide Wf, Evolves, Grown, QuietBut;
    RunOneTogether(w, b, c, v);
  }

  lemma {:induction false} RunListEffect(w: World, list: seq<nat>, ret: bool)
    requires Wf(w) && !w.halted && Snapshot(w, list)
    ensures PollingEffect(w, RunList(w, list, ret).0, list)
    decreases |w.oracle|, 1, |list|
  {
    hide PollingEffect, Evolves, Grown, QuietBut;
    if list == [] {
      NothingPolled(w, list);
    } else if Due(w, list[0]) {
      RunOneEffect(w, list[0]);
      var u := RunOne(w, list[0]);
      PollingWiden(w, u, [list[0]], list);
      if !u.halted {
        SnapshotKept(w, u, list);
        var ret' := ret || !w.bhs[list[0]].idle;
        PollingWf(w, u, list);
        RunListEffect(u, list[1..], ret');
        PollingWiden(u, RunList(u, list[1..], ret').0, list[1..], list);
        PollingTrans(w, u, RunList(u, list[1..], ret').0, list);
      }
    } else {
      RunListEffect(w, list[1..], ret);
      PollingWiden(w, RunList(w, list[1..], ret).0, list[1..], list);
    }
  }

  lemma PollingWf(w: World, v: World, list: seq<nat>)
    requires PollingEffect(w, v, list)
    ensures Wf(v) && Isolated(w, v)
  {
  }

  lemma {:induction false} PollEffect(w: World)
    requires Wf(w) && !w.halted
    ensures Isolated(w, PollOnce(w).0)
    decreases |w.oracle|, 2
  {
    var list := w.ctxs[Top(w)];
    forall j | 0 <= j < |list| ensures list[j] < |w.bhs| && w.bhs[list[j]].ctx == Top(w) {
      assert Listed(w, Top(w), w.ctxs[Top(w)][j]);
    }
    RunListEffect(w, list, false);
    var v := RunList(w, list, false).0;
    PollingWf(w, v, list);
    if !v.halted {
      SweepEvolves(v);
      hide Wf, Evolves, SameBelow, Sweep;
      IsolatedSweep(w, v);
    }
  }

  lemma IsolatedSweep(w: World, v: World)
    requires w.ctxs != [] && Isolated(w, v) && !v.halted
    ensures Isolated(w, Sweep(v))
  {
    SweepEvolves(v);
    hide Sweep;
    IsolatedTrans(w, v, Sweep(v));
  }

  lemma {:induction false} PopEffect(w: World)
    requires Wf(w) && !w.halted && |w.ctxs| >= 2
    ensures Returned(w, Pop(w))
    decreases |w.oracle|, 3
  {
    PollEffect(w);
    var (v, ret) := PollOnce(w);
    if v.halted {
    } else if ret {
      PopEffect(v);
      ReturnedAfter(w, v, Pop(v));
    } else {
      LeaveEffect(w, v);
    }
  }

  lemma ReturnedAfter(u: World, v: World, w: World)
    requires u.ctxs != [] && Isolated(u, v) && !v.halted && Returned(v, w)
    ensures Returned(u, w)
  {
    EvolvesTrans(u, v, w, Top(u));
    if !w.halted {
      assert v.ctxs[..Top(v)][Top(w)] == u.ctxs[..Top(u)][Top(w)];
      assert v.ctxs[..Top(w)] == v.ctxs[..Top(v)][..Top(w)] == u.ctxs[..Top(w)];
    } else {
      assert w.ctxs[..Top(v)] == v.ctxs[..Top(v)];
    }
  }

  /** Switching back to the parent and creating the completion bottom half. */
  lemma LeaveEffect(w: World, v: World)
    requires |w.ctxs| >= 2 && Isolated(w, v) && !v.halted
    ensures Returned(w, Leave(v))
  {
    var p := v.(ctxs := v.ctxs[..Top(v)]);
    forall i, j | 0 <= i < |p.ctxs| && 0 <= j < |p.ctxs[i]| ensures Listed(p, i, p.ctxs[i][j]) {
      assert Listed(v, i, v.ctxs[i][j]);
    }
    NewEvolves(p, true, Top(w));
    var n := BhNew(p, true);
    var c := |v.bhs|;
    SetBhEvolves(n, c, n.bhs[c].(scheduled := true, idle := false, arms := 1), Top(w));
    var r := BhSchedule(n, c, false);
    EvolvesTrans(w, p, n, Top(w));
    EvolvesTrans(w, n, r, Top(w));
    assert p.ctxs[Top(p)] == v.ctxs[..Top(v)][Top(p)] == w.ctxs[Top(p)];
    assert r.ctxs[..Top(r)] == p.ctxs[..Top(p)] == w.ctxs[..Top(r)];
  }

  lemma PrefixKept<T>(a: seq<T>, b: seq<T>, n: nat)
    requires n <= |a| && n <= |b| && a[..n] == b[..n]
    ensures forall m :: 0 <= m < n ==> a[m] == b[m]
    ensures forall m :: 0 <= m <= n ==> a[..m] == b[..m]
  {
    forall m | 0 <= m < n ensures a[m] == b[m] {
      assert a[..n][m] == b[..n][m];
    }
  }

  /** The lists below a context that was pushed are kept until it is left. */
  lemma NestedKeeps(w: World, u: World, v: World)
    requires w.ctxs != [] && |u.ctxs| > |w.ctxs| && u.ctxs[..|w.ctxs|] == w.ctxs
    requires |v.ctxs| >= |w.ctxs|
    requires if v.halted then v.ctxs[..|w.ctxs|] == u.ctxs[..|w.ctxs|]
             else
               && |v.ctxs| == |w.ctxs| && v.ctxs[..Top(w)] == u.ctxs[..Top(w)]
               && exists c: nat :: c >= |w.bhs| && v.ctxs[Top(w)] == [c] + u.ctxs[Top(w)]
    ensures Grown(w, v)
  {
    PrefixKept(u.ctxs, w.ctxs, |w.ctxs|);
    if v.halted {
      PrefixKept(v.ctxs, u.ctxs, |w.ctxs|);
    } else {
      PrefixKept(v.ctxs, u.ctxs, Top(w));
    }
  }

  lemma NestedEffect(w: World, u: World, v: World)
    requires Wf(w) && !w.halted && Isolated(Push(w), u)
    requires if u.halted then v == u else |u.ctxs| >= 2 && Returned(u, v)
    ensures Confined(w, v)
  {
    PushEvolves(w, Top(w) + 1);
    EvolvesTrans(w, Push(w), u, Top(w) + 1);
    assert Push(w).ctxs[..|w.ctxs|] == w.ctxs;
    if !u.halted {
      EvolvesTrans(w, u, v, Top(w) + 1);
    }
    assert |w.bhs| <= |u.bhs|;
    hide Wf, Evolves, Grown;
    if u.halted {
      NestedKeeps(w, u, v);
    } else {
      assert |u.ctxs| == |w.ctxs| + 1;
      NestedKeeps(w, u, v);
    }
  }

  lemma {:induction false} StepConfined(w: World, act: Action)
    requires Wf(w) && !w.halted && !act.Poll?
    ensures Confined(w, Step(w, act))
    decreases |w.oracle|, 4, act
  {
    var k := Top(w) + 1;
    match act {
      case New => NewEvolves(w, false, k);
      case Schedule(b) =>
        NothingDone(w);
        if Live(w, b) && !w.bhs[b].scheduled {
          SetBhEvolves(w, b, BhSchedule(w, b, false).bhs[b], k);
        }
      case ScheduleIdle(b) =>
        NothingDone(w);
        if Live(w, b) && !w.bhs[b].scheduled {
          SetBhEvolves(w, b, BhSchedule(w, b, true).bhs[b], k);
        }
      case Cancel(b) =>
        NothingDone(w);
        if Live(w, b) {
          SetBhEvolves(w, b, BhCancel(w, b).bhs[b], k);
        }
      case Delete(b) =>
        NothingDone(w);
        if Live(w, b) {
          SetBhEvolves(w, b, BhDelete(w, b).bhs[b], k);
        }
      case Nested(body) =>
        PushEvolves(w, k);
        ExecIsolated(Push(w), body);
        var u := Exec(Push(w), body);
        if !u.halted {
          PopEffect(u);
        }
        NestedEffect(w, u, Step(w, act));
    }
  }

  lemma {:induction false} ExecConfined(w: World, acts: seq<Action>)
    requires Wf(w) && !w.halted && NoPoll(acts)
    ensures Confined(w, Exec(w, acts))
    decreases |w.oracle|, 4, acts
  {
    if acts == [] {
      NothingDone(w);
    } else {
      StepConfined(w, acts[0]);
      var u := Step(w, acts[0]);
      if !u.halted {
        ExecConfined(u, acts[1..]);
        ConfinedTrans(w, u, Exec(u, acts[1..]));
      }
    }
  }

  lemma {:induction false} ExecIsolated(w: World, acts: seq<Action>)
    requires Wf(w) && !w.halted
    ensures Isolated(w, Exec(w, acts))
    decreases |w.oracle|, 4, acts
  {
    if acts == [] {
      NothingDone(w);
    } else {
      var u := Step(w, acts[0]);
      if acts[0].Poll? {
        PollEffect(w);
      } else {
        StepConfined(w, acts[0]);
        ConfinedIsIsolated(w, u);
      }
      if !u.halted {
        ExecIsolated(u, acts[1..]);
        IsolatedTrans(w, u, Exec(u, acts[1..]));
      }
    }
  }

  // ---- The guarantees ----

  /** All that a nested context leaves in the lists: its completion bottom half
      `c` in front of the list of the surrounding context. */
  ghost predicate LeftBehind(w: World, v: World, c: nat)
    requires w.ctxs != []
  {
    v.ctxs == w.ctxs[Top(w) := [c] + w.ctxs[Top(w)]]
    && c < |v.bhs| && v.bhs[c] == Bh(true, false, false, false, Top(w), true, 0, 1)
  }

  /** Context isolation: between a push and its matching pop, whatever the body
      and the callbacks do, no bottom half of the surrounding context or of any
      context below runs or is freed; afterwards the surrounding list has grown
      by exactly the scheduled completion bottom half, and the lists below are
      untouched.  A run that stops in between has changed none of them. */
  lemma ContextIsolation(w: World, body: seq<Action>)
    requires Wf(w) && !w.halted
    ensures var v := Step(w, Nested(body));
            && |w.bhs| <= |v.bhs|
            && (forall b :: 0 <= b < |w.bhs| && w.bhs[b].ctx <= Top(w) ==>
                  v.bhs[b].runs == w.bhs[b].runs && v.bhs[b].freed == w.bhs[b].freed)
            && (v.halted ==> w.ctxs <= v.ctxs)
            && (!v.halted ==>
                  |v.bhs| > |w.bhs| && LeftBehind(w, v, |v.bhs| - 1))
  {
    StepConfined(w, Nested(body));
    OuterAtRest(w, Step(w, Nested(body)));
    NestedReturns(w, body);
  }

  lemma OuterAtRest(w: World, v: World)
    requires w.ctxs != [] && Confined(w, v)
    ensures |w.bhs| <= |v.bhs|
    ensures forall b :: 0 <= b < |w.bhs| && w.bhs[b].ctx <= Top(w) ==>
              v.bhs[b].runs == w.bhs[b].runs && v.bhs[b].freed == w.bhs[b].freed
  {
    forall b | 0 <= b < |w.bhs| && w.bhs[b].ctx <= Top(w)
      ensures v.bhs[b].runs == w.bhs[b].runs && v.bhs[b].freed == w.bhs[b].freed
    {
      assert BhEvolves(w.bhs[b], v.bhs[b], Top(w) + 1);
    }
  }

  lemma NestedReturns(w: World, body: seq<Action>)
    requires Wf(w) && !w.halted
    ensures var v := Step(w, Nested(body));
            if v.halted then w.ctxs <= v.ctxs else |v.bhs| > |w.bhs| && LeftBehind(w, v, |v.bhs| - 1)
  {
    PushEvolves(w, 0);
    ExecIsolated(Push(w), body);
    var u := Exec(Push(w), body);
    assert |w.bhs| <= |u.bhs| && u.ctxs[..|w.ctxs|] == w.ctxs && (!u.halted ==> |u.ctxs| == |w.ctxs| + 1);
    if !u.halted {
      PopEffect(u);
      hide Wf, Evolves, Exec, Pop;
      NestedLists(w, u, Pop(u));
    }
  }

  lemma NestedLists(w: World, u: World, v: World)
    requires w.ctxs != [] && |u.ctxs| == |w.ctxs| + 1 && u.ctxs[..|w.ctxs|] == w.ctxs && Returned(u, v)
    ensures v.halted ==> w.ctxs <= v.ctxs
    ensures !v.halted ==> |v.bhs| > 0 && LeftBehind(w, v, |v.bhs| - 1)
  {
    if v.halted {
      assert v.ctxs[..Top(u)] == u.ctxs[..Top(u)] == w.ctxs;
    } else {
      assert u.ctxs[Top(v)] == u.ctxs[..|w.ctxs|][Top(w)];
      assert v.ctxs[..Top(w)] == u.ctxs[..Top(w)] == u.ctxs[..|w.ctxs|][..Top(w)];
      assert v.ctxs == v.ctxs[..Top(w)] + [v.ctxs[Top(w)]];
    }
  }

  /** One poll that runs to its end: runs are paid for by transitions to
      scheduled, deleted bottom halves stay still, those created meanwhile wait,
      and the list keeps exactly what is not deleted, in order, behind the
      survivors of the newly created ones. */
  lemma PollSemantics(w: World)
    requires Wf(w) && !w.halted && !PollOnce(w).0.halted
    ensures var v := PollOnce(w).0;
            var u := RunList(w, w.ctxs[Top(w)], false).0;
            && v == Sweep(u) && Top(u) == Top(w)
            && Prepended(u.ctxs[Top(w)], w.ctxs[Top(w)], |w.bhs|)
            && v.ctxs[Top(w)] == KeepLive(u.bhs, u.ctxs[Top(w)])
            && |w.bhs| <= |v.bhs|
            && (forall b :: 0 <= b < |w.bhs| ==>
                  var x, y := w.bhs[b], v.bhs[b];
                  y.runs + (if y.scheduled then 1 else 0) - y.arms <= x.runs + (if x.scheduled then 1 else 0) - x.arms
                  && (x.deleted ==> y.runs == x.runs))
            && (forall b :: |w.bhs| <= b < |v.bhs| && v.bhs[b].ctx == Top(w) ==> v.bhs[b].runs == 0)
  {
    var list := w.ctxs[Top(w)];
    forall j | 0 <= j < |list| ensures list[j] < |w.bhs| && w.bhs[list[j]].ctx == Top(w) {
      assert Listed(w, Top(w), w.ctxs[Top(w)][j]);
    }
    RunListEffect(w, list, false);
    PollEffect(w);
    var v := PollOnce(w).0;
    forall b | 0 <= b < |w.bhs| ensures BhEvolves(w.bhs[b], v.bhs[b], Top(w)) {}
  }

  /** The callbacks that the loop of a poll calls itself, in order: whether each
      was idle. */
  function Visits(w: World, list: seq<nat>): seq<bool>
    requires w.ctxs != []
    decreases |w.oracle|, |list|
  {
    if list == [] || w.halted then []
    else if Due(w, list[0]) then
      var u := RunOne(w, list[0]);
      [w.bhs[list[0]].idle] + if u.halted then [] else Visits(u, list[1..])
    else Visits(w, list[1..])
  }

  /** The result of a poll: whether a callback ran that was not idle. */
  lemma {:induction false} PollResult(w: World, list: seq<nat>, ret: bool)
    requires w.ctxs != []
    ensures RunList(w, list, ret).1 <==> ret || false in Visits(w, list)
    decreases |w.oracle|, |list|
  {
    if list == [] || w.halted {
    } else {
      if Due(w, list[0]) {
        var u, ret' := RunOne(w, list[0]), ret || !w.bhs[list[0]].idle;
        if !u.halted {
          PollResult(u, list[1..], ret');
        } else {
          assert RunList(u, list[1..], ret') == (u, ret');
        }
      } else {
        PollResult(w, list[1..], ret);
      }
    }
  }

  lemma {:induction false} NoVisits(w: World, list: seq<nat>, ret: bool)
    requires w.ctxs != [] && !w.halted && Visits(w, list) == []
    ensures RunList(w, list, ret).0 == w && forall b :: b in list ==> !Due(w, b)
    decreases |list|
  {
    if list == [] {
    } else {
      NoVisits(w, list[1..], ret);
    }
  }

  lemma SomeVisit(s: seq<bool>)
    ensures s == [] || true in s || false in s
  {
    if s != [] {
      assert if s[0] then s[0] == true else s[0] == false;
    }
  }

  /** A poll that returns false and ran no idle callback ran none at all, and
      leaves nothing of the current context scheduled. */
  lemma QuietPollLeavesNothingScheduled(w: World)
    requires Wf(w) && !w.halted && !PollOnce(w).1 && true !in Visits(w, w.ctxs[Top(w)])
    ensures var v := PollOnce(w).0;
            v == Sweep(w) && forall b :: b in v.ctxs[Top(v)] ==> b < |v.bhs| && !v.bhs[b].scheduled
  {
    var list := w.ctxs[Top(w)];
    PollResult(w, list, false);
    SomeVisit(Visits(w, list));
    NoVisits(w, list, false);
    var v := Sweep(w);
    forall b | b in v.ctxs[Top(v)] ensures b < |v.bhs| && !v.bhs[b].scheduled {
      KeepLiveFrom(w.bhs, list, b);
      var j :| 0 <= j < |list| && list[j] == b;
      assert Listed(w, Top(w), w.ctxs[Top(w)][j]) && !Due(w, list[j]);
    }
  }

  /** Over any code at all: each run of a bottom half is paid for by one
      transition to scheduled (or by being scheduled at the start), and a
      deleted one never runs again. */
  lemma RunsArePaidFor(w: World, acts: seq<Action>, b: nat)
    requires Wf(w) && !w.halted && b < |w.bhs|
    ensures var v := Exec(w, acts);
            && b < |v.bhs|
            && v.bhs[b].runs - w.bhs[b].runs
               <= v.bhs[b].arms - w.bhs[b].arms + (if w.bhs[b].scheduled then 1 else 0)
            && (w.bhs[b].deleted ==> v.bhs[b].deleted && v.bhs[b].runs == w.bhs[b].runs)
  {
    ExecIsolated(w, acts);
    assert BhEvolves(w.bhs[b], Exec(w, acts).bhs[b], Top(w));
  }

  // ---- Scheduling ----

  /** A new bottom half is in front of the current list, neither scheduled nor
      deleted, and everything else is as before. */
  lemma NewMarks(w: World)
    requires w.ctxs != []
    ensures var v, b := Step(w, New), |w.bhs|;
            && |v.bhs| == b + 1 && v.bhs[..b] == w.bhs && v.ctxs == w.ctxs[Top(w) := [b] + w.ctxs[Top(w)]]
            && !v.bhs[b].scheduled && !v.bhs[b].deleted && !v.bhs[b].freed && v.bhs[b].runs == 0
            && v.bhs[b].ctx == Top(w) && v.oracle == w.oracle && v.halted == w.halted
  {
  }

  /** Scheduling marks a bottom half that was not scheduled, as idle or not; one
      that was stays as it is, even if it was scheduled the other way. */
  lemma ScheduleMarks(w: World, b: nat, act: Action)
    requires w.ctxs != [] && Live(w, b) && act in {Schedule(b), ScheduleIdle(b)}
    ensures var v := Step(w, act);
            && (w.bhs[b].scheduled ==> v == w)
            && (!w.bhs[b].scheduled ==>
                  && v == w.(bhs := w.bhs[b := v.bhs[b]]) && v.bhs[b].scheduled && v.bhs[b].idle == act.ScheduleIdle?
                  && v.bhs[b].deleted == w.bhs[b].deleted && v.bhs[b].runs == w.bhs[b].runs)
  {
  }

  // ---- Deleting ----

  /** Deleting marks one bottom half and takes it out of the schedule; nothing
      else changes. */
  lemma DeleteMarks(w: World, b: nat)
    requires w.ctxs != [] && Live(w, b)
    ensures var v := Step(w, Delete(b));
            && |v.bhs| == |w.bhs| && v.bhs[b].deleted && !v.bhs[b].scheduled && v.bhs[b].runs == w.bhs[b].runs
            && (forall c :: 0 <= c < |w.bhs| && c != b ==> v.bhs[c] == w.bhs[c])
            && v.ctxs == w.ctxs && v.oracle == w.oracle && v.halted == w.halted
  {
  }

  /** Whatever code follows a delete, the bottom half never runs again. */
  lemma DeletedNeverRuns(w: World, b: nat, acts: seq<Action>)
    requires Wf(w) && !w.halted && Live(w, b)
    ensures var v := Exec(w, [Delete(b)] + acts);
            b < |v.bhs| && v.bhs[b].runs == w.bhs[b].runs && v.bhs[b].deleted
  {
    var u := Step(w, Delete(b));
    DeleteMarks(w, b);
    StepConfined(w, Delete(b));
    assert ([Delete(b)] + acts)[1..] == acts;
    assert Exec(w, [Delete(b)] + acts) == Exec(u, acts);
    hide Exec, Step, Wf;
    ExecIsolated(u, acts);
    assert BhEvolves(u.bhs[b], Exec(u, acts).bhs[b], Top(u));
  }

  /** The end of a poll frees what has been deleted by then, and no list holds it
      any more. */
  lemma SweepFrees(w: World, u: World, b: nat)
    requires w.ctxs != [] && b in w.ctxs[Top(w)] && PollingEffect(w, u, w.ctxs[Top(w)]) && !u.halted
    requires b < |u.bhs| && u.bhs[b].deleted
    ensures var v := Sweep(u);
            b < |v.bhs| && v.bhs[b].freed && forall i :: 0 <= i < |v.ctxs| ==> b !in v.ctxs[i]
  {
    var v, list := Sweep(u), u.ctxs[Top(u)];
    var now, was := u.ctxs[Top(w)], w.ctxs[Top(w)];
    var j :| 0 <= j < |was| && was[j] == b;
    assert now[|now| - |was|..][j] == b;
    assert b in list;
    SweepEvolves(u);
    forall i | 0 <= i < |v.ctxs| ensures b !in v.ctxs[i] {
      forall k | 0 <= k < |v.ctxs[i]| ensures v.ctxs[i][k] != b {
        assert Listed(v, i, v.ctxs[i][k]);
      }
    }
  }

  /** A deleted bottom half of the current context is freed by the next poll that
      ends, and is in no list after it. */
  lemma DeletedIsFreed(w: World, b: nat)
    requires Wf(w) && !w.halted && b in w.ctxs[Top(w)] && b < |w.bhs| && w.bhs[b].deleted
    requires !PollOnce(w).0.halted
    ensures var v := PollOnce(w).0;
            && b < |v.bhs| && v.bhs[b].freed && v.bhs[b].runs == w.bhs[b].runs
            && forall i :: 0 <= i < |v.ctxs| ==> b !in v.ctxs[i]
  {
    var list := w.ctxs[Top(w)];
    ListSnapshot(w);
    RunListEffect(w, list, false);
    var u := RunList(w, list, false).0;
    assert BhEvolves(w.bhs[b], u.bhs[b], Top(w));
    hide RunList, PollingEffect, BhEvolves;
    SweepFrees(w, u, b);
  }

  lemma ListSnapshot(w: World)
    requires Wf(w)
    ensures Snapshot(w, w.ctxs[Top(w)])
  {
    forall j | 0 <= j < |w.ctxs[Top(w)]| ensures w.ctxs[Top(w)][j] < |w.bhs| && w.bhs[w.ctxs[Top(w)][j]].ctx == Top(w) {
      assert Listed(w, Top(w), w.ctxs[Top(w)][j]);
    }
  }

  lemma FirstEntryRuns(w: World)
    requires Wf(w) && !w.halted && w.ctxs[Top(w)] != [] && Due(w, w.ctxs[Top(w)][0])
    ensures var list := w.ctxs[Top(w)];
            var b, x := list[0], RunList(w, list, false).0;
            && b < |x.bhs| && x.bhs[b].runs > w.bhs[b].runs && (w.bhs[b].completion ==> x.bhs[b].deleted)
  {
    var list := w.ctxs[Top(w)];
    var b := list[0];
    ListSnapshot(w);
    assert Listed(w, Top(w), w.ctxs[Top(w)][0]);
    RunOneRuns(w, b);
    var u, rest := RunOne(w, b), list[1..];
    var x := RunList(u, rest, !w.bhs[b].idle).0;
    assert RunList(w, list, false).0 == x;
    hide RunOne;
    if u.halted {
      assert x == u;
    } else {
      RunOneEffect(w, b);
      PollingWf(w, u, [b]);
      SnapshotRest(w, u, list, b);
      hide RunList, Wf, QuietBut, Grown;
      RunListEffect(u, rest, !w.bhs[b].idle);
      assert BhEvolves(u.bhs[b], x.bhs[b], Top(u));
    }
  }

  /** What a poll runs first: the first entry, if it is due, runs in every poll,
      and a completion bottom half, which a pop leaves there, is freed with it. */
  lemma FirstDueRuns(w: World)
    requires Wf(w) && !w.halted && w.ctxs[Top(w)] != [] && Due(w, w.ctxs[Top(w)][0])
    ensures var b, v := w.ctxs[Top(w)][0], PollOnce(w).0;
            && b < |v.bhs| && v.bhs[b].runs > w.bhs[b].runs
            && (w.bhs[b].completion && !v.halted ==>
                  v.bhs[b].freed && forall i :: 0 <= i < |v.ctxs| ==> b !in v.ctxs[i])
  {
    var list := w.ctxs[Top(w)];
    ListSnapshot(w);
    FirstEntryRuns(w);
    RunListEffect(w, list, false);
    var x := RunList(w, list, false).0;
    hide RunList, PollingEffect, BhEvolves, Wf;
    if !x.halted && w.bhs[list[0]].completion {
      SweepFrees(w, x, list[0]);
    }
  }

  lemma SnapshotRest(w: World, u: World, list: seq<nat>, b: nat)
    requires Snapshot(w, list) && list != [] && PollingEffect(w, u, [b]) && !u.halted && w.ctxs != []
    ensures Snapshot(u, list[1..])
  {
    forall j | 0 <= j < |list[1..]| ensures list[1..][j] < |u.bhs| && u.bhs[list[1..][j]].ctx == Top(u) {
      assert BhEvolves(w.bhs[list[j + 1]], u.bhs[list[j + 1]], Top(w));
    }
  }

  /** A callback that is called counts as a run; a completion bottom half is
      deleted by it. */
  lemma RunOneRuns(w: World, b: nat)
    requires Wf(w) && !w.halted && Due(w, b) && w.bhs[b].ctx == Top(w) && Live(w, b)
    ensures var u := RunOne(w, b);
            b < |u.bhs| && u.bhs[b].runs > w.bhs[b].runs && (w.bhs[b].completion ==> u.bhs[b].deleted)
  {
    EnterEvolves(w, b);
    var c := Enter(w, b);
    if c.oracle != [] {
      var d := c.(oracle := c.oracle[1..]);
      assert c.oracle[0] in c.oracle;
      ExecConfined(d, c.oracle[0]);
      assert BhEvolves(d.bhs[b], Exec(d, c.oracle[0]).bhs[b], Top(d) + 1);
    }
  }
}
