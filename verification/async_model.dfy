/** Bottom halves and the AsyncContext stack (async.c), as functions on values.

    Callbacks are arbitrary: every callback that runs takes the next script from
    `oracle` and performs its actions.  A run that needs a callback when the
    oracle is used up stops there (`halted`), so the statements below hold at
    the end of every finite part of every run. */
module AsyncModel {
  /** What code may do.  `Nested` is a balanced push, body, pop. */
  datatype Action =
    | New
    | Schedule(bh: nat)
    | ScheduleIdle(bh: nat)
    | Cancel(bh: nat)
    | Delete(bh: nat)
    | Poll
    | Nested(body: seq<Action>)

  /** A bottom half.  `ctx` is the stack position of the context it was created
      in; `completion` marks the one that `async_context_pop` creates; `runs`
      counts its callbacks and `arms` its transitions to scheduled. */
  datatype Bh = Bh(scheduled: bool, idle: bool, deleted: bool, freed: bool,
                   ctx: nat, completion: bool, runs: nat, arms: nat)

  /** `ctxs` holds the list of each context, the current one last; new bottom
      halves are prepended to the current list. */
  datatype World = World(bhs: seq<Bh>, ctxs: seq<seq<nat>>, oracle: seq<seq<Action>>, halted: bool)

  function Top(w: World): int { |w.ctxs| - 1 }

  // ---- The elementary operations ----

  function BhNew(w: World, completion: bool): World
    requires w.ctxs != []
  {
    var bh := Bh(false, false, false, false, Top(w), completion, 0, 0);
    w.(bhs := w.bhs + [bh], ctxs := w.ctxs[Top(w) := [|w.bhs|] + w.ctxs[Top(w)]])
  }

  /** A handle that still refers to a bottom half. */
  predicate Live(w: World, b: nat) { b < |w.bhs| && !w.bhs[b].freed }

  function SetBh(w: World, b: nat, bh: Bh): World
    requires b < |w.bhs|
  {
    w.(bhs := w.bhs[b := bh])
  }

  function BhSchedule(w: World, b: nat, idle: bool): World
    requires Live(w, b)
  {
    var bh := w.bhs[b];
    if bh.scheduled then w else SetBh(w, b, bh.(scheduled := true, idle := idle, arms := bh.arms + 1))
  }

  function BhCancel(w: World, b: nat): World
    requires Live(w, b)
  {
    SetBh(w, b, w.bhs[b].(scheduled := false))
  }

  function BhDelete(w: World, b: nat): World
    requires Live(w, b)
  {
    SetBh(w, b, w.bhs[b].(scheduled := false, deleted := true))
  }

  function Push(w: World): World { w.(ctxs := w.ctxs + [[]]) }

  // ---- Running code ----

  /** The current list without the deleted bottom halves, which are freed. */
  function KeepLive(bhs: seq<Bh>, list: seq<nat>): seq<nat> {
    if list == [] then []
    else if list[0] < |bhs| && bhs[list[0]].deleted then KeepLive(bhs, list[1..])
    else [list[0]] + KeepLive(bhs, list[1..])
  }

  function FreeDeleted(bhs: seq<Bh>, list: seq<nat>): (r: seq<Bh>)
    ensures |r| == |bhs|
  {
    seq(|bhs|, i requires 0 <= i < |bhs| =>
      if bhs[i].deleted && i in list then bhs[i].(freed := true) else bhs[i])
  }

  function Sweep(w: World): World
    requires w.ctxs != []
  {
    var list := w.ctxs[Top(w)];
    w.(bhs := FreeDeleted(w.bhs, list), ctxs := w.ctxs[Top(w) := KeepLive(w.bhs, list)])
  }

  /** The flags as `qemu_bh_poll` leaves them before it calls the callback. */
  function Claim(w: World, b: nat): World
    requires b < |w.bhs|
  {
    SetBh(w, b, w.bhs[b].(scheduled := false, idle := false, runs := w.bhs[b].runs + 1))
  }

  /** The callback of `b` up to its arbitrary part. */
  function Enter(w: World, b: nat): World
    requires b < |w.bhs|
  {
    var c := Claim(w, b);
    if c.bhs[b].completion && !c.bhs[b].freed then BhDelete(c, b) else c
  }

  /** One callback: its own actions follow the script from the oracle. */
  function RunOne(w: World, b: nat): (r: World)
    requires w.ctxs != [] && b < |w.bhs|
    ensures r.ctxs != [] && |r.oracle| <= |w.oracle|
    ensures !r.halted ==> |r.oracle| < |w.oracle|
    decreases |w.oracle|, 0
  {
    var c := Enter(w, b);
    if c.oracle == [] then c.(halted := true) else Exec(c.(oracle := c.oracle[1..]), c.oracle[0])
  }

  predicate Due(w: World, b: nat) { b < |w.bhs| && !w.bhs[b].deleted && w.bhs[b].scheduled }

  /** The loop of `qemu_bh_poll` over the rest of the list. */
  function RunList(w: World, list: seq<nat>, ret: bool): (r: (World, bool))
    requires w.ctxs != []
    ensures r.0.ctxs != [] && |r.0.oracle| <= |w.oracle|
    ensures r.1 && !ret && !r.0.halted ==> |r.0.oracle| < |w.oracle|
    decreases |w.oracle|, 1, |list|
  {
    if list == [] || w.halted then (w, ret)
    else if Due(w, list[0]) then RunList(RunOne(w, list[0]), list[1..], ret || !w.bhs[list[0]].idle)
    else RunList(w, list[1..], ret)
  }

  /** `qemu_bh_poll`. */
  function PollOnce(w: World): (r: (World, bool))
    requires w.ctxs != []
    ensures r.0.ctxs != [] && |r.0.oracle| <= |w.oracle|
    ensures r.1 && !r.0.halted ==> |r.0.oracle| < |w.oracle|
    decreases |w.oracle|, 2
  {
    var (v, ret) := RunList(w, w.ctxs[Top(w)], false);
    (if v.halted then v else Sweep(v), ret)
  }

  /** Back to the parent context, with a scheduled completion bottom half. */
  function Leave(v: World): World
    requires |v.ctxs| > 1
  {
    var n := BhNew(v.(ctxs := v.ctxs[..Top(v)]), true);
    BhSchedule(n, |v.bhs|, false)
  }

  /** `async_context_pop`: polls while a poll returns true, then leaves. */
  function Pop(w: World): (r: World)
    requires w.ctxs != []
    ensures r.ctxs != [] && |r.oracle| <= |w.oracle|
    decreases |w.oracle|, 3
  {
    var (v, ret) := PollOnce(w);
    if v.halted || |v.ctxs| == 1 then v
    else if ret then Pop(v)
    else Leave(v)
  }

  function Step(w: World, act: Action): (r: World)
    requires w.ctxs != []
    ensures r.ctxs != [] && |r.oracle| <= |w.oracle|
    decreases |w.oracle|, 4, act
  {
    match act
    case New => BhNew(w, false)
    case Schedule(b) => if Live(w, b) then BhSchedule(w, b, false) else w
    case ScheduleIdle(b) => if Live(w, b) then BhSchedule(w, b, true) else w
    case Cancel(b) => if Live(w, b) then BhCancel(w, b) else w
    case Delete(b) => if Live(w, b) then BhDelete(w, b) else w
    case Poll => PollOnce(w).0
    case Nested(body) =>
      var v := Exec(Push(w), body);
      if v.halted then v else Pop(v)
  }

  function Exec(w: World, acts: seq<Action>): (r: World)
    requires w.ctxs != []
    ensures r.ctxs != [] && |r.oracle| <= |w.oracle|
    decreases |w.oracle|, 4, acts
  {
    if acts == [] || w.halted then w else Exec(Step(w, acts[0]), acts[1..])
  }
}
