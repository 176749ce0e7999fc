/** Completion counting of `bdrv_aio_multiwrite` (block.c).

    The environment is a script: for every call of `bdrv_aio_writev` it says
    which outstanding writes complete while the call runs, and whether the
    write is accepted.  Quantifying over scripts covers every interleaving of
    submissions, early completions and submit failures. */
module MultiwriteProtocol {
  const EIO: int := 5

  /** One call of `bdrv_aio_writev`: results of writes that complete inside the
      call before the new write is queued, whether it is accepted, and results
      that arrive after it is queued but before the call returns. */
  datatype Submission = Submission(before: seq<int>, accepted: bool, after: seq<int>)

  /** The control block, and what an observer sees: `outstanding` accepted
      writes whose completion is still to come, the results handed to
      `multiwrite_cb` in order, the user callbacks made (index and error), and
      whether the block was used after it had been freed. */
  datatype State = State(
    numRequests: int,
    error: int,
    numCallbacks: nat,
    freed: bool,
    usedFreed: bool,
    outstanding: nat,
    results: seq<int>,
    calls: seq<(nat, int)>)

  function UserCalls(n: nat, error: int): seq<(nat, int)> { seq(n, i => (i, error)) }

  function CbStep(s: State, ret: int): State {
    var error := if ret < 0 && s.error == 0 then ret else s.error;
    var done := s.numRequests == 1;
    s.(error := error, numRequests := s.numRequests - 1, usedFreed := s.usedFreed || s.freed,
       freed := s.freed || done, results := s.results + [ret],
       calls := if done then s.calls + UserCalls(s.numCallbacks, error) else s.calls)
  }

  /** Completions arrive one by one, as long as there is a write to complete. */
  function DeliverStep(s: State, ret: int): State {
    if s.outstanding == 0 then s else CbStep(s.(outstanding := s.outstanding - 1), ret)
  }

  function Deliver(s: State, rets: seq<int>): State
    decreases |rets|
  {
    if rets == [] then s else Deliver(DeliverStep(s, rets[0]), rets[1..])
  }

  /** One call of `bdrv_aio_writev`. */
  function Writev(s: State, sub: Submission): State {
    var s1 := Deliver(s, sub.before);
    Deliver(if sub.accepted then s1.(outstanding := s1.outstanding + 1) else s1, sub.after)
  }

  /** The submit loop counts a request before it hands it to the driver. */
  function Claim(s: State): State {
    s.(numRequests := s.numRequests + 1, usedFreed := s.usedFreed || s.freed)
  }

  /** The submit loop from index `i` on; `failed` when the very first request
      could not be submitted. */
  function SubmitFrom(s: State, subs: seq<Submission>, i: nat): (r: (State, bool))
    requires i <= |subs|
    decreases |subs| - i
  {
    if i == |subs| then (s, false)
    else
      var s1 := Writev(Claim(s), subs[i]);
      if subs[i].accepted then SubmitFrom(s1, subs, i + 1)
      else if i == 0 then (s1, true)
      else (CbStep(s1, -EIO), false)
  }

  function Start(n: nat): State { State(1, 0, n, false, false, 0, [], []) }

  function MultiwriteRun(n: nat, subs: seq<Submission>): (State, int) {
    var (s, failed) := SubmitFrom(Start(n), subs, 0);
    if failed then (s.(freed := true), -1) else (CbStep(s, 0), 0)
  }

  function FirstError(results: seq<int>): int {
    if results == [] then 0 else if results[0] < 0 then results[0] else FirstError(results[1..])
  }

  // ---- Invariants ----

  lemma {:induction false} FirstErrorAppend(results: seq<int>, ret: int)
    ensures FirstError(results + [ret])
         == if FirstError(results) == 0 && ret < 0 then ret else FirstError(results)
    ensures FirstError(results) <= 0
  {
    if results == [] {
      assert [ret][1..] == [];
    } else {
      assert (results + [ret])[1..] == results[1..] + [ret];
      FirstErrorAppend(results[1..], ret);
    }
  }

  /** Before the last callback: the counter is the number of outstanding writes
      plus `held` claims of the submit loop, and nobody was called. */
  predicate Counting(s: State, held: int) {
    s.numRequests == s.outstanding + held && !s.freed && !s.usedFreed && s.calls == []
    && s.error == FirstError(s.results)
  }

  /** Everything completed: each callback was called once, in order. */
  predicate Completed(s: State) {
    s.outstanding == 0 && s.freed && !s.usedFreed && s.error == FirstError(s.results)
    && s.calls == UserCalls(s.numCallbacks, s.error)
  }

  lemma CbKeeps(s: State, ret: int, held: int)
    requires Counting(s, held) && held > 0
    ensures if s.outstanding == 0 && held == 1 then Completed(CbStep(s, ret))
            else Counting(CbStep(s, ret), held - 1)
  {
    FirstErrorAppend(s.results, ret);
  }

  lemma {:induction false} DeliverCounting(s: State, rets: seq<int>, held: int)
    requires Counting(s, held) && held > 0
    ensures Counting(Deliver(s, rets), held)
    ensures Deliver(s, rets).numCallbacks == s.numCallbacks
    ensures s.outstanding == 0 ==> Deliver(s, rets) == s
    decreases |rets|
  {
    if rets == [] {
    } else {
      if s.outstanding > 0 {
        CbKeeps(s.(outstanding := s.outstanding - 1), rets[0], held + 1);
      }
      DeliverCounting(DeliverStep(s, rets[0]), rets[1..], held);
    }
  }

  lemma WritevCounting(s: State, sub: Submission)
    requires Counting(s, 1)
    ensures var t := Writev(Claim(s), sub);
            Counting(t, if sub.accepted then 1 else 2) && t.numCallbacks == s.numCallbacks
            && (!sub.accepted && s.outstanding == 0 ==> t.outstanding == 0)
  {
    DeliverCounting(Claim(s), sub.before, 2);
    var s1 := Deliver(Claim(s), sub.before);
    if sub.accepted {
      DeliverCounting(s1.(outstanding := s1.outstanding + 1), sub.after, 1);
    } else {
      DeliverCounting(s1, sub.after, 2);
    }
  }

  /** The dummy request keeps the count above zero during the whole loop. */
  lemma {:induction false} SubmitCounting(s: State, subs: seq<Submission>, i: nat)
    requires i <= |subs| && Counting(s, 1) && (i == 0 ==> s.outstanding == 0)
    ensures var (t, failed) := SubmitFrom(s, subs, i);
            t.numCallbacks == s.numCallbacks
            && (failed <==> i == 0 && subs != [] && !subs[0].accepted)
            && (if failed then Counting(t, 2) && t.outstanding == 0 else Counting(t, 1))
    decreases |subs| - i
  {
    if i == |subs| {
    } else {
      WritevCounting(s, subs[i]);
      var s1 := Writev(Claim(s), subs[i]);
      if subs[i].accepted {
        SubmitCounting(s1, subs, i + 1);
      } else if i > 0 {
        CbKeeps(s1, -EIO, 2);
      }
    }
  }

  /** After the call returned 0: either some accepted write is still to
      complete and nobody was called, or all is done. */
  predicate Settled(s: State) { if s.outstanding > 0 then Counting(s, 0) else Completed(s) }

  lemma {:induction false} DeliverSettles(s: State, rets: seq<int>)
    requires Settled(s)
    ensures Settled(Deliver(s, rets)) && Deliver(s, rets).numCallbacks == s.numCallbacks
    ensures Deliver(s, rets).outstanding == if |rets| <= s.outstanding then s.outstanding - |rets| else 0
    decreases |rets|
  {
    if rets == [] {
    } else {
      if s.outstanding > 0 {
        CbKeeps(s.(outstanding := s.outstanding - 1), rets[0], 1);
      }
      DeliverSettles(DeliverStep(s, rets[0]), rets[1..]);
    }
  }

  /** The recorded error is the first negative result there is. */
  lemma {:induction false} FirstErrorMeaning(results: seq<int>)
    ensures if forall k :: 0 <= k < |results| ==> results[k] >= 0 then FirstError(results) == 0
            else exists k :: && 0 <= k < |results| && FirstError(results) == results[k] < 0
                             && forall j :: 0 <= j < k ==> results[j] >= 0
  {
    if results != [] && results[0] >= 0 {
      var rest := results[1..];
      FirstErrorMeaning(rest);
      if k :| 0 <= k < |rest| && FirstError(rest) == rest[k] < 0 && forall j :: 0 <= j < k ==> rest[j] >= 0 {
        assert results[k + 1] == rest[k];
        forall j | 0 <= j < k + 1 ensures results[j] >= 0 {
          assert j > 0 ==> results[j] == rest[j - 1];
        }
      } else {
        assert forall k :: 0 < k < |results| ==> results[k] == rest[k - 1];
      }
    }
  }

  /** The protocol, over every run.  Return value 0: whatever completes later,
      the user callbacks have all run exactly once, in order, with the first
      recorded error (or 0), if no accepted write is outstanding, and none has
      run otherwise.  Return value -1, exactly when the first request is
      refused: no callback ever runs.  The control block is not touched once
      it is freed. */
  lemma MultiwriteCompletes(n: nat, subs: seq<Submission>, later: seq<int>)
    requires subs != []
    ensures var (s, ret) := MultiwriteRun(n, subs);
            var t := Deliver(s, later);
            && !t.usedFreed
            && (ret == -1 <==> !subs[0].accepted)
            && (ret == 0 <==> subs[0].accepted)
            && (ret == -1 ==> t.calls == [] && t == s)
            && (ret == 0 ==>
                if t.outstanding > 0 then t.calls == [] && !t.freed
                else
                  && t.freed && t.calls == UserCalls(n, FirstError(t.results))
                  && |t.calls| == n && forall k :: 0 <= k < n ==> t.calls[k] == (k, FirstError(t.results)))
            && (ret == 0 && |later| >= s.outstanding ==> t.outstanding == 0)
  {
    SubmitCounting(Start(n), subs, 0);
    var (s, failed) := SubmitFrom(Start(n), subs, 0);
    var (r, ret) := MultiwriteRun(n, subs);
    if failed {
      NothingToDeliver(r, later);
    } else {
      CbKeeps(s, 0, 1);
      DeliverSettles(r, later);
    }
  }

  lemma {:induction false} NothingToDeliver(s: State, rets: seq<int>)
    requires s.outstanding == 0
    ensures Deliver(s, rets) == s
  {
    if rets == [] {
    } else {
      NothingToDeliver(s, rets[1..]);
    }
  }

  /** No callback runs before the submit loop has ended: at every point of the
      loop the callback log is empty (it only ever grows). */
  lemma NoCallbackWhileSubmitting(n: nat, subs: seq<Submission>, k: nat)
    requires k <= |subs|
    ensures SubmitFrom(Start(n), subs[..k], 0).0.calls == []
    ensures !SubmitFrom(Start(n), subs[..k], 0).0.freed
  {
    SubmitCounting(Start(n), subs[..k], 0);
  }

  // ---- The code ----

  /** `MultiwriteCB`, extended by the observations of `State`. */
  class MultiwriteCB {
    var numRequests: int
    var error: int
    const numCallbacks: nat
    var freed: bool
    var usedFreed: bool
    var outstanding: nat
    var results: seq<int>
    var calls: seq<(nat, int)>

    function Now(): State
      reads this
    {
      State(numRequests, error, numCallbacks, freed, usedFreed, outstanding, results, calls)
    }

    constructor (n: nat)
      ensures Now() == Start(n)
    {
      numRequests, error, numCallbacks, freed, usedFreed := 1, 0, n, false, false;
      outstanding, results, calls := 0, [], [];
    }

    /** Every access to the control block goes through here. */
    method Touch()
      modifies this`usedFreed
      ensures usedFreed == (old(usedFreed) || freed)
    {
      if freed {
        usedFreed := true;
      }
    }

    method UserCb()
      modifies this`calls
      ensures calls == old(calls) + UserCalls(numCallbacks, error)
      ensures |calls| == |old(calls)| + numCallbacks
      ensures forall k :: 0 <= k < numCallbacks ==> calls[|old(calls)| + k] == (k, error)
    {
      for i := 0 to numCallbacks
        invariant calls == old(calls) + UserCalls(i, error)
      {
        calls := calls + [(i, error)];
      }
    }

    method Cb(ret: int)
      modifies this
      ensures Now() == CbStep(old(Now()), ret)
    {
      Touch();
      results := results + [ret];
      if ret < 0 && error == 0 {
        error := ret;
      }
      numRequests := numRequests - 1;
      if numRequests == 0 {
        UserCb();
        freed := true;
      }
    }

    /** The driver completes outstanding writes. */
    method Complete(rets: seq<int>)
      modifies this
      ensures Now() == Deliver(old(Now()), rets)
    {
      var k := 0;
      while k < |rets|
        invariant 0 <= k <= |rets|
        invariant Deliver(Now(), rets[k..]) == Deliver(old(Now()), rets)
      {
        assert rets[k..][1..] == rets[k + 1..];
        if outstanding > 0 {
          outstanding := outstanding - 1;
          Cb(rets[k]);
        }
        k := k + 1;
      }
    }

    /** `bdrv_aio_writev`; false stands for a null result. */
    method AioWritev(sub: Submission) returns (acb: bool)
      modifies this
      ensures acb == sub.accepted
      ensures Now() == Writev(old(Now()), sub)
    {
      hide DeliverStep;
      Complete(sub.before);
      if sub.accepted {
        outstanding := outstanding + 1;
      }
      Complete(sub.after);
      acb := sub.accepted;
    }
  }

  /** `bdrv_aio_multiwrite` for the caller's requests, one slot in `errors`
      each; `subs` has one entry for each request that is left after merging. */
  method BdrvAioMultiwrite(errors: array<int>, subs: seq<Submission>) returns (mcb: MultiwriteCB?, ret: int)
    requires errors.Length == 0 <==> subs == []
    modifies errors
    ensures errors.Length == 0 ==> mcb == null && ret == 0
    ensures errors.Length > 0 ==>
              mcb != null && fresh(mcb) && (mcb.Now(), ret) == MultiwriteRun(errors.Length, subs)
    ensures ret == 0 ==> errors[..] == old(errors[..])
    ensures ret != 0 ==> forall k :: 0 <= k < errors.Length ==> errors[k] == -EIO
  {
    hide Deliver, CbStep, Writev;
    if errors.Length == 0 {
      return null, 0;
    }
    mcb := new MultiwriteCB(errors.Length);
    var i := 0;
    while i < |subs|
      invariant 0 <= i <= |subs|
      invariant SubmitFrom(mcb.Now(), subs, i) == SubmitFrom(Start(errors.Length), subs, 0)
      invariant errors[..] == old(errors[..])
    {
      mcb.Touch();
      mcb.numRequests := mcb.numRequests + 1;
      var acb := mcb.AioWritev(subs[i]);
      if !acb {
        if i == 0 {
          for k := 0 to errors.Length
            invariant forall j :: 0 <= j < k ==> errors[j] == -EIO
            modifies errors
          {
            errors[k] := -EIO;
          }
          mcb.freed := true;
          return mcb, -1;
        } else {
          mcb.Cb(-EIO);
          break;
        }
      }
      i := i + 1;
    }
    mcb.Cb(0);
    ret := 0;
  }
}
