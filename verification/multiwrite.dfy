/** `bdrv_aio_multiwrite` (block.c) as a whole: a batch is sorted and merged, what
    is left is submitted, and the user callbacks tell of the disk. */
module Multiwrite {
  import opened Bytes
  import opened MergedWrites
  import opened MultiwriteProtocol

  /** Of the merged requests, those that the driver accepted. */
  function Landed(merged: seq<Req>, subs: seq<Submission>): seq<Req>
    requires |merged| == |subs|
  {
    if subs == [] then []
    else (if subs[0].accepted then [merged[0]] else []) + Landed(merged[1..], subs[1..])
  }

  predicate AllAccepted(subs: seq<Submission>, i: nat) { forall k :: i <= k < |subs| ==> subs[k].accepted }

  lemma {:induction false} AllLanded(merged: seq<Req>, subs: seq<Submission>)
    requires |merged| == |subs| && AllAccepted(subs, 0)
    ensures Landed(merged, subs) == merged
  {
    if subs == [] {
    } else {
      assert forall k :: 0 <= k < |subs[1..]| ==> subs[1..][k] == subs[k + 1];
      AllLanded(merged[1..], subs[1..]);
      assert merged == [merged[0]] + merged[1..];
    }
  }

  predicate NoErrors(results: seq<int>) { forall k :: 0 <= k < |results| ==> results[k] >= 0 }

  lemma {:induction false} NoFirstError(results: seq<int>)
    ensures FirstError(results) == 0 <==> NoErrors(results)
  {
    if results == [] {
    } else {
      NoFirstError(results[1..]);
      assert forall k :: 0 <= k < |results[1..]| ==> results[1..][k] == results[k + 1];
      assert forall k :: 0 < k < |results| ==> results[k] == results[1..][k - 1];
    }
  }

  /** Accepted writes, whether or not their completion has arrived, and the
      results that the submit loop adds itself. */
  function Handled(s: State): nat { s.outstanding + |s.results| }

  lemma {:induction false} DeliverHandles(s: State, rets: seq<int>)
    ensures var t := Deliver(s, rets); Handled(t) == Handled(s) && (s.error != 0 ==> t.error != 0)
    decreases |rets|
  {
    if rets != [] {
      DeliverHandles(DeliverStep(s, rets[0]), rets[1..]);
    }
  }

  /** Without an error the submit loop has got through all requests. */
  lemma {:induction false} SubmitHandles(s: State, subs: seq<Submission>, i: nat)
    requires i <= |subs|
    ensures var (t, failed) := SubmitFrom(s, subs, i);
            && (!failed && t.error == 0 ==> AllAccepted(subs, i))
            && (AllAccepted(subs, i) ==> !failed && Handled(t) == Handled(s) + |subs| - i)
    decreases |subs| - i
  {
    if i < |subs| {
      var c := Claim(s);
      var s1 := Deliver(c, subs[i].before);
      DeliverHandles(c, subs[i].before);
      DeliverHandles(if subs[i].accepted then s1.(outstanding := s1.outstanding + 1) else s1, subs[i].after);
      SubmitHandles(Writev(c, subs[i]), subs, i + 1);
    }
  }

  /** The user is told of success, by each callback once, if and only if every
      merged request was accepted and all have completed without an error. */
  lemma SuccessIff(n: nat, subs: seq<Submission>, later: seq<int>)
    requires subs != [] && n > 0
    ensures var t := Deliver(MultiwriteRun(n, subs).0, later);
            (|t.calls| == n && forall k :: 0 <= k < n ==> t.calls[k] == (k, 0))
            <==> AllAccepted(subs, 0) && t.outstanding == 0 && |t.results| == |subs| + 1 && NoErrors(t.results)
  {
    var (u, failed) := SubmitFrom(Start(n), subs, 0);
    var (s, ret) := MultiwriteRun(n, subs);
    var t := Deliver(s, later);
    MultiwriteCompletes(n, subs, later);
    SubmitCounting(Start(n), subs, 0);
    if !failed {
      CbKeeps(u, 0, 1);
      DeliverSettles(s, later);
    }
    SubmitHandles(Start(n), subs, 0);
    DeliverHandles(s, later);
    NoFirstError(t.results);
    hide Deliver, SubmitFrom, FirstError, NoErrors, Writev, UserCalls;
    if |t.calls| == n && forall k :: 0 <= k < n ==> t.calls[k] == (k, 0) {
      assert t.calls[0] == (0, 0) && t.calls[0] == (0, FirstError(t.results));
    }
  }

  /** End to end: if the user is told of success, the disk holds exactly the bytes
      of every request of the batch, in whichever order the accepted writes
      reached it; elsewhere approved gaps are zero-filled at most. */
  lemma SuccessMeansWritten(hook: Hook, batch: seq<Req>, s: seq<Req>, subs: seq<Submission>, later: seq<int>,
                            order: seq<Req>, init: byte, p: int)
    requires s != [] && Sorted(s) && multiset(s) == multiset(batch) && AllExact(s) && Apart(multiset(batch))
    requires |subs| == |Merged(hook, s)| && subs != []
    requires multiset(order) == multiset(Landed(Merged(hook, s), subs))
    requires var t := Deliver(MultiwriteRun(|batch|, subs).0, later);
             |t.calls| == |batch| && forall k :: 0 <= k < |batch| ==> t.calls[k] == (k, 0)
    ensures AllExact(order) && forall r :: r in batch ==> Exact(r)
    ensures forall r :: r in batch && Covers(r, p) ==> Exec(order, init, p) == At(r, p)
    ensures (forall r :: r in batch ==> !Covers(r, p)) ==>
              Exec(order, init, p) == init || (Exec(order, init, p) == 0 && InApprovedGap(hook, s, p))
  {
    assert s[0] in multiset(batch);
    SuccessIff(|batch|, subs, later);
    AllLanded(Merged(hook, s), subs);
    BatchWritesWhatWasAsked(hook, batch, s, order, init, p);
  }

  lemma {:induction false} ValuesAppend(a: seq<BlockRequest>, b: seq<BlockRequest>)
    ensures ValuesOf(a + b) == ValuesOf(a) + ValuesOf(b)
  {
    if a == [] {
      assert a + b == b;
    } else {
      assert (a + b)[1..] == a[1..] + b;
      ValuesAppend(a[1..], b);
    }
  }

  lemma TakeOut<T>(a: seq<T>, b: seq<T>, j: nat)
    requires multiset(a) == multiset(b) && j < |b| && a != [] && a[0] == b[j]
    ensures multiset(a[1..]) == multiset(b[..j] + b[j + 1..])
  {
    assert a == [a[0]] + a[1..] && b == b[..j] + [b[j]] + b[j + 1..];
    assert multiset(a[1..]) == multiset(a) - multiset{a[0]};
    assert multiset(b[..j] + b[j + 1..]) == multiset(b) - multiset{b[j]};
  }

  lemma ValuesMoved(front: seq<BlockRequest>, r: BlockRequest, back: seq<BlockRequest>)
    ensures multiset(ValuesOf(front + [r] + back)) == multiset{Value(r)} + multiset(ValuesOf(front + back))
  {
    ValuesAppend(front + [r], back);
    ValuesAppend(front, [r]);
    ValuesAppend(front, back);
    assert [r][1..] == [];
    assert ValuesOf([r]) == [Value(r)] + ValuesOf([]);
  }

  /** Reordering requests reorders their values. */
  lemma {:induction false} ValuesPermuted(a: seq<BlockRequest>, b: seq<BlockRequest>)
    requires multiset(a) == multiset(b)
    ensures multiset(ValuesOf(a)) == multiset(ValuesOf(b))
  {
    if a == [] {
      assert |b| == |multiset(a)|;
    } else {
      assert a[0] in multiset(b);
      var j :| 0 <= j < |b| && b[j] == a[0];
      TakeOut(a, b, j);
      ValuesPermuted(a[1..], b[..j] + b[j + 1..]);
      assert b == b[..j] + [b[j]] + b[j + 1..];
      ValuesMoved(b[..j], b[j], b[j + 1..]);
    }
  }

  lemma DenotesValues(reqs: seq<BlockRequest>, values: seq<Req>)
    requires Denote(reqs, values)
    ensures values == ValuesOf(reqs)
  {
  }

  /** `bdrv_aio_multiwrite`; `errors` are the `error` fields of the requests, and
      `script` holds what happens during each submission. */
  method BdrvAioMultiwriteBatch(hook: Hook, reqs: array<BlockRequest>, errors: array<int>, script: seq<Submission>)
    returns (mcb: MultiwriteCB?, ret: int, n: nat, ghost input: seq<Req>)
    requires AllValid(reqs[..]) && errors.Length == reqs.Length <= |script|
    modifies reqs, errors
    ensures reqs.Length == 0 ==> mcb == null && ret == 0
    ensures reqs.Length > 0 ==>
              && input != [] && Sorted(input) && multiset(input) == multiset(old(ValuesOf(reqs[..])))
              && 0 < n <= reqs.Length && AllValid(reqs[..]) && Denote(reqs[..n], Merged(hook, input))
              && mcb != null && (mcb.Now(), ret) == MultiwriteRun(reqs.Length, script[..n])
    ensures ret == 0 ==> errors[..] == old(errors[..])
    ensures ret != 0 ==> forall k :: 0 <= k < errors.Length ==> errors[k] == -EIO
  {
    hide MultiwriteRun, Merged, Denote, ValuesOf, Sorted;
    n, input := 0, [];
    if reqs.Length == 0 {
      mcb, ret := BdrvAioMultiwrite(errors, []);
      return;
    }
    ghost var sorted;
    ghost var was := reqs[..];
    n, sorted, input := MultiwriteMerge(hook, reqs);
    DenotesValues(sorted, input);
    ValuesPermuted(sorted, was);
    mcb, ret := BdrvAioMultiwrite(errors, script[..n]);
  }
}
