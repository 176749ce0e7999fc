/** Merging of write requests (block.c, `multiwrite_merge`).

    A request writes the bytes of its vector to consecutive sectors.  Disk
    contents are followed one byte position at a time: `Exec(reqs, init, p)` is
    the byte at position `p` after the requests ran in order on a disk that
    held `init` there. */
module MergedWrites {
  import opened Bytes
  import opened IoVectors
  import opened Sorting

  const IOV_MAX: nat := 1024

  datatype Req = Req(sector: int, nb: int, vecs: seq<seq<byte>>)

  /** The driver's `bdrv_merge_requests`, asked with the extents of both
      requests; a driver without the hook answers false. */
  type Hook = (int, int, int, int) -> bool

  function End(r: Req): int { r.sector + r.nb }

  /** The vector holds exactly the announced number of sectors. */
  ghost predicate Exact(r: Req) { r.nb >= 0 && Size(r.vecs) == 512 * r.nb }

  ghost predicate AllExact(reqs: seq<Req>) { forall r :: r in reqs ==> Exact(r) }

  ghost predicate Covers(r: Req, p: int) { 512 * r.sector <= p < 512 * End(r) }

  ghost predicate Covered(reqs: seq<Req>, p: int) { exists r :: r in reqs && Covers(r, p) }

  ghost function At(r: Req, p: int): byte
    requires Exact(r) && Covers(r, p)
  {
    FlattenLength(r.vecs);
    Flatten(r.vecs)[p - 512 * r.sector]
  }

  function Last<T>(s: seq<T>): T
    requires s != []
  {
    s[|s| - 1]
  }

  function Front<T>(s: seq<T>): seq<T>
    requires s != []
  {
    s[..|s| - 1]
  }

  ghost function Exec(reqs: seq<Req>, init: byte, p: int): byte
    requires AllExact(reqs)
  {
    if reqs == [] then init
    else if Covers(Last(reqs), p) then At(Last(reqs), p)
    else Exec(Front(reqs), init, p)
  }

  ghost predicate Sorted(reqs: seq<Req>) {
    forall i, j :: 0 <= i < j < |reqs| ==> reqs[i].sector <= reqs[j].sector
  }

  ghost predicate EndsSorted(reqs: seq<Req>) {
    forall i, j :: 0 <= i < j < |reqs| ==> End(reqs[i]) <= End(reqs[j])
  }

  // ---- The merge as a function of the sorted requests ----

  predicate WantsMerge(hook: Hook, a: Req, b: Req) {
    b.sector <= End(a) || hook(a.sector, a.nb, b.sector, b.nb)
  }

  predicate Fits(a: Req, b: Req) { |a.vecs| + |b.vecs| + 1 <= IOV_MAX }

  function Zeros(n: nat): seq<byte> { seq(n, _ => 0) }

  function FusedVecs(a: Req, b: Req): seq<seq<byte>>
    requires a.sector <= b.sector
  {
    Clip(a.vecs, 512 * (b.sector - a.sector))
    + (if b.sector > End(a) then [Zeros(512 * (b.sector - End(a)))] else [])
    + Clip(b.vecs, Size(b.vecs))
  }

  function Fuse(a: Req, b: Req): Req
    requires a.sector <= b.sector
  {
    Req(a.sector, Size(FusedVecs(a, b)) / 512, FusedVecs(a, b))
  }

  function Step(hook: Hook, out: seq<Req>, r: Req): seq<Req>
    requires out != [] && Last(out).sector <= r.sector
  {
    if Fuses(hook, Last(out), r)
    then Front(out) + [Fuse(Last(out), r)]
    else out + [r]
  }

  ghost predicate Ready(out: seq<Req>, rest: seq<Req>) {
    out != [] && Sorted(rest) && (rest != [] ==> Last(out).sector <= rest[0].sector)
  }

  ghost function MergeInto(hook: Hook, out: seq<Req>, rest: seq<Req>): seq<Req>
    requires Ready(out, rest)
    decreases |rest|
  {
    if rest == [] then out else MergeInto(hook, Step(hook, out, rest[0]), rest[1..])
  }

  ghost function Merged(hook: Hook, s: seq<Req>): seq<Req>
    requires s != [] && Sorted(s)
  {
    MergeInto(hook, [s[0]], s[1..])
  }

  /** No merge that is wanted is ever refused for the sake of IOV_MAX. */
  ghost predicate NeverVetoed(hook: Hook, out: seq<Req>, rest: seq<Req>)
    requires Ready(out, rest)
    decreases |rest|
  {
    rest == [] ||
    ((WantsMerge(hook, Last(out), rest[0]) ==> Fits(Last(out), rest[0])) &&
     NeverVetoed(hook, Step(hook, out, rest[0]), rest[1..]))
  }

  // ---- One fusion ----

  lemma FlattenThree(x: seq<seq<byte>>, y: seq<seq<byte>>, z: seq<seq<byte>>)
    ensures Flatten(x + y + z) == Flatten(x) + Flatten(y) + Flatten(z)
    ensures |Flatten(x + y + z)| == Size(x + y + z)
  {
    FlattenAppend(x + y, z);
    FlattenAppend(x, y);
    FlattenLength(x + y + z);
  }

  lemma FusedBytes(a: Req, b: Req)
    requires Exact(a) && Exact(b) && a.sector <= b.sector
    ensures Flatten(FusedVecs(a, b))
         == Flatten(a.vecs)[..Min(512 * (b.sector - a.sector), |Flatten(a.vecs)|)]
            + (if b.sector > End(a) then Zeros(512 * (b.sector - End(a))) else [])
            + Flatten(b.vecs)
    ensures |Flatten(a.vecs)| == 512 * a.nb && |Flatten(b.vecs)| == 512 * b.nb
    ensures Size(FusedVecs(a, b)) == 512 * (End(b) - a.sector)
  {
    FlattenLength(a.vecs);
    FlattenLength(b.vecs);
    ClipIsPrefix(a.vecs, 512 * (b.sector - a.sector));
    ClipIsPrefix(b.vecs, Size(b.vecs));
    var head, tail := Clip(a.vecs, 512 * (b.sector - a.sector)), Clip(b.vecs, Size(b.vecs));
    assert Flatten(tail) == Flatten(b.vecs);
    if b.sector > End(a) {
      var zeros := Zeros(512 * (b.sector - End(a)));
      FlattenOne(zeros);
      FlattenThree(head, [zeros], tail);
    } else {
      FlattenThree(head, [], tail);
    }
  }

  /** A fused request ends where the second one ends, whatever the first one
      covered behind that point; its bytes are those of the second request,
      then those of the first, then zeros in the gap. */
  lemma FuseMeaning(a: Req, b: Req, p: int)
    requires Exact(a) && Exact(b) && a.sector <= b.sector
    ensures Exact(Fuse(a, b)) && Fuse(a, b).sector == a.sector && End(Fuse(a, b)) == End(b)
    ensures Covers(Fuse(a, b), p) ==>
              At(Fuse(a, b), p)
              == if Covers(b, p) then At(b, p) else if Covers(a, p) then At(a, p) else 0
  {
    hide FusedVecs, Flatten, Size;
    FusedBytes(a, b);
    FlattenLength(FusedVecs(a, b));
  }

  predicate Fuses(hook: Hook, a: Req, b: Req) { WantsMerge(hook, a, b) && Fits(a, b) }

  /** The effect of one step of the merge loop on one byte. */
  lemma ExecStep(hook: Hook, out: seq<Req>, r: Req, init: byte, p: int)
    requires out != [] && AllExact(out) && Exact(r) && Last(out).sector <= r.sector
    ensures AllExact(Step(hook, out, r)) && AllExact(Front(out))
    ensures Exec(Step(hook, out, r), init, p)
         == if Covers(r, p) then At(r, p)
            else if !Fuses(hook, Last(out), r) then Exec(out, init, p)
            else if p >= 512 * End(r) then Exec(Front(out), init, p)
            else if p >= 512 * End(Last(out)) then 0
            else Exec(out, init, p)
  {
    var a, out' := Last(out), Step(hook, out, r);
    assert a in out;
    FuseMeaning(a, r, p);
    forall q | q in out' ensures q in out || q == r || q == Fuse(a, r) {}
    if Fuses(hook, a, r) {
      assert Front(out') == Front(out) && Last(out') == Fuse(a, r);
    } else {
      assert Front(out') == out && Last(out') == r;
    }
  }

  // ---- Ends in order: nothing is lost, with or without the IOV_MAX cap ----

  /** `p` lies between the end of one request and the start of the next, and
      the driver agreed to merge across that gap. */
  ghost predicate InApprovedGap(hook: Hook, s: seq<Req>, p: int) {
    exists i, j :: GapAt(hook, s, i, j, p)
  }

  ghost predicate GapAt(hook: Hook, s: seq<Req>, i: int, j: int, p: int) {
    0 <= i < j < |s| && 512 * End(s[j - 1]) <= p < 512 * s[j].sector
    && hook(s[i].sector, End(s[j - 1]) - s[i].sector, s[j].sector, s[j].nb)
  }

  /** How the requests built so far relate to the sorted prefix `done`. */
  ghost predicate Linked(out: seq<Req>, done: seq<Req>) {
    out != [] && done != [] && AllExact(out) && AllExact(done)
    && End(Last(out)) == End(Last(done)) && Last(out).sector <= Last(done).sector
    && exists i :: 0 <= i < |done| && done[i].sector == Last(out).sector
  }

  ghost predicate SameAt(hook: Hook, out: seq<Req>, done: seq<Req>, init: byte, p: int)
    requires AllExact(out) && AllExact(done)
  {
    if Covered(done, p) then Exec(out, init, p) == Exec(done, init, p)
    else Exec(out, init, p) == init || (Exec(out, init, p) == 0 && InApprovedGap(hook, done, p))
  }

  lemma StepLinks(hook: Hook, out: seq<Req>, done: seq<Req>, r: Req, p: int)
    requires Linked(out, done) && Exact(r) && Last(done).sector <= r.sector
    ensures Linked(Step(hook, out, r), done + [r])
    ensures Covered(done + [r], p) <==> Covered(done, p) || Covers(r, p)
  {
    var a := Last(out);
    FuseMeaning(a, r, p);
    var i :| 0 <= i < |done| && done[i].sector == a.sector;
    assert (done + [r])[i] == done[i] && (done + [r])[|done|] == r;
    forall q | q in done + [r] ensures q in done || q == r {}
    forall q | q in Step(hook, out, r) ensures q in out || q == r || q == Fuse(a, r) {}
    if Covered(done, p) {
      var q :| q in done && Covers(q, p);
      assert q in done + [r];
    }
  }

  lemma GapGrows(hook: Hook, done: seq<Req>, r: Req, p: int)
    requires InApprovedGap(hook, done, p)
    ensures InApprovedGap(hook, done + [r], p)
  {
    var i, j :| GapAt(hook, done, i, j, p);
    assert GapAt(hook, done + [r], i, j, p);
  }

  lemma UncoveredBehind(done: seq<Req>, p: int)
    requires done != [] && EndsSorted(done) && p >= 512 * End(Last(done))
    ensures !Covered(done, p)
  {
    forall q | q in done ensures !Covers(q, p) {
      var i :| 0 <= i < |done| && done[i] == q;
    }
  }

  lemma StepSame(hook: Hook, out: seq<Req>, done: seq<Req>, r: Req, init: byte, p: int)
    requires Linked(out, done) && Exact(r) && Last(done).sector <= r.sector
    requires EndsSorted(done) && End(Last(done)) <= End(r) && SameAt(hook, out, done, init, p)
    ensures Linked(Step(hook, out, r), done + [r])
    ensures SameAt(hook, Step(hook, out, r), done + [r], init, p)
  {
    StepLinks(hook, out, done, r, p);
    ExecStep(hook, out, r, init, p);
    var a, s := Last(out), done + [r];
    assert Front(s) == done && Last(s) == r;
    if !Covers(r, p) && p >= 512 * End(a) && Fuses(hook, a, r) {
      UncoveredBehind(done, p);
      if p < 512 * r.sector {
        var i :| 0 <= i < |done| && done[i].sector == a.sector;
        assert s[|done| - 1] == Last(done);
        assert GapAt(hook, s, i, |done|, p);
      } else {
        assert Exec(out, init, p) == Exec(Front(out), init, p);
      }
    }
    if InApprovedGap(hook, done, p) {
      GapGrows(hook, done, r, p);
    }
  }

  lemma {:induction false} MergeSame(hook: Hook, out: seq<Req>, done: seq<Req>, rest: seq<Req>, init: byte, p: int)
    requires Ready(out, rest) && Linked(out, done) && AllExact(rest)
    requires Sorted(done + rest) && EndsSorted(done + rest) && SameAt(hook, out, done, init, p)
    ensures AllExact(MergeInto(hook, out, rest)) && AllExact(done + rest)
    ensures SameAt(hook, MergeInto(hook, out, rest), done + rest, init, p)
    decreases |rest|
  {
    if rest == [] {
      assert done + rest == done;
    } else {
      var s, done' := done + rest, done + [rest[0]];
      assert s[|done| - 1] == Last(done) && s[|done|] == rest[0];
      assert forall i :: 0 <= i < |done'| ==> done'[i] == s[i];
      assert forall i :: 0 <= i < |done| ==> done[i] == s[i];
      StepSame(hook, out, done, rest[0], init, p);
      assert done' + rest[1..] == s;
      MergeSame(hook, Step(hook, out, rest[0]), done', rest[1..], init, p);
    }
  }

  /** If the ends of the sorted requests are in order as well, running the
      merged requests has on every covered sector the effect of running the
      sorted requests; elsewhere it changes nothing but zero-fills gaps that
      the driver's hook approved. */
  lemma MergePreservesWrites(hook: Hook, s: seq<Req>, init: byte, p: int)
    requires s != [] && Sorted(s) && AllExact(s) && EndsSorted(s)
    ensures AllExact(Merged(hook, s))
    ensures Covered(s, p) ==> Exec(Merged(hook, s), init, p) == Exec(s, init, p)
    ensures !Covered(s, p) ==>
              Exec(Merged(hook, s), init, p) == init
              || (Exec(Merged(hook, s), init, p) == 0 && InApprovedGap(hook, s, p))
  {
    var first := [s[0]];
    assert first + s[1..] == s && Front(first) == [];
    assert Exec(first, init, p) == if Covers(s[0], p) then At(s[0], p) else init;
    assert Covers(s[0], p) ==> s[0] in first && Covered(first, p);
    MergeSame(hook, first, first, s[1..], init, p);
  }

  // ---- Without vetoes: the effect at every position ----

  /** Request `j` makes the merge drop position `p`, and no later request
      writes it again. */
  ghost predicate DropsAt(s: seq<Req>, j: int, p: int) {
    1 <= j < |s| && 512 * End(s[j]) <= p < 512 * End(s[j - 1])
    && forall k :: j < k < |s| ==> !Covers(s[k], p)
  }

  ghost predicate Dropped(s: seq<Req>, p: int) { exists j :: DropsAt(s, j, p) }

  /** Requests occupy increasing sector ranges with a gap between any two. */
  ghost predicate Separated(reqs: seq<Req>) {
    forall i, j :: 0 <= i < j < |reqs| ==> End(reqs[i]) < reqs[j].sector
  }

  ghost predicate TrackedAt(out: seq<Req>, done: seq<Req>, init: byte, p: int)
    requires AllExact(out) && AllExact(done)
  {
    if Covered(done, p) && !Dropped(done, p)
    then Covered(out, p) && Exec(out, init, p) == Exec(done, init, p)
    else Exec(out, init, p) == init || Exec(out, init, p) == 0
  }

  lemma DroppedStep(done: seq<Req>, r: Req, p: int)
    requires done != []
    ensures Dropped(done + [r], p) <==>
            !Covers(r, p) && (512 * End(r) <= p < 512 * End(Last(done)) || Dropped(done, p))
  {
    var s := done + [r];
    if Dropped(s, p) {
      var j :| DropsAt(s, j, p);
      if j < |done| {
        assert !Covers(s[|done|], p);
        forall k | j < k < |done| ensures !Covers(done[k], p) {
          assert s[k] == done[k];
        }
        assert DropsAt(done, j, p);
      }
    }
    if !Covers(r, p) && 512 * End(r) <= p < 512 * End(Last(done)) {
      assert DropsAt(s, |done|, p);
    }
    if !Covers(r, p) && Dropped(done, p) {
      var j :| DropsAt(done, j, p);
      assert DropsAt(s, j, p);
    }
  }

  lemma {:induction false} ExecUncovered(reqs: seq<Req>, init: byte, p: int)
    requires AllExact(reqs) && !Covered(reqs, p)
    ensures Exec(reqs, init, p) == init
  {
    if reqs == [] {
    } else {
      assert Last(reqs) in reqs;
      forall r | r in Front(reqs) ensures r in reqs && !Covers(r, p) {}
      ExecUncovered(Front(reqs), init, p);
    }
  }

  lemma CoveredBelowEnd(out: seq<Req>, p: int)
    requires out != [] && AllExact(out) && Separated(out) && Covered(out, p)
    ensures p < 512 * End(Last(out))
    ensures p < 512 * Last(out).sector || Covers(Last(out), p)
  {
    var r :| r in out && Covers(r, p);
    var i :| 0 <= i < |out| && out[i] == r;
    assert Exact(Last(out)) by { assert Last(out) in out; }
  }

  lemma StepSeparates(hook: Hook, out: seq<Req>, r: Req)
    requires out != [] && AllExact(out) && Exact(r) && Last(out).sector <= r.sector
    requires Separated(out) && (WantsMerge(hook, Last(out), r) ==> Fits(Last(out), r))
    ensures Separated(Step(hook, out, r))
  {
    assert Last(out) in out;
    FuseMeaning(Last(out), r, 0);
  }

  lemma StepCovers(hook: Hook, out: seq<Req>, r: Req, p: int)
    requires out != [] && AllExact(out) && Exact(r) && Last(out).sector <= r.sector
    requires Covers(r, p) || (p < 512 * End(r) && Covered(out, p))
    ensures Covered(Step(hook, out, r), p)
  {
    var a, out' := Last(out), Step(hook, out, r);
    FuseMeaning(a, r, p);
    assert Last(out') in out';
    if !Covers(r, p) {
      var q :| q in out && Covers(q, p);
      var i :| 0 <= i < |out| && out[i] == q;
      assert i < |out| - 1 ==> out'[i] == q;
      assert i == |out| - 1 ==> Covers(out'[i], p);
    }
  }

  lemma StepTracks(hook: Hook, out: seq<Req>, done: seq<Req>, r: Req, init: byte, p: int)
    requires Linked(out, done) && Exact(r) && Last(done).sector <= r.sector && Separated(out)
    requires WantsMerge(hook, Last(out), r) ==> Fits(Last(out), r)
    requires TrackedAt(out, done, init, p)
    ensures Linked(Step(hook, out, r), done + [r]) && Separated(Step(hook, out, r))
    ensures TrackedAt(Step(hook, out, r), done + [r], init, p)
  {
    StepLinks(hook, out, done, r, p);
    StepSeparates(hook, out, r);
    DroppedStep(done, r, p);
    ExecStep(hook, out, r, init, p);
    assert Front(done + [r]) == done && Last(done + [r]) == r;
    if Covers(r, p) {
      StepCovers(hook, out, r, p);
    } else if Covered(done, p) && !Dropped(done + [r], p) {
      CoveredBelowEnd(out, p);
      StepCovers(hook, out, r, p);
    } else if p >= 512 * End(r) {
      forall q | q in Front(out) ensures q in out && !Covers(q, p) {
        var i :| 0 <= i < |out| - 1 && out[i] == q;
        assert Exact(Last(out)) by { assert Last(out) in out; }
      }
      ExecUncovered(Front(out), init, p);
    }
  }

  lemma ShiftOne<T>(done: seq<T>, rest: seq<T>)
    requires rest != []
    ensures done + [rest[0]] + rest[1..] == done + rest
  {
  }

  ghost predicate Tracks(out: seq<Req>, done: seq<Req>, init: byte, p: int) {
    Linked(out, done) && Separated(out) && TrackedAt(out, done, init, p)
  }

  lemma {:induction false} MergeTracks(hook: Hook, out: seq<Req>, done: seq<Req>, rest: seq<Req>, init: byte, p: int)
    requires Ready(out, rest) && AllExact(rest) && Tracks(out, done, init, p)
    requires rest != [] ==> Last(done).sector <= rest[0].sector
    requires NeverVetoed(hook, out, rest)
    ensures Tracks(MergeInto(hook, out, rest), done + rest, init, p)
    decreases |rest|
  {
    hide Exec, Covered, Dropped, Separated, Step;
    if rest == [] {
      assert done + rest == done;
    } else {
      StepTracks(hook, out, done, rest[0], init, p);
      ShiftOne(done, rest);
      MergeTracks(hook, Step(hook, out, rest[0]), done + [rest[0]], rest[1..], init, p);
    }
  }

  ghost predicate Unvetoed(hook: Hook, s: seq<Req>)
    requires s != [] && Sorted(s)
  {
    NeverVetoed(hook, [s[0]], s[1..])
  }

  /** Without vetoes the outcome is known at every position: a covered byte
      that was not dropped ends up as in the sorted order, every other byte
      keeps its old value or is zero-filled, and the returned requests neither
      overlap nor touch. */
  lemma MergeEffect(hook: Hook, s: seq<Req>, init: byte, p: int)
    requires s != [] && Sorted(s) && AllExact(s) && Unvetoed(hook, s)
    ensures AllExact(Merged(hook, s)) && Separated(Merged(hook, s))
    ensures if Covered(s, p) && !Dropped(s, p)
            then Exec(Merged(hook, s), init, p) == Exec(s, init, p)
            else Exec(Merged(hook, s), init, p) == init || Exec(Merged(hook, s), init, p) == 0
  {
    var first := [s[0]];
    assert first + s[1..] == s && Front(first) == [];
    assert Exec(first, init, p) == if Covers(s[0], p) then At(s[0], p) else init;
    assert Covers(s[0], p) ==> s[0] in first && Covered(first, p);
    MergeTracks(hook, first, first, s[1..], init, p);
  }

  // ---- The same merge on other data ----

  ghost predicate SameLengths(v: seq<seq<byte>>, w: seq<seq<byte>>) {
    |v| == |w| && forall i :: 0 <= i < |v| ==> |v[i]| == |w[i]|
  }

  /** Same sectors and same vector layout; the bytes may differ. */
  ghost predicate SameShape(a: Req, b: Req) {
    a.sector == b.sector && a.nb == b.nb && SameLengths(a.vecs, b.vecs)
  }

  ghost predicate SameShapes(s: seq<Req>, t: seq<Req>) {
    |s| == |t| && forall i :: 0 <= i < |s| ==> SameShape(s[i], t[i])
  }

  lemma {:induction false} ClipLengths(v: seq<seq<byte>>, w: seq<seq<byte>>, limit: nat)
    requires SameLengths(v, w)
    ensures SameLengths(Clip(v, limit), Clip(w, limit))
  {
    if v == [] || limit == 0 || |v[0]| > limit {
    } else {
      ClipLengths(v[1..], w[1..], limit - |v[0]|);
    }
  }

  lemma FuseShape(a: Req, a': Req, r: Req, r': Req)
    requires SameShape(a, a') && SameShape(r, r') && a.sector <= r.sector
    ensures SameShape(Fuse(a, r), Fuse(a', r'))
  {
    ClipLengths(a.vecs, a'.vecs, 512 * (r.sector - a.sector));
    SameSize(r.vecs, r'.vecs);
    ClipLengths(r.vecs, r'.vecs, Size(r.vecs));
    SameSize(FusedVecs(a, r), FusedVecs(a', r'));
  }

  lemma {:induction false} ExecIsSomeWrite(reqs: seq<Req>, init: byte, p: int) returns (r: Req)
    requires AllExact(reqs) && Covered(reqs, p)
    ensures r in reqs && Covers(r, p) && Exec(reqs, init, p) == At(r, p)
  {
    r := Last(reqs);
    assert r in reqs;
    if !Covers(r, p) {
      var q :| q in reqs && Covers(q, p);
      var i :| 0 <= i < |reqs| && reqs[i] == q;
      assert Front(reqs)[i] == q;
      r := ExecIsSomeWrite(Front(reqs), init, p);
    }
  }

  ghost predicate SameEffect(hook: Hook, t: seq<Req>, init: byte, p: int) {
    t != [] && Sorted(t) && AllExact(t) && AllExact(Merged(hook, t))
    && Exec(Merged(hook, t), init, p) == Exec(t, init, p)
  }

  // ---- Limits and order independence ----

  function VecCount(reqs: seq<Req>): nat {
    if reqs == [] then 0 else |reqs[0].vecs| + VecCount(reqs[1..])
  }

  lemma FusedCount(a: Req, b: Req)
    requires a.sector <= b.sector
    ensures |Fuse(a, b).vecs| <= |a.vecs| + |b.vecs| + 1
  {
    ClipIsPrefix(a.vecs, 512 * (b.sector - a.sector));
    ClipIsPrefix(b.vecs, Size(b.vecs));
  }

  lemma {:induction false} FewVecsFit(hook: Hook, out: seq<Req>, rest: seq<Req>)
    requires Ready(out, rest)
    requires |Last(out).vecs| + VecCount(rest) + |rest| <= IOV_MAX
    ensures NeverVetoed(hook, out, rest)
    decreases |rest|
  {
    if rest == [] {
    } else {
      FusedCount(Last(out), rest[0]);
      FewVecsFit(hook, Step(hook, out, rest[0]), rest[1..]);
    }
  }

  /** A batch whose vectors and joints together stay within IOV_MAX is never
      vetoed: a condition the caller can check before the call. */
  lemma SmallBatchUnvetoed(hook: Hook, s: seq<Req>)
    requires s != [] && Sorted(s) && VecCount(s) + |s| - 1 <= IOV_MAX
    ensures Unvetoed(hook, s)
  {
    FewVecsFit(hook, [s[0]], s[1..]);
  }

  ghost predicate WithinIovMax(reqs: seq<Req>) {
    forall i :: 0 <= i < |reqs| ==> |reqs[i].vecs| <= IOV_MAX
  }

  lemma {:induction false} MergedWithinIovMax(hook: Hook, out: seq<Req>, rest: seq<Req>)
    requires Ready(out, rest) && WithinIovMax(out) && WithinIovMax(rest)
    ensures WithinIovMax(MergeInto(hook, out, rest))
    decreases |rest|
  {
    if rest == [] {
    } else {
      FusedCount(Last(out), rest[0]);
      MergedWithinIovMax(hook, Step(hook, out, rest[0]), rest[1..]);
    }
  }

  /** Requests occupy disjoint sector ranges in increasing order. */
  ghost predicate InOrder(reqs: seq<Req>) {
    forall i, j :: 0 <= i < j < |reqs| ==> End(reqs[i]) <= reqs[j].sector
  }

  /** Requests for disjoint ranges may complete in any order. */
  lemma AnyOrderSameDisk(reqs: seq<Req>, order: seq<Req>, init: byte, p: int)
    requires AllExact(reqs) && InOrder(reqs) && multiset(order) == multiset(reqs)
    ensures AllExact(order) && Exec(order, init, p) == Exec(reqs, init, p)
  {
    forall r ensures r in order <==> r in reqs {
      assert r in order <==> r in multiset(order);
      assert r in reqs <==> r in multiset(reqs);
    }
    if Covered(reqs, p) {
      var a := ExecIsSomeWrite(reqs, init, p);
      var b := ExecIsSomeWrite(order, init, p);
      var i :| 0 <= i < |reqs| && reqs[i] == a;
      var j :| 0 <= j < |reqs| && reqs[j] == b;
      if i < j {
        assert End(reqs[i]) <= reqs[j].sector;
      } else if j < i {
        assert End(reqs[j]) <= reqs[i].sector;
      }
    } else {
      ExecUncovered(reqs, init, p);
      ExecUncovered(order, init, p);
    }
  }

  /** The merged requests of a batch that is never vetoed commute. */
  lemma MergedWritesCommute(hook: Hook, s: seq<Req>, order: seq<Req>, init: byte, p: int)
    requires s != [] && Sorted(s) && AllExact(s) && Unvetoed(hook, s)
    requires multiset(order) == multiset(Merged(hook, s))
    ensures AllExact(Merged(hook, s)) && AllExact(order) && Separated(Merged(hook, s))
    ensures Exec(order, init, p) == Exec(Merged(hook, s), init, p)
  {
    MergeEffect(hook, s, init, p);
    AnyOrderSameDisk(Merged(hook, s), order, init, p);
  }

  // ---- A whole batch ----

  ghost predicate Disjoint(a: Req, b: Req) { End(a) <= b.sector || End(b) <= a.sector }

  /** No two requests of the batch share a sector, and none is empty. */
  ghost predicate Apart(batch: multiset<Req>) {
    (forall r :: r in batch ==> batch[r] == 1 && r.nb > 0)
    && forall a, b :: a in batch && b in batch && a != b ==> Disjoint(a, b)
  }

  lemma ApartInOrder(s: seq<Req>)
    requires Sorted(s) && Apart(multiset(s)) && AllExact(s)
    ensures InOrder(s) && EndsSorted(s)
  {
    forall i, j | 0 <= i < j < |s| ensures End(s[i]) <= s[j].sector && End(s[i]) <= End(s[j]) {
      OnceEach(s, i, j);
      assert s[i] in multiset(s) && s[j] in multiset(s);
    }
  }

  /** Merging requests in disjoint ranges keeps the ranges disjoint, whether or
      not the cap vetoes a merge. */
  lemma {:induction false} MergeInOrder(hook: Hook, out: seq<Req>, rest: seq<Req>)
    requires Ready(out, rest) && AllExact(out) && AllExact(rest) && InOrder(out) && InOrder(rest)
    requires rest != [] ==> End(Last(out)) <= rest[0].sector
    ensures AllExact(MergeInto(hook, out, rest)) && InOrder(MergeInto(hook, out, rest))
    decreases |rest|
  {
    if rest == [] {
    } else {
      StepInOrder(hook, out, rest[0]);
      var next := Step(hook, out, rest[0]);
      assert rest[1..] != [] ==> End(rest[0]) <= rest[1].sector;
      MergeInOrder(hook, next, rest[1..]);
    }
  }

  lemma StepInOrder(hook: Hook, out: seq<Req>, r: Req)
    requires out != [] && AllExact(out) && Exact(r) && InOrder(out) && End(Last(out)) <= r.sector
    ensures Last(out).sector <= r.sector
    ensures var next := Step(hook, out, r);
            AllExact(next) && InOrder(next) && End(Last(next)) == End(r) && Last(next).sector <= r.sector
  {
    assert Last(out) in out;
    FuseMeaning(Last(out), r, 0);
    var next := Step(hook, out, r);
    forall q | q in next ensures Exact(q) {
      assert q in out || q == r || q == Fuse(Last(out), r);
    }
    forall i | 0 <= i < |out| ensures End(out[i]) <= r.sector {
      assert i < |out| - 1 ==> End(out[i]) <= Last(out).sector;
    }
  }

  /** End to end: a batch of requests for different sectors, sorted in any way,
      merged, and completed in any order, leaves on the disk exactly the bytes of
      each request, and zero-fills approved gaps at most. */
  lemma BatchWritesWhatWasAsked(hook: Hook, batch: seq<Req>, s: seq<Req>, order: seq<Req>, init: byte, p: int)
    requires s != [] && Sorted(s) && multiset(s) == multiset(batch) && AllExact(s) && Apart(multiset(batch))
    requires multiset(order) == multiset(Merged(hook, s))
    ensures AllExact(order) && forall r :: r in batch ==> Exact(r)
    ensures forall r :: r in batch && Covers(r, p) ==> Exec(order, init, p) == At(r, p)
    ensures (forall r :: r in batch ==> !Covers(r, p)) ==>
              Exec(order, init, p) == init || (Exec(order, init, p) == 0 && InApprovedGap(hook, s, p))
  {
    forall r ensures r in batch <==> r in s {
      assert r in batch <==> r in multiset(batch);
      assert r in s <==> r in multiset(s);
    }
    ApartInOrder(s);
    MergePreservesWrites(hook, s, init, p);
    MergeInOrder(hook, [s[0]], s[1..]);
    AnyOrderSameDisk(Merged(hook, s), order, init, p);
    hide Merged, EndsSorted, Sorted, Exec, InOrder, InApprovedGap;
    forall r | r in batch && Covers(r, p) ensures Exec(order, init, p) == At(r, p) {
      OnlyWriter(s, r, init, p);
    }
  }

  /** Of requests for different sectors, only one writes a position. */
  lemma OnlyWriter(s: seq<Req>, r: Req, init: byte, p: int)
    requires AllExact(s) && Apart(multiset(s)) && r in s && Covers(r, p)
    ensures Covered(s, p) && Exec(s, init, p) == At(r, p)
  {
    hide Exec, At;
    assert Covered(s, p);
    var a := ExecIsSomeWrite(s, init, p);
    assert a in multiset(s) && r in multiset(s);
    assert a != r ==> Disjoint(a, r);
  }

  /** The hazard in one batch: the second request ends inside the first, so
      the first one's last sector never reaches the disk. */
  lemma MergeDropsTail(hook: Hook)
    ensures var s := [Req(0, 2, [Zeros(512), seq(512, _ => 1 as byte)]), Req(0, 1, [Zeros(512)])];
            Sorted(s) && AllExact(s) && Covered(s, 512) && Exec(s, 0, 512) == 1
            && AllExact(Merged(hook, s)) && Exec(Merged(hook, s), 0, 512) == 0
  {
    var ones: seq<byte> := seq(512, _ => 1);
    var a, b := Req(0, 2, [Zeros(512), ones]), Req(0, 1, [Zeros(512)]);
    var s := [a, b];
    FlattenOne(Zeros(512));
    FlattenOne(ones);
    FlattenAppend([Zeros(512)], [ones]);
    assert a.vecs == [Zeros(512)] + [ones];
    assert a in s && Covers(a, 512) && !Covers(b, 512);
    assert Front(s) == [a] && Last(s) == b;
    assert s[1..] == [b];
    FuseMeaning(a, b, 512);
    assert Step(hook, [a], b) == [Fuse(a, b)];
    assert [b][1..] == [];
    assert MergeInto(hook, [a], [b]) == MergeInto(hook, [Fuse(a, b)], [b][1..]);
    assert Merged(hook, s) == [Fuse(a, b)];
    assert !Covers(Fuse(a, b), 512);
  }

  // ---- The loop over the request array ----

  /** `BlockRequest`; `cb` and `opaque` stand for the caller's pointers. */
  datatype BlockRequest =
    BlockRequest(sector: int, nb: int, qiov: IoVector, cb: int, opaque_: int, error: int)

  ghost function Value(r: BlockRequest): Req
    reads r.qiov
  {
    Req(r.sector, r.nb, r.qiov.iov)
  }

  /** The requests in the array have these values. */
  ghost predicate Denote(reqs: seq<BlockRequest>, values: seq<Req>)
    reads set r | r in reqs :: r.qiov
  {
    |reqs| == |values| && forall i :: 0 <= i < |reqs| ==> Value(reqs[i]) == values[i]
  }

  ghost predicate AllValid(reqs: seq<BlockRequest>)
    reads set r | r in reqs :: r.qiov
  {
    forall i :: 0 <= i < |reqs| ==> reqs[i].qiov.Valid()
  }

  ghost predicate SameOwner(a: BlockRequest, b: BlockRequest) {
    a.cb == b.cb && a.opaque_ == b.opaque_ && a.error == b.error
  }

  method FuseVectors(a: BlockRequest, b: BlockRequest) returns (qiov: IoVector)
    requires a.qiov.Valid() && b.qiov.Valid() && a.sector <= b.sector
    ensures fresh(qiov) && qiov.Valid() && qiov.iov == FusedVecs(Value(a), Value(b))
  {
    qiov := new IoVector.Init(|a.qiov.iov| + |b.qiov.iov| + 1);
    var size := 512 * (b.sector - a.sector);
    qiov.Concat(a.qiov, size);
    if b.sector > a.sector + a.nb {
      qiov.Add(Zeros(512 * (b.sector - (a.sector + a.nb))));
    }
    qiov.Concat(b.qiov, b.qiov.size);
  }

  /** One pass of the merge loop for entry `i`. */
  method MergeOne(hook: Hook, reqs: array<BlockRequest>, outidx: nat, i: nat, ghost out: seq<Req>)
    returns (outidx': nat)
    requires outidx < i < reqs.Length && AllValid(reqs[..]) && Denote(reqs[..outidx + 1], out)
    requires reqs[outidx].sector <= reqs[i].sector
    modifies reqs
    ensures outidx' <= i && AllValid(reqs[..])
    ensures Denote(reqs[..outidx' + 1], Step(hook, out, old(Value(reqs[i]))))
    ensures forall k :: i < k < reqs.Length ==> reqs[k] == old(reqs[k])
    ensures forall k :: 0 <= k < reqs.Length ==> SameOwner(reqs[k], old(reqs[k]))
  {
    hide FusedVecs;
    assert Last(out) == Value(reqs[..outidx + 1][outidx]);
    var merge := false;
    var oldreqLast := reqs[outidx].sector + reqs[outidx].nb;
    if reqs[i].sector <= oldreqLast {
      merge := true;
    }
    if !merge {
      merge := hook(reqs[outidx].sector, reqs[outidx].nb, reqs[i].sector, reqs[i].nb);
    }
    if |reqs[outidx].qiov.iov| + |reqs[i].qiov.iov| + 1 > IOV_MAX {
      merge := false;
    }
    if merge {
      var qiov := FuseVectors(reqs[outidx], reqs[i]);
      reqs[outidx] := reqs[outidx].(nb := qiov.size / 512, qiov := qiov);
      outidx' := outidx;
    } else {
      outidx' := outidx + 1;
      reqs[outidx'] := reqs[outidx'].(sector := reqs[i].sector, nb := reqs[i].nb, qiov := reqs[i].qiov);
    }
  }

  ghost function ValuesOf(reqs: seq<BlockRequest>): (values: seq<Req>)
    reads set r | r in reqs :: r.qiov
    ensures Denote(reqs, values)
  {
    if reqs == [] then [] else [Value(reqs[0])] + ValuesOf(reqs[1..])
  }

  ghost predicate BySector(sorted: seq<BlockRequest>, reqs: seq<BlockRequest>) {
    SortedBy(sorted, (r: BlockRequest) => r.sector) && multiset(sorted) == multiset(reqs)
  }

  method SortRequests(reqs: array<BlockRequest>) returns (ghost input: seq<Req>)
    requires AllValid(reqs[..])
    modifies reqs
    ensures BySector(reqs[..], old(reqs[..])) && AllValid(reqs[..])
    ensures Denote(reqs[..], input) && Sorted(input)
  {
    QSort(reqs, (r: BlockRequest) => r.sector);
    forall i | 0 <= i < reqs.Length ensures reqs[i].qiov.Valid() {
      assert reqs[..][i] in multiset(old(reqs[..]));
    }
    input := ValuesOf(reqs[..]);
    assert forall i :: 0 <= i < reqs.Length ==> reqs[..][i].sector == input[i].sector;
  }

  /** The entries from `i` on still are the sorted requests. */
  ghost predicate Untouched(reqs: seq<BlockRequest>, input: seq<Req>, i: nat)
    reads set r | r in reqs :: r.qiov
  {
    |reqs| == |input| && forall k :: i <= k < |reqs| ==> Value(reqs[k]) == input[k]
  }

  /** One pass of the merge loop, from one state of the loop to the next. */
  method MergeNext(hook: Hook, reqs: array<BlockRequest>, outidx: nat, i: nat, ghost out: seq<Req>,
                   ghost input: seq<Req>) returns (outidx': nat)
    requires outidx < i < reqs.Length && AllValid(reqs[..]) && Denote(reqs[..outidx + 1], out)
    requires Untouched(reqs[..], input, i) && Merging(hook, out, input, i)
    modifies reqs
    ensures outidx' <= i && AllValid(reqs[..]) && Untouched(reqs[..], input, i + 1)
    ensures Denote(reqs[..outidx' + 1], Step(hook, out, input[i]))
    ensures Merging(hook, Step(hook, out, input[i]), input, i + 1)
    ensures forall k :: 0 <= k < reqs.Length ==> SameOwner(reqs[k], old(reqs[k]))
  {
    hide Step, Merging;
    MergeIntoStep(hook, out, input, i);
    assert out[outidx] == Value(reqs[..outidx + 1][outidx]);
    assert reqs[..][i] == reqs[i];
    outidx' := MergeOne(hook, reqs, outidx, i, out);
    assert forall k :: 0 <= k < reqs.Length ==> reqs[..][k] == reqs[k];
  }

  /** The merge loop over a sorted array. */
  method MergeSorted(hook: Hook, reqs: array<BlockRequest>, ghost input: seq<Req>) returns (n: nat)
    requires reqs.Length > 0 && AllValid(reqs[..]) && Denote(reqs[..], input) && Sorted(input)
    modifies reqs
    ensures 0 < n <= reqs.Length && AllValid(reqs[..])
    ensures Denote(reqs[..n], Merged(hook, input))
    ensures forall i :: 0 <= i < reqs.Length ==> SameOwner(reqs[i], old(reqs[i]))
  {
    hide Step, Merging, Merged, Sorted;
    var outidx, i := 0, 1;
    ghost var out := [input[0]];
    MergingStarts(hook, input);
    assert Untouched(reqs[..], input, 1) && Denote(reqs[..1], out);
    hide Denote, AllValid, Untouched;
    while i < reqs.Length
      invariant 0 <= outidx < i <= reqs.Length && reqs.Length == |input|
      invariant AllValid(reqs[..]) && Denote(reqs[..outidx + 1], out) && Untouched(reqs[..], input, i)
      invariant forall k :: 0 <= k < reqs.Length ==> SameOwner(reqs[k], old(reqs[k]))
      invariant Merging(hook, out, input, i)
    {
      outidx := MergeNext(hook, reqs, outidx, i, out, input);
      MergeIntoStep(hook, out, input, i);
      out := Step(hook, out, input[i]);
      i := i + 1;
    }
    n := outidx + 1;
    MergingEnds(hook, out, input);
  }

  /** Sorts the requests and fuses what can be fused in place; the first `n`
      entries are the requests that remain.  The fields that identify the
      caller stay with their array slot. */
  method MultiwriteMerge(hook: Hook, reqs: array<BlockRequest>)
    returns (n: nat, ghost sorted: seq<BlockRequest>, ghost input: seq<Req>)
    requires reqs.Length > 0 && AllValid(reqs[..])
    modifies reqs
    ensures BySector(sorted, old(reqs[..])) && |sorted| == reqs.Length
    ensures Denote(sorted, input) && Sorted(input) && input != []
    ensures 0 < n <= reqs.Length && AllValid(reqs[..])
    ensures Denote(reqs[..n], Merged(hook, input))
    ensures forall i :: 0 <= i < reqs.Length ==> SameOwner(reqs[i], sorted[i])
  {
    input := SortRequests(reqs);
    sorted := reqs[..];
    n := MergeSorted(hook, reqs, input);
  }

  /** What is left to do gives the merge of all. */
  ghost predicate Merging(hook: Hook, out: seq<Req>, input: seq<Req>, i: nat) {
    && input != [] && Sorted(input) && i <= |input|
    && Ready(out, input[i..]) && MergeInto(hook, out, input[i..]) == Merged(hook, input)
  }

  lemma MergingStarts(hook: Hook, input: seq<Req>)
    requires input != [] && Sorted(input)
    ensures Merging(hook, [input[0]], input, 1)
  {
  }

  lemma MergingEnds(hook: Hook, out: seq<Req>, input: seq<Req>)
    requires Merging(hook, out, input, |input|)
    ensures out == Merged(hook, input)
  {
  }

  lemma MergeIntoStep(hook: Hook, out: seq<Req>, input: seq<Req>, i: nat)
    requires i < |input| && Merging(hook, out, input, i)
    ensures out != [] && Last(out).sector <= input[i].sector
    ensures Merging(hook, Step(hook, out, input[i]), input, i + 1)
  {
    assert input[i..][0] == input[i] && input[i..][1..] == input[i + 1..];
  }
}
