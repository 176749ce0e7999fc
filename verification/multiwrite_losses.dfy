/** Exactly which bytes merging loses (block.c, `multiwrite_merge`), for every
    batch, whether or not the cap on the vector length vetoes merges. */
module MergeLosses {
  import opened Bytes
  import opened IoVectors
  import opened MergedWrites

  // ---- The merged requests as groups of neighbours ----

  /** Requests `lo` to `hi - 1`, fused one after the other. */
  ghost function Group(s: seq<Req>, lo: nat, hi: nat): (g: Req)
    requires lo < hi <= |s| && Sorted(s)
    ensures g.sector == s[lo].sector
    decreases hi
  {
    if hi == lo + 1 then s[lo] else Fuse(Group(s, lo, hi - 1), s[hi - 1])
  }

  /** First request of each group. */
  ghost predicate Cutting(c: seq<nat>, n: nat) {
    (forall g :: 0 <= g < |c| ==> c[g] < n) && forall g, h :: 0 <= g < h < |c| ==> c[g] < c[h]
  }

  /** Where the groups start once the first `n` requests have been merged. */
  ghost function Cuts(hook: Hook, s: seq<Req>, n: nat): (c: seq<nat>)
    requires 0 < n <= |s| && Sorted(s)
    ensures Cutting(c, n) && c != [] && c[0] == 0
  {
    if n == 1 then [0]
    else
      var c := Cuts(hook, s, n - 1);
      if Fuses(hook, Group(s, Last(c), n - 1), s[n - 1]) then c else c + [n - 1]
  }

  ghost function Groups(s: seq<Req>, c: seq<nat>, n: nat): (r: seq<Req>)
    requires n <= |s| && Sorted(s) && Cutting(c, n)
    ensures |r| == |c|
  {
    if c == [] then [] else Groups(s, Front(c), Last(c)) + [Group(s, Last(c), n)]
  }

  lemma GroupsStep(hook: Hook, s: seq<Req>, n: nat)
    requires 0 < n < |s| && Sorted(s)
    ensures var c := Cuts(hook, s, n);
            && Groups(s, c, n) != [] && Last(Groups(s, c, n)).sector <= s[n].sector
            && Step(hook, Groups(s, c, n), s[n]) == Groups(s, Cuts(hook, s, n + 1), n + 1)
  {
    var c := Cuts(hook, s, n);
    var out, a := Groups(s, c, n), Group(s, Last(c), n);
    assert Last(out) == a && Front(out) == Groups(s, Front(c), Last(c));
    if !Fuses(hook, a, s[n]) {
      assert Front(c + [n]) == c && Last(c + [n]) == n;
    }
  }

  lemma {:induction false} MergeFrom(hook: Hook, s: seq<Req>, n: nat)
    requires 0 < n <= |s| && Sorted(s)
    ensures Ready(Groups(s, Cuts(hook, s, n), n), s[n..])
    ensures MergeInto(hook, Groups(s, Cuts(hook, s, n), n), s[n..]) == Groups(s, Cuts(hook, s, |s|), |s|)
    decreases |s| - n
  {
    if n == |s| {
    } else {
      GroupsStep(hook, s, n);
      MergeFrom(hook, s, n + 1);
      assert s[n..][0] == s[n] && s[n..][1..] == s[n + 1..];
    }
  }

  /** The merge partitions the sorted requests into groups of neighbours. */
  lemma MergedGroups(hook: Hook, s: seq<Req>)
    requires s != [] && Sorted(s)
    ensures Merged(hook, s) == Groups(s, Cuts(hook, s, |s|), |s|)
  {
    assert Groups(s, [0], 1) == [s[0]] by {
      assert Front([0]) == [] && Last([0]) == 0;
    }
    MergeFrom(hook, s, 1);
  }

  // ---- Who wrote a byte ----

  const ZEROED := -1
  const UNTOUCHED := -2

  ghost predicate Spans(s: seq<Req>, lo: nat, hi: nat, p: int)
    requires lo < hi <= |s|
  {
    512 * s[lo].sector <= p < 512 * End(s[hi - 1])
  }

  ghost function GroupWriter(s: seq<Req>, lo: nat, hi: nat, p: int): (w: int)
    requires lo < hi <= |s|
    ensures w == ZEROED || (lo <= w < hi && Covers(s[w], p))
    decreases hi
  {
    if Covers(s[hi - 1], p) then hi - 1
    else if lo < hi - 1 && p < 512 * End(s[hi - 2]) then GroupWriter(s, lo, hi - 1, p)
    else ZEROED
  }

  /** The byte that a writer leaves. */
  ghost function ByteOf(s: seq<Req>, w: int, init: byte, p: int): byte
    requires AllExact(s) && w < |s| && (w >= 0 ==> Covers(s[w], p))
  {
    if w == UNTOUCHED then init
    else if w < 0 then 0
    else
      assert s[w] in s;
      At(s[w], p)
  }

  /** What a group is, said of a request `g` that stands for it. */
  ghost predicate Means(s: seq<Req>, lo: nat, hi: nat, p: int, g: Req)
    requires lo < hi <= |s| && AllExact(s)
  {
    && Exact(g) && g.sector == s[lo].sector && End(g) == End(s[hi - 1])
    && (Covers(g, p) ==> At(g, p) == ByteOf(s, GroupWriter(s, lo, hi, p), 0, p))
  }

  lemma MeansStep(s: seq<Req>, lo: nat, hi: nat, p: int, g: Req)
    requires lo < hi - 1 < |s| && Sorted(s) && AllExact(s) && Means(s, lo, hi - 1, p, g)
    ensures g.sector <= s[hi - 1].sector && Means(s, lo, hi, p, Fuse(g, s[hi - 1]))
  {
    assert s[hi - 1] in s;
    FuseMeaning(g, s[hi - 1], p);
    hide Fuse, Exact, Sorted, AllExact;
  }

  lemma {:induction false} GroupMeaning(s: seq<Req>, lo: nat, hi: nat, p: int)
    requires lo < hi <= |s| && Sorted(s) && AllExact(s)
    ensures Means(s, lo, hi, p, Group(s, lo, hi))
    decreases hi
  {
    assert s[hi - 1] in s;
    if hi == lo + 1 {
    } else {
      GroupMeaning(s, lo, hi - 1, p);
      MeansStep(s, lo, hi, p, Group(s, lo, hi - 1));
      hide Means;
    }
  }

  ghost function MergedWriter(s: seq<Req>, c: seq<nat>, n: nat, p: int): (w: int)
    requires n <= |s| && Cutting(c, n)
    ensures w == ZEROED || w == UNTOUCHED || (0 <= w < n && Covers(s[w], p))
    decreases |c|
  {
    if c == [] then UNTOUCHED
    else if Spans(s, Last(c), n, p) then GroupWriter(s, Last(c), n, p)
    else MergedWriter(s, Front(c), Last(c), p)
  }

  lemma ExecSnoc(front: seq<Req>, r: Req, init: byte, p: int)
    requires AllExact(front) && Exact(r)
    ensures AllExact(front + [r])
    ensures Exec(front + [r], init, p) == if Covers(r, p) then At(r, p) else Exec(front, init, p)
  {
    forall q | q in front + [r] ensures Exact(q) {}
    assert Front(front + [r]) == front && Last(front + [r]) == r;
  }

  lemma {:induction false} MergedValue(s: seq<Req>, c: seq<nat>, n: nat, init: byte, p: int)
    requires n <= |s| && Sorted(s) && AllExact(s) && Cutting(c, n)
    ensures AllExact(Groups(s, c, n))
    ensures Exec(Groups(s, c, n), init, p) == ByteOf(s, MergedWriter(s, c, n, p), init, p)
    decreases |c|
  {
    if c == [] {
    } else {
      MergedValue(s, Front(c), Last(c), init, p);
      GroupMeaning(s, Last(c), n, p);
      hide Exact, At, Group, GroupWriter;
      ExecSnoc(Groups(s, Front(c), Last(c)), Group(s, Last(c), n), init, p);
    }
  }

  /** The last of the first `n` requests that covers the position. */
  ghost function LastWriter(s: seq<Req>, n: nat, p: int): (w: int)
    requires n <= |s|
    ensures w == UNTOUCHED || (0 <= w < n && Covers(s[w], p))
    ensures forall k :: 0 <= k < n && k > w ==> !Covers(s[k], p)
  {
    if n == 0 then UNTOUCHED else if Covers(s[n - 1], p) then n - 1 else LastWriter(s, n - 1, p)
  }

  lemma {:induction false} SortedValue(s: seq<Req>, n: nat, init: byte, p: int)
    requires n <= |s| && AllExact(s)
    ensures AllExact(s[..n]) && Exec(s[..n], init, p) == ByteOf(s, LastWriter(s, n, p), init, p)
  {
    if n == 0 {
    } else {
      SortedValue(s, n - 1, init, p);
      assert Front(s[..n]) == s[..n - 1] && MergedWrites.Last(s[..n]) == s[n - 1];
    }
  }

  // ---- The loss ----

  /** A later group of the merge spans the position. */
  ghost predicate Overlaid(s: seq<Req>, c: seq<nat>, n: nat, j: nat, p: int)
    requires n <= |s| && Cutting(c, n)
    decreases |c|
  {
    c != [] && Last(c) > j && (Spans(s, Last(c), n, p) || Overlaid(s, Front(c), Last(c), j, p))
  }

  /** End of the group that request `j` belongs to. */
  ghost function GroupEnd(c: seq<nat>, n: nat, j: nat): (e: nat)
    requires Cutting(c, n) && j < n && c != [] && c[0] == 0
    ensures j < e <= n
    decreases |c|
  {
    if Last(c) <= j then n else GroupEnd(Front(c), Last(c), j)
  }

  /** The last request `j` that covers the position is fused with a later one
      that starts at or before it (and so ends at or before it), or the position
      lies in a later group: in a part that was zero-filled or dropped there. */
  ghost predicate LostAt(s: seq<Req>, c: seq<nat>, j: int, p: int)
    requires Cutting(c, |s|) && c != [] && c[0] == 0
  {
    && 0 <= j < |s| && Covers(s[j], p) && (forall k :: j < k < |s| ==> !Covers(s[k], p))
    && (Overlaid(s, c, |s|, j, p) || exists i :: j < i < GroupEnd(c, |s|, j) && 512 * s[i].sector <= p)
  }

  ghost predicate Lost(hook: Hook, s: seq<Req>, p: int)
    requires s != [] && Sorted(s)
  {
    exists j :: LostAt(s, Cuts(hook, s, |s|), j, p)
  }

  lemma {:induction false} GroupKeepsIff(s: seq<Req>, lo: nat, hi: nat, j: nat, p: int)
    requires lo <= j < hi <= |s| && Sorted(s) && AllExact(s)
    requires Covers(s[j], p) && forall k :: j < k < hi ==> !Covers(s[k], p)
    ensures (Spans(s, lo, hi, p) && GroupWriter(s, lo, hi, p) == j)
            <==> forall i :: j < i < hi ==> p < 512 * s[i].sector
    ensures GroupWriter(s, lo, hi, p) == j || GroupWriter(s, lo, hi, p) == ZEROED
    decreases hi
  {
    assert s[hi - 1] in s;
    if j == hi - 1 {
    } else {
      assert s[hi - 2] in s;
      GroupKeepsIff(s, lo, hi - 1, j, p);
      assert !Covers(s[hi - 1], p);
      if forall i :: j < i < hi ==> p < 512 * s[i].sector {
        assert p < 512 * s[hi - 1].sector;
        if j < hi - 2 {
          assert p < 512 * s[hi - 2].sector;
        }
      }
    }
  }

  lemma {:induction false} KeepsIff(s: seq<Req>, c: seq<nat>, n: nat, j: nat, p: int)
    requires j < n <= |s| && Sorted(s) && AllExact(s) && Cutting(c, n) && c != [] && c[0] == 0
    requires Covers(s[j], p) && forall k :: j < k < n ==> !Covers(s[k], p)
    ensures MergedWriter(s, c, n, p) == j
            <==> !Overlaid(s, c, n, j, p) && forall i :: j < i < GroupEnd(c, n, j) ==> p < 512 * s[i].sector
    decreases |c|
  {
    if Last(c) <= j {
      GroupKeepsIff(s, Last(c), n, j, p);
      if !Spans(s, Last(c), n, p) {
        assert MergedWriter(s, Front(c), Last(c), p) < Last(c);
      }
    } else {
      KeepsIff(s, Front(c), Last(c), j, p);
      if Spans(s, Last(c), n, p) {
        assert GroupWriter(s, Last(c), n, p) != j;
      }
    }
  }

  /** Where nothing is lost, the merge leaves the byte of the sorted requests. */
  lemma NotLostIsKept(hook: Hook, s: seq<Req>, init: byte, p: int)
    requires s != [] && Sorted(s) && AllExact(s) && Covered(s, p) && !Lost(hook, s, p)
    ensures SameEffect(hook, s, init, p)
  {
    var c, j := Cuts(hook, s, |s|), LastWriter(s, |s|, p);
    CoveredHasWriter(s, p);
    assert !LostAt(s, c, j, p);
    KeepsIff(s, c, |s|, j, p);
    MergedGroups(hook, s);
    MergedValue(s, c, |s|, init, p);
    SortedValue(s, |s|, init, p);
    assert s[..|s|] == s;
  }

  lemma CoveredHasWriter(s: seq<Req>, p: int)
    ensures Covered(s, p) <==> LastWriter(s, |s|, p) >= 0
  {
    var w := LastWriter(s, |s|, p);
    if w >= 0 {
      assert s[w] in s && Covers(s[w], p);
    }
  }

  /** The same requests, of which only `j` writes anything but zeros. */
  ghost function OnlyOf(s: seq<Req>, j: int): (t: seq<Req>)
    ensures SameShapes(s, t) && forall i :: 0 <= i < |s| ==> Filled(t[i].vecs, if i == j then 1 else 0)
  {
    seq(|s|, i requires 0 <= i < |s| => Fill(s[i], if i == j then 1 else 0))
  }

  function Fill(r: Req, b: byte): Req {
    Req(r.sector, r.nb, seq(|r.vecs|, i requires 0 <= i < |r.vecs| => seq(|r.vecs[i]|, _ => b)))
  }

  ghost predicate Filled(vecs: seq<seq<byte>>, b: byte) {
    forall i, k :: 0 <= i < |vecs| && 0 <= k < |vecs[i]| ==> vecs[i][k] == b
  }

  lemma {:induction false} FilledBytes(vecs: seq<seq<byte>>, b: byte)
    requires Filled(vecs, b)
    ensures forall k :: 0 <= k < |Flatten(vecs)| ==> Flatten(vecs)[k] == b
  {
    if vecs == [] {
    } else {
      FilledBytes(vecs[1..], b);
    }
  }

  lemma FilledAt(r: Req, b: byte, p: int)
    requires Exact(r) && Covers(r, p) && Filled(r.vecs, b)
    ensures At(r, p) == b
  {
    FilledBytes(r.vecs, b);
    FlattenLength(r.vecs);
  }

  // ---- The loss does not depend on the data ----

  lemma {:induction false} GroupShape(s: seq<Req>, t: seq<Req>, lo: nat, hi: nat)
    requires lo < hi <= |s| && Sorted(s) && SameShapes(s, t) && Sorted(t)
    ensures SameShape(Group(s, lo, hi), Group(t, lo, hi))
    decreases hi
  {
    assert SameShape(s[hi - 1], t[hi - 1]);
    if hi == lo + 1 {
    } else {
      GroupShape(s, t, lo, hi - 1);
      FuseShape(Group(s, lo, hi - 1), Group(t, lo, hi - 1), s[hi - 1], t[hi - 1]);
    }
  }

  lemma {:induction false} CutsShape(hook: Hook, s: seq<Req>, t: seq<Req>, n: nat)
    requires 0 < n <= |s| && Sorted(s) && SameShapes(s, t) && Sorted(t)
    ensures Cuts(hook, t, n) == Cuts(hook, s, n)
  {
    if n == 1 {
    } else {
      CutsShape(hook, s, t, n - 1);
      GroupShape(s, t, Last(Cuts(hook, s, n - 1)), n - 1);
      assert SameShape(s[n - 1], t[n - 1]);
    }
  }

  lemma SameShapeSorted(s: seq<Req>, t: seq<Req>)
    requires SameShapes(s, t) && Sorted(s) && AllExact(s)
    ensures Sorted(t) && AllExact(t)
    ensures forall i, p :: 0 <= i < |s| ==> (Covers(t[i], p) <==> Covers(s[i], p))
  {
    forall i | 0 <= i < |s| ensures Exact(t[i]) && SameShape(s[i], t[i]) {
      assert s[i] in s && SameShape(s[i], t[i]);
      SameSize(s[i].vecs, t[i].vecs);
    }
  }

  lemma {:induction false} OverlaidShape(s: seq<Req>, t: seq<Req>, c: seq<nat>, n: nat, j: nat, p: int)
    requires n <= |s| && SameShapes(s, t) && Cutting(c, n)
    ensures Overlaid(t, c, n, j, p) <==> Overlaid(s, c, n, j, p)
    decreases |c|
  {
    if c == [] || Last(c) <= j {
    } else {
      assert SameShape(s[Last(c)], t[Last(c)]) && SameShape(s[n - 1], t[n - 1]);
      OverlaidShape(s, t, Front(c), Last(c), j, p);
    }
  }

  lemma LostAtShape(s: seq<Req>, t: seq<Req>, c: seq<nat>, j: int, p: int)
    requires SameShapes(s, t) && Cutting(c, |s|) && c != [] && c[0] == 0 && LostAt(s, c, j, p)
    ensures LostAt(t, c, j, p)
  {
    forall i | 0 <= i < |s| ensures t[i].sector == s[i].sector && t[i].nb == s[i].nb {
      assert SameShape(s[i], t[i]);
    }
    OverlaidShape(s, t, c, |s|, j, p);
  }

  /** A lost position shows: the bytes of the last request that covers it are
      not there, whatever else is. */
  lemma LossShows(hook: Hook, s: seq<Req>, p: int) returns (t: seq<Req>)
    requires s != [] && Sorted(s) && AllExact(s) && Lost(hook, s, p)
    ensures SameShapes(s, t) && Covered(t, p) && !SameEffect(hook, t, 0, p)
  {
    hide Merged, Groups, Cuts, Exec, LostAt, Exact, Covers, Sorted, SameShapes, At;
    var c := Cuts(hook, s, |s|);
    var j :| LostAt(s, c, j, p);
    t := OnlyOf(s, j);
    SameShapeSorted(s, t);
    CutsShape(hook, s, t, |s|);
    LostAtShape(s, t, c, j, p);
    LostWriters(t, c, j, p);
    MergedGroups(hook, t);
    MergedValue(t, c, |t|, 0, p);
    SortedValue(t, |t|, 0, p);
    hide MergedWriter, LastWriter, ByteOf;
    assert t[..|t|] == t;
    OnlyOneByte(t, j, j, p);
    OnlyOneByte(t, j, MergedWriter(t, c, |t|, p), p);
  }

  lemma LostWriters(s: seq<Req>, c: seq<nat>, j: int, p: int)
    requires Cutting(c, |s|) && c != [] && c[0] == 0 && LostAt(s, c, j, p) && Sorted(s) && AllExact(s)
    ensures 0 <= j < |s| && Covers(s[j], p) && Covered(s, p)
    ensures LastWriter(s, |s|, p) == j && MergedWriter(s, c, |s|, p) != j
  {
    assert s[j] in s;
    KeepsIff(s, c, |s|, j, p);
  }

  lemma OnlyOneByte(t: seq<Req>, j: int, w: int, p: int)
    requires AllExact(t) && 0 <= j < |t| && w < |t| && (w >= 0 ==> Covers(t[w], p))
    requires forall i :: 0 <= i < |t| ==> Filled(t[i].vecs, if i == j then 1 else 0)
    ensures ByteOf(t, w, 0, p) == if w == j then 1 else 0
  {
    if w >= 0 {
      assert t[w] in t;
      FilledAt(t[w], if w == j then 1 else 0, p);
    }
  }

  /** For every batch: merging keeps the meaning of these requests, whatever
      their data and the disk contents, if and only if no position is lost. */
  lemma MergeLosesNothingIff(hook: Hook, s: seq<Req>)
    requires s != [] && Sorted(s) && AllExact(s)
    ensures (forall t, init, p :: SameShapes(s, t) && Covered(t, p) ==> SameEffect(hook, t, init, p))
            <==> (forall p :: !Lost(hook, s, p))
  {
    if p :| Lost(hook, s, p) {
      var t := LossShows(hook, s, p);
    } else {
      forall t, init, p | SameShapes(s, t) && Covered(t, p) ensures SameEffect(hook, t, init, p) {
        SameShapeSorted(s, t);
        CutsShape(hook, s, t, |s|);
        if Lost(hook, t, p) {
          var j :| LostAt(t, Cuts(hook, t, |t|), j, p);
          SameShapesBack(s, t);
          LostAtShape(t, s, Cuts(hook, s, |s|), j, p);
          assert Lost(hook, s, p);
        }
        NotLostIsKept(hook, t, init, p);
      }
    }
  }

  lemma SameShapesBack(s: seq<Req>, t: seq<Req>)
    requires SameShapes(s, t)
    ensures SameShapes(t, s)
  {
    forall i | 0 <= i < |s| ensures SameShape(t[i], s[i]) {
      assert SameShape(s[i], t[i]);
    }
  }

  // ---- Without vetoes the loss is visible in the request list ----

  lemma {:induction false} UnvetoedFrom(hook: Hook, s: seq<Req>, n: nat)
    requires 0 < n <= |s| && Sorted(s) && Unvetoed(hook, s)
    ensures Ready(Groups(s, Cuts(hook, s, n), n), s[n..])
    ensures NeverVetoed(hook, Groups(s, Cuts(hook, s, n), n), s[n..])
  {
    if n == 1 {
      assert Front([0]) == [] && Last([0]) == 0;
      assert Groups(s, [0], 1) == [s[0]];
    } else {
      hide NeverVetoed, Unvetoed, Groups, Cuts, Step, Sorted, Ready;
      UnvetoedFrom(hook, s, n - 1);
      GroupsStep(hook, s, n - 1);
      assert s[n - 1..][0] == s[n - 1] && s[n - 1..][1..] == s[n..];
      NextUnvetoed(hook, Groups(s, Cuts(hook, s, n - 1), n - 1), s[n - 1..]);
    }
  }

  lemma NextUnvetoed(hook: Hook, out: seq<Req>, rest: seq<Req>)
    requires Ready(out, rest) && rest != [] && NeverVetoed(hook, out, rest)
    ensures Ready(Step(hook, out, rest[0]), rest[1..]) && NeverVetoed(hook, Step(hook, out, rest[0]), rest[1..])
    ensures WantsMerge(hook, Last(out), rest[0]) ==> Fits(Last(out), rest[0])
  {
  }

  predicate GapBefore(s: seq<Req>, m: nat) { 0 < m < |s| ==> End(s[m - 1]) < s[m].sector }

  lemma FirstCut(hook: Hook, s: seq<Req>)
    requires s != [] && Sorted(s)
    ensures Cuts(hook, s, 1) == [0] && GapBefore(s, 0)
  {
  }

  lemma NewCut(hook: Hook, s: seq<Req>, n: nat)
    requires 0 < n < |s| && Sorted(s) && AllExact(s) && Unvetoed(hook, s)
    ensures var c, next := Cuts(hook, s, n), Cuts(hook, s, n + 1);
            next == c || (next == c + [n] && GapBefore(s, n))
  {
    var c := Cuts(hook, s, n);
    var a, out := Group(s, Last(c), n), Groups(s, c, n);
    assert Last(out) == a && s[n..][0] == s[n];
    hide Group, Groups, GroupWriter, Exact, NeverVetoed, Ready, Sorted, Unvetoed;
    UnvetoedFrom(hook, s, n);
    NextUnvetoed(hook, out, s[n..]);
    GroupMeaning(s, Last(c), n, 0);
  }

  /** A group starts only behind a gap. */
  lemma {:induction false} CutGap(hook: Hook, s: seq<Req>, n: nat)
    requires 0 < n <= |s| && Sorted(s) && AllExact(s) && Unvetoed(hook, s)
    ensures forall m :: m in Cuts(hook, s, n) ==> GapBefore(s, m)
  {
    hide *;
    FirstCut(hook, s);
    if n == 1 {
    } else {
      CutGap(hook, s, n - 1);
      NewCut(hook, s, n - 1);
      var c := Cuts(hook, s, n - 1);
      forall m | m in Cuts(hook, s, n) ensures GapBefore(s, m) {
        assert m in c || m in c + [n - 1];
      }
    }
  }

  lemma {:induction false} GroupEndIsCut(c: seq<nat>, n: nat, j: nat)
    requires Cutting(c, n) && j < n && c != [] && c[0] == 0
    ensures GroupEnd(c, n, j) == n || GroupEnd(c, n, j) in c
    decreases |c|
  {
    if Last(c) <= j {
    } else {
      GroupEndIsCut(Front(c), Last(c), j);
    }
  }

  /** What ends before the next group is not overlaid. */
  lemma {:induction false} NotOverlaid(s: seq<Req>, c: seq<nat>, n: nat, j: nat, p: int)
    requires n <= |s| && Sorted(s) && Cutting(c, n) && j < n && c != [] && c[0] == 0
    requires GroupEnd(c, n, j) < n ==> p < 512 * s[GroupEnd(c, n, j)].sector
    ensures !Overlaid(s, c, n, j, p)
    decreases |c|
  {
    if Last(c) <= j {
    } else {
      assert s[GroupEnd(c, n, j)].sector <= s[Last(c)].sector;
      NotOverlaid(s, Front(c), Last(c), j, p);
    }
  }

  /** A request that ends before its predecessor loses what lies between. */
  lemma FirstCrossing(s: seq<Req>, j: nat, i: nat, p: int) returns (m: nat)
    requires j < i < |s| && p < 512 * End(s[j]) && 512 * End(s[i]) <= p
    ensures j < m <= i && 512 * End(s[m]) <= p < 512 * End(s[m - 1])
  {
    m := j + 1;
    while p < 512 * End(s[m])
      invariant j < m <= i && p < 512 * End(s[m - 1])
      decreases i - m
    {
      m := m + 1;
    }
  }

  lemma LostIsDropped(hook: Hook, s: seq<Req>, j: int, p: int)
    requires s != [] && Sorted(s) && AllExact(s) && Unvetoed(hook, s) && LostAt(s, Cuts(hook, s, |s|), j, p)
    ensures Dropped(s, p)
  {
    hide Unvetoed, Cuts, Cutting, GroupEnd, Overlaid;
    var n, c := |s|, Cuts(hook, s, |s|);
    CutGap(hook, s, n);
    GroupEndIsCut(c, n, j);
    var e := GroupEnd(c, n, j);
    assert e < n ==> GapBefore(s, e);
    if i :| j < i < e && 512 * s[i].sector <= p {
      var m := FirstCrossing(s, j, i, p);
      assert DropsAt(s, m, p);
    } else {
      assert s[e - 1] in s && p < 512 * End(s[e - 1]);
      NotOverlaid(s, c, n, j, p);
    }
  }

  lemma DroppedIsLost(hook: Hook, s: seq<Req>, m: int, p: int)
    requires s != [] && Sorted(s) && AllExact(s) && Unvetoed(hook, s) && DropsAt(s, m, p)
    ensures LostAt(s, Cuts(hook, s, |s|), m - 1, p)
  {
    hide *;
    var c := Cuts(hook, s, |s|);
    CutGap(hook, s, |s|);
    assert 0 < m < |s| by {
      DropBounds(s, m, p);
    }
    DropCovers(s, m, p);
    ShorterIsFused(s, c, m);
    FusedIsLost(s, c, m - 1, m, p);
  }

  lemma DropBounds(s: seq<Req>, m: int, p: int)
    requires DropsAt(s, m, p)
    ensures 0 < m < |s|
  {
  }

  lemma FusedIsLost(s: seq<Req>, c: seq<nat>, j: nat, i: nat, p: int)
    requires Cutting(c, |s|) && c != [] && c[0] == 0 && j < |s| && Covers(s[j], p)
    requires forall k :: j < k < |s| ==> !Covers(s[k], p)
    requires j < i < GroupEnd(c, |s|, j) && 512 * s[i].sector <= p
    ensures LostAt(s, c, j, p)
  {
    hide Overlaid, GroupEnd, Covers, Cutting;
  }

  lemma DropCovers(s: seq<Req>, m: int, p: int)
    requires Sorted(s) && AllExact(s) && DropsAt(s, m, p)
    ensures Covers(s[m - 1], p) && 512 * s[m].sector <= p && forall k :: m - 1 < k < |s| ==> !Covers(s[k], p)
    ensures End(s[m]) < End(s[m - 1])
  {
    assert s[m] in s && s[m - 1] in s && s[m - 1].sector <= s[m].sector;
    assert Exact(s[m]);
    forall k | m - 1 < k < |s| ensures !Covers(s[k], p) {}
  }

  lemma ShorterIsFused(s: seq<Req>, c: seq<nat>, m: int)
    requires Cutting(c, |s|) && c != [] && c[0] == 0 && AllExact(s) && forall k :: k in c ==> GapBefore(s, k)
    requires 0 < m < |s| && End(s[m]) < End(s[m - 1])
    ensures m < GroupEnd(c, |s|, m - 1)
  {
    assert s[m] in s && Exact(s[m]);
    GroupEndIsCut(c, |s|, m - 1);
    hide GroupEnd;
    assert !GapBefore(s, m);
  }

  /** For a batch without vetoes a position is lost exactly if some request ends
      before its predecessor, the position lies in between, and no later request
      writes it again. */
  lemma UnvetoedLostIff(hook: Hook, s: seq<Req>, p: int)
    requires s != [] && Sorted(s) && AllExact(s) && Unvetoed(hook, s)
    ensures Lost(hook, s, p) <==> Dropped(s, p)
  {
    hide LostAt, DropsAt, Sorted, AllExact, Unvetoed, Cuts;
    if j :| LostAt(s, Cuts(hook, s, |s|), j, p) {
      LostIsDropped(hook, s, j, p);
    }
    if m :| DropsAt(s, m, p) {
      DroppedIsLost(hook, s, m, p);
    }
  }

  lemma {:induction false} NoBytes(n: nat)
    ensures Size(seq(n, _ => [])) == 0
  {
    if n == 0 {
    } else {
      var vecs: seq<seq<byte>> := seq(n, _ => []);
      NoBytes(n - 1);
      assert vecs[1..] == seq(n - 1, _ => []);
    }
  }

  /** A loss that only a veto makes possible: the second request does not fit to
      the first, which is longer; the third is fused to the second across a gap,
      and the zeros in the gap overwrite sectors of the first. */
  lemma VetoedGapLoses(hook: Hook, s: seq<Req>)
    requires forall a, b, c, d :: hook(a, b, c, d)
    requires s == [Req(0, 10, [Zeros(5120)] + seq(1023, _ => [])), Req(1, 1, [Zeros(512)]), Req(5, 1, [Zeros(512)])]
    ensures Sorted(s) && AllExact(s) && Lost(hook, s, 512 * 3)
  {
    NoBytes(1023);
    var vecs := s[0].vecs;
    assert vecs[1..] == seq(1023, _ => []) && Size(vecs) == 5120;
    assert [Zeros(512)][1..] == [] && Size([Zeros(512)]) == 512;
    assert Exact(s[0]) && Exact(s[1]) && Exact(s[2]);
    hide Size, Exact, Fuse, Zeros;
    assert |vecs| == 1024 && !Fits(s[0], s[1]) && Fits(s[1], s[2]);
    assert Cuts(hook, s, 1) == [0] && Group(s, 0, 1) == s[0];
    assert Last([0]) == 0 && Cuts(hook, s, 2) == [0] + [1];
    assert Last([0, 1]) == 1 && Group(s, 1, 2) == s[1] && Cuts(hook, s, 3) == [0, 1];
    assert LostAt(s, [0, 1], 0, 512 * 3);
  }
}
