/** I/O vectors (cutils.c): growing lists of memory ranges that are written or
    read as if they were one buffer.  A range is represented by the bytes it
    currently holds; ranges of one vector do not overlap. */
module IoVectors {
  import opened Bytes

  /** Number of bytes in a list of ranges. */
  function Size(vecs: seq<seq<byte>>): nat {
    if vecs == [] then 0 else |vecs[0]| + Size(vecs[1..])
  }

  /** The bytes of a list of ranges, in order. */
  function Flatten(vecs: seq<seq<byte>>): seq<byte> {
    if vecs == [] then [] else vecs[0] + Flatten(vecs[1..])
  }

  /** The ranges that `Concat` takes over from `vecs` under a byte limit. */
  function Clip(vecs: seq<seq<byte>>, limit: nat): seq<seq<byte>> {
    if vecs == [] || limit == 0 then []
    else if |vecs[0]| > limit then [vecs[0][..limit]]
    else [vecs[0]] + Clip(vecs[1..], limit - |vecs[0]|)
  }

  /** The ranges after `data` was scattered over them from the start. */
  function Scatter(vecs: seq<seq<byte>>, data: seq<byte>): seq<seq<byte>> {
    if vecs == [] || data == [] then vecs
    else
      var copy := if |data| > |vecs[0]| then |vecs[0]| else |data|;
      [data[..copy] + vecs[0][copy..]] + Scatter(vecs[1..], data[copy..])
  }

  function Min(a: int, b: int): int { if a < b then a else b }

  lemma {:induction false} FlattenLength(vecs: seq<seq<byte>>)
    ensures |Flatten(vecs)| == Size(vecs)
  {
    if vecs == [] {
    } else {
      FlattenLength(vecs[1..]);
    }
  }

  lemma {:induction false} FlattenAppend(a: seq<seq<byte>>, b: seq<seq<byte>>)
    ensures Flatten(a + b) == Flatten(a) + Flatten(b)
    ensures Size(a + b) == Size(a) + Size(b)
  {
    if a == [] {
      assert a + b == b;
    } else {
      assert (a + b)[1..] == a[1..] + b;
      FlattenAppend(a[1..], b);
      assert Flatten(a + b) == a[0] + (Flatten(a[1..]) + Flatten(b));
    }
  }

  lemma FlattenOne(v: seq<byte>)
    ensures Flatten([v]) == v && Size([v]) == |v|
  {
    assert [v][1..] == [];
    assert Flatten([v]) == v + [];
  }

  /** Clipping keeps exactly the first `limit` bytes and never adds a range. */
  lemma {:induction false} ClipIsPrefix(vecs: seq<seq<byte>>, limit: nat)
    ensures Flatten(Clip(vecs, limit)) == Flatten(vecs)[..Min(limit, |Flatten(vecs)|)]
    ensures |Clip(vecs, limit)| <= |vecs|
    ensures Size(Clip(vecs, limit)) == Min(limit, Size(vecs))
  {
    FlattenLength(vecs);
    FlattenLength(Clip(vecs, limit));
    if vecs == [] || limit == 0 {
    } else if |vecs[0]| > limit {
      FlattenOne(vecs[0][..limit]);
    } else {
      ClipIsPrefix(vecs[1..], limit - |vecs[0]|);
    }
  }

  lemma ScatterLengths(vecs: seq<seq<byte>>, data: seq<byte>)
    ensures |Scatter(vecs, data)| == |vecs|
    ensures forall i :: 0 <= i < |vecs| ==> |Scatter(vecs, data)[i]| == |vecs[i]|
  {
  }

  /** Scattering a buffer and gathering the ranges again gives the buffer back,
      followed by whatever the ranges held behind it. */
  lemma {:induction false} GatherScatter(vecs: seq<seq<byte>>, data: seq<byte>)
    ensures var n := Min(|data|, |Flatten(vecs)|);
            Flatten(Scatter(vecs, data)) == data[..n] + Flatten(vecs)[n..]
  {
    if vecs == [] || data == [] {
    } else if |data| <= |vecs[0]| {
      var first := data + vecs[0][|data|..];
      assert data[|data|..] == [] && data[..|data|] == data;
      assert Scatter(vecs, data) == [first] + vecs[1..];
      FlattenAppend([first], vecs[1..]);
      FlattenOne(first);
      assert Flatten(vecs)[|data|..] == vecs[0][|data|..] + Flatten(vecs[1..]);
    } else {
      var copy := |vecs[0]|;
      var rest := data[copy..];
      GatherScatter(vecs[1..], rest);
      assert data[..copy] + vecs[0][copy..] == data[..copy];
      assert Scatter(vecs, data) == [data[..copy]] + Scatter(vecs[1..], rest);
      FlattenAppend([data[..copy]], Scatter(vecs[1..], rest));
      FlattenOne(data[..copy]);
      GatherStep(vecs[0], Flatten(vecs[1..]), data);
    }
  }

  lemma GatherStep(first: seq<byte>, more: seq<byte>, data: seq<byte>)
    requires |data| > |first|
    ensures var n, m := Min(|data|, |first + more|), Min(|data[|first|..]|, |more|);
            data[..|first|] + (data[|first|..][..m] + more[m..]) == data[..n] + (first + more)[n..]
  {
  }

  /** The first `i` ranges, `p` bytes, have been copied over `orig`. */
  ghost predicate Gathered(now: seq<byte>, vecs: seq<seq<byte>>, orig: seq<byte>, i: nat, p: nat) {
    i <= |vecs| && p == |Flatten(vecs[..i])| && p + Size(vecs[i..]) <= |orig| == |now|
    && now == Flatten(vecs[..i]) + orig[p..]
  }

  lemma GatheredStart(vecs: seq<seq<byte>>, orig: seq<byte>)
    requires Size(vecs) <= |orig|
    ensures Gathered(orig, vecs, orig, 0, 0)
  {
    assert vecs[..0] == [] && vecs[0..] == vecs && Flatten([]) == [];
  }

  lemma GatheredStep(now: seq<byte>, vecs: seq<seq<byte>>, orig: seq<byte>, i: nat, p: nat)
    requires Gathered(now, vecs, orig, i, p) && i < |vecs|
    ensures p + |vecs[i]| <= |now|
    ensures Gathered(Patch(now, p, vecs[i]), vecs, orig, i + 1, p + |vecs[i]|)
  {
    assert vecs[i..][0] == vecs[i] && vecs[i..][1..] == vecs[i + 1..];
    assert p + |vecs[i]| + Size(vecs[i + 1..]) <= |orig|;
    assert vecs[..i + 1] == vecs[..i] + [vecs[i]];
    FlattenAppend(vecs[..i], [vecs[i]]);
    FlattenOne(vecs[i]);
    hide Flatten, Size;
    SpliceAfter(Flatten(vecs[..i]), vecs[i], orig);
  }

  lemma GatheredEnd(now: seq<byte>, vecs: seq<seq<byte>>, orig: seq<byte>, p: nat)
    requires Gathered(now, vecs, orig, |vecs|, p)
    ensures |Flatten(vecs)| == Size(vecs) == p <= |orig| && now == Flatten(vecs) + orig[p..]
  {
    assert vecs[..|vecs|] == vecs;
    FlattenLength(vecs);
  }

  /** `QEMUIOVector`; `nalloc` is -1 for a vector wrapped around foreign ranges. */
  class IoVector {
    var iov: seq<seq<byte>>
    var nalloc: int
    var size: nat

    ghost predicate Valid()
      reads this
    {
      size == Size(iov) && (nalloc == -1 || |iov| <= nalloc)
    }

    constructor Init(allocHint: nat)
      ensures Valid() && iov == [] && nalloc == allocHint
    {
      iov, nalloc, size := [], allocHint, 0;
    }

    constructor InitExternal(ranges: seq<seq<byte>>)
      ensures Valid() && iov == ranges && nalloc == -1
    {
      iov, nalloc := ranges, -1;
      var total := 0;
      for i := 0 to |ranges|
        invariant total == Size(ranges[..i])
      {
        assert ranges[..i + 1] == ranges[..i] + [ranges[i]];
        FlattenAppend(ranges[..i], [ranges[i]]);
        FlattenOne(ranges[i]);
        total := total + |ranges[i]|;
      }
      assert ranges[..|ranges|] == ranges;
      size := total;
    }

    method Add(range: seq<byte>)
      requires Valid() && nalloc != -1
      modifies this
      ensures Valid() && nalloc != -1
      ensures iov == old(iov) + [range] && size == old(size) + |range|
      ensures nalloc == if |old(iov)| == old(nalloc) then 2 * old(nalloc) + 1 else old(nalloc)
    {
      if |iov| == nalloc {
        nalloc := 2 * nalloc + 1;
      }
      FlattenAppend(iov, [range]);
      FlattenOne(range);
      iov := iov + [range];
      size := size + |range|;
    }

    /** `qemu_iovec_concat`: `src` must be another vector. */
    method Concat(src: IoVector, limit: nat)
      requires Valid() && nalloc != -1 && src != this
      modifies this
      ensures Valid() && nalloc != -1
      ensures iov == old(iov) + Clip(src.iov, limit)
    {
      var done, i := 0, 0;
      while i < |src.iov| && done != limit
        invariant Valid() && nalloc != -1
        invariant i <= |src.iov| && done <= limit
        invariant iov + Clip(src.iov[i..], limit - done) == old(iov) + Clip(src.iov, limit)
      {
        assert src.iov[i..][1..] == src.iov[i + 1..];
        if done + |src.iov[i]| > limit {
          Add(src.iov[i][..limit - done]);
          return;
        } else {
          Add(src.iov[i]);
        }
        done := done + |src.iov[i]|;
        i := i + 1;
      }
      assert iov + [] == iov;
    }

    method Reset()
      requires Valid() && nalloc != -1
      modifies this
      ensures Valid() && iov == [] && size == 0 && nalloc == old(nalloc)
    {
      iov, size := [], 0;
    }

    /** `qemu_iovec_to_buffer`: gathers the ranges at the start of `buf`. */
    method ToBuffer(buf: array<byte>)
      requires Valid() && size <= buf.Length
      modifies buf
      ensures buf[..] == Flatten(iov) + old(buf[..])[size..]
    {
      hide Flatten, Size, Gathered, Patch;
      ghost var orig := buf[..];
      var p: nat := 0;
      GatheredStart(iov, orig);
      for i := 0 to |iov|
        invariant Gathered(buf[..], iov, orig, i, p)
      {
        GatheredStep(buf[..], iov, orig, i, p);
        CopyInto(buf, p, iov[i]);
        p := p + |iov[i]|;
      }
      GatheredEnd(buf[..], iov, orig, p);
    }

    /** `qemu_iovec_from_buffer`: scatters `data` over the ranges. */
    method FromBuffer(data: seq<byte>)
      requires Valid()
      modifies this`iov
      ensures Valid() && iov == Scatter(old(iov), data)
    {
      hide Scatter, Flatten, Min;
      ghost var before, done := iov, [];
      var p, count, i := 0, |data|, 0;
      while i < |iov| && count != 0
        invariant i == |done| <= |before| && 0 <= p <= |data| && count == |data| - p
        invariant iov == done + before[i..]
        invariant done + Scatter(before[i..], data[p..]) == Scatter(before, data)
      {
        var copy := count;
        if copy > |iov[i]| {
          copy := |iov[i]|;
        }
        ghost var next := data[p..p + copy] + before[i][copy..];
        ScatterStep(before, data, i, p, copy);
        assert done + ([next] + Scatter(before[i + 1..], data[p + copy..]))
            == done + [next] + Scatter(before[i + 1..], data[p + copy..]);
        iov := iov[i := data[p..p + copy] + iov[i][copy..]];
        done := done + [next];
        p := p + copy;
        count := count - copy;
        i := i + 1;
      }
      ScatterEnd(before, data, i, p);
      ScatterLengths(before, data);
      SameSize(iov, before);
    }
  }

  lemma ScatterEnd(vecs: seq<seq<byte>>, data: seq<byte>, i: nat, p: nat)
    requires i <= |vecs| && p <= |data| && (i == |vecs| || p == |data|)
    ensures Scatter(vecs[i..], data[p..]) == vecs[i..]
  {
  }

  lemma ScatterStep(vecs: seq<seq<byte>>, data: seq<byte>, i: nat, p: nat, copy: nat)
    requires i < |vecs| && p < |data|
    requires copy == if |data| - p > |vecs[i]| then |vecs[i]| else |data| - p
    ensures Scatter(vecs[i..], data[p..])
         == [data[p..p + copy] + vecs[i][copy..]] + Scatter(vecs[i + 1..], data[p + copy..])
  {
    assert vecs[i..][1..] == vecs[i + 1..] && data[p..][copy..] == data[p + copy..];
    assert data[p..][..copy] == data[p..p + copy];
  }

  lemma {:induction false} SameSize(a: seq<seq<byte>>, b: seq<seq<byte>>)
    requires |a| == |b| && forall i :: 0 <= i < |a| ==> |a[i]| == |b[i]|
    ensures Size(a) == Size(b)
  {
    if a == [] {
    } else {
      SameSize(a[1..], b[1..]);
    }
  }
}
