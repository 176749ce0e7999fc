/** The ring buffer of cbuffer.c: a read position and a count over a fixed
    array, proved to be a bounded byte queue. */
module Cbuffer {
  import opened Bytes
  import opened IoVectors

  /** The bytes held by a ring, oldest first. */
  function Ring(buff: seq<byte>, rpos: nat, count: nat): (r: seq<byte>)
    requires rpos <= |buff| && count <= |buff|
    ensures |r| == count
  {
    if rpos + count <= |buff| then buff[rpos..rpos + count]
    else buff[rpos..] + buff[..rpos + count - |buff|]
  }

  function Wrap(pos: nat, size: nat): nat { if pos >= size then pos - size else pos }

  lemma RingAt(buff: seq<byte>, rpos: nat, count: nat, k: nat)
    requires rpos < |buff| && k < count <= |buff|
    ensures Wrap(rpos + k, |buff|) < |buff| && Ring(buff, rpos, count)[k] == buff[Wrap(rpos + k, |buff|)]
  {
  }

  /** Filling free space right behind the contents appends to them. */
  lemma RingAppend(buff: seq<byte>, rpos: nat, count: nat, data: seq<byte>, now: seq<byte>)
    requires rpos < |buff| && count + |data| <= |buff| && Wrap(rpos + count, |buff|) + |data| <= |buff|
    requires var w := Wrap(rpos + count, |buff|); now == buff[..w] + data + buff[w + |data|..]
    ensures |now| == |buff| && Ring(now, rpos, count + |data|) == Ring(buff, rpos, count) + data
  {
    var w := Wrap(rpos + count, |buff|);
    var r, was := Ring(now, rpos, count + |data|), Ring(buff, rpos, count);
    forall k | 0 <= k < |r| ensures r[k] == (was + data)[k] {
      RingAt(now, rpos, count + |data|, k);
      if k < count {
        RingAt(buff, rpos, count, k);
        hide Ring;
        assert now[Wrap(rpos + k, |buff|)] == buff[Wrap(rpos + k, |buff|)];
      } else {
        hide Ring;
        assert Wrap(rpos + k, |buff|) == w + (k - count);
      }
    }
  }

  /** Writing does not disturb contents elsewhere: a prefix stays. */
  lemma RingPrefix(buff: seq<byte>, rpos: nat, count: nat, more: nat)
    requires rpos < |buff| && count <= more <= |buff|
    ensures Ring(buff, rpos, more)[..count] == Ring(buff, rpos, count)
  {
    hide Ring;
    var a, b := Ring(buff, rpos, more)[..count], Ring(buff, rpos, count);
    forall k | 0 <= k < count ensures a[k] == b[k] {
      RingAt(buff, rpos, more, k);
      RingAt(buff, rpos, count, k);
    }
  }

  /** Counting in `n` bytes that were already stored behind the contents. */
  lemma RingGrow(buff: seq<byte>, rpos: nat, count: nat, n: nat)
    requires rpos < |buff| && count <= |buff|
    ensures var w := Wrap(rpos + count, |buff|);
            w + n <= |buff| && count + n <= |buff| ==>
              Ring(buff, rpos, count + n) == Ring(buff, rpos, count) + buff[w..w + n]
  {
    hide Ring;
    var w := Wrap(rpos + count, |buff|);
    if w + n <= |buff| && count + n <= |buff| {
      assert buff == buff[..w] + buff[w..w + n] + buff[w + n..];
      RingAppend(buff, rpos, count, buff[w..w + n], buff);
    }
  }

  /** The front of the contents is a contiguous range at the read position. */
  lemma RingFront(buff: seq<byte>, rpos: nat, count: nat, n: nat)
    requires rpos < |buff| && n <= count <= |buff| && rpos + n <= |buff|
    ensures Ring(buff, rpos, count)[..n] == buff[rpos..rpos + n]
  {
  }

  /** Dropping from the front may pass the end of the array. */
  lemma RingDrop(buff: seq<byte>, rpos: nat, count: nat, n: nat)
    requires rpos < |buff| && n <= count <= |buff|
    ensures Ring(buff, rpos, count)[n..] == Ring(buff, Wrap(rpos + n, |buff|), count - n)
  {
    hide Ring;
    var a, b := Ring(buff, rpos, count)[n..], Ring(buff, Wrap(rpos + n, |buff|), count - n);
    forall k | 0 <= k < count - n ensures a[k] == b[k] {
      RingAt(buff, rpos, count, n + k);
      RingAt(buff, Wrap(rpos + n, |buff|), count - n, k);
    }
  }

  /** `cbuffer_write` has stored the first `at` bytes of `from` behind `was`. */
  predicate Storing(buff: seq<byte>, rpos: int, count: int, was: seq<byte>, from: seq<byte>, at: int) {
    0 <= rpos < |buff| && 0 <= count <= |buff| && 0 <= at <= |from|
    && count == |was| + at && Ring(buff, rpos, count) == was + from[..at]
  }

  lemma StoreStep(buff: seq<byte>, rpos: int, count: int, was: seq<byte>, from: seq<byte>, at: int, n: int,
                  now: seq<byte>)
    requires Storing(buff, rpos, count, was, from, at) && 0 <= n && at + n <= |from| && count + n <= |buff|
    requires var w := Wrap(rpos + count, |buff|); w + n <= |buff| && now == Patch(buff, w, from[at..at + n])
    ensures Storing(now, rpos, count + n, was, from, at + n)
  {
    hide Ring;
    RingAppend(buff, rpos, count, from[at..at + n], now);
    assert from[..at] + from[at..at + n] == from[..at + n];
    assert was + from[..at] + from[at..at + n] == was + (from[..at] + from[at..at + n]);
  }

  /** `cbuffer_read` has moved the first `at` bytes of `was` to the start of `to`. */
  predicate Taking(buff: seq<byte>, rpos: int, count: int, was: seq<byte>, to: seq<byte>, orig: seq<byte>, at: int) {
    0 <= rpos < |buff| && 0 <= count <= |buff| && 0 <= at <= |orig| && at <= |was|
    && count == |was| - at && Ring(buff, rpos, count) == was[at..] && to == was[..at] + orig[at..]
  }

  lemma TakeStep(buff: seq<byte>, rpos: int, count: int, was: seq<byte>, to: seq<byte>, orig: seq<byte>, at: int,
                 n: int, now: seq<byte>)
    requires Taking(buff, rpos, count, was, to, orig, at)
    requires 0 <= n <= count && at + n <= |orig| && rpos + n <= |buff|
    requires at <= |to| - n && now == Patch(to, at, buff[rpos..rpos + n])
    ensures Taking(buff, Wrap(rpos + n, |buff|), count - n, was, now, orig, at + n)
  {
    hide Ring;
    RingFront(buff, rpos, count, n);
    RingDrop(buff, rpos, count, n);
    assert was[at..][..n] == was[at..at + n] && was[at..][n..] == was[at + n..];
    assert to[..at] == was[..at] && to[at + n..] == orig[at + n..];
    assert was[..at] + was[at..at + n] == was[..at + n];
  }

  lemma StoringStart(buff: seq<byte>, rpos: int, count: int, from: seq<byte>)
    requires 0 <= rpos < |buff| && 0 <= count <= |buff|
    ensures Storing(buff, rpos, count, Ring(buff, rpos, count), from, 0)
  {
    hide Ring;
    assert Ring(buff, rpos, count) + from[..0] == Ring(buff, rpos, count);
  }

  lemma StoringDone(buff: seq<byte>, rpos: int, count: int, was: seq<byte>, from: seq<byte>, at: int)
    requires Storing(buff, rpos, count, was, from, at)
    ensures 0 <= rpos < |buff| && 0 <= count <= |buff| && 0 <= at <= |from|
    ensures Ring(buff, rpos, count) == was + from[..at]
  {
  }

  lemma TakingStart(buff: seq<byte>, rpos: int, count: int, to: seq<byte>)
    requires 0 <= rpos < |buff| && 0 <= count <= |buff|
    ensures Taking(buff, rpos, count, Ring(buff, rpos, count), to, to, 0)
  {
    hide Ring;
    var was := Ring(buff, rpos, count);
    assert was[..0] + to[0..] == to && was[0..] == was;
  }

  lemma TakingDone(buff: seq<byte>, rpos: int, count: int, was: seq<byte>, to: seq<byte>, orig: seq<byte>, at: int)
    requires Taking(buff, rpos, count, was, to, orig, at)
    ensures 0 <= rpos < |buff| && 0 <= count <= |buff| && 0 <= at <= |orig| && at <= |was|
    ensures Ring(buff, rpos, count) == was[at..] && to == was[..at] + orig[at..]
  {
  }

  class CBuffer {
    const buff: array<byte>
    var rpos: int
    var count: int

    /** What `cbuffer_assert` checks. */
    ghost predicate Valid()
      reads this
    {
      0 <= rpos < buff.Length && 0 <= count <= buff.Length
    }

    ghost function Contents(): seq<byte>
      requires Valid()
      reads this, buff
    {
      Ring(buff[..], rpos, count)
    }

    constructor (buff: array<byte>)
      requires buff.Length > 0
      ensures Valid() && this.buff == buff && Contents() == []
    {
      this.buff := buff;
      rpos, count := 0, 0;
    }

    method Reset()
      requires buff.Length > 0
      modifies this
      ensures Valid() && Contents() == []
    {
      rpos, count := 0, 0;
    }

    /** A contiguous free range that starts where the contents end: empty only
        when the buffer is full. */
    method WritePeek() returns (base: int, avail: int)
      requires Valid()
      ensures base == Wrap(rpos + count, buff.Length) && 0 <= avail <= buff.Length - count
      ensures base + avail <= buff.Length && (avail == 0 <==> count == buff.Length)
      ensures avail == Min(buff.Length - count, buff.Length - base)
    {
      var wpos := rpos + count;
      avail := buff.Length - count;
      if wpos >= buff.Length {
        wpos := wpos - buff.Length;
      }
      if wpos + avail > buff.Length {
        avail := buff.Length - wpos;
      }
      base := wpos;
    }

    /** Takes in the bytes that the caller stored in the peeked range. */
    method WriteStep(len: nat)
      requires Valid()
      modifies this`count
      ensures Valid() && count == Min(old(count) + len, buff.Length)
      ensures Contents()[..old(count)] == old(Contents())
      ensures var w := Wrap(rpos + old(count), buff.Length);
              w + len <= buff.Length && count == old(count) + len ==> Contents() == old(Contents()) + buff[..][w..w + len]
    {
      hide Ring;
      RingGrow(buff[..], rpos, count, len);
      RingPrefix(buff[..], rpos, count, Min(count + len, buff.Length));
      count := count + len;
      if count > buff.Length {
        count := buff.Length;
      }
    }

    /** Appends as much as fits. */
    method Write(from: seq<byte>, len: int) returns (written: int)
      requires Valid() && len <= |from|
      modifies this`count, buff
      ensures Valid()
      ensures written == if len <= 0 then 0 else Min(len, buff.Length - old(count))
      ensures Contents() == old(Contents()) + from[..written]
    {
      hide Ring, Storing, Patch;
      var len2, at := len, 0;
      ghost var was := Contents();
      StoringStart(buff[..], rpos, count, from);
      while len2 > 0
        invariant 0 <= rpos < buff.Length && 0 <= count <= buff.Length && rpos == old(rpos)
        invariant 0 <= at <= |from| && (if len <= 0 then len2 == len && at == 0 else 0 <= len2 == len - at)
        invariant count == old(count) + at && Storing(buff[..], rpos, count, was, from, at)
      {
        var avail := buff.Length - count;
        var wpos := rpos + count;
        if avail == 0 {
          break;
        }
        if wpos >= buff.Length {
          wpos := wpos - buff.Length;
        }
        if wpos + avail > buff.Length {
          avail := buff.Length - wpos;
        }
        if avail > len2 {
          avail := len2;
        }
        ghost var before := buff[..];
        CopyInto(buff, wpos, from[at..at + avail]);
        StoreStep(before, rpos, count, was, from, at, avail, buff[..]);
        at := at + avail;
        len2 := len2 - avail;
        count := count + avail;
      }
      written := len - len2;
      StoringDone(buff[..], rpos, count, was, from, at);
    }

    /** Removes up to `len` bytes from the front into `to`. */
    method Read(to: array<byte>, len: int) returns (got: int)
      requires Valid() && len <= to.Length && to != buff
      modifies this, to
      ensures Valid()
      ensures got == if len <= 0 then 0 else Min(len, old(count))
      ensures to[..] == old(Contents())[..got] + old(to[got..])
      ensures Contents() == old(Contents())[got..]
    {
      hide Ring, Taking, Patch;
      var len2, at := len, 0;
      ghost var was, orig := Contents(), to[..];
      TakingStart(buff[..], rpos, count, orig);
      while len2 > 0
        invariant 0 <= rpos < buff.Length && 0 <= count <= buff.Length && buff[..] == old(buff[..])
        invariant 0 <= at <= to.Length && (if len <= 0 then len2 == len && at == 0 else 0 <= len2 == len - at)
        invariant count == |was| - at && Taking(buff[..], rpos, count, was, to[..], orig, at)
      {
        var avail := count;
        var pos := rpos;
        if avail == 0 {
          break;
        }
        if pos + avail > buff.Length {
          avail := buff.Length - pos;
        }
        if avail > len2 {
          avail := len2;
        }
        ghost var before := to[..];
        assert buff[..][pos..pos + avail] == buff[pos..pos + avail];
        CopyInto(to, at, buff[pos..pos + avail]);
        TakeStep(buff[..], pos, count, was, before, orig, at, avail, to[..]);
        at := at + avail;
        len2 := len2 - avail;
        count := count - avail;
        rpos := rpos + avail;
        if rpos >= buff.Length {
          rpos := rpos - buff.Length;
        }
      }
      got := len - len2;
      TakingDone(buff[..], rpos, count, was, to[..], orig, at);
      assert orig[at..] == old(to[at..]);
    }

    /** A contiguous range with the front of the contents: empty only when
        there are none. */
    method ReadPeek() returns (base: int, avail: int)
      requires Valid()
      ensures 0 <= base <= base + avail <= buff.Length && avail <= count
      ensures base == rpos && avail == Min(count, buff.Length - rpos) && (avail == 0 <==> count == 0)
      ensures buff[base..base + avail] == Contents()[..avail]
    {
      base := rpos;
      avail := count;
      if base + avail > buff.Length {
        avail := buff.Length - base;
      }
      RingFront(buff[..], rpos, count, avail);
      assert buff[base..base + avail] == buff[..][base..base + avail];
    }

    /** Drops up to `len` bytes from the front. */
    method ReadStep(len: nat)
      requires Valid()
      modifies this
      ensures Valid() && Contents() == old(Contents())[Min(len, old(count))..]
      ensures rpos == Wrap(old(rpos) + Min(len, old(count)), buff.Length)
    {
      var n := len;
      if n > count {
        n := count;
      }
      RingDrop(buff[..], rpos, count, n);
      rpos := rpos + n;
      if rpos >= buff.Length {
        rpos := rpos - buff.Length;
      }
      count := count - n;
    }
  }
}
