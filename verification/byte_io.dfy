/** Byte access on a sector device (block.c, `bdrv_pread` and `bdrv_pwrite`). */
module ByteIo {
  import opened Bytes
  import opened IoVectors

  const EIO := 5
  const EACCES := 13
  const ENOMEDIUM := 123

  /** What the driver does with one request: it succeeds, or it fails with an
      error code after having written the first `sectors` sectors. */
  datatype Answer = Succeeds | Fails(code: int, sectors: nat)

  /** Disk contents, one byte for each position. */
  type Contents = int -> byte

  /** `now` is `was` with `data` put at position `offset`. */
  ghost predicate Spliced(now: Contents, was: Contents, offset: int, data: seq<byte>) {
    forall p :: now(p) == if offset <= p < offset + |data| then data[p - offset] else was(p)
  }

  /** `data` is what the disk holds from position `offset` on. */
  ghost predicate SliceAt(c: Contents, offset: int, data: seq<byte>) {
    forall k :: 0 <= k < |data| ==> data[k] == c(offset + k)
  }

  lemma SpliceTwice(c0: Contents, c1: Contents, c2: Contents, offset: int, mid: int, a: seq<byte>, b: seq<byte>)
    requires mid == offset + |a| && Spliced(c1, c0, offset, a) && Spliced(c2, c1, mid, b)
    ensures Spliced(c2, c0, offset, a + b)
  {
    forall p ensures c2(p) == if offset <= p < offset + |a + b| then (a + b)[p - offset] else c0(p) {
      assert c1(p) == if offset <= p < offset + |a| then a[p - offset] else c0(p);
    }
  }

  lemma SpliceNothing(c1: Contents, c0: Contents, offset: int, other: int)
    requires c1 == c0 || Spliced(c1, c0, offset, [])
    ensures Spliced(c1, c0, other, [])
  {
    forall p ensures c1(p) == c0(p) {}
  }

  lemma OneSector(image: seq<byte>, w: nat)
    requires |image| == 512 && w <= 1
    ensures image[..512 * w] == if w == 1 then image else []
  {
  }

  lemma SpliceInside(c1: Contents, c0: Contents, base: int, data: seq<byte>, at: nat, part: seq<byte>)
    requires at + |part| <= |data| && SliceAt(c0, base, data)
    requires Spliced(c1, c0, base, data[..at] + part + data[at + |part|..])
    ensures Spliced(c1, c0, base + at, part)
  {
    var all := data[..at] + part + data[at + |part|..];
    forall p ensures c1(p) == if base + at <= p < base + at + |part| then part[p - (base + at)] else c0(p) {
      if base <= p < base + |all| {
        assert c1(p) == all[p - base];
        assert data[p - base] == c0(base + (p - base));
      }
    }
  }

  lemma SliceAppend(c: Contents, offset: int, mid: int, a: seq<byte>, b: seq<byte>)
    requires mid == offset + |a| && SliceAt(c, offset, a) && SliceAt(c, mid, b)
    ensures SliceAt(c, offset, a + b)
  {
    forall k | 0 <= k < |a + b| ensures (a + b)[k] == c(offset + k) {
      if k >= |a| {
        assert b[k - |a|] == c(mid + (k - |a|));
      }
    }
  }

  lemma PatchTwice(s: seq<byte>, pos: nat, a: seq<byte>, b: seq<byte>)
    requires pos + |a| + |b| <= |s|
    ensures Patch(Patch(s, pos, a), pos + |a|, b) == Patch(s, pos, a + b)
  {
  }

  lemma PatchNothing(s: seq<byte>, pos: nat)
    requires pos <= |s|
    ensures Patch(s, pos, []) == s
  {
  }

  lemma PatchAtStart(s: seq<byte>, data: seq<byte>)
    requires |data| <= |s|
    ensures Patch(s, 0, data)[..|data|] == data && Patch(s, 0, data)[|data|..] == s[|data|..]
  {
  }

  /** `got`, which the disk holds from `offset` on, has been copied to `pos`. */
  ghost predicate Delivered(now: seq<byte>, before: seq<byte>, pos: nat, c: Contents, offset: int, got: seq<byte>) {
    pos + |got| <= |before| && now == Patch(before, pos, got) && SliceAt(c, offset, got)
  }

  lemma DeliveredNothing(before: seq<byte>, pos: nat, c: Contents, offset: int)
    requires pos <= |before|
    ensures Delivered(before, before, pos, c, offset, [])
  {
    PatchNothing(before, pos);
  }

  lemma DeliveredMore(mid: seq<byte>, now: seq<byte>, before: seq<byte>, pos: nat, c: Contents, offset: int,
                      got: seq<byte>, next: nat, nextOffset: int, more: seq<byte>)
    requires Delivered(mid, before, pos, c, offset, got) && Delivered(now, mid, next, c, nextOffset, more)
    requires next == pos + |got| && nextOffset == offset + |got|
    ensures Delivered(now, before, pos, c, offset, got + more)
  {
    PatchTwice(before, pos, got, more);
    SliceAppend(c, offset, nextOffset, got, more);
  }

  /** The first `written` bytes of `data` are on the disk from `offset` on, and
      nothing else has changed. */
  ghost predicate Wrote(now: Contents, was: Contents, offset: int, data: seq<byte>, written: nat) {
    written <= |data| && Spliced(now, was, offset, data[..written])
  }

  lemma WroteNothing(c: Contents, offset: int, data: seq<byte>)
    ensures Wrote(c, c, offset, data, 0)
  {
    SpliceNothing(c, c, offset, offset);
  }

  lemma WroteMore(c0: Contents, c1: Contents, c2: Contents, offset: int, data: seq<byte>, a: nat, b: nat,
                  head: seq<byte>, next: int, tail: seq<byte>, w: nat)
    requires a <= b <= |data| && head == data[..a] && tail == data[a..b] && next == offset + a
    requires Wrote(c1, c0, offset, head, a) && Wrote(c2, c1, next, tail, w)
    ensures Wrote(c2, c0, offset, data, a + w)
  {
    SpliceTwice(c0, c1, c2, offset, next, head[..a], tail[..w]);
    assert head[..a] + tail[..w] == data[..a + w];
  }

  lemma WrotePrefix(c1: Contents, c0: Contents, offset: int, data: seq<byte>, n: nat, w: nat)
    requires n <= |data| && Wrote(c1, c0, offset, data[..n], w)
    ensures Wrote(c1, c0, offset, data, w)
  {
    assert data[..n][..w] == data[..w];
  }

  /** Bytes up to the next sector boundary, at most `count`. */
  function HeadLength(offset: int, count: int): int {
    var len := (512 - offset) % 512;
    if len > count then count else len
  }

  function RoundUp(n: int): int { (n + 511) / 512 * 512 }

  /** The part of `BlockDriverState` that byte access depends on.  `answers`
      scripts the driver's behaviour; when it is used up the driver succeeds. */
  class BlockDevice {
    var contents: Contents
    const length: int
    const growable: bool
    const readOnly: bool
    const hasDriver: bool
    const inserted: bool
    var answers: seq<Answer>

    /** The request passes `bdrv_check_byte_request`. */
    predicate InRange(offset: int, size: int) {
      inserted && (growable || (offset >= 0 && offset <= length && length - offset >= size))
    }

    predicate HasSectors(sector: int, nb: int) { InRange(512 * sector, 512 * nb) }

    method CheckByteRequest(offset: int, size: int) returns (ret: int)
      ensures ret == 0 <==> InRange(offset, size)
      ensures ret <= 0
    {
      if !inserted {
        return -ENOMEDIUM;
      }
      if growable {
        return 0;
      }
      var len := length;
      if offset < 0 {
        return -EIO;
      }
      if offset > len || len - offset < size {
        return -EIO;
      }
      return 0;
    }

    method NextAnswer() returns (a: Answer)
      modifies this`answers
      ensures old(answers) == [] ==> a == Succeeds && answers == []
      ensures old(answers) != [] ==> a == old(answers)[0] && answers == old(answers)[1..]
    {
      a := Succeeds;
      if answers != [] {
        a, answers := answers[0], answers[1..];
      }
    }

    predicate Reliable()
      reads this
    {
      forall i :: 0 <= i < |answers| ==> answers[i] == Succeeds
    }

    method Read(sector: int, nb: nat) returns (ret: int, data: seq<byte>)
      modifies this`answers
      ensures ret <= 0
      ensures ret == 0 ==> hasDriver && HasSectors(sector, nb)
      ensures ret == 0 ==> |data| == 512 * nb && SliceAt(contents, 512 * sector, data)
      ensures old(Reliable()) ==> Reliable()
      ensures old(Reliable()) && hasDriver && HasSectors(sector, nb) ==> ret == 0
    {
      data := [];
      if !hasDriver {
        return -ENOMEDIUM, data;
      }
      var checked := CheckByteRequest(512 * sector, 512 * nb);
      if checked != 0 {
        return -EIO, data;
      }
      var a := NextAnswer();
      if a.Fails? && a.code > 0 {
        return -a.code, data;
      }
      var c := contents;
      return 0, seq(512 * nb, k => c(512 * sector + k));
    }

    method Write(sector: int, data: seq<byte>, nb: nat) returns (ret: int, ghost written: nat)
      requires |data| == 512 * nb
      modifies this`contents, this`answers
      ensures ret <= 0 && written <= nb
      ensures ret == 0 ==> written == nb && hasDriver && !readOnly && HasSectors(sector, nb)
      ensures Wrote(contents, old(contents), 512 * sector, data, 512 * written)
      ensures old(Reliable()) ==> Reliable()
      ensures old(Reliable()) && hasDriver && !readOnly && HasSectors(sector, nb) ==> ret == 0
    {
      written := 0;
      WroteNothing(contents, 512 * sector, data);
      if !hasDriver {
        return -ENOMEDIUM, 0;
      }
      if readOnly {
        return -EACCES, 0;
      }
      var checked := CheckByteRequest(512 * sector, 512 * nb);
      if checked != 0 {
        return -EIO, 0;
      }
      var a := NextAnswer();
      var w := if a.Fails? && a.code > 0 then (if a.sectors < nb then a.sectors else nb) else nb;
      var was, at, done := contents, 512 * sector, data[..512 * w];
      contents := p => if at <= p < at + |done| then done[p - at] else was(p);
      return if a.Fails? && a.code > 0 then -a.code else 0, w;
    }

    /** The whole sectors that the byte range touches lie on the device. */
    predicate Reachable(offset: int, count: int) {
      hasDriver && inserted && (growable || (0 <= offset && RoundUp(offset + count) <= length))
    }

    /** What the code checks, in two steps, for `count` bytes from a sector on. */
    predicate ReachableAligned(sector: int, count: int) {
      hasDriver
      && (count / 512 > 0 ==> HasSectors(sector, count / 512))
      && (count % 512 > 0 ==> HasSectors(sector + count / 512, 1))
    }

    lemma AlignedIsReachable(sector: int, count: int)
      requires count > 0
      ensures ReachableAligned(sector, count) <==> Reachable(512 * sector, count)
    {
      var nb, rest := count / 512, count % 512;
      assert RoundUp(512 * sector + count) == 512 * (sector + nb + if rest > 0 then 1 else 0);
    }

    /** Copies `n` bytes from inside one sector to `buf + pos`. */
    method ReadPart(sector: int, at: nat, n: nat, buf: array<byte>, pos: nat) returns (ret: int, ghost got: seq<byte>)
      requires at + n <= 512 && pos + n <= buf.Length
      modifies this`answers, buf
      ensures ret <= 0 && (ret == 0 ==> |got| == n && hasDriver && HasSectors(sector, 1)) && (ret < 0 ==> got == [])
      ensures Delivered(buf[..], old(buf[..]), pos, contents, 512 * sector + at, got)
      ensures old(Reliable()) ==> Reliable()
      ensures old(Reliable()) && hasDriver && HasSectors(sector, 1) ==> ret == 0
    {
      got := [];
      DeliveredNothing(buf[..], pos, contents, 512 * sector + at);
      var data;
      ret, data := Read(sector, 1);
      if ret < 0 {
        return;
      }
      got := data[at..at + n];
      hide Patch;
      CopyInto(buf, pos, data[at..at + n]);
    }

    /** Replaces the bytes from `at` on inside one sector by `part`. */
    method WritePart(sector: int, at: nat, part: seq<byte>) returns (ret: int, ghost written: nat)
      requires at + |part| <= 512
      modifies this`contents, this`answers
      ensures ret <= 0 && (written == 0 || written == |part|) && (ret == 0 ==> written == |part|)
      ensures ret == 0 ==> hasDriver && !readOnly && HasSectors(sector, 1)
      ensures Wrote(contents, old(contents), 512 * sector + at, part, written)
      ensures old(Reliable()) ==> Reliable()
      ensures old(Reliable()) && hasDriver && !readOnly && HasSectors(sector, 1) ==> ret == 0
    {
      hide Spliced, SliceAt, HasSectors, Reliable;
      ghost var c0 := contents;
      written := 0;
      WroteNothing(c0, 512 * sector + at, part);
      assert part[..|part|] == part;
      var data;
      ghost var w;
      ret, data := Read(sector, 1);
      if ret < 0 {
        return;
      }
      var tmp := Patched(data, at, part);
      ret, w := Write(sector, tmp, 1);
      OneSector(tmp, w);
      if w == 1 {
        written := |part|;
        SpliceInside(contents, c0, 512 * sector, data, at, part);
      } else {
        SpliceNothing(contents, c0, 512 * sector, 512 * sector + at);
      }
    }

    /** A sector buffer with `part` copied over it. */
    method Patched(data: seq<byte>, at: nat, part: seq<byte>) returns (image: seq<byte>)
      requires |data| == 512 && at + |part| <= 512
      ensures image == data[..at] + part + data[at + |part|..]
    {
      var tmp := new byte[512];
      CopyInto(tmp, 0, data);
      assert tmp[..] == data;
      CopyInto(tmp, at, part);
      image := tmp[..];
    }

    /** Whole sectors straight into the buffer. */
    method ReadWhole(sector: int, nb: nat, buf: array<byte>, pos: nat) returns (ret: int, ghost got: seq<byte>)
      requires pos + 512 * nb <= buf.Length
      modifies this`answers, buf
      ensures ret <= 0 && (ret == 0 ==> |got| == 512 * nb && hasDriver && HasSectors(sector, nb))
      ensures ret < 0 ==> got == []
      ensures Delivered(buf[..], old(buf[..]), pos, contents, 512 * sector, got)
      ensures old(Reliable()) ==> Reliable()
      ensures old(Reliable()) && hasDriver && HasSectors(sector, nb) ==> ret == 0
    {
      hide Patch, SliceAt, HasSectors, Reliable;
      got := [];
      DeliveredNothing(buf[..], pos, contents, 512 * sector);
      var data;
      ret, data := Read(sector, nb);
      if ret < 0 {
        return;
      }
      CopyInto(buf, pos, data);
      got := data;
    }

    /** The part of `bdrv_pread` from a sector boundary on: whole sectors
        directly, then the rest through a sector buffer. */
    method PreadAligned(sector: int, buf: array<byte>, pos: nat, count: nat) returns (ret: int, ghost got: seq<byte>)
      requires pos + count <= buf.Length
      modifies this`answers, buf
      ensures ret <= 0 && |got| <= count && (ret == 0 ==> |got| == count)
      ensures ret == 0 ==> count > 0 ==> ReachableAligned(sector, count)
      ensures Delivered(buf[..], old(buf[..]), pos, contents, 512 * sector, got)
      ensures old(Reliable()) && (count > 0 ==> ReachableAligned(sector, count)) ==> ret == 0
    {
      hide Delivered, HasSectors, Reliable;
      ret, got := 0, [];
      ghost var before := buf[..];
      DeliveredNothing(before, pos, contents, 512 * sector);
      var nb := count / 512;
      var rest := count - 512 * nb;
      if nb > 0 {
        ret, got := ReadWhole(sector, nb, buf, pos);
        if ret < 0 {
          return;
        }
      }
      if rest > 0 {
        ghost var mid, more := buf[..], [];
        ret, more := ReadPart(sector + nb, 0, rest, buf, pos + 512 * nb);
        DeliveredMore(mid, buf[..], before, pos, contents, 512 * sector, got,
                      pos + 512 * nb, 512 * (sector + nb) + 0, more);
        got := got + more;
      }
    }

    /** The part of `bdrv_pwrite` from a sector boundary on. */
    method PwriteAligned(sector: int, data: seq<byte>) returns (ret: int, ghost written: nat)
      modifies this`contents, this`answers
      ensures ret <= 0 && written <= |data| && (ret == 0 ==> written == |data|)
      ensures ret == 0 ==> |data| > 0 ==> ReachableAligned(sector, |data|) && !readOnly
      ensures Wrote(contents, old(contents), 512 * sector, data, written)
      ensures old(Reliable()) && (|data| > 0 ==> ReachableAligned(sector, |data|) && !readOnly) ==> ret == 0
    {
      hide Wrote, HasSectors, Reliable;
      ret, written := 0, 0;
      ghost var c0, w := contents, 0;
      WroteNothing(c0, 512 * sector, data);
      var nb := |data| / 512;
      var rest := |data| - 512 * nb;
      WroteNothing(c0, 512 * sector, data[..512 * nb]);
      if nb > 0 {
        ret, w := Write(sector, data[..512 * nb], nb);
        written := 512 * w;
        WrotePrefix(contents, c0, 512 * sector, data, 512 * nb, written);
        if ret < 0 {
          return;
        }
      }
      if rest > 0 {
        ghost var c1 := contents;
        ret, w := WritePart(sector + nb, 0, data[512 * nb..]);
        WroteMore(c0, c1, contents, 512 * sector, data, 512 * nb, |data|,
                  data[..512 * nb], 512 * (sector + nb) + 0, data[512 * nb..], w);
        written := 512 * nb + w;
      }
    }

    /** A byte range in pieces: `head` bytes at position `at` of sector `first`,
        then the rest from a sector boundary on. */
    predicate Pieces(offset: int, count: int, first: int, at: int, head: int) {
      && 0 <= head <= count && 0 <= at && at + head <= 512 && offset == 512 * first + at
      && (head == 0 ==> at == 0)
      && (0 < head < count ==> offset + head == 512 * (first + 1))
    }

    /** What is checked piece by piece. */
    predicate PiecesReachable(count: int, first: int, head: int) {
      (head > 0 ==> hasDriver && HasSectors(first, 1))
      && (head < count ==> ReachableAligned(if head > 0 then first + 1 else first, count - head))
    }

    /** The pieces of a byte range: checking them one by one checks the range. */
    lemma ReachableByParts(offset: int, count: int)
      requires count > 0
      ensures Pieces(offset, count, offset / 512, offset % 512, HeadLength(offset, count))
      ensures Reachable(offset, count) <==> PiecesReachable(count, offset / 512, HeadLength(offset, count))
    {
      var head, first, r := HeadLength(offset, count), offset / 512, offset % 512;
      assert offset == 512 * first + r;
      assert (512 - offset) % 512 == if r == 0 then 0 else 512 - r;
      if head < count {
        var second := if head > 0 then first + 1 else first;
        AlignedIsReachable(second, count - head);
        assert 512 * second + (count - head) == offset + count;
      } else {
        assert RoundUp(offset + count) == 512 * (first + 1);
      }
    }

    /** Either all bytes of the range are delivered, or a negative error; bytes
        that a failed call has delivered are right, too. */
    method Pread(offset: int, buf: array<byte>, count1: int) returns (ret: int, ghost got: seq<byte>)
      requires count1 <= buf.Length
      modifies this`answers, buf
      ensures ret == count1 || ret < 0
      ensures |got| <= (if count1 > 0 then count1 else 0) && (ret == count1 >= 0 ==> |got| == count1)
      ensures Delivered(buf[..], old(buf[..]), 0, contents, offset, got)
      ensures ret == count1 > 0 ==> Reachable(offset, count1)
      ensures old(Reliable()) && (count1 > 0 ==> Reachable(offset, count1)) ==> ret == count1
    {
      got := [];
      DeliveredNothing(buf[..], 0, contents, offset);
      if count1 <= 0 {
        // no piece is left to transfer
        return count1, got;
      }
      ReachableByParts(offset, count1);
      hide *;
      ret, got := PreadPieces(offset, buf, count1, offset / 512, offset % 512, HeadLength(offset, count1));
    }

    method PreadPieces(offset: int, buf: array<byte>, count1: nat, first: int, at: int, len: int)
      returns (ret: int, ghost got: seq<byte>)
      requires 0 < count1 <= buf.Length && Pieces(offset, count1, first, at, len)
      modifies this`answers, buf
      ensures (ret == count1 || ret < 0) && |got| <= count1 && (ret == count1 ==> |got| == count1)
      ensures Delivered(buf[..], old(buf[..]), 0, contents, offset, got)
      ensures ret == count1 ==> PiecesReachable(count1, first, len)
      ensures old(Reliable()) && PiecesReachable(count1, first, len) ==> ret == count1
    {
      hide ReachableAligned, HasSectors, Reliable, Delivered;
      ghost var before := buf[..];
      got := [];
      DeliveredNothing(before, 0, contents, offset);
      var count, pos, sector := count1, 0, first;
      if len > 0 {
        ret, got := ReadPart(sector, at, len, buf, 0);
        if ret < 0 {
          return;
        }
        count := count - len;
        if count == 0 {
          return count1, got;
        }
        sector := sector + 1;
        pos := pos + len;
      }
      ghost var mid, more := buf[..], [];
      ret, more := PreadAligned(sector, buf, pos, count);
      DeliveredMore(mid, buf[..], before, 0, contents, offset, got, pos, 512 * sector, more);
      got := got + more;
      if ret < 0 {
        return;
      }
      return count1, got;
    }

    /** Success splices the whole buffer into the disk; any failure has written
        some prefix of it and nothing else. */
    method Pwrite(offset: int, buf: seq<byte>, count1: int) returns (ret: int, ghost written: nat)
      requires count1 <= |buf|
      modifies this`contents, this`answers
      ensures ret == count1 || ret < 0
      ensures written <= (if count1 > 0 then count1 else 0) && (ret == count1 >= 0 ==> written == count1)
      ensures Wrote(contents, old(contents), offset, buf, written)
      ensures ret == count1 > 0 ==> Reachable(offset, count1) && !readOnly
      ensures old(Reliable()) && (count1 > 0 ==> Reachable(offset, count1) && !readOnly) ==> ret == count1
    {
      written := 0;
      WroteNothing(contents, offset, buf);
      if count1 <= 0 {
        // no piece is left to transfer
        return count1, 0;
      }
      ReachableByParts(offset, count1);
      hide *;
      ret, written := PwritePieces(offset, buf, count1, offset / 512, offset % 512, HeadLength(offset, count1));
    }

    method PwritePieces(offset: int, buf: seq<byte>, count1: nat, first: int, at: int, len: int)
      returns (ret: int, ghost written: nat)
      requires 0 < count1 <= |buf| && Pieces(offset, count1, first, at, len)
      modifies this`contents, this`answers
      ensures (ret == count1 || ret < 0) && written <= count1 && (ret == count1 ==> written == count1)
      ensures Wrote(contents, old(contents), offset, buf, written)
      ensures ret == count1 ==> PiecesReachable(count1, first, len) && !readOnly
      ensures old(Reliable()) && PiecesReachable(count1, first, len) && !readOnly ==> ret == count1
    {
      hide ReachableAligned, HasSectors, Wrote, Reliable;
      ghost var c0, w := contents, 0;
      written := 0;
      WroteNothing(c0, offset, buf);
      var count, pos, sector := count1, 0, first;
      if len > 0 {
        ret, written := WritePart(sector, at, buf[..len]);
        WrotePrefix(contents, c0, offset, buf, len, written);
        if ret < 0 {
          return;
        }
        count := count - len;
        if count == 0 {
          return count1, written;
        }
        sector := sector + 1;
        pos := pos + len;
      }
      ghost var c1 := contents;
      WroteNothing(c0, offset, buf[..0]);
      ret, w := PwriteAligned(sector, buf[pos..count1]);
      WroteMore(c0, c1, contents, offset, buf, pos, count1, buf[..pos], 512 * sector, buf[pos..count1], w);
      written := pos + w;
      if ret < 0 {
        return;
      }
      return count1, written;
    }

    /** What was written is read back, and nothing around it changed. */
    method WriteThenRead(offset: int, buf: seq<byte>, out: array<byte>) returns (ok: bool)
      requires |buf| == out.Length
      modifies this`contents, this`answers, out
      ensures ok ==> out[..] == buf
      ensures ok ==> Spliced(contents, old(contents), offset, buf)
    {
      assert buf[..|buf|] == buf;
      var ret, _ := Pwrite(offset, buf, |buf|);
      if ret < 0 {
        return false;
      }
      ghost var got;
      ret, got := Pread(offset, out, out.Length);
      if ret >= 0 {
        PatchAtStart(old(out[..]), got);
        SameSlice(contents, old(contents), offset, buf, got);
      }
      return ret >= 0;
    }
  }

  lemma SameSlice(c1: Contents, c0: Contents, offset: int, data: seq<byte>, got: seq<byte>)
    requires Spliced(c1, c0, offset, data) && SliceAt(c1, offset, got) && |got| == |data|
    ensures got == data
  {
    forall k | 0 <= k < |got| ensures got[k] == data[k] {
      assert got[k] == c1(offset + k);
    }
  }
}
