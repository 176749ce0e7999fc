/** Dirty tracking (block.c): a bitmap with one bit for each chunk of 2048
    sectors, and a running count of the bits that are set. */
module DirtyTracking {
  const SECTORS_PER_DIRTY_CHUNK: nat := 2048

  /** `1 << bit` on 32-bit words. */
  function Mask(bit: nat): bv32 {
    if bit == 0 then 1 else Mask(bit - 1) << 1
  }

  lemma {:induction false} MasksDisjoint(i: nat, j: nat)
    requires i < j
    ensures Mask(i) & Mask(j) == 0
  {
    if i == 0 {
      ShiftedIsEven(Mask(j - 1));
    } else {
      MasksDisjoint(i - 1, j - 1);
      ShiftTogether(Mask(i - 1), Mask(j - 1));
    }
  }

  lemma ShiftedIsEven(a: bv32)
    ensures 1 & (a << 1) == 0
  {
  }

  lemma ShiftTogether(a: bv32, b: bv32)
    requires a & b == 0
    ensures (a << 1) & (b << 1) == 0
  {
  }

  lemma MaskNext(bit: nat)
    ensures Mask(bit + 1) == Mask(bit) << 1
  {
  }

  lemma MaskFour(bit: nat)
    ensures Mask(bit + 4) == Mask(bit) << 4
  {
    hide Mask;
    MaskNext(bit);
    MaskNext(bit + 1);
    MaskNext(bit + 2);
    MaskNext(bit + 3);
  }

  lemma TopMasks()
    ensures Mask(28) == 0x1000_0000 && Mask(29) == 0x2000_0000
    ensures Mask(30) == 0x4000_0000 && Mask(31) == 0x8000_0000
  {
    assert Mask(0) == 1;
    hide Mask;
    MaskFour(0);
    MaskFour(4);
    MaskFour(8);
    MaskFour(12);
    MaskFour(16);
    MaskFour(20);
    MaskFour(24);
    MaskNext(28);
    MaskNext(29);
    MaskNext(30);
  }

  lemma {:induction false} MaskNonzero(bit: nat)
    requires bit < 32
    ensures Mask(bit) != 0
    decreases 32 - bit
  {
    hide Mask;
    if bit >= 28 {
      TopMasks();
    } else {
      MaskNonzero(bit + 1);
      MaskNext(bit);
    }
  }

  function Select(word: bv32, bit: nat): bv32 { word & Mask(bit) }

  function HasBit(word: bv32, bit: nat): bool { Select(word, bit) != 0 }

  function WithBit(word: bv32, bit: nat): bv32 { word | Mask(bit) }

  function WithoutBit(word: bv32, bit: nat): bv32 { word & !Mask(bit) }

  predicate Apart(i: nat, j: nat) { Mask(i) & Mask(j) == 0 }

  lemma MasksApart(i: nat, j: nat)
    requires i != j
    ensures Apart(i, j)
  {
    hide Mask;
    if i < j {
      MasksDisjoint(i, j);
    } else {
      MasksDisjoint(j, i);
    }
  }

  lemma SetSame(word: bv32, i: nat)
    requires i < 32
    ensures HasBit(WithBit(word, i), i)
  {
    hide Mask;
    MaskNonzero(i);
  }

  lemma ClearSame(word: bv32, i: nat)
    ensures !HasBit(WithoutBit(word, i), i)
  {
    hide Mask;
  }

  lemma SelectOther(word: bv32, i: nat, j: nat)
    requires Apart(i, j)
    ensures Select(WithBit(word, i), j) == Select(word, j)
    ensures Select(WithoutBit(word, i), j) == Select(word, j)
  {
    hide Mask;
  }

  /** Setting or clearing one bit leaves the other bits of the word alone. */
  lemma BitUpdates(word: bv32, i: nat, j: nat)
    requires i < 32 && j < 32
    ensures HasBit(WithBit(word, i), j) == (i == j || HasBit(word, j))
    ensures HasBit(WithoutBit(word, i), j) == (i != j && HasBit(word, j))
  {
    hide Select, WithBit, WithoutBit, Apart, Mask;
    if i == j {
      SetSame(word, i);
      ClearSame(word, i);
    } else {
      MasksApart(i, j);
      SelectOther(word, i, j);
    }
  }

  predicate Bit(words: seq<bv32>, chunk: nat)
    requires chunk < 32 * |words|
  {
    HasBit(words[chunk / 32], chunk % 32)
  }

  /** The chunks whose bit is set. */
  function Dirty(words: seq<bv32>): set<nat> {
    set c: nat | c < 32 * |words| && Bit(words, c)
  }

  function UpdatedWord(word: bv32, bit: nat, dirty: bool): bv32 {
    if dirty then WithBit(word, bit) else WithoutBit(word, bit)
  }

  /** Updating one bit changes the set by exactly that chunk. */
  lemma UpdateBit(words: seq<bv32>, idx: nat, bit: nat, dirty: bool)
    requires idx < |words| && bit < 32
    ensures 32 * idx + bit in Dirty(words) <==> HasBit(words[idx], bit)
    ensures Dirty(words[idx := UpdatedWord(words[idx], bit, dirty)])
         == if dirty then Dirty(words) + {32 * idx + bit} else Dirty(words) - {32 * idx + bit}
  {
    hide HasBit, WithBit, WithoutBit;
    var words' := words[idx := UpdatedWord(words[idx], bit, dirty)];
    var chunk := 32 * idx + bit;
    forall c: nat | c < 32 * |words|
      ensures Bit(words', c) == if c == chunk then dirty else Bit(words, c)
    {
      BitUpdates(words[idx], bit, c % 32);
      assert c == chunk <==> c / 32 == idx && c % 32 == bit;
    }
  }

  /** A write (`dirty`) or a reset of some sectors. */
  datatype Access = Access(sector: nat, count: nat, dirty: bool)

  predicate Touches(a: Access, chunk: nat) {
    a.count > 0 && a.sector / SECTORS_PER_DIRTY_CHUNK <= chunk
    && chunk <= (a.sector + a.count - 1) / SECTORS_PER_DIRTY_CHUNK
  }

  /** A chunk is touched exactly when one of its sectors is accessed. */
  lemma TouchesMeaning(a: Access, chunk: nat)
    ensures Touches(a, chunk) <==>
            exists s :: a.sector <= s < a.sector + a.count && s / SECTORS_PER_DIRTY_CHUNK == chunk
  {
    if Touches(a, chunk) {
      var s := if a.sector / SECTORS_PER_DIRTY_CHUNK == chunk then a.sector else SECTORS_PER_DIRTY_CHUNK * chunk;
      assert s / SECTORS_PER_DIRTY_CHUNK == chunk;
    }
  }

  /** The kind of the latest access that touched the chunk. */
  function Latest(history: seq<Access>, chunk: nat): bool {
    if history == [] then false
    else
      var last := history[|history| - 1];
      if Touches(last, chunk) then last.dirty else Latest(history[..|history| - 1], chunk)
  }

  /** The chunks below `n` whose latest access was a write. */
  function Marked(history: seq<Access>, n: nat): set<nat> {
    set c: nat | c < n && Latest(history, c)
  }

  /** Words of the bitmap of a device: one bit for each chunk, in whole bytes
      and then whole words. */
  function Words(sectors: nat): nat {
    ((sectors + SECTORS_PER_DIRTY_CHUNK * 8 - 1) / (SECTORS_PER_DIRTY_CHUNK * 8) + 3) / 4
  }

  lemma WordsSuffice(sectors: nat)
    ensures sectors <= 32 * SECTORS_PER_DIRTY_CHUNK * Words(sectors)
  {
  }

  /** Chunks `first` to `next - 1` have been set or cleared. */
  ghost predicate Swept(now: set<nat>, was: set<nat>, first: nat, next: nat, dirty: bool) {
    forall c: nat :: c in now <==> if first <= c < next then dirty else c in was
  }

  lemma SweptNothing(was: set<nat>, first: nat, dirty: bool)
    ensures Swept(was, was, first, first, dirty)
  {
  }

  lemma SweptStep(now: set<nat>, was: set<nat>, first: nat, next: nat, dirty: bool)
    requires Swept(now, was, first, next, dirty) && first <= next
    ensures Swept(if dirty then now + {next} else now - {next}, was, first, next + 1, dirty)
  {
  }

  lemma SweptAll(now: set<nat>, history: seq<Access>, n: nat, a: Access)
    requires a.count > 0 && (a.sector + a.count - 1) / SECTORS_PER_DIRTY_CHUNK < n
    requires Swept(now, Marked(history, n), a.sector / SECTORS_PER_DIRTY_CHUNK,
                   (a.sector + a.count - 1) / SECTORS_PER_DIRTY_CHUNK + 1, a.dirty)
    ensures now == Marked(history + [a], n)
  {
    assert (history + [a])[..|history|] == history;
    forall c: nat ensures c in now <==> c in Marked(history + [a], n) {}
  }

  // ---- Whole runs ----

  datatype Op = Touch(access: Access) | SetTracking(enable: bool)

  /** Whether tracking is on, what it has seen since it was switched on, and how
      many set bits the count does not include. */
  datatype Tracking = Tracking(on: bool, history: seq<Access>, forgotten: nat)

  function TrackOne(t: Tracking, op: Op, sectors: nat): Tracking {
    match op
    case Touch(a) => if t.on then t.(history := t.history + [a]) else t
    case SetTracking(enable) =>
      if !enable then Tracking(false, [], 0)
      else if t.on then t.(forgotten := |Marked(t.history, 32 * Words(sectors))|)
      else Tracking(true, [], 0)
  }

  function Track(t: Tracking, ops: seq<Op>, sectors: nat): Tracking
    decreases |ops|
  {
    if ops == [] then t else Track(TrackOne(t, ops[0], sectors), ops[1..], sectors)
  }

  /** Accesses lie on the device, and resets only happen while tracking is on. */
  predicate Legal(ops: seq<Op>, on: bool, sectors: nat)
    decreases |ops|
  {
    ops == [] ||
    match ops[0]
    case Touch(a) => a.count > 0 && a.sector + a.count <= sectors && (a.dirty || on) && Legal(ops[1..], on, sectors)
    case SetTracking(enable) => Legal(ops[1..], enable, sectors)
  }

  /** Tracking is never switched on while it is on. */
  predicate NeverTwice(ops: seq<Op>, on: bool)
    decreases |ops|
  {
    ops == [] ||
    match ops[0]
    case Touch(a) => NeverTwice(ops[1..], on)
    case SetTracking(enable) => !(enable && on) && NeverTwice(ops[1..], enable)
  }

  /** A run that never enables tracking twice forgets no bit, so its count is the
      number of set bits throughout. */
  lemma {:induction false} NothingForgotten(t: Tracking, ops: seq<Op>, sectors: nat)
    requires t.forgotten == 0 && NeverTwice(ops, t.on)
    ensures Track(t, ops, sectors).forgotten == 0
    decreases |ops|
  {
    if ops == [] {
    } else {
      NothingForgotten(TrackOne(t, ops[0], sectors), ops[1..], sectors);
    }
  }

  class DirtyDevice {
    const sectors: nat
    var bitmap: array?<bv32>
    var dirtyCount: int
    /** Accesses since tracking was enabled. */
    ghost var history: seq<Access>
    /** Bits that were set when tracking was enabled again. */
    ghost var forgotten: nat

    constructor (sectors: nat)
      ensures this.sectors == sectors && bitmap == null && dirtyCount == 0 && Valid()
      ensures Now() == Tracking(false, [], 0)
    {
      this.sectors := sectors;
      bitmap, dirtyCount, history, forgotten := null, 0, [], 0;
    }

    function Chunks(): set<nat>
      reads this, bitmap
    {
      if bitmap == null then {} else Dirty(bitmap[..])
    }

    ghost function Now(): Tracking
      reads this
    {
      Tracking(bitmap != null, history, forgotten)
    }

    /** Always: a bit is set iff the latest access to its chunk since tracking
        was enabled was a write, and the count lacks the forgotten bits. */
    ghost predicate Tracked()
      reads this, bitmap
    {
      && dirtyCount == |Chunks()| - forgotten
      && (bitmap == null ==> history == [] && forgotten == 0)
      && (bitmap != null ==>
            bitmap.Length == Words(sectors) && Chunks() == Marked(history, 32 * Words(sectors)))
    }

    /** The count is right as well. */
    ghost predicate Valid()
      reads this, bitmap
    {
      Tracked() && dirtyCount == |Chunks()|
    }

    /** One pass of the loop in `set_dirty_bitmap`. */
    method MarkChunk(chunk: nat, dirty: bool)
      requires bitmap != null && chunk < 32 * bitmap.Length
      modifies bitmap, this`dirtyCount
      ensures dirtyCount - |Chunks()| == old(dirtyCount - |Chunks()|)
      ensures Chunks() == if dirty then old(Chunks()) + {chunk} else old(Chunks()) - {chunk}
    {
      hide HasBit, WithBit, WithoutBit, Dirty;
      var idx, bit := chunk / 32, chunk % 32;
      ghost var words, before := bitmap[..], Chunks();
      UpdateBit(words, idx, bit, dirty);
      var val := bitmap[idx];
      if dirty {
        if !HasBit(val, bit) {
          dirtyCount := dirtyCount + 1;
          val := WithBit(val, bit);
        }
      } else {
        if HasBit(val, bit) {
          dirtyCount := dirtyCount - 1;
          val := WithoutBit(val, bit);
        }
      }
      bitmap[idx] := val;
      if val == words[idx] {
        assert bitmap[..] == words;
      } else {
        assert bitmap[..] == words[idx := UpdatedWord(words[idx], bit, dirty)];
      }
    }

    /** `set_dirty_bitmap`. */
    method SetDirtyBitmap(sector: nat, count: nat, dirty: bool)
      requires Tracked() && bitmap != null && count > 0 && sector + count <= sectors
      modifies bitmap, this`dirtyCount, this`history
      ensures Tracked() && history == old(history) + [Access(sector, count, dirty)]
    {
      hide Dirty, Words, Marked, Swept;
      WordsSuffice(sectors);
      var start := sector / SECTORS_PER_DIRTY_CHUNK;
      var end := (sector + count - 1) / SECTORS_PER_DIRTY_CHUNK;
      ghost var first, was := start, Chunks();
      SweptNothing(was, first, dirty);
      while start <= end
        invariant first <= start <= end + 1 <= 32 * bitmap.Length
        invariant dirtyCount == |Chunks()| - forgotten && history == old(history)
        invariant Swept(Chunks(), was, first, start, dirty)
        decreases end - start
      {
        SweptStep(Chunks(), was, first, start, dirty);
        MarkChunk(start, dirty);
        start := start + 1;
      }
      SweptAll(Chunks(), history, 32 * Words(sectors), Access(sector, count, dirty));
      history := history + [Access(sector, count, dirty)];
    }

    /** `bdrv_set_dirty_tracking`.  Enabling once more while tracking is on
        keeps the bitmap but zeroes the count, so the count stays right exactly
        if tracking was off or no bit was set. */
    method SetDirtyTracking(enable: bool)
      requires Tracked()
      modifies this
      ensures Tracked() && Now() == TrackOne(old(Now()), SetTracking(enable), sectors)
      ensures Valid() <==> (!enable || old(bitmap) == null || old(Chunks()) == {})
      ensures dirtyCount == 0
      ensures !enable ==> bitmap == null
      ensures enable && old(bitmap) == null ==> fresh(bitmap) && Chunks() == {}
      ensures enable && old(bitmap) != null ==> bitmap == old(bitmap) && Chunks() == old(Chunks())
    {
      dirtyCount := 0;
      forgotten := if enable then |Chunks()| else 0;
      if enable {
        if bitmap == null {
          var bytes := (sectors + SECTORS_PER_DIRTY_CHUNK * 8 - 1) / (SECTORS_PER_DIRTY_CHUNK * 8);
          bitmap := new bv32[(bytes + 3) / 4](_ => 0);
          history := [];
          assert Chunks() == {} by {
            NoBits(bitmap[..]);
          }
          assert Marked([], 32 * Words(sectors)) == {};
        }
      } else {
        if bitmap != null {
          bitmap := null;
        }
        history := [];
      }
    }

    /** `bdrv_get_dirty` on a sector of the device. */
    method GetDirty(sector: nat) returns (isDirty: bool)
      requires Tracked()
      ensures isDirty == (bitmap != null && sector < sectors && Latest(history, sector / SECTORS_PER_DIRTY_CHUNK))
    {
      hide HasBit, Words;
      WordsSuffice(sectors);
      var chunk := sector / SECTORS_PER_DIRTY_CHUNK;
      if bitmap != null && sector < sectors {
        assert chunk < 32 * bitmap.Length;
        assert chunk in Chunks() <==> chunk in Marked(history, 32 * Words(sectors));
        return HasBit(bitmap[chunk / 32], chunk % 32);
      } else {
        return false;
      }
    }

    /** Any run of writes, resets and toggles, enabling twice included: bits
        always match the latest accesses since tracking was enabled, and the
        count is the number of set bits without those that were set when it was
        enabled again. */
    method Run(ops: seq<Op>)
      requires Tracked() && Legal(ops, bitmap != null, sectors)
      modifies this, bitmap
      ensures Tracked() && Now() == Track(old(Now()), ops, sectors)
      ensures bitmap == old(bitmap) || bitmap == null || fresh(bitmap)
      ensures Valid() <==> Track(old(Now()), ops, sectors).forgotten == 0
    {
      hide Marked, Words, Dirty;
      var i := 0;
      assert ops[0..] == ops;
      while i < |ops|
        invariant i <= |ops| && Tracked() && Legal(ops[i..], bitmap != null, sectors)
        invariant Track(Now(), ops[i..], sectors) == Track(old(Now()), ops, sectors)
        invariant bitmap == old(bitmap) || bitmap == null || fresh(bitmap)
      {
        assert ops[i..][0] == ops[i] && ops[i..][1..] == ops[i + 1..];
        match ops[i] {
          case Touch(a) =>
            if bitmap != null {
              SetDirtyBitmap(a.sector, a.count, a.dirty);
            }
          case SetTracking(enable) =>
            SetDirtyTracking(enable);
        }
        i := i + 1;
      }
    }
  }

  lemma NoBits(words: seq<bv32>)
    requires forall i :: 0 <= i < |words| ==> words[i] == 0
    ensures Dirty(words) == {}
  {
    forall c: nat | c < 32 * |words| ensures !Bit(words, c) {
      assert words[c / 32] == 0;
      NoBit(c % 32);
    }
  }

  lemma NoBit(bit: nat)
    ensures !HasBit(0, bit)
  {
    hide Mask;
  }

  /** Enabling twice, after one write: the chunk is still marked, the count is
      zero, and resetting the sector brings the count to -1. */
  method EnableTwice(sectors: nat) returns (device: DirtyDevice)
    requires sectors > 0
    ensures device.Tracked() && device.Chunks() == {} && device.dirtyCount == -1
  {
    hide Words, Dirty, Marked, Latest;
    OneChunk(sectors);
    device := new DirtyDevice(sectors);
    device.SetDirtyTracking(true);
    device.SetDirtyBitmap(0, 1, true);
    assert device.history == [Access(0, 1, true)];
    assert device.Chunks() == {0} && device.dirtyCount == 1;
    device.SetDirtyTracking(true);
    assert device.Chunks() == {0} && device.dirtyCount == 0;
    device.SetDirtyBitmap(0, 1, false);
    assert device.history == [Access(0, 1, true), Access(0, 1, false)];
  }

  lemma OneChunk(sectors: nat)
    requires sectors > 0
    ensures Marked([Access(0, 1, true)], 32 * Words(sectors)) == {0}
    ensures Marked([Access(0, 1, true), Access(0, 1, false)], 32 * Words(sectors)) == {}
  {
    WordsSuffice(sectors);
    var a, b := Access(0, 1, true), Access(0, 1, false);
    forall c: nat ensures Latest([a], c) == (c == 0) && Latest([a, b], c) == false {
      assert [a][..0] == [] && [a, b][..1] == [a];
      assert Touches(a, c) == Touches(b, c) == (c == 0);
    }
  }
}
