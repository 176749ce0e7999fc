/** DES (d3des.c) on 32-bit words: `des` under the `DE1` schedule undoes `des`
    under the `EN0` schedule. */
module Des {
  import opened Bytes
  import opened DesTables

  const DE1: int := 1

  // ---- The permutations, in the code's own steps ----

  function Swap4(x: bv32, y: bv32): (bv32, bv32) {
    var work := ((x >> 4) ^ y) & 0x0f0f0f0f;
    (x ^ (work << 4), y ^ work)
  }

  function Swap16(x: bv32, y: bv32): (bv32, bv32) {
    var work := ((x >> 16) ^ y) & 0x0000ffff;
    (x ^ (work << 16), y ^ work)
  }

  function Swap2(x: bv32, y: bv32): (bv32, bv32) {
    var work := ((x >> 2) ^ y) & 0x33333333;
    (x ^ (work << 2), y ^ work)
  }

  function Swap8(x: bv32, y: bv32): (bv32, bv32) {
    var work := ((x >> 8) ^ y) & 0x00ff00ff;
    (x ^ (work << 8), y ^ work)
  }

  function Swap1(x: bv32, y: bv32): (bv32, bv32) {
    var work := (x ^ y) & 0xaaaaaaaa;
    (x ^ work, y ^ work)
  }

  function RotateLeft(x: bv32): bv32 { ((x << 1) | ((x >> 31) & 1)) & 0xffffffff }

  function RotateRight(x: bv32): bv32 { (x << 31) | (x >> 1) }

  lemma Swap4Twice(x: bv32, y: bv32)
    ensures Swap4(Swap4(x, y).0, Swap4(x, y).1) == (x, y)
  {
  }

  lemma Swap16Twice(x: bv32, y: bv32)
    ensures Swap16(Swap16(x, y).0, Swap16(x, y).1) == (x, y)
  {
  }

  lemma Swap2Twice(x: bv32, y: bv32)
    ensures Swap2(Swap2(x, y).0, Swap2(x, y).1) == (x, y)
  {
  }

  lemma Swap8Twice(x: bv32, y: bv32)
    ensures Swap8(Swap8(x, y).0, Swap8(x, y).1) == (x, y)
  {
  }

  lemma Swap1Twice(x: bv32, y: bv32)
    ensures Swap1(Swap1(x, y).0, Swap1(x, y).1) == (x, y)
  {
  }

  lemma SwapsUndone(x: bv32, y: bv32)
    ensures Swap4(Swap4(x, y).0, Swap4(x, y).1) == (x, y)
    ensures Swap16(Swap16(x, y).0, Swap16(x, y).1) == (x, y)
    ensures Swap2(Swap2(x, y).0, Swap2(x, y).1) == (x, y)
    ensures Swap8(Swap8(x, y).0, Swap8(x, y).1) == (x, y)
    ensures Swap1(Swap1(x, y).0, Swap1(x, y).1) == (x, y)
  {
    hide Swap1, Swap2, Swap4, Swap8, Swap16;
    Swap4Twice(x, y);
    Swap16Twice(x, y);
    Swap2Twice(x, y);
    Swap8Twice(x, y);
    Swap1Twice(x, y);
  }

  lemma RotationsUndone(x: bv32)
    ensures RotateLeft(RotateRight(x)) == x && RotateRight(RotateLeft(x)) == x
  {
  }

  lemma Swap1Symmetric(x: bv32, y: bv32)
    ensures Swap1(y, x) == (Swap1(x, y).1, Swap1(x, y).0)
  {
  }

  /** From the two input words to (`leftt`, `right`) before the rounds. */
  function Initial(block: (bv32, bv32)): (bv32, bv32) {
    var (leftt, right) := Swap4(block.0, block.1);
    var (leftt, right) := Swap16(leftt, right);
    var (right, leftt) := Swap2(right, leftt);
    var (right, leftt) := Swap8(right, leftt);
    var right := RotateLeft(right);
    var (leftt, right) := Swap1(leftt, right);
    (RotateLeft(leftt), right)
  }

  /** From (`leftt`, `right`) after the rounds to the two output words. */
  function Final(halves: (bv32, bv32)): (bv32, bv32) {
    var right := RotateRight(halves.1);
    var (leftt, right) := Swap1(halves.0, right);
    var leftt := RotateRight(leftt);
    var (leftt, right) := Swap8(leftt, right);
    var (leftt, right) := Swap2(leftt, right);
    var (right, leftt) := Swap16(right, leftt);
    var (right, leftt) := Swap4(right, leftt);
    (right, leftt)
  }

  function Flip(p: (bv32, bv32)): (bv32, bv32) { (p.1, p.0) }

  /** The final permutation inverts the initial one, with the halves swapped. */
  lemma FinalThenInitial(halves: (bv32, bv32))
    ensures Initial(Final(halves)) == Flip(halves)
  {
    hide Swap1, Swap2, Swap4, Swap8, Swap16, RotateLeft, RotateRight;
    var right := RotateRight(halves.1);
    RotationsUndone(halves.1);
    var (leftt, right1) := Swap1(halves.0, right);
    SwapsUndone(halves.0, right);
    Swap1Symmetric(leftt, right1);
    var left2 := RotateRight(leftt);
    RotationsUndone(leftt);
    var (left3, right3) := Swap8(left2, right1);
    SwapsUndone(left2, right1);
    var (left4, right4) := Swap2(left3, right3);
    SwapsUndone(left3, right3);
    var (right5, left5) := Swap16(right4, left4);
    SwapsUndone(right4, left4);
    SwapsUndone(right5, left5);
  }

  lemma InitialThenFinal(block: (bv32, bv32))
    ensures Final(Flip(Initial(block))) == block
  {
    hide Swap1, Swap2, Swap4, Swap8, Swap16, RotateLeft, RotateRight;
    SwapsUndone(block.0, block.1);
    var (left1, right1) := Swap4(block.0, block.1);
    SwapsUndone(left1, right1);
    var (left2, right2) := Swap16(left1, right1);
    SwapsUndone(right2, left2);
    var (right3, left3) := Swap2(right2, left2);
    SwapsUndone(right3, left3);
    var (right4, left4) := Swap8(right3, left3);
    RotationsUndone(right4);
    var right5 := RotateLeft(right4);
    SwapsUndone(left4, right5);
    var (left6, right6) := Swap1(left4, right5);
    RotationsUndone(left6);
    Swap1Symmetric(left6, right6);
  }

  // ---- The rounds ----

  type Shift = n: bv6 | n <= 32

  /** Six bits of a word, as an index. */
  function Lane(work: bv32, shift: Shift): bv6 { ((work >> shift) & 0x3f) as bv6 }

  /** The round function: both key words, eight table lookups. */
  function F(x: bv32, key0: bv32, key1: bv32): bv32 {
    var work := ((x << 28) | (x >> 4)) ^ key0;
    var fval := SP7(Lane(work, 0)) | SP5(Lane(work, 8)) | SP3(Lane(work, 16)) | SP1(Lane(work, 24));
    var work := x ^ key1;
    fval | SP8(Lane(work, 0)) | SP6(Lane(work, 8)) | SP4(Lane(work, 16)) | SP2(Lane(work, 24))
  }

  function Xor(a: bv32, b: bv32): bv32 { a ^ b }

  lemma XorTwice(a: bv32, b: bv32)
    ensures Xor(Xor(a, b), b) == a
  {
  }

  /** The two key words of one round. */
  function Pair(keys: seq<bv32>, i: nat): (bv32, bv32)
    requires 2 * i + 1 < |keys|
  {
    (keys[2 * i], keys[2 * i + 1])
  }

  /** One round; odd rounds change the other half. */
  function Round(key: (bv32, bv32), odd: bool, p: (bv32, bv32)): (bv32, bv32) {
    if odd then (p.0, Xor(p.1, F(p.0, key.0, key.1))) else (Xor(p.0, F(p.1, key.0, key.1)), p.1)
  }

  lemma RoundUndone(key: (bv32, bv32), odd: bool, p: (bv32, bv32))
    ensures Round(key, !odd, Flip(Round(key, odd, p))) == Flip(p)
  {
    hide F, Xor;
    XorTwice(p.0, F(p.1, key.0, key.1));
    XorTwice(p.1, F(p.0, key.0, key.1));
  }

  /** (`leftt`, `right`) after `n` rounds. */
  function Rounds(keys: seq<bv32>, n: nat, start: (bv32, bv32)): (bv32, bv32)
    requires 2 * n <= |keys|
  {
    if n == 0 then start else Round(Pair(keys, n - 1), (n - 1) % 2 == 1, Rounds(keys, n - 1, start))
  }

  /** The same 16 pairs of key words in the opposite order. */
  predicate PairsReversed(dk: seq<bv32>, ek: seq<bv32>) {
    |dk| == |ek| == 32 && forall i :: 0 <= i < 16 ==> Pair(dk, i) == Pair(ek, 15 - i)
  }

  /** With reversed keys, each round takes back one round. */
  lemma {:induction false} RoundsUndone(ek: seq<bv32>, dk: seq<bv32>, n: nat, start: (bv32, bv32))
    requires PairsReversed(dk, ek) && n <= 16
    ensures Rounds(dk, n, Flip(Rounds(ek, 16, start))) == Flip(Rounds(ek, 16 - n, start))
  {
    hide Round, Pair;
    if n == 0 {
    } else {
      RoundsUndone(ek, dk, n - 1, start);
      RoundUndone(Pair(ek, 16 - n), (16 - n) % 2 == 1, Rounds(ek, 16 - n, start));
      assert Pair(dk, n - 1) == Pair(ek, 16 - n);
    }
  }

  /** `desfunc`. */
  function DesWords(keys: seq<bv32>, block: (bv32, bv32)): (bv32, bv32)
    requires |keys| == 32
  {
    Final(Rounds(keys, 16, Initial(block)))
  }

  lemma WordsUndone(ek: seq<bv32>, dk: seq<bv32>, block: (bv32, bv32))
    requires PairsReversed(dk, ek)
    ensures DesWords(dk, DesWords(ek, block)) == block
  {
    assert Rounds(ek, 0, Initial(block)) == Initial(block);
    hide Initial, Final, Pair, Rounds;
    FinalThenInitial(Rounds(ek, 16, Initial(block)));
    RoundsUndone(ek, dk, 16, Initial(block));
    InitialThenFinal(block);
  }

  // ---- Bytes ----

  function Scrunch(b: seq<byte>): (bv32, bv32)
    requires |b| == 8
  {
    (JoinBytes(b[0], b[1], b[2], b[3]), JoinBytes(b[4], b[5], b[6], b[7]))
  }

  function JoinBytes(a: byte, b: byte, c: byte, d: byte): bv32 {
    ((a as bv32 & 0xff) << 24) | ((b as bv32 & 0xff) << 16) | ((c as bv32 & 0xff) << 8) | (d as bv32 & 0xff)
  }

  function Byte3(w: bv32): byte { ((w >> 24) & 0xff) as byte }
  function Byte2(w: bv32): byte { ((w >> 16) & 0xff) as byte }
  function Byte1(w: bv32): byte { ((w >> 8) & 0xff) as byte }
  function Byte0(w: bv32): byte { (w & 0xff) as byte }

  function Unscrun(p: (bv32, bv32)): (b: seq<byte>)
    ensures |b| == 8
  {
    [Byte3(p.0), Byte2(p.0), Byte1(p.0), Byte0(p.0), Byte3(p.1), Byte2(p.1), Byte1(p.1), Byte0(p.1)]
  }

  lemma JoinSplit(w: bv32)
    ensures JoinBytes(Byte3(w), Byte2(w), Byte1(w), Byte0(w)) == w
  {
  }

  lemma SplitJoin(a: byte, b: byte, c: byte, d: byte)
    ensures Byte3(JoinBytes(a, b, c, d)) == a && Byte2(JoinBytes(a, b, c, d)) == b
    ensures Byte1(JoinBytes(a, b, c, d)) == c && Byte0(JoinBytes(a, b, c, d)) == d
  {
  }

  lemma ScrunchUnscrun(p: (bv32, bv32))
    ensures Scrunch(Unscrun(p)) == p
  {
    hide JoinBytes, Byte3, Byte2, Byte1, Byte0;
    JoinSplit(p.0);
    JoinSplit(p.1);
  }

  lemma UnscrunScrunch(b: seq<byte>)
    requires |b| == 8
    ensures Unscrun(Scrunch(b)) == b
  {
    hide JoinBytes, Byte3, Byte2, Byte1, Byte0;
    SplitJoin(b[0], b[1], b[2], b[3]);
    SplitJoin(b[4], b[5], b[6], b[7]);
  }

  function DesBytes(keys: seq<bv32>, b: seq<byte>): (c: seq<byte>)
    requires |keys| == 32 && |b| == 8
    ensures |c| == 8
  {
    Unscrun(DesWords(keys, Scrunch(b)))
  }

  // ---- The key schedule ----

  /** Bit `Pc1[j]` of the key. */
  function KeyBitSet(key: seq<byte>, j: nat): bool
    requires |key| == 8 && j < 56
  {
    var l := Pc1()[j];
    key[l / 8] & ByteBit(l % 8) != 0
  }

  /** Both halves of the permuted key rotated for round `i`. */
  function RotatedBit(key: seq<byte>, i: nat, j: nat): bool
    requires |key| == 8 && i < 16 && j < 56
  {
    var l := j + TotRot()[i];
    KeyBitSet(key, if j < 28 then (if l < 28 then l else l - 28) else (if l < 56 then l else l - 28))
  }

  /** The conditional or that sets bit `j` of a 24-bit word. */
  function AddBit(word: bv32, chosen: bool, j: nat): bv32
    requires j < 24
  {
    if chosen then word | BigByte(j) else word
  }

  /** The first `n` of 24 selected bits of round `i`, gathered in a word. */
  function RawWord(key: seq<byte>, i: nat, off: nat, n: nat): bv32
    requires |key| == 8 && i < 16 && off in {0, 24} && n <= 24
  {
    if n == 0 then 0 else AddBit(RawWord(key, i, off, n - 1), RotatedBit(key, i, Pc2()[n - 1 + off]), n - 1)
  }

  function Cook0(raw0: bv32, raw1: bv32): bv32 {
    ((raw0 & 0x00fc0000) << 6) | ((raw0 & 0x00000fc0) << 10) | ((raw1 & 0x00fc0000) >> 10) | ((raw1 & 0x00000fc0) >> 6)
  }

  function Cook1(raw0: bv32, raw1: bv32): bv32 {
    ((raw0 & 0x0003f000) << 12) | ((raw0 & 0x0000003f) << 16) | ((raw1 & 0x0003f000) >> 4) | (raw1 & 0x0000003f)
  }

  /** The cooked pair of key words of round `i`. */
  function KeyPair(key: seq<byte>, i: nat): (bv32, bv32)
    requires |key| == 8 && i < 16
  {
    var raw0, raw1 := RawWord(key, i, 0, 24), RawWord(key, i, 24, 24);
    (Cook0(raw0, raw1), Cook1(raw0, raw1))
  }

  /** The key register holds the pairs of the 16 rounds, in order for
      encryption and in reverse order for decryption. */
  ghost predicate Loaded(knL: seq<bv32>, key: seq<byte>, edf: int) {
    |knL| == 32 && |key| == 8
    && forall i :: 0 <= i < 16 ==>
         Pair(knL, i) == KeyPair(key, if edf == DE1 then 15 - i else i)
  }

  /** Decryption undoes encryption for every key and block. */
  lemma DesRoundTrip(ek: seq<bv32>, dk: seq<bv32>, key: seq<byte>, edf: int, b: seq<byte>)
    requires Loaded(ek, key, edf) && edf != DE1 && Loaded(dk, key, DE1) && |b| == 8
    ensures DesBytes(dk, DesBytes(ek, b)) == b
  {
    hide KeyPair, Pair, DesWords, Scrunch, Unscrun;
    forall i | 0 <= i < 16 ensures Pair(dk, i) == Pair(ek, 15 - i) {
      assert Pair(ek, 15 - i) == KeyPair(key, 15 - i);
    }
    ScrunchUnscrun(DesWords(ek, Scrunch(b)));
    WordsUndone(ek, dk, Scrunch(b));
    UnscrunScrunch(b);
  }

  // ---- The code ----

  method PermuteKey(key: array<byte>) returns (pc1m: array<bool>)
    requires key.Length == 8
    ensures fresh(pc1m) && pc1m.Length == 56
    ensures forall j :: 0 <= j < 56 ==> pc1m[j] == KeyBitSet(key[..], j)
  {
    hide ByteBit;
    pc1m := new bool[56];
    for j := 0 to 56
      invariant forall k :: 0 <= k < j ==> pc1m[k] == KeyBitSet(key[..], k)
    {
      var l := Pc1()[j];
      var m := l % 8;
      pc1m[j] := key[l / 8] & ByteBit(m) != 0;
    }
  }

  method RotateKey(pc1m: array<bool>, i: nat, pcr: array<bool>, ghost key: seq<byte>)
    requires pc1m.Length == pcr.Length == 56 && pc1m != pcr && i < 16 && |key| == 8
    requires forall j :: 0 <= j < 56 ==> pc1m[j] == KeyBitSet(key, j)
    modifies pcr
    ensures forall j :: 0 <= j < 56 ==> pcr[j] == RotatedBit(key, i, j)
  {
    hide KeyBitSet, TotRot;
    for j := 0 to 28
      invariant forall k :: 0 <= k < j ==> pcr[k] == RotatedBit(key, i, k)
    {
      var l := j + TotRot()[i] as nat;
      if l < 28 {
        pcr[j] := pc1m[l];
      } else {
        pcr[j] := pc1m[l - 28];
      }
    }
    for j := 28 to 56
      invariant forall k :: 0 <= k < j ==> pcr[k] == RotatedBit(key, i, k)
    {
      var l := j + TotRot()[i] as nat;
      if l < 56 {
        pcr[j] := pc1m[l];
      } else {
        pcr[j] := pc1m[l - 28];
      }
    }
  }

  method GatherRound(pcr: array<bool>, kn: array<bv32>, m: nat, ghost key: seq<byte>, ghost i: nat)
    requires pcr.Length == 56 && m + 1 < kn.Length && |key| == 8 && i < 16
    requires forall j :: 0 <= j < 56 ==> pcr[j] == RotatedBit(key, i, j)
    requires pcr as object != kn
    modifies kn
    ensures kn[m] == RawWord(key, i, 0, 24) && kn[m + 1] == RawWord(key, i, 24, 24)
    ensures forall k :: 0 <= k < kn.Length && k != m && k != m + 1 ==> kn[k] == old(kn[k])
  {
    hide RotatedBit, Pc2, AddBit;
    kn[m], kn[m + 1] := 0, 0;
    for j := 0 to 24
      invariant kn[m] == RawWord(key, i, 0, j) && kn[m + 1] == RawWord(key, i, 24, j)
      invariant forall k :: 0 <= k < kn.Length && k != m && k != m + 1 ==> kn[k] == old(kn[k])
    {
      kn[m] := AddBit(kn[m], pcr[Pc2()[j]], j);
      kn[m + 1] := AddBit(kn[m + 1], pcr[Pc2()[j + 24]], j);
    }
  }

  class DesEngine {
    /** The key register `KnL`. */
    const knL: array<bv32>

    constructor ()
      ensures fresh(knL) && knL.Length == 32
    {
      knL := new bv32[32](_ => 0);
    }

    method UseKey(from: array<bv32>)
      requires knL.Length == from.Length == 32 && from != knL
      modifies knL
      ensures knL[..] == from[..]
    {
      var k := 0;
      while k < 32
        invariant 0 <= k <= 32 && knL[..k] == from[..k]
      {
        knL[k] := from[k];
        k := k + 1;
      }
      assert knL[..] == knL[..32] && from[..] == from[..32];
    }

    method CookKey(raw: array<bv32>)
      requires knL.Length == raw.Length == 32 && raw != knL
      modifies knL
      ensures forall i :: 0 <= i < 16 ==>
                Pair(knL[..], i) == (Cook0(raw[2 * i], raw[2 * i + 1]), Cook1(raw[2 * i], raw[2 * i + 1]))
    {
      hide Cook0, Cook1;
      var dough := new bv32[32];
      for i := 0 to 16
        invariant forall j :: 0 <= j < i ==>
                    Pair(dough[..], j) == (Cook0(raw[2 * j], raw[2 * j + 1]), Cook1(raw[2 * j], raw[2 * j + 1]))
      {
        dough[2 * i] := Cook0(raw[2 * i], raw[2 * i + 1]);
        dough[2 * i + 1] := Cook1(raw[2 * i], raw[2 * i + 1]);
      }
      UseKey(dough);
    }

    /** `deskey`: loads the schedule of `key` for the given mode. */
    method DesKey(key: array<byte>, edf: int)
      requires key.Length == 8 && knL.Length == 32
      modifies knL
      ensures Loaded(knL[..], old(key[..]), edf)
    {
      hide RawWord, KeyBitSet, RotatedBit, Cook0, Cook1, Pair;
      ghost var bytes := key[..];
      var pc1m := PermuteKey(key);
      var pcr, kn := new bool[56], new bv32[32];
      for i := 0 to 16
        invariant forall j :: 0 <= j < 56 ==> pc1m[j] == KeyBitSet(bytes, j)
        invariant forall j :: 0 <= j < i ==>
                    var m := if edf == DE1 then 2 * (15 - j) else 2 * j;
                    kn[m] == RawWord(bytes, j, 0, 24) && kn[m + 1] == RawWord(bytes, j, 24, 24)
        modifies pcr, kn
      {
        var m := if edf == DE1 then 2 * (15 - i) else 2 * i;
        RotateKey(pc1m, i, pcr, bytes);
        GatherRound(pcr, kn, m, bytes, i);
      }
      CookKey(kn);
    }

    /** `des`; both blocks may be the same. */
    method DesBlock(inblock: array<byte>, outblock: array<byte>)
      requires inblock.Length == outblock.Length == 8 && knL.Length == 32
      modifies outblock
      ensures outblock[..] == DesBytes(old(knL[..]), old(inblock[..]))
    {
      hide Initial, Final, Round, JoinBytes, Byte0, Byte1, Byte2, Byte3;
      var b := inblock[..];
      var block := (JoinBytes(b[0], b[1], b[2], b[3]), JoinBytes(b[4], b[5], b[6], b[7]));
      var p := Initial(block);
      ghost var start, keys := p, knL[..];
      for round := 0 to 8
        invariant p == Rounds(keys, 2 * round, start)
      {
        p := Round((knL[4 * round], knL[4 * round + 1]), false, p);
        p := Round((knL[4 * round + 2], knL[4 * round + 3]), true, p);
      }
      var out := Unscrun(Final(p));
      forall k | 0 <= k < 8 {
        outblock[k] := out[k];
      }
      assert outblock[..] == out;
    }
  }

  /** Encrypting with one engine and decrypting with another that holds the
      same key returns the block. */
  method EncryptThenDecrypt(key: array<byte>, block: array<byte>) returns (back: array<byte>)
    requires key.Length == 8 && block.Length == 8
    ensures fresh(back) && back[..] == block[..]
  {
    hide Loaded, DesBytes;
    ghost var k, plain := key[..], block[..];
    var enc := new DesEngine();
    var dec := new DesEngine();
    enc.DesKey(key, 0);
    ghost var ek := enc.knL[..];
    dec.DesKey(key, DE1);
    back := new byte[8];
    enc.DesBlock(block, back);
    dec.DesBlock(back, back);
    DesRoundTrip(ek, dec.knL[..], k, 0, plain);
  }
}
