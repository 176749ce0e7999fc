/** AES as FIPS 197 defines it: bytes of the state in the order of the block,
    column by column, and the expanded key byte by byte. */
module AesStandard {
  import opened Bytes
  import opened AesBytes

  // ---- The field (section 4.2) ----

  function XTime(x: byte): byte { (x << 1) ^ (if x & 0x80 == 0 then 0 else 0x1b) }

  function Part(b: byte, bit: byte, a: byte): byte { if b & bit == 0 then 0 else a }

  /** Multiplication, by adding the shifted factors. */
  function Times(a: byte, b: byte): byte {
    var a1 := XTime(a);
    var a2 := XTime(a1);
    var a3 := XTime(a2);
    var a4 := XTime(a3);
    var a5 := XTime(a4);
    var a6 := XTime(a5);
    var a7 := XTime(a6);
    Part(b, 0x01, a) ^ Part(b, 0x02, a1) ^ Part(b, 0x04, a2) ^ Part(b, 0x08, a3)
    ^ Part(b, 0x10, a4) ^ Part(b, 0x20, a5) ^ Part(b, 0x40, a6) ^ Part(b, 0x80, a7)
  }

  function RotByte(x: byte, n: bv4): byte
    requires n <= 8
  {
    (x << n) | (x >> (8 - n))
  }

  /** The affine transformation of section 5.1.1. */
  function Affine(x: byte): byte { x ^ RotByte(x, 1) ^ RotByte(x, 2) ^ RotByte(x, 3) ^ RotByte(x, 4) ^ 0x63 }

  /** Its inverse (section 5.3.2). */
  function Unaffine(x: byte): byte { RotByte(x, 1) ^ RotByte(x, 3) ^ RotByte(x, 6) ^ 0x05 }

  lemma AffineUndone(x: byte)
    ensures Affine(Unaffine(x)) == x && Unaffine(Affine(x)) == x
  {
  }

  lemma Inverses1(x: byte)
    requires 0 < x < 0x20
    ensures Times(x, Unaffine(S(x))) == 1
  {
  }

  lemma Inverses2(x: byte)
    requires 0x20 <= x < 0x40
    ensures Times(x, Unaffine(S(x))) == 1
  {
  }

  lemma Inverses3(x: byte)
    requires 0x40 <= x < 0x60
    ensures Times(x, Unaffine(S(x))) == 1
  {
  }

  lemma Inverses4(x: byte)
    requires 0x60 <= x < 0x80
    ensures Times(x, Unaffine(S(x))) == 1
  {
  }

  lemma Inverses5(x: byte)
    requires 0x80 <= x < 0xa0
    ensures Times(x, Unaffine(S(x))) == 1
  {
  }

  lemma Inverses6(x: byte)
    requires 0xa0 <= x < 0xc0
    ensures Times(x, Unaffine(S(x))) == 1
  {
  }

  lemma Inverses7(x: byte)
    requires 0xc0 <= x < 0xe0
    ensures Times(x, Unaffine(S(x))) == 1
  {
  }

  lemma Inverses8(x: byte)
    requires x >= 0xe0
    ensures Times(x, Unaffine(S(x))) == 1
  {
  }

  lemma Inverses(x: byte)
    requires x > 0
    ensures Times(x, Unaffine(S(x))) == 1
  {
    hide *;
    if x < 0x20 {
      Inverses1(x);
    } else if x < 0x40 {
      Inverses2(x);
    } else if x < 0x60 {
      Inverses3(x);
    } else if x < 0x80 {
      Inverses4(x);
    } else if x < 0xa0 {
      Inverses5(x);
    } else if x < 0xc0 {
      Inverses6(x);
    } else if x < 0xe0 {
      Inverses7(x);
    } else {
      Inverses8(x);
    }
  }

  /** The substitution box is the affine transformation of the multiplicative
      inverse, where 0 has itself. */
  lemma BoxIsAffineInverse(x: byte)
    ensures exists y :: S(x) == Affine(y) && (if x == 0 then y == 0 else Times(x, y) == 1)
  {
    if x == 0 {
      assert S(0) == Affine(0);
    } else {
      Inverses(x);
    }
    hide *;
    AffineUndone(S(x));
  }

  // ---- Key expansion (section 5.2) ----

  /** The `n`-th power of x. */
  function Power(n: nat): byte { if n == 0 then 1 else XTime(Power(n - 1)) }

  /** Byte `k` of word `i` of the expanded key. */
  function KeyByte(key: seq<byte>, nk: nat, i: nat, k: nat): byte
    requires nk in {4, 6, 8} && |key| >= 4 * nk && k < 4
  {
    if i < nk then key[4 * i + k]
    else
      var before := KeyByte(key, nk, i - nk, k);
      if i % nk == 0 then
        Xor(Xor(before, S(KeyByte(key, nk, i - 1, (k + 1) % 4))), if k == 0 then Power(i / nk - 1) else 0)
      else if nk > 6 && i % nk == 4 then Xor(before, S(KeyByte(key, nk, i - 1, k)))
      else Xor(before, KeyByte(key, nk, i - 1, k))
  }

  // ---- The cipher (section 5.1) ----

  type Block = b: seq<byte> | |b| == 16 witness seq(16, _ => 0)

  function SubBytes(s: Block): Block { seq(16, i requires 0 <= i < 16 => S(s[i])) }

  /** Row `r` is shifted left by `r` columns. */
  function ShiftRows(s: Block): Block {
    seq(16, i requires 0 <= i < 16 => s[i % 4 + 4 * ((i / 4 + i % 4) % 4)])
  }

  /** One entry of the product of the matrix of section 5.1.3 with a column. */
  function MixEntry(a: byte, b: byte, c: byte, d: byte, s: Block, column: nat): byte
    requires column < 4
  {
    Xor(Xor(Xor(Times(s[4 * column], a), Times(s[4 * column + 1], b)), Times(s[4 * column + 2], c)),
        Times(s[4 * column + 3], d))
  }

  function MixColumns(s: Block): Block {
    seq(16, i requires 0 <= i < 16 =>
      var row, column := i % 4, i / 4;
      if row == 0 then MixEntry(2, 3, 1, 1, s, column)
      else if row == 1 then MixEntry(1, 2, 3, 1, s, column)
      else if row == 2 then MixEntry(1, 1, 2, 3, s, column)
      else MixEntry(3, 1, 1, 2, s, column))
  }

  function AddRoundKey(s: Block, key: seq<byte>, nk: nat, round: nat): Block
    requires nk in {4, 6, 8} && |key| >= 4 * nk
  {
    seq(16, i requires 0 <= i < 16 => Xor(s[i], KeyByte(key, nk, 4 * round + i / 4, i % 4)))
  }

  /** The state after `n` rounds that mix columns. */
  function Rounds(key: seq<byte>, nk: nat, block: Block, n: nat): Block
    requires nk in {4, 6, 8} && |key| >= 4 * nk
  {
    if n == 0 then AddRoundKey(block, key, nk, 0)
    else AddRoundKey(MixColumns(ShiftRows(SubBytes(Rounds(key, nk, block, n - 1)))), key, nk, n)
  }

  function Cipher(key: seq<byte>, nk: nat, block: Block): Block
    requires nk in {4, 6, 8} && |key| >= 4 * nk
  {
    AddRoundKey(ShiftRows(SubBytes(Rounds(key, nk, block, nk + 5))), key, nk, nk + 6)
  }
}
