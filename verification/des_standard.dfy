/** DES as ANSI X3.92-1981 defines it: bits are numbered from 1, the leftmost
    first, and every permutation and box is the table printed there. */
module DesStandard {
  import opened Bytes

  type Place = n: bv7 | 1 <= n <= 64 witness 1

  /** Bit `n` of a value of the given width. */
  function Pick(x: bv64, width: Place, n: Place): bv64
    requires n <= width
  {
    (x >> (width - n)) & 1
  }

  function Row4(w: bv32, a: Place, b: Place, c: Place, d: Place): bv32
    requires a <= 32 && b <= 32 && c <= 32 && d <= 32
  {
    var x := w as bv64;
    ((Pick(x, 32, a) << 3) | (Pick(x, 32, b) << 2) | (Pick(x, 32, c) << 1) | Pick(x, 32, d)) as bv32
  }

  function Row6(w: bv32, a: Place, b: Place, c: Place, d: Place, e: Place, f: Place): bv48
    requires a <= 32 && b <= 32 && c <= 32 && d <= 32 && e <= 32 && f <= 32
  {
    ((Row4(w, a, b, c, d) as bv48) << 2) | (Row4(w, e, f, e, f) as bv48 & 3)
  }

  function Row8(x: bv64, a: Place, b: Place, c: Place, d: Place, e: Place, f: Place, g: Place, h: Place): bv64 {
    (Pick(x, 64, a) << 7) | (Pick(x, 64, b) << 6) | (Pick(x, 64, c) << 5) | (Pick(x, 64, d) << 4)
    | (Pick(x, 64, e) << 3) | (Pick(x, 64, f) << 2) | (Pick(x, 64, g) << 1) | Pick(x, 64, h)
  }

  // ---- The permutations ----

  /** Initial permutation. */
  function IP(x: bv64): bv64 {
    (Row8(x, 58, 50, 42, 34, 26, 18, 10, 2) << 56)
    | (Row8(x, 60, 52, 44, 36, 28, 20, 12, 4) << 48)
    | (Row8(x, 62, 54, 46, 38, 30, 22, 14, 6) << 40)
    | (Row8(x, 64, 56, 48, 40, 32, 24, 16, 8) << 32)
    | (Row8(x, 57, 49, 41, 33, 25, 17, 9, 1) << 24)
    | (Row8(x, 59, 51, 43, 35, 27, 19, 11, 3) << 16)
    | (Row8(x, 61, 53, 45, 37, 29, 21, 13, 5) << 8)
    | Row8(x, 63, 55, 47, 39, 31, 23, 15, 7)
  }

  /** Inverse of the initial permutation. */
  function FP(x: bv64): bv64 {
    (Row8(x, 40, 8, 48, 16, 56, 24, 64, 32) << 56)
    | (Row8(x, 39, 7, 47, 15, 55, 23, 63, 31) << 48)
    | (Row8(x, 38, 6, 46, 14, 54, 22, 62, 30) << 40)
    | (Row8(x, 37, 5, 45, 13, 53, 21, 61, 29) << 32)
    | (Row8(x, 36, 4, 44, 12, 52, 20, 60, 28) << 24)
    | (Row8(x, 35, 3, 43, 11, 51, 19, 59, 27) << 16)
    | (Row8(x, 34, 2, 42, 10, 50, 18, 58, 26) << 8)
    | Row8(x, 33, 1, 41, 9, 49, 17, 57, 25)
  }

  /** Expansion of a half block to 48 bits. */
  function E(r: bv32): bv48 {
    (Row6(r, 32, 1, 2, 3, 4, 5) << 42)
    | (Row6(r, 4, 5, 6, 7, 8, 9) << 36)
    | (Row6(r, 8, 9, 10, 11, 12, 13) << 30)
    | (Row6(r, 12, 13, 14, 15, 16, 17) << 24)
    | (Row6(r, 16, 17, 18, 19, 20, 21) << 18)
    | (Row6(r, 20, 21, 22, 23, 24, 25) << 12)
    | (Row6(r, 24, 25, 26, 27, 28, 29) << 6)
    | Row6(r, 28, 29, 30, 31, 32, 1)
  }

  function P(w: bv32): bv32 {
    (Row4(w, 16, 7, 20, 21) << 28)
    | (Row4(w, 29, 12, 28, 17) << 24)
    | (Row4(w, 1, 15, 23, 26) << 20)
    | (Row4(w, 5, 18, 31, 10) << 16)
    | (Row4(w, 2, 8, 24, 14) << 12)
    | (Row4(w, 32, 27, 3, 9) << 8)
    | (Row4(w, 19, 13, 30, 6) << 4)
    | Row4(w, 22, 11, 4, 25)
  }

  // ---- The boxes ----

  /** The first and last bit of the argument choose one of four rows, the others
      one of its sixteen entries; each hexadecimal digit is an entry. */
  function Entry(v: bv6, row0: bv64, row1: bv64, row2: bv64, row3: bv64): bv4 {
    var row := if v & 0x20 == 0 then (if v & 1 == 0 then row0 else row1) else if v & 1 == 0 then row2 else row3;
    ((row << (4 * (((v >> 1) & 0xf) as bv7))) >> 60) as bv4
  }

  function S1(v: bv6): bv4 { Entry(v, 0xe4d12fb83a6c5907, 0x0f74e2d1a6cb9538, 0x41e8d62bfc973a50, 0xfc8249175b3ea06d) }
  function S2(v: bv6): bv4 { Entry(v, 0xf18e6b34972dc05a, 0x3d47f28ec01a69b5, 0x0e7ba4d158c6932f, 0xd8a13f42b67c05e9) }
  function S3(v: bv6): bv4 { Entry(v, 0xa09e63f51dc7b428, 0xd709346a285ecbf1, 0xd6498f30b12c5ae7, 0x1ad069874fe3b52c) }
  function S4(v: bv6): bv4 { Entry(v, 0x7de3069a1285bc4f, 0xd8b56f03472c1ae9, 0xa690cb7df13e5284, 0x3f06a1d8945bc72e) }
  function S5(v: bv6): bv4 { Entry(v, 0x2c417ab6853fd0e9, 0xeb2c47d150fa3986, 0x421bad78f9c5630e, 0xb8c71e2d6f09a453) }
  function S6(v: bv6): bv4 { Entry(v, 0xc1af92680d34e75b, 0xaf427c9561de0b38, 0x9ef528c3704a1db6, 0x432c95fabe17608d) }
  function S7(v: bv6): bv4 { Entry(v, 0x4b2ef08d3c975a61, 0xd0b7491ae35c2f86, 0x14bdc37eaf680592, 0x6bd814a7950fe23c) }
  function S8(v: bv6): bv4 { Entry(v, 0xd2846fb1a93e50c7, 0x1fd8a374c56b0e92, 0x7b419ce206adf358, 0x21e74a8dfc90356b) }

  type Group = g: bv6 | 1 <= g <= 8 witness 1

  /** Group `g` of six bits. */
  function Six(x: bv48, g: Group): bv6 { ((x >> (48 - 6 * g)) & 0x3f) as bv6 }

  function Boxes(x: bv48): bv32 {
    ((S1(Six(x, 1)) as bv32) << 28) | ((S2(Six(x, 2)) as bv32) << 24)
    | ((S3(Six(x, 3)) as bv32) << 20) | ((S4(Six(x, 4)) as bv32) << 16)
    | ((S5(Six(x, 5)) as bv32) << 12) | ((S6(Six(x, 6)) as bv32) << 8)
    | ((S7(Six(x, 7)) as bv32) << 4) | (S8(Six(x, 8)) as bv32)
  }

  /** The cipher function. */
  function F(r: bv32, k: bv48): bv32 { P(Boxes(E(r) ^ k)) }

  // ---- Enciphering ----

  /** `L` and `R` after `n` rounds. */
  function Halves(keys: seq<bv48>, n: nat, start: (bv32, bv32)): (bv32, bv32)
    requires n <= |keys|
  {
    if n == 0 then start
    else
      var (l, r) := Halves(keys, n - 1, start);
      (r, l ^ F(r, keys[n - 1]))
  }

  function High(x: bv64): bv32 { (x >> 32) as bv32 }
  function Low(x: bv64): bv32 { (x & 0xffff_ffff) as bv32 }
  function Join(high: bv32, low: bv32): bv64 { ((high as bv64) << 32) | (low as bv64) }

  function Encipher(keys: seq<bv48>, block: bv64): bv64
    requires |keys| == 16
  {
    var (l, r) := Halves(keys, 16, (High(IP(block)), Low(IP(block))));
    FP(Join(r, l))
  }

  // ---- The key schedule ----

  type KeyPlace = n: nat | 1 <= n <= 64 witness 1

  type SchedulePlace = n: nat | 1 <= n <= 56 witness 1

  type Shift = n: nat | n <= 2

  function PC1(): (t: seq<KeyPlace>)
    ensures |t| == 56
  {
    [57, 49, 41, 33, 25, 17, 9, 1, 58, 50, 42, 34, 26, 18]
    + [10, 2, 59, 51, 43, 35, 27, 19, 11, 3, 60, 52, 44, 36]
    + [63, 55, 47, 39, 31, 23, 15, 7, 62, 54, 46, 38, 30, 22]
    + [14, 6, 61, 53, 45, 37, 29, 21, 13, 5, 28, 20, 12, 4]
  }

  function PC2(): (t: seq<SchedulePlace>)
    ensures |t| == 48
  {
    [14, 17, 11, 24, 1, 5, 3, 28, 15, 6, 21, 10]
    + [23, 19, 12, 4, 26, 8, 16, 7, 27, 20, 13, 2]
    + [41, 52, 31, 37, 47, 55, 30, 40, 51, 45, 33, 48]
    + [44, 49, 39, 56, 34, 53, 46, 42, 50, 36, 29, 32]
  }

  /** Left shifts of each round. */
  function Shifts(): (t: seq<Shift>)
    ensures |t| == 16
  {
    [1, 1, 2, 2, 2, 2, 2, 2, 1, 2, 2, 2, 2, 2, 2, 1]
  }

  /** Bit `n` of the key, from 1. */
  function KeyBit(key: seq<byte>, n: nat): bool
    requires |key| == 8 && 1 <= n <= 64
  {
    LeftBit(key[(n - 1) / 8], (n - 1) % 8)
  }

  /** Bit `m` of a byte from the left, from 0. */
  function LeftBit(x: byte, m: nat): bool
    requires m < 8
  {
    (x >> (7 - m)) & 1 == 1
  }

  function ShiftLeft(half: seq<bool>, n: nat): seq<bool>
    requires n <= |half|
  {
    half[n..] + half[..n]
  }

  /** `C` and `D` after `n` rounds. */
  function CD(key: seq<byte>, n: nat): (r: (seq<bool>, seq<bool>))
    requires |key| == 8 && n <= 16
    ensures |r.0| == |r.1| == 28
  {
    if n == 0 then
      (seq(28, j requires 0 <= j < 28 => KeyBit(key, PC1()[j])),
       seq(28, j requires 0 <= j < 28 => KeyBit(key, PC1()[28 + j])))
    else
      var (c, d) := CD(key, n - 1);
      (ShiftLeft(c, Shifts()[n - 1]), ShiftLeft(d, Shifts()[n - 1]))
  }

  /** The key of round `n`, from 1. */
  function RoundKey(key: seq<byte>, n: nat): (r: seq<bool>)
    requires |key| == 8 && 1 <= n <= 16
    ensures |r| == 48
  {
    var (c, d) := CD(key, n);
    seq(48, j requires 0 <= j < 48 => (c + d)[PC2()[j] - 1])
  }

  /** The first `n` bits as the leftmost of a word. */
  function KeyWord(bits: seq<bool>, n: nat): bv48
    requires n <= |bits| == 48
  {
    if n == 0 then 0 else KeyWord(bits, n - 1) | (if bits[n - 1] then 0x8000_0000_0000 >> (n - 1) else 0)
  }

  function RoundKeys(key: seq<byte>): (r: seq<bv48>)
    requires |key| == 8
    ensures |r| == 16
  {
    seq(16, i requires 0 <= i < 16 => KeyWord(RoundKey(key, i + 1), 48))
  }

  // ---- Blocks of bytes ----

  function ToWord(b: seq<byte>): bv64
    requires |b| == 8
  {
    ((b[0] as bv64) << 56) | ((b[1] as bv64) << 48) | ((b[2] as bv64) << 40) | ((b[3] as bv64) << 32)
    | ((b[4] as bv64) << 24) | ((b[5] as bv64) << 16) | ((b[6] as bv64) << 8) | (b[7] as bv64)
  }

  /** The bytes of a block, the leftmost first. */
  function FromWord(x: bv64): (b: seq<byte>)
    ensures |b| == 8
  {
    [(x >> 56) as byte, ((x >> 48) & 0xff) as byte, ((x >> 40) & 0xff) as byte, ((x >> 32) & 0xff) as byte,
     ((x >> 24) & 0xff) as byte, ((x >> 16) & 0xff) as byte, ((x >> 8) & 0xff) as byte, (x & 0xff) as byte]
  }

  function Encrypt(key: seq<byte>, b: seq<byte>): seq<byte>
    requires |key| == |b| == 8
  {
    FromWord(Encipher(RoundKeys(key), ToWord(b)))
  }

  /** Deciphering uses the round keys in the opposite order. */
  function Decrypt(key: seq<byte>, b: seq<byte>): seq<byte>
    requires |key| == |b| == 8
  {
    var keys := RoundKeys(key);
    FromWord(Encipher(seq(16, i requires 0 <= i < 16 => keys[15 - i]), ToWord(b)))
  }
}
