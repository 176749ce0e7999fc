/** The code of d3des.c computes the standard: its rotated halves, combined
    tables, rearranged keys and word permutations are DES under the key whose
    bytes have their bits in the opposite order. */
module DesRefines {
  import opened Bytes
  import opened DesTables
  import D = Des
  import X = DesStandard

  // ---- The cipher function ----

  /** The key words that the code keeps: boxes 1, 3, 5, 7 and 2, 4, 6, 8. */
  function Odd(k: bv48): bv32 {
    ((X.Six(k, 1) as bv32) << 24) | ((X.Six(k, 3) as bv32) << 16) | ((X.Six(k, 5) as bv32) << 8) | (X.Six(k, 7) as bv32)
  }

  function Even(k: bv48): bv32 {
    ((X.Six(k, 2) as bv32) << 24) | ((X.Six(k, 4) as bv32) << 16) | ((X.Six(k, 6) as bv32) << 8) | (X.Six(k, 8) as bv32)
  }

  /** What the lookups take their six bits from. */
  function OddWork(x: bv32, key0: bv32): bv32 { ((x << 28) | (x >> 4)) ^ key0 }
  function EvenWork(x: bv32, key1: bv32): bv32 { x ^ key1 }

  // Each lookup sees its group of the expanded half combined with the key.

  lemma Group1(r: bv32, k: bv48)
    ensures D.Lane(OddWork(D.RotateLeft(r), Odd(k)), 24) == X.Six(X.E(r) ^ k, 1)
  {
  }

  lemma Group2(r: bv32, k: bv48)
    ensures D.Lane(EvenWork(D.RotateLeft(r), Even(k)), 24) == X.Six(X.E(r) ^ k, 2)
  {
  }

  lemma Group3(r: bv32, k: bv48)
    ensures D.Lane(OddWork(D.RotateLeft(r), Odd(k)), 16) == X.Six(X.E(r) ^ k, 3)
  {
  }

  lemma Group4(r: bv32, k: bv48)
    ensures D.Lane(EvenWork(D.RotateLeft(r), Even(k)), 16) == X.Six(X.E(r) ^ k, 4)
  {
  }

  lemma Group5(r: bv32, k: bv48)
    ensures D.Lane(OddWork(D.RotateLeft(r), Odd(k)), 8) == X.Six(X.E(r) ^ k, 5)
  {
  }

  lemma Group6(r: bv32, k: bv48)
    ensures D.Lane(EvenWork(D.RotateLeft(r), Even(k)), 8) == X.Six(X.E(r) ^ k, 6)
  {
  }

  lemma Group7(r: bv32, k: bv48)
    ensures D.Lane(OddWork(D.RotateLeft(r), Odd(k)), 0) == X.Six(X.E(r) ^ k, 7)
  {
  }

  lemma Group8(r: bv32, k: bv48)
    ensures D.Lane(EvenWork(D.RotateLeft(r), Even(k)), 0) == X.Six(X.E(r) ^ k, 8)
  {
  }

  /** From the output of the boxes to the halves of the code. */
  function Spread(w: bv32): bv32 { D.RotateLeft(X.P(w)) }

  lemma Table1(v: bv6)
    ensures SP1(v) == Spread((X.S1(v) as bv32) << 28)
  {
  }

  lemma Table2(v: bv6)
    ensures SP2(v) == Spread((X.S2(v) as bv32) << 24)
  {
  }

  lemma Table3(v: bv6)
    ensures SP3(v) == Spread((X.S3(v) as bv32) << 20)
  {
  }

  lemma Table4(v: bv6)
    ensures SP4(v) == Spread((X.S4(v) as bv32) << 16)
  {
  }

  lemma Table5(v: bv6)
    ensures SP5(v) == Spread((X.S5(v) as bv32) << 12)
  {
  }

  lemma Table6(v: bv6)
    ensures SP6(v) == Spread((X.S6(v) as bv32) << 8)
  {
  }

  lemma Table7(v: bv6)
    ensures SP7(v) == Spread((X.S7(v) as bv32) << 4)
  {
  }

  lemma Table8(v: bv6)
    ensures SP8(v) == Spread((X.S8(v) as bv32) << 0)
  {
  }

  function Or(a: bv32, b: bv32): bv32 { a | b }

  function All(a: bv32, b: bv32, c: bv32, d: bv32, e: bv32, f: bv32, g: bv32, h: bv32): bv32 {
    Or(Or(Or(Or(Or(Or(Or(a, b), c), d), e), f), g), h)
  }

  lemma SpreadOr(a: bv32, b: bv32)
    ensures Spread(Or(a, b)) == Or(Spread(a), Spread(b))
  {
    PermuteOr(a, b);
    hide X.P, D.RotateLeft;
  }

  lemma PermuteOr(a: bv32, b: bv32)
    ensures D.RotateLeft(X.P(a | b)) == D.RotateLeft(X.P(a)) | D.RotateLeft(X.P(b))
  {
  }

  lemma SpreadAll(a: bv32, b: bv32, c: bv32, d: bv32, e: bv32, f: bv32, g: bv32, h: bv32)
    ensures Spread(All(a, b, c, d, e, f, g, h))
         == All(Spread(a), Spread(b), Spread(c), Spread(d), Spread(e), Spread(f), Spread(g), Spread(h))
  {
    hide Spread, Or;
    var ab := Or(a, b);
    var abc := Or(ab, c);
    var abcd := Or(abc, d);
    var abcde := Or(abcd, e);
    var abcdef := Or(abcde, f);
    SpreadOr(a, b);
    SpreadOr(ab, c);
    SpreadOr(abc, d);
    SpreadOr(abcd, e);
    SpreadOr(abcde, f);
    SpreadOr(abcdef, g);
    SpreadOr(Or(abcdef, g), h);
  }

  lemma LookupsCombined(x: bv32, key0: bv32, key1: bv32)
    ensures var odd, even := OddWork(x, key0), EvenWork(x, key1);
            D.F(x, key0, key1)
            == Raw(SP7(D.Lane(odd, 0)), SP5(D.Lane(odd, 8)), SP3(D.Lane(odd, 16)), SP1(D.Lane(odd, 24)),
                   SP8(D.Lane(even, 0)), SP6(D.Lane(even, 8)), SP4(D.Lane(even, 16)), SP2(D.Lane(even, 24)))
  {
    hide SP1, SP2, SP3, SP4, SP5, SP6, SP7, SP8, D.Lane;
  }

  /** The order in which the code combines the lookups. */
  function Raw(g: bv32, e: bv32, c: bv32, a: bv32, h: bv32, f: bv32, d: bv32, b: bv32): bv32 {
    g | e | c | a | h | f | d | b
  }

  lemma RawIsAll(a: bv32, b: bv32, c: bv32, d: bv32, e: bv32, f: bv32, g: bv32, h: bv32)
    ensures Raw(g, e, c, a, h, f, d, b) == All(a, b, c, d, e, f, g, h)
  {
  }

  lemma BoxesCombined(x: bv48)
    ensures X.Boxes(x)
            == All((X.S1(X.Six(x, 1)) as bv32) << 28, (X.S2(X.Six(x, 2)) as bv32) << 24,
                   (X.S3(X.Six(x, 3)) as bv32) << 20, (X.S4(X.Six(x, 4)) as bv32) << 16,
                   (X.S5(X.Six(x, 5)) as bv32) << 12, (X.S6(X.Six(x, 6)) as bv32) << 8,
                   (X.S7(X.Six(x, 7)) as bv32) << 4, X.S8(X.Six(x, 8)) as bv32)
  {
    hide X.S1, X.S2, X.S3, X.S4, X.S5, X.S6, X.S7, X.S8, X.Six;
  }

  /** The tables on the groups of `e`, and the boxes, permuted and rotated. */
  lemma TablesAreBoxes(e: bv48)
    ensures All(SP1(X.Six(e, 1)), SP2(X.Six(e, 2)), SP3(X.Six(e, 3)), SP4(X.Six(e, 4)),
                SP5(X.Six(e, 5)), SP6(X.Six(e, 6)), SP7(X.Six(e, 7)), SP8(X.Six(e, 8)))
         == Spread(X.Boxes(e))
  {
    hide SP1, SP2, SP3, SP4, SP5, SP6, SP7, SP8, X.S1, X.S2, X.S3, X.S4, X.S5, X.S6, X.S7, X.S8, X.Six;
    hide Spread, All, X.Boxes;
    Table1(X.Six(e, 1));
    Table2(X.Six(e, 2));
    Table3(X.Six(e, 3));
    Table4(X.Six(e, 4));
    Table5(X.Six(e, 5));
    Table6(X.Six(e, 6));
    Table7(X.Six(e, 7));
    Table8(X.Six(e, 8));
    BoxesCombined(e);
    SpreadAll((X.S1(X.Six(e, 1)) as bv32) << 28, (X.S2(X.Six(e, 2)) as bv32) << 24,
              (X.S3(X.Six(e, 3)) as bv32) << 20, (X.S4(X.Six(e, 4)) as bv32) << 16,
              (X.S5(X.Six(e, 5)) as bv32) << 12, (X.S6(X.Six(e, 6)) as bv32) << 8,
              (X.S7(X.Six(e, 7)) as bv32) << 4, X.S8(X.Six(e, 8)) as bv32);
  }

  /** The round function of the code is the cipher function, on halves rotated
      by one. */
  lemma RoundFunction(r: bv32, k: bv48)
    ensures D.F(D.RotateLeft(r), Odd(k), Even(k)) == D.RotateLeft(X.F(r, k))
  {
    hide *;
    var e := X.E(r) ^ k;
    Group1(r, k);
    Group2(r, k);
    Group3(r, k);
    Group4(r, k);
    Group5(r, k);
    Group6(r, k);
    Group7(r, k);
    Group8(r, k);
    LookupsCombined(D.RotateLeft(r), Odd(k), Even(k));
    RawIsAll(SP1(X.Six(e, 1)), SP2(X.Six(e, 2)), SP3(X.Six(e, 3)), SP4(X.Six(e, 4)),
             SP5(X.Six(e, 5)), SP6(X.Six(e, 6)), SP7(X.Six(e, 7)), SP8(X.Six(e, 8)));
    TablesAreBoxes(e);
    SpreadBoxes(r, k);
  }

  lemma SpreadBoxes(r: bv32, k: bv48)
    ensures D.RotateLeft(X.F(r, k)) == Spread(X.Boxes(X.E(r) ^ k))
  {
    hide X.E, X.P, X.Boxes, D.RotateLeft;
  }

  // ---- The permutations ----

  lemma InitialIsIP(high: bv32, low: bv32)
    ensures var x := X.IP(X.Join(high, low));
            D.Initial((high, low)) == (D.RotateLeft(X.High(x)), D.RotateLeft(X.Low(x)))
  {
  }

  lemma FinalIsFP(l: bv32, r: bv32)
    ensures var x := X.FP(X.Join(r, l));
            D.Final((D.RotateLeft(l), D.RotateLeft(r))) == (X.High(x), X.Low(x))
  {
  }

  // ---- The rounds ----

  /** The code keeps the halves rotated, and swaps their roles instead of them. */
  function Kept(halves: (bv32, bv32), n: nat): (bv32, bv32) {
    var l, r := D.RotateLeft(halves.0), D.RotateLeft(halves.1);
    if n % 2 == 0 then (l, r) else (r, l)
  }

  /** The words of the register hold the round keys, in this order. */
  ghost predicate Holds(words: seq<bv32>, keys: seq<bv48>) {
    |words| == 32 && |keys| == 16 && forall i :: 0 <= i < 16 ==> D.Pair(words, i) == (Odd(keys[i]), Even(keys[i]))
  }

  lemma RotateXor(a: bv32, b: bv32)
    ensures D.RotateLeft(a ^ b) == D.Xor(D.RotateLeft(a), D.RotateLeft(b))
  {
  }

  lemma RoundKept(l: bv32, r: bv32, k: bv48, n: nat, next: bv32)
    requires D.RotateLeft(next) == D.Xor(D.RotateLeft(l), D.RotateLeft(X.F(r, k)))
    ensures D.Round((Odd(k), Even(k)), n % 2 == 1, Kept((l, r), n)) == Kept((r, next), n + 1)
  {
    hide D.RotateLeft, D.F, X.F, Odd, Even, D.Xor;
    RoundFunction(r, k);
  }

  lemma RoundRefines(l: bv32, r: bv32, k: bv48, n: nat)
    ensures D.Round((Odd(k), Even(k)), n % 2 == 1, Kept((l, r), n)) == Kept((r, l ^ X.F(r, k)), n + 1)
  {
    hide *;
    RotateXor(l, X.F(r, k));
    RoundKept(l, r, k, n, l ^ X.F(r, k));
  }

  lemma {:induction false} RoundsRefine(words: seq<bv32>, keys: seq<bv48>, n: nat, start: (bv32, bv32))
    requires Holds(words, keys) && n <= 16
    ensures D.Rounds(words, n, Kept(start, 0)) == Kept(X.Halves(keys, n, start), n)
  {
    hide D.Round, D.Pair, X.F, Odd, Even, Kept;
    if n == 0 {
    } else {
      RoundsRefine(words, keys, n - 1, start);
      var (l, r) := X.Halves(keys, n - 1, start);
      assert D.Pair(words, n - 1) == (Odd(keys[n - 1]), Even(keys[n - 1]));
      RoundRefines(l, r, keys[n - 1], n - 1);
    }
  }

  /** The block function is enciphering with the keys in the register. */
  lemma WordsRefine(words: seq<bv32>, keys: seq<bv48>, block: bv64)
    requires Holds(words, keys)
    ensures var x := X.Encipher(keys, block);
            D.DesWords(words, (X.High(block), X.Low(block))) == (X.High(x), X.Low(x))
  {
    var ip := X.IP(block);
    var start := (X.High(ip), X.Low(ip));
    JoinSplit(block);
    InitialIsIP(X.High(block), X.Low(block));
    RoundsRefine(words, keys, 16, start);
    var (l, r) := X.Halves(keys, 16, start);
    FinalIsFP(l, r);
    hide D.RotateLeft, D.Initial, D.Final, D.Rounds, X.IP, X.FP, X.High, X.Low, X.Join, X.Halves, Holds;
  }

  lemma JoinSplit(x: bv64)
    ensures X.Join(X.High(x), X.Low(x)) == x
  {
  }

  // ---- The key schedule ----

  /** A byte with its bits in the opposite order. */
  function Mirror(x: byte): byte {
    (x << 7) | ((x & 0x02) << 5) | ((x & 0x04) << 3) | ((x & 0x08) << 1)
    | ((x & 0x10) >> 1) | ((x & 0x20) >> 3) | ((x & 0x40) >> 5) | (x >> 7)
  }

  /** The key of the standard that a key of the code stands for. */
  function Mirrored(key: seq<byte>): (r: seq<byte>)
    ensures |r| == |key|
  {
    seq(|key|, i requires 0 <= i < |key| => Mirror(key[i]))
  }

  lemma MirrorBit(x: byte, m: nat)
    requires m < 8
    ensures x & ByteBit(m) != 0 <==> X.LeftBit(Mirror(x), m)
  {
    assert m == 0 || m == 1 || m == 2 || m == 3 || m == 4 || m == 5 || m == 6 || m == 7;
  }

  lemma FirstChoice1(j: nat)
    requires j < 14
    ensures X.PC1()[j] as int == Pc1()[j] as int + 1
  {
  }

  lemma FirstChoice2(j: nat)
    requires 14 <= j < 28
    ensures X.PC1()[j] as int == Pc1()[j] as int + 1
  {
  }

  lemma FirstChoice3(j: nat)
    requires 28 <= j < 42
    ensures X.PC1()[j] as int == Pc1()[j] as int + 1
  {
  }

  lemma FirstChoice4(j: nat)
    requires 42 <= j < 56
    ensures X.PC1()[j] as int == Pc1()[j] as int + 1
  {
  }

  lemma SecondChoice1(j: nat)
    requires j < 12
    ensures X.PC2()[j] as int == Pc2()[j] as int + 1
  {
  }

  lemma SecondChoice2(j: nat)
    requires 12 <= j < 24
    ensures X.PC2()[j] as int == Pc2()[j] as int + 1
  {
  }

  lemma SecondChoice3(j: nat)
    requires 24 <= j < 36
    ensures X.PC2()[j] as int == Pc2()[j] as int + 1
  {
  }

  lemma SecondChoice4(j: nat)
    requires 36 <= j < 48
    ensures X.PC2()[j] as int == Pc2()[j] as int + 1
  {
  }

  lemma ChoiceTables(j: nat)
    requires j < 56
    ensures X.PC1()[j] as int == Pc1()[j] as int + 1
    ensures j < 48 ==> X.PC2()[j] as int == Pc2()[j] as int + 1
  {
    hide *;
    if j < 14 {
      FirstChoice1(j);
    } else if j < 28 {
      FirstChoice2(j);
    } else if j < 42 {
      FirstChoice3(j);
    } else {
      FirstChoice4(j);
    }
    if j < 12 {
      SecondChoice1(j);
    } else if j < 24 {
      SecondChoice2(j);
    } else if j < 36 {
      SecondChoice3(j);
    } else if j < 48 {
      SecondChoice4(j);
    }
  }

  lemma KeyBitsRefine(key: seq<byte>, j: nat)
    requires |key| == 8 && j < 56
    ensures D.KeyBitSet(key, j) == X.KeyBit(Mirrored(key), X.PC1()[j])
  {
    ChoiceTables(j);
    hide Pc1, Pc2, X.PC1, X.PC2, Mirror, ByteBit, X.LeftBit;
    MirrorBit(key[Pc1()[j] / 8], Pc1()[j] % 8);
  }

  /** The totals step by the left shifts of the rounds. */
  lemma TotalsStep(i: nat)
    requires i < 16
    ensures TotRot()[i] == (if i == 0 then 0 else TotRot()[i - 1]) + X.Shifts()[i]
    ensures i > 0 ==> TotRot()[i - 1] < 28
  {
  }

  function Wrapped(l: nat): nat
    requires l < 56
  {
    if l < 28 then l else l - 28
  }

  lemma ShiftedOnce(key: seq<byte>, n: nat, j: nat)
    requires |key| == 8 && 1 <= n <= 16 && j < 28
    ensures var k := Wrapped(j + X.Shifts()[n - 1]);
            X.CD(key, n).0[j] == X.CD(key, n - 1).0[k] && X.CD(key, n).1[j] == X.CD(key, n - 1).1[k]
  {
    hide X.Shifts, X.PC1;
  }

  /** After the left shifts of `n` rounds, `C` and `D` are the first ones rotated
      by the total. */
  lemma {:induction false} ShiftedHalves(key: seq<byte>, n: nat, j: nat)
    requires |key| == 8 && 1 <= n <= 16 && j < 28
    ensures var m := Wrapped(j + TotRot()[n - 1]);
            X.CD(key, n).0[j] == X.CD(key, 0).0[m] && X.CD(key, n).1[j] == X.CD(key, 0).1[m]
  {
    hide TotRot, X.Shifts, X.CD;
    TotalsStep(n - 1);
    ShiftedOnce(key, n, j);
    if n > 1 {
      ShiftedHalves(key, n - 1, Wrapped(j + X.Shifts()[n - 1]));
    }
  }

  /** A rotated bit of the code is a bit of `C` and `D`. */
  lemma RotatedRefines(key: seq<byte>, i: nat, j: nat)
    requires |key| == 8 && i < 16 && j < 56
    ensures var (c, d) := X.CD(Mirrored(key), i + 1); D.RotatedBit(key, i, j) == (c + d)[j]
  {
    hide TotRot, X.Shifts, X.PC1, D.KeyBitSet, X.KeyBit;
    var (c0, d0) := X.CD(Mirrored(key), 0);
    var l := j + TotRot()[i];
    ShiftedHalves(Mirrored(key), i + 1, if j < 28 then j else j - 28);
    KeyBitsRefine(key, if j < 28 then (if l < 28 then l else l - 28) else (if l < 56 then l else l - 28));
  }

  /** Bit `j` of a round key is the selected bit of the code. */
  lemma SelectedBit(key: seq<byte>, i: nat, j: nat)
    requires |key| == 8 && i < 16 && j < 48
    ensures X.RoundKey(Mirrored(key), i + 1)[j] == D.RotatedBit(key, i, Pc2()[j])
  {
    ChoiceTables(j);
    hide X.CD, X.PC1, X.PC2, Pc1, Pc2, D.RotatedBit, TotRot;
    RotatedRefines(key, i, Pc2()[j]);
  }

  lemma BigByteIs(j: nat)
    requires j < 24
    ensures (BigByte(j) as bv48) << 24 == 0x8000_0000_0000 >> j
    ensures BigByte(j) as bv48 == 0x8000_0000_0000 >> (j + 24)
  {
    assert j == 0 || j == 1 || j == 2 || j == 3 || j == 4 || j == 5 || j == 6 || j == 7 || j == 8 || j == 9
        || j == 10 || j == 11 || j == 12 || j == 13 || j == 14 || j == 15 || j == 16 || j == 17 || j == 18
        || j == 19 || j == 20 || j == 21 || j == 22 || j == 23;
  }

  /** The place of bit `j` of a round key. */
  function At(j: nat): bv48
    requires j < 48
  {
    0x8000_0000_0000 >> j
  }

  function Upper(w: bv32): bv48 { (w as bv48) << 24 }

  function WithLower(k: bv48, w: bv32): bv48 { k | (w as bv48) }

  function AddAt(k: bv48, chosen: bool, at: bv48): bv48 { if chosen then k | at else k }

  lemma UpperStep(w: bv32, chosen: bool, j: nat)
    requires j < 24
    ensures Upper(D.AddBit(w, chosen, j)) == AddAt(Upper(w), chosen, At(j))
  {
    BigByteIs(j);
    hide BigByte;
  }

  lemma LowerStep(k: bv48, w: bv32, chosen: bool, j: nat)
    requires j < 24
    ensures WithLower(k, D.AddBit(w, chosen, j)) == AddAt(WithLower(k, w), chosen, At(j + 24))
  {
    BigByteIs(j);
    hide BigByte;
  }

  lemma WordStep(bits: seq<bool>, n: nat)
    requires n < |bits| == 48
    ensures X.KeyWord(bits, n + 1) == AddAt(X.KeyWord(bits, n), bits[n], At(n))
  {
  }

  /** The first raw word of a round holds the upper half of its key. */
  lemma {:induction false} UpperHalf(key: seq<byte>, i: nat, n: nat)
    requires |key| == 8 && i < 16 && n <= 24
    ensures Upper(D.RawWord(key, i, 0, n)) == X.KeyWord(X.RoundKey(Mirrored(key), i + 1), n)
  {
    if n == 0 {
    } else {
      hide X.RoundKey, D.RotatedBit, Pc2, Upper, AddAt, At, D.AddBit, X.KeyWord;
      UpperHalf(key, i, n - 1);
      SelectedBit(key, i, n - 1);
      WordStep(X.RoundKey(Mirrored(key), i + 1), n - 1);
      UpperStep(D.RawWord(key, i, 0, n - 1), D.RotatedBit(key, i, Pc2()[n - 1]), n - 1);
    }
  }

  /** The second raw word adds the lower half. */
  lemma {:induction false} LowerHalf(key: seq<byte>, i: nat, n: nat)
    requires |key| == 8 && i < 16 && n <= 24
    ensures var bits := X.RoundKey(Mirrored(key), i + 1);
            WithLower(X.KeyWord(bits, 24), D.RawWord(key, i, 24, n)) == X.KeyWord(bits, 24 + n)
  {
    hide X.RoundKey, D.RotatedBit, Pc2, AddAt, At, D.AddBit, X.KeyWord;
    if n == 0 {
    } else {
      hide WithLower;
      var bits := X.RoundKey(Mirrored(key), i + 1);
      LowerHalf(key, i, n - 1);
      SelectedBit(key, i, n + 23);
      WordStep(bits, n + 23);
      LowerStep(X.KeyWord(bits, 24), D.RawWord(key, i, 24, n - 1), D.RotatedBit(key, i, Pc2()[n + 23]), n - 1);
    }
  }

  lemma AddBitSmall(w: bv32, chosen: bool, j: nat)
    requires j < 24 && w < 0x100_0000
    ensures D.AddBit(w, chosen, j) < 0x100_0000
  {
    BigByteIs(j);
    hide BigByte;
  }

  lemma {:induction false} RawSmall(key: seq<byte>, i: nat, off: nat, n: nat)
    requires |key| == 8 && i < 16 && off in {0, 24} && n <= 24
    ensures D.RawWord(key, i, off, n) < 0x100_0000
  {
    if n == 0 {
    } else {
      hide D.AddBit, D.RotatedBit, Pc2;
      RawSmall(key, i, off, n - 1);
      AddBitSmall(D.RawWord(key, i, off, n - 1), D.RotatedBit(key, i, Pc2()[n - 1 + off]), n - 1);
    }
  }

  lemma CookedHalves(raw0: bv32, raw1: bv32)
    requires raw0 < 0x100_0000 && raw1 < 0x100_0000
    ensures var k := WithLower(Upper(raw0), raw1); (D.Cook0(raw0, raw1), D.Cook1(raw0, raw1)) == (Odd(k), Even(k))
  {
  }

  /** The cooked pair of a round holds its key. */
  lemma PairRefines(key: seq<byte>, i: nat)
    requires |key| == 8 && i < 16
    ensures var k := X.RoundKeys(Mirrored(key))[i]; D.KeyPair(key, i) == (Odd(k), Even(k))
  {
    UpperHalf(key, i, 24);
    LowerHalf(key, i, 24);
    RawSmall(key, i, 0, 24);
    RawSmall(key, i, 24, 24);
    CookedHalves(D.RawWord(key, i, 0, 24), D.RawWord(key, i, 24, 24));
    hide D.RawWord, D.Cook0, D.Cook1, Odd, Even, Upper, WithLower, X.KeyWord, X.RoundKey;
  }

  // ---- Blocks ----

  lemma ScrunchIsWord(b: seq<byte>)
    requires |b| == 8
    ensures D.Scrunch(b) == (X.High(X.ToWord(b)), X.Low(X.ToWord(b)))
  {
  }

  lemma UnscrunIsBytes(x: bv64)
    ensures D.Unscrun((X.High(x), X.Low(x))) == X.FromWord(x)
  {
  }

  /** With the keys loaded for encryption the code is the standard's encryption,
      and with those loaded for decryption its decryption, for every key and
      block. */
  lemma DesIsStandard(knL: seq<bv32>, key: seq<byte>, edf: int, b: seq<byte>)
    requires D.Loaded(knL, key, edf) && |b| == 8
    ensures D.DesBytes(knL, b)
         == if edf == D.DE1 then X.Decrypt(Mirrored(key), b) else X.Encrypt(Mirrored(key), b)
  {
    hide D.Pair, D.KeyPair, Odd, Even, Mirror, X.RoundKeys, D.DesWords, D.Scrunch, D.Unscrun, X.Encipher, X.ToWord;
    hide X.High, X.Low, X.FromWord;
    var ks := X.RoundKeys(Mirrored(key));
    var keys := if edf == D.DE1 then seq(16, i requires 0 <= i < 16 => ks[15 - i]) else ks;
    forall i | 0 <= i < 16 ensures D.Pair(knL, i) == (Odd(keys[i]), Even(keys[i])) {
      PairRefines(key, if edf == D.DE1 then 15 - i else i);
    }
    ScrunchIsWord(b);
    WordsRefine(knL, keys, X.ToWord(b));
    UnscrunIsBytes(X.Encipher(keys, X.ToWord(b)));
  }
}
