/** The code of aes.c computes the standard: its key expansion gives the expanded
    key, and its table rounds are the rounds of the cipher. */
module AesRefines {
  import opened Bytes
  import opened AesBytes
  import R = AesRounds
  import K = AesKeys
  import X = AesStandard

  // ---- Key expansion ----

  lemma RoundConstants(i: nat)
    requires i < 10
    ensures K.Rcon(i) == R.Word(X.Power(i), 0, 0, 0)
  {
    hide X.XTime;
    PowersOfX();
  }

  lemma PowersOfX()
    ensures X.Power(0) == 0x01 && X.Power(1) == 0x02 && X.Power(2) == 0x04 && X.Power(3) == 0x08
    ensures X.Power(4) == 0x10 && X.Power(5) == 0x20 && X.Power(6) == 0x40 && X.Power(7) == 0x80
    ensures X.Power(8) == 0x1b && X.Power(9) == 0x36
  {
  }

  /** A word of the code is word `i` of the expanded key. */
  predicate IsWord(w: R.Word, key: seq<byte>, nk: nat, i: nat)
    requires nk in {4, 6, 8} && |key| >= 4 * nk
  {
    && w.b3 == X.KeyByte(key, nk, i, 0) && w.b2 == X.KeyByte(key, nk, i, 1)
    && w.b1 == X.KeyByte(key, nk, i, 2) && w.b0 == X.KeyByte(key, nk, i, 3)
  }

  lemma NextIsWord(w: seq<R.Word>, key: seq<byte>, nk: nat, i: nat)
    requires nk in {4, 6, 8} && |key| >= 4 * nk && nk <= i <= |w| && i / nk <= 10
    requires IsWord(w[i - nk], key, nk, i - nk) && IsWord(w[i - 1], key, nk, i - 1)
    ensures IsWord(K.NextWord(w, i, nk), key, nk, i)
  {
    hide S, Xor, X.Power, K.Rcon;
    if i % nk == 0 {
      K.DivPositive(i, nk);
      RoundConstants(i / nk - 1);
      var before, last := w[i - nk], w[i - 1];
      XorCancel(Xor(before.b2, S(last.b1)), 0);
      XorCancel(Xor(before.b1, S(last.b0)), 0);
      XorCancel(Xor(before.b0, S(last.b3)), 0);
    }
  }

  /** Every schedule is the expanded key of the standard. */
  lemma {:induction false} ScheduleIsStandard(w: seq<R.Word>, key: seq<byte>, nk: nat, n: nat, i: nat)
    requires K.Schedule(w, key, nk, n) && i < n
    ensures IsWord(w[i], key, nk, i)
    decreases i
  {
    hide K.NextWord, IsWord;
    if i < nk {
      KeyItself(w[i], key, nk, i);
    } else {
      ScheduleIsStandard(w, key, nk, n, i - nk);
      ScheduleIsStandard(w, key, nk, n, i - 1);
      assert K.Steps(w, i, nk);
      NextIsWord(w, key, nk, i);
    }
  }

  lemma KeyItself(w: R.Word, key: seq<byte>, nk: nat, i: nat)
    requires nk in {4, 6, 8} && |key| >= 4 * nk && i < nk && w == K.GetU32(key, 4 * i)
    ensures IsWord(w, key, nk, i)
  {
    hide S, Xor, X.Power;
  }

  /** The first word that is not the key's. */
  lemma FirstExpanded(key: seq<byte>, nk: nat, k: nat)
    requires nk in {4, 6, 8} && |key| >= 4 * nk && k < 4
    ensures X.KeyByte(key, nk, nk, k)
         == Xor(Xor(key[k], S(key[4 * nk - 4 + (k + 1) % 4])), if k == 0 then 1 else 0)
  {
    hide S, Xor;
    assert X.KeyByte(key, nk, 0, k) == key[k];
    assert X.KeyByte(key, nk, nk - 1, (k + 1) % 4) == key[4 * (nk - 1) + (k + 1) % 4];
  }

  lemma BoxValues()
    ensures S(0x09) == 0x01 && S(0xcf) == 0x8a && S(0x4f) == 0x84 && S(0x3c) == 0xeb
  {
  }

  /** The first expanded word of the example in appendix A.1 of FIPS 197. */
  lemma KnownWord(w: seq<R.Word>, key: seq<byte>)
    requires key == [0x2b, 0x7e, 0x15, 0x16, 0x28, 0xae, 0xd2, 0xa6, 0xab, 0xf7, 0x15, 0x88, 0x09, 0xcf, 0x4f, 0x3c]
    requires K.Schedule(w, key, 4, 44) && |w| >= 44
    ensures w[4] == R.Word(0xa0, 0xfa, 0xfe, 0x17)
  {
    hide K.Schedule, S, X.KeyByte;
    ScheduleIsStandard(w, key, 4, 44, 4);
    BoxValues();
    assert key[0] == 0x2b && key[1] == 0x7e && key[2] == 0x15 && key[3] == 0x16;
    assert key[12] == 0x09 && key[13] == 0xcf && key[14] == 0x4f && key[15] == 0x3c;
    FirstExpanded(key, 4, 0);
    FirstExpanded(key, 4, 1);
    FirstExpanded(key, 4, 2);
    FirstExpanded(key, 4, 3);
  }

  // ---- Rounds ----

  lemma TimesSmall(y: byte)
    ensures X.Times(y, 1) == y && X.Times(y, 2) == X2(y) && X.Times(y, 3) == X3(y)
  {
  }

  /** A word of the state is column `c` of the block. */
  predicate IsColumn(w: R.Word, s: X.Block, c: nat)
    requires c < 4
  {
    w.b3 == s[4 * c] && w.b2 == s[4 * c + 1] && w.b1 == s[4 * c + 2] && w.b0 == s[4 * c + 3]
  }

  predicate IsState(s: R.State, b: X.Block) {
    IsColumn(s.w0, b, 0) && IsColumn(s.w1, b, 1) && IsColumn(s.w2, b, 2) && IsColumn(s.w3, b, 3)
  }

  lemma ShiftedColumn(a: R.Word, b: R.Word, c: R.Word, d: R.Word, s: X.Block, column: nat)
    requires column < 4 && IsColumn(a, s, column) && IsColumn(b, s, (column + 1) % 4)
    requires IsColumn(c, s, (column + 2) % 4) && IsColumn(d, s, (column + 3) % 4)
    ensures IsColumn(R.EncLastWord(a, b, c, d), X.ShiftRows(X.SubBytes(s)), column)
  {
    hide S;
  }

  lemma SubShiftIsStandard(s: R.State, b: X.Block)
    requires IsState(s, b)
    ensures IsState(R.SubShift(s), X.ShiftRows(X.SubBytes(b)))
  {
    hide R.EncLastWord, X.ShiftRows, X.SubBytes, IsColumn;
    ShiftedColumn(s.w0, s.w1, s.w2, s.w3, b, 0);
    ShiftedColumn(s.w1, s.w2, s.w3, s.w0, b, 1);
    ShiftedColumn(s.w2, s.w3, s.w0, s.w1, b, 2);
    ShiftedColumn(s.w3, s.w0, s.w1, s.w2, b, 3);
  }

  lemma MixedEntries(s: X.Block, c: nat)
    requires c < 4
    ensures var m := X.MixColumns(s);
            && m[4 * c] == X.MixEntry(2, 3, 1, 1, s, c) && m[4 * c + 1] == X.MixEntry(1, 2, 3, 1, s, c)
            && m[4 * c + 2] == X.MixEntry(1, 1, 2, 3, s, c) && m[4 * c + 3] == X.MixEntry(3, 1, 1, 2, s, c)
  {
    hide X.MixEntry;
  }

  lemma MixIsStandard(w: R.Word, s: X.Block, c: nat)
    requires c < 4 && IsColumn(w, s, c)
    ensures IsColumn(R.Mix(w), X.MixColumns(s), c)
  {
    hide Xor, X2, X3, X.Times, X.MixColumns;
    MixedEntries(s, c);
    TimesSmall(w.b3);
    TimesSmall(w.b2);
    TimesSmall(w.b1);
    TimesSmall(w.b0);
  }

  lemma AddColumn(w: R.Word, k: R.Word, s: X.Block, key: seq<byte>, nk: nat, n: nat, c: nat)
    requires nk in {4, 6, 8} && |key| >= 4 * nk && c < 4
    requires IsColumn(w, s, c) && IsWord(k, key, nk, 4 * n + c)
    ensures IsColumn(R.XorW(w, k), X.AddRoundKey(s, key, nk, n), c)
  {
    hide Xor, X.KeyByte;
  }

  lemma AddKeyIsStandard(s: R.State, b: X.Block, rk: seq<R.Word>, key: seq<byte>, nk: nat, n: nat)
    requires IsState(s, b) && K.Schedule(rk, key, nk, 4 * (nk + 7)) && n <= nk + 6
    ensures IsState(R.AddKey(s, R.KeyAt(rk, n)), X.AddRoundKey(b, key, nk, n))
  {
    ScheduleIsStandard(rk, key, nk, 4 * (nk + 7), 4 * n);
    ScheduleIsStandard(rk, key, nk, 4 * (nk + 7), 4 * n + 1);
    ScheduleIsStandard(rk, key, nk, 4 * (nk + 7), 4 * n + 2);
    ScheduleIsStandard(rk, key, nk, 4 * (nk + 7), 4 * n + 3);
    hide K.Schedule, X.AddRoundKey, IsColumn, IsWord, R.XorW;
    AddColumn(s.w0, rk[4 * n], b, key, nk, n, 0);
    AddColumn(s.w1, rk[4 * n + 1], b, key, nk, n, 1);
    AddColumn(s.w2, rk[4 * n + 2], b, key, nk, n, 2);
    AddColumn(s.w3, rk[4 * n + 3], b, key, nk, n, 3);
  }

  lemma RoundIsMix(s: R.State, k: R.State)
    ensures var u := R.SubShift(s);
            R.EncRound(s, k) == R.AddKey(R.State(R.Mix(u.w0), R.Mix(u.w1), R.Mix(u.w2), R.Mix(u.w3)), k)
  {
    hide R.EncWord, R.EncLastWord, R.Mix, R.XorW;
    R.EncWordMeaning(s.w0, s.w1, s.w2, s.w3);
    R.EncWordMeaning(s.w1, s.w2, s.w3, s.w0);
    R.EncWordMeaning(s.w2, s.w3, s.w0, s.w1);
    R.EncWordMeaning(s.w3, s.w0, s.w1, s.w2);
  }

  lemma {:induction false} RoundsAreStandard(rk: seq<R.Word>, x: R.State, key: seq<byte>, nk: nat, b: X.Block, n: nat)
    requires K.Schedule(rk, key, nk, 4 * (nk + 7)) && n < nk + 6 && IsState(x, b)
    ensures IsState(R.EncRounds(rk, x, n), X.Rounds(key, nk, b, n))
  {
    hide R.EncRound, R.SubShift, R.Mix, R.AddKey, R.KeyAt, X.MixColumns, X.ShiftRows, X.SubBytes, X.AddRoundKey;
    if n == 0 {
      AddKeyIsStandard(x, b, rk, key, nk, 0);
    } else {
      hide IsColumn;
      RoundsAreStandard(rk, x, key, nk, b, n - 1);
      var s, t := R.EncRounds(rk, x, n - 1), X.Rounds(key, nk, b, n - 1);
      SubShiftIsStandard(s, t);
      var u, v := R.SubShift(s), X.ShiftRows(X.SubBytes(t));
      MixIsStandard(u.w0, v, 0);
      MixIsStandard(u.w1, v, 1);
      MixIsStandard(u.w2, v, 2);
      MixIsStandard(u.w3, v, 3);
      RoundIsMix(s, R.KeyAt(rk, n));
      var m := R.State(R.Mix(u.w0), R.Mix(u.w1), R.Mix(u.w2), R.Mix(u.w3));
      AddKeyIsStandard(m, X.MixColumns(v), rk, key, nk, n);
    }
  }

  lemma StateOfBlock(b: X.Block)
    ensures IsState(K.LoadBlock(b), b)
  {
  }

  lemma BlockOfState(s: R.State, b: X.Block)
    requires IsState(s, b)
    ensures K.StoreBlock(s) == b
  {
  }

  /** Encryption of a block under an expanded key is the cipher of the standard,
      for every key length, key and block. */
  lemma EncryptIsStandard(rk: seq<R.Word>, key: seq<byte>, nk: nat, b: X.Block)
    requires K.Schedule(rk, key, nk, 4 * (nk + 7))
    ensures K.EncryptBytes(rk, nk + 6, b) == X.Cipher(key, nk, b)
  {
    hide R.EncRounds, R.SubShift, R.AddKey, R.KeyAt, X.ShiftRows, X.SubBytes, X.AddRoundKey, X.Rounds;
    hide K.LoadBlock, K.StoreBlock, IsColumn;
    StateOfBlock(b);
    RoundsAreStandard(rk, K.LoadBlock(b), key, nk, b, nk + 5);
    var s, t := R.EncRounds(rk, K.LoadBlock(b), nk + 5), X.Rounds(key, nk, b, nk + 5);
    SubShiftIsStandard(s, t);
    AddKeyIsStandard(R.SubShift(s), X.ShiftRows(X.SubBytes(t)), rk, key, nk, nk + 6);
    BlockOfState(K.LoadBlock(b), b);
    BlockOfState(R.AddKey(R.SubShift(s), R.KeyAt(rk, nk + 6)), X.Cipher(key, nk, b));
  }

  /** Decryption undoes the cipher of the standard. */
  lemma DecryptIsInverse(dk: seq<R.Word>, ek: seq<R.Word>, key: seq<byte>, nk: nat, b: X.Block)
    requires K.Schedule(ek, key, nk, 4 * (nk + 7)) && R.Reversed(dk, ek, nk + 6)
    ensures K.DecryptBytes(dk, nk + 6, X.Cipher(key, nk, b)) == b
  {
    EncryptIsStandard(ek, key, nk, b);
    K.BlockRoundTrip(ek, dk, nk + 6, b);
    hide *;
  }
}
