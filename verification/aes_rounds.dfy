/** AES rounds by table lookup (aes.c), and why decryption undoes encryption.
    A 32-bit word is represented by its four bytes, `b3` most significant; the
    code only shifts and masks words by whole bytes. */
module AesRounds {
  import opened Bytes
  import opened AesBytes

  datatype Word = Word(b3: byte, b2: byte, b1: byte, b0: byte)

  datatype State = State(w0: Word, w1: Word, w2: Word, w3: Word)

  function XorW(a: Word, b: Word): Word {
    Word(Xor(a.b3, b.b3), Xor(a.b2, b.b2), Xor(a.b1, b.b1), Xor(a.b0, b.b0))
  }

  function Sum4(a: Word, b: Word, c: Word, d: Word): Word { XorW(XorW(XorW(a, b), c), d) }

  function AddKey(s: State, k: State): State {
    State(XorW(s.w0, k.w0), XorW(s.w1, k.w1), XorW(s.w2, k.w2), XorW(s.w3, k.w3))
  }

  // ---- The columns of MixColumns and InvMixColumns, and the tables ----

  function M0(y: byte): Word { Word(X2(y), y, y, X3(y)) }
  function M1(y: byte): Word { Word(X3(y), X2(y), y, y) }
  function M2(y: byte): Word { Word(y, X3(y), X2(y), y) }
  function M3(y: byte): Word { Word(y, y, X3(y), X2(y)) }

  function I0(y: byte): Word { Word(XE(y), X9(y), XD(y), XB(y)) }
  function I1(y: byte): Word { Word(XB(y), XE(y), X9(y), XD(y)) }
  function I2(y: byte): Word { Word(XD(y), XB(y), XE(y), X9(y)) }
  function I3(y: byte): Word { Word(X9(y), XD(y), XB(y), XE(y)) }

  function Te0(x: byte): Word { M0(S(x)) }
  function Te1(x: byte): Word { M1(S(x)) }
  function Te2(x: byte): Word { M2(S(x)) }
  function Te3(x: byte): Word { M3(S(x)) }
  function Te4(x: byte): Word { Word(S(x), S(x), S(x), S(x)) }

  function Td0(x: byte): Word { I0(Si(x)) }
  function Td1(x: byte): Word { I1(Si(x)) }
  function Td2(x: byte): Word { I2(Si(x)) }
  function Td3(x: byte): Word { I3(Si(x)) }
  function Td4(x: byte): Word { Word(Si(x), Si(x), Si(x), Si(x)) }

  // ---- What the code computes in one round ----

  function EncWord(a: Word, b: Word, c: Word, d: Word): Word { Sum4(Te0(a.b3), Te1(b.b2), Te2(c.b1), Te3(d.b0)) }

  function EncRound(s: State, k: State): State {
    AddKey(State(EncWord(s.w0, s.w1, s.w2, s.w3), EncWord(s.w1, s.w2, s.w3, s.w0),
                 EncWord(s.w2, s.w3, s.w0, s.w1), EncWord(s.w3, s.w0, s.w1, s.w2)), k)
  }

  /** Four table words, each masked to one byte, combined. */
  function EncLastWord(a: Word, b: Word, c: Word, d: Word): Word {
    Word(Te4(a.b3).b3, Te4(b.b2).b2, Te4(c.b1).b1, Te4(d.b0).b0)
  }

  function EncLast(s: State, k: State): State { AddKey(SubShift(s), k) }

  function SubShift(s: State): State {
    State(EncLastWord(s.w0, s.w1, s.w2, s.w3), EncLastWord(s.w1, s.w2, s.w3, s.w0),
          EncLastWord(s.w2, s.w3, s.w0, s.w1), EncLastWord(s.w3, s.w0, s.w1, s.w2))
  }

  function DecWord(a: Word, b: Word, c: Word, d: Word): Word { Sum4(Td0(a.b3), Td1(b.b2), Td2(c.b1), Td3(d.b0)) }

  function DecRound(s: State, k: State): State {
    AddKey(State(DecWord(s.w0, s.w3, s.w2, s.w1), DecWord(s.w1, s.w0, s.w3, s.w2),
                 DecWord(s.w2, s.w1, s.w0, s.w3), DecWord(s.w3, s.w2, s.w1, s.w0)), k)
  }

  function DecLastWord(a: Word, b: Word, c: Word, d: Word): Word {
    Word(Td4(a.b3).b3, Td4(b.b2).b2, Td4(c.b1).b1, Td4(d.b0).b0)
  }

  function DecLast(s: State, k: State): State {
    AddKey(State(DecLastWord(s.w0, s.w3, s.w2, s.w1), DecLastWord(s.w1, s.w0, s.w3, s.w2),
                 DecLastWord(s.w2, s.w1, s.w0, s.w3), DecLastWord(s.w3, s.w2, s.w1, s.w0)), k)
  }

  /** InvMixColumns of one word, the way the key schedule computes it. */
  function UnmixKey(w: Word): Word {
    Sum4(Td0(Te4(w.b3).b0), Td1(Te4(w.b2).b0), Td2(Te4(w.b1).b0), Td3(Te4(w.b0).b0))
  }

  function Unmix(w: Word): Word { Sum4(I0(w.b3), I1(w.b2), I2(w.b1), I3(w.b0)) }

  function UnmixKeys(k: State): State {
    State(UnmixKey(k.w0), UnmixKey(k.w1), UnmixKey(k.w2), UnmixKey(k.w3))
  }

  // ---- Algebra of words ----

  lemma WordSwap(a: Word, b: Word, c: Word, d: Word)
    ensures XorW(XorW(a, b), XorW(c, d)) == XorW(XorW(a, c), XorW(b, d))
  {
    hide Xor;
    XorSwap(a.b3, b.b3, c.b3, d.b3);
    XorSwap(a.b2, b.b2, c.b2, d.b2);
    XorSwap(a.b1, b.b1, c.b1, d.b1);
    XorSwap(a.b0, b.b0, c.b0, d.b0);
  }

  lemma WordCancel(a: Word, b: Word)
    ensures XorW(XorW(a, b), b) == a
  {
    hide Xor;
    XorCancel(a.b3, b.b3);
    XorCancel(a.b2, b.b2);
    XorCancel(a.b1, b.b1);
    XorCancel(a.b0, b.b0);
  }

  lemma ColumnsLinear(a: byte, b: byte)
    ensures I0(Xor(a, b)) == XorW(I0(a), I0(b)) && I1(Xor(a, b)) == XorW(I1(a), I1(b))
    ensures I2(Xor(a, b)) == XorW(I2(a), I2(b)) && I3(Xor(a, b)) == XorW(I3(a), I3(b))
  {
    hide Xor, X9, XB, XD, XE;
    FactorsLinear(a, b);
  }

  lemma Sum4Swap(a: Word, b: Word, c: Word, d: Word, a': Word, b': Word, c': Word, d': Word)
    ensures Sum4(XorW(a, a'), XorW(b, b'), XorW(c, c'), XorW(d, d')) == XorW(Sum4(a, b, c, d), Sum4(a', b', c', d'))
  {
    hide XorW;
    WordSwap(a, a', b, b');
    WordSwap(XorW(a, b), XorW(a', b'), c, c');
    WordSwap(XorW(XorW(a, b), c), XorW(XorW(a', b'), c'), d, d');
  }

  /** InvMixColumns is linear. */
  lemma UnmixLinear(u: Word, v: Word)
    ensures Unmix(XorW(u, v)) == XorW(Unmix(u), Unmix(v))
  {
    hide Xor, I0, I1, I2, I3, Sum4;
    ColumnsLinear(u.b3, v.b3);
    ColumnsLinear(u.b2, v.b2);
    ColumnsLinear(u.b1, v.b1);
    ColumnsLinear(u.b0, v.b0);
    Sum4Swap(I0(u.b3), I1(u.b2), I2(u.b1), I3(u.b0), I0(v.b3), I1(v.b2), I2(v.b1), I3(v.b0));
  }

  lemma UnmixColumn0(y: byte)
    ensures Unmix(M0(y)) == Word(y, 0, 0, 0)
  {
    hide Xor, X2, X3, X9, XB, XD, XE;
    InverseColumn0(y);
  }

  lemma UnmixColumn1(y: byte)
    ensures Unmix(M1(y)) == Word(0, y, 0, 0)
  {
    hide Xor, X2, X3, X9, XB, XD, XE;
    InverseColumn1(y);
  }

  lemma UnmixColumn2(y: byte)
    ensures Unmix(M2(y)) == Word(0, 0, y, 0)
  {
    hide Xor, X2, X3, X9, XB, XD, XE;
    InverseColumn2(y);
  }

  lemma UnmixColumn3(y: byte)
    ensures Unmix(M3(y)) == Word(0, 0, 0, y)
  {
    hide Xor, X2, X3, X9, XB, XD, XE;
    InverseColumn3(y);
  }

  function Mix(u: Word): Word { Sum4(M0(u.b3), M1(u.b2), M2(u.b1), M3(u.b0)) }

  lemma SplitWord(u: Word)
    ensures Sum4(Word(u.b3, 0, 0, 0), Word(0, u.b2, 0, 0), Word(0, 0, u.b1, 0), Word(0, 0, 0, u.b0)) == u
  {
    hide Xor;
    XorCancel(u.b3, 0);
    XorCancel(u.b2, 0);
    XorCancel(u.b1, 0);
    XorCancel(u.b0, 0);
    XorCancel(0, 0);
  }

  /** InvMixColumns undoes MixColumns. */
  lemma UnmixMix(u: Word)
    ensures Unmix(Mix(u)) == u
  {
    hide XorW, Unmix, M0, M1, M2, M3;
    var a, b, c, d := M0(u.b3), M1(u.b2), M2(u.b1), M3(u.b0);
    UnmixLinear(XorW(XorW(a, b), c), d);
    UnmixLinear(XorW(a, b), c);
    UnmixLinear(a, b);
    UnmixColumn0(u.b3);
    UnmixColumn1(u.b2);
    UnmixColumn2(u.b1);
    UnmixColumn3(u.b0);
    SplitWord(u);
  }

  // ---- One round of decryption undoes one round of encryption ----

  lemma UnmixKeyIsUnmix(w: Word)
    ensures UnmixKey(w) == Unmix(w)
  {
    hide S, Si, I0, I1, I2, I3, Sum4;
    BoxInverse(w.b3);
    BoxInverse(w.b2);
    BoxInverse(w.b1);
    BoxInverse(w.b0);
  }

  /** A column of the encryption round is MixColumns of the substituted and
      shifted column. */
  lemma EncWordMeaning(a: Word, b: Word, c: Word, d: Word)
    ensures EncWord(a, b, c, d) == Mix(EncLastWord(a, b, c, d))
  {
    hide S, M0, M1, M2, M3, Sum4;
  }

  /** The decryption tables see through substitution and shift. */
  lemma DecWordMeaning(a: Word, b: Word, c: Word, d: Word)
    ensures DecWord(a, b, c, d) == Unmix(DecLastWord(a, b, c, d))
  {
    hide Si, I0, I1, I2, I3, Sum4;
  }

  function UnsubShift(s: State): State {
    State(DecLastWord(s.w0, s.w3, s.w2, s.w1), DecLastWord(s.w1, s.w0, s.w3, s.w2),
          DecLastWord(s.w2, s.w1, s.w0, s.w3), DecLastWord(s.w3, s.w2, s.w1, s.w0))
  }

  lemma WordBoxes(w: Word)
    ensures Word(Si(S(w.b3)), Si(S(w.b2)), Si(S(w.b1)), Si(S(w.b0))) == w
  {
    hide S, Si;
    BoxInverse(w.b3);
    BoxInverse(w.b2);
    BoxInverse(w.b1);
    BoxInverse(w.b0);
  }

  lemma UnsubSub(s: State)
    ensures UnsubShift(SubShift(s)) == s
  {
    hide S, Si;
    WordBoxes(s.w0);
    WordBoxes(s.w1);
    WordBoxes(s.w2);
    WordBoxes(s.w3);
  }

  lemma UnmixAdded(u: Word, k: Word)
    ensures XorW(Unmix(XorW(Mix(u), k)), UnmixKey(k)) == u
  {
    hide XorW, Unmix, Mix, UnmixKey;
    UnmixKeyIsUnmix(k);
    UnmixLinear(Mix(u), k);
    UnmixMix(u);
    WordCancel(u, Unmix(k));
  }

  /** The equivalent inverse cipher (section 5.3.5 of FIPS 197), one round: with
      the transformed key, a decryption round maps the substituted and shifted
      output of an encryption round to the substituted and shifted input. */
  lemma RoundUndone(s: State, k: State)
    ensures DecRound(SubShift(EncRound(s, k)), UnmixKeys(k)) == SubShift(s)
  {
    var u := SubShift(s);
    var t := EncRound(s, k);
    assert t == AddKey(State(Mix(u.w0), Mix(u.w1), Mix(u.w2), Mix(u.w3)), k) by {
      hide EncLastWord, EncWord, Mix, XorW;
      EncWordMeaning(s.w0, s.w1, s.w2, s.w3);
      EncWordMeaning(s.w1, s.w2, s.w3, s.w0);
      EncWordMeaning(s.w2, s.w3, s.w0, s.w1);
      EncWordMeaning(s.w3, s.w0, s.w1, s.w2);
    }
    var d := SubShift(t);
    UnsubSub(t);
    hide Mix, Unmix, UnmixKey, XorW, SubShift, EncRound, EncLastWord, DecLastWord, DecWord;
    DecWordMeaning(d.w0, d.w3, d.w2, d.w1);
    DecWordMeaning(d.w1, d.w0, d.w3, d.w2);
    DecWordMeaning(d.w2, d.w1, d.w0, d.w3);
    DecWordMeaning(d.w3, d.w2, d.w1, d.w0);
    UnmixAdded(u.w0, k.w0);
    UnmixAdded(u.w1, k.w1);
    UnmixAdded(u.w2, k.w2);
    UnmixAdded(u.w3, k.w3);
  }

  lemma AddKeyTwice(s: State, k: State)
    ensures AddKey(AddKey(s, k), k) == s
  {
    hide XorW;
    WordCancel(s.w0, k.w0);
    WordCancel(s.w1, k.w1);
    WordCancel(s.w2, k.w2);
    WordCancel(s.w3, k.w3);
  }

  lemma LastUndone(s: State, k: State)
    ensures DecLast(SubShift(AddKey(s, k)), k) == s
  {
    hide XorW, DecLastWord, EncLastWord;
    UnsubSub(AddKey(s, k));
    AddKeyTwice(s, k);
  }

  // ---- The whole cipher ----

  function KeyAt(rk: seq<Word>, i: nat): State
    requires 4 * i + 4 <= |rk|
  {
    State(rk[4 * i], rk[4 * i + 1], rk[4 * i + 2], rk[4 * i + 3])
  }

  /** The state after the initial key addition and `n` full rounds. */
  function EncRounds(rk: seq<Word>, x: State, n: nat): State
    requires 4 * n + 4 <= |rk|
  {
    if n == 0 then AddKey(x, KeyAt(rk, 0)) else EncRound(EncRounds(rk, x, n - 1), KeyAt(rk, n))
  }

  function Encrypt(rk: seq<Word>, rounds: nat, x: State): State
    requires rounds > 0 && 4 * rounds + 4 <= |rk|
  {
    EncLast(EncRounds(rk, x, rounds - 1), KeyAt(rk, rounds))
  }

  function DecRounds(rk: seq<Word>, y: State, n: nat): State
    requires 4 * n + 4 <= |rk|
  {
    if n == 0 then AddKey(y, KeyAt(rk, 0)) else DecRound(DecRounds(rk, y, n - 1), KeyAt(rk, n))
  }

  function Decrypt(rk: seq<Word>, rounds: nat, y: State): State
    requires rounds > 0 && 4 * rounds + 4 <= |rk|
  {
    DecLast(DecRounds(rk, y, rounds - 1), KeyAt(rk, rounds))
  }

  /** `dk` holds the round keys of `ek` in reverse order, the inner ones
      transformed by InvMixColumns. */
  predicate Reversed(dk: seq<Word>, ek: seq<Word>, rounds: nat) {
    rounds > 0 && |dk| >= 4 * rounds + 4 && |ek| >= 4 * rounds + 4
    && KeyAt(dk, 0) == KeyAt(ek, rounds) && KeyAt(dk, rounds) == KeyAt(ek, 0)
    && forall i :: 0 < i < rounds ==> KeyAt(dk, i) == UnmixKeys(KeyAt(ek, rounds - i))
  }

  lemma {:induction false} RoundsUndone(ek: seq<Word>, dk: seq<Word>, rounds: nat, x: State, n: nat)
    requires Reversed(dk, ek, rounds) && n < rounds
    ensures DecRounds(dk, Encrypt(ek, rounds, x), n) == SubShift(EncRounds(ek, x, rounds - 1 - n))
  {
    hide AddKey, SubShift, EncRound, DecRound, UnmixKeys, KeyAt;
    if n == 0 {
      AddKeyTwice(SubShift(EncRounds(ek, x, rounds - 1)), KeyAt(ek, rounds));
    } else {
      RoundsUndone(ek, dk, rounds, x, n - 1);
      RoundUndone(EncRounds(ek, x, rounds - 1 - n), KeyAt(ek, rounds - n));
    }
  }

  /** Decryption with the reversed schedule undoes encryption, whatever the
      schedule and the number of rounds. */
  lemma CipherRoundTrip(ek: seq<Word>, dk: seq<Word>, rounds: nat, x: State)
    requires Reversed(dk, ek, rounds)
    ensures Decrypt(dk, rounds, Encrypt(ek, rounds, x)) == x
  {
    hide AddKey, SubShift, DecLast, EncRound, DecRound, UnmixKeys, KeyAt;
    RoundsUndone(ek, dk, rounds, x, rounds - 1);
    LastUndone(x, KeyAt(ek, 0));
  }
}
