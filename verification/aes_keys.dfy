/** AES key expansion in both directions, and encryption and decryption of one
    block (aes.c). */
module AesKeys {
  import opened Bytes
  import opened AesBytes
  import opened AesRounds

  // ---- The recurrence of section 5.2 of FIPS 197 ----

  function SubWord(w: Word): Word { Word(Te4(w.b3).b3, Te4(w.b2).b2, Te4(w.b1).b1, Te4(w.b0).b0) }

  function SubRotWord(w: Word): Word { Word(Te4(w.b2).b3, Te4(w.b1).b2, Te4(w.b0).b1, Te4(w.b3).b0) }

  function Rcon(i: nat): Word
    requires i < 10
  {
    Word([0x01, 0x02, 0x04, 0x08, 0x10, 0x20, 0x40, 0x80, 0x1b, 0x36][i], 0, 0, 0)
  }

  function NextWord(w: seq<Word>, i: nat, nk: nat): Word
    requires 0 < nk <= i <= |w| && i / nk <= 10
  {
    if i % nk == 0 then
      DivPositive(i, nk);
      XorW(XorW(w[i - nk], SubRotWord(w[i - 1])), Rcon(i / nk - 1))
    else if nk > 6 && i % nk == 4 then XorW(w[i - nk], SubWord(w[i - 1]))
    else XorW(w[i - nk], w[i - 1])
  }

  lemma DivPositive(i: nat, nk: nat)
    requires 0 < nk <= i
    ensures i / nk > 0
  {
  }

  lemma NextRot(w: seq<Word>, nk: nat, i: nat)
    requires nk in {4, 6, 8} && i < 10 && nk * (i + 1) <= |w|
    ensures NextWord(w, nk * (i + 1), nk)
         == XorW(XorW(w[nk * i], SubRotWord(w[nk * i + nk - 1])), Rcon(i))
  {
    hide XorW, SubRotWord, SubWord, Rcon;
  }

  lemma NextPlain(w: seq<Word>, nk: nat, i: nat, r: nat)
    requires nk in {4, 6, 8} && i < 10 && nk * (i + 1) + r <= |w| && 0 < r < nk && (nk == 8 ==> r != 4)
    ensures NextWord(w, nk * (i + 1) + r, nk) == XorW(w[nk * i + r], w[nk * (i + 1) + r - 1])
  {
    hide XorW, SubRotWord, SubWord, Rcon;
    assert (nk * (i + 1) + r) % nk == r && (nk * (i + 1) + r) / nk == i + 1;
  }

  lemma NextSub(w: seq<Word>, i: nat)
    requires i < 10 && 8 * (i + 1) + 4 <= |w|
    ensures NextWord(w, 8 * (i + 1) + 4, 8) == XorW(w[8 * i + 4], SubWord(w[8 * (i + 1) + 3]))
  {
    hide XorW, SubRotWord, SubWord, Rcon;
  }

  /** The words of the cipher key, then `n` words by the recurrence. */
  ghost predicate Schedule(w: seq<Word>, userKey: seq<byte>, nk: nat, n: nat) {
    nk in {4, 6, 8} && |userKey| >= 4 * nk && nk <= n <= |w| && n <= 4 * (nk + 7)
    && (forall j :: 0 <= j < nk ==> w[j] == GetU32(userKey, 4 * j))
    && forall j :: nk <= j < n ==> Steps(w, j, nk)
  }

  ghost predicate Steps(w: seq<Word>, j: nat, nk: nat)
    requires nk in {4, 6, 8}
  {
    nk <= j < |w| && j / nk <= 10 && w[j] == NextWord(w, j, nk)
  }

  /** The schedule is a function of the key. */
  lemma {:induction false} ScheduleUnique(w: seq<Word>, v: seq<Word>, userKey: seq<byte>, nk: nat, n: nat)
    requires Schedule(w, userKey, nk, n) && Schedule(v, userKey, nk, n)
    ensures w[..n] == v[..n]
  {
    hide NextWord, GetU32;
    if n <= nk {
    } else {
      ScheduleUnique(w, v, userKey, nk, n - 1);
      assert Steps(w, n - 1, nk) && Steps(v, n - 1, nk);
      SameNext(w, v, n - 1, nk);
    }
  }

  lemma SameNext(w: seq<Word>, v: seq<Word>, i: nat, nk: nat)
    requires 0 < nk <= i <= |w| && i <= |v| && i / nk <= 10 && w[..i] == v[..i]
    ensures NextWord(w, i, nk) == NextWord(v, i, nk)
  {
    hide XorW, SubWord, SubRotWord, Rcon;
    assert w[i - nk] == w[..i][i - nk] == v[i - nk];
    assert w[i - 1] == w[..i][i - 1] == v[i - 1];
  }

  function GetU32(b: seq<byte>, at: nat): Word
    requires at + 4 <= |b|
  {
    Word(b[at], b[at + 1], b[at + 2], b[at + 3])
  }

  /** The length of a key in words. */
  function KeyLength(bits: int): (nk: nat)
    ensures bits in {128, 192, 256} ==> 32 * nk == bits
  {
    if bits == 128 then 4 else if bits == 192 then 6 else 8
  }

  class AesKey {
    const rdKey: array<Word>
    var rounds: nat

    constructor ()
      ensures rdKey.Length == 60 && fresh(rdKey)
    {
      rdKey := new Word[60](_ => Word(0, 0, 0, 0));
      rounds := 0;
    }
  }

  /** One assignment of an expansion loop. */
  method SetWord(rk: array<Word>, userKey: seq<byte>, nk: nat, j: nat, w: Word)
    requires j < rk.Length && Schedule(rk[..], userKey, nk, j) && j < 4 * (nk + 7)
    requires w == NextWord(rk[..], j, nk)
    modifies rk
    ensures Schedule(rk[..], userKey, nk, j + 1)
    ensures forall k :: 0 <= k < rk.Length && k != j ==> rk[k] == old(rk[k])
  {
    hide NextWord, GetU32;
    ghost var before := rk[..];
    rk[j] := w;
    assert rk[..][..j] == before[..j];
    forall k | nk <= k <= j ensures Steps(rk[..], k, nk) {
      assert k < j ==> Steps(before, k, nk);
      assert rk[..][..k] == before[..k] by {
        assert rk[..][..k] == rk[..][..j][..k] && before[..k] == before[..j][..k];
      }
      SameNext(before, rk[..], k, nk);
    }
    forall k | 0 <= k < nk ensures rk[..][k] == GetU32(userKey, 4 * k) {
      assert rk[..][k] == before[k];
    }
  }

  /** First word of a group of `nk`: the one that goes through the box, rotated. */
  method PutRot(rk: array<Word>, userKey: seq<byte>, nk: nat, p: nat, i: nat)
    requires nk in {4, 6, 8} && p == nk * i && i < 10 && p + nk < rk.Length && p < 28 + 3 * nk
    requires Schedule(rk[..], userKey, nk, p + nk)
    modifies rk
    ensures Schedule(rk[..], userKey, nk, p + nk + 1)
    ensures forall k :: 0 <= k < rk.Length && k != p + nk ==> rk[k] == old(rk[k])
  {
    hide Schedule, NextWord, XorW, SubRotWord, Rcon;
    NextRot(rk[..], nk, i);
    SetWord(rk, userKey, nk, p + nk, XorW(XorW(rk[p], SubRotWord(rk[p + nk - 1])), Rcon(i)));
  }

  /** Word `r` of a group, where no box is involved. */
  method PutPlain(rk: array<Word>, userKey: seq<byte>, nk: nat, p: nat, ghost i: nat, r: nat)
    requires nk in {4, 6, 8} && p == nk * i && i < 10 && 0 < r < nk && (nk == 8 ==> r != 4)
    requires p + nk + r < rk.Length && p + r < 28 + 3 * nk
    requires Schedule(rk[..], userKey, nk, p + nk + r)
    modifies rk
    ensures Schedule(rk[..], userKey, nk, p + nk + r + 1)
    ensures forall k :: 0 <= k < rk.Length && k != p + nk + r ==> rk[k] == old(rk[k])
  {
    hide Schedule, NextWord, XorW;
    NextPlain(rk[..], nk, i, r);
    SetWord(rk, userKey, nk, p + nk + r, XorW(rk[p + r], rk[p + nk + r - 1]));
  }

  /** The extra box word in the middle of a group of eight. */
  method PutSub(rk: array<Word>, userKey: seq<byte>, p: nat)
    requires p % 8 == 0 && p + 12 < rk.Length && p < 48
    requires Schedule(rk[..], userKey, 8, p + 12)
    modifies rk
    ensures Schedule(rk[..], userKey, 8, p + 13)
    ensures forall k :: 0 <= k < rk.Length && k != p + 12 ==> rk[k] == old(rk[k])
  {
    hide Schedule, NextWord, XorW, SubWord;
    NextSub(rk[..], p / 8);
    SetWord(rk, userKey, 8, p + 12, XorW(rk[p + 4], SubWord(rk[p + 11])));
  }

  method Expand128(rk: array<Word>, userKey: seq<byte>)
    requires rk.Length == 60 && Schedule(rk[..], userKey, 4, 4)
    modifies rk
    ensures Schedule(rk[..], userKey, 4, 44)
    ensures forall k :: 44 <= k < 60 ==> rk[k] == old(rk[k])
  {
    hide Schedule;
    var p, i := 0, 0;
    while true
      invariant i < 10 && p == 4 * i && Schedule(rk[..], userKey, 4, p + 4)
      invariant forall k :: 44 <= k < 60 ==> rk[k] == old(rk[k])
      decreases 10 - i
    {
      PutRot(rk, userKey, 4, p, i);
      PutPlain(rk, userKey, 4, p, i, 1);
      PutPlain(rk, userKey, 4, p, i, 2);
      PutPlain(rk, userKey, 4, p, i, 3);
      i := i + 1;
      if i == 10 {
        return;
      }
      p := p + 4;
    }
  }

  method Expand192(rk: array<Word>, userKey: seq<byte>)
    requires rk.Length == 60 && Schedule(rk[..], userKey, 6, 6)
    modifies rk
    ensures Schedule(rk[..], userKey, 6, 52)
    ensures forall k :: 52 <= k < 60 ==> rk[k] == old(rk[k])
  {
    hide Schedule;
    var p, i := 0, 0;
    while true
      invariant i < 8 && p == 6 * i && Schedule(rk[..], userKey, 6, p + 6)
      invariant forall k :: 52 <= k < 60 ==> rk[k] == old(rk[k])
      decreases 8 - i
    {
      PutRot(rk, userKey, 6, p, i);
      PutPlain(rk, userKey, 6, p, i, 1);
      PutPlain(rk, userKey, 6, p, i, 2);
      PutPlain(rk, userKey, 6, p, i, 3);
      i := i + 1;
      if i == 8 {
        return;
      }
      PutPlain(rk, userKey, 6, p, i - 1, 4);
      PutPlain(rk, userKey, 6, p, i - 1, 5);
      p := p + 6;
    }
  }

  method Expand256(rk: array<Word>, userKey: seq<byte>)
    requires rk.Length == 60 && Schedule(rk[..], userKey, 8, 8)
    modifies rk
    ensures Schedule(rk[..], userKey, 8, 60)
  {
    hide Schedule;
    var p, i := 0, 0;
    while true
      invariant i < 7 && p == 8 * i && Schedule(rk[..], userKey, 8, p + 8)
      decreases 7 - i
    {
      PutRot(rk, userKey, 8, p, i);
      PutPlain(rk, userKey, 8, p, i, 1);
      PutPlain(rk, userKey, 8, p, i, 2);
      PutPlain(rk, userKey, 8, p, i, 3);
      i := i + 1;
      if i == 7 {
        return;
      }
      PutSub(rk, userKey, p);
      PutPlain(rk, userKey, 8, p, i - 1, 5);
      PutPlain(rk, userKey, 8, p, i - 1, 6);
      PutPlain(rk, userKey, 8, p, i - 1, 7);
      p := p + 8;
    }
  }

  /** Fills exactly `4 * (rounds + 1)` words, by the recurrence. */
  method SetEncryptKey(userKey: array?<byte>, bits: int, key: AesKey?) returns (ret: int)
    requires userKey != null && bits in {128, 192, 256} ==> 8 * userKey.Length >= bits
    requires key != null ==> key.rdKey.Length == 60
    modifies if key == null then {} else {key, key.rdKey as object}
    ensures ret == (if userKey == null || key == null then -1 else if bits !in {128, 192, 256} then -2 else 0)
    ensures ret == 0 ==> var nk := KeyLength(bits);
              && key.rounds == nk + 6 && Schedule(key.rdKey[..], old(userKey[..]), nk, 4 * (key.rounds + 1))
              && forall k :: 4 * (key.rounds + 1) <= k < 60 ==> key.rdKey[k] == old(key.rdKey[k])
    ensures ret != 0 && key != null ==> key.rounds == old(key.rounds) && key.rdKey[..] == old(key.rdKey[..])
  {
    hide GetU32, NextWord, Steps;
    if userKey == null || key == null {
      return -1;
    }
    if bits != 128 && bits != 192 && bits != 256 {
      return -2;
    }
    var rk, bytes := key.rdKey, userKey[..];
    if bits == 128 {
      key.rounds := 10;
    } else if bits == 192 {
      key.rounds := 12;
    } else {
      key.rounds := 14;
    }
    rk[0], rk[1] := GetU32(bytes, 0), GetU32(bytes, 4);
    rk[2], rk[3] := GetU32(bytes, 8), GetU32(bytes, 12);
    if bits == 128 {
      Expand128(rk, bytes);
      return 0;
    }
    rk[4], rk[5] := GetU32(bytes, 16), GetU32(bytes, 20);
    if bits == 192 {
      Expand192(rk, bytes);
      return 0;
    }
    rk[6], rk[7] := GetU32(bytes, 24), GetU32(bytes, 28);
    Expand256(rk, bytes);
    hide Schedule;
    assert key.rounds == 14 && KeyLength(bits) == 8;
    assert Schedule(key.rdKey[..], bytes, 8, 60);
    return 0;
  }

  /** Stores round key `a`. */
  method PutKey(rk: array<Word>, a: nat, s: State)
    requires 4 * a + 4 <= rk.Length
    modifies rk
    ensures KeyAt(rk[..], a) == s
    ensures forall c: nat :: 4 * c + 4 <= rk.Length && c != a ==> KeyAt(rk[..], c) == KeyAt(old(rk[..]), c)
  {
    var p := 4 * a;
    rk[p], rk[p + 1], rk[p + 2], rk[p + 3] := s.w0, s.w1, s.w2, s.w3;
  }

  /** Swaps round keys `a` and `b`. */
  method SwapKeys(rk: array<Word>, a: nat, b: nat)
    requires a < b && 4 * b + 4 <= rk.Length
    modifies rk
    ensures forall c: nat :: 4 * c + 4 <= rk.Length ==>
              KeyAt(rk[..], c) == KeyAt(old(rk[..]), if c == a then b else if c == b then a else c)
  {
    var temp := KeyAt(rk[..], a);
    hide KeyAt;
    PutKey(rk, a, KeyAt(rk[..], b));
    PutKey(rk, b, temp);
  }

  /** Inverts the order of the round keys. */
  method ReverseKeys(rk: array<Word>, rounds: nat)
    requires rounds <= 14 && rk.Length == 60
    modifies rk
    ensures forall b: nat :: b <= rounds ==> KeyAt(rk[..], b) == KeyAt(old(rk[..]), rounds - b)
  {
    hide KeyAt;
    ghost var was := Keys(rk[..], rounds);
    var i, j := 0, rounds;
    while i < j
      invariant j == rounds - i && 2 * i <= rounds + 1
      invariant forall b: nat :: b <= rounds && !(i <= b <= j) ==> KeyAt(rk[..], b) == was[rounds - b]
      invariant forall b: nat :: i <= b <= j ==> KeyAt(rk[..], b) == was[b]
    {
      SwapKeys(rk, i, j);
      i, j := i + 1, j - 1;
    }
  }

  ghost function Keys(rk: seq<Word>, rounds: nat): (keys: seq<State>)
    requires 4 * rounds + 4 <= |rk|
    ensures |keys| == rounds + 1 && forall b: nat :: b <= rounds ==> keys[b] == KeyAt(rk, b)
  {
    if rounds == 0 then [KeyAt(rk, 0)] else Keys(rk, rounds - 1) + [KeyAt(rk, rounds)]
  }

  /** Applies InvMixColumns to all round keys but the first and the last. */
  method UnmixInner(rk: array<Word>, rounds: nat)
    requires 0 < rounds <= 14 && rk.Length == 60
    modifies rk
    ensures KeyAt(rk[..], 0) == KeyAt(old(rk[..]), 0) && KeyAt(rk[..], rounds) == KeyAt(old(rk[..]), rounds)
    ensures forall b :: 0 < b < rounds ==> KeyAt(rk[..], b) == UnmixKeys(KeyAt(old(rk[..]), b))
  {
    hide UnmixKeys, KeyAt;
    var i := 1;
    while i < rounds
      invariant 1 <= i <= rounds
      invariant forall b: nat :: b <= rounds ==>
                  KeyAt(rk[..], b) == if 0 < b < i then UnmixKeys(KeyAt(old(rk[..]), b)) else KeyAt(old(rk[..]), b)
    {
      PutKey(rk, i, UnmixKeys(KeyAt(rk[..], i)));
      i := i + 1;
    }
  }

  method MakeDecryptKeys(rk: array<Word>, rounds: nat)
    requires 0 < rounds <= 14 && rk.Length == 60
    modifies rk
    ensures Reversed(rk[..], old(rk[..]), rounds)
  {
    hide KeyAt, UnmixKeys;
    ReverseKeys(rk, rounds);
    UnmixInner(rk, rounds);
  }

  /** The decryption schedule: that of encryption, reversed and transformed. */
  method SetDecryptKey(userKey: array?<byte>, bits: int, key: AesKey?) returns (ret: int, ghost ek: seq<Word>)
    requires userKey != null && bits in {128, 192, 256} ==> 8 * userKey.Length >= bits
    requires key != null ==> key.rdKey.Length == 60
    modifies if key == null then {} else {key, key.rdKey as object}
    ensures ret == (if userKey == null || key == null then -1 else if bits !in {128, 192, 256} then -2 else 0)
    ensures ret == 0 ==> var nk := KeyLength(bits);
              && key.rounds == nk + 6 && Schedule(ek, old(userKey[..]), nk, 4 * (key.rounds + 1))
              && Reversed(key.rdKey[..], ek, key.rounds)
    ensures ret != 0 && key != null ==> key.rounds == old(key.rounds) && key.rdKey[..] == old(key.rdKey[..])
  {
    ek := [];
    ret := SetEncryptKey(userKey, bits, key);
    if ret < 0 {
      return;
    }
    ek := key.rdKey[..];
    hide Schedule, KeyAt, UnmixKeys;
    MakeDecryptKeys(key.rdKey, key.rounds);
    return 0, ek;
  }

  // ---- One block ----

  function LoadBlock(b: seq<byte>): State
    requires |b| == 16
  {
    State(GetU32(b, 0), GetU32(b, 4), GetU32(b, 8), GetU32(b, 12))
  }

  function PutU32(w: Word): seq<byte> { [w.b3, w.b2, w.b1, w.b0] }

  function StoreBlock(s: State): (b: seq<byte>)
    ensures |b| == 16
  {
    PutU32(s.w0) + PutU32(s.w1) + PutU32(s.w2) + PutU32(s.w3)
  }

  lemma LoadStore(s: State)
    ensures LoadBlock(StoreBlock(s)) == s
  {
  }

  lemma StoreLoad(b: seq<byte>)
    requires |b| == 16
    ensures StoreBlock(LoadBlock(b)) == b
  {
  }

  function EncryptBytes(rk: seq<Word>, rounds: nat, b: seq<byte>): (c: seq<byte>)
    requires rounds > 0 && 4 * rounds + 4 <= |rk| && |b| == 16
    ensures |c| == 16
  {
    StoreBlock(Encrypt(rk, rounds, LoadBlock(b)))
  }

  function DecryptBytes(rk: seq<Word>, rounds: nat, b: seq<byte>): (c: seq<byte>)
    requires rounds > 0 && 4 * rounds + 4 <= |rk| && |b| == 16
    ensures |c| == 16
  {
    StoreBlock(Decrypt(rk, rounds, LoadBlock(b)))
  }

  /** The round trip on bytes, for every key length, key and block. */
  lemma BlockRoundTrip(ek: seq<Word>, dk: seq<Word>, rounds: nat, b: seq<byte>)
    requires Reversed(dk, ek, rounds) && |b| == 16
    ensures DecryptBytes(dk, rounds, EncryptBytes(ek, rounds, b)) == b
  {
    hide LoadBlock, StoreBlock, Encrypt, Decrypt;
    LoadStore(Encrypt(ek, rounds, LoadBlock(b)));
    CipherRoundTrip(ek, dk, rounds, LoadBlock(b));
    StoreLoad(b);
  }

  predicate Usable(key: AesKey)
    reads key
  {
    key.rdKey.Length == 60 && key.rounds in {10, 12, 14}
  }

  method StoreAt(out: array<byte>, at: nat, s: State)
    requires at + 16 <= out.Length
    modifies out
    ensures out[..] == old(out[..at]) + StoreBlock(s) + old(out[at + 16..])
  {
    var b := StoreBlock(s);
    forall k | 0 <= k < 16 {
      out[at + k] := b[k];
    }
  }

  /** `AES_encrypt`; input and output may be the same. */
  method AesEncrypt(input: array<byte>, inAt: nat, out: array<byte>, outAt: nat, key: AesKey)
    requires inAt + 16 <= input.Length && outAt + 16 <= out.Length && Usable(key)
    modifies out
    ensures out[..] == old(out[..outAt])
                       + EncryptBytes(old(key.rdKey[..]), key.rounds, old(input[inAt..inAt + 16]))
                       + old(out[outAt + 16..])
  {
    hide EncRound, AddKey, SubShift;
    var rk := key.rdKey;
    ghost var x := LoadBlock(input[inAt..inAt + 16]);
    var b := input[inAt..inAt + 16];
    var s := AddKey(State(GetU32(b, 0), GetU32(b, 4), GetU32(b, 8), GetU32(b, 12)), State(rk[0], rk[1], rk[2], rk[3]));
    var t := s;
    var p, r := 0, key.rounds / 2;
    while true
      invariant 0 < r <= key.rounds / 2 && p == 8 * (key.rounds / 2 - r)
      invariant s == EncRounds(rk[..], x, p / 4)
      decreases r
    {
      t := EncRound(s, State(rk[p + 4], rk[p + 5], rk[p + 6], rk[p + 7]));
      p := p + 8;
      r := r - 1;
      if r == 0 {
        break;
      }
      s := EncRound(t, State(rk[p], rk[p + 1], rk[p + 2], rk[p + 3]));
    }
    s := EncLast(t, State(rk[p], rk[p + 1], rk[p + 2], rk[p + 3]));
    StoreAt(out, outAt, s);
  }

  /** `AES_decrypt`; input and output may be the same. */
  method AesDecrypt(input: array<byte>, inAt: nat, out: array<byte>, outAt: nat, key: AesKey)
    requires inAt + 16 <= input.Length && outAt + 16 <= out.Length && Usable(key)
    modifies out
    ensures out[..] == old(out[..outAt])
                       + DecryptBytes(old(key.rdKey[..]), key.rounds, old(input[inAt..inAt + 16]))
                       + old(out[outAt + 16..])
  {
    hide DecRound, AddKey, DecLast;
    var rk := key.rdKey;
    ghost var x := LoadBlock(input[inAt..inAt + 16]);
    var b := input[inAt..inAt + 16];
    var s := AddKey(State(GetU32(b, 0), GetU32(b, 4), GetU32(b, 8), GetU32(b, 12)), State(rk[0], rk[1], rk[2], rk[3]));
    var t := s;
    var p, r := 0, key.rounds / 2;
    while true
      invariant 0 < r <= key.rounds / 2 && p == 8 * (key.rounds / 2 - r)
      invariant s == DecRounds(rk[..], x, p / 4)
      decreases r
    {
      t := DecRound(s, State(rk[p + 4], rk[p + 5], rk[p + 6], rk[p + 7]));
      p := p + 8;
      r := r - 1;
      if r == 0 {
        break;
      }
      s := DecRound(t, State(rk[p], rk[p + 1], rk[p + 2], rk[p + 3]));
    }
    s := DecLast(t, State(rk[p], rk[p + 1], rk[p + 2], rk[p + 3]));
    StoreAt(out, outAt, s);
  }

  lemma SchedulesAgree(w: seq<Word>, v: seq<Word>, userKey: seq<byte>, nk: nat, dk: seq<Word>)
    requires Schedule(w, userKey, nk, 4 * (nk + 7)) && Schedule(v, userKey, nk, 4 * (nk + 7))
    requires Reversed(dk, w, nk + 6)
    ensures Reversed(dk, v, nk + 6)
  {
    ScheduleUnique(w, v, userKey, nk, 4 * (nk + 7));
    hide Schedule, UnmixKeys;
    forall b: nat | b <= nk + 6 ensures KeyAt(w, b) == KeyAt(v, b) {
      assert forall k :: 0 <= k < 4 * (nk + 7) ==> w[k] == w[..4 * (nk + 7)][k] == v[k];
    }
    hide KeyAt;
  }

  /** One user key expanded in both directions. */
  method ExpandBoth(userKey: array<byte>, bits: int) returns (enc: AesKey, dec: AesKey)
    requires bits in {128, 192, 256} && 8 * userKey.Length >= bits
    ensures fresh(enc) && fresh(enc.rdKey) && fresh(dec) && fresh(dec.rdKey)
    ensures Usable(enc) && Usable(dec) && dec.rounds == enc.rounds
    ensures Reversed(dec.rdKey[..], enc.rdKey[..], enc.rounds)
  {
    hide Schedule, Reversed;
    enc := new AesKey();
    dec := new AesKey();
    ghost var key := userKey[..];
    var ret := SetEncryptKey(userKey, bits, enc);
    assert userKey[..] == key;
    ghost var ek := enc.rdKey[..];
    ghost var w;
    ret, w := SetDecryptKey(userKey, bits, dec);
    assert enc.rdKey[..] == ek;
    SchedulesAgree(w, ek, key, KeyLength(bits), dec.rdKey[..]);
  }

  /** Expanding one user key in both directions gives schedules under which
      `AES_decrypt` undoes `AES_encrypt`, for every key, key length and block. */
  method EncryptThenDecrypt(userKey: array<byte>, bits: int, block: array<byte>) returns (back: array<byte>)
    requires bits in {128, 192, 256} && 8 * userKey.Length >= bits && block.Length == 16
    ensures fresh(back) && back[..] == block[..]
  {
    hide Reversed, EncryptBytes, DecryptBytes;
    var enc, dec := ExpandBoth(userKey, bits);
    ghost var ek, dk, plain := enc.rdKey[..], dec.rdKey[..], block[..];
    var coded := new byte[16];
    back := new byte[16];
    AesEncrypt(block, 0, coded, 0, enc);
    assert coded[0..16] == coded[..] && block[0..16] == plain && dec.rdKey[..] == dk;
    AesDecrypt(coded, 0, back, 0, dec);
    BlockRoundTrip(ek, dk, dec.rounds, plain);
  }
}
