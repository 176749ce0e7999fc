/** The loops of `AES_cbc_encrypt` (aes.c). */
module AesCbc {
  import opened Bytes
  import opened AesBytes
  import opened AesRounds
  import opened AesKeys
  import opened Cbc

  ghost function EncCipher(rk: seq<Word>, rounds: nat): Cipher
    requires rounds > 0 && 4 * rounds + 4 <= |rk|
  {
    (b: Block) => EncryptBytes(rk, rounds, b)
  }

  ghost function DecCipher(rk: seq<Word>, rounds: nat): Cipher
    requires rounds > 0 && 4 * rounds + 4 <= |rk|
  {
    (b: Block) => DecryptBytes(rk, rounds, b)
  }

  /** All CBC theorems apply to AES under the two schedules of one key. */
  lemma CiphersInverse(ek: seq<Word>, dk: seq<Word>, rounds: nat)
    requires Reversed(dk, ek, rounds)
    ensures Inverse(DecCipher(dk, rounds), EncCipher(ek, rounds))
  {
    hide EncryptBytes, DecryptBytes, KeyAt, UnmixKeys;
    forall b: Block ensures DecCipher(dk, rounds)(EncCipher(ek, rounds)(b)) == b {
      BlockRoundTrip(ek, dk, rounds, b);
    }
  }

  /** dst[dstAt + k] := src[srcAt + k] ^ iv[k] for all k below n */
  method XorInto(dst: array<byte>, dstAt: nat, src: array<byte>, srcAt: nat, iv: array<byte>, n: nat)
    requires dstAt + n <= dst.Length && srcAt + n <= src.Length && n <= iv.Length
    requires dst != iv && (dst == src ==> dstAt == srcAt)
    modifies dst
    ensures dst[..] == old(dst[..dstAt]) + XorBytes(old(src[srcAt..srcAt + n]), iv[..]) + old(dst[dstAt + n..])
  {
    hide Xor;
    ghost var d0, s, v := dst[..], src[srcAt..srcAt + n], iv[..];
    for k := 0 to n
      invariant dst[..] == d0[..dstAt] + XorBytes(s, v)[..k] + d0[dstAt + k..]
      invariant forall i :: k <= i < n ==> src[srcAt + i] == s[i]
    {
      assert XorBytes(s, v)[k] == Xor(s[k], v[k]);
      dst[dstAt + k] := Xor(src[srcAt + k], iv[k]);
    }
  }

  /** Nothing overlaps but input and output, which may be the same buffer. */
  predicate Separate(input: array<byte>, out: array<byte>, key: AesKey, ivec: array<byte>) {
    ivec.Length == 16 && ivec != input && ivec != out
    && out as object != key.rdKey && ivec as object != key.rdKey
  }

  lemma Rest(now: seq<byte>, was: seq<byte>, p: nat, n: nat)
    requires p + n <= |was| && |now| == |was| && now[p..] == was[p..]
    ensures now[p..p + n] == was[p..p + n] && now[p + n..] == was[p + n..]
  {
    assert now[p..p + n] == now[p..][..n] && now[p + n..] == now[p..][n..];
    assert was[p..p + n] == was[p..][..n] && was[p + n..] == was[p..][n..];
  }

  lemma StepEncrypt(e: Cipher, iv: Block, data: seq<byte>, p: nat, done: seq<byte>)
    requires p + 16 <= |data|
    ensures var c := e(XorBytes(data[p..p + 16], iv));
            var r, r' := CbcEncrypt(e, iv, data[p..]), CbcEncrypt(e, c, data[p + 16..]);
            r.1 == r'.1 && done + r.0 == done + c + r'.0
  {
    hide XorBytes;
    assert data[p..][..16] == data[p..p + 16] && data[p..][16..] == data[p + 16..];
  }

  lemma LastEncrypt(e: Cipher, iv: Block, tail: seq<byte>)
    requires |tail| < 16
    ensures CbcEncrypt(e, iv, tail)
         == if tail == [] then ([], iv) else (e(Padded(tail, iv)), e(Padded(tail, iv)))
  {
  }

  /** One pass of the encryption loop. */
  method EncryptOne(input: array<byte>, out: array<byte>, p: nat, key: AesKey, ivec: array<byte>)
    requires Usable(key) && Separate(input, out, key, ivec)
    requires p + 16 <= input.Length && p + 16 <= out.Length
    modifies out, ivec
    ensures var e := EncCipher(old(key.rdKey[..]), key.rounds);
            var c := e(XorBytes(old(input[p..p + 16]), old(ivec[..])));
            ivec[..] == c && out[..] == old(out[..p]) + c + old(out[p + 16..])
    ensures input[p + 16..] == old(input[p + 16..])
  {
    hide EncryptBytes, XorBytes;
    var tmp := new byte[16];
    XorInto(tmp, 0, input, p, ivec, 16);
    assert tmp[0..16] == tmp[..] == XorBytes(input[p..p + 16], ivec[..]);
    AesEncrypt(tmp, 0, out, p, key);
    CopyInto(ivec, 0, out[p..p + 16]);
  }

  method PadTail(input: array<byte>, p: nat, len: nat, ivec: array<byte>) returns (tmp: array<byte>)
    requires 0 < len < 16 && p + len <= input.Length && ivec.Length == 16
    ensures fresh(tmp) && tmp.Length == 16 && tmp[..] == Padded(input[p..p + len], ivec[..])
  {
    hide XorBytes;
    tmp := new byte[16];
    XorInto(tmp, 0, input, p, ivec, len);
    ghost var head: seq<byte> := XorBytes(input[p..p + len], ivec[..]);
    assert tmp[..len] == head;
    for n := len to 16
      invariant tmp[..n] == head + ivec[len..n]
    {
      tmp[n] := ivec[n];
    }
    assert tmp[..16] == tmp[..] && ivec[len..16] == ivec[..][len..];
  }

  /** A short tail is padded with the chaining value. */
  method EncryptTail(input: array<byte>, out: array<byte>, p: nat, len: nat, key: AesKey, ivec: array<byte>)
    requires Usable(key) && Separate(input, out, key, ivec)
    requires 0 < len < 16 && p + len <= input.Length && p + 16 <= out.Length
    modifies out, ivec
    ensures var e := EncCipher(old(key.rdKey[..]), key.rounds);
            var c := e(Padded(old(input[p..p + len]), old(ivec[..])));
            ivec[..] == c && out[..] == old(out[..p]) + c + old(out[p + 16..])
  {
    hide EncryptBytes, XorBytes, Padded;
    var tmp := PadTail(input, p, len, ivec);
    assert tmp[0..16] == tmp[..];
    AesEncrypt(tmp, 0, tmp, 0, key);
    CopyInto(out, p, tmp[..]);
    CopyInto(ivec, 0, tmp[..]);
  }

  lemma BlockFits(length: nat, p: nat)
    requires p % 16 == 0 && p < length
    ensures p + 16 <= RoundedUp(length)
  {
  }

  /** What the encryption loop has done after `p` bytes: `done` is in place,
      the rest of input and output is untouched, and encrypting the rest with
      the current chaining value completes the result. */
  ghost predicate EncProgress(e: Cipher, iv: Block, data: seq<byte>, length: nat, orig: seq<byte>,
                              p: nat, done: seq<byte>, ivNow: Block, inNow: seq<byte>, outNow: seq<byte>)
  {
    p % 16 == 0 && p <= length <= |data| == |inNow| && |done| == p <= |orig|
    && inNow[p..] == data[p..] && outNow == done + orig[p..]
    && var r, r' := CbcEncrypt(e, iv, data[..length]), CbcEncrypt(e, ivNow, data[p..length]);
       r.0 == done + r'.0 && r.1 == r'.1
  }

  lemma EncStep(e: Cipher, iv: Block, data: seq<byte>, length: nat, orig: seq<byte>, p: nat, done: seq<byte>,
                ivNow: Block, inNow: seq<byte>, outNow: seq<byte>, c: Block, inNext: seq<byte>, outNext: seq<byte>)
    requires EncProgress(e, iv, data, length, orig, p, done, ivNow, inNow, outNow)
    requires p + 16 <= length && p + 16 <= |orig| && c == e(XorBytes(inNow[p..p + 16], ivNow))
    requires outNext == outNow[..p] + c + outNow[p + 16..]
    requires |inNext| == |inNow| && inNext[p + 16..] == inNow[p + 16..]
    ensures EncProgress(e, iv, data, length, orig, p + 16, done + c, c, inNext, outNext)
  {
    hide XorBytes, CbcEncrypt;
    Rest(inNow, data, p, 16);
    SpliceAfter(done, c, orig);
    StepEncrypt(e, ivNow, data[..length], p, done);
    assert data[..length][p..] == data[p..length] && data[..length][p..p + 16] == data[p..p + 16];
    assert data[..length][p + 16..] == data[p + 16..length];
  }

  /** The outcome of encryption: final chaining value and output buffer. */
  ghost predicate Encrypted(e: Cipher, iv: Block, data: seq<byte>, orig: seq<byte>, ivNow: seq<byte>,
                            outNow: seq<byte>) {
    var r := CbcEncrypt(e, iv, data);
    ivNow == r.1 && |r.0| <= |orig| && outNow == r.0 + orig[|r.0|..]
  }

  lemma EncEnd(e: Cipher, iv: Block, data: seq<byte>, length: nat, orig: seq<byte>,
               p: nat, done: seq<byte>, ivNow: Block, inNow: seq<byte>, outNow: seq<byte>)
    requires EncProgress(e, iv, data, length, orig, p, done, ivNow, inNow, outNow) && p == length
    ensures Encrypted(e, iv, data[..length], orig, ivNow, outNow)
  {
    LastEncrypt(e, ivNow, data[p..length]);
    hide XorBytes, Padded, CbcEncrypt;
    assert done + [] == done;
  }

  lemma EncTailEnd(e: Cipher, iv: Block, data: seq<byte>, length: nat, orig: seq<byte>, p: nat, done: seq<byte>,
                   ivNow: Block, inNow: seq<byte>, outNow: seq<byte>, c: Block, outNext: seq<byte>)
    requires EncProgress(e, iv, data, length, orig, p, done, ivNow, inNow, outNow)
    requires 0 < length - p < 16 && p + 16 <= |orig| && c == e(Padded(inNow[p..length], ivNow))
    requires outNext == outNow[..p] + c + outNow[p + 16..]
    ensures Encrypted(e, iv, data[..length], orig, c, outNext)
  {
    hide XorBytes, Padded, CbcEncrypt;
    LastEncrypt(e, ivNow, data[p..length]);
    Rest(inNow, data, p, length - p);
    SpliceAfter(done, c, orig);
  }

  /** `AES_cbc_encrypt` with `enc` set. */
  method AesCbcEncrypt(input: array<byte>, out: array<byte>, length: nat, key: AesKey, ivec: array<byte>)
    requires Usable(key) && Separate(input, out, key, ivec)
    requires input.Length >= length && out.Length >= RoundedUp(length)
    modifies out, ivec
    ensures Encrypted(EncCipher(old(key.rdKey[..]), key.rounds), old(ivec[..]), old(input[..])[..length],
                      old(out[..]), ivec[..], out[..])
  {
    hide EncCipher, XorBytes, CbcEncrypt, Padded, EncProgress, Encrypted, RoundedUp;
    ghost var e := EncCipher(key.rdKey[..], key.rounds);
    ghost var iv: Block := ivec[..];
    ghost var data, orig, done := input[..], out[..], [];
    EncStart(e, iv, data, length, orig);
    var len, p := length, 0;
    while len >= 16
      invariant 0 <= p && p + len == length && len >= 0 && p % 16 == 0 && key.rdKey[..] == old(key.rdKey[..])
      invariant EncProgress(e, iv, data, length, orig, p, done, ivec[..], input[..], out[..])
    {
      ghost var ivNow: Block, inNow, outNow := ivec[..], input[..], out[..];
      BlockFits(length, p);
      EncryptOne(input, out, p, key, ivec);
      EncStep(e, iv, data, length, orig, p, done, ivNow, inNow, outNow, ivec[..], input[..], out[..]);
      done := done + ivec[..];
      len := len - 16;
      p := p + 16;
    }
    ghost var ivNow: Block, inNow, outNow := ivec[..], input[..], out[..];
    if len != 0 {
      BlockFits(length, p);
      EncryptTail(input, out, p, len, key, ivec);
      EncTailEnd(e, iv, data, length, orig, p, done, ivNow, inNow, outNow, ivec[..], out[..]);
    } else {
      EncEnd(e, iv, data, length, orig, p, done, ivNow, inNow, outNow);
    }
  }

  lemma EncStart(e: Cipher, iv: Block, data: seq<byte>, length: nat, orig: seq<byte>)
    requires length <= |data|
    ensures EncProgress(e, iv, data, length, orig, 0, [], iv, data, orig)
  {
    hide XorBytes, CbcEncrypt;
    var total := CbcEncrypt(e, iv, data[..length]);
    assert data[0..] == data && data[0..length] == data[..length] && [] + orig[0..] == orig && [] + total.0 == total.0;
  }

  lemma StepDecrypt(d: Cipher, iv: Block, length: nat, data: seq<byte>, p: nat, done: seq<byte>)
    requires p + 16 <= length && |data| >= RoundedUp(length) && p % 16 == 0
    ensures |data[p..]| >= RoundedUp(length - p) && |data[p + 16..]| >= RoundedUp(length - p - 16)
    ensures RoundedUp(length - p - 16) == RoundedUp(length - p) - 16 && RoundedUp(length - p) >= 16
    ensures var b := data[p..p + 16];
            var r, r' := CbcDecrypt(d, iv, length - p, data[p..]), CbcDecrypt(d, b, length - p - 16, data[p + 16..]);
            r.1 == r'.1 && done + r.0 == done + XorBytes(d(b), iv) + r'.0
  {
    hide XorBytes;
    assert data[p..][..16] == data[p..p + 16] && data[p..][16..] == data[p + 16..];
  }

  lemma LastDecrypt(d: Cipher, iv: Block, len: nat, data: seq<byte>)
    requires len < 16 && |data| >= RoundedUp(len)
    ensures len > 0 ==> |data| >= 16
    ensures CbcDecrypt(d, iv, len, data)
         == if len == 0 then ([], iv) else (XorBytes(d(data[..16])[..len], iv), d(data[..16]))
  {
  }

  /** One pass of the decryption loop; `out` may be `input`. */
  method DecryptOne(input: array<byte>, out: array<byte>, p: nat, key: AesKey, ivec: array<byte>)
    requires Usable(key) && Separate(input, out, key, ivec)
    requires p + 16 <= input.Length && p + 16 <= out.Length
    modifies out, ivec
    ensures var d := DecCipher(old(key.rdKey[..]), key.rounds);
            var b: Block := old(input[p..p + 16]);
            ivec[..] == b && out[..] == old(out[..p]) + XorBytes(d(b), old(ivec[..])) + old(out[p + 16..])
    ensures input[p + 16..] == old(input[p + 16..])
  {
    hide DecryptBytes, XorBytes;
    var tmp := new byte[16];
    CopyInto(tmp, 0, input[p..p + 16]);
    assert tmp[..] == input[p..p + 16];
    AesDecrypt(input, p, out, p, key);
    XorInto(out, p, out, p, ivec, 16);
    CopyInto(ivec, 0, tmp[..]);
  }

  method DecryptTail(input: array<byte>, out: array<byte>, p: nat, len: nat, key: AesKey, ivec: array<byte>)
    requires Usable(key) && Separate(input, out, key, ivec)
    requires 0 < len < 16 && p + 16 <= input.Length && p + len <= out.Length
    modifies out, ivec
    ensures var d := DecCipher(old(key.rdKey[..]), key.rounds);
            var t := d(old(input[p..p + 16]));
            ivec[..] == t && out[..] == old(out[..p]) + XorBytes(t[..len], old(ivec[..])) + old(out[p + len..])
  {
    hide DecryptBytes, XorBytes;
    var tmp := new byte[16];
    CopyInto(tmp, 0, input[p..p + 16]);
    assert tmp[0..16] == tmp[..] == input[p..p + 16];
    ghost var t := DecCipher(key.rdKey[..], key.rounds)(input[p..p + 16]);
    AesDecrypt(tmp, 0, tmp, 0, key);
    assert tmp[..] == t && tmp[0..len] == t[..len];
    XorInto(out, p, tmp, 0, ivec, len);
    CopyInto(ivec, 0, tmp[..]);
  }

  /** The same bookkeeping for the decryption loop. */
  ghost predicate DecProgress(d: Cipher, iv: Block, data: seq<byte>, length: nat, orig: seq<byte>,
                              p: nat, done: seq<byte>, ivNow: Block, inNow: seq<byte>, outNow: seq<byte>)
  {
    p % 16 == 0 && p <= length && |data| == |inNow| && |data| >= RoundedUp(length) && |done| == p <= |orig|
    && |data[p..]| >= RoundedUp(length - p)
    && inNow[p..] == data[p..] && outNow == done + orig[p..]
    && var r, r' := CbcDecrypt(d, iv, length, data), CbcDecrypt(d, ivNow, length - p, data[p..]);
       r.0 == done + r'.0 && r.1 == r'.1
  }

  lemma DecStep(d: Cipher, iv: Block, data: seq<byte>, length: nat, orig: seq<byte>, p: nat, done: seq<byte>,
                ivNow: Block, inNow: seq<byte>, outNow: seq<byte>, b: Block, inNext: seq<byte>, outNext: seq<byte>)
    requires DecProgress(d, iv, data, length, orig, p, done, ivNow, inNow, outNow)
    requires p + 16 <= length && p + 16 <= |orig| && p + 16 <= |inNow| && b == inNow[p..p + 16]
    requires outNext == outNow[..p] + XorBytes(d(b), ivNow) + outNow[p + 16..]
    requires |inNext| == |inNow| && inNext[p + 16..] == inNow[p + 16..]
    ensures DecProgress(d, iv, data, length, orig, p + 16, done + XorBytes(d(b), ivNow), b, inNext, outNext)
  {
    hide XorBytes, CbcDecrypt;
    Rest(inNow, data, p, 16);
    SpliceAfter(done, XorBytes(d(b), ivNow), orig);
    StepDecrypt(d, ivNow, length, data, p, done);
  }

  lemma DecStart(d: Cipher, iv: Block, data: seq<byte>, length: nat, orig: seq<byte>)
    requires |data| >= RoundedUp(length)
    ensures DecProgress(d, iv, data, length, orig, 0, [], iv, data, orig)
  {
    hide XorBytes, CbcDecrypt;
    var total := CbcDecrypt(d, iv, length, data);
    assert data[0..] == data && [] + orig[0..] == orig && [] + total.0 == total.0;
  }

  /** The outcome of decryption. */
  ghost predicate Decrypted(d: Cipher, iv: Block, data: seq<byte>, length: nat, orig: seq<byte>,
                            ivNow: seq<byte>, outNow: seq<byte>)
    requires |data| >= RoundedUp(length)
  {
    var r := CbcDecrypt(d, iv, length, data);
    ivNow == r.1 && length <= |orig| && outNow == r.0 + orig[length..]
  }

  lemma DecEnd(d: Cipher, iv: Block, data: seq<byte>, length: nat, orig: seq<byte>,
               p: nat, done: seq<byte>, ivNow: Block, inNow: seq<byte>, outNow: seq<byte>)
    requires DecProgress(d, iv, data, length, orig, p, done, ivNow, inNow, outNow) && p == length
    ensures Decrypted(d, iv, data, length, orig, ivNow, outNow)
  {
    LastDecrypt(d, ivNow, 0, data[p..]);
    hide XorBytes, CbcDecrypt;
    assert done + [] == done;
  }

  lemma DecTailEnd(d: Cipher, iv: Block, data: seq<byte>, length: nat, orig: seq<byte>, p: nat, done: seq<byte>,
                   ivNow: Block, inNow: seq<byte>, outNow: seq<byte>, t: Block, outNext: seq<byte>)
    requires DecProgress(d, iv, data, length, orig, p, done, ivNow, inNow, outNow)
    requires 0 < length - p < 16 && length <= |orig| && p + 16 <= |inNow| && t == d(inNow[p..p + 16])
    requires outNext == outNow[..p] + XorBytes(t[..length - p], ivNow) + outNow[length..]
    ensures Decrypted(d, iv, data, length, orig, t, outNext)
  {
    hide XorBytes, CbcDecrypt;
    LastDecrypt(d, ivNow, length - p, data[p..]);
    Rest(inNow, data, p, 16);
    assert data[p..][..16] == data[p..p + 16];
    SpliceAfter(done, XorBytes(t[..length - p], ivNow), orig);
  }

  /** `AES_cbc_encrypt` with `enc` clear. */
  method AesCbcDecrypt(input: array<byte>, out: array<byte>, length: nat, key: AesKey, ivec: array<byte>)
    requires Usable(key) && Separate(input, out, key, ivec)
    requires input.Length >= RoundedUp(length) && out.Length >= length
    modifies out, ivec
    ensures Decrypted(DecCipher(old(key.rdKey[..]), key.rounds), old(ivec[..]), old(input[..]), length,
                      old(out[..]), ivec[..], out[..])
  {
    hide DecCipher, XorBytes, CbcDecrypt, DecProgress, Decrypted, RoundedUp;
    ghost var d := DecCipher(key.rdKey[..], key.rounds);
    ghost var iv: Block := ivec[..];
    ghost var data, orig, done := input[..], out[..], [];
    DecStart(d, iv, data, length, orig);
    var len, p := length, 0;
    while len >= 16
      invariant 0 <= p && p + len == length && len >= 0 && p % 16 == 0 && key.rdKey[..] == old(key.rdKey[..])
      invariant DecProgress(d, iv, data, length, orig, p, done, ivec[..], input[..], out[..])
    {
      ghost var ivNow: Block, inNow, outNow := ivec[..], input[..], out[..];
      BlockFits(length, p);
      DecryptOne(input, out, p, key, ivec);
      DecStep(d, iv, data, length, orig, p, done, ivNow, inNow, outNow, ivec[..], input[..], out[..]);
      done := done + XorBytes(d(ivec[..]), ivNow);
      len := len - 16;
      p := p + 16;
    }
    ghost var ivNow: Block, inNow, outNow := ivec[..], input[..], out[..];
    if len != 0 {
      BlockFits(length, p);
      DecryptTail(input, out, p, len, key, ivec);
      DecTailEnd(d, iv, data, length, orig, p, done, ivNow, inNow, outNow, ivec[..], out[..]);
    } else {
      DecEnd(d, iv, data, length, orig, p, done, ivNow, inNow, outNow);
    }
  }

  lemma RoundTripBytes(e: Cipher, d: Cipher, iv: Block, plain: seq<byte>, coded: seq<byte>, back: seq<byte>,
                       last: seq<byte>, last': seq<byte>, orig: seq<byte>, orig': seq<byte>)
    requires Inverse(d, e) && |orig| == RoundedUp(|plain|) && |orig'| == |plain|
    requires Encrypted(e, iv, plain, orig, last, coded) && |coded| >= RoundedUp(|plain|)
    requires Decrypted(d, iv, coded, |plain|, orig', last', back)
    ensures back == plain
  {
    hide CbcEncrypt, CbcDecrypt;
    CbcRoundTrip(e, d, iv, plain);
    assert coded == CbcEncrypt(e, iv, plain).0;
  }

  /** Encrypting data of any length and decrypting the output with the same user
      key and initial vector returns the data. */
  method EncryptThenDecrypt(userKey: array<byte>, bits: int, data: array<byte>, iv: seq<byte>)
    returns (back: array<byte>)
    requires bits in {128, 192, 256} && 8 * userKey.Length >= bits && |iv| == 16
    ensures fresh(back) && back[..] == data[..]
  {
    hide EncCipher, DecCipher, CbcEncrypt, CbcDecrypt, Encrypted, Decrypted, Reversed, RoundedUp;
    var enc, dec := ExpandBoth(userKey, bits);
    ghost var ek, dk, plain := enc.rdKey[..], dec.rdKey[..], data[..];
    var coded := new byte[(data.Length + 15) / 16 * 16];
    back := new byte[data.Length];
    var ivec := new byte[16](i requires 0 <= i < |iv| => iv[i]);
    var ivec2 := new byte[16](i requires 0 <= i < |iv| => iv[i]);
    ghost var orig, orig' := coded[..], back[..];
    assert ivec[..] == iv && ivec2[..] == iv;
    Rounded(data.Length);
    AesCbcEncrypt(data, coded, data.Length, enc, ivec);
    assert plain[..data.Length] == plain && dec.rdKey[..] == dk && ivec2[..] == iv && back[..] == orig';
    ghost var secret, last := coded[..], ivec[..];
    AesCbcDecrypt(coded, back, data.Length, dec, ivec2);
    CiphersInverse(ek, dk, enc.rounds);
    RoundTripBytes(EncCipher(ek, enc.rounds), DecCipher(dk, enc.rounds), iv, plain, secret, back[..],
                   last, ivec2[..], orig, orig');
  }

  lemma Rounded(n: nat)
    ensures RoundedUp(n) == (n + 15) / 16 * 16
  {
  }
}
