/** Cipher block chaining (aes.c, `AES_cbc_encrypt`), for any block cipher. */
module Cbc {
  import opened Bytes
  import opened AesBytes

  type Block = b: seq<byte> | |b| == 16 witness seq(16, _ => 0)

  type Cipher = Block -> Block

  function XorBytes(a: seq<byte>, b: seq<byte>): (r: seq<byte>)
    requires |a| <= |b|
    ensures |r| == |a|
  {
    seq(|a|, i requires 0 <= i < |a| => Xor(a[i], b[i]))
  }

  /** The block that carries a short tail: behind it the chaining value shows. */
  function Padded(tail: seq<byte>, iv: Block): Block
    requires |tail| <= 16
  {
    XorBytes(tail, iv) + iv[|tail|..]
  }

  /** Output and final chaining value of encryption. */
  function CbcEncrypt(e: Cipher, iv: Block, data: seq<byte>): (r: (seq<byte>, Block))
    ensures |r.0| == RoundedUp(|data|)
    decreases |data|
  {
    if |data| >= 16 then
      var c := e(XorBytes(data[..16], iv));
      var (rest, last) := CbcEncrypt(e, c, data[16..]);
      (c + rest, last)
    else if |data| > 0 then
      var c := e(Padded(data, iv));
      (c, c)
    else ([], iv)
  }

  /** Output and final chaining value of decryption to `length` bytes. */
  function CbcDecrypt(d: Cipher, iv: Block, length: nat, data: seq<byte>): (r: (seq<byte>, Block))
    requires |data| >= RoundedUp(length)
    ensures |r.0| == length
    decreases length
  {
    if length >= 16 then
      var p := XorBytes(d(data[..16]), iv);
      var (rest, last) := CbcDecrypt(d, data[..16], length - 16, data[16..]);
      (p + rest, last)
    else if length > 0 then
      var t := d(data[..16]);
      (XorBytes(t[..length], iv), t)
    else ([], iv)
  }

  function RoundedUp(length: nat): nat { (length + 15) / 16 * 16 }

  ghost predicate Inverse(d: Cipher, e: Cipher) { forall b :: d(e(b)) == b }

  lemma XorTwice(a: seq<byte>, b: seq<byte>)
    requires |a| <= |b|
    ensures XorBytes(XorBytes(a, b), b) == a
  {
    forall i | 0 <= i < |a| ensures XorBytes(XorBytes(a, b), b)[i] == a[i] {
      XorCancel(a[i], b[i]);
    }
  }

  lemma UnpadTail(tail: seq<byte>, iv: Block)
    requires |tail| <= 16
    ensures XorBytes(Padded(tail, iv)[..|tail|], iv) == tail
  {
    assert Padded(tail, iv)[..|tail|] == XorBytes(tail, iv);
    XorTwice(tail, iv);
  }

  /** Decryption returns the original bytes, at any length. */
  lemma {:induction false} CbcRoundTrip(e: Cipher, d: Cipher, iv: Block, data: seq<byte>)
    requires Inverse(d, e)
    ensures CbcDecrypt(d, iv, |data|, CbcEncrypt(e, iv, data).0).0 == data
    decreases |data|
  {
    hide XorBytes;
    var (out, last) := CbcEncrypt(e, iv, data);
    if |data| >= 16 {
      var x := XorBytes(data[..16], iv);
      assert out[..16] == e(x) && d(e(x)) == x;
      assert out[16..] == CbcEncrypt(e, e(x), data[16..]).0;
      XorTwice(data[..16], iv);
      CbcRoundTrip(e, d, e(x), data[16..]);
      assert data == data[..16] + data[16..];
    } else if |data| > 0 {
      assert out[..16] == e(Padded(data, iv)) && d(e(Padded(data, iv))) == Padded(data, iv);
      UnpadTail(data, iv);
    }
  }

  lemma Shifted(a: seq<byte>, b: seq<byte>, lo: nat, hi: nat)
    requires lo <= hi <= |b|
    ensures (a + b)[|a| + lo..|a| + hi] == b[lo..hi]
  {
  }

  lemma FirstBlock(e: Cipher, iv: Block, data: seq<byte>)
    requires |data| >= 16
    ensures var c := e(XorBytes(data[..16], iv));
            CbcEncrypt(e, iv, data).0 == c + CbcEncrypt(e, c, data[16..]).0
            && CbcEncrypt(e, iv, data).1 == CbcEncrypt(e, c, data[16..]).1
  {
  }

  /** Whole blocks chain as section 6.2 of NIST SP 800-38A says. */
  lemma {:induction false} CbcChains(e: Cipher, iv: Block, data: seq<byte>, j: nat)
    requires 16 * j + 16 <= |data|
    ensures var out := CbcEncrypt(e, iv, data).0;
            var previous := if j == 0 then iv else out[16 * j - 16..16 * j];
            out[16 * j..16 * j + 16] == e(XorBytes(data[16 * j..16 * j + 16], previous))
    decreases j
  {
    hide XorBytes, CbcEncrypt;
    FirstBlock(e, iv, data);
    var c := e(XorBytes(data[..16], iv));
    var rest: seq<byte> := CbcEncrypt(e, c, data[16..]).0;
    if j == 0 {
      assert (c + rest)[0..16] == c && data[0..16] == data[..16];
    } else {
      var k := j - 1;
      CbcChains(e, c, data[16..], k);
      Shifted(c, rest, 16 * k, 16 * k + 16);
      assert data == data[..16] + data[16..];
      Shifted(data[..16], data[16..], 16 * k, 16 * k + 16);
      if k == 0 {
        assert (c + rest)[0..16] == c;
      } else {
        Shifted(c, rest, 16 * k - 16, 16 * k);
      }
    }
  }

  /** Encrypting block-aligned pieces with the carried chaining value is the
      same as one call. */
  lemma {:induction false} CbcEncryptPieces(e: Cipher, iv: Block, a: seq<byte>, b: seq<byte>)
    requires |a| % 16 == 0
    ensures var (outA, ivA) := CbcEncrypt(e, iv, a);
            var (outB, ivB) := CbcEncrypt(e, ivA, b);
            CbcEncrypt(e, iv, a + b) == (outA + outB, ivB)
    decreases |a|
  {
    hide XorBytes, CbcEncrypt, RoundedUp;
    if a == [] {
      assert a + b == b;
      NothingEncrypted(e, iv);
      assert [] + CbcEncrypt(e, iv, b).0 == CbcEncrypt(e, iv, b).0;
    } else {
      var c := e(XorBytes(a[..16], iv));
      CbcEncryptPieces(e, c, a[16..], b);
      CbcEncryptStep(e, iv, a);
      assert (a + b)[..16] == a[..16] && (a + b)[16..] == a[16..] + b;
      CbcEncryptStep(e, iv, a + b);
      var (restA, ivA) := CbcEncrypt(e, c, a[16..]);
      Associate(c, restA, CbcEncrypt(e, ivA, b).0);
    }
  }

  lemma NothingEncrypted(e: Cipher, iv: Block)
    ensures CbcEncrypt(e, iv, []) == ([], iv)
  {
  }

  lemma Associate(a: seq<byte>, b: seq<byte>, c: seq<byte>)
    ensures (a + b) + c == a + (b + c)
  {
  }

  /** One whole block of the encryption. */
  lemma CbcEncryptStep(e: Cipher, iv: Block, data: seq<byte>)
    requires |data| >= 16
    ensures var c := e(XorBytes(data[..16], iv));
            var (rest, last) := CbcEncrypt(e, c, data[16..]);
            CbcEncrypt(e, iv, data) == (c + rest, last)
  {
  }

  lemma {:induction false} CbcDecryptPieces(d: Cipher, iv: Block, a: seq<byte>, b: seq<byte>, length: nat)
    requires |a| % 16 == 0 && |b| >= RoundedUp(length)
    ensures var (outA, ivA) := CbcDecrypt(d, iv, |a|, a);
            var (outB, ivB) := CbcDecrypt(d, ivA, length, b);
            CbcDecrypt(d, iv, |a| + length, a + b) == (outA + outB, ivB)
    decreases |a|
  {
    hide XorBytes;
    if a == [] {
      assert a + b == b;
      assert [] + CbcDecrypt(d, iv, length, b).0 == CbcDecrypt(d, iv, length, b).0;
    } else {
      assert (a + b)[..16] == a[..16] && (a + b)[16..] == a[16..] + b;
      var p := XorBytes(d(a[..16]), iv);
      CbcDecryptPieces(d, a[..16], a[16..], b, length);
      var (restA, ivA) := CbcDecrypt(d, a[..16], |a| - 16, a[16..]);
      var (outB, ivB) := CbcDecrypt(d, ivA, length, b);
      assert p + (restA + outB) == (p + restA) + outB;
    }
  }

  // ---- Short tails and chaining values, without the functions above ----

  /** A short tail is encrypted as if zeros followed it. */
  lemma {:induction false} TailIsZeroPadded(e: Cipher, iv: Block, data: seq<byte>)
    ensures CbcEncrypt(e, iv, data) == CbcEncrypt(e, iv, data + Zeros(RoundedUp(|data|) - |data|))
    decreases |data|
  {
    hide XorBytes;
    var zeros := Zeros(RoundedUp(|data|) - |data|);
    if |data| >= 16 {
      TailIsZeroPadded(e, e(XorBytes(data[..16], iv)), data[16..]);
      assert (data + zeros)[..16] == data[..16] && (data + zeros)[16..] == data[16..] + zeros;
    } else if data == [] {
      assert data + zeros == data;
    } else {
      PaddedIsZeroPadded(data, iv);
      assert (data + zeros)[..16] == data + zeros && (data + zeros)[16..] == [];
      var c := e(Padded(data, iv));
      assert c + [] == c;
    }
  }

  lemma PaddedIsZeroPadded(tail: seq<byte>, iv: Block)
    requires |tail| <= 16
    ensures Padded(tail, iv) == XorBytes(tail + Zeros(16 - |tail|), iv)
  {
    forall i | |tail| <= i < 16 ensures Xor(0, iv[i]) == iv[i] {
      XorCancel(iv[i], 0);
    }
    hide Xor;
  }

  /** Encryption leaves the last block that it wrote. */
  lemma {:induction false} EncryptLeavesLast(e: Cipher, iv: Block, data: seq<byte>)
    ensures var (out, last) := CbcEncrypt(e, iv, data);
            last == if data == [] then iv else out[|out| - 16..]
    decreases |data|
  {
    hide XorBytes;
    if |data| >= 16 {
      var c := e(XorBytes(data[..16], iv));
      EncryptLeavesLast(e, c, data[16..]);
      var rest: seq<byte> := CbcEncrypt(e, c, data[16..]).0;
      if |data| == 16 {
        assert (c + rest)[|c + rest| - 16..] == c;
      } else {
        assert (c + rest)[|c + rest| - 16..] == rest[|rest| - 16..];
      }
    }
  }

  /** One whole block of the decryption. */
  lemma CbcDecryptStep(d: Cipher, iv: Block, length: nat, data: seq<byte>)
    requires |data| >= RoundedUp(length) && length >= 16
    ensures RoundedUp(length) == RoundedUp(length - 16) + 16
    ensures var (rest, last) := CbcDecrypt(d, data[..16], length - 16, data[16..]);
            CbcDecrypt(d, iv, length, data) == (XorBytes(d(data[..16]), iv) + rest, last)
  {
  }

  lemma FirstDecrypted(d: Cipher, iv: Block, length: nat, data: seq<byte>, b: nat)
    requires |data| >= RoundedUp(length) && b < 16 && b < length
    ensures CbcDecrypt(d, iv, length, data).0[b] == Xor(d(data[..16])[b], iv[b])
  {
    hide Xor;
  }

  lemma ByteAfterBlock(d: Cipher, iv: Block, length: nat, data: seq<byte>, i: nat)
    requires |data| >= RoundedUp(length) && 16 <= i < length
    ensures RoundedUp(length - 16) <= |data| - 16
    ensures CbcDecrypt(d, iv, length, data).0[i] == CbcDecrypt(d, data[..16], length - 16, data[16..]).0[i - 16]
  {
    CbcDecryptStep(d, iv, length, data);
    hide CbcDecrypt, XorBytes, RoundedUp;
  }

  lemma BlockInside(length: nat, j: nat, b: nat)
    requires b < 16 && 16 * j + b < length
    ensures 16 * j + 16 <= RoundedUp(length)
  {
  }

  /** Byte `b` of block `j` of the decryption, at any length: the decrypted byte
      combined with that of the block before. */
  lemma {:induction false} CbcDecryptChains(d: Cipher, iv: Block, length: nat, data: seq<byte>, j: nat, b: nat)
    requires |data| >= RoundedUp(length) && b < 16 && 16 * j + b < length
    ensures 16 * j + 16 <= RoundedUp(length)
    ensures var previous := if j == 0 then iv else data[16 * j - 16..16 * j];
            CbcDecrypt(d, iv, length, data).0[16 * j + b] == Xor(d(data[16 * j..16 * j + 16])[b], previous[b])
    decreases j
  {
    hide CbcDecrypt, Xor, RoundedUp;
    BlockInside(length, j, b);
    if j == 0 {
      assert data[0..16] == data[..16];
      FirstDecrypted(d, iv, length, data, b);
    } else {
      ByteAfterBlock(d, iv, length, data, 16 * j + b);
      var k, rest := j - 1, data[16..];
      CbcDecryptChains(d, data[..16], length - 16, rest, k, b);
      assert data == data[..16] + rest;
      Shifted(data[..16], rest, 16 * k, 16 * k + 16);
      if k > 0 {
        Shifted(data[..16], rest, 16 * k - 16, 16 * k);
      } else {
        assert data[0..16] == data[..16];
      }
    }
  }

  lemma LastDecrypted(d: Cipher, iv: Block, length: nat, data: seq<byte>)
    requires |data| >= RoundedUp(length) && length < 16
    ensures CbcDecrypt(d, iv, length, data).1 == if length == 0 then iv else d(data[..16])
    ensures RoundedUp(length) == if length == 0 then 0 else 16
  {
    hide XorBytes;
  }

  lemma BlocksFit(j: nat, r: nat)
    requires r < 16
    ensures RoundedUp(16 * j + r) == 16 * j + if r == 0 then 0 else 16
  {
  }

  lemma LastAfterBlock(d: Cipher, iv: Block, j: nat, r: nat, data: seq<byte>)
    requires r < 16 && j > 0 && |data| >= 16 * j + if r == 0 then 0 else 16
    ensures RoundedUp(16 * j + r) <= |data| && RoundedUp(16 * (j - 1) + r) <= |data| - 16
    ensures CbcDecrypt(d, iv, 16 * j + r, data).1 == CbcDecrypt(d, data[..16], 16 * (j - 1) + r, data[16..]).1
  {
    BlocksFit(j, r);
    BlocksFit(j - 1, r);
    hide RoundedUp, CbcDecrypt, XorBytes;
    CbcDecryptStep(d, iv, 16 * j + r, data);
    assert 16 * j + r - 16 == 16 * (j - 1) + r;
  }

  /** Decryption of `j` blocks and `r` more bytes leaves the last block that it
      read, or the block of a short tail decrypted. */
  lemma {:induction false} DecryptLeavesLast(d: Cipher, iv: Block, j: nat, r: nat, data: seq<byte>)
    requires r < 16 && |data| >= 16 * j + if r == 0 then 0 else 16
    ensures RoundedUp(16 * j + r) <= |data|
    ensures CbcDecrypt(d, iv, 16 * j + r, data).1
         == if r > 0 then d(data[16 * j..16 * j + 16]) else if j > 0 then data[16 * j - 16..16 * j] else iv
    decreases j
  {
    BlocksFit(j, r);
    hide RoundedUp;
    if j == 0 {
      LastDecrypted(d, iv, r, data);
      assert r > 0 ==> data[0..16] == data[..16];
    } else {
      hide CbcDecrypt;
      LastAfterBlock(d, iv, j, r, data);
      var k, rest := j - 1, data[16..];
      DecryptLeavesLast(d, data[..16], k, r, rest);
      assert data == data[..16] + rest;
      if r > 0 {
        Shifted(data[..16], rest, 16 * k, 16 * k + 16);
      } else if k > 0 {
        Shifted(data[..16], rest, 16 * k - 16, 16 * k);
      } else {
        assert data[0..16] == data[..16];
      }
    }
  }

  /** Decrypting what was encrypted leaves the chaining value of encryption. */
  ghost predicate SameIvec(e: Cipher, d: Cipher, iv: Block, data: seq<byte>) {
    CbcDecrypt(d, iv, |data|, CbcEncrypt(e, iv, data).0).1 == CbcEncrypt(e, iv, data).1
  }

  /** Whole blocks do not matter for whether the two values agree. */
  lemma SameIvecStep(e: Cipher, d: Cipher, iv: Block, data: seq<byte>)
    requires Inverse(d, e) && |data| >= 16
    ensures SameIvec(e, d, iv, data) <==> SameIvec(e, d, e(XorBytes(data[..16], iv)), data[16..])
  {
    hide XorBytes;
    var c := e(XorBytes(data[..16], iv));
    var out := CbcEncrypt(e, iv, data).0;
    assert out[..16] == c && out[16..] == CbcEncrypt(e, c, data[16..]).0;
  }

  lemma SameIvecShort(e: Cipher, d: Cipher, iv: Block, data: seq<byte>)
    requires Inverse(d, e) && 0 < |data| < 16
    ensures SameIvec(e, d, iv, data) <==> e(Padded(data, iv)) == Padded(data, iv)
  {
    var x := Padded(data, iv);
    assert CbcEncrypt(e, iv, data).0[..16] == e(x) && d(e(x)) == x;
  }

  ghost predicate ChangesNothing(e: Cipher) { forall b :: e(b) == b }

  lemma {:induction false} IvecAgrees(e: Cipher, d: Cipher, iv: Block, data: seq<byte>)
    requires Inverse(d, e) && (|data| % 16 == 0 || ChangesNothing(e))
    ensures SameIvec(e, d, iv, data)
    decreases |data|
  {
    if data == [] {
    } else if |data| < 16 {
      SameIvecShort(e, d, iv, data);
    } else {
      IvecAgrees(e, d, e(XorBytes(data[..16], iv)), data[16..]);
      SameIvecStep(e, d, iv, data);
    }
  }

  function Zeros(n: nat): seq<byte> { seq(n, _ => 0) }

  lemma ZerosXor(n: nat, b: Block)
    requires n <= 16
    ensures XorBytes(Zeros(n), b) == b[..n]
  {
    forall i | 0 <= i < n ensures Xor(Zeros(n)[i], b[i]) == b[i] {
      XorCancel(b[i], 0);
    }
  }

  /** It does go wrong at every length with a short tail: zeros under an initial
      vector that the cipher changes leave two different chaining values. */
  lemma {:induction false} ShortTailLeavesOtherIvec(e: Cipher, d: Cipher, b: Block, n: nat)
    requires Inverse(d, e) && e(b) != b && n % 16 != 0
    ensures !SameIvec(e, d, b, Zeros(n))
    decreases n
  {
    if n < 16 {
      ZerosXor(n, b);
      assert Padded(Zeros(n), b) == b;
      SameIvecShort(e, d, b, Zeros(n));
    } else {
      assert Zeros(n)[..16] == Zeros(16) && Zeros(n)[16..] == Zeros(n - 16);
      ZerosXor(16, b);
      assert b[..16] == b && d(e(e(b))) == e(b) && d(e(b)) == b;
      ShortTailLeavesOtherIvec(e, d, e(b), n - 16);
      SameIvecStep(e, d, b, Zeros(n));
    }
  }

  /** For a pair of inverse ciphers and a length: both directions leave the same
      chaining value for all data and initial vectors, exactly if the length is a
      multiple of 16 or the cipher changes nothing.  With a short tail,
      decryption keeps the decrypted block where encryption keeps the encrypted
      one. */
  lemma SameIvecIff(e: Cipher, d: Cipher, n: nat)
    requires Inverse(d, e)
    ensures (forall iv, data :: |data| == n ==> SameIvec(e, d, iv, data)) <==> n % 16 == 0 || ChangesNothing(e)
  {
    if n % 16 == 0 || ChangesNothing(e) {
      forall iv, data | |data| == n ensures SameIvec(e, d, iv, data) {
        IvecAgrees(e, d, iv, data);
      }
    } else {
      var b :| e(b) != b;
      ShortTailLeavesOtherIvec(e, d, b, n);
      assert |Zeros(n)| == n && !SameIvec(e, d, b, Zeros(n));
    }
  }
}
