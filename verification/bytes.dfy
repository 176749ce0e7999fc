/** Bytes of memory, and copying them. */
module Bytes {
  type byte = bv8

  /** `s` with `data` copied to position `at`. */
  function Patch(s: seq<byte>, at: nat, data: seq<byte>): seq<byte>
    requires at + |data| <= |s|
  {
    s[..at] + data + s[at + |data|..]
  }

  /** memcpy(buf + at, src, |src|) */
  method CopyInto(buf: array<byte>, at: nat, src: seq<byte>)
    requires at + |src| <= buf.Length
    modifies buf
    ensures buf[..] == Patch(old(buf[..]), at, src)
  {
    forall k | 0 <= k < |src| {
      buf[at + k] := src[k];
    }
  }

  /** Copying piece after piece to the start of a buffer. */
  lemma SpliceAfter(done: seq<byte>, next: seq<byte>, orig: seq<byte>)
    requires |done| + |next| <= |orig|
    ensures var before := done + orig[|done|..];
            before[..|done|] + next + before[|done| + |next|..] == (done + next) + orig[|done + next|..]
  {
  }
}
