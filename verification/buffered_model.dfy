/** The buffered migration stream (buffered_file.c), as functions on values. */
module BufferedModel {
  import opened Bytes

  const EAGAIN := 11
  const EINVAL := 22

  /** `sent` is what the backend has accepted, `pending` the used part of the
      buffer.  The backend answers its calls from `replies`; when they are used
      up it fails, so that every finite behaviour of a backend is covered. */
  datatype Stream = Stream(error: bool, frozen: bool, xfer: nat, limit: nat,
                           pending: seq<byte>, sent: seq<byte>, replies: seq<int>)

  /** One call of the backend's `put_buffer`: its result and the effect. */
  function Ask(s: Stream, data: seq<byte>): (r: (int, Stream))
    ensures r.0 <= |data| && |r.1.replies| <= |s.replies|
  {
    if s.replies == [] then (-1, s)
    else
      var ret := if s.replies[0] > |data| then |data| else s.replies[0];
      (ret, s.(replies := s.replies[1..], sent := s.sent + if ret > 0 then data[..ret] else []))
  }

  /** The loop of `buffered_flush`: what it sent ends at the offset. */
  function FlushFrom(s: Stream, offset: nat): (r: (Stream, nat))
    requires offset <= |s.pending|
    ensures offset <= r.1 <= |s.pending| && r.0.pending == s.pending && |r.0.replies| <= |s.replies|
    decreases |s.pending| - offset
  {
    if offset == |s.pending| then (s, offset)
    else
      var (ret, t) := Ask(s, s.pending[offset..]);
      if ret == -EAGAIN then (t.(frozen := true), offset)
      else if ret <= 0 then (t.(error := true), offset)
      else FlushFrom(t, offset + ret)
  }

  /** `buffered_flush`. */
  function Flush(s: Stream): Stream {
    if s.error then s
    else
      var (t, offset) := FlushFrom(s, 0);
      t.(pending := t.pending[offset..])
  }

  /** The loop of `buffered_put_buffer` that passes data on directly. */
  function Direct(s: Stream, buf: seq<byte>, offset: nat): (r: (Stream, int))
    requires offset <= |buf|
    ensures r.1 == -EINVAL || offset <= r.1 <= |buf|
    decreases |buf| - offset
  {
    if s.frozen || offset == |buf| || s.xfer > s.limit then (s, offset)
    else
      var (ret, t) := Ask(s, buf[offset..]);
      if ret == -EAGAIN then (t.(frozen := true), offset)
      else if ret <= 0 then (t.(error := true), -EINVAL)
      else Direct(t.(xfer := t.xfer + ret), buf, offset + ret)
  }

  /** `buffered_put_buffer`: the new state and the result. */
  function Put(s: Stream, buf: seq<byte>): (Stream, int) {
    if s.error then (s, -EINVAL)
    else
      var (u, offset) := Direct(Flush(s.(frozen := false)), buf, 0);
      if offset >= 0 then (u.(pending := u.pending + buf[offset..]), |buf|) else (u, offset)
  }

  /** The loop of `buffered_close`: flush until nothing is left or it fails. */
  function Drain(s: Stream): Stream
    decreases |s.replies|, if s.error then 0 else 1
  {
    if s.error || s.pending == [] then s
    else
      FlushAsks(s);
      Drain(Flush(s))
  }

  /** Flushing a buffer that is not empty uses an answer of the backend. */
  lemma FlushAsks(s: Stream)
    requires !s.error && s.pending != []
    ensures |Flush(s).replies| < |s.replies| || (|Flush(s).replies| == |s.replies| && Flush(s).error)
  {
  }

  /** `buffered_rate_tick`. */
  function Tick(s: Stream): Stream {
    if s.error then Drain(s) else if s.frozen then s else Flush(s.(xfer := 0))
  }

  /** `buffered_set_rate_limit`. */
  function SetRate(s: Stream, rate: nat): Stream {
    if s.error then s else s.(limit := rate / 10)
  }

  datatype Op = DoPut(buf: seq<byte>) | DoTick | DoSetRate(rate: nat)

  function Do(s: Stream, op: Op): Stream {
    match op
    case DoPut(buf) => Put(s, buf).0
    case DoTick => Tick(s)
    case DoSetRate(rate) => SetRate(s, rate)
  }

  function Run(s: Stream, ops: seq<Op>): Stream
    decreases |ops|
  {
    if ops == [] then s else Run(Do(s, ops[0]), ops[1..])
  }

  /** All bytes put, in order. */
  function AllPut(ops: seq<Op>): seq<byte> {
    if ops == [] then [] else (if ops[0].DoPut? then ops[0].buf else []) + AllPut(ops[1..])
  }

  // ---- Conservation ----

  /** What a stream stands for: the bytes on their way, in order. */
  function Total(s: Stream): seq<byte> { s.sent + s.pending }

  lemma AskEffect(s: Stream, data: seq<byte>)
    ensures var (ret, t) := Ask(s, data);
            && (ret > 0 ==> ret <= |data| && t.sent == s.sent + data[..ret])
            && (ret <= 0 ==> t.sent == s.sent)
            && t.error == s.error && t.frozen == s.frozen && t.xfer == s.xfer && t.limit == s.limit
            && t.pending == s.pending
  {
  }

  lemma SliceOfTail(s: seq<byte>, i: nat, n: nat)
    requires i + n <= |s|
    ensures s[i..][..n] == s[i..i + n]
  {
  }

  lemma {:induction false} FlushFromSends(s: Stream, offset: nat)
    requires offset <= |s.pending|
    ensures var (t, end) := FlushFrom(s, offset);
            && t.sent == s.sent + s.pending[offset..end]
            && t.xfer == s.xfer && t.limit == s.limit
            && (s.error ==> t.error) && (s.frozen ==> t.frozen)
            && (!t.error && !t.frozen ==> end == |s.pending|)
            && (t.error && !s.error ==> end < |s.pending| && t.frozen == s.frozen)
    decreases |s.pending| - offset
  {
    if offset < |s.pending| {
      var (ret, t) := Ask(s, s.pending[offset..]);
      AskEffect(s, s.pending[offset..]);
      hide Ask;
      if ret > 0 {
        FlushFromSends(t, offset + ret);
        SliceOfTail(s.pending, offset, ret);
        var end := FlushFrom(t, offset + ret).1;
        JoinSlices(s.sent, s.pending, offset, offset + ret, end);
      } else {
        assert s.pending[offset..offset] == [];
      }
    } else {
      assert s.pending[offset..offset] == [];
    }
  }

  lemma JoinSlices(sent: seq<byte>, s: seq<byte>, a: nat, b: nat, c: nat)
    requires a <= b <= c <= |s|
    ensures sent + s[a..b] + s[b..c] == sent + s[a..c]
  {
    assert s[a..b] + s[b..c] == s[a..c];
  }

  /** Flushing never loses, repeats or reorders a byte, even when it fails; and
      unless it fails or freezes the stream it empties the buffer. */
  lemma FlushConserves(s: Stream)
    ensures var t := Flush(s);
            && Total(t) == Total(s) && s.sent <= t.sent
            && (!t.error && !t.frozen ==> t.pending == [])
            && (s.error ==> t.error)
  {
    if !s.error {
      FlushFromSends(s, 0);
      var (t, end) := FlushFrom(s, 0);
      hide FlushFrom;
      CutStream(s.sent, s.pending, end);
    }
  }

  lemma CutStream(sent: seq<byte>, s: seq<byte>, n: nat)
    requires n <= |s|
    ensures sent + s[0..n] + s[n..] == sent + s && sent <= sent + s[0..n] && s[|s|..] == []
  {
    JoinSlices(sent, s, 0, n, |s|);
    assert s[n..] == s[n..|s|] && s[0..|s|] == s;
  }

  lemma {:induction false} DirectSends(s: Stream, buf: seq<byte>, offset: nat)
    requires offset <= |buf|
    ensures var (t, end) := Direct(s, buf, offset);
            && t.pending == s.pending && (s.error ==> t.error)
            && (end < 0 ==> t.error)
            && (end >= 0 ==> t.error == s.error && t.sent == s.sent + buf[offset..end])
            && (s.frozen ==> t == s)
    decreases |buf| - offset
  {
    if !(s.frozen || offset == |buf| || s.xfer > s.limit) {
      var (ret, t) := Ask(s, buf[offset..]);
      AskEffect(s, buf[offset..]);
      hide Ask;
      if ret > 0 {
        DirectSends(t.(xfer := t.xfer + ret), buf, offset + ret);
        SliceOfTail(buf, offset, ret);
        var end := Direct(t.(xfer := t.xfer + ret), buf, offset + ret).1;
        if end >= 0 {
          JoinSlices(s.sent, buf, offset, offset + ret, end);
        }
      } else {
        assert buf[offset..offset] == [];
      }
    } else {
      assert buf[offset..offset] == [];
    }
  }

  /** Whatever is sent directly is a prefix of the data, even on failure. */
  lemma {:induction false} DirectPrefix(s: Stream, buf: seq<byte>, offset: nat)
    requires offset <= |buf|
    ensures s.sent <= Direct(s, buf, offset).0.sent <= s.sent + buf[offset..]
    decreases |buf| - offset
  {
    if s.frozen || offset == |buf| || s.xfer > s.limit {
    } else {
      var (ret, t) := Ask(s, buf[offset..]);
      AskEffect(s, buf[offset..]);
      hide Ask;
      if ret > 0 {
        DirectPrefix(t.(xfer := t.xfer + ret), buf, offset + ret);
        assert s.sent + buf[offset..][..ret] + buf[offset + ret..] == s.sent + buf[offset..];
      }
    }
  }

  /** The direct path only sends past an empty buffer, unless the flush before
      it has failed. */
  lemma DirectOnlyWhenEmpty(s: Stream, buf: seq<byte>)
    requires !s.error
    ensures var t := Flush(s.(frozen := false));
            t.pending == [] || t.error || Direct(t, buf, 0) == (t, 0)
  {
    FlushConserves(s.(frozen := false));
    DirectSends(Flush(s.(frozen := false)), buf, 0);
  }

  /** A put whose flush fails may overtake what is pending: the call reports
      success, and the stream holds the byte 2 where 1 should be. */
  lemma FailedFlushIsOvertaken()
    ensures var s := Stream(false, false, 0, 10, [1], [], [0, 1]);
            var (t, ret) := Put(s, [2]);
            ret == 1 && t.sent == [2] && t.pending == [1] && t.error
  {
    var one: seq<byte>, two: seq<byte> := [1], [2];
    var s := Stream(false, false, 0, 10, one, [], [0, 1]);
    var t := s.(replies := [1], error := true);
    assert s.replies[1..] == [1] && FlushFrom(s, 0) == (t, 0);
    assert one[0..] == one && Flush(s) == t;
    var u := t.(replies := [], sent := two, xfer := 1);
    assert two[0..] == two && two[..1] == two && [] + two == two && t.replies[1..] == [];
    assert Ask(t, two) == (1, u.(xfer := 0));
    assert Direct(u, two, 1) == (u, 1) && Direct(t, two, 0) == (u, 1);
    assert two[1..] == [] && one + [] == one;
  }

  /** The guards that let a put overtake what is pending: the flush before it
      fails, there is something to put, the rate limit is not exceeded, and the
      backend accepts the next call. */
  predicate Overtakes(s: Stream, n: nat) {
    var f := Flush(s.(frozen := false));
    f.error && n > 0 && s.xfer <= s.limit && f.replies != [] && f.replies[0] > 0
  }

  /** A flush that fails leaves something, and does not freeze the stream. */
  lemma FlushFails(s: Stream)
    requires !s.error && !s.frozen
    ensures var f := Flush(s);
            f.xfer == s.xfer && f.limit == s.limit && (f.error ==> f.pending != [] && !f.frozen)
  {
    FlushFromSends(s, 0);
  }

  /** Sending starts with the first byte, as soon as the guards let it. */
  lemma DirectStarts(s: Stream, buf: seq<byte>)
    ensures var u := Direct(s, buf, 0).0;
            if !s.frozen && buf != [] && s.xfer <= s.limit && s.replies != [] && s.replies[0] > 0
            then |u.sent| > |s.sent| && u.sent[|s.sent|] == buf[0] && u.sent[..|s.sent|] == s.sent
            else u.sent == s.sent
  {
    DirectPrefix(s, buf, 0);
    assert buf[0..] == buf;
    if !s.frozen && buf != [] && s.xfer <= s.limit {
      var (ret, t) := Ask(s, buf);
      AskEffect(s, buf);
      if ret > 0 {
        DirectPrefix(t.(xfer := t.xfer + ret), buf, ret);
      }
    }
  }

  /** Bytes are sent directly past pending ones exactly when the guards say so. */
  lemma OvertakenIff(s: Stream, buf: seq<byte>)
    requires !s.error
    ensures var f := Flush(s.(frozen := false));
            (f.pending != [] && Direct(f, buf, 0).0.sent != f.sent) <==> Overtakes(s, |buf|)
  {
    var r := s.(frozen := false);
    FlushFails(r);
    FlushConserves(r);
    DirectOnlyWhenEmpty(s, buf);
    DirectStarts(Flush(r), buf);
  }

  /** The order of the stream, for every put, whether it succeeds or not: what
      the backend has accepted stays a prefix of what was put, for all data of
      this length, if and only if the guards for overtaking do not hold. */
  lemma PutKeepsOrderIff(s: Stream, n: nat)
    requires !s.error
    ensures (forall buf: seq<byte> :: |buf| == n ==> Put(s, buf).0.sent <= Total(s) + buf) <==> !Overtakes(s, n)
  {
    if Overtakes(s, n) {
      var buf := OvertakingData(s, n);
      assert !(Put(s, buf).0.sent <= Total(s) + buf);
    } else {
      forall buf: seq<byte> | |buf| == n ensures Put(s, buf).0.sent <= Total(s) + buf {
        InOrderPut(s, buf);
      }
    }
  }

  lemma InOrderPut(s: Stream, buf: seq<byte>)
    requires !s.error && !Overtakes(s, |buf|)
    ensures Put(s, buf).0.sent <= Total(s) + buf
    ensures Put(s, buf).1 == |buf| ==> Total(Put(s, buf).0) == Total(s) + buf
  {
    var r := s.(frozen := false);
    var f := Flush(r);
    var (u, end) := Direct(f, buf, 0);
    FlushConserves(r);
    DirectSends(f, buf, 0);
    DirectPrefix(f, buf, 0);
    OvertakenIff(s, buf);
    hide Flush, Direct, Overtakes;
    assert buf[0..] == buf;
    if f.pending == [] {
      assert f.sent + [] == f.sent;
    }
    if end >= 0 {
      assert f.pending == [] || end == 0;
      PutTotals(f.sent, f.pending, buf, end);
    }
  }

  lemma PutTotals(sent: seq<byte>, pending: seq<byte>, buf: seq<byte>, n: nat)
    requires n <= |buf| && (pending == [] || n == 0)
    ensures sent + buf[0..n] + (pending + buf[n..]) == sent + pending + buf
  {
    assert buf[0..n] + buf[n..] == buf;
  }

  /** Data whose first byte differs from the first pending one. */
  lemma OvertakingData(s: Stream, n: nat) returns (buf: seq<byte>)
    requires !s.error && Overtakes(s, n)
    ensures |buf| == n && !(Put(s, buf).0.sent <= Total(s) + buf)
    ensures Total(Put(s, buf).0) != Total(s) + buf
  {
    var r := s.(frozen := false);
    var f := Flush(r);
    FlushFails(r);
    FlushConserves(r);
    var other: byte := if f.pending[0] == 0 then 1 else 0;
    buf := seq(n, _ => other);
    DirectStarts(f, buf);
    DirectSends(f, buf, 0);
    var t := Put(s, buf).0;
    hide Flush, Direct, Overtakes;
    assert t.sent[|f.sent|] == other;
    assert (Total(s) + buf)[|f.sent|] == f.pending[0];
    assert Total(t)[|f.sent|] == other;
  }

  /** These answers to direct calls let `n` bytes through, or stop the stream in
      an orderly way: none fails before the stream freezes or is over its limit. */
  predicate Goes(frozen: bool, xfer: nat, limit: nat, replies: seq<int>, n: nat)
    decreases n
  {
    frozen || n == 0 || xfer > limit
    || (replies != []
        && (replies[0] == -EAGAIN
            || (replies[0] > 0
                && var k := if replies[0] > n then n else replies[0];
                   Goes(false, xfer + k, limit, replies[1..], n - k))))
  }

  /** Whether the direct path succeeds depends on the answers and on the length
      of the data only. */
  lemma {:induction false} GoesIff(s: Stream, buf: seq<byte>, offset: nat)
    requires offset <= |buf|
    ensures Direct(s, buf, offset).1 >= 0 <==> Goes(s.frozen, s.xfer, s.limit, s.replies, |buf| - offset)
    decreases |buf| - offset
  {
    if s.frozen || offset == |buf| || s.xfer > s.limit {
    } else {
      var (ret, t) := Ask(s, buf[offset..]);
      if ret > 0 {
        GoesIff(t.(xfer := t.xfer + ret), buf, offset + ret);
      }
    }
  }

  /** A put of `n` bytes reports success. */
  predicate Succeeds(s: Stream, n: nat) {
    var f := Flush(s.(frozen := false));
    !s.error && Goes(f.frozen, f.xfer, f.limit, f.replies, n)
  }

  lemma SucceedsIff(s: Stream, buf: seq<byte>)
    ensures Put(s, buf).1 == |buf| <==> Succeeds(s, |buf|)
  {
    GoesIff(Flush(s.(frozen := false)), buf, 0);
    hide Flush, Direct, Goes;
  }

  /** Exact condition for puts that report success: for all data of a length the
      stream is kept, if and only if a put of that length does not both overtake
      and go through. */
  lemma SuccessfulPutIff(s: Stream, n: nat)
    requires !s.error
    ensures (forall buf: seq<byte> :: |buf| == n && Put(s, buf).1 == n ==> Total(Put(s, buf).0) == Total(s) + buf)
            <==> !(Overtakes(s, n) && Succeeds(s, n))
  {
    hide Put, Total, Overtakes, Succeeds;
    if Overtakes(s, n) && Succeeds(s, n) {
      var buf := OvertakingData(s, n);
      SucceedsIff(s, buf);
    } else {
      forall buf: seq<byte> | |buf| == n && Put(s, buf).1 == n ensures Total(Put(s, buf).0) == Total(s) + buf {
        SucceedsIff(s, buf);
        InOrderPut(s, buf);
      }
    }
  }

  /** A put without error adds exactly its bytes, and reports all of them. */
  lemma PutConserves(s: Stream, buf: seq<byte>)
    requires !s.error
    ensures var (t, ret) := Put(s, buf);
            && (!t.error ==> Total(t) == Total(s) + buf && ret == |buf|)
            && (ret == |buf| || (ret == -EINVAL && t.error))
  {
    var f := Flush(s.(frozen := false));
    DirectSends(f, buf, 0);
    if !Put(s, buf).0.error {
      InOrderPut(s, buf);
    }
  }

  /** What a flush does with the next answer of the backend, if anything is pending:
      `-EAGAIN` freezes the stream, any other answer that is not positive fails it, and nothing is lost
      or sent by either; a positive one sends that many bytes, and goes on. */
  lemma FlushUnfolds(s: Stream)
    requires !s.error
    ensures var t := Flush(s);
            if s.pending == [] then t == s
            else if s.replies == [] then t == s.(error := true)
            else
              var r, rest := s.replies[0], s.replies[1..];
              if r == -EAGAIN then t == s.(frozen := true, replies := rest)
              else if r <= 0 then t == s.(error := true, replies := rest)
              else
                var n := if r > |s.pending| then |s.pending| else r;
                t == Flush(s.(sent := s.sent + s.pending[..n], pending := s.pending[n..], replies := rest))
  {
    assert s.pending[0..] == s.pending;
    var (ret, u) := Ask(s, s.pending);
    if s.pending != [] && ret > 0 {
      var v := u.(pending := s.pending[ret..]);
      FlushShifted(u, v, ret, 0);
    }
  }

  /** Flushing from an offset is flushing what is behind it. */
  lemma {:induction false} FlushShifted(s: Stream, t: Stream, cut: nat, offset: nat)
    requires cut + offset <= |s.pending| && t == s.(pending := s.pending[cut..])
    ensures var (u, i) := FlushFrom(s, cut + offset);
            var (v, j) := FlushFrom(t, offset);
            i == cut + j && v == u.(pending := t.pending)
    decreases |s.pending| - cut - offset
  {
    assert s.pending[cut + offset..] == t.pending[offset..];
    if cut + offset < |s.pending| {
      var (ret, u) := Ask(s, s.pending[cut + offset..]);
      var v := Ask(t, t.pending[offset..]).1;
      if ret > 0 {
        FlushShifted(u, v, cut, offset + ret);
      }
    }
  }

  /** A tick on a stream that neither failed nor froze starts a new interval and
      flushes: unless that fails or freezes, nothing is pending.  A frozen stream
      waits, and a failed one is closed as it is. */
  lemma TickMeaning(s: Stream)
    ensures var t := Tick(s);
            && (s.error || s.frozen ==> t == s) && Total(t) == Total(s)
            && (!s.error && !s.frozen ==>
                  t.xfer == 0 && t.limit == s.limit && (t.error || t.frozen || t.pending == []))
  {
    FlushConserves(s.(xfer := 0));
    FlushFromSends(s.(xfer := 0), 0);
  }

  /** The rate counts what was passed on directly, and a tenth of the requested
      rate is the limit for one interval. */
  lemma RateCounts(s: Stream, buf: seq<byte>, rate: nat)
    requires !s.error
    ensures var t := Put(s, buf).0;
            && t.xfer + |Flush(s.(frozen := false)).sent| == s.xfer + |t.sent| && t.limit == s.limit
            && (s.xfer > s.limit ==> t.xfer == s.xfer)
    ensures var u := SetRate(s, rate); u == s.(limit := u.limit) && 10 * u.limit <= rate < 10 * u.limit + 10
  {
    var r := s.(frozen := false);
    FlushFromSends(r, 0);
    DirectCounts(Flush(r), buf, 0);
    hide Flush, Direct;
  }

  lemma {:induction false} DirectCounts(s: Stream, buf: seq<byte>, offset: nat)
    requires offset <= |buf|
    ensures var t := Direct(s, buf, offset).0;
            && t.xfer + |s.sent| == s.xfer + |t.sent| && t.limit == s.limit && (s.xfer > s.limit ==> t == s)
    decreases |buf| - offset
  {
    if !(s.frozen || offset == |buf| || s.xfer > s.limit) {
      var (ret, t) := Ask(s, buf[offset..]);
      AskEffect(s, buf[offset..]);
      if ret > 0 {
        DirectCounts(t.(xfer := t.xfer + ret), buf, offset + ret);
      }
    }
  }

  /** Closing without error delivers everything. */
  lemma {:induction false} DrainDelivers(s: Stream)
    ensures var t := Drain(s);
            Total(t) == Total(s) && (!t.error ==> t.pending == [] && t.sent == Total(s)) && (s.error ==> t == s)
    decreases |s.replies|, if s.error then 0 else 1
  {
    if !s.error && s.pending != [] {
      FlushConserves(s);
      FlushAsks(s);
      DrainDelivers(Flush(s));
    } else {
      assert s.pending == [] ==> s.sent + [] == s.sent;
    }
  }

  /** After an error the stream never sends again, and stays in error. */
  lemma ErrorIsFinal(s: Stream, op: Op)
    requires s.error
    ensures Do(s, op) == s
  {
  }

  lemma {:induction false} ErrorStays(s: Stream, ops: seq<Op>)
    requires s.error
    ensures Run(s, ops) == s
    decreases |ops|
  {
    if ops == [] {
    } else {
      ErrorIsFinal(s, ops[0]);
      ErrorStays(s, ops[1..]);
    }
  }

  lemma TickConserves(s: Stream)
    ensures Total(Tick(s)) == Total(s)
  {
    FlushConserves(s.(xfer := 0));
    DrainDelivers(s);
  }

  /** Conservation over every run: as long as there is no error, the bytes that
      the backend accepted followed by those in the buffer are all bytes put. */
  lemma {:induction false} RunConserves(s: Stream, ops: seq<Op>)
    requires !Run(s, ops).error
    ensures !s.error && Total(Run(s, ops)) == Total(s) + AllPut(ops)
    decreases |ops|
  {
    if s.error {
      ErrorStays(s, ops);
    } else if ops == [] {
      assert Total(s) + [] == Total(s);
    } else {
      var t := Do(s, ops[0]);
      RunConserves(t, ops[1..]);
      if ops[0].DoPut? {
        PutConserves(s, ops[0].buf);
        assert Total(s) + ops[0].buf + AllPut(ops[1..]) == Total(s) + (ops[0].buf + AllPut(ops[1..]));
      } else {
        TickConserves(s);
        assert [] + AllPut(ops[1..]) == AllPut(ops[1..]);
      }
    }
  }

  /** A stream that is closed without error has delivered every byte put, in order. */
  lemma ClosedDeliversAll(s: Stream, ops: seq<Op>)
    requires Total(s) == [] && !Drain(Run(s, ops)).error
    ensures Drain(Run(s, ops)).sent == AllPut(ops)
  {
    DrainDelivers(Run(s, ops));
    RunConserves(s, ops);
    assert [] + AllPut(ops) == AllPut(ops);
  }
}
