/** Character pipes and character buffers (charpipe.c): both keep what their
    peer does not take in a chain of ring buffers from a shared pool. */
module CharPipe {
  import opened Bytes
  import opened IoVectors
  import opened BipChains
  import opened Cbuffer

  const BIP_BUFFER_SIZE := 512

  /** The peer of a pipe half: `open` unless the pipe was closed, `reader` if it
      has a `chr_read`, `limits` if it has a `chr_can_read`. */
  datatype Peer = Peer(open: bool, reader: bool, limits: bool)

  /** `qemu_chr_can_read`: the next answer of the peer's handler, 0 without one. */
  function QemuChrCanRead(peer: Peer, room: seq<nat>, turn: nat): nat {
    if peer.limits && turn < |room| then room[turn] else 0
  }

  /** The peer's limit is kept: each piece that it is given fits into its answer
      at the time. */
  ghost predicate Respects(peer: Peer, room: seq<nat>, chunks: seq<seq<byte>>) {
    peer.limits ==> forall i :: 0 <= i < |chunks| ==> |chunks[i]| <= QemuChrCanRead(peer, room, i)
  }

  /** The pieces that a write with nothing buffered passes on: all of the data, or
      until the peer has no room.  Each is as large as the peer's answer, except
      where the data ends; without a limit there is one piece. */
  ghost predicate WriteOutcome(peer: Peer, room: seq<nat>, buf: seq<byte>, chunks: seq<seq<byte>>) {
    && Flatten(chunks) <= buf && Respects(peer, room, chunks)
    && (forall i :: 0 <= i < |chunks| ==> chunks[i] != [])
    && (Flatten(chunks) == buf || (peer.limits && QemuChrCanRead(peer, room, |chunks|) == 0))
    && (peer.limits ==> forall i :: 0 <= i < |chunks| ==>
          |chunks[i]| == QemuChrCanRead(peer, room, i) || (i == |chunks| - 1 && Flatten(chunks) == buf))
    && (!peer.limits ==> |chunks| <= 1)
  }

  /** The pieces that a poll of a pipe half delivers from what was pending.
      `limited` tells whether this half, not the peer, has a `chr_can_read`. */
  ghost predicate PollOutcome(limited: bool, peer: Peer, room: seq<nat>, pending: seq<byte>, chunks: seq<seq<byte>>) {
    && Flatten(chunks) <= pending && (forall i :: 0 <= i < |chunks| ==> chunks[i] != [])
    && (!peer.open || !peer.reader ==> chunks == [])
    && (peer.open && peer.reader ==>
          Flatten(chunks) == pending || (limited && QemuChrCanRead(peer, room, |chunks|) == 0))
    && (limited ==> forall i :: 0 <= i < |chunks| ==> |chunks[i]| <= QemuChrCanRead(peer, room, i))
  }

  /** Polling keeps every limit of the peer exactly if this half has a
      `chr_can_read` of its own, or there is no limit, or no delivery at all. */
  lemma LimitRespectedIff(limited: bool, peer: Peer)
    ensures (forall room, pending, chunks ::
               PollOutcome(limited, peer, room, pending, chunks) ==> Respects(peer, room, chunks))
            <==> limited || !peer.limits || !peer.open || !peer.reader
  {
    if !limited && peer.limits && peer.open && peer.reader {
      var one: seq<byte> := [7];
      FlattenOne(one);
      assert PollOutcome(limited, peer, [0], one, [one]) && !Respects(peer, [0], [one]);
    }
  }

  /** A poll delivers nothing, whatever the peer answers, exactly if nothing is
      pending, the peer cannot be given anything, or this half has a
      `chr_can_read` and the peer has none. */
  lemma NeverDeliversIff(limited: bool, peer: Peer, pending: seq<byte>)
    ensures (forall room, chunks :: PollOutcome(limited, peer, room, pending, chunks) ==> chunks == [])
            <==> pending == [] || !peer.open || !peer.reader || (limited && !peer.limits)
  {
    if pending == [] || !peer.open || !peer.reader || (limited && !peer.limits) {
      forall room, chunks | PollOutcome(limited, peer, room, pending, chunks) ensures chunks == [] {
        FirstChunk(chunks);
      }
    } else {
      FlattenOne(pending);
      assert PollOutcome(limited, peer, [|pending|], pending, [pending]);
    }
  }

  lemma FirstChunk(chunks: seq<seq<byte>>)
    ensures chunks != [] ==> |chunks[0]| <= |Flatten(chunks)|
  {
  }

  /** What an endpoint that answers `size` takes of `n` bytes. */
  function Clamp(size: int, n: nat): nat { if size < 0 then 0 else if size > n then n else size }

  /** The endpoint's answer to the next write, 0 if it gives none. */
  function Reply(replies: seq<int>, turn: nat): int { if turn < |replies| then replies[turn] else 0 }

  /** The endpoint takes all of each of these pieces. */
  predicate AllTaken(replies: seq<int>, offers: seq<seq<byte>>) {
    offers == []
    || var k := |offers| - 1; AllTaken(replies, offers[..k]) && offers[k] != [] && Reply(replies, k) >= |offers[k]|
  }

  /** What the endpoint takes of pieces of which only the last may be cut. */
  function Taken(replies: seq<int>, offers: seq<seq<byte>>): seq<byte> {
    if offers == [] then []
    else
      var k := |offers| - 1;
      Flatten(offers[..k]) + offers[k][..Clamp(Reply(replies, k), |offers[k]|)]
  }

  /** The pieces that a poll of a buffer offers to the endpoint, each following
      the ones before: all but the last are taken in full, and the last one too
      once nothing is pending any more. */
  ghost predicate BufferPollOutcome(open: bool, replies: seq<int>, pending: seq<byte>, offers: seq<seq<byte>>) {
    && Flatten(offers) <= pending && (!open ==> offers == [])
    && (offers != [] ==> offers[|offers| - 1] != [] && AllTaken(replies, offers[..|offers| - 1]))
    && (open && AllTaken(replies, offers) ==> Flatten(offers) == pending)
  }

  /** The last piece added to the others. */
  lemma LastOffer(replies: seq<int>, offers: seq<seq<byte>>, data: seq<byte>)
    ensures var next, size := offers + [data], Clamp(Reply(replies, |offers|), |data|);
            && Flatten(next) == Flatten(offers) + data && next[..|next| - 1] == offers
            && Taken(replies, next) == Flatten(offers) + data[..size]
            && (AllTaken(replies, next) <==> AllTaken(replies, offers) && data != [] && size == |data|)
  {
    hide Flatten;
    AddChunk(offers, data);
    assert (offers + [data])[..|offers|] == offers;
  }

  lemma NothingOffered(replies: seq<int>, pending: seq<byte>)
    ensures AllTaken(replies, []) && BufferPollOutcome(false, replies, pending, [])
  {
  }

  lemma AllOffered(replies: seq<int>, pending: seq<byte>, offers: seq<seq<byte>>)
    requires AllTaken(replies, offers) && Flatten(offers) == pending
    ensures BufferPollOutcome(true, replies, pending, offers) && Taken(replies, offers) == pending
  {
    TakenAll(replies, offers);
    hide Flatten, AllTaken;
  }

  lemma NothingTaken(replies: seq<int>)
    ensures Taken(replies, []) == []
  {
  }

  lemma TakenAll(replies: seq<int>, offers: seq<seq<byte>>)
    requires AllTaken(replies, offers)
    ensures Taken(replies, offers) == Flatten(offers)
    ensures offers != [] ==> offers[|offers| - 1] != [] && AllTaken(replies, offers[..|offers| - 1])
  {
    NoChunks();
    if offers != [] {
      var front, data := offers[..|offers| - 1], offers[|offers| - 1];
      assert offers == front + [data] && data[..|data|] == data;
      LastOffer(replies, front, data);
    }
    hide Flatten;
  }

  /** One more piece after some that were taken in full. */
  lemma OfferMore(replies: seq<int>, was: seq<byte>, offers: seq<seq<byte>>, rest: seq<byte>, data: seq<byte>)
    requires AllTaken(replies, offers) && data != [] && Flatten(offers) + rest == was && data <= rest
    ensures var next, size := offers + [data], Clamp(Reply(replies, |offers|), |data|);
            && Flatten(next) == Flatten(offers) + data
            && Taken(replies, next) == Flatten(offers) + data[..size]
            && (AllTaken(replies, next) <==> size == |data|)
            && (size < |data| ==> BufferPollOutcome(true, replies, was, next))
  {
    LastOffer(replies, offers, data);
    hide Flatten, Taken, AllTaken;
    assert rest == data + rest[|data|..];
    assert was == Flatten(offers) + data + rest[|data|..];
  }

  /** Whatever the endpoint takes is the front of what was pending. */
  lemma TakenFront(open: bool, replies: seq<int>, pending: seq<byte>, offers: seq<seq<byte>>)
    requires BufferPollOutcome(open, replies, pending, offers)
    ensures Taken(replies, offers) <= pending
  {
    assert Flatten(offers) <= pending;
    hide Flatten, Taken, AllTaken, BufferPollOutcome;
    if offers == [] {
      NothingTaken(replies);
    } else {
      var front, data := offers[..|offers| - 1], offers[|offers| - 1];
      assert offers == front + [data];
      LastOffer(replies, front, data);
      CutFront(Flatten(front), data, Clamp(Reply(replies, |front|), |data|), pending);
    }
  }

  lemma CutFront(front: seq<byte>, data: seq<byte>, size: nat, whole: seq<byte>)
    requires front + data <= whole && size <= |data|
    ensures front + data[..size] <= whole
  {
    assert (front + data)[..|front| + size] == front + data[..size];
  }

  /** What that means for the answers themselves: each piece but the last is
      taken in full, and of the last one exactly as much as the answer says. */
  lemma BufferPollMeans(open: bool, replies: seq<int>, pending: seq<byte>, offers: seq<seq<byte>>)
    requires BufferPollOutcome(open, replies, pending, offers) && |offers| <= |replies|
    ensures forall i :: 0 <= i < |offers| - 1 ==> replies[i] >= |offers[i]| > 0
    ensures offers == [] ==> Taken(replies, offers) == [] && (open ==> pending == [])
    ensures offers != [] ==>
              var k := |offers| - 1;
              var front, last, r := Flatten(offers[..k]), offers[k], replies[k];
              && (r < 0 ==> Taken(replies, offers) == front)
              && (0 <= r <= |last| ==> Taken(replies, offers) == front + last[..r])
              && (r > |last| ==> Taken(replies, offers) == front + last)
              && (r >= |last| ==> front + last == pending)
  {
    if offers == [] {
      NoChunks();
      hide Flatten;
    } else {
      var k := |offers| - 1;
      var front, last := offers[..k], offers[k];
      assert offers == front + [last] && last[..|last|] == last;
      LastOffer(replies, front, last);
      assert open;
      TakenEach(replies, front);
      hide Flatten, AllTaken;
      assert Flatten(front) + [] == Flatten(front);
      assert forall i :: 0 <= i < k ==> front[i] == offers[i];
    }
  }

  lemma {:induction false} TakenEach(replies: seq<int>, offers: seq<seq<byte>>)
    requires AllTaken(replies, offers) && |offers| <= |replies|
    ensures forall i :: 0 <= i < |offers| ==> replies[i] >= |offers[i]| > 0
  {
    if offers == [] {
    } else {
      var k := |offers| - 1;
      var front := offers[..k];
      TakenEach(replies, front);
      forall i | 0 <= i < |offers| ensures replies[i] >= |offers[i]| > 0 {
        assert i < k ==> front[i] == offers[i];
      }
    }
  }

  /** Each answer is at least all that is pending. */
  predicate Willing(replies: seq<int>, n: nat, turns: nat) {
    turns <= |replies| && forall i :: 0 <= i < turns ==> replies[i] >= n
  }

  lemma WillingTakesAll(replies: seq<int>, n: nat, offers: seq<seq<byte>>)
    requires Willing(replies, n, |offers|) && |Flatten(offers)| <= n
    requires offers != [] ==> offers[|offers| - 1] != [] && AllTaken(replies, offers[..|offers| - 1])
    ensures AllTaken(replies, offers)
  {
    if offers != [] {
      var front, data := offers[..|offers| - 1], offers[|offers| - 1];
      assert Reply(replies, |front|) >= n;
      hide Reply, Flatten, AllTaken, Willing, Taken;
      assert offers == front + [data];
      LastOffer(replies, front, data);
    }
  }

  /** A poll of an open endpoint that takes as much as is pending each time
      gives it all of it. */
  lemma WillingEndpoint(replies: seq<int>, pending: seq<byte>, offers: seq<seq<byte>>)
    requires BufferPollOutcome(true, replies, pending, offers) && Willing(replies, |pending|, |offers|)
    ensures Taken(replies, offers) == pending
  {
    hide Flatten;
    WillingTakesAll(replies, |pending|, offers);
    TakenAll(replies, offers);
  }

  /** The turns of a poll in which the peer was given less than it had room for;
      without a limit every turn. */
  function ShortTurns(limited: bool, peer: Peer, room: seq<nat>, chunks: seq<seq<byte>>): (r: set<nat>)
    ensures forall i: nat :: i in r <==> i < |chunks| && (!limited || |chunks[i]| < QemuChrCanRead(peer, room, i))
  {
    set i: nat | i < |chunks| && (!limited || |chunks[i]| < QemuChrCanRead(peer, room, i))
  }

  lemma TurnsCounted(limited: bool, peer: Peer, room: seq<nat>, chunks: seq<seq<byte>>)
    ensures (set i: nat | i < |chunks| && (!limited || |chunks[i]| < QemuChrCanRead(peer, room, i)))
            == ShortTurns(limited, peer, room, chunks)
  {
  }

  lemma MoreTurns(limited: bool, peer: Peer, room: seq<nat>, chunks: seq<seq<byte>>, data: seq<byte>)
    ensures var k := |chunks|;
            var was, now := ShortTurns(limited, peer, room, chunks), ShortTurns(limited, peer, room, chunks + [data]);
            |now| == |was| + if !limited || |data| < QemuChrCanRead(peer, room, k) then 1 else 0
  {
    var k := |chunks|;
    var was, now := ShortTurns(limited, peer, room, chunks), ShortTurns(limited, peer, room, chunks + [data]);
    hide QemuChrCanRead;
    if !limited || |data| < QemuChrCanRead(peer, room, k) {
      assert now == was + {k};
    } else {
      assert now == was;
    }
  }

  lemma NoChunks()
    ensures Flatten([]) == []
  {
  }

  lemma AddChunk(chunks: seq<seq<byte>>, data: seq<byte>)
    ensures Flatten(chunks + [data]) == Flatten(chunks) + data
  {
    FlattenAppend(chunks, [data]);
    FlattenOne(data);
  }

  /** One call on queue `q`, with what the peer answers meanwhile. */
  datatype Op =
    | HalfWrite(q: nat, buf: seq<byte>, peer: Peer, room: seq<nat>)
    | HalfPoll(q: nat, limited: bool, peer: Peer, room: seq<nat>)
    | BufferWrite(q: nat, buf: seq<byte>, open: bool, reply: int)
    | BufferPoll(q: nat, open: bool, replies: seq<int>)

  function WrittenBy(op: Op, q: nat): seq<byte> {
    if (op.HalfWrite? || op.BufferWrite?) && op.q == q then op.buf else []
  }

  /** Everything written to queue `q`, in order. */
  function WrittenTo(ops: seq<Op>, q: nat): seq<byte> {
    if ops == [] then [] else WrittenBy(ops[0], q) + WrittenTo(ops[1..], q)
  }

  // ---- The bytes that each queue holds ----

  function Pendings(contents: seq<seq<byte>>, chains: seq<seq<nat>>): (r: seq<seq<byte>>)
    ensures |r| == |chains|
  {
    seq(|chains|, q requires 0 <= q < |chains| => Buffered(contents, chains[q]))
  }

  function Joined(delivered: seq<seq<byte>>, pending: seq<seq<byte>>): (r: seq<seq<byte>>)
    requires |delivered| == |pending|
    ensures |r| == |delivered|
  {
    seq(|delivered|, q requires 0 <= q < |delivered| => delivered[q] + pending[q])
  }

  /** Giving the peer bytes directly, with nothing pending before them. */
  lemma JoinedDirect(delivered: seq<seq<byte>>, pending: seq<seq<byte>>, q: nat, data: seq<byte>)
    requires |delivered| == |pending| && q < |pending| && pending[q] == []
    ensures var was := Joined(delivered, pending);
            Joined(delivered[q := delivered[q] + data], pending) == was[q := was[q] + data]
  {
    assert delivered[q] + data + [] == delivered[q] + [] + data;
  }

  lemma JoinedPending(delivered: seq<seq<byte>>, pending: seq<seq<byte>>, q: nat, data: seq<byte>)
    requires |delivered| == |pending| && q < |pending|
    ensures var was := Joined(delivered, pending);
            Joined(delivered, pending[q := pending[q] + data]) == was[q := was[q] + data]
  {
    assert delivered[q] + (pending[q] + data) == delivered[q] + pending[q] + data;
  }

  /** Moving the front of what is pending to the peer loses nothing. */
  lemma JoinedMove(delivered: seq<seq<byte>>, pending: seq<seq<byte>>, q: nat, n: nat)
    requires |delivered| == |pending| && q < |pending| && n <= |pending[q]|
    ensures Joined(delivered[q := delivered[q] + pending[q][..n]], pending[q := pending[q][n..]])
            == Joined(delivered, pending)
  {
    assert delivered[q] + pending[q][..n] + pending[q][n..] == delivered[q] + (pending[q][..n] + pending[q][n..]);
    assert pending[q][..n] + pending[q][n..] == pending[q];
  }

  lemma NothingYet(delivered: seq<seq<byte>>, pending: seq<seq<byte>>)
    requires |delivered| == |pending|
    requires forall q :: 0 <= q < |delivered| ==> delivered[q] == [] && pending[q] == []
    ensures Joined(delivered, pending) == seq(|delivered|, _ => [])
  {
    assert forall q :: 0 <= q < |delivered| ==> delivered[q] + pending[q] == [];
  }

  /** Contents may change outside the queues. */
  lemma PendingsElsewhere(l: Links, s: Shape, held: seq<nat>, contents: seq<seq<byte>>, now: seq<seq<byte>>)
    requires Shaped(l, s, held) && |s.owner| <= |now|
    requires forall c :: 0 <= c < |s.owner| && s.owner[c] >= 0 ==> c < |contents| && now[c] == contents[c]
    ensures Pendings(now, s.chains) == Pendings(contents, s.chains)
  {
    forall q | 0 <= q < |s.chains| ensures Buffered(now, s.chains[q]) == Buffered(contents, s.chains[q]) {
      assert QueueShaped(l, s, q);
      BufferedFrame(contents, now, s.chains[q]);
    }
  }

  /** A buffer outside the queues may be emptied, or added empty. */
  lemma HeldApart(l: Links, s: Shape, contents: seq<seq<byte>>, now: seq<seq<byte>>, b: nat)
    requires Shaped(l, s, []) && |contents| == |s.owner| && b <= |contents|
    requires b < |contents| ==> s.owner[b] < 0
    requires now == if b < |contents| then contents[b := []] else contents + [[]]
    ensures Pendings(now, s.chains) == Pendings(contents, s.chains)
  {
    PendingsElsewhere(l, s, [], contents, now);
  }

  lemma FreeListShape(l: Links, s: Shape)
    requires Shaped(l, s, [])
    ensures |s.owner| == |l.next| && (l.free == NULL <==> s.freeList == [])
    ensures l.free != NULL ==> 0 <= l.free < |l.next| && s.owner[l.free] == FREE
  {
  }

  lemma NothingDelivered(delivered: seq<seq<byte>>, q: nat)
    requires q < |delivered|
    ensures delivered[q := delivered[q] + []] == delivered
  {
    assert delivered[q] + [] == delivered[q];
  }

  lemma DeliveredMore(delivered: seq<seq<byte>>, q: nat, sent: seq<byte>, data: seq<byte>)
    requires q < |delivered|
    ensures var now := delivered[q := delivered[q] + sent];
            now[q := now[q] + data] == delivered[q := delivered[q] + (sent + data)]
  {
    assert delivered[q] + sent + data == delivered[q] + (sent + data);
  }

  /** Of what was pending, `given` has been delivered and `rest` is left. */
  predicate Progress(base: seq<seq<byte>>, delivered: seq<seq<byte>>, q: nat, given: seq<byte>, rest: seq<byte>,
                     was: seq<byte>) {
    q < |base| && delivered == base[q := base[q] + given] && given + rest == was
  }

  lemma ProgressMade(base: seq<seq<byte>>, delivered: seq<seq<byte>>, q: nat, given: seq<byte>, rest: seq<byte>,
                     was: seq<byte>, data: seq<byte>, left: seq<byte>)
    requires Progress(base, delivered, q, given, rest, was) && rest == data + left
    ensures Progress(base, delivered[q := delivered[q] + data], q, given + data, left, was)
  {
    DeliveredMore(base, q, given, data);
    assert given + data + left == given + (data + left);
  }

  lemma ProgressStarts(base: seq<seq<byte>>, q: nat, was: seq<byte>)
    requires q < |base|
    ensures Progress(base, base, q, [], was, was)
  {
    NothingDelivered(base, q);
    assert [] + was == was;
  }

  lemma ProgressEnds(base: seq<seq<byte>>, delivered: seq<seq<byte>>, q: nat, given: seq<byte>, rest: seq<byte>,
                     was: seq<byte>)
    requires Progress(base, delivered, q, given, rest, was)
    ensures delivered == base[q := base[q] + given] && given <= was == given + rest && (rest == [] ==> given == was)
  {
  }

  /** The pieces of a poll so far: none empty, and within the answers if `limited`. */
  ghost predicate Pieces(limited: bool, peer: Peer, room: seq<nat>, chunks: seq<seq<byte>>) {
    && (forall i :: 0 <= i < |chunks| ==> chunks[i] != [])
    && (limited ==> forall i :: 0 <= i < |chunks| ==> |chunks[i]| <= QemuChrCanRead(peer, room, i))
  }

  lemma NoPieces(limited: bool, peer: Peer, room: seq<nat>)
    ensures Pieces(limited, peer, room, []) && ShortTurns(limited, peer, room, []) == {}
  {
  }

  lemma MorePieces(limited: bool, peer: Peer, room: seq<nat>, chunks: seq<seq<byte>>, data: seq<byte>)
    requires Pieces(limited, peer, room, chunks) && data != []
    requires limited ==> |data| <= QemuChrCanRead(peer, room, |chunks|)
    ensures Pieces(limited, peer, room, chunks + [data])
  {
  }

  lemma PollEnds(limited: bool, peer: Peer, room: seq<nat>, pending: seq<byte>, chunks: seq<seq<byte>>)
    requires Pieces(limited, peer, room, chunks) && Flatten(chunks) <= pending && peer.open && peer.reader
    requires Flatten(chunks) == pending || (limited && QemuChrCanRead(peer, room, |chunks|) == 0)
    ensures PollOutcome(limited, peer, room, pending, chunks)
  {
  }

  lemma EmptyChain(contents: seq<seq<byte>>, chains: seq<seq<nat>>, q: nat)
    requires q < |chains|
    ensures chains[q] == [] ==> Pendings(contents, chains)[q] == []
  {
  }

  /** Appending in two parts is appending at once. */
  lemma SplitAppend(streams: seq<seq<byte>>, q: nat, buf: seq<byte>, n: nat)
    requires q < |streams| && n <= |buf|
    ensures var s := streams[q := streams[q] + buf[..n]];
            s[q := s[q] + buf[n..]] == streams[q := streams[q] + buf]
    ensures n == |buf| ==> streams[q := streams[q] + buf[..n]] == streams[q := streams[q] + buf]
    ensures n == 0 ==> streams[q := streams[q] + buf[..n]] == streams
  {
    assert buf[..n] + buf[n..] == buf && streams[q] + buf[..n] + buf[n..] == streams[q] + (buf[..n] + buf[n..]);
    assert n == 0 ==> streams[q] + buf[..n] == streams[q];
    assert n == |buf| ==> buf[..n] == buf;
  }

  lemma NothingAppended(pending: seq<seq<byte>>, q: nat, data: seq<byte>)
    requires q < |pending|
    ensures pending[q := pending[q] + data[..0]] == pending
  {
    assert pending[q] + data[..0] == pending[q];
  }

  lemma AppendedTwice(pending: seq<seq<byte>>, q: nat, data: seq<byte>, i: nat, n: nat)
    requires q < |pending| && i + n <= |data|
    ensures var p := pending[q := pending[q] + data[..i]];
            p[q := p[q] + data[i..][..n]] == pending[q := pending[q] + data[..i + n]]
  {
    assert data[..i] + data[i..][..n] == data[..i + n];
    assert pending[q] + data[..i] + data[i..][..n] == pending[q] + (data[..i] + data[i..][..n]);
  }

  lemma PendingsAttach(contents: seq<seq<byte>>, chains: seq<seq<nat>>, q: nat, b: nat)
    requires q < |chains| && b < |contents| && contents[b] == []
    ensures Pendings(contents, chains[q := chains[q] + [b]]) == Pendings(contents, chains)
  {
    BufferedSnoc(contents, chains[q], b);
    hide Buffered;
    assert Buffered(contents, chains[q]) + [] == Buffered(contents, chains[q]);
  }

  lemma PendingsDetach(contents: seq<seq<byte>>, chains: seq<seq<nat>>, q: nat)
    requires q < |chains| && chains[q] != [] && chains[q][0] < |contents| && contents[chains[q][0]] == []
    ensures Pendings(contents, chains[q := chains[q][1..]]) == Pendings(contents, chains)
  {
    assert [] + Buffered(contents, chains[q][1..]) == Buffered(contents, chains[q][1..]);
  }

  /** Dropping a buffer with what it holds concerns its own queue only. */
  lemma PendingsCut(contents: seq<seq<byte>>, chains: seq<seq<nat>>, q: nat)
    requires q < |chains| && chains[q] != []
    ensures Pendings(contents, chains[q := chains[q][1..]])[q := []] == Pendings(contents, chains)[q := []]
  {
  }

  lemma PendingsAppend(l: Links, s: Shape, contents: seq<seq<byte>>, q: nat, data: seq<byte>)
    requires Shaped(l, s, []) && |contents| == |s.owner| && q < |s.chains| && s.chains[q] != []
    ensures 0 <= l.queues[q].last < |contents| && l.queues[q].last == Last(s.chains[q])
    ensures var b := l.queues[q].last;
            Pendings(contents[b := contents[b] + data], s.chains)
            == Pendings(contents, s.chains)[q := Pendings(contents, s.chains)[q] + data]
  {
    assert QueueShaped(l, s, q);
    var b := l.queues[q].last;
    BufferedAppend(contents, s.owner, q, s.chains[q], data);
    var now := contents[b := contents[b] + data];
    forall p | 0 <= p < |s.chains| && p != q ensures Buffered(now, s.chains[p]) == Buffered(contents, s.chains[p]) {
      assert QueueShaped(l, s, p);
      BufferedFrame(contents, now, s.chains[p]);
    }
  }

  lemma PendingsDrop(l: Links, s: Shape, contents: seq<seq<byte>>, q: nat, n: nat)
    requires Shaped(l, s, []) && |contents| == |s.owner| && q < |s.chains| && s.chains[q] != []
    requires s.chains[q][0] < |contents| && n <= |contents[s.chains[q][0]]|
    ensures 0 <= l.queues[q].first < |contents| && l.queues[q].first == s.chains[q][0]
    ensures var b, was := l.queues[q].first, Pendings(contents, s.chains)[q];
            && n <= |was| && was[..n] == contents[b][..n]
            && Pendings(contents[b := contents[b][n..]], s.chains) == Pendings(contents, s.chains)[q := was[n..]]
  {
    assert QueueShaped(l, s, q);
    var b := s.chains[q][0];
    BufferedDrop(contents, s.owner, q, s.chains[q], n);
    var now := contents[b := contents[b][n..]];
    forall p | 0 <= p < |s.chains| && p != q ensures Buffered(now, s.chains[p]) == Buffered(contents, s.chains[p]) {
      assert QueueShaped(l, s, p);
      BufferedFrame(contents, now, s.chains[p]);
    }
  }

  lemma PoolSizes(l: Links, s: Shape, held: seq<nat>)
    requires Shaped(l, s, held)
    ensures |s.owner| == |l.next| && |s.chains| == |l.queues|
  {
  }

  lemma QueueEnds(l: Links, s: Shape, held: seq<nat>, q: nat)
    requires Shaped(l, s, held) && q < |l.queues|
    ensures |s.owner| == |l.next| && |s.chains| == |l.queues|
    ensures l.queues[q].first == NULL <==> s.chains[q] == []
    ensures l.queues[q].last == NULL <==> s.chains[q] == []
    ensures s.chains[q] != [] ==> 0 <= l.queues[q].first < |l.next| && l.queues[q].first == s.chains[q][0]
    ensures s.chains[q] != [] ==> 0 <= l.queues[q].last < |l.next| && l.queues[q].last == Last(s.chains[q])
  {
    assert QueueShaped(l, s, q);
  }

  method StepRing(cb: CBuffer, len: nat)
    requires cb.Valid() && len <= |cb.Contents()|
    modifies cb
    ensures cb.Valid() && cb.Contents() == old(cb.Contents())[len..]
    ensures cb.rpos == Wrap(old(cb.rpos) + len, cb.buff.Length)
  {
    hide Ring;
    cb.ReadStep(len);
  }

  class CharPipes {
    var next: seq<int>
    var free: int
    var queues: seq<Queue>
    var cbs: seq<CBuffer>
    /** All bytes that the peer of each queue has been given. */
    var delivered: seq<seq<byte>>
    ghost var shape: Shape
    ghost var contents: seq<seq<byte>>
    ghost var repr: set<object>

    ghost function L(): Links
      reads this
    {
      Links(next, free, queues)
    }

    /** Every numbered buffer is a ring of its own with the recorded contents. */
    ghost predicate Rings()
      reads this`cbs, this`contents, this`repr, repr
    {
      && |cbs| == |contents|
      && (forall i, j :: 0 <= i < j < |cbs| ==> cbs[i] != cbs[j] && cbs[i].buff != cbs[j].buff)
      && (forall i :: 0 <= i < |cbs| ==>
            cbs[i] in repr && cbs[i].buff in repr
            && cbs[i].Valid() && cbs[i].buff.Length == BIP_BUFFER_SIZE && cbs[i].Contents() == contents[i])
    }

    ghost predicate Backed()
      reads this, repr
    {
      |cbs| == |contents| == |next| && this !in repr && Rings()
    }

    ghost predicate Valid()
      reads this, repr
    {
      Backed() && Shaped(L(), shape, []) && |delivered| == |queues| == |shape.chains|
    }

    ghost function Pending(): seq<seq<byte>>
      reads this
    {
      Pendings(contents, shape.chains)
    }

    /** All bytes that went into each queue and were not lost. */
    ghost function Streams(): (r: seq<seq<byte>>)
      requires |delivered| == |shape.chains|
      reads this
      ensures |r| == |delivered|
    {
      Joined(delivered, Pending())
    }

    /** The contents of a ring go on at its start. */
    ghost predicate Wraps(b: nat)
      requires b < |cbs| && b < |contents|
      reads this`cbs, this`contents, if b < |cbs| then {cbs[b]} else {}
    {
      cbs[b].rpos + |contents[b]| > BIP_BUFFER_SIZE
    }

    /** How many contiguous pieces a queue is kept in, at most: two for each ring,
        but only one for a first one that does not wrap. */
    ghost function Parts(q: nat): nat
      requires Valid() && q < |queues|
      reads this, repr
    {
      var chain := shape.chains[q];
      if chain == [] || chain[0] >= |cbs| then 2 * |chain|
      else 2 * |chain| - if contents[chain[0]] == [] then 2 else if Wraps(chain[0]) then 0 else 1
    }

    constructor (n: nat)
      ensures Valid() && |queues| == n && cbs == [] && repr == {} && Streams() == seq(n, _ => [])
      ensures delivered == seq(n, _ => []) && shape.chains == seq(n, _ => [])
    {
      next, free, cbs, contents, repr := [], NULL, [], [], {};
      queues := seq(n, _ => Queue(NULL, NULL));
      delivered := seq(n, _ => []);
      shape := Shape(seq(n, _ => []), [], []);
      new;
      forall q | 0 <= q < n ensures QueueShaped(L(), shape, q) {}
      NothingYet(delivered, Pending());
    }

    // ---- Single buffers ----

    method WriteBip(b: nat, data: seq<byte>) returns (len2: nat)
      requires Backed() && b < |cbs|
      modifies repr, this`contents
      ensures Backed() && len2 == Min(|data|, BIP_BUFFER_SIZE - |old(contents[b])|)
      ensures contents == old(contents)[b := old(contents[b]) + data[..len2]]
    {
      hide Ring;
      len2 := cbs[b].Write(data, |data|);
      contents := contents[b := contents[b] + data[..len2]];
    }

    method PeekBip(b: nat) returns (data: seq<byte>)
      requires Backed() && b < |cbs|
      ensures data <= contents[b] && (data == [] <==> contents[b] == [])
      ensures |data| == if Wraps(b) then BIP_BUFFER_SIZE - cbs[b].rpos else |contents[b]|
    {
      var base, avail := cbs[b].ReadPeek();
      data := cbs[b].buff[base..base + avail];
    }

    method StepBip(b: nat, len: nat)
      requires Backed() && b < |cbs| && len <= |contents[b]|
      modifies repr, this`contents
      ensures Backed() && contents == old(contents)[b := old(contents[b])[len..]]
      ensures Wraps(b) ==> old(Wraps(b)) && len < BIP_BUFFER_SIZE - old(cbs[b].rpos)
    {
      hide Ring, Min;
      StepRing(cbs[b], len);
      contents := contents[b := cbs[b].Contents()];
    }

    /** `bip_buffer_alloc`: from the free list, or a new one. */
    method BipBufferAlloc() returns (b: nat)
      requires Valid()
      modifies this`next, this`free, this`cbs, this`shape, this`contents, this`repr, repr
      ensures Backed() && Shaped(L(), shape, [b]) && fresh(repr - old(repr)) && |delivered| == |queues|
      ensures b < |next| == |contents| && next[b] == NULL && contents[b] == []
      ensures shape.chains == old(shape.chains) && Pending() == old(Pending())
      ensures |cbs| == |old(cbs)| + if old(shape.freeList) == [] then 1 else 0
    {
      hide Shaped, Pendings, Buffered, Rings;
      ghost var l, s, was := L(), shape, contents;
      FreeListShape(l, s);
      if free != NULL {
        TakeFreeStep(l, s);
        b := free;
        free := next[b];
        shape := s.(freeList := s.freeList[1..], owner := s.owner[b := HELD]);
      } else {
        NewStep(l, s);
        b := MallocBip();
        shape := s.(owner := s.owner + [HELD]);
      }
      next := next[b := NULL];
      ResetBip(b);
      assert next == (if l.free != NULL then TakeFree(l) else NewBip(l)).next;
      HeldApart(l, s, was, contents, b);
    }

    /** A new buffer of the pool. */
    method MallocBip() returns (b: nat)
      requires Backed()
      modifies this`next, this`cbs, this`contents, this`repr
      ensures Backed() && fresh(repr - old(repr)) && b == |old(cbs)| && |cbs| == b + 1
      ensures next == old(next) + [NULL] && contents == old(contents) + [[]]
    {
      b := |cbs|;
      var buff := new byte[BIP_BUFFER_SIZE];
      var cb := new CBuffer(buff);
      cbs := cbs + [cb];
      next := next + [NULL];
      contents := contents + [[]];
      repr := repr + {cb, buff};
    }

    /** `cbuffer_reset` of one buffer. */
    method ResetBip(b: nat)
      requires Backed() && b < |cbs|
      modifies repr, this`contents
      ensures Backed() && contents == old(contents)[b := []]
    {
      cbs[b].Reset();
      contents := contents[b := []];
    }

    /** `bip_buffer_free`. */
    method BipBufferFree(b: nat)
      requires Backed() && Shaped(L(), shape, [b]) && b < |next| && |delivered| == |queues|
      modifies this`next, this`free, this`shape
      ensures Valid() && shape.chains == old(shape.chains)
      ensures shape.freeList == [b] + old(shape.freeList)
    {
      hide Shaped, Rings;
      PoolSizes(L(), shape, [b]);
      ReleaseStep(L(), shape, b);
      next := next[b := free];
      free := b;
      shape := shape.(freeList := [b] + shape.freeList, owner := shape.owner[b := FREE]);
    }

    /** Unlinks the first buffer of a queue when it is empty. */
    method DropEmpty(q: nat)
      requires Valid() && q < |queues| && 0 <= queues[q].first < |contents| && contents[queues[q].first] == []
      modifies this`next, this`free, this`queues, this`shape
      ensures Valid() && |queues| == old(|queues|)
      ensures old(shape.chains[q]) != [] && shape.chains == old(shape.chains)[q := old(shape.chains[q])[1..]]
      ensures Parts(q) <= old(Parts(q))
    {
      hide Shaped, Rings;
      DropFirst(q);
    }

    lemma PartsBound(q: nat)
      requires Valid() && q < |queues|
      ensures Parts(q) <= 2 * |shape.chains[q]|
    {
      hide Shaped, Rings;
    }

    /** Links `b` behind the last buffer of a queue, or as its only one. */
    method Append(q: nat, b: nat)
      requires Backed() && Shaped(L(), shape, [b]) && |delivered| == |queues|
      requires q < |queues| && b < |next| == |contents| && next[b] == NULL && contents[b] == []
      modifies this`next, this`queues, this`shape
      ensures Valid() && |queues| == old(|queues|) && queues[q].last == b && shape.freeList == old(shape.freeList)
      ensures Pending() == old(Pending())
    {
      hide Shaped, Rings, Pendings;
      PoolSizes(L(), shape, [b]);
      AttachStep(L(), shape, q, b);
      PendingsAttach(contents, shape.chains, q, b);
      QueueEnds(L(), shape, [b], q);
      if queues[q].last == NULL {
        queues := queues[q := Queue(b, b)];
      } else {
        next := next[queues[q].last := b];
        queues := queues[q := queues[q].(last := b)];
      }
      shape := shape.(chains := shape.chains[q := shape.chains[q] + [b]], owner := shape.owner[b := q]);
    }

    /** Unlinks the first buffer of a queue and frees it. */
    method DropFirst(q: nat)
      requires Valid() && q < |queues| && queues[q].first != NULL
      modifies this`next, this`free, this`queues, this`shape
      ensures Valid() && |queues| == old(|queues|)
      ensures old(shape.chains[q]) != [] && old(shape.chains[q])[0] == old(queues[q].first)
      ensures shape.chains == old(shape.chains)[q := old(shape.chains[q])[1..]]
      ensures |shape.freeList| == |old(shape.freeList)| + 1
    {
      hide Shaped, Rings, Pendings;
      PoolSizes(L(), shape, []);
      DetachStep(L(), shape, q);
      QueueEnds(L(), shape, [], q);
      ghost var l := L();
      var bip := queues[q].first;
      queues := queues[q := queues[q].(first := next[bip])];
      if queues[q].first == NULL {
        queues := queues[q := queues[q].(last := NULL)];
      }
      assert L() == Detach(l, q);
      shape := shape.(chains := shape.chains[q := shape.chains[q][1..]], owner := shape.owner[bip := HELD]);
      BipBufferFree(bip);
    }

    // ---- Queues ----

    /** The loop that ends `charpipehalf_write` and `charbuffer_write`: what the
        peer did not take goes into the chain, which grows as needed. */
    method BufferRest(q: nat, data: seq<byte>) returns (ret: nat)
      requires Valid() && q < |queues| && data != []
      modifies this`next, this`free, this`queues, this`cbs, this`shape, this`contents, this`repr, repr
      ensures Valid() && |queues| == old(|queues|) && fresh(repr - old(repr))
      ensures Pending() == old(Pending())[q := old(Pending())[q] + data]
      ensures ret == |data|
    {
      hide Shaped, Pendings, Buffered, Rings;
      ret := 0;
      QueueEnds(L(), shape, [], q);
      var bip := queues[q].last;
      if bip == NULL {
        bip := BipBufferAlloc();
        Append(q, bip);
      }
      NothingAppended(Pending(), q, data);
      while ret < |data|
        invariant Valid() && |queues| == old(|queues|) && fresh(repr - old(repr))
        invariant ret <= |data| && 0 <= bip < |contents| && bip == queues[q].last
        invariant Pending() == old(Pending())[q := old(Pending())[q] + data[..ret]]
        decreases |data| - ret, |contents[bip]|
      {
        var len2 := WriteLast(q, bip, data[ret..]);
        AppendedTwice(old(Pending()), q, data, ret, len2);
        ret := ret + len2;
        if ret == |data| {
          break;
        }
        bip := BipBufferAlloc();
        Append(q, bip);
      }
      assert data[..ret] == data;
    }

    /** `cbuffer_write` on the last buffer of a queue. */
    method WriteLast(q: nat, bip: nat, data: seq<byte>) returns (len2: nat)
      requires Valid() && q < |queues| && bip < |contents| && bip == queues[q].last
      modifies repr, this`contents
      ensures Valid() && len2 == Min(|data|, BIP_BUFFER_SIZE - |old(contents[bip])|)
      ensures Pending() == old(Pending())[q := old(Pending())[q] + data[..len2]]
      ensures |contents| == |old(contents)|
    {
      hide Shaped, Pendings, Buffered, Rings;
      QueueEnds(L(), shape, [], q);
      ghost var was := contents;
      len2 := WriteBip(bip, data);
      PendingsAppend(L(), shape, was, q, data[..len2]);
    }

    /** `qemu_chr_read` on the peer, which takes all it is given. */
    method Deliver(q: nat, data: seq<byte>)
      requires q < |delivered|
      modifies this`delivered
      ensures delivered == old(delivered)[q := old(delivered[q]) + data]
    {
      delivered := delivered[q := delivered[q] + data];
    }

    /** The first loop of `charpipehalf_write`: while nothing is buffered, data
        goes to the peer as far as the peer lets it. */
    method DirectWrite(q: nat, buf: seq<byte>, peer: Peer, room: seq<nat>)
      returns (ret: nat, ghost chunks: seq<seq<byte>>)
      requires Valid() && q < |queues| && Pending()[q] == []
      modifies this`delivered
      ensures |delivered| == |queues| && ret <= |buf| && Flatten(chunks) == buf[..ret]
      ensures WriteOutcome(peer, room, buf, chunks)
      ensures Streams() == old(Streams())[q := old(Streams())[q] + buf[..ret]]
      ensures delivered == old(delivered)[q := old(delivered[q]) + buf[..ret]]
    {
      hide Shaped, Rings, Pendings, Joined, Flatten;
      ret, chunks := 0, [];
      var turn := 0;
      NoChunks();
      assert old(delivered[q]) + buf[..0] == old(delivered[q]);
      while ret < |buf|
        invariant ret <= |buf| && delivered == old(delivered)[q := old(delivered[q]) + buf[..ret]]
        invariant Flatten(chunks) == buf[..ret] && Respects(peer, room, chunks)
        invariant forall i :: 0 <= i < |chunks| ==> chunks[i] != []
        invariant if peer.limits then turn == |chunks| else chunks == [] || (|chunks| == 1 && ret == |buf|)
        invariant peer.limits ==> forall i :: 0 <= i < |chunks| ==>
                    |chunks[i]| == QemuChrCanRead(peer, room, i) || (i == |chunks| - 1 && ret == |buf|)
      {
        var size;
        if peer.limits {
          size := QemuChrCanRead(peer, room, turn);
          turn := turn + 1;
          if size == 0 {
            break;
          }
          if size > |buf| - ret {
            size := |buf| - ret;
          }
        } else {
          size := |buf| - ret;
        }
        Deliver(q, buf[ret..ret + size]);
        AddChunk(chunks, buf[ret..ret + size]);
        chunks := chunks + [buf[ret..ret + size]];
        assert buf[..ret] + buf[ret..ret + size] == buf[..ret + size];
        assert old(delivered[q]) + buf[..ret] + buf[ret..ret + size] == old(delivered[q]) + buf[..ret + size];
        ret := ret + size;
      }
      JoinedDirect(old(delivered), Pending(), q, buf[..ret]);
    }

    /** `charpipehalf_write`. */
    method CharPipeHalfWrite(q: nat, buf: seq<byte>, peer: Peer, room: seq<nat>)
      returns (ret: nat, ghost chunks: seq<seq<byte>>)
      requires Valid() && q < |queues|
      modifies this, repr
      ensures Valid() && |queues| == old(|queues|) && fresh(repr - old(repr))
      ensures ret == |buf|
      ensures Streams() == old(Streams())[q := old(Streams())[q] + buf]
      ensures delivered == old(delivered)[q := old(delivered[q]) + Flatten(chunks)]
      ensures if old(shape.chains[q]) == [] && peer.open && peer.reader then WriteOutcome(peer, room, buf, chunks)
              else chunks == []
    {
      hide Shaped, Rings, Pendings, Joined, Flatten;
      QueueEnds(L(), shape, [], q);
      EmptyChain(contents, shape.chains, q);
      NoChunks();
      ret, chunks := 0, [];
      NothingDelivered(delivered, q);
      if queues[q].last == NULL && peer.open && peer.reader {
        ret, chunks := DirectWrite(q, buf, peer, room);
      }
      SplitAppend(old(Streams()), q, buf, ret);
      if ret == |buf| {
        return;
      }
      JoinedPending(delivered, Pending(), q, buf[ret..]);
      var more := BufferRest(q, buf[ret..]);
      ret := ret + more;
    }

    /** `charbuffer_write`: one attempt on the endpoint, which answers `reply`. */
    method CharBufferWrite(q: nat, buf: seq<byte>, open: bool, reply: int) returns (ret: nat)
      requires Valid() && q < |queues|
      modifies this, repr
      ensures Valid() && |queues| == old(|queues|) && fresh(repr - old(repr))
      ensures ret == |buf|
      ensures Streams() == old(Streams())[q := old(Streams())[q] + buf]
      ensures old(shape.chains[q]) == [] && open ==>
                && (reply < 0 ==> delivered == old(delivered) && Pending()[q] == buf)
                && (0 <= reply <= |buf| ==>
                      delivered == old(delivered)[q := old(delivered[q]) + buf[..reply]]
                      && Pending()[q] == buf[reply..])
                && (reply > |buf| ==>
                      delivered == old(delivered)[q := old(delivered[q]) + buf] && Pending()[q] == [])
      ensures old(shape.chains[q]) != [] || !open ==> delivered == old(delivered)
    {
      hide Shaped, Rings, Pendings, Joined;
      QueueEnds(L(), shape, [], q);
      EmptyChain(contents, shape.chains, q);
      NothingDelivered(delivered, q);
      ret := 0;
      if queues[q].last == NULL && open {
        var size := reply;
        if size < 0 {
          size := 0;
        } else if size > |buf| {
          size := |buf|;
        }
        JoinedDirect(delivered, Pending(), q, buf[..size]);
        Deliver(q, buf[..size]);
        ret := size;
        assert buf[..|buf|] == buf && buf[..0] == [];
      }
      SplitAppend(old(Streams()), q, buf, ret);
      if ret < |buf| {
        JoinedPending(delivered, Pending(), q, buf[ret..]);
        var more := BufferRest(q, buf[ret..]);
        assert [] + buf[ret..] == buf[ret..];
        ret := ret + more;
      }
    }

    /** Gives the front of a queue to its peer: all of `data`, which was peeked
        from the first buffer. */
    method Send(q: nat, bip: nat, data: seq<byte>)
      requires Valid() && q < |queues| && bip < |contents| && bip == queues[q].first && data <= contents[bip]
      modifies this`delivered, this`contents, repr
      ensures Valid() && Streams() == old(Streams())
      ensures |Pending()| == |old(Pending())| && old(Pending())[q] == data + Pending()[q]
      ensures delivered == old(delivered)[q := old(delivered[q]) + data]
      ensures contents == old(contents)[bip := old(contents[bip])[|data|..]]
      ensures Parts(q) <= old(Parts(q))
      ensures data != [] && |data| == old(if Wraps(bip) then BIP_BUFFER_SIZE - cbs[bip].rpos else |contents[bip]|) ==>
                Parts(q) < old(Parts(q))
    {
      hide Shaped, Rings, Pendings, Joined;
      QueueEnds(L(), shape, [], q);
      PendingsDrop(L(), shape, contents, q, |data|);
      JoinedMove(delivered, Pending(), q, |data|);
      assert data == contents[bip][..|data|];
      ghost var pending := Pending()[q];
      assert pending == pending[..|data|] + pending[|data|..];
      Deliver(q, data);
      StepBip(bip, |data|);
    }

    /** The same, as progress of a poll. */
    method Pass(q: nat, bip: nat, data: seq<byte>, ghost base: seq<seq<byte>>, ghost given: seq<byte>,
                ghost was: seq<byte>)
      requires Valid() && q < |queues| && bip < |contents| && bip == queues[q].first && data <= contents[bip]
      requires data != [] && Progress(base, delivered, q, given, Pending()[q], was)
      modifies this`delivered, this`contents, repr
      ensures Valid() && Streams() == old(Streams()) && |Pending()[q]| < |old(Pending()[q])|
      ensures Progress(base, delivered, q, given + data, Pending()[q], was)
      ensures Parts(q) <= old(Parts(q))
      ensures |data| == old(if Wraps(bip) then BIP_BUFFER_SIZE - cbs[bip].rpos else |contents[bip]|) ==>
                Parts(q) < old(Parts(q))
    {
      hide Shaped, Rings, Pendings, Joined, Progress, Parts, Wraps;
      ghost var rest, now := Pending()[q], delivered;
      Send(q, bip, data);
      ProgressMade(base, now, q, given, rest, was, data, Pending()[q]);
    }

    /** `charpipehalf_poll`.  Whether the peer's limit is asked depends on a
        handler of this half, `limited`, not of the peer. */
    method CharPipeHalfPoll(q: nat, limited: bool, peer: Peer, room: seq<nat>) returns (ghost chunks: seq<seq<byte>>)
      requires Valid() && q < |queues|
      modifies this, repr
      ensures Valid() && |queues| == old(|queues|) && repr == old(repr)
      ensures Streams() == old(Streams())
      ensures delivered == old(delivered)[q := old(delivered[q]) + Flatten(chunks)]
      ensures PollOutcome(limited, peer, room, old(Pending()[q]), chunks)
      ensures |set i: nat | i < |chunks| && (!limited || |chunks[i]| < QemuChrCanRead(peer, room, i))|
              <= 2 * |old(shape.chains[q])|
    {
      hide Shaped, Rings, Pendings, Joined, Flatten, Progress;
      NoPieces(limited, peer, room);
      chunks := [];
      NoChunks();
      NothingDelivered(delivered, q);
      if !peer.open || !peer.reader {
        return;
      }
      hide QemuChrCanRead, ShortTurns, Wraps, Parts, Pieces, PollOutcome;
      ghost var was := Pending()[q];
      var turn := 0;
      ProgressStarts(delivered, q, was);
      PartsBound(q);
      while true
        invariant Valid() && |queues| == old(|queues|) && repr == old(repr)
        invariant Streams() == old(Streams())
        invariant Progress(old(delivered), delivered, q, Flatten(chunks), Pending()[q], was)
        invariant Pieces(limited, peer, room, chunks) && (limited ==> turn == |chunks|)
        invariant |ShortTurns(limited, peer, room, chunks)| + Parts(q) <= 2 * |old(shape.chains[q])|
        decreases |Pending()[q]|, |shape.chains[q]|
      {
        QueueEnds(L(), shape, [], q);
        var bip := queues[q].first;
        if bip == NULL {
          EmptyChain(contents, shape.chains, q);
          break;
        }
        var size := ReadAvail(bip);
        if size == 0 {
          PendingsDetach(contents, shape.chains, q);
          DropEmpty(q);
          continue;
        }
        if limited {
          var size2 := QemuChrCanRead(peer, room, turn);
          if size2 == 0 {
            break;
          }
          turn := turn + 1;
          if size > size2 {
            size := size2;
          }
        }
        var data := PeekBip(bip);
        if |data| > size {
          data := data[..size];
        }
        Pass(q, bip, data, old(delivered), Flatten(chunks), was);
        AddChunk(chunks, data);
        MoreTurns(limited, peer, room, chunks, data);
        MorePieces(limited, peer, room, chunks, data);
        chunks := chunks + [data];
      }
      ProgressEnds(old(delivered), delivered, q, Flatten(chunks), Pending()[q], was);
      PollEnds(limited, peer, room, was, chunks);
      TurnsCounted(limited, peer, room, chunks);
    }

    /** `cbuffer_read_avail`. */
    method ReadAvail(b: nat) returns (count: nat)
      requires Backed() && b < |cbs|
      ensures count == |contents[b]|
    {
      hide Ring;
      count := cbs[b].count;
    }

    /** `charbuffer_poll`: `replies` are the answers of the endpoint in turn. */
    method CharBufferPoll(q: nat, open: bool, replies: seq<int>) returns (ghost offers: seq<seq<byte>>)
      requires Valid() && q < |queues|
      modifies this, repr
      ensures Valid() && |queues| == old(|queues|) && repr == old(repr)
      ensures Streams() == old(Streams())
      ensures BufferPollOutcome(open, replies, old(Pending()[q]), offers)
      ensures delivered == old(delivered)[q := old(delivered[q]) + Taken(replies, offers)]
      ensures |offers| <= 2 * |old(shape.chains[q])|
    {
      hide Shaped, Rings, Pendings, Joined, Flatten, Progress, AllTaken, Taken, BufferPollOutcome, Wraps, Parts;
      PartsBound(q);
      offers := [];
      NoChunks();
      NothingTaken(replies);
      NothingOffered(replies, Pending()[q]);
      NothingDelivered(delivered, q);
      if !open {
        return;
      }
      ghost var was := Pending()[q];
      var turn := 0;
      ProgressStarts(delivered, q, was);
      while true
        invariant Valid() && |queues| == old(|queues|) && repr == old(repr)
        invariant Streams() == old(Streams())
        invariant Progress(old(delivered), delivered, q, Flatten(offers), Pending()[q], was)
        invariant turn == |offers| && AllTaken(replies, offers)
        invariant |offers| + Parts(q) <= 2 * |old(shape.chains[q])|
        decreases |Pending()[q]|, |shape.chains[q]|
      {
        QueueEnds(L(), shape, [], q);
        ProgressEnds(old(delivered), delivered, q, Flatten(offers), Pending()[q], was);
        var bip := queues[q].first;
        if bip == NULL {
          EmptyChain(contents, shape.chains, q);
          AllOffered(replies, was, offers);
          return;
        }
        var data := PeekBip(bip);
        if data == [] {
          PendingsDetach(contents, shape.chains, q);
          DropEmpty(q);
          continue;
        }
        ghost var rest, now, before := Pending()[q], delivered, offers;
        var size := if turn < |replies| then replies[turn] else 0;
        var more;
        more, offers := Offer(q, bip, data, size, replies, offers, was);
        ghost var part := data[..Clamp(size, |data|)];
        ProgressMade(old(delivered), now, q, Flatten(before), rest, was, part, Pending()[q]);
        ProgressEnds(old(delivered), delivered, q, Flatten(before) + part, Pending()[q], was);
        turn := turn + 1;
        if !more {
          return;
        }
        assert part == data;
      }
    }

    /** One turn of `charbuffer_poll`: the endpoint answers `reply` to `data`, and
        there are `more` turns if that was all of it. */
    method Offer(q: nat, bip: nat, data: seq<byte>, reply: int, ghost replies: seq<int>,
                 ghost offers: seq<seq<byte>>, ghost was: seq<byte>)
      returns (more: bool, ghost next: seq<seq<byte>>)
      requires Valid() && q < |queues| && bip < |contents| && bip == queues[q].first
      requires data != [] && data <= contents[bip] && reply == Reply(replies, |offers|)
      requires |data| == if Wraps(bip) then BIP_BUFFER_SIZE - cbs[bip].rpos else |contents[bip]|
      requires AllTaken(replies, offers) && Flatten(offers) <= was == Flatten(offers) + Pending()[q]
      modifies this`delivered, this`contents, repr
      ensures Valid() && Streams() == old(Streams())
      ensures next == offers + [data] && Flatten(next) == Flatten(offers) + data
      ensures old(Pending()[q]) == data[..Clamp(reply, |data|)] + Pending()[q]
      ensures delivered == old(delivered)[q := old(delivered[q]) + data[..Clamp(reply, |data|)]]
      ensures Taken(replies, next) == Flatten(offers) + data[..Clamp(reply, |data|)]
      ensures more == (Clamp(reply, |data|) == |data|) && more == AllTaken(replies, next)
      ensures !more ==> BufferPollOutcome(true, replies, was, next)
      ensures Parts(q) <= old(Parts(q)) && old(Parts(q)) > 0 && (more ==> Parts(q) < old(Parts(q)))
    {
      hide Shaped, Rings, Pendings, Joined, Flatten, AllTaken, Taken, BufferPollOutcome;
      var size := reply;
      if size < 0 {
        size := 0;
      } else if size > |data| {
        size := |data|;
      }
      QueueEnds(L(), shape, [], q);
      PendingsDrop(L(), shape, contents, q, |data|);
      OfferMore(replies, was, offers, Pending()[q], data);
      next := offers + [data];
      Send(q, bip, data[..size]);
      more := size == |data|;
    }

    /** `charpipehalf_close` and `charbuffer_close`: every buffer of the queue
        returns to the free list. */
    method Close(q: nat)
      requires Valid() && q < |queues|
      modifies this
      ensures Valid() && |queues| == old(|queues|) && repr == old(repr) && cbs == old(cbs)
      ensures delivered == old(delivered) && Pending() == old(Pending())[q := []]
      ensures |shape.freeList| == |old(shape.freeList)| + |old(shape.chains[q])|
    {
      hide Shaped, Rings, Pendings, Joined;
      ghost var was := Pending();
      PoolSizes(L(), shape, []);
      QueueEnds(L(), shape, [], q);
      while queues[q].first != NULL
        invariant Valid() && |queues| == old(|queues|) && repr == old(repr) && cbs == old(cbs)
        invariant delivered == old(delivered) && |Pending()| == |was|
        invariant Pending()[q := []] == was[q := []]
        invariant queues[q].first == NULL <==> shape.chains[q] == []
        invariant queues[q].first == NULL ==> queues[q].last == NULL
        invariant |shape.freeList| + |shape.chains[q]| == |old(shape.freeList)| + |old(shape.chains[q])|
        decreases |shape.chains[q]|
      {
        PendingsCut(contents, shape.chains, q);
        DropFirst(q);
        QueueEnds(L(), shape, [], q);
      }
      assert queues[q := queues[q].(last := NULL)] == queues;
      queues := queues[q := queues[q].(last := NULL)];
      EmptyChain(contents, shape.chains, q);
    }

    /** Any interleaving of writes and polls on any queues: what each peer was
        given, followed by what its queue holds, is what was written, in order. */
    method Run(ops: seq<Op>)
      requires Valid() && forall i :: 0 <= i < |ops| ==> ops[i].q < |queues|
      modifies this, repr
      ensures Valid() && |queues| == old(|queues|) && fresh(repr - old(repr))
      ensures forall q :: 0 <= q < |queues| ==>
                delivered[q] + Pending()[q] == old(delivered[q]) + old(Pending()[q]) + WrittenTo(ops, q)
    {
      hide Shaped, Rings, Pendings;
      ghost var was := Streams();
      var i := 0;
      assert ops[0..] == ops;
      while i < |ops|
        invariant i <= |ops| && Valid() && |queues| == old(|queues|) && fresh(repr - old(repr))
        invariant forall q :: 0 <= q < |queues| ==> Streams()[q] + WrittenTo(ops[i..], q) == was[q] + WrittenTo(ops, q)
      {
        RunOne(ops[i]);
        assert ops[i..][0] == ops[i] && ops[i..][1..] == ops[i + 1..];
        i := i + 1;
      }
    }

    method RunOne(op: Op)
      requires Valid() && op.q < |queues|
      modifies this, repr
      ensures Valid() && |queues| == old(|queues|) && fresh(repr - old(repr))
      ensures forall q, more :: 0 <= q < |queues| ==>
                Streams()[q] + more == old(Streams())[q] + (WrittenBy(op, q) + more)
    {
      hide Shaped, Rings, Pendings, Joined;
      match op {
        case HalfWrite(q, buf, peer, room) =>
          var ret, _ := CharPipeHalfWrite(q, buf, peer, room);
        case HalfPoll(q, limited, peer, room) =>
          var _ := CharPipeHalfPoll(q, limited, peer, room);
        case BufferWrite(q, buf, open, reply) =>
          var ret := CharBufferWrite(q, buf, open, reply);
        case BufferPoll(q, open, replies) =>
          var _ := CharBufferPoll(q, open, replies);
      }
      assert forall q :: 0 <= q < |queues| ==> Streams()[q] == old(Streams())[q] + WrittenBy(op, q);
    }
  }
  /** A half without a `chr_can_read` delivers to a peer that has no room: a byte
      that the peer refused when it was written is forced on it by the poll. */
  method PollPastLimit() returns (pipes: CharPipes, ghost chunks: seq<seq<byte>>)
    ensures pipes.delivered == [[7]] && !Respects(Peer(true, true, true), [0], chunks)
  {
    hide Shaped, Joined, Pendings, Flatten;
    pipes := new CharPipes(1);
    var peer, one: seq<byte> := Peer(true, true, true), [7];
    var ret;
    NoChunks();
    assert pipes.delivered == [[]];
    NothingDelivered(pipes.delivered, 0);
    ret, chunks := pipes.CharPipeHalfWrite(0, one, peer, [0]);
    FirstAnswer(peer, [0], one, chunks);
    assert pipes.delivered == [[]];
    OnePending(pipes.delivered, pipes.Pending(), one);
    chunks := pipes.CharPipeHalfPoll(0, false, peer, [0]);
    assert Flatten(chunks) == one && [] + one == one;
    assert chunks != [] && chunks[0] != [];
    assert |chunks[0]| > QemuChrCanRead(peer, [0], 0);
  }

  /** A half with a `chr_can_read` never delivers to a peer without one: a byte
      written before the peer had a reader stays, however often it is polled. */
  method PollsInVain(rooms: seq<seq<nat>>) returns (pipes: CharPipes)
    ensures pipes.delivered == [[]] && pipes.Pending() == [[7]]
  {
    hide Shaped, Joined, Pendings, Flatten;
    pipes := new CharPipes(1);
    var one: seq<byte> := [7];
    NoChunks();
    assert pipes.delivered == [[]];
    NothingDelivered(pipes.delivered, 0);
    var ret, _ := pipes.CharPipeHalfWrite(0, one, Peer(true, false, false), []);
    assert pipes.delivered == [[]];
    OnePending(pipes.delivered, pipes.Pending(), one);
    ghost var streams := pipes.Streams();
    var i := 0;
    while i < |rooms|
      invariant pipes.Valid() && fresh(pipes) && fresh(pipes.repr) && |pipes.queues| == 1
      invariant pipes.delivered == [[]] && pipes.Pending() == [one] && pipes.Streams() == streams
    {
      var peer := Peer(true, true, false);
      var chunks := pipes.CharPipeHalfPoll(0, true, peer, rooms[i]);
      NeverDeliversIff(true, peer, one);
      assert pipes.delivered == [[]];
      OnePending(pipes.delivered, pipes.Pending(), one);
      i := i + 1;
    }
  }

  /** Something is passed on only if the first answer is positive. */
  lemma FirstAnswer(peer: Peer, room: seq<nat>, buf: seq<byte>, chunks: seq<seq<byte>>)
    requires WriteOutcome(peer, room, buf, chunks) && peer.limits
    ensures chunks == [] || QemuChrCanRead(peer, room, 0) > 0
  {
    if chunks != [] {
      assert |chunks[0]| > 0;
    }
  }

  lemma OnePending(delivered: seq<seq<byte>>, pending: seq<seq<byte>>, data: seq<byte>)
    requires delivered == [[]] && |pending| == 1 && Joined(delivered, pending) == [[] + data]
    ensures pending == [data]
  {
    assert delivered[0] == [] && Joined(delivered, pending)[0] == delivered[0] + pending[0];
    assert [] + pending[0] == pending[0] && [] + data == data;
  }
}
