/** The linked lists of charpipe.c: chains of buffers hanging off the queues,
    and the free list that all queues share.  Buffers are numbered, and a
    pointer is a number or NULL. */
module BipChains {
  import opened Bytes

  const NULL := -1
  const FREE := -1
  const HELD := -2

  /** `bip_first` and `bip_last` of one queue. */
  datatype Queue = Queue(first: int, last: int)

  /** All pointers: the `next` fields, `_free_bip_buffers` and the queues. */
  datatype Links = Links(next: seq<int>, free: int, queues: seq<Queue>)

  /** The lists that the pointers form.  `owner` maps each buffer to the queue
      it belongs to, to FREE, or to HELD between two lists. */
  datatype Shape = Shape(chains: seq<seq<nat>>, freeList: seq<nat>, owner: seq<int>)

  function After(chain: seq<nat>, i: nat): int { if i + 1 < |chain| then chain[i + 1] else NULL }

  /** Following `next` from `head` visits `chain` and ends. */
  ghost predicate Chain(next: seq<int>, head: int, chain: seq<nat>) {
    head == (if chain == [] then NULL else chain[0])
    && forall i :: 0 <= i < |chain| ==>
         chain[i] < |next| && next[chain[i]] == After(chain, i)
  }

  /** `chain` lists exactly the buffers of `who`, each once. */
  ghost predicate Owns(owner: seq<int>, who: int, chain: seq<nat>) {
    (forall i :: 0 <= i < |chain| ==> chain[i] < |owner| && owner[chain[i]] == who)
    && (forall i, j :: 0 <= i < j < |chain| ==> chain[i] != chain[j])
    && (forall b :: 0 <= b < |owner| && owner[b] == who ==> b in chain)
  }

  function Last(chain: seq<nat>): int { if chain == [] then NULL else chain[|chain| - 1] }

  ghost predicate QueueShaped(l: Links, s: Shape, q: int)
    requires 0 <= q < |l.queues| && q < |s.chains|
  {
    && Chain(l.next, l.queues[q].first, s.chains[q]) && Owns(s.owner, q, s.chains[q])
    && l.queues[q].last == Last(s.chains[q])
  }

  /** Every buffer is in exactly one queue or in the free list, except `held`. */
  ghost predicate Shaped(l: Links, s: Shape, held: seq<nat>) {
    && |s.owner| == |l.next| && |s.chains| == |l.queues|
    && (forall b :: 0 <= b < |s.owner| ==> HELD <= s.owner[b] < |l.queues|)
    && Chain(l.next, l.free, s.freeList) && Owns(s.owner, FREE, s.freeList) && Owns(s.owner, HELD, held)
    && (forall q :: 0 <= q < |l.queues| ==> QueueShaped(l, s, q))
  }

  // ---- The pointer updates of the code ----

  function TakeFree(l: Links): Links
    requires 0 <= l.free < |l.next|
  {
    l.(free := l.next[l.free], next := l.next[l.free := NULL])
  }

  function NewBip(l: Links): Links { l.(next := l.next + [NULL]) }

  function Attach(l: Links, q: nat, b: nat): Links
    requires q < |l.queues| && l.queues[q].last < |l.next|
  {
    var last := l.queues[q].last;
    if last < 0 then l.(queues := l.queues[q := Queue(b, b)])
    else l.(next := l.next[last := b], queues := l.queues[q := l.queues[q].(last := b)])
  }

  function Detach(l: Links, q: nat): Links
    requires q < |l.queues| && 0 <= l.queues[q].first < |l.next|
  {
    var first := l.next[l.queues[q].first];
    l.(queues := l.queues[q := Queue(first, if first == NULL then NULL else l.queues[q].last)])
  }

  function Release(l: Links, b: nat): Links
    requires b < |l.next|
  {
    l.(next := l.next[b := l.free], free := b)
  }

  // ---- Frames ----

  lemma ChainFrame(next: seq<int>, head: int, chain: seq<nat>, b: nat, x: int)
    requires Chain(next, head, chain) && b < |next| && b !in chain
    ensures Chain(next[b := x], head, chain)
  {
  }

  lemma ChainTail(next: seq<int>, head: int, chain: seq<nat>)
    requires Chain(next, head, chain) && chain != []
    ensures head == chain[0] && head < |next| && Chain(next, next[head], chain[1..])
    ensures next[head] == NULL <==> chain[1..] == []
    ensures Last(chain[1..]) == if next[head] == NULL then NULL else Last(chain)
  {
    var tail := chain[1..];
    forall i | 0 <= i < |tail|
      ensures tail[i] < |next| && next[tail[i]] == After(tail, i)
    {
      assert tail[i] == chain[i + 1] && After(tail, i) == After(chain, i + 1);
    }
  }

  lemma ChainCons(next: seq<int>, head: int, chain: seq<nat>, b: nat)
    requires Chain(next, head, chain) && b < |next| && b !in chain
    ensures Chain(next[b := head], b, [b] + chain)
  {
    var now, longer := next[b := head], [b] + chain;
    forall i | 0 <= i < |longer|
      ensures longer[i] < |now| && now[longer[i]] == After(longer, i)
    {
      if i > 0 {
        assert longer[i] == chain[i - 1] && After(longer, i) == After(chain, i - 1);
      }
    }
  }

  lemma ChainSnoc(next: seq<int>, head: int, chain: seq<nat>, b: nat)
    requires Chain(next, head, chain) && chain != [] && b < |next| && b !in chain && next[b] == NULL
    requires forall i, j :: 0 <= i < j < |chain| ==> chain[i] != chain[j]
    ensures Chain(next[Last(chain) := b], head, chain + [b])
  {
    var now, longer := next[Last(chain) := b], chain + [b];
    forall i | 0 <= i < |longer|
      ensures longer[i] < |now| && now[longer[i]] == After(longer, i)
    {
      if i < |chain| - 1 {
        assert chain[i] != chain[|chain| - 1];
      }
    }
  }

  lemma OwnsFrame(owner: seq<int>, who: int, chain: seq<nat>, b: nat, x: int)
    requires Owns(owner, who, chain) && b < |owner| && owner[b] != who && x != who
    ensures Owns(owner[b := x], who, chain)
  {
    var now := owner[b := x];
    forall c | 0 <= c < |now| && now[c] == who ensures c in chain {
      assert c != b && owner[c] == who;
    }
  }

  lemma OwnsFront(owner: seq<int>, who: int, chain: seq<nat>, b: nat)
    requires Owns(owner, who, chain) && b < |owner| && owner[b] != who
    ensures Owns(owner[b := who], who, [b] + chain) && Owns(owner[b := who], who, chain + [b])
  {
    var now := owner[b := who];
    forall c | 0 <= c < |now| && now[c] == who ensures c in [b] + chain && c in chain + [b] {
      if c != b {
        assert owner[c] == who;
      }
    }
  }

  lemma OwnsTail(owner: seq<int>, who: int, chain: seq<nat>, x: int)
    requires Owns(owner, who, chain) && chain != [] && x != who
    ensures Owns(owner[chain[0] := x], who, chain[1..]) && chain[0] !in chain[1..]
  {
    var now := owner[chain[0] := x];
    forall c | 0 <= c < |now| && now[c] == who ensures c in chain[1..] {
      assert c != chain[0] && owner[c] == who && chain == [chain[0]] + chain[1..];
    }
  }

  /** The queues that are not concerned when the owner of `b` and the link of
      `c` change. */
  lemma QueuesFrame(l: Links, s: Shape, m: Links, t: Shape, b: nat, x: int, c: nat, y: int, except: int)
    requires |s.owner| == |l.next| && |s.chains| == |l.queues| == |m.queues| == |t.chains|
    requires forall q :: 0 <= q < |l.queues| ==> QueueShaped(l, s, q)
    requires b < |s.owner| && (s.owner[b] < 0 || s.owner[b] == except) && (x < 0 || x == except)
    requires c < |s.owner| && (s.owner[c] < 0 || s.owner[c] == except)
    requires m.next == l.next[c := y] && t.owner == s.owner[b := x]
    requires forall q :: 0 <= q < |l.queues| && q != except ==> m.queues[q] == l.queues[q] && t.chains[q] == s.chains[q]
    ensures forall q :: 0 <= q < |l.queues| && q != except ==> QueueShaped(m, t, q)
  {
    forall q | 0 <= q < |l.queues| && q != except ensures QueueShaped(m, t, q) {
      assert QueueShaped(l, s, q);
      OwnsFrame(s.owner, q, s.chains[q], b, x);
      ChainFrame(l.next, l.queues[q].first, s.chains[q], c, y);
    }
  }

  lemma QueueAttach(l: Links, s: Shape, q: nat, b: nat)
    requires |s.owner| == |l.next| && |s.chains| == |l.queues| && q < |l.queues| && QueueShaped(l, s, q)
    requires b < |l.next| && l.next[b] == NULL && s.owner[b] == HELD
    ensures l.queues[q].last < |l.next| && l.queues[q].last == Last(s.chains[q])
    ensures s.chains[q] != [] ==> s.owner[Last(s.chains[q])] == q
    ensures QueueShaped(Attach(l, q, b), s.(chains := s.chains[q := s.chains[q] + [b]], owner := s.owner[b := q]), q)
  {
    var chain := s.chains[q];
    OwnsFront(s.owner, q, chain, b);
    hide Owns;
    if chain != [] {
      ChainSnocOwned(l.next, l.queues[q].first, s.owner, q, chain, b);
    }
  }

  lemma ChainSnocOwned(next: seq<int>, head: int, owner: seq<int>, who: int, chain: seq<nat>, b: nat)
    requires Chain(next, head, chain) && Owns(owner, who, chain) && chain != []
    requires b < |next| == |owner| && next[b] == NULL && owner[b] != who
    ensures 0 <= Last(chain) < |next| && owner[Last(chain)] == who && Chain(next[Last(chain) := b], head, chain + [b])
  {
    ChainSnoc(next, head, chain, b);
  }

  lemma QueueDetach(l: Links, s: Shape, q: nat)
    requires |s.owner| == |l.next| && |s.chains| == |l.queues| && q < |l.queues| && QueueShaped(l, s, q)
    requires l.queues[q].first != NULL
    ensures s.chains[q] != [] && l.queues[q].first == s.chains[q][0] && 0 <= l.queues[q].first < |l.next|
    ensures s.owner[l.queues[q].first] == q
    ensures QueueShaped(Detach(l, q),
              s.(chains := s.chains[q := s.chains[q][1..]], owner := s.owner[l.queues[q].first := HELD]), q)
  {
    var chain := s.chains[q];
    OwnsTail(s.owner, q, chain, HELD);
    ChainTail(l.next, chain[0], chain);
  }

  lemma HeldOnly(owner: seq<int>, b: nat, x: int)
    requires Owns(owner, HELD, [b]) && x != HELD
    ensures b < |owner| && owner[b] == HELD && Owns(owner[b := x], HELD, [])
  {
    assert [b][0] == b;
    var now := owner[b := x];
    forall c | 0 <= c < |now| && now[c] == HELD ensures c in [] {
      assert owner[c] == HELD && c in [b];
    }
  }

  lemma HeldNow(owner: seq<int>, b: nat)
    requires Owns(owner, HELD, []) && b < |owner| && owner[b] != HELD
    ensures Owns(owner[b := HELD], HELD, [b])
  {
    OwnsFront(owner, HELD, [], b);
    assert [b] + [] == [b];
  }

  // ---- Each update keeps the lists ----

  lemma TakeFreeStep(l: Links, s: Shape)
    requires Shaped(l, s, []) && l.free != NULL
    ensures 0 <= l.free < |l.next|
    ensures Shaped(TakeFree(l), s.(freeList := s.freeList[1..], owner := s.owner[l.free := HELD]), [l.free])
  {
    var b := s.freeList[0];
    var m, t := TakeFree(l), s.(freeList := s.freeList[1..], owner := s.owner[b := HELD]);
    OwnsTail(s.owner, FREE, s.freeList, HELD);
    ChainTail(l.next, l.free, s.freeList);
    ChainFrame(l.next, m.free, s.freeList[1..], b, NULL);
    HeldNow(s.owner, b);
    QueuesFrame(l, s, m, t, b, HELD, b, NULL, -1);
    hide QueueShaped, Chain, Owns;
  }

  lemma NewStep(l: Links, s: Shape)
    requires Shaped(l, s, [])
    ensures Shaped(NewBip(l), s.(owner := s.owner + [HELD]), [|l.next|])
  {
    var m, t := NewBip(l), s.(owner := s.owner + [HELD]);
    ListGrows(l.next, s.owner, l.free, FREE, s.freeList);
    HeldAppended(s.owner);
    forall q | 0 <= q < |m.queues| ensures QueueShaped(m, t, q) {
      assert QueueShaped(l, s, q);
      ListGrows(l.next, s.owner, l.queues[q].first, q, s.chains[q]);
      hide Chain, Owns;
    }
    hide QueueShaped, Chain, Owns;
  }

  lemma HeldAppended(owner: seq<int>)
    requires Owns(owner, HELD, [])
    ensures Owns(owner + [HELD], HELD, [|owner|])
  {
    var now := owner + [HELD];
    forall c | 0 <= c < |now| && now[c] == HELD ensures c in [|owner|] {
      assert c < |owner| ==> owner[c] == HELD;
    }
  }

  lemma ListGrows(next: seq<int>, owner: seq<int>, head: int, who: int, chain: seq<nat>)
    requires Chain(next, head, chain) && Owns(owner, who, chain) && who != HELD
    ensures Chain(next + [NULL], head, chain) && Owns(owner + [HELD], who, chain)
  {
    var now := owner + [HELD];
    forall b | 0 <= b < |now| && now[b] == who ensures b in chain {
      assert owner[b] == who;
    }
  }

  lemma AttachStep(l: Links, s: Shape, q: nat, b: nat)
    requires Shaped(l, s, [b]) && q < |l.queues| && b < |l.next| && l.next[b] == NULL
    ensures l.queues[q].last < |l.next|
    ensures Shaped(Attach(l, q, b), s.(chains := s.chains[q := s.chains[q] + [b]], owner := s.owner[b := q]), [])
  {
    HeldOnly(s.owner, b, q);
    OwnsFrame(s.owner, FREE, s.freeList, b, q);
    assert QueueShaped(l, s, q);
    QueueAttach(l, s, q, b);
    var m, t := Attach(l, q, b), s.(chains := s.chains[q := s.chains[q] + [b]], owner := s.owner[b := q]);
    var last := l.queues[q].last;
    if last < 0 {
      QueuesFrame(l, s, m, t, b, q, b, l.next[b], q);
    } else {
      QueuesFrame(l, s, m, t, b, q, last, b, q);
      ChainFrame(l.next, l.free, s.freeList, last, b);
    }
    hide QueueShaped, Chain, Owns;
  }

  lemma DetachStep(l: Links, s: Shape, q: nat)
    requires Shaped(l, s, []) && q < |l.queues| && l.queues[q].first != NULL
    ensures 0 <= l.queues[q].first < |l.next| && s.chains[q] != [] && l.queues[q].first == s.chains[q][0]
    ensures Shaped(Detach(l, q),
                   s.(chains := s.chains[q := s.chains[q][1..]], owner := s.owner[l.queues[q].first := HELD]),
                   [l.queues[q].first])
  {
    assert QueueShaped(l, s, q);
    QueueDetach(l, s, q);
    var b := s.chains[q][0];
    var m, t := Detach(l, q), s.(chains := s.chains[q := s.chains[q][1..]], owner := s.owner[b := HELD]);
    HeldNow(s.owner, b);
    OwnsFrame(s.owner, FREE, s.freeList, b, HELD);
    QueuesFrame(l, s, m, t, b, HELD, b, l.next[b], q);
    hide QueueShaped, Chain, Owns;
  }

  lemma ReleaseStep(l: Links, s: Shape, b: nat)
    requires Shaped(l, s, [b]) && b < |l.next|
    ensures Shaped(Release(l, b), s.(freeList := [b] + s.freeList, owner := s.owner[b := FREE]), [])
  {
    HeldOnly(s.owner, b, FREE);
    var m, t := Release(l, b), s.(freeList := [b] + s.freeList, owner := s.owner[b := FREE]);
    OwnsFront(s.owner, FREE, s.freeList, b);
    ChainCons(l.next, l.free, s.freeList, b);
    QueuesFrame(l, s, m, t, b, FREE, b, l.free, -1);
    hide QueueShaped, Chain, Owns;
  }

  // ---- What the chains hold ----

  /** The bytes of the buffers of `chain`, in order. */
  function Buffered(contents: seq<seq<byte>>, chain: seq<nat>): seq<byte> {
    if chain == [] then []
    else (if chain[0] < |contents| then contents[chain[0]] else []) + Buffered(contents, chain[1..])
  }

  lemma {:induction false} BufferedFrame(contents: seq<seq<byte>>, now: seq<seq<byte>>, chain: seq<nat>)
    requires forall i :: 0 <= i < |chain| ==>
               chain[i] < |contents| && chain[i] < |now| && now[chain[i]] == contents[chain[i]]
    ensures Buffered(now, chain) == Buffered(contents, chain)
  {
    if chain == [] {
    } else {
      BufferedFrame(contents, now, chain[1..]);
    }
  }

  lemma {:induction false} BufferedSnoc(contents: seq<seq<byte>>, chain: seq<nat>, b: nat)
    requires b < |contents|
    ensures Buffered(contents, chain + [b]) == Buffered(contents, chain) + contents[b]
  {
    if chain == [] {
      assert chain + [b] == [b];
    } else {
      assert (chain + [b])[1..] == chain[1..] + [b];
      BufferedSnoc(contents, chain[1..], b);
    }
  }

  /** Writing to the last buffer appends to the queue. */
  lemma BufferedAppend(contents: seq<seq<byte>>, owner: seq<int>, who: int, chain: seq<nat>, data: seq<byte>)
    requires Owns(owner, who, chain) && |owner| == |contents| && chain != []
    ensures var b := chain[|chain| - 1];
            Buffered(contents[b := contents[b] + data], chain) == Buffered(contents, chain) + data
  {
    var front, b := chain[..|chain| - 1], chain[|chain| - 1];
    assert chain == front + [b];
    var now := contents[b := contents[b] + data];
    BufferedFrame(contents, now, front);
    BufferedSnoc(contents, front, b);
    BufferedSnoc(now, front, b);
  }

  /** Dropping bytes of the first buffer drops them from the queue. */
  lemma BufferedDrop(contents: seq<seq<byte>>, owner: seq<int>, who: int, chain: seq<nat>, n: nat)
    requires Owns(owner, who, chain) && |owner| == |contents| && chain != [] && n <= |contents[chain[0]]|
    ensures var b := chain[0];
            n <= |Buffered(contents, chain)|
            && Buffered(contents, chain)[..n] == contents[b][..n]
            && Buffered(contents[b := contents[b][n..]], chain) == Buffered(contents, chain)[n..]
  {
    var b := chain[0];
    BufferedFrame(contents, contents[b := contents[b][n..]], chain[1..]);
  }

  /** Each buffer of the pool is in the free list or in one queue, never in two
      places and never twice in one. */
  lemma PoolPartition(l: Links, s: Shape, b: nat)
    requires Shaped(l, s, []) && b < |l.next|
    ensures b in s.freeList <==> forall q :: 0 <= q < |s.chains| ==> b !in s.chains[q]
    ensures forall p, q :: 0 <= p < |s.chains| && 0 <= q < |s.chains| && b in s.chains[p] && b in s.chains[q] ==> p == q
    ensures forall q, i, j ::
              0 <= q < |s.chains| && 0 <= i < |s.chains[q]| && 0 <= j < |s.chains[q]| && s.chains[q][i] == s.chains[q][j] == b
              ==> i == j
  {
    forall q | 0 <= q < |s.chains| ensures b in s.chains[q] <==> s.owner[b] == q {
      assert QueueShaped(l, s, q);
    }
    forall q, i, j | 0 <= q < |s.chains| && 0 <= i < |s.chains[q]| && 0 <= j < |s.chains[q]|
        && s.chains[q][i] == b && s.chains[q][j] == b
      ensures i == j
    {
      assert QueueShaped(l, s, q);
    }
    if s.owner[b] >= 0 {
      assert b in s.chains[s.owner[b]];
    }
  }
}
