/** Scatter-gather transfers (dma-helpers.c) as values: the guest memory a list
    names, how far a request has got, and its state after any run of events. */
module DmaModel {
  /** `len` bytes of guest memory from `base` on. */
  datatype Range = Range(base: int, len: nat)

  /** One attempt of `cpu_physical_memory_map`: it fails, or maps up to `n`
      bytes, at least one of those asked for. */
  datatype MapResult = NoMemory | Mapped(n: nat)

  /** What may happen to a request: its transfer completes, the map client is
      told to try again, or its bottom half runs.  `maps` and `accepted` are the
      answers that the resumed code then gets from its environment. */
  datatype Event =
    | Complete(ret: int, maps: seq<MapResult>, accepted: bool)
    | MapClient
    | BottomHalf(maps: seq<MapResult>, accepted: bool)

  // ---- Addresses of a list, byte by byte ----

  function Span(base: int, len: nat): (s: seq<int>)
    ensures |s| == len
  {
    seq(len, i => base + i)
  }

  function Addresses(list: seq<Range>): seq<int> {
    if list == [] then [] else Span(list[0].base, list[0].len) + Addresses(list[1..])
  }

  /** The bytes of `list` before byte `byte` of entry `index`. */
  function Prefix(list: seq<Range>, index: nat, byte: nat): seq<int>
    requires index <= |list|
  {
    Addresses(list[..index]) + if index < |list| then Span(list[index].base, byte) else []
  }

  lemma {:induction false} AddressesSnoc(list: seq<Range>, r: Range)
    ensures Addresses(list + [r]) == Addresses(list) + Span(r.base, r.len)
  {
    if list == [] {
      assert list + [r] == [r];
    } else {
      assert (list + [r])[1..] == list[1..] + [r];
      AddressesSnoc(list[1..], r);
    }
  }

  /** Between the bytes of a list, or behind its last one. */
  predicate InList(list: seq<Range>, index: nat, byte: nat) {
    index <= |list| && (byte == 0 || (index < |list| && byte < list[index].len))
  }

  /** Position after `n` more bytes of the current entry. */
  function NextIndex(list: seq<Range>, index: nat, byte: nat, n: nat): nat
    requires index < |list|
  {
    if byte + n == list[index].len then index + 1 else index
  }

  function NextByte(list: seq<Range>, index: nat, byte: nat, n: nat): nat
    requires index < |list|
  {
    if byte + n == list[index].len then 0 else byte + n
  }

  lemma PrefixGrows(list: seq<Range>, index: nat, byte: nat, n: nat)
    requires index < |list| && byte + n <= list[index].len
    ensures Prefix(list, NextIndex(list, index, byte, n), NextByte(list, index, byte, n))
            == Prefix(list, index, byte) + Span(list[index].base + byte, n)
  {
    var e := list[index];
    assert Span(e.base, byte + n) == Span(e.base, byte) + Span(e.base + byte, n);
    if byte + n == e.len {
      assert list[..index + 1] == list[..index] + [e];
      AddressesSnoc(list[..index], e);
      assert index + 1 < |list| ==> Span(list[index + 1].base, 0) == [];
    }
    hide Addresses;
  }

  /** How much of the `len` bytes asked for a successful map gives. */
  function Granted(n: nat, len: nat): (r: nat)
    requires len > 0
    ensures 0 < r <= len
  {
    if n > len then len else if n == 0 then 1 else n
  }

  /** Whether mapping from a position ends there: at the end of the list, with a
      failed map, or at an empty entry, for which no map succeeds. */
  predicate Stuck(list: seq<Range>, index: nat, byte: nat, maps: seq<MapResult>)
    requires InList(list, index, byte)
  {
    index == |list| || maps == [] || maps[0].NoMemory? || list[index].len == byte
  }

  /** The ranges that mapping from a position yields, until it fails. */
  function Pieces(list: seq<Range>, index: nat, byte: nat, maps: seq<MapResult>): seq<Range>
    requires InList(list, index, byte)
    decreases |maps|
  {
    if Stuck(list, index, byte, maps) then []
    else
      var n := Granted(maps[0].n, list[index].len - byte);
      [Range(list[index].base + byte, n)]
      + Pieces(list, NextIndex(list, index, byte, n), NextByte(list, index, byte, n), maps[1..])
  }

  /** The position in the list after that. */
  function PositionAfter(list: seq<Range>, index: nat, byte: nat, maps: seq<MapResult>): (p: (nat, nat))
    requires InList(list, index, byte)
    ensures InList(list, p.0, p.1) && p.0 >= index
    decreases |maps|
  {
    if Stuck(list, index, byte, maps) then (index, byte)
    else
      var n := Granted(maps[0].n, list[index].len - byte);
      PositionAfter(list, NextIndex(list, index, byte, n), NextByte(list, index, byte, n), maps[1..])
  }

  /** The pieces are the bytes of the list between the two positions. */
  lemma {:induction false} PiecesAdvance(list: seq<Range>, index: nat, byte: nat, maps: seq<MapResult>)
    requires InList(list, index, byte)
    ensures var (i, b) := PositionAfter(list, index, byte, maps);
            Prefix(list, i, b) == Prefix(list, index, byte) + Addresses(Pieces(list, index, byte, maps))
    decreases |maps|
  {
    hide Prefix, Span;
    if !Stuck(list, index, byte, maps) {
      var n := Granted(maps[0].n, list[index].len - byte);
      PrefixGrows(list, index, byte, n);
      PiecesAdvance(list, NextIndex(list, index, byte, n), NextByte(list, index, byte, n), maps[1..]);
    }
  }

  /** A position from which mapping yields the rest of `pieces` and ends at `end`. */
  predicate Heading(list: seq<Range>, iov: seq<Range>, index: nat, byte: nat, maps: seq<MapResult>,
                    pieces: seq<Range>, end: (nat, nat)) {
    && InList(list, index, byte) && iov + Pieces(list, index, byte, maps) == pieces
    && PositionAfter(list, index, byte, maps) == end
  }

  lemma HeadingStep(list: seq<Range>, iov: seq<Range>, index: nat, byte: nat, maps: seq<MapResult>,
                    pieces: seq<Range>, end: (nat, nat))
    requires Heading(list, iov, index, byte, maps, pieces, end)
    ensures if Stuck(list, index, byte, maps) then iov == pieces && (index, byte) == end
            else
              var n := Granted(maps[0].n, list[index].len - byte);
              Heading(list, iov + [Range(list[index].base + byte, n)], NextIndex(list, index, byte, n),
                      NextByte(list, index, byte, n), maps[1..], pieces, end)
  {
    if !Stuck(list, index, byte, maps) {
      var n := Granted(maps[0].n, list[index].len - byte);
      var more := Pieces(list, NextIndex(list, index, byte, n), NextByte(list, index, byte, n), maps[1..]);
      var piece := [Range(list[index].base + byte, n)];
      assert iov + (piece + more) == (iov + piece) + more;
    }
  }

  // ---- Requests ----

  /** `DMAAIOCB`.  `acb` tells whether a transfer is under way, `registered`
      whether the request waits as a map client, `bh` whether its bottom half is
      scheduled; `callbacks` holds the results that the user was given.  A
      request whose later submission the driver refused is `abandoned`: nothing
      is awaited.  `moved` are the addresses that finished transfers moved, and
      `sizes` the sizes of those transfers. */
  datatype Request = Request(sectorNum: int, index: nat, byte: nat, iov: seq<Range>, acb: bool, registered: bool,
                             bh: bool, released: bool, abandoned: bool, callbacks: seq<int>, moved: seq<int>,
                             sizes: seq<nat>)

  function NewRequest(start: int): Request {
    Request(start, 0, 0, [], false, false, false, false, false, [], [], [])
  }

  predicate Placed(sg: seq<Range>, q: Request) { InList(sg, q.index, q.byte) }

  /** The start of `dma_bdrv_cb`: the sectors that are done, and the ranges
      unmapped again. */
  function StockTaken(q: Request, ret: int): Request {
    var whole := |Addresses(q.iov)| / 512;
    var t := q.(acb := false, sectorNum := q.sectorNum + whole, iov := []);
    if ret < 0 then t
    else t.(moved := q.moved + Addresses(q.iov)[..512 * whole], sizes := q.sizes + [|Addresses(q.iov)|])
  }

  /** The rest of `dma_bdrv_cb` when there is list left: what can be mapped is
      submitted, and otherwise waited for. */
  function Submitted(sg: seq<Range>, q: Request, maps: seq<MapResult>, accepted: bool): (r: Request)
    requires Placed(sg, q)
    ensures Placed(sg, r)
  {
    var pieces, p := Pieces(sg, q.index, q.byte, maps), PositionAfter(sg, q.index, q.byte, maps);
    var u := q.(index := p.0, byte := p.1, iov := pieces);
    if Addresses(pieces) == [] then u.(registered := true)
    else if accepted then u.(acb := true)
    else u.(abandoned := true)
  }

  /** `dma_bdrv_cb`. */
  function Continued(sg: seq<Range>, q: Request, ret: int, maps: seq<MapResult>, accepted: bool): (r: Request)
    requires Placed(sg, q)
    ensures Placed(sg, r)
  {
    var t := StockTaken(q, ret);
    if q.index == |sg| || ret < 0 then t.(callbacks := q.callbacks + [ret], released := true)
    else Submitted(sg, t, maps, accepted)
  }

  /** Whether the request acts on an event. */
  predicate Enabled(q: Request, e: Event) {
    match e
    case Complete(_, _, _) => q.acb
    case MapClient => q.registered
    case BottomHalf(_, _) => q.bh
  }

  function Step(sg: seq<Range>, q: Request, e: Event): (r: Request)
    requires Placed(sg, q)
    ensures Placed(sg, r)
  {
    if !Enabled(q, e) then q
    else
      match e
      case Complete(ret, maps, accepted) => Continued(sg, q, ret, maps, accepted)
      case MapClient => q.(registered := false, bh := true)
      case BottomHalf(maps, accepted) => Continued(sg, q.(bh := false), 0, maps, accepted)
  }

  /** The request after all of `events`, in order. */
  function After(sg: seq<Range>, q: Request, events: seq<Event>): (r: Request)
    requires Placed(sg, q)
    ensures Placed(sg, r)
  {
    if events == [] then q else Step(sg, After(sg, q, events[..|events| - 1]), events[|events| - 1])
  }

  // ---- Accounts ----

  /** Bytes that transfers of these sizes leave out, as they move whole sectors. */
  function Leftover(sizes: seq<nat>): nat {
    if sizes == [] then 0 else Leftover(sizes[..|sizes| - 1]) + sizes[|sizes| - 1] % 512
  }

  predicate WholeSectors(sizes: seq<nat>) { forall i :: 0 <= i < |sizes| ==> sizes[i] % 512 == 0 }

  lemma {:induction false} LeftoverIff(sizes: seq<nat>)
    ensures Leftover(sizes) == 0 <==> WholeSectors(sizes)
  {
    if sizes == [] {
    } else {
      var front := sizes[..|sizes| - 1];
      LeftoverIff(front);
      assert forall i :: 0 <= i < |front| ==> front[i] == sizes[i];
    }
  }

  /** Where a request stands: moved bytes, position in the list, mapped ranges.
      `lost` counts mapped bytes that no transfer covered. */
  ghost predicate Accounted(sg: seq<Range>, start: int, sectorNum: int, index: nat, byte: nat, iov: seq<Range>,
                            moved: seq<int>, lost: nat) {
    && index <= |sg|
    && |moved| == 512 * (sectorNum - start)
    && |moved| + |Addresses(iov)| + lost == |Prefix(sg, index, byte)|
    && (lost == 0 ==> moved + Addresses(iov) == Prefix(sg, index, byte))
  }

  /** Mapping one more range. */
  lemma AccountMapped(sg: seq<Range>, start: int, sectorNum: int, index: nat, byte: nat, iov: seq<Range>,
                      moved: seq<int>, lost: nat, n: nat)
    requires Accounted(sg, start, sectorNum, index, byte, iov, moved, lost)
    requires index < |sg| && byte + n <= sg[index].len
    ensures Accounted(sg, start, sectorNum, NextIndex(sg, index, byte, n), NextByte(sg, index, byte, n),
                      iov + [Range(sg[index].base + byte, n)], moved, lost)
  {
    PrefixGrows(sg, index, byte, n);
    AddressesSnoc(iov, Range(sg[index].base + byte, n));
    hide Prefix, Addresses, Span;
  }

  /** Mapping until it stops. */
  lemma {:induction false} AccountPieces(sg: seq<Range>, start: int, sectorNum: int, index: nat, byte: nat,
                                         iov: seq<Range>, moved: seq<int>, lost: nat, maps: seq<MapResult>)
    requires InList(sg, index, byte) && Accounted(sg, start, sectorNum, index, byte, iov, moved, lost)
    ensures var (i, b) := PositionAfter(sg, index, byte, maps);
            Accounted(sg, start, sectorNum, i, b, iov + Pieces(sg, index, byte, maps), moved, lost)
    decreases |maps|
  {
    hide Accounted;
    if Stuck(sg, index, byte, maps) {
      assert iov + [] == iov;
    } else {
      var n := Granted(maps[0].n, sg[index].len - byte);
      var piece := Range(sg[index].base + byte, n);
      AccountMapped(sg, start, sectorNum, index, byte, iov, moved, lost, n);
      var i, b := NextIndex(sg, index, byte, n), NextByte(sg, index, byte, n);
      AccountPieces(sg, start, sectorNum, i, b, iov + [piece], moved, lost, maps[1..]);
      var more := Pieces(sg, i, b, maps[1..]);
      assert iov + ([piece] + more) == iov + [piece] + more;
    }
  }

  /** A finished transfer: nothing is mapped any more, and what did not fill a
      sector is lost. */
  lemma AccountDone(sg: seq<Range>, start: int, sectorNum: int, index: nat, byte: nat, iov: seq<Range>,
                    moved: seq<int>, lost: nat)
    requires Accounted(sg, start, sectorNum, index, byte, iov, moved, lost)
    ensures var size := |Addresses(iov)|;
            Accounted(sg, start, sectorNum + size / 512, index, byte, [],
                      moved + Addresses(iov)[..512 * (size / 512)], lost + size % 512)
  {
    var size := |Addresses(iov)|;
    assert size == 512 * (size / 512) + size % 512;
    assert size % 512 == 0 ==> Addresses(iov)[..512 * (size / 512)] == Addresses(iov);
    hide Prefix;
  }

  /** Conservation, at every entry to `dma_bdrv_cb`: sectors done and bytes
      mapped account for the list so far exactly if every transfer so far was
      made of whole sectors. */
  lemma ConservedIff(sg: seq<Range>, start: int, sectorNum: int, index: nat, byte: nat, iov: seq<Range>,
                     moved: seq<int>, sizes: seq<nat>)
    requires Accounted(sg, start, sectorNum, index, byte, iov, moved, Leftover(sizes))
    ensures 512 * (sectorNum - start) + |Addresses(iov)| == |Prefix(sg, index, byte)| <==> WholeSectors(sizes)
    ensures moved + Addresses(iov) == Prefix(sg, index, byte) <==> WholeSectors(sizes)
  {
    LeftoverIff(sizes);
  }

  lemma LeftoverSnoc(sizes: seq<nat>, size: nat)
    ensures Leftover(sizes + [size]) == Leftover(sizes) + size % 512
  {
    assert (sizes + [size])[..|sizes|] == sizes;
  }

  lemma NoAddresses()
    ensures Addresses([]) == []
  {
  }

  lemma EndOfList(sg: seq<Range>, start: int, sectorNum: int, index: nat, byte: nat, moved: seq<int>, sizes: seq<nat>)
    requires Accounted(sg, start, sectorNum, index, byte, [], moved, Leftover(sizes)) && index == |sg|
    ensures moved == Addresses(sg) <==> WholeSectors(sizes)
  {
    LeftoverIff(sizes);
    assert sg[..index] == sg && Prefix(sg, index, byte) == Addresses(sg) + [];
    assert moved + Addresses([]) == moved;
  }

  // ---- Whole runs ----

  ghost predicate Balanced(sg: seq<Range>, start: int, q: Request) {
    Accounted(sg, start, q.sectorNum, q.index, q.byte, q.iov, q.moved, Leftover(q.sizes))
  }

  /** Between two events: exactly one thing is awaited, or the user has been
      called, once, or the request is abandoned.  Behind a success stands the
      whole list, moved in order if and only if all transfers were of whole
      sectors. */
  ghost predicate Settled(sg: seq<Range>, start: int, q: Request) {
    && Placed(sg, q)
    && (q.released || Balanced(sg, start, q))
    && Awaited(q) == 1
    && (q.acb <==> Addresses(q.iov) != [] && !q.released && !q.abandoned)
    && (q.registered || q.bh ==> q.index < |sg|)
    && (q.released <==> q.callbacks != []) && |q.callbacks| <= 1
    && (q.callbacks != [] && q.callbacks[0] >= 0 ==>
          q.index == |sg| && (q.moved == Addresses(sg) <==> WholeSectors(q.sizes)))
  }

  /** Of the five ways to be between two events, those that hold. */
  function Awaited(q: Request): nat {
    (if q.acb then 1 else 0) + (if q.registered then 1 else 0) + (if q.bh then 1 else 0)
    + (if q.released then 1 else 0) + (if q.abandoned then 1 else 0)
  }

  /** Entered by `dma_bdrv_cb` when nothing but its caller was awaited. */
  ghost predicate Entered(sg: seq<Range>, start: int, q: Request) {
    && Placed(sg, q) && Balanced(sg, start, q) && q.callbacks == []
    && !q.registered && !q.bh && !q.released && !q.abandoned
  }

  lemma StockKept(sg: seq<Range>, start: int, q: Request, ret: int)
    requires Balanced(sg, start, q) && ret >= 0
    ensures Balanced(sg, start, StockTaken(q, ret))
  {
    AccountDone(sg, start, q.sectorNum, q.index, q.byte, q.iov, q.moved, Leftover(q.sizes));
    LeftoverSnoc(q.sizes, |Addresses(q.iov)|);
    hide Accounted, Addresses, Leftover;
  }

  lemma ContinuedSettles(sg: seq<Range>, start: int, q: Request, ret: int, maps: seq<MapResult>, accepted: bool)
    requires Entered(sg, start, q)
    ensures Settled(sg, start, Continued(sg, q, ret, maps, accepted))
  {
    NoAddresses();
    if ret >= 0 {
      StockKept(sg, start, q, ret);
      var t := StockTaken(q, ret);
      if q.index == |sg| {
        EndOfList(sg, start, t.sectorNum, t.index, t.byte, t.moved, t.sizes);
      } else {
        AccountPieces(sg, start, t.sectorNum, t.index, t.byte, [], t.moved, Leftover(t.sizes), maps);
        assert [] + Pieces(sg, t.index, t.byte, maps) == Pieces(sg, t.index, t.byte, maps);
        NothingMapped(sg, t.index, t.byte, maps);
      }
    }
    hide Accounted, Addresses, Leftover, Pieces, PositionAfter, WholeSectors;
  }

  /** Nothing is mapped exactly if the first map gets nowhere. */
  lemma NothingMapped(sg: seq<Range>, index: nat, byte: nat, maps: seq<MapResult>)
    requires InList(sg, index, byte)
    ensures Addresses(Pieces(sg, index, byte, maps)) == [] <==> Stuck(sg, index, byte, maps)
    ensures Stuck(sg, index, byte, maps) ==> PositionAfter(sg, index, byte, maps) == (index, byte)
  {
  }

  lemma StepSettles(sg: seq<Range>, start: int, q: Request, e: Event)
    requires Settled(sg, start, q)
    ensures Settled(sg, start, Step(sg, q, e))
  {
    hide Accounted, Addresses, Leftover, Continued, WholeSectors;
    if Enabled(q, e) {
      match e
      case Complete(ret, maps, accepted) => ContinuedSettles(sg, start, q, ret, maps, accepted);
      case MapClient =>
      case BottomHalf(maps, accepted) => ContinuedSettles(sg, start, q.(bh := false), 0, maps, accepted);
    }
  }

  /** What every run keeps. */
  lemma {:induction false} RunSettles(sg: seq<Range>, start: int, q: Request, events: seq<Event>)
    requires Settled(sg, start, q)
    ensures Settled(sg, start, After(sg, q, events))
  {
    assert Placed(sg, q);
    hide Settled, Step;
    if events != [] {
      RunSettles(sg, start, q, events[..|events| - 1]);
      StepSettles(sg, start, After(sg, q, events[..|events| - 1]), events[|events| - 1]);
    }
  }

  /** A request that waits for nothing and was not abandoned has told its user
      exactly once, and a success it told of covers the list. */
  lemma ToldExactlyOnce(sg: seq<Range>, start: int, q: Request, events: seq<Event>)
    requires Settled(sg, start, q)
    ensures var r := After(sg, q, events);
            && (!r.acb && !r.registered && !r.bh && !r.abandoned <==> |r.callbacks| == 1)
            && (r.acb || r.registered || r.bh || r.abandoned ==> r.callbacks == [])
            && (r.callbacks != [] && r.callbacks[0] >= 0 ==>
                  r.index == |sg| && (r.moved == Addresses(sg) <==> WholeSectors(r.sizes)))
  {
    RunSettles(sg, start, q, events);
    hide Accounted, Addresses, Leftover, After, WholeSectors;
  }

  /** Nothing changes a request that is over. */
  lemma {:induction false} OverStays(sg: seq<Range>, start: int, q: Request, events: seq<Event>)
    requires Settled(sg, start, q) && (q.abandoned || q.released)
    ensures After(sg, q, events) == q
  {
    hide Accounted, Addresses, Leftover, WholeSectors, Continued;
    if events != [] {
      OverStays(sg, start, q, events[..|events| - 1]);
    }
  }

  /** A request that waits for memory goes on where it stopped, with the next
      sectors, once it is told to try again and its bottom half runs; if mapping
      fails again, it waits again. */
  lemma RetryResumes(sg: seq<Range>, start: int, q: Request, maps: seq<MapResult>, accepted: bool)
    requires Settled(sg, start, q) && q.registered
    ensures var r := After(sg, q, [MapClient, BottomHalf(maps, accepted)]);
            && r.sectorNum == q.sectorNum && r.moved == q.moved && r.callbacks == []
            && if Stuck(sg, q.index, q.byte, maps) then r.registered && (r.index, r.byte) == (q.index, q.byte)
               else
                 && r.acb == accepted && r.abandoned == !accepted && r.iov == Pieces(sg, q.index, q.byte, maps)
                 && (r.index, r.byte) == PositionAfter(sg, q.index, q.byte, maps)
  {
    var one, two := MapClient, BottomHalf(maps, accepted);
    assert [one, two][..1] == [one] && [one][..0] == [];
    assert After(sg, q, [one]) == Step(sg, After(sg, q, []), one);
    assert After(sg, q, [one, two]) == Step(sg, After(sg, q, [one]), two);
    NothingMapped(sg, q.index, q.byte, maps);
    NoAddresses();
    hide After, Pieces, PositionAfter, Accounted, WholeSectors;
    assert Addresses(q.iov) == [];
    assert StockTaken(q.(registered := false, bh := false), 0).moved == q.moved + [];
  }

  /** Event `e` makes the request go on, past what is done, to a submission
      that the driver refuses. */
  predicate Refused(sg: seq<Range>, q: Request, e: Event)
    requires Placed(sg, q)
  {
    && Enabled(q, e) && !e.MapClient? && !e.accepted && (e.Complete? ==> e.ret >= 0)
    && !Stuck(sg, q.index, q.byte, e.maps)
  }

  lemma StepAbandons(sg: seq<Range>, start: int, q: Request, e: Event)
    requires Settled(sg, start, q)
    ensures Step(sg, q, e).abandoned <==> q.abandoned || Refused(sg, q, e)
  {
    if Enabled(q, e) && !e.MapClient? {
      NothingMapped(sg, q.index, q.byte, e.maps);
    }
    hide Accounted, Addresses, Leftover, WholeSectors, Pieces, PositionAfter;
  }

  /** Event `i` of the run was refused. */
  predicate RefusedAt(sg: seq<Range>, q: Request, events: seq<Event>, i: nat)
    requires Placed(sg, q)
  {
    i < |events| && Refused(sg, After(sg, q, events[..i]), events[i])
  }

  lemma LastAbandons(sg: seq<Range>, start: int, q: Request, events: seq<Event>)
    requires Settled(sg, start, q) && events != []
    ensures var k := |events| - 1;
            After(sg, q, events).abandoned <==> After(sg, q, events[..k]).abandoned || RefusedAt(sg, q, events, k)
  {
    assert Placed(sg, q);
    hide Settled, Step, Refused;
    RunSettles(sg, start, q, events[..|events| - 1]);
    StepAbandons(sg, start, After(sg, q, events[..|events| - 1]), events[|events| - 1]);
  }

  lemma RefusedInFront(sg: seq<Range>, q: Request, events: seq<Event>, i: nat)
    requires Placed(sg, q) && events != []
    ensures var k := |events| - 1;
            (i < k ==> (RefusedAt(sg, q, events[..k], i) <==> RefusedAt(sg, q, events, i)))
            && (RefusedAt(sg, q, events[..k], i) ==> i < k) && (RefusedAt(sg, q, events, i) ==> i <= k)
  {
    assert i < |events| - 1 ==> events[..|events| - 1][..i] == events[..i];
    hide After, Refused;
  }

  ghost predicate SomeRefused(sg: seq<Range>, q: Request, events: seq<Event>)
    requires Placed(sg, q)
  {
    exists i: nat :: RefusedAt(sg, q, events, i)
  }

  lemma SomeRefusedSnoc(sg: seq<Range>, q: Request, events: seq<Event>)
    requires Placed(sg, q) && events != []
    ensures var k := |events| - 1;
            SomeRefused(sg, q, events) <==> SomeRefused(sg, q, events[..k]) || RefusedAt(sg, q, events, k)
  {
    hide RefusedAt;
    var k := |events| - 1;
    if SomeRefused(sg, q, events) {
      var i: nat :| RefusedAt(sg, q, events, i);
      RefusedInFront(sg, q, events, i);
    }
    if SomeRefused(sg, q, events[..k]) {
      var i: nat :| RefusedAt(sg, q, events[..k], i);
      RefusedInFront(sg, q, events, i);
    }
  }

  /** A run abandons a request if and only if one of its events was refused. */
  lemma {:induction false} AbandonedIff(sg: seq<Range>, start: int, q: Request, events: seq<Event>)
    requires Settled(sg, start, q) && !q.abandoned
    ensures After(sg, q, events).abandoned <==> SomeRefused(sg, q, events)
  {
    assert Placed(sg, q);
    if events == [] {
    } else {
      AbandonedIff(sg, start, q, events[..|events| - 1]);
      LastAbandons(sg, start, q, events);
      SomeRefusedSnoc(sg, q, events);
      hide *;
    }
  }

  // ---- Progress ----

  /** Bytes of the list that no transfer so far has been given. */
  function ToGo(sg: seq<Range>, q: Request): int
    requires Placed(sg, q)
  {
    |Addresses(sg)| - |Prefix(sg, q.index, q.byte)|
  }

  /** How many transfers of the request complete in a run. */
  function Completions(sg: seq<Range>, q: Request, events: seq<Event>): nat
    requires Placed(sg, q)
  {
    if events == [] then 0
    else
      var front, last := events[..|events| - 1], events[|events| - 1];
      Completions(sg, q, front) + if last.Complete? && After(sg, q, front).acb then 1 else 0
  }

  predicate NoneEmpty(sg: seq<Range>) { forall i :: 0 <= i < |sg| ==> sg[i].len > 0 }

  /** The list goes on behind every position but its end. */
  lemma {:induction false} PrefixLeaves(list: seq<Range>, index: nat, byte: nat)
    requires InList(list, index, byte)
    ensures |Prefix(list, index, byte)| <= |Addresses(list)|
    ensures index < |list| && byte < list[index].len ==> |Prefix(list, index, byte)| < |Addresses(list)|
  {
    if index == 0 {
      assert list[..0] == [];
    } else {
      PrefixLeaves(list[1..], index - 1, byte);
      assert list[..index][1..] == list[1..][..index - 1];
    }
  }

  /** Potential of a request: what is to go, and the transfer under way. */
  function Potential(sg: seq<Range>, q: Request): int
    requires Placed(sg, q)
  {
    ToGo(sg, q) + if q.acb then 1 else 0
  }

  lemma ContinuedPotential(sg: seq<Range>, q: Request, ret: int, maps: seq<MapResult>, accepted: bool)
    requires Placed(sg, q)
    ensures var r := Continued(sg, q, ret, maps, accepted);
            r.callbacks == [] ==> Potential(sg, r) <= ToGo(sg, q)
  {
    PiecesAdvance(sg, q.index, q.byte, maps);
    hide Prefix, Pieces, PositionAfter, Addresses;
  }

  /** A request neither finished nor abandoned pays for every completion. */
  lemma {:induction false} CompletionsPaid(sg: seq<Range>, start: int, q: Request, events: seq<Event>)
    requires Settled(sg, start, q)
    ensures var r := After(sg, q, events);
            r.callbacks == [] ==> Completions(sg, q, events) + Potential(sg, r) <= Potential(sg, q)
  {
    assert Placed(sg, q);
    if events != [] {
      var front, e := events[..|events| - 1], events[|events| - 1];
      CompletionsPaid(sg, start, q, front);
      RunSettles(sg, start, q, front);
      var m := After(sg, q, front);
      assert m.callbacks != [] ==> m.released && !m.acb && !m.registered && !m.bh;
      if Enabled(m, e) {
        match e
        case Complete(ret, maps, accepted) => ContinuedPotential(sg, m, ret, maps, accepted);
        case MapClient =>
        case BottomHalf(maps, accepted) => ContinuedPotential(sg, m.(bh := false), 0, maps, accepted);
      }
    }
    hide Settled, Prefix, Continued;
  }

  /** Completion: a list without empty entries is gone through after at most as
      many transfers as it has bytes, however maps fail in between.  By then the
      user has been called, unless the request was abandoned. */
  lemma EnoughCompletions(sg: seq<Range>, start: int, q: Request, events: seq<Event>)
    requires Settled(sg, start, q) && NoneEmpty(sg)
    requires Completions(sg, q, events) > ToGo(sg, q)
    ensures var r := After(sg, q, events); r.abandoned || |r.callbacks| == 1
  {
    CompletionsPaid(sg, start, q, events);
    RunSettles(sg, start, q, events);
    var r := After(sg, q, events);
    PrefixLeaves(sg, r.index, r.byte);
    hide Balanced, Prefix, Addresses, Completions, After, WholeSectors;
  }

  /** A transfer that succeeds, followed by a map that succeeds and by a
      submission that is accepted. */
  predicate Smooth(e: Event) { e.Complete? && e.ret >= 0 && e.accepted && e.maps != [] && e.maps[0].Mapped? }

  predicate AllSmooth(events: seq<Event>) { forall i :: 0 <= i < |events| ==> Smooth(events[i]) }

  /** Smooth events keep a transfer under way until the user is told of success. */
  lemma {:induction false} SmoothRun(sg: seq<Range>, start: int, q: Request, events: seq<Event>)
    requires Settled(sg, start, q) && q.acb && NoneEmpty(sg) && AllSmooth(events)
    ensures var r := After(sg, q, events);
            if r.callbacks == [] then r.acb && Completions(sg, q, events) == |events|
            else |r.callbacks| == 1 && r.callbacks[0] >= 0
  {
    if events == [] {
    } else {
      var front, e := events[..|events| - 1], events[|events| - 1];
      assert Smooth(e);
      SmoothRun(sg, start, q, front);
      RunSettles(sg, start, q, front);
      var m := After(sg, q, front);
      NothingMapped(sg, m.index, m.byte, e.maps);
    }
    hide Balanced, WholeSectors, Pieces, PositionAfter, Addresses;
  }

  /** Without failures the user is told, once, and of success, after at most one
      transfer more than there are bytes to go. */
  lemma SmoothRunSucceeds(sg: seq<Range>, start: int, q: Request, events: seq<Event>)
    requires Settled(sg, start, q) && q.acb && NoneEmpty(sg) && AllSmooth(events) && |events| > ToGo(sg, q)
    ensures var r := After(sg, q, events);
            && |r.callbacks| == 1 && r.callbacks[0] >= 0 && r.index == |sg|
            && (r.moved == Addresses(sg) <==> WholeSectors(r.sizes))
  {
    SmoothRun(sg, start, q, events);
    RunSettles(sg, start, q, events);
    if After(sg, q, events).callbacks == [] {
      EnoughCompletions(sg, start, q, events);
    }
    hide Balanced, WholeSectors, After, Completions, Addresses;
  }

  // ---- Which lists can succeed ----

  /** The request `dma_bdrv_io` starts, after its first call of `dma_bdrv_cb`. */
  function Begun(sg: seq<Range>, start: int, maps: seq<MapResult>, accepted: bool): (r: Request)
    ensures Placed(sg, r)
  {
    Continued(sg, NewRequest(start), 0, maps, accepted)
  }

  lemma NewEntered(sg: seq<Range>, start: int)
    ensures Entered(sg, start, NewRequest(start))
  {
    assert sg[..0] == [];
  }

  lemma BegunSettles(sg: seq<Range>, start: int, maps: seq<MapResult>, accepted: bool)
    ensures Settled(sg, start, Begun(sg, start, maps, accepted))
  {
    NewEntered(sg, start);
    ContinuedSettles(sg, start, NewRequest(start), 0, maps, accepted);
  }

  /** Mapping never gets past an empty entry. */
  lemma {:induction false} EmptyEntryStops(list: seq<Range>, index: nat, byte: nat, maps: seq<MapResult>, k: nat)
    requires InList(list, index, byte) && index <= k < |list| && list[k].len == 0
    ensures PositionAfter(list, index, byte, maps).0 <= k
    decreases |maps|
  {
    if !Stuck(list, index, byte, maps) {
      var n := Granted(maps[0].n, list[index].len - byte);
      EmptyEntryStops(list, NextIndex(list, index, byte, n), NextByte(list, index, byte, n), maps[1..], k);
    }
  }

  /** So no run gets past it. */
  lemma {:induction false} EmptyEntryBlocks(sg: seq<Range>, q: Request, events: seq<Event>, k: nat)
    requires Placed(sg, q) && q.index <= k < |sg| && sg[k].len == 0
    ensures After(sg, q, events).index <= k
  {
    hide Pieces, PositionAfter, Addresses, InList;
    if events != [] {
      var front, e := events[..|events| - 1], events[|events| - 1];
      EmptyEntryBlocks(sg, q, front, k);
      var m := After(sg, q, front);
      hide After;
      if Enabled(m, e) && !e.MapClient? {
        EmptyEntryStops(sg, m.index, m.byte, e.maps, k);
      }
    }
  }

  function WholeMaps(list: seq<Range>): (maps: seq<MapResult>)
    ensures |maps| == |list| && forall i :: 0 <= i < |list| ==> maps[i] == Mapped(list[i].len)
  {
    seq(|list|, i requires 0 <= i < |list| => Mapped(list[i].len))
  }

  lemma {:induction false} WholeMapsReachEnd(list: seq<Range>, index: nat)
    requires index <= |list| && NoneEmpty(list)
    ensures PositionAfter(list, index, 0, WholeMaps(list)[index..]) == (|list|, 0)
    decreases |list| - index
  {
    if index < |list| {
      var maps := WholeMaps(list);
      assert maps[index..][0] == maps[index] && maps[index..][1..] == maps[index + 1..];
      WholeMapsReachEnd(list, index + 1);
    }
  }

  /** Some run tells the user of success if and only if no entry is empty. */
  lemma CanSucceedIff(sg: seq<Range>, start: int)
    ensures (exists maps, accepted, events ::
               After(sg, Begun(sg, start, maps, accepted), events).callbacks == [0])
            <==> NoneEmpty(sg)
  {
    hide Settled, After, Addresses, Pieces, PositionAfter, Continued;
    if NoneEmpty(sg) {
      SuccessRun(sg, start);
    } else {
      var k :| 0 <= k < |sg| && sg[k].len == 0;
      forall maps, accepted, events
        ensures After(sg, Begun(sg, start, maps, accepted), events).callbacks != [0]
      {
        NoSuccessPast(sg, start, maps, accepted, events, k);
      }
    }
  }

  lemma SuccessRun(sg: seq<Range>, start: int)
    requires NoneEmpty(sg)
    ensures exists maps, accepted, events :: After(sg, Begun(sg, start, maps, accepted), events).callbacks == [0]
  {
    var maps, e := WholeMaps(sg), Complete(0, [], true);
    var q := Begun(sg, start, maps, true);
    assert After(sg, q, []) == q;
    if sg == [] {
    } else {
      assert maps[0..] == maps;
      WholeMapsReachEnd(sg, 0);
      NothingMapped(sg, 0, 0, maps);
      assert [e][..0] == [];
      assert After(sg, q, [e]).callbacks == [0];
    }
  }

  lemma NoSuccessPast(sg: seq<Range>, start: int, maps: seq<MapResult>, accepted: bool, events: seq<Event>, k: nat)
    requires k < |sg| && sg[k].len == 0
    ensures After(sg, Begun(sg, start, maps, accepted), events).callbacks != [0]
  {
    var q := Begun(sg, start, maps, accepted);
    BegunSettles(sg, start, maps, accepted);
    EmptyEntryStops(sg, 0, 0, maps, k);
    EmptyEntryBlocks(sg, q, events, k);
    RunSettles(sg, start, q, events);
    hide After;
  }

  /** A run through a refused submission: of two entries, the second cannot be
      submitted after the first.  The user is never called, whatever follows. */
  lemma RefusedNeverTold(more: seq<Event>)
    ensures var sg := [Range(0, 512), Range(4096, 512)];
            var q := Begun(sg, 0, [Mapped(512)], true);
            var r := After(sg, q, [Complete(0, [Mapped(512)], false)] + more);
            q.acb && r.abandoned && r.callbacks == [] && r.index == 2 && |r.moved| == 512
  {
    var sg := [Range(0, 512), Range(4096, 512)];
    var maps, e := [Mapped(512)], Complete(0, [Mapped(512)], false);
    var q := Begun(sg, 0, maps, true);
    BegunSettles(sg, 0, maps, true);
    OneEntry(sg, 0, maps);
    OneEntry(sg, 1, maps);
    assert After(sg, q, []) == q && [e][..0] == [];
    var r := After(sg, q, [e]);
    StepSettles(sg, 0, q, e);
    AfterTwo(sg, q, [e], more);
    OverStays(sg, 0, r, more);
    hide Settled, Addresses, Pieces, PositionAfter;
  }

  lemma OneEntry(sg: seq<Range>, index: nat, maps: seq<MapResult>)
    requires index < |sg| && sg[index].len > 0 && maps == [Mapped(sg[index].len)]
    ensures Pieces(sg, index, 0, maps) == [sg[index]]
    ensures PositionAfter(sg, index, 0, maps) == (index + 1, 0)
    ensures |Addresses([sg[index]])| == sg[index].len
  {
    assert maps[1..] == [];
    assert Pieces(sg, index + 1, 0, []) == [];
    assert [sg[index]][1..] == [];
  }

  /** A run in two parts. */
  lemma {:induction false} AfterTwo(sg: seq<Range>, q: Request, events: seq<Event>, more: seq<Event>)
    requires Placed(sg, q)
    ensures After(sg, q, events + more) == After(sg, After(sg, q, events), more)
  {
    hide Step;
    if more == [] {
      assert events + more == events;
    } else {
      var front := more[..|more| - 1];
      assert (events + more)[..|events + more| - 1] == events + front;
      AfterTwo(sg, q, events, front);
    }
  }
}
