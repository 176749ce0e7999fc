/** Scatter-gather transfers (dma-helpers.c): a list of guest memory ranges is
    mapped piece by piece and moved to or from consecutive sectors. */
module Dma {
  import opened DmaModel

  /** `QEMUSGList`. */
  class SgList {
    var sg: array<Range>
    var nsg: nat
    var nalloc: nat
    var size: nat

    ghost predicate Valid()
      reads this, sg
    {
      nsg <= nalloc == sg.Length && size == |Addresses(sg[..nsg])|
    }

    constructor (hint: nat)
      ensures Valid() && nsg == 0 && fresh(sg)
    {
      sg := new Range[hint](_ => Range(0, 0));
      nsg, nalloc, size := 0, hint, 0;
    }

    /** `qemu_sglist_add`. */
    method Add(base: int, len: nat)
      requires Valid()
      modifies this, sg
      ensures Valid() && (sg == old(sg) || fresh(sg))
      ensures sg[..nsg] == old(sg[..nsg]) + [Range(base, len)] && size == old(size) + len
    {
      if nsg == nalloc {
        nalloc := 2 * nalloc + 1;
        var was := sg;
        sg := new Range[nalloc](i requires 0 <= i reads was => if i < was.Length then was[i] else Range(0, 0));
        assert sg[..nsg] == was[..nsg];
      }
      AddressesSnoc(sg[..nsg], Range(base, len));
      ghost var before := sg[..nsg];
      sg[nsg] := Range(base, len);
      size := size + len;
      nsg := nsg + 1;
      assert sg[..nsg] == before + [Range(base, len)];
    }
  }

  /** `DMAAIOCB`; see `Request`. */
  class DmaRequest {
    const sg: seq<Range>
    const start: int
    var sectorNum: int
    var index: nat
    var byte: nat
    var iov: seq<Range>
    var iovSize: nat
    var acb: bool
    var registered: bool
    var bh: bool
    var released: bool
    var abandoned: bool
    var callbacks: seq<int>
    ghost var moved: seq<int>
    /** Sizes of the transfers that succeeded. */
    ghost var sizes: seq<nat>

    ghost function Now(): Request
      reads this
    {
      Request(sectorNum, index, byte, iov, acb, registered, bh, released, abandoned, callbacks, moved, sizes)
    }

    ghost predicate Valid()
      reads this
    {
      iovSize == |Addresses(iov)| && Placed(sg, Now())
    }

    constructor (sg: seq<Range>, start: int)
      ensures Valid() && this.sg == sg && this.start == start && Now() == NewRequest(start)
    {
      this.sg, this.start, sectorNum, index, byte := sg, start, start, 0, 0;
      iov, iovSize, acb, registered, bh, released, abandoned := [], 0, false, false, false, false, false;
      callbacks, moved, sizes := [], [], [];
    }

    /** The mapping loop of `dma_bdrv_cb`: it stops at the first failed map or at
        the end of the list. */
    method MapMore(maps: seq<MapResult>)
      requires Valid()
      modifies this`index, this`byte, this`iov, this`iovSize
      ensures Valid() && iov == old(iov) + Pieces(sg, old(index), old(byte), maps)
      ensures (index, byte) == PositionAfter(sg, old(index), old(byte), maps)
    {
      hide Addresses, Pieces, PositionAfter;
      var turn := 0;
      ghost var pieces, end := old(iov) + Pieces(sg, index, byte, maps), PositionAfter(sg, index, byte, maps);
      assert maps[0..] == maps;
      while index < |sg|
        invariant Valid() && turn <= |maps| && Heading(sg, iov, index, byte, maps[turn..], pieces, end)
        decreases |maps| - turn
      {
        HeadingStep(sg, iov, index, byte, maps[turn..], pieces, end);
        var addr, len := sg[index].base + byte, sg[index].len - byte;
        if turn == |maps| || maps[turn].NoMemory? || len == 0 {
          return;
        }
        var n := Granted(maps[turn].n, len);
        assert maps[turn..][0] == maps[turn] && maps[turn..][1..] == maps[turn + 1..];
        turn := turn + 1;
        AddressesSnoc(iov, Range(addr, n));
        iov := iov + [Range(addr, n)];
        iovSize := iovSize + n;
        byte := byte + n;
        if byte == sg[index].len {
          byte := 0;
          index := index + 1;
        }
      }
      HeadingStep(sg, iov, index, byte, maps[turn..], pieces, end);
    }

    /** The start of `dma_bdrv_cb`: the sectors that are done, and the ranges
        unmapped again. */
    method TakeStock(ret: int)
      requires Valid()
      modifies this`acb, this`sectorNum, this`iov, this`iovSize, this`moved, this`sizes
      ensures Valid() && Now() == StockTaken(old(Now()), ret)
    {
      NoAddresses();
      acb := false;
      if ret >= 0 {
        moved := moved + Addresses(iov)[..512 * (iovSize / 512)];
        sizes := sizes + [iovSize];
      }
      sectorNum := sectorNum + iovSize / 512;
      iov, iovSize := [], 0;
    }

    /** The rest of `dma_bdrv_cb`: what can be mapped is submitted. */
    method Submit(maps: seq<MapResult>, accepted: bool)
      requires Valid() && iov == [] && !acb && !registered && !abandoned
      modifies this
      ensures Valid() && Now() == Submitted(sg, old(Now()), maps, accepted)
    {
      hide Addresses, Pieces, PositionAfter;
      MapMore(maps);
      assert iov == Pieces(sg, old(index), old(byte), maps);
      if iovSize == 0 {
        registered := true;
        return;
      }
      acb := accepted;
      if !acb {
        abandoned := true;
      }
    }

    /** `dma_bdrv_cb`, called with the result of the transfer under way, or with
        0 when there is none. */
    method DmaBdrvCb(ret: int, maps: seq<MapResult>, accepted: bool)
      requires Valid() && Entered(sg, start, Now())
      modifies this
      ensures Valid() && Settled(sg, start, Now()) && !bh
      ensures Now() == Continued(sg, old(Now()), ret, maps, accepted)
      ensures callbacks == if old(index) == |sg| || ret < 0 then [ret] else []
      ensures ret >= 0 ==> sizes == old(sizes) + [old(iovSize)]
      ensures ret >= 0 ==> moved == old(moved) + old(Addresses(iov))[..512 * (old(iovSize) / 512)]
      ensures sectorNum == old(sectorNum) + old(iovSize) / 512
      ensures callbacks == [] ==> iov == Pieces(sg, old(index), old(byte), maps)
      ensures callbacks == [] ==> (index, byte) == PositionAfter(sg, old(index), old(byte), maps)
      ensures callbacks != [] ==> index == old(index) && byte == old(byte) && iov == []
      ensures callbacks == [] ==> iovSize == |Addresses(iov)| && registered == (iovSize == 0)
      ensures callbacks == [] && iovSize > 0 ==> acb == accepted && abandoned == !accepted
    {
      ContinuedSettles(sg, start, Now(), ret, maps, accepted);
      NoAddresses();
      hide Settled, Balanced, Addresses, Pieces, PositionAfter;
      TakeStock(ret);
      if index == |sg| || ret < 0 {
        callbacks := callbacks + [ret];
        released := true;
        return;
      }
      Submit(maps, accepted);
    }

    /** `continue_after_map_failure`. */
    method ContinueAfterMapFailure()
      requires Valid() && Settled(sg, start, Now()) && registered
      modifies this`registered, this`bh
      ensures Valid() && Settled(sg, start, Now()) && bh && Now() == old(Now()).(registered := false, bh := true)
    {
      registered := false;
      bh := true;
    }

    /** `reschedule_dma`: never a call of the user, as there is list left. */
    method RescheduleDma(maps: seq<MapResult>, accepted: bool)
      requires Valid() && Settled(sg, start, Now()) && bh
      modifies this
      ensures Valid() && Settled(sg, start, Now()) && !bh && sectorNum == old(sectorNum) && moved == old(moved)
      ensures Now() == Continued(sg, old(Now()).(bh := false), 0, maps, accepted)
      ensures callbacks == [] && iov == Pieces(sg, old(index), old(byte), maps)
      ensures (index, byte) == PositionAfter(sg, old(index), old(byte), maps)
      ensures iovSize == |Addresses(iov)| && registered == (iovSize == 0)
      ensures iovSize > 0 ==> acb == accepted && abandoned == !accepted
    {
      hide Accounted, Addresses, WholeSectors, Pieces, PositionAfter, Continued;
      bh := false;
      DmaBdrvCb(0, maps, accepted);
    }

    /** Any run after the first call computes the run of the model. */
    method Run(events: seq<Event>)
      requires Valid() && Settled(sg, start, Now())
      modifies this
      ensures Valid() && Settled(sg, start, Now())
      ensures Now() == After(sg, old(Now()), events)
    {
      hide Balanced, Addresses, WholeSectors, Continued;
      var i := 0;
      assert events[..0] == [];
      while i < |events|
        invariant i <= |events| && Valid() && Settled(sg, start, Now())
        invariant Now() == After(sg, old(Now()), events[..i])
      {
        assert events[..i + 1][..i] == events[..i];
        match events[i] {
          case Complete(ret, maps, accepted) =>
            if acb {
              DmaBdrvCb(ret, maps, accepted);
            }
          case MapClient =>
            if registered {
              ContinueAfterMapFailure();
            }
          case BottomHalf(maps, accepted) =>
            if bh {
              RescheduleDma(maps, accepted);
            }
        }
        i := i + 1;
      }
      assert events[..i] == events;
    }
  }

  /** `dma_bdrv_io`: the handle of a request whose first call submitted. */
  method DmaBdrvIo(sg: seq<Range>, start: int, maps: seq<MapResult>, accepted: bool) returns (dbs: DmaRequest?)
    ensures dbs != null ==> fresh(dbs) && dbs.sg == sg && dbs.start == start
    ensures dbs != null ==> dbs.Valid() && Settled(sg, start, dbs.Now()) && dbs.acb && dbs.callbacks == []
    ensures dbs != null ==> dbs.Now() == Begun(sg, start, maps, accepted) && dbs.moved == []
    ensures dbs != null ==> dbs.iov == Pieces(sg, 0, 0, maps) && dbs.iovSize == |Addresses(dbs.iov)|
    ensures dbs != null ==> (dbs.index, dbs.byte) == PositionAfter(sg, 0, 0, maps)
    ensures dbs != null <==> sg != [] && Addresses(Pieces(sg, 0, 0, maps)) != [] && accepted
  {
    dbs := new DmaRequest(sg, start);
    NewEntered(sg, start);
    NoAddresses();
    hide Balanced, Addresses, WholeSectors, Pieces, PositionAfter, Continued;
    dbs.DmaBdrvCb(0, maps, accepted);
    if !dbs.acb {
      dbs.released := true;
      return null;
    }
  }

  /** A list of less than a sector: the transfer moves no byte, and the user is
      told that it succeeded. */
  method ShortListMovesNothing() returns (dbs: DmaRequest?)
    ensures dbs != null && dbs.callbacks == [0] && dbs.moved == [] && |Addresses(dbs.sg)| == 100
  {
    hide Balanced, WholeSectors, Span;
    var short := Range(0, 100);
    var maps := [Mapped(100)];
    OneEntry([short], 0, maps);
    dbs := DmaBdrvIo([short], 0, maps, true);
    dbs.DmaBdrvCb(0, [], true);
  }
}
