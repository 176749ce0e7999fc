/** Committing a copy-on-write overlay into its backing device (block.c,
    `bdrv_commit`). */
module Commit {
  import opened Bytes

  const EIO := 5
  const COMMIT_BUF_SECTORS: nat := 2048

  type Block = seq<byte>

  function ZeroBlock(): Block { seq(512, _ => 0) }

  /** Allocated sectors of the overlay, and the sectors of the backing device. */
  type Overlay = map<nat, Block>

  type Backing = seq<Block>

  /** The backing device alone; it reads as zeros behind its end. */
  function Below(backing: Backing, s: nat): Block {
    if s < |backing| then backing[s] else ZeroBlock()
  }

  /** What the guest sees. */
  function View(overlay: Overlay, backing: Backing, s: nat): Block {
    if s in overlay then overlay[s] else Below(backing, s)
  }

  ghost predicate SameView(overlay: Overlay, backing: Backing, overlay': Overlay, backing': Backing) {
    forall s: nat :: View(overlay', backing', s) == View(overlay, backing, s)
  }

  function Overwritten(backing: Backing, sector: nat, data: seq<Block>): Backing
    requires sector + |data| <= |backing|
  {
    backing[..sector] + data + backing[sector + |data|..]
  }

  /** Whatever is written under allocated sectors stays out of sight. */
  lemma WriteUnderOverlay(overlay: Overlay, backing: Backing, sector: nat, data: seq<Block>)
    requires sector + |data| <= |backing|
    requires forall s :: sector <= s < sector + |data| ==> s in overlay
    ensures SameView(overlay, backing, overlay, Overwritten(backing, sector, data))
  {
    forall s: nat ensures View(overlay, Overwritten(backing, sector, data), s) == View(overlay, backing, s) {
      if s !in overlay && s < |backing| {
        assert Overwritten(backing, sector, data)[s] == backing[s];
      }
    }
  }

  /** The backing device alone shows the view of the first `n` sectors. */
  ghost predicate Committed(overlay: Overlay, backing: Backing, n: int) {
    forall s: nat :: s < n ==> Below(backing, s) == View(overlay, backing, s)
  }

  /** After a complete copy, dropping any sectors of the overlay is invisible. */
  lemma DropCommitted(overlay: Overlay, backing: Backing, total: nat, dropped: set<nat>)
    requires Committed(overlay, backing, total) && forall s :: s in overlay ==> s < total
    ensures SameView(overlay, backing, overlay - dropped, backing)
  {
    forall s: nat ensures View(overlay - dropped, backing, s) == View(overlay, backing, s) {
      if s in overlay && s in dropped {
        assert Below(backing, s) == View(overlay, backing, s);
      }
    }
  }

  /** How the drivers behave in one pass of the loop: how long a run
      `is_allocated` reports (any positive part of the real one), and whether
      the read and the write succeed.  A failing write may leave anything in
      its first sectors. */
  datatype Pass = Pass(run: nat, readOk: bool, writeOk: bool, garbage: seq<Block>)

  /** The overlay driver's `bdrv_make_empty`: absent, or a result and the set
      of sectors that it removed; all of them if it succeeds. */
  datatype MakeEmpty = Absent | Present(ret: int, removed: set<nat>)

  class CowDevice {
    var overlay: Overlay
    var backing: Backing
    const total: nat

    ghost predicate Valid()
      reads this
    {
      forall s :: s in overlay ==> s < total
    }

    /** Answers for `sector` and for the `n` sectors that share its state. */
    method IsAllocated(sector: nat, max: nat, run: nat) returns (isAlloc: bool, n: nat)
      requires max > 0
      ensures 0 < n <= max
      ensures forall s :: sector <= s < sector + n ==> (s in overlay <==> isAlloc)
    {
      isAlloc, n := sector in overlay, 1;
      while n < run && n < max && (sector + n in overlay) == isAlloc
        invariant 0 < n <= max
        invariant forall s :: sector <= s < sector + n ==> (s in overlay <==> isAlloc)
      {
        n := n + 1;
      }
    }

    method ReadOverlay(sector: nat, n: nat, ok: bool) returns (ret: int, buf: seq<Block>)
      ensures ret <= 0 && (ret == 0 ==> sector + n <= total && |buf| == n)
      ensures ret == 0 ==> forall k :: 0 <= k < n ==> buf[k] == View(overlay, backing, sector + k)
      ensures ok && sector + n <= total ==> ret == 0
    {
      if sector + n > total || !ok {
        return -EIO, [];
      }
      return 0, seq(n, k requires 0 <= k < n reads this => View(overlay, backing, sector + k));
    }

    method WriteBacking(sector: nat, buf: seq<Block>, ok: bool, garbage: seq<Block>) returns (ret: int)
      modifies this`backing
      ensures ret <= 0 && |backing| == old(|backing|)
      ensures ret == 0 ==> sector + |buf| <= |backing| && backing == Overwritten(old(backing), sector, buf)
      ensures ret != 0 ==>
                backing == old(backing)
                || (sector + |garbage| <= |backing| && |garbage| <= |buf|
                    && backing == Overwritten(old(backing), sector, garbage))
      ensures ok && sector + |buf| <= |backing| ==> ret == 0
    {
      if sector + |buf| > |backing| {
        return -EIO;
      }
      if !ok {
        if |garbage| <= |buf| {
          backing := Overwritten(backing, sector, garbage);
        }
        return -EIO;
      }
      backing := Overwritten(backing, sector, buf);
      return 0;
    }

    /** The guest's view of every sector survives every pass and every exit;
        once the loop has run through, the backing device alone shows it. */
    method Commit(passes: seq<Pass>, makeEmpty: MakeEmpty) returns (ret: int, ghost copied: bool)
      requires Valid()
      modifies this
      ensures Valid() && |backing| == old(|backing|)
      ensures SameView(old(overlay), old(backing), overlay, backing)
      ensures copied ==> forall s: nat :: s < total ==> Below(backing, s) == View(old(overlay), old(backing), s)
      ensures !copied ==> ret == -EIO && overlay == old(overlay)
      ensures copied && makeEmpty.Absent? ==> ret == 0 && overlay == old(overlay)
      ensures copied && makeEmpty.Present? ==> ret == makeEmpty.ret && (ret == 0 ==> overlay == map[])
      ensures (forall p :: p in passes ==> p.readOk && p.writeOk) && (forall s :: s in old(overlay) ==> s < |backing|)
              ==> copied
    {
      ghost var overlay0, backing0 := overlay, backing;
      var sector, i, n := 0, 0, 0;
      ret, copied := 0, false;
      while sector < total
        invariant overlay == overlay0 && Valid() && |backing| == |backing0|
        invariant SameView(overlay0, backing0, overlay, backing)
        invariant Committed(overlay, backing, if sector < total then sector else total)
        invariant ret == 0 && !copied
        decreases total - sector
      {
        var pass := if i < |passes| then passes[i] else Pass(1, true, true, []);
        var isAlloc;
        isAlloc, n := IsAllocated(sector, COMMIT_BUF_SECTORS, pass.run);
        if isAlloc {
          assert sector + n - 1 in overlay;
          var buf;
          ret, buf := ReadOverlay(sector, n, pass.readOk);
          if ret != 0 {
            return -EIO, false;
          }
          ghost var before := backing;
          assert sector + n > |backing| ==> sector + n - 1 >= |backing|;
          ret := WriteBacking(sector, buf, pass.writeOk, pass.garbage);
          if ret != 0 {
            if backing != before {
              WriteUnderOverlay(overlay, before, sector, pass.garbage);
            }
            return -EIO, false;
          }
          WriteUnderOverlay(overlay, before, sector, buf);
          forall s: nat | s < sector + n && s < total ensures Below(backing, s) == View(overlay, backing, s) {
            if s < sector {
              assert Below(before, s) == View(overlay, before, s);
            } else {
              assert buf[s - sector] == View(overlay, before, sector + (s - sector));
            }
          }
        }
        sector := sector + n;
        i := i + 1;
      }
      copied := true;
      if makeEmpty.Present? {
        ret := makeEmpty.ret;
        var removed := if ret == 0 then overlay.Keys else makeEmpty.removed;
        DropCommitted(overlay, backing, total, removed);
        overlay := overlay - removed;
      }
    }
  }
}
