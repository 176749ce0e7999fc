/** The data cache simulator (dcache.c) as it updates its state, proved equal to
    the functions of `DcacheModel`. */
module Dcache {
  import opened DcacheModel

  const POLICY_ROUND_ROBIN := 1

  function Pow2(n: nat): nat { if n == 0 then 1 else 2 * Pow2(n - 1) }

  lemma {:induction false} Pow2Adds(a: nat, b: nat)
    ensures Pow2(a + b) == Pow2(a) * Pow2(b) && Pow2(a) > 0
  {
    if a == 0 {
    } else {
      Pow2Adds(a - 1, b);
      assert 2 * Pow2(a - 1) * Pow2(b) == 2 * (Pow2(a - 1) * Pow2(b));
    }
  }

  /** The logarithm, rounded up. */
  function Log2Up(num: int): nat { if num <= 1 then 0 else 1 + Log2Up((num + 1) / 2) }

  predicate IsLog(num: int, exp: nat) { num <= Pow2(exp) && (exp > 0 ==> Pow2(exp - 1) < num) }

  lemma {:induction false} Log2UpIsLog(num: int)
    ensures IsLog(num, Log2Up(num))
  {
    if num <= 1 {
    } else {
      Log2UpIsLog((num + 1) / 2);
    }
  }

  lemma {:induction false} Pow2Grows(a: nat, b: nat)
    requires a <= b
    ensures 0 < Pow2(a) <= Pow2(b)
  {
    if a == b {
      Pow2Adds(a, 0);
    } else {
      Pow2Grows(a, b - 1);
    }
  }

  lemma OneLog(num: int, a: nat, b: nat)
    requires IsLog(num, a) && IsLog(num, b)
    ensures a == b
  {
    if a < b {
      Pow2Grows(a, b - 1);
    } else if b < a {
      Pow2Grows(b, a - 1);
    }
  }

  /** `log2_roundup`: the least exponent whose power reaches `num`.  Beyond 2^30
      the 32-bit power would overflow. */
  method Log2Roundup(num: int) returns (exp: nat)
    requires num <= 0x4000_0000
    ensures num <= Pow2(exp) && (exp > 0 ==> Pow2(exp - 1) < num) && exp == Log2Up(num)
  {
    exp := 0;
    var power2 := 1;
    while power2 < num
      invariant power2 == Pow2(exp) && 0 < power2 <= 0x7fff_ffff && (exp > 0 ==> Pow2(exp - 1) < num)
      decreases num - power2
    {
      power2 := 2 * power2;
      exp := exp + 1;
    }
    Log2UpIsLog(num);
    OneLog(num, exp, Log2Up(num));
  }

  lemma TableSizes(logRows: nat, logLineSize: nat, logWays: nat)
    ensures Pow2(logRows) > 0 && Pow2(logLineSize) > 0 && Pow2(logWays) > 0
    ensures Pow2(logRows) * Pow2(logLineSize) * Pow2(logWays) == Pow2(logRows + logLineSize + logWays)
    ensures Pow2(logRows) * Pow2(logWays) == Pow2(logRows + logWays) > 0
  {
    Pow2Adds(logRows, logLineSize);
    Pow2Adds(logRows + logLineSize, logWays);
    Pow2Adds(logRows, logWays);
    Pow2Adds(logWays, 0);
    Pow2Adds(logLineSize, 0);
  }

  class DataCache {
    var ways: nat
    var rows: nat
    var lineSize: nat
    var replacePolicy: int
    var data: array<Word>
    var replace: array?<nat>
    var nextWay: nat
    var extraIncrementCounter: nat
    var loadMissPenalty: int
    var storeMissPenalty: int
    var loadHits: nat
    var loadMisses: nat
    var storeHits: nat
    var storeMisses: nat
    var simTime: int

    ghost function Now(): Cache
      reads this, data, replace
    {
      Cache(ways, rows, lineSize, replacePolicy == POLICY_ROUND_ROBIN, data[..],
            if replace == null then [] else replace[..], nextWay, extraIncrementCounter,
            loadMissPenalty, storeMissPenalty, loadHits, loadMisses, storeHits, storeMisses, simTime)
    }

    ghost predicate Usable()
      reads this, data, replace
    {
      Valid(Now()) && (replace == null <==> replacePolicy != POLICY_ROUND_ROBIN)
    }

    /** `dcache_init`: `rows * ways` entries, all invalid.  The sizes are rounded
        up to powers of two; there must be room for at least one row. */
    constructor (size: int, ways: int, lineSize: int, policy: int, loadPenalty: int, storePenalty: int, time: int)
      requires size <= 0x4000_0000 && ways <= 0x4000_0000 && lineSize <= 0x4000_0000
      requires Log2Up(lineSize) + Log2Up(ways) <= Log2Up(size)
      ensures Usable() && fresh(data) && (replace != null ==> fresh(replace))
      ensures this.ways == Pow2(Log2Up(ways)) && this.lineSize == Pow2(Log2Up(lineSize))
      ensures rows * this.lineSize * this.ways == Pow2(Log2Up(size))
      ensures ways <= this.ways && lineSize <= this.lineSize
      ensures Now() == Cache(this.ways, rows, this.lineSize, policy == POLICY_ROUND_ROBIN,
                             seq(rows * this.ways, _ => INVALID),
                             if policy == POLICY_ROUND_ROBIN then seq(rows, _ => 0) else [], 0, 0,
                             loadPenalty, storePenalty, 0, 0, 0, 0, time)
      ensures lineSize >= 2 ==> Good(Now())
    {
      var logSize := Log2Roundup(size);
      var logWays := Log2Roundup(ways);
      var logLineSize := Log2Roundup(lineSize);
      var logRows := logSize - logLineSize - logWays;
      hide Pow2, Log2Up, Good;
      TableSizes(logRows, logLineSize, logWays);
      this.ways, rows, this.lineSize := Pow2(logWays), Pow2(logRows), Pow2(logLineSize);
      replacePolicy := policy;
      data := new Word[Pow2(logRows) * Pow2(logWays)](_ => INVALID);
      nextWay, extraIncrementCounter := 0, 0;
      replace := null;
      if policy == POLICY_ROUND_ROBIN {
        replace := new nat[Pow2(logRows)](_ => 0);
      }
      loadMissPenalty, storeMissPenalty, simTime := loadPenalty, storePenalty, time;
      loadHits, loadMisses, storeHits, storeMisses := 0, 0, 0, 0;
      new;
      assert data[..] == seq(rows * this.ways, _ => INVALID);
      assert replace != null ==> replace[..] == seq(rows, _ => 0);
      if lineSize >= 2 {
        EmptyIsGood(Now());
      }
    }

    /** The search of `dcache_load` and `dcache_store` through one row. */
    method Find(cacheAddr: Word, row: nat) returns (found: bool)
      requires Usable() && row < rows
      ensures found <==> cacheAddr in Row(Now(), row)
    {
      RowFits(rows, ways, row);
      var ii := 0;
      while ii < ways
        invariant ii <= ways
        invariant forall k :: 0 <= k < ii ==> Row(Now(), row)[k] != cacheAddr
      {
        assert Row(Now(), row)[ii] == data[row * ways + ii];
        if cacheAddr == data[row * ways + ii] {
          return true;
        }
        ii := ii + 1;
      }
      return false;
    }

    /** The way to replace. */
    method ChooseWay(row: nat) returns (way: nat)
      requires Usable() && row < rows
      modifies this`nextWay, this`extraIncrementCounter, replace
      ensures (way, Now()) == PickWay(old(Now()), row)
    {
      if replacePolicy == POLICY_ROUND_ROBIN {
        way := replace[row];
        var next := way + 1;
        if next == ways {
          next := 0;
        }
        replace[row] := next;
      } else {
        way := nextWay;
        nextWay := nextWay + 1;
        if nextWay >= ways {
          nextWay := 0;
        }
        extraIncrementCounter := extraIncrementCounter + 1;
        if extraIncrementCounter == 13 {
          extraIncrementCounter := 0;
          nextWay := nextWay + 1;
          if nextWay >= ways {
            nextWay := 0;
          }
        }
      }
    }

    /** `dcache_load` */
    method DcacheLoad(addr: Word)
      requires Usable()
      modifies this, data, replace
      ensures Usable() && data == old(data) && replace == old(replace) && Now() == Load(old(Now()), addr)
    {
      hide Row;
      LineSmall(addr, lineSize);
      var cacheAddr: Word := addr / lineSize;
      var row := cacheAddr % rows;
      var found := Find(cacheAddr, row);
      if found {
        loadHits := loadHits + 1;
        return;
      }
      loadMisses := loadMisses + 1;
      simTime := simTime + loadMissPenalty;
      RowFits(rows, ways, row);
      PickValid(old(Now()), row);
      var way := ChooseWay(row);
      data[row * ways + way] := cacheAddr;
    }

    /** `dcache_store` */
    method DcacheStore(addr: Word)
      requires Usable()
      modifies this
      ensures Usable() && data == old(data) && replace == old(replace) && Now() == Store(old(Now()), addr)
    {
      hide Row;
      LineSmall(addr, lineSize);
      var cacheAddr: Word := addr / lineSize;
      var row := cacheAddr % rows;
      var found := Find(cacheAddr, row);
      if found {
        storeHits := storeHits + 1;
        return;
      }
      storeMisses := storeMisses + 1;
      simTime := simTime + storeMissPenalty;
    }

    /** `dcache_swp` */
    method DcacheSwp(addr: Word)
      requires Usable()
      modifies this, data, replace
      ensures Usable() && data == old(data) && replace == old(replace) && Now() == Swp(old(Now()), addr)
    {
      DcacheLoad(addr);
      DcacheStore(addr);
    }
  }
}
