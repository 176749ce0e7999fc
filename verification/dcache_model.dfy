/** The data cache simulator (dcache.c), as functions on values. */
module DcacheModel {
  /** uint32_t */
  type Word = x: int | 0 <= x < 0x1_0000_0000

  /** What `dcache_init` fills the table with. */
  const INVALID: Word := 0xffff_ffff

  /** `data` holds `rows` rows of `ways` entries; `replace` is the next way of
      each row under round robin, `nextWay` the one of the other policy. */
  datatype Cache = Cache(ways: nat, rows: nat, lineSize: nat, roundRobin: bool,
                         data: seq<Word>, replace: seq<nat>, nextWay: nat, extra: nat,
                         loadPenalty: int, storePenalty: int,
                         loadHits: nat, loadMisses: nat, storeHits: nat, storeMisses: nat, time: int)

  ghost predicate Valid(c: Cache) {
    && c.ways > 0 && c.rows > 0 && c.lineSize > 0 && |c.data| == c.rows * c.ways
    && (c.roundRobin ==> |c.replace| == c.rows) && (forall r :: 0 <= r < |c.replace| ==> c.replace[r] < c.ways)
    && c.nextWay < c.ways && c.extra < 13
  }

  /** The start of row `r` in the data. */
  lemma RowFits(rows: nat, ways: nat, r: nat)
    requires r < rows
    ensures 0 <= r * ways <= r * ways + ways <= rows * ways
  {
    assert rows * ways == r * ways + (rows - r) * ways;
    assert (rows - r) * ways == ways + (rows - r - 1) * ways;
  }

  /** `addr >> log_line_size` */
  function Line(c: Cache, addr: Word): Word
    requires c.lineSize > 0
  {
    LineSmall(addr, c.lineSize);
    addr / c.lineSize
  }

  lemma {:induction false} Times(k: nat, q: nat)
    requires k > 0
    ensures k * q >= q && k * q == q + (k - 1) * q
  {
    if k == 1 {
    } else {
      Times(k - 1, q);
    }
  }

  lemma LineSmall(addr: Word, size: nat)
    requires size > 0
    ensures 0 <= addr / size <= addr && (size >= 2 ==> addr / size < INVALID)
  {
    var q := addr / size;
    assert addr == size * q + addr % size;
    Times(size, q);
    if size >= 2 {
      Times(size - 1, q);
    }
  }

  /** `cache_addr & addr_mask` */
  function RowOf(c: Cache, line: Word): nat
    requires c.rows > 0
  {
    line % c.rows
  }

  function Row(c: Cache, r: nat): (s: seq<Word>)
    requires Valid(c) && r < c.rows
    ensures |s| == c.ways
  {
    RowFits(c.rows, c.ways, r);
    c.data[r * c.ways..r * c.ways + c.ways]
  }

  predicate Hit(c: Cache, addr: Word)
    requires Valid(c)
  {
    Line(c, addr) in Row(c, RowOf(c, Line(c, addr)))
  }

  function Next(way: nat, ways: nat): nat { if way + 1 >= ways then 0 else way + 1 }

  /** The way that a miss on row `r` replaces, and the cache with the pointers
      moved on. */
  function PickWay(c: Cache, r: nat): (nat, Cache)
    requires Valid(c) && r < c.rows
  {
    if c.roundRobin then (c.replace[r], c.(replace := c.replace[r := Next(c.replace[r], c.ways)]))
    else
      var next := Next(c.nextWay, c.ways);
      if c.extra + 1 == 13 then (c.nextWay, c.(nextWay := Next(next, c.ways), extra := 0))
      else (c.nextWay, c.(nextWay := next, extra := c.extra + 1))
  }

  lemma PickValid(c: Cache, r: nat)
    requires Valid(c) && r < c.rows
    ensures PickWay(c, r).0 < c.ways && Valid(PickWay(c, r).1)
  {
  }

  /** `dcache_load` */
  function Load(c: Cache, addr: Word): (v: Cache)
    requires Valid(c)
    ensures Valid(v)
  {
    if Hit(c, addr) then c.(loadHits := c.loadHits + 1)
    else
      var line := Line(c, addr);
      var r := RowOf(c, line);
      PickValid(c, r);
      RowFits(c.rows, c.ways, r);
      var (way, p) := PickWay(c, r);
      p.(loadMisses := c.loadMisses + 1, time := c.time + c.loadPenalty, data := c.data[r * c.ways + way := line])
  }

  /** `dcache_store` */
  function Store(c: Cache, addr: Word): (v: Cache)
    requires Valid(c)
    ensures Valid(v)
  {
    if Hit(c, addr) then c.(storeHits := c.storeHits + 1)
    else c.(storeMisses := c.storeMisses + 1, time := c.time + c.storePenalty)
  }

  /** `dcache_swp` */
  function Swp(c: Cache, addr: Word): (v: Cache)
    requires Valid(c)
    ensures Valid(v)
  {
    Store(Load(c, addr), addr)
  }

  datatype Access = DoLoad(addr: Word) | DoStore(addr: Word) | DoSwp(addr: Word)

  function Do(c: Cache, a: Access): (v: Cache)
    requires Valid(c)
    ensures Valid(v)
  {
    match a
    case DoLoad(addr) => Load(c, addr)
    case DoStore(addr) => Store(c, addr)
    case DoSwp(addr) => Swp(c, addr)
  }

  function Run(c: Cache, accesses: seq<Access>): (v: Cache)
    requires Valid(c)
    ensures Valid(v)
    decreases |accesses|
  {
    if accesses == [] then c else Run(Do(c, accesses[0]), accesses[1..])
  }

  // ---- What a load does to the rows ----

  lemma RowApart(ways: nat, r: nat, q: nat, way: nat)
    requires way < ways && q != r
    ensures !(q * ways <= r * ways + way < q * ways + ways)
  {
    if q < r {
      RowFits(r, ways, q);
    } else {
      RowFits(q, ways, r);
    }
  }

  lemma LoadRows(c: Cache, addr: Word)
    requires Valid(c)
    ensures var (v, line) := (Load(c, addr), Line(c, addr));
            && v.rows == c.rows && v.ways == c.ways && v.lineSize == c.lineSize && v.roundRobin == c.roundRobin
            && forall q :: 0 <= q < c.rows ==>
                 Row(v, q) == if !Hit(c, addr) && q == RowOf(c, line) then Row(c, q)[PickWay(c, q).0 := line] else Row(c, q)
    ensures !Hit(c, addr) ==> PickWay(c, RowOf(c, Line(c, addr))).0 < c.ways
  {
    var v, line := Load(c, addr), Line(c, addr);
    if !Hit(c, addr) {
      var r := RowOf(c, line);
      PickValid(c, r);
      var way := PickWay(c, r).0;
      forall q | 0 <= q < c.rows ensures Row(v, q) == if q == r then Row(c, q)[way := line] else Row(c, q) {
        RowFits(c.rows, c.ways, q);
        RowFits(c.rows, c.ways, r);
        if q != r {
          RowApart(c.ways, r, q, way);
        }
      }
    }
  }

  // ---- No line twice, and only lines of the row ----

  ghost predicate GoodRow(row: seq<Word>, rows: nat, r: nat)
    requires rows > 0
  {
    && (forall i :: 0 <= i < |row| ==> row[i] == INVALID || row[i] % rows == r)
    && (forall i, j :: 0 <= i < j < |row| && row[i] == row[j] ==> row[i] == INVALID)
  }

  ghost predicate Good(c: Cache) {
    Valid(c) && c.lineSize >= 2 && forall r :: 0 <= r < c.rows ==> GoodRow(Row(c, r), c.rows, r)
  }

  lemma GoodRowUpdate(row: seq<Word>, rows: nat, r: nat, way: nat, line: Word)
    requires rows > 0 && GoodRow(row, rows, r) && way < |row| && line % rows == r && line !in row
    ensures GoodRow(row[way := line], rows, r)
  {
  }

  lemma LoadGood(c: Cache, addr: Word)
    requires Good(c)
    ensures Good(Load(c, addr))
  {
    LoadRows(c, addr);
    var v, line := Load(c, addr), Line(c, addr);
    hide Load, Row, PickWay;
    forall r | 0 <= r < c.rows ensures GoodRow(Row(v, r), c.rows, r) {
      if !Hit(c, addr) && r == RowOf(c, line) {
        GoodRowUpdate(Row(c, r), c.rows, r, PickWay(c, r).0, line);
      }
    }
  }

  /** Stores never change the table or the replacement pointers. */
  lemma StoreKeepsTable(c: Cache, addr: Word)
    requires Valid(c)
    ensures Store(c, addr) == c.(storeHits := Store(c, addr).storeHits, storeMisses := Store(c, addr).storeMisses,
                                 time := Store(c, addr).time)
  {
  }

  lemma SameRows(c: Cache, v: Cache)
    requires Valid(c) && Valid(v) && v.data == c.data && v.rows == c.rows && v.ways == c.ways
    ensures forall r :: 0 <= r < c.rows ==> Row(v, r) == Row(c, r)
  {
  }

  /** Over every run, with lines of at least two bytes: no row holds a valid line
      twice, nor a line of another row. */
  lemma {:induction false} RunGood(c: Cache, accesses: seq<Access>)
    requires Good(c)
    ensures Good(Run(c, accesses))
    decreases |accesses|
  {
    if accesses == [] {
    } else {
      var a := accesses[0];
      if a.DoLoad? || a.DoSwp? {
        LoadGood(c, a.addr);
      }
      if a.DoStore? {
        SameRows(c, Do(c, a));
      } else if a.DoSwp? {
        SameRows(Load(c, a.addr), Do(c, a));
      }
      RunGood(Do(c, a), accesses[1..]);
    }
  }

  /** With one-byte lines the invalid mark is a line too: the first access to
      the last address hits in an empty cache. */
  lemma OneByteLinesHitInvalid(c: Cache)
    requires Valid(c) && forall i :: 0 <= i < |c.data| ==> c.data[i] == INVALID
    ensures Hit(c, INVALID) <==> c.lineSize == 1
  {
    LineSmall(INVALID, c.lineSize);
    var r := RowOf(c, Line(c, INVALID));
    RowFits(c.rows, c.ways, r);
    assert Row(c, r)[0] == INVALID;
    if Hit(c, INVALID) {
      var i :| 0 <= i < c.ways && Row(c, r)[i] == Line(c, INVALID);
      assert c.data[r * c.ways + i] == INVALID;
    }
  }

  // ---- The store half of a swap ----

  /** After a load its line is present, so the store of a swap always hits: a
      swap costs at most one load miss and changes the rows as the load does. */
  lemma SwpStoreHits(c: Cache, addr: Word)
    requires Valid(c)
    ensures Hit(Load(c, addr), addr)
    ensures Swp(c, addr) == Load(c, addr).(storeHits := c.storeHits + 1)
  {
    LoadRows(c, addr);
    var v, line := Load(c, addr), Line(c, addr);
    var r := RowOf(c, line);
    if !Hit(c, addr) {
      assert Row(v, r)[PickWay(c, r).0] == line;
    }
  }

  // ---- Time ----

  /** Misses of one access: by loads, and by stores. */
  lemma StepCounts(c: Cache, a: Access)
    requires Valid(c)
    ensures var v := Do(c, a);
            && v.loadPenalty == c.loadPenalty && v.storePenalty == c.storePenalty
            && v.loadMisses - c.loadMisses == (if a.DoStore? || Hit(c, a.addr) then 0 else 1)
            && v.storeMisses - c.storeMisses == (if a.DoStore? && !Hit(c, a.addr) then 1 else 0)
            && v.time == if Hit(c, a.addr) then c.time
                         else if a.DoStore? then c.time + c.storePenalty else c.time + c.loadPenalty
  {
    if a.DoSwp? {
      SwpStoreHits(c, a.addr);
    }
    hide Hit;
  }

  /** Time that a number of misses costs. */
  function Cost(c: Cache, loads: int, stores: int): int { loads * c.loadPenalty + stores * c.storePenalty }

  lemma CostAdds(c: Cache, d: Cache, loads: int, stores: int, moreLoads: int, moreStores: int)
    requires d.loadPenalty == c.loadPenalty && d.storePenalty == c.storePenalty
    ensures Cost(c, loads, stores) + Cost(d, moreLoads, moreStores) == Cost(c, loads + moreLoads, stores + moreStores)
  {
  }

  /** The time added by a run is its misses weighted by their penalties. */
  lemma {:induction false} RunTime(c: Cache, accesses: seq<Access>)
    requires Valid(c)
    ensures var v := Run(c, accesses);
            && v.loadPenalty == c.loadPenalty && v.storePenalty == c.storePenalty
            && v.time == c.time + Cost(c, v.loadMisses - c.loadMisses, v.storeMisses - c.storeMisses)
    decreases |accesses|
  {
    hide Cost, Do, Hit, Valid;
    if accesses == [] {
      NoCost(c);
    } else {
      var v, w := Do(c, accesses[0]), Run(c, accesses);
      StepTime(c, accesses[0]);
      RunTime(v, accesses[1..]);
      CostAdds(c, v, v.loadMisses - c.loadMisses, v.storeMisses - c.storeMisses,
               w.loadMisses - v.loadMisses, w.storeMisses - v.storeMisses);
    }
  }

  lemma NoCost(c: Cache)
    ensures Cost(c, 0, 0) == 0
  {
  }

  lemma StepTime(c: Cache, a: Access)
    requires Valid(c)
    ensures var v := Do(c, a);
            && v.loadPenalty == c.loadPenalty && v.storePenalty == c.storePenalty
            && v.time == c.time + Cost(c, v.loadMisses - c.loadMisses, v.storeMisses - c.storeMisses)
  {
    StepCounts(c, a);
    OneMiss(c);
    hide Do, Hit, Valid, Cost;
  }

  lemma OneMiss(c: Cache)
    ensures Cost(c, 0, 0) == 0 && Cost(c, 1, 0) == c.loadPenalty && Cost(c, 0, 1) == c.storePenalty
  {
  }

  // ---- Round robin is first in, first out ----

  /** The entries of a row, oldest first. */
  function Queue(c: Cache, r: nat): (q: seq<Word>)
    requires Valid(c) && c.roundRobin && r < c.rows
    ensures |q| == c.ways
  {
    Row(c, r)[c.replace[r]..] + Row(c, r)[..c.replace[r]]
  }

  lemma QueueRotates(row: seq<Word>, at: nat, line: Word)
    requires at < |row|
    ensures var now, next := row[at := line], Next(at, |row|);
            now[next..] + now[..next] == (row[at..] + row[..at])[1..] + [line]
  {
    var now, next := row[at := line], Next(at, |row|);
    assert (row[at..] + row[..at])[1..] == row[at + 1..] + row[..at];
    if at + 1 == |row| {
      assert now[next..] + now[..next] == now == row[..at] + [line];
    } else {
      assert now[next..] == row[at + 1..] && now[..next] == row[..at] + [line];
    }
  }

  /** A load miss appends its line to the queue of its row and drops the oldest
      entry; nothing else changes any queue. */
  lemma LoadQueues(c: Cache, addr: Word)
    requires Valid(c) && c.roundRobin
    ensures var (v, line) := (Load(c, addr), Line(c, addr));
            && v.roundRobin && v.rows == c.rows && v.ways == c.ways && v.lineSize == c.lineSize
            && forall q :: 0 <= q < c.rows ==>
                 Queue(v, q) == if !Hit(c, addr) && q == RowOf(c, line) then Queue(c, q)[1..] + [line] else Queue(c, q)
  {
    LoadRows(c, addr);
    var v, line := Load(c, addr), Line(c, addr);
    if !Hit(c, addr) {
      var r := RowOf(c, line);
      QueueRotates(Row(c, r), c.replace[r], line);
    }
    hide Row, Hit;
  }

  /** The lines that load misses of a run bring into row `r`, in order. */
  function Misses(c: Cache, accesses: seq<Access>, r: nat): seq<Word>
    requires Valid(c)
    decreases |accesses|
  {
    if accesses == [] then []
    else
      var a := accesses[0];
      (if !a.DoStore? && !Hit(c, a.addr) && RowOf(c, Line(c, a.addr)) == r then [Line(c, a.addr)] else [])
      + Misses(Do(c, a), accesses[1..], r)
  }

  lemma DoQueues(c: Cache, a: Access, r: nat)
    requires Valid(c) && c.roundRobin && r < c.rows
    ensures var v := Do(c, a);
            && v.roundRobin && v.rows == c.rows && v.ways == c.ways && v.lineSize == c.lineSize
            && Queue(v, r) == if !a.DoStore? && !Hit(c, a.addr) && RowOf(c, Line(c, a.addr)) == r
                              then Queue(c, r)[1..] + [Line(c, a.addr)] else Queue(c, r)
  {
    if a.DoStore? {
      SameRows(c, Do(c, a));
    } else {
      LoadQueues(c, a.addr);
      if a.DoSwp? {
        SwpStoreHits(c, a.addr);
        SameRows(Load(c, a.addr), Do(c, a));
      }
    }
  }

  /** Refinement: after any run each row, seen as a queue, holds the last `ways`
      entries of what it held before followed by the lines of its load misses. */
  lemma {:induction false} RunQueues(c: Cache, accesses: seq<Access>, r: nat)
    requires Valid(c) && c.roundRobin && r < c.rows
    ensures var (v, missed) := (Run(c, accesses), Misses(c, accesses, r));
            && v.roundRobin && v.rows == c.rows && v.ways == c.ways
            && Queue(v, r) == (Queue(c, r) + missed)[|missed|..]
    decreases |accesses|
  {
    if accesses != [] {
      var a := accesses[0];
      DoQueues(c, a, r);
      RunQueues(Do(c, a), accesses[1..], r);
      var q, rest := Queue(c, r), Misses(Do(c, a), accesses[1..], r);
      hide Do, Hit, Queue;
      if !a.DoStore? && !Hit(c, a.addr) && RowOf(c, Line(c, a.addr)) == r {
        Shift(q, Line(c, a.addr), rest);
      } else {
        assert [] + rest == rest;
      }
    } else {
      assert (Queue(c, r) + [])[0..] == Queue(c, r);
    }
  }

  lemma Shift(q: seq<Word>, line: Word, rest: seq<Word>)
    requires q != []
    ensures (q[1..] + [line] + rest)[|rest|..] == (q + ([line] + rest))[|[line] + rest|..]
  {
    assert q[1..] + [line] + rest == (q + ([line] + rest))[1..];
  }

  lemma InQueue(c: Cache, r: nat, x: Word)
    requires Valid(c) && c.roundRobin && r < c.rows
    ensures x in Queue(c, r) <==> x in Row(c, r)
  {
    assert Row(c, r) == Row(c, r)[..c.replace[r]] + Row(c, r)[c.replace[r]..];
  }

  lemma QueueUnique(c: Cache, r: nat, i: nat, j: nat)
    requires Good(c) && c.roundRobin && r < c.rows && i < c.ways && j < c.ways
    requires Queue(c, r)[i] == Queue(c, r)[j] != INVALID
    ensures i == j
  {
    var at := c.replace[r];
    var row := Row(c, r);
    assert GoodRow(row, c.rows, r);
    assert Queue(c, r)[i] == row[if i < c.ways - at then at + i else i - (c.ways - at)];
    assert Queue(c, r)[j] == row[if j < c.ways - at then at + j else j - (c.ways - at)];
  }

  /** A line that is the `m`-th newest of its row survives exactly the next
      `ways - m - 1` load misses on the row: the one after evicts it. */
  lemma {:induction false} EvictedExactly(c: Cache, accesses: seq<Access>, r: nat, x: Word, m: nat)
    requires Good(c) && c.roundRobin && r < c.rows && m < c.ways
    requires x != INVALID && Queue(c, r)[c.ways - 1 - m] == x
    ensures var (v, missed) := (Run(c, accesses), Misses(c, accesses, r));
            && v.rows == c.rows
            && (|missed| < c.ways - m ==> x in Row(v, r))
            && (|missed| == c.ways - m ==> x !in Row(v, r))
    decreases |accesses|
  {
    if accesses == [] {
      InQueue(c, r, x);
    } else {
      var a := accesses[0];
      var v := Do(c, a);
      DoQueues(c, a, r);
      RunGood(c, [a]);
      assert Run(c, [a]) == v by {
        assert [a][1..] == [];
      }
      var missed := !a.DoStore? && !Hit(c, a.addr) && RowOf(c, Line(c, a.addr)) == r;
      if !missed {
        EvictedExactly(v, accesses[1..], r, x, m);
      } else if m + 1 < c.ways {
        EvictedExactly(v, accesses[1..], r, x, m + 1);
      } else {
        Evicted(c, r, x, Line(c, a.addr));
        RunQueues(v, accesses[1..], r);
        var w, rest := Run(v, accesses[1..]), Misses(v, accesses[1..], r);
        InQueue(w, r, x);
        if rest == [] {
          assert Queue(w, r) == Queue(v, r);
        }
      }
    }
  }

  /** Dropping the only copy of `x` for another line leaves none. */
  lemma Evicted(c: Cache, r: nat, x: Word, line: Word)
    requires Good(c) && c.roundRobin && r < c.rows && x != INVALID && Queue(c, r)[0] == x
    requires line !in Row(c, r)
    ensures x !in Queue(c, r)[1..] + [line]
  {
    InQueue(c, r, x);
    var q := Queue(c, r);
    if x in q[1..] {
      var i :| 0 <= i < |q| - 1 && q[1..][i] == x;
      QueueUnique(c, r, 0, i + 1);
    }
  }

  /** A line brought in by a load miss leaves its row with exactly the `ways`-th
      load miss on the row after that, whatever is accessed in between. */
  lemma MissEvictedExactly(c: Cache, addr: Word, accesses: seq<Access>)
    requires Good(c) && c.roundRobin && !Hit(c, addr)
    ensures var (v, line) := (Load(c, addr), Line(c, addr));
            var r := RowOf(c, line);
            var missed := Misses(v, accesses, r);
            && v.rows == c.rows && Run(v, accesses).rows == c.rows
            && (|missed| < c.ways ==> line in Row(Run(v, accesses), r))
            && (|missed| == c.ways ==> line !in Row(Run(v, accesses), r))
  {
    var v, line := Load(c, addr), Line(c, addr);
    LoadQueues(c, addr);
    LoadGood(c, addr);
    LineSmall(addr, c.lineSize);
    EvictedExactly(v, accesses, RowOf(c, line), line, 0);
  }

  /** The state that `dcache_init` leaves is good. */
  lemma EmptyIsGood(c: Cache)
    requires Valid(c) && c.lineSize >= 2 && forall i :: 0 <= i < |c.data| ==> c.data[i] == INVALID
    ensures Good(c)
  {
    forall r | 0 <= r < c.rows ensures GoodRow(Row(c, r), c.rows, r) {
      RowFits(c.rows, c.ways, r);
    }
  }

  // ---- The other replacement policy ----

  lemma NextMod(x: nat, ways: nat)
    requires ways > 0
    ensures Next(x % ways, ways) == (x + 1) % ways
  {
    var q, r := x / ways, x % ways;
    assert x == ways * q + r;
    if r + 1 == ways {
      assert ways * (q + 1) == ways * q + ways;
      ModUnique(x + 1, ways, q + 1, 0);
    } else {
      ModUnique(x + 1, ways, q, r + 1);
    }
  }

  lemma ModUnique(x: nat, ways: nat, q: nat, r: nat)
    requires r < ways && x == ways * q + r
    ensures x % ways == r
  {
    var p := x / ways;
    assert x == ways * p + x % ways;
    if p < q {
      Apart(ways, p, q);
    } else if q < p {
      Apart(ways, q, p);
    }
  }

  lemma Apart(ways: nat, p: nat, q: nat)
    requires p < q
    ensures ways * q >= ways * p + ways
  {
    assert ways * q == ways * p + ways + ways * (q - p - 1);
  }

  /** After `n` replacements every thirteenth has skipped one more way. */
  predicate Stepped(c: Cache, n: nat) {
    c.ways > 0 && c.nextWay == (n + n / 13) % c.ways && c.extra == n % 13
  }

  lemma PickSteps(c: Cache, r: nat, n: nat)
    requires Valid(c) && r < c.rows && !c.roundRobin && Stepped(c, n)
    ensures PickWay(c, r).0 == (n + n / 13) % c.ways && Stepped(PickWay(c, r).1, n + 1)
    ensures PickWay(c, r).1.ways == c.ways
  {
    NextMod(n + n / 13, c.ways);
    if n % 13 == 12 {
      NextMod(n + n / 13 + 1, c.ways);
      assert (n + 1) / 13 == n / 13 + 1 && (n + 1) % 13 == 0;
    } else {
      assert (n + 1) / 13 == n / 13 && (n + 1) % 13 == n % 13 + 1;
    }
  }

  lemma LoadSteps(c: Cache, addr: Word)
    requires Valid(c) && !c.roundRobin && Stepped(c, c.loadMisses)
    ensures Stepped(Load(c, addr), Load(c, addr).loadMisses) && !Load(c, addr).roundRobin
  {
    if !Hit(c, addr) {
      PickSteps(c, RowOf(c, Line(c, addr)), c.loadMisses);
    }
    hide Hit, PickWay;
  }

  lemma {:induction false} RunSteps(c: Cache, accesses: seq<Access>)
    requires Valid(c) && !c.roundRobin && Stepped(c, c.loadMisses)
    ensures var v := Run(c, accesses); Stepped(v, v.loadMisses) && !v.roundRobin
    decreases |accesses|
  {
    hide Load, Stepped;
    if accesses == [] {
    } else {
      var a := accesses[0];
      if !a.DoStore? {
        LoadSteps(c, a.addr);
      }
      SteppedKept(if a.DoStore? then c else Load(c, a.addr), Do(c, a));
      RunSteps(Do(c, a), accesses[1..]);
    }
  }

  lemma SteppedKept(c: Cache, v: Cache)
    requires c.ways == v.ways && c.nextWay == v.nextWay && c.extra == v.extra && c.loadMisses == v.loadMisses
    requires Stepped(c, c.loadMisses)
    ensures Stepped(v, v.loadMisses)
  {
  }

  /** Over every run of a new cache: with `n` load misses so far, the next one
      replaces way `(n + n / 13) % ways` of its row, and no other entry. */
  lemma RandomReplaces(c: Cache, accesses: seq<Access>, addr: Word)
    requires Valid(c) && !c.roundRobin && c.nextWay == 0 && c.extra == 0 && c.loadMisses == 0
    requires !Hit(Run(c, accesses), addr)
    ensures var v := Run(c, accesses);
            var line := addr / v.lineSize;
            var way := (v.loadMisses + v.loadMisses / 13) % v.ways;
            var w := Load(v, addr);
            && w.rows == v.rows && w.ways == v.ways && way < v.ways
            && forall q :: 0 <= q < v.rows ==>
                 Row(w, q) == if q == line % v.rows then Row(v, q)[way := line] else Row(v, q)
  {
    StartStepped(c);
    hide *;
    RunSteps(c, accesses);
    ReplacesOne(Run(c, accesses), addr);
  }

  lemma StartStepped(c: Cache)
    requires Valid(c) && c.nextWay == 0 && c.extra == 0 && c.loadMisses == 0
    ensures Stepped(c, c.loadMisses)
  {
  }

  lemma ReplacesOne(v: Cache, addr: Word)
    requires Valid(v) && !v.roundRobin && Stepped(v, v.loadMisses) && !Hit(v, addr)
    ensures var line := addr / v.lineSize;
            var way := (v.loadMisses + v.loadMisses / 13) % v.ways;
            var w := Load(v, addr);
            && w.rows == v.rows && w.ways == v.ways && way < v.ways
            && forall q :: 0 <= q < v.rows ==>
                 Row(w, q) == if q == line % v.rows then Row(v, q)[way := line] else Row(v, q)
  {
    PickSteps(v, RowOf(v, Line(v, addr)), v.loadMisses);
    LoadRows(v, addr);
    hide PickWay, Row, Load, Stepped;
  }

  // ---- What hits ----

  /** A load brings in the line of its address: every address of that line hits
      afterwards, and no other that missed before. */
  lemma LoadBringsLine(c: Cache, addr: Word, other: Word)
    requires Valid(c)
    ensures addr / c.lineSize == other / c.lineSize ==> Hit(Load(c, addr), other)
    ensures addr / c.lineSize != other / c.lineSize && !Hit(c, other) ==> !Hit(Load(c, addr), other)
  {
    LoadRows(c, addr);
    hide Load, PickWay, Row;
    var row := Row(c, RowOf(c, Line(c, other)));
    if !Hit(c, addr) {
      var way := PickWay(c, RowOf(c, Line(c, addr))).0;
      assert row[way := Line(c, addr)][way] == Line(c, addr);
    }
  }

  function Loads(accesses: seq<Access>): nat {
    if accesses == [] then 0 else (if accesses[0].DoStore? then 0 else 1) + Loads(accesses[1..])
  }

  function Stores(accesses: seq<Access>): nat {
    if accesses == [] then 0 else (if accesses[0].DoLoad? then 0 else 1) + Stores(accesses[1..])
  }

  /** Every load and every store of a run, the halves of swaps included, is
      counted once, as a hit or as a miss. */
  lemma {:induction false} RunCounts(c: Cache, accesses: seq<Access>)
    requires Valid(c)
    ensures var v := Run(c, accesses);
            && v.loadHits + v.loadMisses == c.loadHits + c.loadMisses + Loads(accesses)
            && v.storeHits + v.storeMisses == c.storeHits + c.storeMisses + Stores(accesses)
            && v.loadHits >= c.loadHits && v.loadMisses >= c.loadMisses
            && v.storeHits >= c.storeHits && v.storeMisses >= c.storeMisses
    decreases |accesses|
  {
    if accesses == [] {
    } else {
      CountOne(c, accesses[0]);
      RunCounts(Do(c, accesses[0]), accesses[1..]);
    }
  }

  lemma CountOne(c: Cache, a: Access)
    requires Valid(c)
    ensures var v := Do(c, a);
            && v.loadHits + v.loadMisses == c.loadHits + c.loadMisses + (if a.DoStore? then 0 else 1)
            && v.storeHits + v.storeMisses == c.storeHits + c.storeMisses + (if a.DoLoad? then 0 else 1)
            && v.loadHits >= c.loadHits && v.loadMisses >= c.loadMisses
            && v.storeHits >= c.storeHits && v.storeMisses >= c.storeMisses
  {
    hide Hit;
  }
}
