/** The symbol table of a loaded ELF file (elf_ops.h, 32-bit form): an in-place
    filter, a sort and a binary search. */
module SymbolTable {
  import opened Sorting

  const SHN_UNDEF := 0
  const SHN_LORESERVE := 0xff00
  const STT_FUNC := 2

  type Word = x: int | 0 <= x < 0x1_0000_0000
  type Half = x: int | 0 <= x < 0x1_0000

  /** `struct elf32_sym`, of `st_info` and `st_other` as they are. */
  datatype Sym = Sym(name: Word, value: Word, size: Word, info: nat, other: nat, shndx: Half)

  // ---- Loading ----

  function Bswap16(x: Half): Half { x % 0x100 * 0x100 + x / 0x100 }

  function Bswap32(x: Word): Word {
    var y := x / 0x100;
    var z := y / 0x100;
    ((x % 0x100 * 0x100 + y % 0x100) * 0x100 + z % 0x100) * 0x100 + z / 0x100
  }

  /** `bswap_sym`. */
  function BswapSym(s: Sym): Sym {
    s.(name := Bswap32(s.name), value := Bswap32(s.value), size := Bswap32(s.size), shndx := Bswap16(s.shndx))
  }

  /** Swapping bytes twice gives the symbol back. */
  lemma BswapTwice(s: Sym)
    ensures BswapSym(BswapSym(s)) == s
  {
    Bswap32Twice(s.name);
    Bswap32Twice(s.value);
    Bswap32Twice(s.size);
    DivMod(s.shndx % 0x100, s.shndx / 0x100);
    hide Bswap32;
  }

  lemma DivMod(q: nat, r: nat)
    requires r < 0x100
    ensures (q * 0x100 + r) / 0x100 == q && (q * 0x100 + r) % 0x100 == r
  {
  }

  lemma Bswap32Twice(x: Word)
    ensures Bswap32(Bswap32(x)) == x
  {
    var y := x / 0x100;
    var z := y / 0x100;
    var a, b, c, d := x % 0x100, y % 0x100, z % 0x100, z / 0x100;
    DivMod((a * 0x100 + b) * 0x100 + c, d);
    DivMod(a * 0x100 + b, c);
    DivMod(a, b);
  }

  /** Byte `k` of the result, from the right, is byte `3 - k` of the argument. */
  lemma Bswap32Bytes(x: Word)
    ensures var y := Bswap32(x);
            && y % 0x100 == x / 0x100 / 0x100 / 0x100 && y / 0x100 % 0x100 == x / 0x100 / 0x100 % 0x100
            && y / 0x100 / 0x100 % 0x100 == x / 0x100 % 0x100 && y / 0x100 / 0x100 / 0x100 == x % 0x100
  {
    var a, b, c, d := x % 0x100, x / 0x100 % 0x100, x / 0x100 / 0x100 % 0x100, x / 0x100 / 0x100 / 0x100;
    assert Bswap32(x) == ((a * 0x100 + b) * 0x100 + c) * 0x100 + d;
    hide Bswap32;
    DivMod((a * 0x100 + b) * 0x100 + c, d);
    DivMod(a * 0x100 + b, c);
    DivMod(a, b);
  }

  lemma Bswap16Bytes(x: Half)
    ensures Bswap16(x) % 0x100 == x / 0x100 && Bswap16(x) / 0x100 == x % 0x100
  {
    DivMod(x % 0x100, x / 0x100);
  }

  predicate IsFunction(s: Sym) {
    s.shndx != SHN_UNDEF && s.shndx < SHN_LORESERVE && s.info % 16 == STT_FUNC
  }

  /** One symbol in the host's byte order. */
  function Native(s: Sym, swab: bool): Sym { if swab then BswapSym(s) else s }

  /** On ARM and MIPS the lowest address bit is only a mark. */
  function Unmarked(s: Sym, marks: bool): Sym { if marks then s.(value := s.value - s.value % 2) else s }

  /** Which symbols are kept, and what is kept of them: defined functions, whose
      address loses at most its lowest bit. */
  lemma KeptSymbol(s: Sym, marks: bool)
    ensures IsFunction(s) <==> 0 < s.shndx < 0xff00 && exists bind: nat :: s.info == 16 * bind + 2
    ensures var t := Unmarked(s, marks);
            && t == s.(value := t.value) && (!marks ==> t.value == s.value)
            && (marks ==> t.value % 2 == 0 && t.value <= s.value <= t.value + 1)
  {
    if s.info % 16 == 2 {
      assert s.info == 16 * (s.info / 16) + 2;
    }
  }

  /** The table that a file with these raw symbols stands for. */
  function Functions(raw: seq<Sym>, swab: bool, marks: bool): multiset<Sym> {
    if raw == [] then multiset{}
    else
      var s := Native(raw[0], swab);
      (if IsFunction(s) then multiset{Unmarked(s, marks)} else multiset{}) + Functions(raw[1..], swab, marks)
  }

  lemma {:induction false} FunctionsAppend(a: seq<Sym>, b: seq<Sym>, swab: bool, marks: bool)
    ensures Functions(a + b, swab, marks) == Functions(a, swab, marks) + Functions(b, swab, marks)
  {
    if a == [] {
      assert a + b == b;
    } else {
      assert (a + b)[0] == a[0] && (a + b)[1..] == a[1..] + b;
      FunctionsAppend(a[1..], b, swab, marks);
    }
  }

  /** The first `i` entries of `now` are done and those up to `n` untouched. */
  ghost predicate Filtering(now: seq<Sym>, raw: seq<Sym>, i: nat, n: nat, swab: bool, marks: bool) {
    i <= n <= |now| && multiset(now[..i]) + Functions(now[i..n], swab, marks) == Functions(raw, swab, marks)
  }

  /** A symbol that stays. */
  lemma FilterKeep(now: seq<Sym>, raw: seq<Sym>, i: nat, n: nat, swab: bool, marks: bool)
    requires Filtering(now, raw, i, n, swab, marks) && i < n && IsFunction(Native(now[i], swab))
    ensures Filtering(now[i := Unmarked(Native(now[i], swab), marks)], raw, i + 1, n, swab, marks)
  {
    var x := Unmarked(Native(now[i], swab), marks);
    var next := now[i := x];
    assert now[i..n][0] == now[i] && now[i..n][1..] == now[i + 1..n];
    assert next[..i + 1] == now[..i] + [x] && next[i + 1..n] == now[i + 1..n];
  }

  /** Entries but the first, with the last one brought to the front. */
  lemma FunctionsRotated(s: seq<Sym>, swab: bool, marks: bool)
    requires s != []
    ensures Functions([s[|s| - 1]] + s[..|s| - 1], swab, marks) == Functions(s, swab, marks)
  {
    var front, last := s[..|s| - 1], [s[|s| - 1]];
    assert s == front + last;
    FunctionsAppend(front, last, swab, marks);
    FunctionsAppend(last, front, swab, marks);
    hide Functions;
  }

  lemma FunctionsSkip(s: seq<Sym>, swab: bool, marks: bool)
    requires s != [] && !IsFunction(Native(s[0], swab))
    ensures Functions(s, swab, marks) == Functions(s[1..], swab, marks)
  {
    hide IsFunction, Native, Unmarked;
  }

  /** A symbol that goes: the last one takes its place, still untouched. */
  lemma FilterDrop(now: seq<Sym>, raw: seq<Sym>, i: nat, n: nat, swab: bool, marks: bool)
    requires Filtering(now, raw, i, n, swab, marks) && i < n && !IsFunction(Native(now[i], swab))
    ensures var next := now[i := if i < n - 1 then now[n - 1] else Native(now[i], swab)];
            Filtering(next, raw, i, n - 1, swab, marks)
  {
    hide Functions, Native, IsFunction;
    var next := now[i := if i < n - 1 then now[n - 1] else Native(now[i], swab)];
    assert next[..i] == now[..i];
    assert now[i..n][1..] == now[i + 1..n];
    FunctionsSkip(now[i..n], swab, marks);
    if i < n - 1 {
      FunctionsRotated(now[i + 1..n], swab, marks);
      assert next[i..n - 1] == [now[n - 1]] + now[i + 1..n][..n - i - 2];
    } else {
      assert next[i..n - 1] == now[i + 1..n];
    }
  }

  method SwabEntry(syms: array<Sym>, i: nat, swab: bool)
    requires i < syms.Length
    modifies syms
    ensures syms[..] == old(syms[..])[i := Native(old(syms[i]), swab)]
  {
    hide BswapSym;
    if swab {
      syms[i] := BswapSym(syms[i]);
    }
  }

  method ClearMark(syms: array<Sym>, i: nat, marks: bool)
    requires i < syms.Length
    modifies syms
    ensures syms[..] == old(syms[..])[i := Unmarked(old(syms[i]), marks)]
  {
    if marks {
      syms[i] := syms[i].(value := syms[i].value - syms[i].value % 2);
    }
  }

  /** The last entry takes the place of entry `i`. */
  method DropEntry(syms: array<Sym>, i: nat, last: nat)
    requires i <= last < syms.Length
    modifies syms
    ensures syms[..] == old(syms[..])[i := if i < last then old(syms[last]) else old(syms[i])]
  {
    if i < last {
      syms[i] := syms[last];
    }
  }

  /** The filter loop of `load_symbols`. */
  method FilterSymbols(syms: array<Sym>, swab: bool, marks: bool) returns (nsyms: nat)
    modifies syms
    ensures nsyms <= syms.Length && Filtering(syms[..], old(syms[..]), nsyms, nsyms, swab, marks)
  {
    ghost var raw := syms[..];
    hide *;
    nsyms := syms.Length;
    var i := 0;
    FilterStart(raw, swab, marks);
    while i < nsyms
      invariant 0 <= i <= nsyms <= syms.Length
      invariant Filtering(syms[..], raw, i, nsyms, swab, marks)
      decreases nsyms - i
    {
      ghost var now := syms[..];
      SwabEntry(syms, i, swab);
      if !IsFunction(syms[i]) {
        FilterDrop(now, raw, i, nsyms, swab, marks);
        nsyms := nsyms - 1;
        DropEntry(syms, i, nsyms);
        UpdateTwice(now, i, Native(now[i], swab), if i < nsyms then now[nsyms] else Native(now[i], swab));
        continue;
      }
      FilterKeep(now, raw, i, nsyms, swab, marks);
      ClearMark(syms, i, marks);
      UpdateTwice(now, i, Native(now[i], swab), Unmarked(Native(now[i], swab), marks));
      i := i + 1;
    }
  }

  lemma UpdateTwice(s: seq<Sym>, i: nat, x: Sym, y: Sym)
    requires i < |s|
    ensures s[i := x][i := y] == s[i := y] && s[i := x][i] == x
    ensures forall k :: 0 <= k < |s| && k != i ==> s[i := x][k] == s[k]
  {
  }

  lemma FilterStart(raw: seq<Sym>, swab: bool, marks: bool)
    ensures Filtering(raw, raw, 0, |raw|, swab, marks)
  {
    assert raw[0..|raw|] == raw;
  }

  lemma FilterEnd(now: seq<Sym>, raw: seq<Sym>, n: nat, swab: bool, marks: bool)
    requires Filtering(now, raw, n, n, swab, marks)
    ensures n <= |now| && multiset(now[..n]) == Functions(raw, swab, marks)
  {
    assert now[n..n] == [];
  }

  /** `load_symbols` from the raw table on: the functions of the file, sorted. */
  method LoadSymbols(raw: array<Sym>, swab: bool, marks: bool) returns (syms: array<Sym>)
    modifies raw
    ensures fresh(syms) && multiset(syms[..]) == Functions(old(raw[..]), swab, marks)
    ensures SortedBy(syms[..], (s: Sym) => s.value)
  {
    ghost var was := raw[..];
    var nsyms := FilterSymbols(raw, swab, marks);
    FilterEnd(raw[..], was, nsyms, swab, marks);
    assert raw[..][..nsyms] == raw[..nsyms];
    hide Functions, Filtering;
    syms := new Sym[nsyms](i requires 0 <= i < nsyms <= raw.Length reads raw => raw[i]);
    assert syms[..] == raw[..nsyms];
    QSort(syms, (s: Sym) => s.value);
  }

  // ---- Looking up ----

  /** `symfind`, with the 32-bit sum of the code. */
  function SymFind(key: Word, s: Sym): int {
    if key < s.value then -1
    else if key > (s.value + s.size) % 0x1_0000_0000 then 1
    else 0
  }

  /** The closed range of a symbol contains the address. */
  predicate Covers(s: Sym, key: Word) { s.value <= key <= s.value + s.size }

  predicate NoWrap(s: Sym) { s.value + s.size < 0x1_0000_0000 }

  /** A symbol is recognised exactly where it covers the address, unless its end
      does not fit into 32 bits: then it is never found. */
  lemma SymFindIff(key: Word, s: Sym)
    ensures SymFind(key, s) == 0 <==> Covers(s, key) && NoWrap(s)
  {
    if !NoWrap(s) {
      assert (s.value + s.size) % 0x1_0000_0000 == s.value + s.size - 0x1_0000_0000 < s.value;
    }
  }

  /** The C library's binary search over entries `lo` to `hi`; -1 if it fails. */
  function BSearch(syms: seq<Sym>, key: Word, lo: nat, hi: nat): (r: int)
    requires lo <= hi <= |syms|
    ensures r == -1 || lo <= r < hi
    decreases hi - lo
  {
    if lo == hi then -1
    else
      var mid := (lo + hi) / 2;
      var c := SymFind(key, syms[mid]);
      if c < 0 then BSearch(syms, key, lo, mid)
      else if c > 0 then BSearch(syms, key, mid + 1, hi)
      else mid
  }

  /** `lookup_symbol`: the index of the symbol whose name is returned, or -1 for
      the empty string. */
  method LookupSymbol(syms: array<Sym>, key: Word) returns (r: int)
    ensures r == BSearch(syms[..], key, 0, syms.Length)
  {
    var lo, hi := 0, syms.Length;
    while lo < hi
      invariant 0 <= lo <= hi <= syms.Length
      invariant BSearch(syms[..], key, lo, hi) == BSearch(syms[..], key, 0, syms.Length)
      decreases hi - lo
    {
      var mid := (lo + hi) / 2;
      var c := SymFind(key, syms[mid]);
      if c < 0 {
        hi := mid;
      } else if c > 0 {
        lo := mid + 1;
      } else {
        return mid;
      }
    }
    return -1;
  }

  /** Whatever is found covers the address. */
  lemma {:induction false} BSearchSound(syms: seq<Sym>, key: Word, lo: nat, hi: nat)
    requires lo <= hi <= |syms|
    ensures var r := BSearch(syms, key, lo, hi); r >= 0 ==> Covers(syms[r], key) && NoWrap(syms[r])
    decreases hi - lo
  {
    if lo == hi {
    } else {
      var mid := (lo + hi) / 2;
      SymFindIff(key, syms[mid]);
      if SymFind(key, syms[mid]) < 0 {
        BSearchSound(syms, key, lo, mid);
      } else if SymFind(key, syms[mid]) > 0 {
        BSearchSound(syms, key, mid + 1, hi);
      }
    }
  }

  /** Sorted by start, and the ends do not go back either. */
  ghost predicate Ordered(syms: seq<Sym>) {
    && (forall i :: 0 <= i < |syms| ==> NoWrap(syms[i]))
    && (forall i, j :: 0 <= i < j < |syms| ==>
          syms[i].value <= syms[j].value && syms[i].value + syms[i].size <= syms[j].value + syms[j].size)
  }

  lemma {:induction false} BSearchComplete(syms: seq<Sym>, key: Word, lo: nat, hi: nat, i: nat)
    requires lo <= i < hi <= |syms| && Ordered(syms) && Covers(syms[i], key)
    ensures BSearch(syms, key, lo, hi) >= 0
    decreases hi - lo
  {
    var mid := (lo + hi) / 2;
    if SymFind(key, syms[mid]) < 0 {
      assert i < mid;
      BSearchComplete(syms, key, lo, mid, i);
    } else if SymFind(key, syms[mid]) > 0 {
      assert NoWrap(syms[mid]);
      assert mid < i;
      BSearchComplete(syms, key, mid + 1, hi, i);
    }
  }

  ghost predicate Disjoint(syms: seq<Sym>) {
    forall i, j, key: Word :: 0 <= i < j < |syms| && Covers(syms[i], key) ==> !Covers(syms[j], key)
  }

  /** A sorted table of pairwise disjoint closed ranges gives the one symbol that
      covers the address, and none exactly if there is none. */
  lemma LookupCorrect(syms: seq<Sym>, key: Word)
    requires SortedBy(syms, (s: Sym) => s.value) && Disjoint(syms)
    requires forall i :: 0 <= i < |syms| ==> NoWrap(syms[i])
    ensures var r := BSearch(syms, key, 0, |syms|);
            && (r >= 0 ==> forall i :: 0 <= i < |syms| ==> (Covers(syms[i], key) <==> i == r))
            && (r < 0 <==> forall i :: 0 <= i < |syms| ==> !Covers(syms[i], key))
  {
    var f := (s: Sym) => s.value;
    forall i, j | 0 <= i < j < |syms|
      ensures syms[i].value <= syms[j].value && syms[i].value + syms[i].size <= syms[j].value + syms[j].size
    {
      assert f(syms[i]) <= f(syms[j]);
      assert Covers(syms[j], syms[j].value) && !Covers(syms[i], syms[j].value);
    }
    var r := BSearch(syms, key, 0, |syms|);
    BSearchSound(syms, key, 0, |syms|);
    forall i | 0 <= i < |syms| && Covers(syms[i], key) ensures r == i {
      BSearchComplete(syms, key, 0, |syms|, i);
    }
  }

  /** Without that the search may miss: a range inside another hides it. */
  lemma NestedRangeHides()
    ensures var syms := [Sym(1, 0, 100, 2, 0, 1), Sym(2, 10, 2, 2, 0, 1)];
            Covers(syms[0], 50) && BSearch(syms, 50, 0, 2) == -1 && Hides(syms, 50, 0, 1)
  {
    var syms := [Sym(1, 0, 100, 2, 0, 1), Sym(2, 10, 2, 2, 0, 1)];
    assert SymFind(50, syms[1]) == 1;
    assert BSearch(syms, 50, 2, 2) == -1;
  }

  /** `bsearch` as the C library may also do it: it looks at any entry it likes
      of those left, `pick(lo, hi)`, or the first if that is none of them. */
  function Search(pick: (nat, nat) -> nat, syms: seq<Sym>, key: Word, lo: nat, hi: nat): (r: int)
    requires lo <= hi <= |syms|
    ensures r == -1 || (lo <= r < hi && SymFind(key, syms[r]) == 0)
    decreases hi - lo
  {
    if lo == hi then -1
    else
      var m := if lo <= pick(lo, hi) < hi then pick(lo, hi) else lo;
      var c := SymFind(key, syms[m]);
      if c < 0 then Search(pick, syms, key, lo, m)
      else if c > 0 then Search(pick, syms, key, m + 1, hi)
      else m
  }

  function Halve(lo: nat, hi: nat): nat { (lo + hi) / 2 }

  lemma {:induction false} HalvingIsSearch(syms: seq<Sym>, key: Word, lo: nat, hi: nat)
    requires lo <= hi <= |syms|
    ensures BSearch(syms, key, lo, hi) == Search(Halve, syms, key, lo, hi)
    decreases hi - lo
  {
    hide SymFind;
    if lo == hi {
    } else {
      HalvingIsSearch(syms, key, lo, (lo + hi) / 2);
      HalvingIsSearch(syms, key, (lo + hi) / 2 + 1, hi);
    }
  }

  predicate NoMatch(syms: seq<Sym>, key: Word, lo: nat, hi: nat)
    requires lo <= hi <= |syms|
  {
    forall i :: lo <= i < hi ==> SymFind(key, syms[i]) != 0
  }

  /** An address of entry `i` lies past the end of the later entry `m`, and no
      entry after `m` is found for it. */
  predicate Hides(syms: seq<Sym>, key: Word, i: nat, m: nat) {
    i < m < |syms| && SymFind(key, syms[i]) == 0 && SymFind(key, syms[m]) > 0 && NoMatch(syms, key, m + 1, |syms|)
  }

  lemma NoMatchNotFound(pick: (nat, nat) -> nat, syms: seq<Sym>, key: Word, lo: nat, hi: nat)
    requires lo <= hi <= |syms| && NoMatch(syms, key, lo, hi)
    ensures Search(pick, syms, key, lo, hi) == -1
  {
  }

  /** Behind an entry that starts past an address, none is found for it. */
  lemma NoMatchBehind(syms: seq<Sym>, key: Word, m: nat)
    requires SortedBy(syms, (s: Sym) => s.value) && m < |syms| && SymFind(key, syms[m]) < 0
    ensures NoMatch(syms, key, m, |syms|)
  {
    var f := (s: Sym) => s.value;
    forall j | m <= j < |syms| ensures SymFind(key, syms[j]) != 0 {
      assert m < j ==> f(syms[m]) <= f(syms[j]);
    }
  }

  /** What is left to search always holds the last match. */
  lemma {:induction false} NotHiddenFound(pick: (nat, nat) -> nat, syms: seq<Sym>, key: Word, lo: nat, hi: nat)
    requires SortedBy(syms, (s: Sym) => s.value) && forall i, m :: !Hides(syms, key, i, m)
    requires lo <= hi <= |syms| && !NoMatch(syms, key, lo, hi) && NoMatch(syms, key, hi, |syms|)
    ensures Search(pick, syms, key, lo, hi) >= 0
    decreases hi - lo
  {
    hide SymFind, SortedBy;
    var m := if lo <= pick(lo, hi) < hi then pick(lo, hi) else lo;
    var i :| lo <= i < hi && SymFind(key, syms[i]) == 0;
    if SymFind(key, syms[m]) < 0 {
      NoMatchBehind(syms, key, m);
      assert i < m;
      NotHiddenFound(pick, syms, key, lo, m);
    } else if SymFind(key, syms[m]) > 0 {
      assert !Hides(syms, key, i, m);
      NotHiddenFound(pick, syms, key, m + 1, hi);
    }
  }

  lemma HiddenMissed(syms: seq<Sym>, key: Word, i: nat, m: nat)
    requires Hides(syms, key, i, m)
    ensures Search((lo: nat, hi: nat) => m, syms, key, 0, |syms|) == -1
  {
    NoMatchNotFound((lo: nat, hi: nat) => m, syms, key, m + 1, |syms|);
  }

  /** `lookup_symbol` finds a symbol for every address that no entry hides. */
  lemma LookupUnhidden(syms: seq<Sym>, key: Word)
    requires SortedBy(syms, (s: Sym) => s.value) && forall i, m :: !Hides(syms, key, i, m)
    ensures BSearch(syms, key, 0, |syms|) < 0 <==> NoMatch(syms, key, 0, |syms|)
  {
    HalvingIsSearch(syms, key, 0, |syms|);
    if !NoMatch(syms, key, 0, |syms|) {
      NotHiddenFound(Halve, syms, key, 0, |syms|);
    } else {
      NoMatchNotFound(Halve, syms, key, 0, |syms|);
    }
  }

  /** A sorted table gives a symbol for every address that one of its entries
      recognises, whichever way it is searched, if and only if no entry hides an
      address of an earlier one. */
  lemma FoundIff(syms: seq<Sym>)
    requires SortedBy(syms, (s: Sym) => s.value)
    ensures (forall pick, key :: !NoMatch(syms, key, 0, |syms|) ==> Search(pick, syms, key, 0, |syms|) >= 0)
            <==> forall key, i, m :: !Hides(syms, key, i, m)
  {
    if forall key, i, m :: !Hides(syms, key, i, m) {
      forall pick, key | !NoMatch(syms, key, 0, |syms|) ensures Search(pick, syms, key, 0, |syms|) >= 0 {
        NotHiddenFound(pick, syms, key, 0, |syms|);
      }
    } else {
      var key, i, m :| Hides(syms, key, i, m);
      HiddenMissed(syms, key, i, m);
    }
  }

  /** The functions of a file: each once, none wrapping around, no two sharing an
      address. */
  ghost predicate Separate(table: multiset<Sym>) {
    (forall s :: s in table ==> table[s] == 1 && NoWrap(s))
    && forall s, t, key: Word :: s in table && t in table && Covers(s, key) && Covers(t, key) ==> s == t
  }

  lemma SeparateDisjoint(syms: seq<Sym>)
    requires Separate(multiset(syms))
    ensures Disjoint(syms) && forall i :: 0 <= i < |syms| ==> NoWrap(syms[i])
  {
    forall i, j, key: Word | 0 <= i < j < |syms| && Covers(syms[i], key) ensures !Covers(syms[j], key) {
      assert syms[i] in multiset(syms) && syms[j] in multiset(syms);
      OnceEach(syms, i, j);
    }
    forall i | 0 <= i < |syms| ensures NoWrap(syms[i]) {
      assert syms[i] in multiset(syms);
    }
  }

  /** From the raw table to the answer: loading and looking up gives the symbol
      of the file that covers the address, and none exactly if there is none. */
  method LoadAndLookup(raw: array<Sym>, swab: bool, marks: bool, key: Word) returns (found: seq<Sym>)
    requires Separate(Functions(raw[..], swab, marks))
    modifies raw
    ensures var table := old(Functions(raw[..], swab, marks));
            && (forall s :: s in found ==> s in table && Covers(s, key))
            && (found == [] <==> forall s :: s in table ==> !Covers(s, key)) && |found| <= 1
  {
    hide Functions;
    var syms := LoadSymbols(raw, swab, marks);
    var r := LookupSymbol(syms, key);
    SeparateDisjoint(syms[..]);
    LookupCorrect(syms[..], key);
    forall s | s in multiset(syms[..]) ensures s in syms[..] {}
    if r < 0 {
      return [];
    }
    assert syms[..][r] in multiset(syms[..]);
    return [syms[r]];
  }
}
