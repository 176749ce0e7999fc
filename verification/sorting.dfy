/** The C library's qsort, as far as its callers may rely on it: some
    permutation of the array that is sorted by the comparison key. */
module Sorting {
  ghost predicate SortedBy<T>(s: seq<T>, key: T -> int) {
    forall i, j :: 0 <= i < j < |s| ==> key(s[i]) <= key(s[j])
  }

  function Insert<T>(x: T, s: seq<T>, key: T -> int): seq<T> {
    if s == [] || key(x) <= key(s[0]) then [x] + s else [s[0]] + Insert(x, s[1..], key)
  }

  function InsertionSort<T>(s: seq<T>, key: T -> int): seq<T> {
    if s == [] then [] else Insert(s[0], InsertionSort(s[1..], key), key)
  }

  lemma {:induction false} InsertKeeps<T>(x: T, s: seq<T>, key: T -> int)
    ensures multiset(Insert(x, s, key)) == multiset(s) + multiset{x}
  {
    if s == [] || key(x) <= key(s[0]) {
    } else {
      InsertKeeps(x, s[1..], key);
      assert s == [s[0]] + s[1..];
    }
  }

  lemma {:induction false} InsertSorted<T>(x: T, s: seq<T>, key: T -> int)
    requires SortedBy(s, key)
    ensures SortedBy(Insert(x, s, key), key)
  {
    if s == [] || key(x) <= key(s[0]) {
    } else {
      var t := Insert(x, s[1..], key);
      InsertSorted(x, s[1..], key);
      InsertKeeps(x, s[1..], key);
      forall i | 0 <= i < |t| ensures key(s[0]) <= key(t[i]) {
        assert t[i] in multiset(t);
      }
    }
  }

  lemma {:induction false} InsertionSortSorts<T>(s: seq<T>, key: T -> int)
    ensures SortedBy(InsertionSort(s, key), key)
    ensures multiset(InsertionSort(s, key)) == multiset(s) && |InsertionSort(s, key)| == |s|
  {
    if s == [] {
    } else {
      InsertionSortSorts(s[1..], key);
      InsertKeeps(s[0], InsertionSort(s[1..], key), key);
      InsertSorted(s[0], InsertionSort(s[1..], key), key);
      assert s == [s[0]] + s[1..];
      assert |InsertionSort(s, key)| == |multiset(InsertionSort(s, key))| == |multiset(s)|;
    }
  }

  method QSort<T>(a: array<T>, key: T -> int)
    modifies a
    ensures SortedBy(a[..], key) && multiset(a[..]) == multiset(old(a[..]))
  {
    var s := InsertionSort(a[..], key);
    InsertionSortSorts(a[..], key);
    forall i | 0 <= i < a.Length {
      a[i] := s[i];
    }
    assert a[..] == s;
  }

  /** An element that occurs once is at one place only. */
  lemma OnceEach<T>(s: seq<T>, i: int, j: int)
    requires 0 <= i < j < |s| && multiset(s)[s[i]] == 1
    ensures s[i] != s[j]
  {
    var x := s[i];
    assert s == s[..j] + s[j..] && multiset(s)[x] == multiset(s[..j])[x] + multiset(s[j..])[x];
    assert s[..j][i] == x && multiset(s[..j])[x] > 0;
    assert s[j..][0] == s[j] && multiset(s[j..])[s[j]] > 0;
  }
}
