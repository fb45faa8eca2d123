/** Python's `sorted(..., key=...)`: ordered by key, nothing lost, and stable. */
module Sorting {
  import opened Prelude

  predicate SortedBy<T>(s: seq<T>, key: T -> int) {
    forall i, j :: 0 <= i < j < |s| ==> key(s[i]) <= key(s[j])
  }

  /** `x` goes after everything not greater. */
  function Insert<T>(s: seq<T>, x: T, key: T -> int): seq<T> {
    if s == [] || key(s[|s| - 1]) <= key(x) then s + [x]
    else Insert(s[..|s| - 1], x, key) + [s[|s| - 1]]
  }

  function Sorted<T>(s: seq<T>, key: T -> int): seq<T> {
    if s == [] then [] else Insert(Sorted(s[..|s| - 1], key), s[|s| - 1], key)
  }

  lemma {:induction false} InsertKeeps<T>(s: seq<T>, x: T, key: T -> int)
    ensures multiset(Insert(s, x, key)) == multiset(s) + multiset{x}
    ensures SortedBy(s, key) ==> SortedBy(Insert(s, x, key), key)
  {
    if s != [] && key(s[|s| - 1]) > key(x) {
      var n := |s| - 1;
      InsertKeeps(s[..n], x, key);
      assert s == s[..n] + [s[n]];
      if SortedBy(s, key) {
        InsertedBefore(s[..n], s[n], x, key);
      }
    }
  }

  lemma InsertedBefore<T>(s: seq<T>, last: T, x: T, key: T -> int)
    requires key(x) < key(last) && forall y :: y in s ==> key(y) <= key(last)
    requires multiset(Insert(s, x, key)) == multiset(s) + multiset{x} && SortedBy(Insert(s, x, key), key)
    ensures SortedBy(Insert(s, x, key) + [last], key)
  {
    var r := Insert(s, x, key);
    forall y | y in r ensures key(y) <= key(last) {
      assert y in multiset(r);
      assert y == x || y in s;
    }
  }

  lemma {:induction false} SortedKeeps<T>(s: seq<T>, key: T -> int)
    ensures SortedBy(Sorted(s, key), key)
    ensures multiset(Sorted(s, key)) == multiset(s)
    ensures |Sorted(s, key)| == |s|
  {
    if s != [] {
      var n := |s| - 1;
      SortedKeeps(s[..n], key);
      InsertKeeps(Sorted(s[..n], key), s[n], key);
      assert s == s[..n] + [s[n]];
    }
    assert |multiset(Sorted(s, key))| == |multiset(s)|;
  }

  /** The elements of one key, in order. */
  function OfKey<T>(s: seq<T>, key: T -> int, k: int): seq<T> {
    if s == [] then []
    else
      var before := OfKey(s[..|s| - 1], key, k);
      if key(s[|s| - 1]) == k then before + [s[|s| - 1]] else before
  }

  lemma OfKeyOneMore<T>(s: seq<T>, x: T, key: T -> int, k: int)
    ensures OfKey(s + [x], key, k) == OfKey(s, key, k) + if key(x) == k then [x] else []
  {
    assert (s + [x])[..|s|] == s;
  }

  lemma {:induction false} InsertIsStable<T>(s: seq<T>, x: T, key: T -> int, k: int)
    requires SortedBy(s, key)
    ensures OfKey(Insert(s, x, key), key, k) == OfKey(s, key, k) + if key(x) == k then [x] else []
  {
    if s == [] || key(s[|s| - 1]) <= key(x) {
      OfKeyOneMore(s, x, key, k);
    } else {
      var n := |s| - 1;
      InsertIsStable(s[..n], x, key, k);
      OfKeyOneMore(Insert(s[..n], x, key), s[n], key, k);
    }
  }

  /** Elements that compare equal stay in the order they came in. */
  lemma {:induction false} SortedIsStable<T>(s: seq<T>, key: T -> int, k: int)
    ensures OfKey(Sorted(s, key), key, k) == OfKey(s, key, k)
  {
    if s != [] {
      var n := |s| - 1;
      SortedIsStable(s[..n], key, k);
      SortedKeeps(s[..n], key);
      InsertIsStable(Sorted(s[..n], key), s[n], key, k);
    }
  }

  // ---- sorting and choosing ------------------------------------------------------------

  lemma InsertBeforeLast<T>(s: seq<T>, last: T, x: T, key: T -> int)
    requires key(last) > key(x)
    ensures Insert(s + [last], x, key) == Insert(s, x, key) + [last]
  {
    assert (s + [last])[..|s|] == s;
  }

  lemma {:induction false} LastOfFilter<T(!new)>(s: seq<T>, keep: T -> bool, key: T -> int)
    requires SortedBy(s, key)
    ensures var left := Filter(s, keep); left != [] ==> s != [] && key(left[|left| - 1]) <= key(s[|s| - 1])
  {
    if s != [] {
      LastOfFilter(s[..|s| - 1], keep, key);
    }
  }

  lemma InsertLastFilter<T(!new)>(s: seq<T>, x: T, keep: T -> bool, key: T -> int)
    requires SortedBy(s, key) && (s == [] || key(s[|s| - 1]) <= key(x))
    ensures Filter(Insert(s, x, key), keep)
         == if keep(x) then Insert(Filter(s, keep), x, key) else Filter(s, keep)
  {
    assert Insert(s, x, key) == s + [x];
    FilterAppend(s, x, keep);
    LastOfFilter(s, keep, key);
  }

  lemma {:induction false} InsertFilter<T(!new)>(s: seq<T>, x: T, keep: T -> bool, key: T -> int)
    requires SortedBy(s, key)
    ensures Filter(Insert(s, x, key), keep)
         == if keep(x) then Insert(Filter(s, keep), x, key) else Filter(s, keep)
  {
    if s == [] || key(s[|s| - 1]) <= key(x) {
      InsertLastFilter(s, x, keep, key);
    } else {
      var rest, last := s[..|s| - 1], s[|s| - 1];
      assert s == rest + [last];
      InsertFilter(rest, x, keep, key);
      InsertFilterOneMore(rest, last, x, keep, key);
    }
  }

  lemma InsertFilterOneMore<T(!new)>(s: seq<T>, last: T, x: T, keep: T -> bool, key: T -> int)
    requires key(last) > key(x)
    requires Filter(Insert(s, x, key), keep)
          == if keep(x) then Insert(Filter(s, keep), x, key) else Filter(s, keep)
    ensures Filter(Insert(s + [last], x, key), keep)
         == if keep(x) then Insert(Filter(s + [last], keep), x, key) else Filter(s + [last], keep)
  {
    InsertBeforeLast(s, last, x, key);
    InsertBeforeLast(Filter(s, keep), last, x, key);
    FilterAppend(s, last, keep);
    FilterAppend(Insert(s, x, key), last, keep);
  }

  /** Choosing before sorting is choosing after it. */
  lemma {:induction false} SortedFilter<T(!new)>(s: seq<T>, keep: T -> bool, key: T -> int)
    ensures Sorted(Filter(s, keep), key) == Filter(Sorted(s, key), keep)
  {
    if s != [] {
      var n := |s| - 1;
      SortedFilter(s[..n], keep, key);
      SortedKeeps(s[..n], key);
      InsertFilter(Sorted(s[..n], key), s[n], keep, key);
      assert s == s[..n] + [s[n]];
      FilterAppend(s[..n], s[n], keep);
      if keep(s[n]) {
        SortedOneMore(Filter(s[..n], keep), s[n], key);
      }
    }
  }

  lemma SortedOneMore<T>(s: seq<T>, x: T, key: T -> int)
    ensures Sorted(s + [x], key) == Insert(Sorted(s, key), x, key)
  {
    assert (s + [x])[..|s|] == s;
  }

  /** Keeping all but the first `n`. */
  lemma {:induction false} FilterSuffix<T(!new)>(s: seq<T>, keep: T -> bool, n: nat)
    requires n <= |s| && forall k :: 0 <= k < |s| ==> (keep(s[k]) <==> k >= n)
    ensures Filter(s, keep) == s[n..]
  {
    if |s| == n {
      FilterNone(s, keep);
    } else {
      var last := |s| - 1;
      assert s == s[..last] + [s[last]];
      FilterSuffix(s[..last], keep, n);
      FilterAppend(s[..last], s[last], keep);
    }
  }
}
