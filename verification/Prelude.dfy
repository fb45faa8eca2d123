/** Small vocabulary shared by every module of the model. */
module Prelude {

  datatype Option<+T> = None | Some(value: T)

  /** Moments, wherever only their order and distance matter. */
  type Time = int

  /** What becomes of a call to Telegram: it works, fails before its effect, or fails after it. */
  datatype Fate = Works | Fails | FailsLate

  /** Elements of `s` that satisfy `keep`, in order. */
  function Filter<T(!new)>(s: seq<T>, keep: T -> bool): (r: seq<T>)
    ensures forall x :: x in r <==> x in s && keep(x)
  {
    if s == [] then []
    else
      var rest := Filter(s[..|s| - 1], keep);
      var last := s[|s| - 1];
      assert s == s[..|s| - 1] + [last];
      if keep(last) then rest + [last] else rest
  }

  lemma FilterAppend<T(!new)>(s: seq<T>, x: T, keep: T -> bool)
    ensures Filter(s + [x], keep) == Filter(s, keep) + (if keep(x) then [x] else [])
  {
    assert (s + [x])[..|s|] == s;
  }

  lemma {:induction false} FilterNone<T(!new)>(s: seq<T>, keep: T -> bool)
    requires forall x :: x in s ==> !keep(x)
    ensures Filter(s, keep) == []
  {
    if s != [] {
      FilterNone(s[..|s| - 1], keep);
    }
  }

  predicate Distinct<T(==)>(s: seq<T>) {
    forall i, j :: 0 <= i < j < |s| ==> s[i] != s[j]
  }

  lemma {:induction false} SubsetCardinality<T>(a: set<T>, b: set<T>)
    requires a <= b
    ensures |a| <= |b|
  {
    assert b == a + (b - a);
  }

  lemma DistinctSnoc<T>(s: seq<T>, x: T)
    ensures Distinct(s + [x]) <==> Distinct(s) && x !in s
  {
    var s' := s + [x];
    if Distinct(s') {
      forall i, j | 0 <= i < j < |s| ensures s[i] != s[j] {
        assert s'[i] != s'[j];
      }
      forall i | 0 <= i < |s| ensures s[i] != x {
        assert s'[i] != s'[|s|];
      }
    }
  }

  lemma {:induction false} DistinctOnce<T>(s: seq<T>, x: T)
    requires Distinct(s)
    ensures multiset(s)[x] == if x in s then 1 else 0
  {
    if s != [] {
      var n := |s| - 1;
      assert s == s[..n] + [s[n]];
      DistinctSnoc(s[..n], s[n]);
      DistinctOnce(s[..n], x);
    }
  }

  /** Rearranging distinct elements leaves them distinct. */
  lemma {:induction false} DistinctRearranged<T>(s: seq<T>, r: seq<T>)
    requires Distinct(s) && multiset(r) == multiset(s)
    ensures Distinct(r)
  {
    forall i, j | 0 <= i < j < |r| ensures r[i] != r[j] {
      DistinctOnce(s, r[i]);
      assert r == r[..j] + r[j..];
      assert multiset(r) == multiset(r[..j]) + multiset(r[j..]);
      assert r[i] in r[..j] && r[j] in r[j..];
    }
  }

  lemma PutTwice<K, V>(m: map<K, V>, k: K, u: V, v: V)
    ensures m[k := u][k := v] == m[k := v]
  {
  }

  lemma PutThenRemove<K, V>(m: map<K, V>, k: K, v: V)
    requires k !in m
    ensures m[k := v] - {k} == m
  {
  }

  /** A set of indices confined to a window is no larger than the window. */
  lemma {:induction false} WindowBoundsCardinality(indices: set<int>, low: int, size: nat)
    requires forall i :: i in indices ==> low <= i < low + size
    ensures |indices| <= size
    decreases size
  {
    if size == 0 {
      assert forall i :: i !in indices;
    } else {
      var top := low + size - 1;
      WindowBoundsCardinality(indices - {top}, low, size - 1);
      assert indices <= (indices - {top}) + {top};
      SubsetCardinality(indices, (indices - {top}) + {top});
    }
  }

  lemma LeastIn(s: set<int>, low: int, some: int) returns (first: int)
    requires some in s && forall i :: i in s ==> low <= i
    ensures first in s && forall i :: i in s ==> first <= i
  {
    first := low;
    while first !in s
      invariant forall i :: i in s ==> first <= i
      decreases some - first
    {
      first := first + 1;
    }
  }
}
