/** Ordering by an integer key, the model of `sort_values`, `nlargest` and
    `sort_values(...).head(k)`. The sort is an insertion sort; the source's
    quicksort is not stable, so nothing here depends on how ties are ordered. */
module Sorting {

  ghost predicate SortedBy<T>(s: seq<T>, key: T -> int) {
    forall i, j :: 0 <= i < j < |s| ==> key(s[i]) <= key(s[j])
  }

  ghost predicate Distinct<T>(s: seq<T>) {
    forall i, j :: 0 <= i < j < |s| ==> s[i] != s[j]
  }

  /** Puts `x` into the sorted sequence `s` before the first element with a larger key. */
  function Insert<T>(x: T, s: seq<T>, key: T -> int): (r: seq<T>)
    requires SortedBy(s, key)
    ensures |r| == |s| + 1
  {
    if s == [] || key(x) <= key(s[0]) then [x] + s
    else [s[0]] + Insert(x, s[1..], key)
  }

  lemma {:induction false} InsertPermutes<T>(x: T, s: seq<T>, key: T -> int)
    requires SortedBy(s, key)
    ensures multiset(Insert(x, s, key)) == multiset(s) + multiset{x}
  {
    if s != [] && key(x) > key(s[0]) {
      InsertPermutes(x, s[1..], key);
      assert s == [s[0]] + s[1..];
    }
  }

  lemma {:induction false} InsertSorted<T>(x: T, s: seq<T>, key: T -> int)
    requires SortedBy(s, key)
    ensures SortedBy(Insert(x, s, key), key)
  {
    var r := Insert(x, s, key);
    if s == [] || key(x) <= key(s[0]) {
      assert forall j :: 0 <= j < |s| ==> key(s[0]) <= key(s[j]);
    } else {
      var rest := Insert(x, s[1..], key);
      InsertSorted(x, s[1..], key);
      InsertPermutes(x, s[1..], key);
      assert r == [s[0]] + rest;
      forall i | 0 <= i < |rest| ensures key(s[0]) <= key(rest[i]) {
        var y := rest[i];
        assert y in multiset(rest);
        if y != x {
          assert y in multiset(s[1..]);
          var j :| 0 <= j < |s[1..]| && s[1..][j] == y;
          assert s[j + 1] == y;
        }
      }
    }
  }

  /** Sorts `s` by ascending key. */
  function SortBy<T>(s: seq<T>, key: T -> int): (r: seq<T>)
    ensures |r| == |s|
    ensures multiset(r) == multiset(s)
    ensures SortedBy(r, key)
  {
    if s == [] then []
    else
      var rest := SortBy(s[1..], key);
      InsertPermutes(s[0], rest, key);
      InsertSorted(s[0], rest, key);
      assert s == [s[0]] + s[1..];
      Insert(s[0], rest, key)
  }

  function Min(a: int, b: int): int {
    if a <= b then a else b
  }

  /** The first `k` elements in ascending key order (`nsmallest`; with a negated key, `nlargest`). */
  function FirstBy<T>(s: seq<T>, k: nat, key: T -> int): (r: seq<T>)
    ensures |r| == Min(k, |s|)
    ensures SortedBy(r, key)
    ensures multiset(r) <= multiset(s)
  {
    var sorted := SortBy(s, key);
    var n := Min(k, |s|);
    assert sorted == sorted[..n] + sorted[n..];
    assert multiset(sorted) == multiset(sorted[..n]) + multiset(sorted[n..]);
    sorted[..n]
  }

  /** No element left out of `FirstBy` has a smaller key than one taken. */
  lemma FirstByOmitted<T(!new)>(s: seq<T>, k: nat, key: T -> int)
    ensures forall x, y :: x in multiset(s) - multiset(FirstBy(s, k, key)) && y in FirstBy(s, k, key) ==> key(y) <= key(x)
  {
    var sorted := SortBy(s, key);
    var n := Min(k, |s|);
    var r := sorted[..n];
    var rest := sorted[n..];
    assert r == FirstBy(s, k, key);
    assert sorted == r + rest;
    assert multiset(s) == multiset(r) + multiset(rest);
    assert multiset(s) - multiset(r) == multiset(rest);
    forall x, y | x in multiset(rest) && y in r ensures key(y) <= key(x) {
      assert x in rest;
      var i :| 0 <= i < |r| && r[i] == y;
      var j :| 0 <= j < |rest| && rest[j] == x;
      assert sorted[i] == y && sorted[n + j] == x;
    }
  }

  lemma {:induction false} DistinctCounts<T>(s: seq<T>, x: T)
    requires Distinct(s)
    ensures multiset(s)[x] <= 1
  {
    if s != [] {
      var last := s[|s| - 1];
      var init := s[..|s| - 1];
      assert s == init + [last];
      DistinctCounts(init, x);
      if last == x {
        assert x !in init;
      }
    }
  }

  /** A rearrangement of a sequence without repetitions has no repetitions either. */
  lemma DistinctPermutation<T>(a: seq<T>, b: seq<T>)
    requires Distinct(a) && multiset(a) == multiset(b)
    ensures Distinct(b)
  {
    forall i, j | 0 <= i < j < |b| ensures b[i] != b[j] {
      if b[i] == b[j] {
        assert b == b[..j] + b[j..];
        assert b[i] in b[..j] && b[j] in b[j..];
        assert multiset(b)[b[i]] == multiset(b[..j])[b[i]] + multiset(b[j..])[b[i]];
        DistinctCounts(a, b[i]);
      }
    }
  }

  /** Sorting elements with pairwise different keys orders their keys strictly. */
  lemma SortedDistinctKeys<T>(s: seq<T>, key: T -> int)
    requires SortedBy(s, key)
    requires forall i, j :: 0 <= i < j < |s| ==> key(s[i]) != key(s[j])
    ensures forall i, j :: 0 <= i < j < |s| ==> key(s[i]) < key(s[j])
  {
  }
}
