/** Sorting by an integer key, as `sort.Slice` and the store's `OrderBy`
    do it: the result is a permutation of the input ordered by the key;
    nothing is promised about elements whose keys are equal. */
module Sorting {

  /** `xs` is non-decreasing by `key`. */
  predicate SortedBy<T>(xs: seq<T>, key: T -> int) {
    forall i, j :: 0 <= i < j < |xs| ==> key(xs[i]) <= key(xs[j])
  }

  /** Insertion sort of a copy of `xs` by `key`. */
  method SortByKey<T(==)>(xs: seq<T>, key: T -> int) returns (sorted: seq<T>)
    ensures multiset(sorted) == multiset(xs) && SortedBy(sorted, key)
  {
    sorted := [];
    var i := 0;
    while i < |xs|
      invariant 0 <= i <= |xs|
      invariant multiset(sorted) == multiset(xs[..i])
      invariant SortedBy(sorted, key)
    {
      var x := xs[i];
      var k := key(x);
      var j := |sorted|;
      while j > 0 && key(sorted[j - 1]) > k
        invariant 0 <= j <= |sorted|
        invariant forall m :: j <= m < |sorted| ==> key(sorted[m]) > k
      {
        j := j - 1;
      }
      InsertKeepsSorted(sorted, j, x, key);
      InsertAddsOne(sorted, j, x);
      sorted := sorted[..j] + [x] + sorted[j..];
      assert xs[..i + 1] == xs[..i] + [x];
      i := i + 1;
    }
    assert xs[..|xs|] == xs;
  }

  lemma InsertAddsOne<T>(sorted: seq<T>, j: nat, x: T)
    requires j <= |sorted|
    ensures multiset(sorted[..j] + [x] + sorted[j..]) == multiset(sorted) + multiset{x}
  {
    assert sorted == sorted[..j] + sorted[j..];
  }

  /** Inserting `x` after every element with a key at most its own and
      before every element with a larger key keeps the order. */
  lemma InsertKeepsSorted<T>(sorted: seq<T>, j: nat, x: T, key: T -> int)
    requires SortedBy(sorted, key) && j <= |sorted|
    requires j > 0 ==> key(sorted[j - 1]) <= key(x)
    requires forall m :: j <= m < |sorted| ==> key(sorted[m]) > key(x)
    ensures SortedBy(sorted[..j] + [x] + sorted[j..], key)
  {
    var s := sorted[..j] + [x] + sorted[j..];
    forall a, b | 0 <= a < b < |s| ensures key(s[a]) <= key(s[b]) {
      if b < j {
        assert s[a] == sorted[a] && s[b] == sorted[b];
      } else if b == j {
        assert s[a] == sorted[a];
      } else if a < j {
        assert s[a] == sorted[a] && s[b] == sorted[b - 1];
      } else if a == j {
        assert s[b] == sorted[b - 1];
      } else {
        assert s[a] == sorted[a - 1] && s[b] == sorted[b - 1];
      }
    }
  }
}
