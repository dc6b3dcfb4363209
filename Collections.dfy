/** Sequence helpers shared by the pipeline: pandas' `unique` and column sums. */
module Collections {

  /** The elements of `s`, each once, in order of first appearance (pandas `Series.unique`). */
  function Distinct<T(==,!new)>(s: seq<T>): (r: seq<T>)
    ensures |r| <= |s|
  {
    if s == [] then []
    else
      var prefix := Distinct(s[..|s| - 1]);
      if s[|s| - 1] in prefix then prefix else prefix + [s[|s| - 1]]
  }

  /** `Distinct` keeps every element of `s`, adds none, and lists none twice. */
  lemma {:induction false} DistinctMembers<T(!new)>(s: seq<T>)
    ensures forall x :: x in Distinct(s) <==> x in s
    ensures forall i, j :: 0 <= i < j < |Distinct(s)| ==> Distinct(s)[i] != Distinct(s)[j]
  {
    if s != [] {
      var n := |s| - 1;
      DistinctMembers(s[..n]);
      assert s == s[..n] + [s[n]];
    }
  }

  /** Index of the first occurrence of `x` in `s`, or `|s|` when `x` does not occur. */
  function FirstIndex<T(==,!new)>(s: seq<T>, x: T): (k: nat)
    ensures k <= |s|
    ensures k < |s| <==> x in s
    ensures k < |s| ==> s[k] == x
    ensures forall j :: 0 <= j < k ==> s[j] != x
  {
    if s == [] then 0
    else if s[0] == x then 0
    else
      var k := 1 + FirstIndex(s[1..], x);
      assert forall j :: 1 <= j < k ==> s[j] == s[1..][j - 1];
      k
  }

  lemma FirstIndexOfPrefix<T(!new)>(s: seq<T>, n: nat, x: T)
    requires n <= |s| && x in s[..n]
    ensures FirstIndex(s[..n], x) == FirstIndex(s, x)
  {
    var k := FirstIndex(s[..n], x);
    assert s[..n][k] == s[k];
  }

  /** `Distinct` lists the elements in the order in which they first occur in `s`. */
  lemma {:induction false} DistinctKeepsFirstAppearanceOrder<T(!new)>(s: seq<T>, i: nat, j: nat)
    requires i < j < |Distinct(s)|
    ensures FirstIndex(s, Distinct(s)[j]) < |s|
    ensures FirstIndex(s, Distinct(s)[i]) < FirstIndex(s, Distinct(s)[j])
  {
    var n := |s| - 1;
    var prefix := Distinct(s[..n]);
    var r := Distinct(s);
    DistinctMembers(s[..n]);
    assert r[i] in s[..n] by {
      if s[n] !in prefix && i == |prefix| { assert false; }
      assert r[i] == prefix[i];
    }
    if s[n] in prefix || j < |prefix| {
      assert r[j] == prefix[j] && r[i] == prefix[i];
      DistinctKeepsFirstAppearanceOrder(s[..n], i, j);
      FirstIndexOfPrefix(s, n, r[i]);
      FirstIndexOfPrefix(s, n, r[j]);
    } else {
      // r[j] is the last element of s and occurs nowhere before it
      assert r[j] == s[n] && s[n] !in s[..n];
      FirstIndexOfPrefix(s, n, r[i]);
      assert FirstIndex(s, r[j]) == n by {
        forall k | 0 <= k < n ensures s[k] != s[n] { assert s[k] == s[..n][k]; }
      }
    }
  }

  /** In a non-decreasing sequence of integers, the distinct values come out strictly increasing. */
  lemma {:induction false} DistinctOfSortedIsIncreasing(s: seq<int>)
    requires forall i, j :: 0 <= i < j < |s| ==> s[i] <= s[j]
    ensures forall i, j :: 0 <= i < j < |Distinct(s)| ==> Distinct(s)[i] < Distinct(s)[j]
  {
    if s != [] {
      var n := |s| - 1;
      var prefix := Distinct(s[..n]);
      DistinctOfSortedIsIncreasing(s[..n]);
      DistinctMembers(s[..n]);
      if s[n] !in prefix {
        forall i | 0 <= i < |prefix| ensures prefix[i] < s[n] {
          assert prefix[i] in s[..n];
          var k :| 0 <= k < n && s[..n][k] == prefix[i];
          assert s[k] <= s[n];
        }
      }
    }
  }

  /** A non-empty sequence is its prefix followed by its last element. */
  lemma SplitLast<T>(s: seq<T>)
    requires s != []
    ensures s[..|s| - 1] + [s[|s| - 1]] == s
  {
  }

  /** Sum of a column of reals (pandas `Series.sum`). */
  function Sum(xs: seq<real>): real
  {
    if xs == [] then 0.0 else Sum(xs[..|xs| - 1]) + xs[|xs| - 1]
  }

  lemma {:induction false} SumAppend(a: seq<real>, b: seq<real>)
    ensures Sum(a + b) == Sum(a) + Sum(b)
  {
    if b != [] {
      assert (a + b)[..|a + b| - 1] == a + b[..|b| - 1];
      SumAppend(a, b[..|b| - 1]);
    } else {
      assert a + b == a;
    }
  }

  /** Values between `lo` and `hi` sum to between `|xs|` times `lo` and `|xs|` times `hi`. */
  lemma {:induction false} SumBounds(xs: seq<real>, lo: real, hi: real)
    requires forall i :: 0 <= i < |xs| ==> lo <= xs[i] <= hi
    ensures lo * |xs| as real <= Sum(xs) <= hi * |xs| as real
  {
    if xs != [] {
      var n := |xs| - 1;
      SumBounds(xs[..n], lo, hi);
      assert lo * |xs| as real == lo * n as real + lo && hi * |xs| as real == hi * n as real + hi;
    }
  }
}
