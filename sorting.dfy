/**
 * Python's `sorted(xs, key=k, reverse=True)` and `max(xs, key=k)` on a real
 * key.  Both are stable: among equal keys the earlier element comes first.
 */
module Sorting {

  predicate SortedDesc<T>(xs: seq<T>, key: T -> real)
  {
    forall i, j :: 0 <= i < j < |xs| ==> key(xs[i]) >= key(xs[j])
  }

  /** Put x in front of the first element whose key is not larger than x's. */
  function InsertDesc<T>(x: T, ys: seq<T>, key: T -> real): (r: seq<T>)
    ensures |r| == |ys| + 1
    ensures |ys| > 0 && key(ys[0]) > key(x) ==> r[0] == ys[0]
    ensures (|ys| == 0 || key(ys[0]) <= key(x)) ==> r[0] == x
  {
    if |ys| == 0 || key(ys[0]) <= key(x) then [x] + ys
    else [ys[0]] + InsertDesc(x, ys[1..], key)
  }

  lemma {:induction false} InsertDescPerm<T>(x: T, ys: seq<T>, key: T -> real)
    ensures multiset(InsertDesc(x, ys, key)) == multiset(ys) + multiset{x}
  {
    if |ys| > 0 && key(ys[0]) > key(x) {
      InsertDescPerm(x, ys[1..], key);
      assert ys == [ys[0]] + ys[1..];
    }
  }

  /** Inserting below a bound keeps every key below it. */
  lemma {:induction false} InsertDescBounded<T>(x: T, ys: seq<T>, key: T -> real, b: real)
    requires key(x) <= b && forall i :: 0 <= i < |ys| ==> key(ys[i]) <= b
    ensures forall j :: 0 <= j < |InsertDesc(x, ys, key)| ==> key(InsertDesc(x, ys, key)[j]) <= b
  {
    if |ys| > 0 && key(ys[0]) > key(x) {
      InsertDescBounded(x, ys[1..], key, b);
    }
  }

  lemma {:induction false} InsertDescSorted<T>(x: T, ys: seq<T>, key: T -> real)
    requires SortedDesc(ys, key)
    ensures SortedDesc(InsertDesc(x, ys, key), key)
  {
    if |ys| > 0 && key(ys[0]) > key(x) {
      InsertDescSorted(x, ys[1..], key);
      InsertDescBounded(x, ys[1..], key, key(ys[0]));
    }
  }

  /** `sorted(xs, key=key, reverse=True)`: insertion of each element into the sorted rest. */
  function SortDesc<T>(xs: seq<T>, key: T -> real): (r: seq<T>)
    ensures |r| == |xs|
  {
    if |xs| == 0 then [] else InsertDesc(xs[0], SortDesc(xs[1..], key), key)
  }

  /** The sort is a permutation of its input. */
  lemma {:induction false} SortDescPerm<T>(xs: seq<T>, key: T -> real)
    ensures multiset(SortDesc(xs, key)) == multiset(xs)
  {
    if |xs| > 0 {
      SortDescPerm(xs[1..], key);
      InsertDescPerm(xs[0], SortDesc(xs[1..], key), key);
      assert xs == [xs[0]] + xs[1..];
    }
  }

  /** The sort is in descending key order. */
  lemma {:induction false} SortDescSorted<T>(xs: seq<T>, key: T -> real)
    ensures SortedDesc(SortDesc(xs, key), key)
  {
    if |xs| > 0 {
      SortDescSorted(xs[1..], key);
      InsertDescSorted(xs[0], SortDesc(xs[1..], key), key);
    }
  }

  /** Position of `max(xs, key=key)`: the first element whose key is maximal. */
  function FirstMaxIndex<T>(xs: seq<T>, key: T -> real): (k: nat)
    requires |xs| > 0
    ensures k < |xs|
    ensures forall j :: 0 <= j < k ==> key(xs[j]) < key(xs[k])
    ensures forall i :: 0 <= i < |xs| ==> key(xs[i]) <= key(xs[k])
  {
    if |xs| == 1 then 0
    else
      var k' := FirstMaxIndex(xs[1..], key);
      assert forall i :: 1 <= i < |xs| ==> xs[i] == xs[1..][i - 1];
      if key(xs[0]) >= key(xs[k' + 1]) then 0 else k' + 1
  }

  /** `max(xs, key=key)`. */
  function FirstMax<T>(xs: seq<T>, key: T -> real): (m: T)
    requires |xs| > 0
    ensures forall i :: 0 <= i < |xs| ==> key(xs[i]) <= key(m)
  {
    xs[FirstMaxIndex(xs, key)]
  }

  /** The head of the stable descending sort is the first maximal element. */
  lemma {:induction false} SortDescHead<T>(xs: seq<T>, key: T -> real)
    requires |xs| > 0
    ensures SortDesc(xs, key)[0] == FirstMax(xs, key)
  {
    if |xs| > 1 {
      SortDescHead(xs[1..], key);
      assert xs[1..][FirstMaxIndex(xs[1..], key)] == xs[FirstMaxIndex(xs[1..], key) + 1];
    }
  }

  /** A prefix of a descending sequence is descending and draws on the same elements. */
  lemma PrefixSortedDesc<T>(xs: seq<T>, n: nat, key: T -> real)
    requires SortedDesc(xs, key) && n <= |xs|
    ensures SortedDesc(xs[..n], key)
    ensures multiset(xs[..n]) <= multiset(xs)
  {
    assert xs == xs[..n] + xs[n..];
  }

  /**
   * The first n of the descending sort are the n highest: nothing the
   * prefix leaves out has a key above the prefix's last one.
   */
  lemma TopOfSortDesc<T>(xs: seq<T>, n: nat, key: T -> real)
    requires 0 < n <= |xs|
    ensures var top := SortDesc(xs, key)[..n];
            forall x :: x in multiset(xs) - multiset(top) ==> key(x) <= key(top[n - 1])
  {
    var sorted := SortDesc(xs, key);
    SortDescPerm(xs, key);
    SortDescSorted(xs, key);
    var top := sorted[..n];
    assert sorted == top + sorted[n..];
    assert multiset(sorted) == multiset(top) + multiset(sorted[n..]);
    forall x | x in multiset(xs) - multiset(top)
      ensures key(x) <= key(top[n - 1])
    {
      assert x in multiset(sorted[n..]);
      var k :| 0 <= k < |sorted[n..]| && sorted[n..][k] == x;
      assert sorted[n + k] == x;
    }
  }

  /** An `(item, score)` tuple, as the matching stages collect them. */
  datatype Scored<T> = Scored(row: T, score: real)

  function Score<T>(s: Scored<T>): real
  {
    s.score
  }

  /** `max(matches, key=lambda x: x[1])`: the first tuple with the largest score. */
  function Best<T>(xs: seq<Scored<T>>): (b: Scored<T>)
    requires |xs| > 0
    ensures b in xs
    ensures forall x | x in xs :: x.score <= b.score
  {
    FirstMax(xs, Score)
  }
}
