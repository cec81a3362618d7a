/** Filtering and ordering rows: what a `.eq(...)` filter and an `.order(..., { ascending: false })` do to a table. */
module Seqs {

  /** The elements of `s` that satisfy `keep`, in their original order. */
  function Filter<T(!new)>(s: seq<T>, keep: T -> bool): (r: seq<T>)
    ensures |r| <= |s|
    ensures forall x :: x in r <==> x in s && keep(x)
    ensures multiset(r) <= multiset(s)
  {
    if s == [] then []
    else
      assert s == [s[0]] + s[1..];
      (if keep(s[0]) then [s[0]] else []) + Filter(s[1..], keep)
  }

  /** Filtering twice with the same condition is filtering once. */
  lemma {:induction false} FilterIdempotent<T(!new)>(s: seq<T>, keep: T -> bool)
    ensures Filter(Filter(s, keep), keep) == Filter(s, keep)
  {
    if s != [] {
      var rest := Filter(s[1..], keep);
      FilterIdempotent(s[1..], keep);
      if keep(s[0]) {
        var f := [s[0]] + rest;
        assert Filter(s, keep) == f;
        assert f[1..] == rest;
        assert Filter(f, keep) == [s[0]] + Filter(rest, keep);
      } else {
        assert Filter(s, keep) == rest;
      }
    }
  }

  /** A condition that holds of every element keeps the sequence as it is. */
  lemma {:induction false} FilterAll<T(!new)>(s: seq<T>, keep: T -> bool)
    requires forall x :: x in s ==> keep(x)
    ensures Filter(s, keep) == s
  {
    if s != [] {
      FilterAll(s[1..], keep);
      assert s == [s[0]] + s[1..];
    }
  }

  /** Filtering distributes over concatenation: appending a row and filtering commute. */
  lemma {:induction false} FilterAppend<T(!new)>(s: seq<T>, t: seq<T>, keep: T -> bool)
    ensures Filter(s + t, keep) == Filter(s, keep) + Filter(t, keep)
  {
    if s == [] {
      assert s + t == t;
    } else {
      assert (s + t)[1..] == s[1..] + t;
      FilterAppend(s[1..], t, keep);
    }
  }

  /** Filtering depends only on which elements the condition keeps. */
  lemma {:induction false} FilterExt<T(!new)>(s: seq<T>, f: T -> bool, g: T -> bool)
    requires forall x :: f(x) == g(x)
    ensures Filter(s, f) == Filter(s, g)
  {
    if s != [] {
      FilterExt(s[1..], f, g);
    }
  }

  /** Every element of `s` is ordered by `key`, largest first. */
  ghost predicate SortedDesc<T>(s: seq<T>, key: T -> nat) {
    forall i, j :: 0 <= i < j < |s| ==> key(s[i]) >= key(s[j])
  }

  /** `x` placed into the descending sequence `s` before the first element with a smaller key. */
  function Insert<T(!new)>(x: T, s: seq<T>, key: T -> nat): (r: seq<T>)
    requires SortedDesc(s, key)
    ensures SortedDesc(r, key)
    ensures multiset(r) == multiset(s) + multiset{x}
    ensures forall y :: y in r <==> y == x || y in s
  {
    if s == [] || key(s[0]) <= key(x) then [x] + s
    else
      var rest := Insert(x, s[1..], key);
      HeadIsLargest(s, key);
      assert s == [s[0]] + s[1..];
      [s[0]] + rest
  }

  /** The head of a descending sequence has the largest key. */
  lemma HeadIsLargest<T>(s: seq<T>, key: T -> nat)
    requires SortedDesc(s, key) && s != []
    ensures forall y :: y in s ==> key(y) <= key(s[0])
  {
    forall y | y in s ensures key(y) <= key(s[0]) {
      var j :| 0 <= j < |s| && s[j] == y;
    }
  }

  /** The rows of `s` ordered by `key`, largest first (insertion sort; the order of equal keys is the model's choice). */
  function SortDesc<T(!new)>(s: seq<T>, key: T -> nat): (r: seq<T>)
    ensures SortedDesc(r, key)
    ensures multiset(r) == multiset(s)
    ensures |r| == |s|
    ensures forall y :: y in r <==> y in s
  {
    if s == [] then []
    else
      assert s == [s[0]] + s[1..];
      Insert(s[0], SortDesc(s[1..], key), key)
  }

  /** `f` applied to every row, in order: a filtered `update` rewrites the matching rows and keeps the rest. */
  function Map<T, U>(s: seq<T>, f: T -> U): (r: seq<U>)
    ensures |r| == |s|
    ensures forall i :: 0 <= i < |s| ==> r[i] == f(s[i])
  {
    seq(|s|, i requires 0 <= i < |s| => f(s[i]))
  }

  /** No two positions of `s` carry the same `key`: a primary key. */
  ghost predicate DistinctBy<T, K>(s: seq<T>, key: T -> K) {
    forall i, j :: 0 <= i < |s| && 0 <= j < |s| && key(s[i]) == key(s[j]) ==> i == j
  }

  /** Under a primary key, two rows with the same key are the same row. */
  lemma DistinctBySame<T, K>(s: seq<T>, key: T -> K, x: T, y: T)
    requires DistinctBy(s, key) && x in s && y in s && key(x) == key(y)
    ensures x == y
  {
    var i :| 0 <= i < |s| && s[i] == x;
    var j :| 0 <= j < |s| && s[j] == y;
  }

  /** Removing rows keeps a primary key. */
  lemma {:induction false} FilterDistinct<T(!new), K>(s: seq<T>, keep: T -> bool, key: T -> K)
    requires DistinctBy(s, key)
    ensures DistinctBy(Filter(s, keep), key)
  {
    if s != [] {
      var rest := s[1..];
      assert DistinctBy(rest, key) by {
        forall i, j | 0 <= i < |rest| && 0 <= j < |rest| && key(rest[i]) == key(rest[j]) ensures i == j {
          assert s[i + 1] == rest[i] && s[j + 1] == rest[j];
        }
      }
      FilterDistinct(rest, keep, key);
      var fr := Filter(rest, keep);
      if keep(s[0]) {
        var r := [s[0]] + fr;
        assert Filter(s, keep) == r;
        forall y | y in fr ensures key(y) != key(s[0]) {
          var j :| 0 <= j < |rest| && rest[j] == y;
          assert s[j + 1] == y;
        }
        forall i, j | 0 <= i < |r| && 0 <= j < |r| && key(r[i]) == key(r[j]) ensures i == j {
          if i > 0 && j > 0 {
            assert r[i] == fr[i - 1] && r[j] == fr[j - 1];
          }
        }
      }
    }
  }

  /** Appending a row whose key is new keeps a primary key. */
  lemma AppendDistinct<T, K>(s: seq<T>, x: T, key: T -> K)
    requires DistinctBy(s, key)
    requires forall y :: y in s ==> key(y) != key(x)
    ensures DistinctBy(s + [x], key)
  {
    var r := s + [x];
    forall i, j | 0 <= i < |r| && 0 <= j < |r| && key(r[i]) == key(r[j]) ensures i == j {
      if i < |s| && j < |s| {
        assert r[i] == s[i] && r[j] == s[j];
      }
    }
  }

  /** Rewriting rows without touching their keys keeps a primary key. */
  lemma MapDistinct<T, K>(s: seq<T>, f: T -> T, key: T -> K)
    requires DistinctBy(s, key)
    requires forall x :: x in s ==> key(f(x)) == key(x)
    ensures DistinctBy(Map(s, f), key)
  {
    var r := Map(s, f);
    forall i, j | 0 <= i < |r| && 0 <= j < |r| && key(r[i]) == key(r[j]) ensures i == j {
      assert s[i] in s && s[j] in s;
    }
  }

  /** A sequence is empty exactly when nothing is in it. */
  lemma EmptyIffNoMember<T>(s: seq<T>)
    ensures s == [] <==> forall x :: x !in s
  {
    if s != [] {
      assert s[0] in s;
    }
  }

  /** In a sequence whose keys are distinct, at most one element has a given key. */
  lemma SameKeyAtMostOne<T, K>(s: seq<T>, key: T -> K, k: K)
    requires DistinctBy(s, key)
    requires forall x :: x in s ==> key(x) == k
    ensures |s| <= 1
  {
    FirstTwoDiffer(s, key);
  }

  lemma FirstTwoDiffer<T, K>(s: seq<T>, key: T -> K)
    requires DistinctBy(s, key)
    ensures |s| >= 2 ==> key(s[0]) != key(s[1])
  {
  }
}
