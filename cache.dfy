/**
 * The shared query cache, reduced to what invalidation does: each cached query has a key, and
 * `invalidateQueries({ queryKey })` marks stale every cached query whose key the filter matches.
 */
module Cache {
  /** A key segment: a string, `null`, or `undefined` (an absent route or search parameter). */
  datatype Seg = Str(s: string) | Null | Undefined

  type Key = seq<Seg>

  /** Segment `i` of `k`; reading past the end gives `undefined`, as indexing a JavaScript array does. */
  function SegAt(k: Key, i: nat): Seg {
    if i < |k| then k[i] else Undefined
  }

  /**
   * The default partial match of a filter against a cached key: every position of the filter
   * agrees with the cached key at that position.
   */
  predicate Matches(cached: Key, filter: Key) {
    forall i :: 0 <= i < |filter| ==> SegAt(cached, i) == filter[i]
  }

  /** A filter with no `undefined` segment. */
  predicate Defined(filter: Key) {
    forall i :: 0 <= i < |filter| ==> filter[i] != Undefined
  }

  /** For a filter without `undefined` segments, matching is exactly being a prefix of the cached key. */
  lemma MatchesIsPrefix(cached: Key, filter: Key)
    requires Defined(filter)
    ensures Matches(cached, filter) <==> filter <= cached
  {
    if Matches(cached, filter) {
      assert SegAt(cached, |cached|) == Undefined;
      assert filter == cached[..|filter|];
    }
  }

  /** Every key matches itself and the empty filter; a filter matches every extension of what it matches. */
  lemma MatchesBasics(k: Key, filter: Key, more: Key)
    ensures Matches(k, k) && Matches(k, [])
    ensures Matches(k, filter) && |filter| <= |k| ==> Matches(k + more, filter)
  {
    if Matches(k, filter) && |filter| <= |k| {
      forall i | 0 <= i < |filter| ensures SegAt(k + more, i) == filter[i] {
        assert SegAt(k, i) == filter[i];
      }
    }
  }

  /** The cached keys one filter reaches: for a fully defined filter, the cached keys it is a prefix of. */
  function Reached(cached: set<Key>, filter: Key): (r: set<Key>)
    ensures r <= cached
    ensures Defined(filter) ==> forall k :: k in r <==> k in cached && filter <= k
  {
    var r := set k | k in cached && Matches(k, filter);
    forall k | Defined(filter) ensures k in r <==> k in cached && filter <= k {
      MatchesIsPrefix(k, filter);
    }
    r
  }

  /** Whether one of `filters` matches `k`. */
  predicate AnyMatches(k: Key, filters: seq<Key>) {
    exists j :: 0 <= j < |filters| && Matches(k, filters[j])
  }

  /**
   * The stale set after invalidating with each of `filters`, in any order: it keeps what was stale,
   * gains every cached key some filter reaches, and gains nothing outside the cache.
   */
  function Invalidated(cached: set<Key>, stale: set<Key>, filters: seq<Key>): (r: set<Key>)
    ensures stale <= r && r <= stale + cached
    ensures forall j :: 0 <= j < |filters| ==> Reached(cached, filters[j]) <= r
  {
    stale + set k | k in cached && AnyMatches(k, filters)
  }

  /** The keys the filters reach together, one filter after another. */
  function ReachedByAll(cached: set<Key>, filters: seq<Key>): set<Key>
    decreases |filters|
  {
    if filters == [] then {} else ReachedByAll(cached, filters[..|filters| - 1]) + Reached(cached, filters[|filters| - 1])
  }

  /** Invalidating adds to the stale set exactly the union of what the filters reach one by one. */
  lemma {:induction false} InvalidatedIsUnion(cached: set<Key>, stale: set<Key>, filters: seq<Key>)
    ensures Invalidated(cached, stale, filters) == stale + ReachedByAll(cached, filters)
    decreases |filters|
  {
    if filters == [] {
      assert Invalidated(cached, stale, filters) == stale;
    } else {
      var n := |filters| - 1;
      InvalidatedIsUnion(cached, stale, filters[..n]);
      InvalidateStep(cached, stale, filters, n);
      assert filters[..n + 1] == filters;
    }
  }

  /** Invalidating a second time with the same filters changes nothing. */
  lemma InvalidateIdempotent(cached: set<Key>, stale: set<Key>, filters: seq<Key>)
    ensures Invalidated(cached, Invalidated(cached, stale, filters), filters) == Invalidated(cached, stale, filters)
  {
  }

  /** Invalidating with one list of filters and then another is invalidating with both, in either order. */
  lemma {:induction false} InvalidateCompose(cached: set<Key>, stale: set<Key>, f1: seq<Key>, f2: seq<Key>)
    ensures Invalidated(cached, Invalidated(cached, stale, f1), f2) == Invalidated(cached, stale, f1 + f2)
    ensures Invalidated(cached, Invalidated(cached, stale, f1), f2) == Invalidated(cached, Invalidated(cached, stale, f2), f1)
  {
    forall k ensures AnyMatches(k, f1 + f2) <==> AnyMatches(k, f1) || AnyMatches(k, f2) {
      if AnyMatches(k, f1 + f2) {
        var j :| 0 <= j < |f1 + f2| && Matches(k, (f1 + f2)[j]);
        if j >= |f1| {
          assert Matches(k, f2[j - |f1|]);
        }
      }
      if AnyMatches(k, f2) {
        var j :| 0 <= j < |f2| && Matches(k, f2[j]);
        assert (f1 + f2)[|f1| + j] == f2[j];
      }
      if AnyMatches(k, f1) {
        var j :| 0 <= j < |f1| && Matches(k, f1[j]);
        assert (f1 + f2)[j] == f1[j];
      }
    }
  }

  /** The cache: which keys hold data, and which of those are stale. */
  class QueryCache {
    var cached: set<Key>
    var stale: set<Key>

    ghost predicate Valid()
      reads this
    {
      stale <= cached
    }

    constructor ()
      ensures cached == {} && stale == {} && Valid()
    {
      cached, stale := {}, {};
    }

    /** A query with key `k` has fetched data: it is cached and fresh. */
    method Fetched(k: Key)
      modifies this
      ensures cached == old(cached) + {k} && stale == old(stale) - {k}
      ensures old(Valid()) ==> Valid()
    {
      cached, stale := cached + {k}, stale - {k};
    }

    /** `invalidateQueries({ queryKey: filter })`. */
    method Invalidate(filter: Key)
      modifies this
      ensures cached == old(cached) && stale == old(stale) + Reached(cached, filter)
      ensures old(Valid()) ==> Valid()
    {
      stale := stale + Reached(cached, filter);
    }

    /** One `invalidateQueries` call per filter, in order. */
    method InvalidateEach(filters: seq<Key>)
      modifies this
      ensures cached == old(cached) && stale == Invalidated(cached, old(stale), filters)
      ensures old(Valid()) ==> Valid()
    {
      var i := 0;
      while i < |filters|
        invariant 0 <= i <= |filters|
        invariant cached == old(cached)
        invariant stale == Invalidated(cached, old(stale), filters[..i])
        invariant old(Valid()) ==> Valid()
      {
        Invalidate(filters[i]);
        InvalidateStep(cached, old(stale), filters, i);
        i := i + 1;
      }
      assert filters[..i] == filters;
    }
  }

  lemma InvalidateStep(cached: set<Key>, stale: set<Key>, filters: seq<Key>, i: nat)
    requires i < |filters|
    ensures Invalidated(cached, stale, filters[..i]) + Reached(cached, filters[i]) == Invalidated(cached, stale, filters[..i + 1])
  {
    var pre := filters[..i];
    var next := filters[..i + 1];
    forall k ensures AnyMatches(k, next) <==> AnyMatches(k, pre) || Matches(k, filters[i]) {
      if AnyMatches(k, next) {
        var j :| 0 <= j < |next| && Matches(k, next[j]);
        if j < i {
          assert next[j] == pre[j];
        }
      }
      if AnyMatches(k, pre) {
        var j :| 0 <= j < |pre| && Matches(k, pre[j]);
        assert next[j] == pre[j];
      }
      if Matches(k, filters[i]) {
        assert next[i] == filters[i];
      }
    }
  }
}
