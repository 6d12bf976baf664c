/** Ordering of record lists. JavaScript's `Array.prototype.sort` with a comparator is a
    stable sort, and an SQL `ORDER BY` is modelled by the same stable sort (rows that
    tie keep their table order). The sort is written once, as an insertion sort over a
    "may come before" relation, and proved to yield a sorted permutation. */
module Sorting {

  /** `leq` is total and transitive: a comparator consistent enough to sort by. */
  ghost predicate IsTotalPreorder<T(!new)>(leq: (T, T) -> bool) {
    (forall a, b :: leq(a, b) || leq(b, a))
    && (forall a, b, c :: leq(a, b) && leq(b, c) ==> leq(a, c))
  }

  predicate Sorted<T>(s: seq<T>, leq: (T, T) -> bool) {
    forall i, j :: 0 <= i < j < |s| ==> leq(s[i], s[j])
  }

  /** Inserts `x` before the first element it may precede. */
  function Insert<T>(x: T, s: seq<T>, leq: (T, T) -> bool): (r: seq<T>)
    ensures |r| == |s| + 1
    ensures multiset(r) == multiset(s) + multiset{x}
  {
    if s == [] then [x]
    else if leq(x, s[0]) then [x] + s
    else
      assert s == [s[0]] + s[1..];
      [s[0]] + Insert(x, s[1..], leq)
  }

  /** The stable sort of `s` by `leq`. */
  function SortBy<T>(s: seq<T>, leq: (T, T) -> bool): (r: seq<T>)
    ensures |r| == |s|
    ensures multiset(r) == multiset(s)
  {
    if s == [] then []
    else
      assert s == [s[0]] + s[1..];
      Insert(s[0], SortBy(s[1..], leq), leq)
  }

  lemma {:induction false} InsertSorted<T(!new)>(x: T, s: seq<T>, leq: (T, T) -> bool)
    requires IsTotalPreorder(leq)
    requires Sorted(s, leq)
    ensures Sorted(Insert(x, s, leq), leq)
    decreases |s|
  {
    if s != [] && !leq(x, s[0]) {
      InsertSorted(x, s[1..], leq);
      var r := Insert(x, s[1..], leq);
      assert leq(s[0], x);
      forall k | 0 <= k < |r| ensures leq(s[0], r[k]) {
        assert r[k] in multiset(s[1..]) + multiset{x} by {
          assert r[k] in multiset(r);
        }
        if r[k] != x {
          assert r[k] in s[1..];
        }
      }
    }
  }

  /** Sorting yields a sorted sequence. */
  lemma {:induction false} SortBySorted<T(!new)>(s: seq<T>, leq: (T, T) -> bool)
    requires IsTotalPreorder(leq)
    ensures Sorted(SortBy(s, leq), leq)
    decreases |s|
  {
    if s != [] {
      SortBySorted(s[1..], leq);
      InsertSorted(s[0], SortBy(s[1..], leq), leq);
    }
  }

  /** Sorting a sequence that is already sorted leaves it as it is, so sorting twice is
      the same as sorting once. */
  lemma {:induction false} SortBySortedFixpoint<T>(s: seq<T>, leq: (T, T) -> bool)
    requires Sorted(s, leq)
    ensures SortBy(s, leq) == s
    decreases |s|
  {
    if s != [] {
      SortBySortedFixpoint(s[1..], leq);
      assert s == [s[0]] + s[1..];
    }
  }

  lemma SortByIdempotent<T(!new)>(s: seq<T>, leq: (T, T) -> bool)
    requires IsTotalPreorder(leq)
    ensures SortBy(SortBy(s, leq), leq) == SortBy(s, leq)
  {
    SortBySorted(s, leq);
    SortBySortedFixpoint(SortBy(s, leq), leq);
  }

  /** Sorting keeps exactly the elements it was given. */
  lemma SortByMembers<T>(s: seq<T>, leq: (T, T) -> bool, x: T)
    ensures x in SortBy(s, leq) <==> x in s
  {
    assert x in SortBy(s, leq) <==> x in multiset(SortBy(s, leq));
  }

  /** JavaScript's `slice(start, end)` with both bounds clamped to the sequence, as for
      non-negative arguments. */
  function Slice<T>(s: seq<T>, start: nat, end: nat): (r: seq<T>)
    ensures |r| <= |s| && |r| <= if end <= start then 0 else end - start
    ensures start < end && start < |s| ==> |r| == (if end <= |s| then end else |s|) - start
    ensures |r| == 0 || start + |r| <= |s|
    ensures forall k :: 0 <= k < |r| ==> r[k] == s[start + k]
  {
    var lo := if start <= |s| then start else |s|;
    var hi := if end <= |s| then end else |s|;
    if lo <= hi then s[lo..hi] else []
  }

  /** SQL `OFFSET skip LIMIT limit`. */
  function SkipLimit<T>(s: seq<T>, skip: nat, limit: nat): (r: seq<T>)
    ensures |r| <= limit
    ensures skip + limit <= |s| ==> |r| == limit
    ensures |r| == if skip >= |s| then 0 else if limit <= |s| - skip then limit else |s| - skip
    ensures |r| == 0 || skip + |r| <= |s|
    ensures forall k :: 0 <= k < |r| ==> r[k] == s[skip + k]
  {
    Slice(s, skip, skip + limit)
  }

  /** `ORDER BY ... OFFSET skip LIMIT limit`: a window of the sorted table. */
  function OrderedPage<T(!new)>(s: seq<T>, leq: (T, T) -> bool, skip: nat, limit: nat): (r: seq<T>)
    requires IsTotalPreorder(leq)
    ensures |r| <= limit
    ensures skip + limit <= |s| ==> |r| == limit
    ensures |r| == if skip >= |s| then 0 else if limit <= |s| - skip then limit else |s| - skip
    ensures r == SkipLimit(SortBy(s, leq), skip, limit)
    ensures Sorted(r, leq)
    ensures forall k :: 0 <= k < |r| ==> r[k] in s
  {
    var sorted := SortBy(s, leq);
    SortBySorted(s, leq);
    var r := SkipLimit(sorted, skip, limit);
    forall k | 0 <= k < |r| ensures r[k] in s {
      assert r[k] == sorted[skip + k];
      assert sorted[skip + k] in multiset(s);
    }
    r
  }
}
