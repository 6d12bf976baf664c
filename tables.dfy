/** Rows of a database table as a sequence, and the handful of query shapes the routers
    use on them: lookup of the first row with a key (`query(...).filter(X.id == k).first()`),
    filtering (`.filter(...)`), removing one row (`db.delete`) and replacing one row
    (attribute assignment followed by `commit`). */
module Tables {
  import opened Common

  /** No two rows share a key (a primary key or a unique column). */
  predicate KeysDistinct<T, K(==)>(s: seq<T>, key: T -> K) {
    forall i, j :: 0 <= i < j < |s| ==> key(s[i]) != key(s[j])
  }

  /** Every key was handed out by an auto-increment counter that now stands at `next`. */
  predicate KeysBelow<T>(s: seq<T>, key: T -> int, next: int) {
    forall i :: 0 <= i < |s| ==> 1 <= key(s[i]) < next
  }

  /** The keys present in the table. */
  function Keys<T, K>(s: seq<T>, key: T -> K): (r: set<K>)
  {
    set i | 0 <= i < |s| :: key(s[i])
  }

  /** The index of the first row whose key is `k`, or `None` (`.first()` returning None). */
  function Find<T, K(==)>(s: seq<T>, key: T -> K, k: K): (r: Option<nat>)
    ensures r.Some? ==> r.value < |s| && key(s[r.value]) == k
    ensures r.Some? ==> forall j :: 0 <= j < r.value ==> key(s[j]) != k
    ensures r.None? <==> k !in Keys(s, key)
  {
    if s == [] then None
    else if key(s[0]) == k then Some(0)
    else
      match Find(s[1..], key, k)
      case None =>
        assert forall i :: 1 <= i < |s| ==> key(s[i]) == key(s[1..][i - 1]);
        None
      case Some(j) => Some(j + 1)
  }

  /** With distinct keys, the row `Find` reports is the only one with that key. */
  lemma FindUnique<T, K>(s: seq<T>, key: T -> K, k: K, i: nat)
    requires KeysDistinct(s, key)
    requires i < |s| && key(s[i]) == k
    ensures Find(s, key, k) == Some(i)
  {
  }

  /** The table with row `i` deleted; the other rows keep their order. */
  function RemoveAt<T>(s: seq<T>, i: nat): (r: seq<T>)
    requires i < |s|
    ensures |r| == |s| - 1
    ensures forall j :: 0 <= j < i ==> r[j] == s[j]
    ensures forall j :: i <= j < |r| ==> r[j] == s[j + 1]
  {
    s[..i] + s[i + 1..]
  }

  /** The rows satisfying `p`, in table order (`WhereAppend`), each as often as the table
      holds it (`WhereCount`). */
  function Where<T>(s: seq<T>, p: T -> bool): (r: seq<T>)
    ensures |r| <= |s|
    ensures forall i :: 0 <= i < |r| ==> r[i] in s && p(r[i])
    ensures forall i :: 0 <= i < |s| && p(s[i]) ==> s[i] in r
  {
    if s == [] then []
    else if p(s[0]) then [s[0]] + Where(s[1..], p)
    else Where(s[1..], p)
  }

  /** Filtering distributes over concatenation. */
  lemma {:induction false} WhereAppend<T>(a: seq<T>, b: seq<T>, p: T -> bool)
    ensures Where(a + b, p) == Where(a, p) + Where(b, p)
    decreases |a|
  {
    if a != [] {
      WhereAppend(a[1..], b, p);
      assert (a + b)[0] == a[0] && (a + b)[1..] == a[1..] + b;
      if p(a[0]) {
        assert Where(a + b, p) == [a[0]] + (Where(a[1..], p) + Where(b, p));
      }
    } else {
      assert a + b == b;
    }
  }

  /** Filtering keeps each row satisfying `p` exactly as often as the table holds it, and
      no other row. */
  lemma {:induction false} WhereCount<T(!new)>(s: seq<T>, p: T -> bool)
    ensures forall x :: multiset(Where(s, p))[x] == if p(x) then multiset(s)[x] else 0
    decreases |s|
  {
    if s != [] {
      WhereCount(s[1..], p);
      assert s == [s[0]] + s[1..];
      assert multiset(s) == multiset{s[0]} + multiset(s[1..]);
      if p(s[0]) {
        assert Where(s, p) == [s[0]] + Where(s[1..], p);
        assert multiset(Where(s, p)) == multiset{s[0]} + multiset(Where(s[1..], p));
      }
    }
  }

  /** Filtering by a condition every row meets keeps the table as it is. */
  lemma {:induction false} WhereAll<T>(s: seq<T>, p: T -> bool)
    requires forall i :: 0 <= i < |s| ==> p(s[i])
    ensures Where(s, p) == s
    decreases |s|
  {
    if s != [] {
      WhereAll(s[1..], p);
    }
  }

  /** Filtering by a condition no row meets gives the empty table. */
  lemma {:induction false} WhereNone<T>(s: seq<T>, p: T -> bool)
    requires forall i :: 0 <= i < |s| ==> !p(s[i])
    ensures Where(s, p) == []
    decreases |s|
  {
    if s != [] {
      WhereNone(s[1..], p);
    }
  }

  /** `KeysDistinct` and `KeysBelow` hold after appending a row keyed by the counter. */
  lemma AppendFreshKey<T>(s: seq<T>, key: T -> int, next: int, x: T)
    requires KeysDistinct(s, key) && KeysBelow(s, key, next)
    requires key(x) == next && next >= 1
    ensures KeysDistinct(s + [x], key) && KeysBelow(s + [x], key, next + 1)
    ensures Keys(s + [x], key) == Keys(s, key) + {next}
  {
    var t := s + [x];
    assert forall i :: 0 <= i < |s| ==> t[i] == s[i];
    assert key(t[|s|]) == next;
    forall k | k in Keys(t, key) ensures k in Keys(s, key) + {next} {
      var j :| 0 <= j < |t| && key(t[j]) == k;
      if j < |s| { assert key(s[j]) == k; }
    }
  }

  /** Deleting a row keeps keys distinct and below the counter. */
  lemma RemoveAtKeys<T>(s: seq<T>, key: T -> int, next: int, i: nat)
    requires i < |s| && KeysDistinct(s, key) && KeysBelow(s, key, next)
    ensures KeysDistinct(RemoveAt(s, i), key) && KeysBelow(RemoveAt(s, i), key, next)
    ensures Keys(RemoveAt(s, i), key) == Keys(s, key) - {key(s[i])}
  {
    RemoveAtKeySet(s, key, i);
  }

  /** Deleting a row of a table with distinct keys removes exactly that row's key. */
  lemma RemoveAtKeySet<T, K>(s: seq<T>, key: T -> K, i: nat)
    requires i < |s| && KeysDistinct(s, key)
    ensures Keys(RemoveAt(s, i), key) == Keys(s, key) - {key(s[i])}
  {
    var r := RemoveAt(s, i);
    forall k | k in Keys(s, key) - {key(s[i])} ensures k in Keys(r, key) {
      var j :| 0 <= j < |s| && key(s[j]) == k;
      if j < i { assert r[j] == s[j]; } else { assert r[j - 1] == s[j]; }
    }
  }

  /** Replacing a row by one with the same key keeps the key set and its properties. */
  lemma ReplaceKeepsKeys<T>(s: seq<T>, key: T -> int, next: int, i: nat, x: T)
    requires i < |s| && key(x) == key(s[i])
    requires KeysDistinct(s, key) && KeysBelow(s, key, next)
    ensures KeysDistinct(s[i := x], key) && KeysBelow(s[i := x], key, next)
    ensures Keys(s[i := x], key) == Keys(s, key)
  {
    ReplaceKeepsDistinct(s, key, i, x);
  }

  /** Replacing a row by one with the same value in a unique column keeps that column
      unique and its value set unchanged. */
  lemma ReplaceKeepsDistinct<T, K>(s: seq<T>, key: T -> K, i: nat, x: T)
    requires i < |s| && key(x) == key(s[i])
    requires KeysDistinct(s, key)
    ensures KeysDistinct(s[i := x], key)
    ensures Keys(s[i := x], key) == Keys(s, key)
  {
    var r := s[i := x];
    assert forall j :: 0 <= j < |s| ==> key(r[j]) == key(s[j]);
  }

  /** Appending a row whose value in a unique column is new keeps the column unique. */
  lemma AppendFreshUnique<T, K>(s: seq<T>, key: T -> K, x: T)
    requires KeysDistinct(s, key) && key(x) !in Keys(s, key)
    ensures KeysDistinct(s + [x], key)
    ensures Keys(s + [x], key) == Keys(s, key) + {key(x)}
  {
    var t := s + [x];
    assert forall i :: 0 <= i < |s| ==> t[i] == s[i];
    forall i | 0 <= i < |s| ensures key(t[i]) != key(x) {
      assert key(s[i]) in Keys(s, key);
    }
    KeysAppend(s, key, x);
  }

  /** Deleting a row keeps a unique column unique. */
  lemma RemoveAtDistinct<T, K>(s: seq<T>, key: T -> K, i: nat)
    requires i < |s| && KeysDistinct(s, key)
    ensures KeysDistinct(RemoveAt(s, i), key)
  {
  }

  /** The list comprehension `[f(x) for x in s]`. */
  function Project<T, U>(s: seq<T>, f: T -> U): (r: seq<U>)
    ensures |r| == |s| && forall i :: 0 <= i < |s| ==> r[i] == f(s[i])
  {
    seq(|s|, i requires 0 <= i < |s| => f(s[i]))
  }

  lemma KeysAppend<T, K>(s: seq<T>, key: T -> K, x: T)
    ensures Keys(s + [x], key) == Keys(s, key) + {key(x)}
  {
    var t := s + [x];
    assert forall i :: 0 <= i < |s| ==> t[i] == s[i];
    assert t[|s|] == x;
  }

  /** Filtering out the one row that fails `p` is deleting that row. */
  lemma {:induction false} WhereDropsOne<T>(s: seq<T>, p: T -> bool, i: nat)
    requires i < |s| && !p(s[i])
    requires forall j :: 0 <= j < |s| && j != i ==> p(s[j])
    ensures Where(s, p) == RemoveAt(s, i)
    decreases |s|
  {
    if i == 0 {
      assert forall j :: 0 <= j < |s[1..]| ==> s[1..][j] == s[j + 1];
      WhereAll(s[1..], p);
    } else {
      assert forall j :: 0 <= j < |s[1..]| ==> s[1..][j] == s[j + 1];
      WhereDropsOne(s[1..], p, i - 1);
      assert RemoveAt(s, i) == [s[0]] + RemoveAt(s[1..], i - 1);
    }
  }
}
