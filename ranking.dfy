/** The ordering of the valuations (src/valuation.py): Python's sorted() with the key
    -return_on_investment, that is, highest return first, and, since sorted() is stable,
    records with equal returns in the order they were produced. */
module Ranking {

  predicate SortedDesc<T>(s: seq<T>, key: T -> real)
  {
    forall i, j :: 0 <= i < j < |s| ==> key(s[i]) >= key(s[j])
  }

  /** The records of `s` whose key is `v`, in order. */
  function WithKey<T>(s: seq<T>, key: T -> real, v: real): (r: seq<T>)
    ensures |r| <= |s|
  {
    if |s| == 0 then []
    else if key(s[0]) == v then [s[0]] + WithKey(s[1..], key, v)
    else WithKey(s[1..], key, v)
  }

  lemma SortedDescCons<T>(x: T, s: seq<T>, key: T -> real)
    requires SortedDesc(s, key) && (|s| > 0 ==> key(x) >= key(s[0]))
    ensures SortedDesc([x] + s, key)
  {
    var r := [x] + s;
    forall i, j | 0 <= i < j < |r| ensures key(r[i]) >= key(r[j]) {
      if i == 0 && j > 1 {
        assert key(s[0]) >= key(s[j - 1]);
      }
    }
  }

  /** Places x after every record whose key is at least x's. */
  function InsertDesc<T>(x: T, s: seq<T>, key: T -> real): (r: seq<T>)
    requires SortedDesc(s, key)
    ensures SortedDesc(r, key)
    ensures multiset(r) == multiset(s) + multiset{x}
    ensures |r| == |s| + 1
    ensures r[0] == if |s| == 0 || key(s[0]) < key(x) then x else s[0]
  {
    if |s| == 0 then [x]
    else if key(s[0]) < key(x) then
      SortedDescCons(x, s, key);
      [x] + s
    else
      assert s == [s[0]] + s[1..];
      var rest := InsertDesc(x, s[1..], key);
      assert |s| > 1 ==> key(s[0]) >= key(s[1]);
      SortedDescCons(s[0], rest, key);
      [s[0]] + rest
  }

  /** sorted(xs, key=lambda v: -key(v)): highest key first, ties in input order. */
  function SortDesc<T>(xs: seq<T>, key: T -> real): (r: seq<T>)
    ensures SortedDesc(r, key)
    ensures multiset(r) == multiset(xs)
    ensures |r| == |xs|
  {
    if |xs| == 0 then []
    else
      assert xs == xs[..|xs| - 1] + [xs[|xs| - 1]];
      InsertDesc(xs[|xs| - 1], SortDesc(xs[..|xs| - 1], key), key)
  }

  lemma WithKeyCons<T>(x: T, s: seq<T>, key: T -> real, v: real)
    ensures WithKey([x] + s, key, v) == (if key(x) == v then [x] else []) + WithKey(s, key, v)
  {
    assert ([x] + s)[1..] == s;
  }

  lemma {:induction false} WithKeyAppend<T>(a: seq<T>, b: seq<T>, key: T -> real, v: real)
    ensures WithKey(a + b, key, v) == WithKey(a, key, v) + WithKey(b, key, v)
  {
    if |a| == 0 {
      assert a + b == b;
    } else {
      assert (a + b)[1..] == a[1..] + b;
      WithKeyAppend(a[1..], b, key, v);
    }
  }

  /** All records with key v come before an inserted record with key v, and no record
      moves relative to another with the same key. */
  lemma {:induction false} InsertDescStable<T>(x: T, s: seq<T>, key: T -> real, v: real)
    requires SortedDesc(s, key)
    ensures WithKey(InsertDesc(x, s, key), key, v) == WithKey(s, key, v) + (if key(x) == v then [x] else [])
    decreases |s|, 1
  {
    var tail: seq<T> := if key(x) == v then [x] else [];
    if |s| == 0 {
      assert InsertDesc(x, s, key) == [x];
      assert [x][..0] == [];
      assert WithKey([x], key, v) == tail;
      assert WithKey(s, key, v) + tail == tail;
    } else if key(s[0]) < key(x) {
      InsertAtFront(x, s, key, v);
    } else {
      InsertBehind(x, s, key, v);
    }
  }

  lemma InsertAtFront<T>(x: T, s: seq<T>, key: T -> real, v: real)
    requires SortedDesc(s, key) && |s| > 0 && key(s[0]) < key(x)
    ensures WithKey(InsertDesc(x, s, key), key, v) == WithKey(s, key, v) + (if key(x) == v then [x] else [])
  {
    assert InsertDesc(x, s, key) == [x] + s;
    WithKeyCons(x, s, key, v);
    if key(x) == v {
      assert forall i :: 0 <= i < |s| ==> key(s[i]) <= key(s[0]);
      NoneWithKey(s, key, v);
      assert WithKey([x] + s, key, v) == [x] + [];
    } else {
      assert WithKey([x] + s, key, v) == [] + WithKey(s, key, v);
    }
  }

  lemma {:induction false} InsertBehind<T>(x: T, s: seq<T>, key: T -> real, v: real)
    requires SortedDesc(s, key) && |s| > 0 && key(s[0]) >= key(x)
    ensures WithKey(InsertDesc(x, s, key), key, v) == WithKey(s, key, v) + (if key(x) == v then [x] else [])
    decreases |s|, 0
  {
    var head: seq<T> := if key(s[0]) == v then [s[0]] else [];
    var tail: seq<T> := if key(x) == v then [x] else [];
    var t := s[1..];
    var rest := InsertDesc(x, t, key);
    assert InsertDesc(x, s, key) == [s[0]] + rest;
    InsertDescStable(x, t, key, v);
    assert WithKey(rest, key, v) == WithKey(t, key, v) + tail;
    WithKeyCons(s[0], rest, key, v);
    assert WithKey([s[0]] + rest, key, v) == head + WithKey(rest, key, v);
    WithKeyCons(s[0], t, key, v);
    assert [s[0]] + t == s;
    assert WithKey(s, key, v) == head + WithKey(t, key, v);
    assert head + (WithKey(t, key, v) + tail) == (head + WithKey(t, key, v)) + tail;
  }

  lemma {:induction false} NoneWithKey<T>(s: seq<T>, key: T -> real, v: real)
    requires forall i :: 0 <= i < |s| ==> key(s[i]) != v
    ensures WithKey(s, key, v) == []
  {
    if |s| > 0 {
      NoneWithKey(s[1..], key, v);
    }
  }

  lemma SplitLast<T>(xs: seq<T>)
    requires |xs| > 0
    ensures xs == xs[..|xs| - 1] + [xs[|xs| - 1]]
  {
  }

  /** Stability: for every key, the records with that key keep their input order. */
  lemma {:induction false} SortDescStable<T>(xs: seq<T>, key: T -> real, v: real)
    ensures WithKey(SortDesc(xs, key), key, v) == WithKey(xs, key, v)
  {
    if |xs| > 0 {
      var init := xs[..|xs| - 1];
      var x := xs[|xs| - 1];
      var tail: seq<T> := if key(x) == v then [x] else [];
      assert SortDesc(xs, key) == InsertDesc(x, SortDesc(init, key), key);
      SortDescStable(init, key, v);
      InsertDescStable(x, SortDesc(init, key), key, v);
      assert WithKey(SortDesc(xs, key), key, v) == WithKey(init, key, v) + tail;
      SplitLast(xs);
      WithKeyAppend(init, [x], key, v);
      WithKeyCons(x, [], key, v);
      assert [x] + [] == [x];
      assert WithKey([x], key, v) == tail;
    }
  }

  function ReturnOfEntry(entry: (string, real)): real
  {
    entry.1
  }

  /** Three listings returning 9.1, 5.0 and 9.1 rank as the first, the third, the second. */
  lemma RankingExample()
    ensures SortDesc([("A", 9.1), ("B", 5.0), ("C", 9.1)], ReturnOfEntry) == [("A", 9.1), ("C", 9.1), ("B", 5.0)]
  {
    var xs: seq<(string, real)> := [("A", 9.1), ("B", 5.0), ("C", 9.1)];
    assert xs[..2] == [("A", 9.1), ("B", 5.0)];
    assert xs[..2][..1] == [("A", 9.1)];
    assert |xs[..2][..1][..0]| == 0;
  }
}
