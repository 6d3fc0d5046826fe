/** remove_outliers (src/valuation.py): the interquartile-range filter. The quartiles are
    numpy's default "linear" percentiles of the sorted sample: for the q-th percentile of n
    values the virtual index is (n - 1) * q / 100, and the value there is interpolated
    between the two sorted neighbours. */
module Outliers {

  predicate SortedAsc(s: seq<real>)
  {
    forall i, j :: 0 <= i < j < |s| ==> s[i] <= s[j]
  }

  lemma SortedCons(a: real, s: seq<real>)
    requires SortedAsc(s) && (|s| > 0 ==> a <= s[0])
    ensures SortedAsc([a] + s)
  {
    var r := [a] + s;
    forall i, j | 0 <= i < j < |r| ensures r[i] <= r[j] {
      if i == 0 && j > 1 {
        assert s[0] <= s[j - 1];
      }
    }
  }

  /** Inserts x before the first element not below it. */
  function Insert(x: real, s: seq<real>): (r: seq<real>)
    requires SortedAsc(s)
    ensures SortedAsc(r)
    ensures multiset(r) == multiset(s) + multiset{x}
    ensures |r| == |s| + 1
    ensures r[0] == if |s| == 0 || x <= s[0] then x else s[0]
  {
    if |s| == 0 then [x]
    else if x <= s[0] then
      SortedCons(x, s);
      [x] + s
    else
      assert s == [s[0]] + s[1..];
      var rest := Insert(x, s[1..]);
      assert |s| > 1 ==> s[0] <= s[1];
      SortedCons(s[0], rest);
      [s[0]] + rest
  }

  /** The ascending copy of the data that np.percentile works on. */
  function SortAsc(xs: seq<real>): (r: seq<real>)
    ensures SortedAsc(r)
    ensures multiset(r) == multiset(xs)
    ensures |r| == |xs|
  {
    if |xs| == 0 then []
    else
      assert xs == [xs[0]] + xs[1..];
      Insert(xs[0], SortAsc(xs[1..]))
  }

  /** One hundred times numpy's virtual index (n - 1) * q / 100 for the q-th percentile of
      n values; it never passes the last element. */
  function ScaledIndex(n: nat, q: nat): (m: nat)
    requires n > 0 && q <= 100
    ensures m <= (n - 1) * 100
  {
    MultiplyBelowHundred(n - 1, q);
    (n - 1) * q
  }

  lemma {:induction false} MultiplyBelowHundred(a: nat, q: nat)
    requires q <= 100
    ensures a * q <= a * 100
  {
    if a > 0 {
      MultiplyBelowHundred(a - 1, q);
      assert a * q == (a - 1) * q + q;
    }
  }

  /** The point a fraction t of the way from a to b. */
  function Lerp(a: real, b: real, t: real): real
  {
    a + t * (b - a)
  }

  /** Linear interpolation stays between its end points. */
  lemma Between(a: real, b: real, t: real)
    requires a <= b && 0.0 <= t <= 1.0
    ensures a <= Lerp(a, b, t) <= b
  {
    var d := b - a;
    NonNegativeProduct(t, d);
    NonNegativeProduct(1.0 - t, d);
    assert (1.0 - t) * d == d - t * d;
  }

  lemma NonNegativeProduct(x: real, y: real)
    requires x >= 0.0 && y >= 0.0
    ensures x * y >= 0.0
  {
  }

  /** The q-th linear percentile of an ascending sample. */
  function Percentile(s: seq<real>, q: nat): (v: real)
    requires |s| > 0 && q <= 100 && SortedAsc(s)
    ensures s[0] <= v <= s[|s| - 1]
  {
    var m := ScaledIndex(|s|, q);
    var lo := m / 100;
    var frac := (m % 100) as real / 100.0;
    if lo + 1 >= |s| then s[lo]
    else
      Between(s[lo], s[lo + 1], frac);
      Lerp(s[lo], s[lo + 1], frac)
  }

  /** An element at or below the virtual index is at most the percentile; one at or above
      it is at least the percentile. */
  lemma PercentileBracket(s: seq<real>, q: nat, k: nat)
    requires |s| > 0 && q <= 100 && SortedAsc(s) && k < |s|
    ensures k * 100 <= ScaledIndex(|s|, q) ==> s[k] <= Percentile(s, q)
    ensures k * 100 >= ScaledIndex(|s|, q) ==> s[k] >= Percentile(s, q)
  {
    var m := ScaledIndex(|s|, q);
    var lo := m / 100;
    var rem := m % 100;
    var frac := rem as real / 100.0;
    var v := Percentile(s, q);
    if lo + 1 < |s| {
      Between(s[lo], s[lo + 1], frac);
      assert s[lo] <= v <= s[lo + 1];
    }
    if k * 100 <= m {
      assert s[k] <= s[lo];
    }
    if k * 100 >= m && k == lo {
      assert rem == 0;
      assert v == s[lo];
    }
  }

  /** The lower quartile never exceeds the upper one. */
  lemma QuartilesOrdered(s: seq<real>)
    requires |s| > 0 && SortedAsc(s)
    ensures Percentile(s, 25) <= Percentile(s, 75)
  {
    var n := |s| - 1;
    if n == 0 {
    } else if n == 1 {
      assert Percentile(s, 25) == s[0] + 0.25 * (s[1] - s[0]);
      assert Percentile(s, 75) == s[0] + 0.75 * (s[1] - s[0]);
    } else {
      var k := MiddleIndex(n);
      PercentileBracket(s, 25, k);
      PercentileBracket(s, 75, k);
    }
  }

  function Lower(s: seq<real>, threshold: real): real
    requires |s| > 0 && SortedAsc(s)
  {
    Percentile(s, 25) - (Percentile(s, 75) - Percentile(s, 25)) * threshold
  }

  function Upper(s: seq<real>, threshold: real): real
    requires |s| > 0 && SortedAsc(s)
  {
    Percentile(s, 75) + (Percentile(s, 75) - Percentile(s, 25)) * threshold
  }

  /** The values of `data` within [lo, hi], in their original order. */
  function KeepWithin(data: seq<real>, lo: real, hi: real): (r: seq<real>)
    ensures |r| <= |data|
    ensures forall x :: x in r <==> x in data && lo <= x <= hi
    ensures multiset(r) <= multiset(data)
  {
    if |data| == 0 then []
    else
      assert data == [data[0]] + data[1..];
      var rest := KeepWithin(data[1..], lo, hi);
      if lo <= data[0] <= hi then [data[0]] + rest else rest
  }

  /** remove_outliers(data, threshold): the values no further than threshold interquartile
      ranges outside the quartiles of the data, in input order. */
  function RemoveOutliers(data: seq<real>, threshold: real): (r: seq<real>)
    requires |data| > 0
    ensures |r| <= |data|
    ensures forall x :: x in r <==>
              x in data && Lower(SortAsc(data), threshold) <= x <= Upper(SortAsc(data), threshold)
  {
    var s := SortAsc(data);
    KeepWithin(data, Lower(s, threshold), Upper(s, threshold))
  }

  /** The output keeps every occurrence of a surviving value and none of a dropped one. */
  lemma {:induction false} KeepWithinCounts(data: seq<real>, lo: real, hi: real, x: real)
    ensures multiset(KeepWithin(data, lo, hi))[x] == if lo <= x <= hi then multiset(data)[x] else 0
  {
    if |data| > 0 {
      assert data == [data[0]] + data[1..];
      KeepWithinCounts(data[1..], lo, hi, x);
    }
  }

  /** Filtering distributes over concatenation: the survivors keep their input order. */
  lemma {:induction false} KeepWithinAppend(a: seq<real>, b: seq<real>, lo: real, hi: real)
    ensures KeepWithin(a + b, lo, hi) == KeepWithin(a, lo, hi) + KeepWithin(b, lo, hi)
  {
    if |a| > 0 {
      var x := a[0];
      var head: seq<real> := if lo <= x <= hi then [x] else [];
      assert a == [x] + a[1..];
      assert a + b == [x] + (a[1..] + b);
      KeepWithinCons(x, a[1..], lo, hi);
      KeepWithinCons(x, a[1..] + b, lo, hi);
      KeepWithinAppend(a[1..], b, lo, hi);
      assert KeepWithin(a + b, lo, hi) == head + (KeepWithin(a[1..], lo, hi) + KeepWithin(b, lo, hi));
    } else {
      assert a + b == b;
    }
  }

  lemma KeepWithinCons(x: real, s: seq<real>, lo: real, hi: real)
    ensures KeepWithin([x] + s, lo, hi) == (if lo <= x <= hi then [x] else []) + KeepWithin(s, lo, hi)
  {
    assert ([x] + s)[0] == x && ([x] + s)[1..] == s;
  }

  /** A value between the quartiles lies within the bounds for any non-negative threshold. */
  lemma Widen(q1: real, q3: real, t: real, x: real)
    requires q1 <= x <= q3 && t >= 0.0
    ensures q1 - (q3 - q1) * t <= x <= q3 + (q3 - q1) * t
  {
    assert (q3 - q1) * t >= 0.0;
  }

  /** Of two values, the smaller lies within the bounds once the threshold is at least one half. */
  lemma TwoValues(a: real, b: real, q1: real, q3: real, t: real)
    requires a <= b && t >= 0.5
    requires q1 == a + 0.25 * (b - a) && q3 == a + 0.75 * (b - a)
    ensures q1 - (q3 - q1) * t <= a <= q3 + (q3 - q1) * t
  {
    var d := b - a;
    assert (a + 0.75 * d) - (a + 0.25 * d) == 0.5 * d;
    assert 0.5 * d * (t - 0.5) >= 0.0;
  }

  lemma QuartilesOfTwo(s: seq<real>)
    requires |s| == 2 && SortedAsc(s)
    ensures Percentile(s, 25) == s[0] + 0.25 * (s[1] - s[0])
    ensures Percentile(s, 75) == s[0] + 0.75 * (s[1] - s[0])
  {
  }

  /** For three or more values, the index ceil((n - 1) / 4) lies between the two quartile
      positions. */
  lemma MiddleIndex(n: nat) returns (k: nat)
    requires n >= 2
    ensures k <= n && k * 100 >= n * 25 && k * 100 <= n * 75
  {
    k := (n + 3) / 4;
    assert n <= 4 * k <= n + 3;
    assert k * 100 == 25 * (4 * k);
  }

  /** Some element of a sorted sample lies within the bounds once the threshold is at
      least one half: an element between the quartiles when there are three or more, and
      the smaller one of two. */
  lemma ElementWithinBounds(s: seq<real>, threshold: real) returns (k: nat)
    requires |s| > 0 && SortedAsc(s) && threshold >= 0.5
    ensures k < |s| && Lower(s, threshold) <= s[k] <= Upper(s, threshold)
  {
    var n := |s| - 1;
    var q1 := Percentile(s, 25);
    var q3 := Percentile(s, 75);
    assert Lower(s, threshold) == q1 - (q3 - q1) * threshold;
    assert Upper(s, threshold) == q3 + (q3 - q1) * threshold;
    if n == 1 {
      k := 0;
      QuartilesOfTwo(s);
      TwoValues(s[0], s[1], q1, q3, threshold);
    } else if n == 0 {
      k := 0;
      Widen(q1, q3, threshold, s[0]);
    } else {
      k := MiddleIndex(n);
      PercentileBracket(s, 25, k);
      PercentileBracket(s, 75, k);
      Widen(q1, q3, threshold, s[k]);
    }
  }

  /** With a threshold of at least one half (the Python implementation's default is 1.5), a non-empty
      sample always keeps at least one value, so the mean of the survivors is defined. */
  lemma SomeValueSurvives(data: seq<real>, threshold: real)
    requires |data| > 0 && threshold >= 0.5
    ensures |RemoveOutliers(data, threshold)| > 0
  {
    var s := SortAsc(data);
    var k := ElementWithinBounds(s, threshold);
    assert s[k] in multiset(s);
    assert s[k] in data;
  }
}
