/** String helpers standing in for Python's str(int), str.join and string comparison. */
module Text {

  function DigitChar(d: nat): char
    requires d < 10
  {
    ('0' as int + d) as char
  }

  /** Decimal rendering of a natural number, as str(n). */
  function NatToString(n: nat): (s: string)
    ensures |s| > 0
    ensures forall i :: 0 <= i < |s| ==> '0' <= s[i] <= '9'
    decreases n
  {
    if n < 10 then [DigitChar(n)] else NatToString(n / 10) + [DigitChar(n % 10)]
  }

  /** Decimal rendering of an integer, as str(i): a leading '-' for negatives. */
  function IntToString(i: int): (s: string)
    ensures |s| > 0
    ensures (s[0] == '-') <==> i < 0
  {
    if i < 0 then "-" + NatToString(-i) else NatToString(i)
  }

  /** Different numbers have different decimal renderings. */
  lemma {:induction false} NatToStringInjective(a: nat, b: nat)
    requires NatToString(a) == NatToString(b)
    ensures a == b
    decreases a
  {
    NatToStringSingleDigit(a);
    NatToStringSingleDigit(b);
    if a >= 10 {
      var sa, sb := NatToString(a / 10), NatToString(b / 10);
      assert |sa| == |sb|;
      assert sa == NatToString(a)[..|sa|] && sb == NatToString(b)[..|sb|];
      NatToStringInjective(a / 10, b / 10);
    }
  }

  lemma NatToStringSingleDigit(n: nat)
    ensures |NatToString(n)| == 1 <==> n < 10
  {
  }

  lemma IntToStringInjective(a: int, b: int)
    requires IntToString(a) == IntToString(b)
    ensures a == b
  {
    if a < 0 {
      assert IntToString(a)[1..] == NatToString(-a) && IntToString(b)[1..] == NatToString(-b);
      NatToStringInjective(-a, -b);
    } else {
      NatToStringInjective(a, b);
    }
  }

  /** str(i) holds only digits and a minus sign. */
  lemma IntToStringChars(i: int)
    ensures forall k :: 0 <= k < |IntToString(i)| ==> IntToString(i)[k] == '-' || '0' <= IntToString(i)[k] <= '9'
  {
    if i < 0 {
      assert forall k :: 1 <= k < |IntToString(i)| ==> IntToString(i)[k] == NatToString(-i)[k - 1];
    }
  }

  predicate Excludes(s: string, c: char)
  {
    forall k :: 0 <= k < |s| ==> s[k] != c
  }

  /** The position of the first `c` in `s`, or |s| when there is none. */
  function FirstIndex(s: string, c: char): (k: nat)
    ensures k <= |s|
  {
    if |s| == 0 || s[0] == c then 0 else 1 + FirstIndex(s[1..], c)
  }

  lemma {:induction false} FirstIndexAfter(u: string, r: string)
    requires |r| > 0 && Excludes(u, r[0])
    ensures FirstIndex(u + r, r[0]) == |u|
  {
    if |u| > 0 {
      assert (u + r)[1..] == u[1..] + r;
      FirstIndexAfter(u[1..], r);
    }
  }

  /** Two texts free of the separator's first character, each followed by text that starts
      with that character, split at the same place. */
  lemma SplitAtSeparator(u: string, v: string, r1: string, r2: string)
    requires |r1| > 0 && |r2| > 0 && r1[0] == r2[0]
    requires Excludes(u, r1[0]) && Excludes(v, r1[0])
    requires u + r1 == v + r2
    ensures u == v && r1 == r2
  {
    FirstIndexAfter(u, r1);
    FirstIndexAfter(v, r2);
    assert u == (u + r1)[..|u|] && v == (v + r2)[..|v|];
    assert r1 == (u + r1)[|u|..] && r2 == (v + r2)[|v|..];
  }

  lemma CancelLeft(a: string, x: string, y: string)
    requires a + x == a + y
    ensures x == y
  {
    assert x == (a + x)[|a|..] && y == (a + y)[|a|..];
  }

  /** Joining as many parts free of the separator's first character is one-to-one. */
  lemma {:induction false} JoinInjective(a: seq<string>, b: seq<string>, sep: string)
    requires |a| == |b| && |sep| > 0
    requires forall i :: 0 <= i < |a| ==> Excludes(a[i], sep[0]) && Excludes(b[i], sep[0])
    requires Join(a, sep) == Join(b, sep)
    ensures a == b
  {
    if |a| > 1 {
      var ra, rb := Join(a[1..], sep), Join(b[1..], sep);
      assert a[0] + (sep + ra) == Join(a, sep);
      assert b[0] + (sep + rb) == Join(b, sep);
      SplitAtSeparator(a[0], b[0], sep + ra, sep + rb);
      CancelLeft(sep, ra, rb);
      JoinInjective(a[1..], b[1..], sep);
      assert a == [a[0]] + a[1..] && b == [b[0]] + b[1..];
    }
  }

  /** sep.join(parts) */
  function Join(parts: seq<string>, sep: string): string
  {
    if |parts| == 0 then ""
    else if |parts| == 1 then parts[0]
    else parts[0] + sep + Join(parts[1..], sep)
  }

  /** Concatenation of all parts, as "".join(parts). */
  function Concat(parts: seq<string>): string
  {
    if |parts| == 0 then "" else parts[0] + Concat(parts[1..])
  }

  /** Python's a < b on str: lexicographic by code point, a proper prefix is smaller. */
  predicate LexLess(a: string, b: string)
  {
    if |a| == 0 then |b| > 0
    else if |b| == 0 then false
    else if a[0] < b[0] then true
    else if a[0] == b[0] then LexLess(a[1..], b[1..])
    else false
  }

  lemma {:induction false} LexLessIrreflexive(a: string)
    ensures !LexLess(a, a)
  {
    if |a| > 0 {
      LexLessIrreflexive(a[1..]);
    }
  }

  lemma {:induction false} LexLessTransitive(a: string, b: string, c: string)
    requires LexLess(a, b) && LexLess(b, c)
    ensures LexLess(a, c)
  {
    if |a| > 0 && |b| > 0 && |c| > 0 && a[0] == b[0] && b[0] == c[0] {
      LexLessTransitive(a[1..], b[1..], c[1..]);
    }
  }

  predicate IsPrefix(p: string, s: string)
  {
    |p| <= |s| && s[..|p|] == p
  }

  predicate IsSuffix(t: string, s: string)
  {
    |t| <= |s| && s[|s| - |t|..] == t
  }

  lemma PrefixOfConcat(a: string, b: string)
    ensures IsPrefix(a, a + b)
  {
    assert (a + b)[..|a|] == a;
  }

  lemma SuffixOfConcat(a: string, b: string)
    ensures IsSuffix(b, a + b)
  {
    assert (a + b)[|a + b| - |b|..] == b;
  }

  lemma PrefixOfLonger(p: string, a: string, b: string)
    requires IsPrefix(p, a)
    ensures IsPrefix(p, a + b)
  {
    assert (a + b)[..|p|] == a[..|p|];
  }
}
