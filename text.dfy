/** Character-level helpers shared by the handlers: ASCII lower-casing,
    substring search and the decimal rendering of a natural number. */
module Text {

  function LowerChar(c: char): char {
    if 'A' <= c <= 'Z' then (c as int + 32) as char else c
  }

  /** ASCII `toLowerCase`. */
  function Lower(s: string): (r: string)
    ensures |r| == |s|
    ensures forall i :: 0 <= i < |s| ==> r[i] == LowerChar(s[i])
    ensures forall i :: 0 <= i < |r| ==> !('A' <= r[i] <= 'Z')
  {
    seq(|s|, i requires 0 <= i < |s| => LowerChar(s[i]))
  }

  /** `s.includes(p)`: p is a prefix of some suffix of s. */
  predicate Contains(s: string, p: string): (b: bool)
    ensures b <==> exists k :: 0 <= k <= |s| && p <= s[k..]
    ensures b ==> |p| <= |s|
    decreases |s|
  {
    assert s[0..] == s;
    if s == [] then p <= s
    else
      assert forall k :: 1 <= k <= |s| ==> s[1..][k - 1..] == s[k..];
      p <= s || Contains(s[1..], p)
  }

  /** An occurrence of p in s is an occurrence of lower(p) in lower(s):
      matching after lower-casing ignores the case of the input. */
  lemma {:induction false} ContainsLower(s: string, p: string)
    requires Contains(s, p)
    ensures Contains(Lower(s), Lower(p))
    decreases |s|
  {
    if p <= s {
      assert Lower(p) == Lower(s)[..|p|];
    } else {
      assert Lower(s)[1..] == Lower(s[1..]);
      ContainsLower(s[1..], p);
    }
  }

  predicate IsDigit(c: char) {
    '0' <= c <= '9'
  }

  function DigitValue(c: char): (d: nat)
    requires IsDigit(c)
    ensures d < 10
  {
    c as int - '0' as int
  }

  function DigitChar(d: nat): (c: char)
    requires d < 10
    ensures IsDigit(c) && DigitValue(c) == d
  {
    ('0' as int + d) as char
  }

  /** The decimal rendering of n, as in a JavaScript template string. */
  function NatToString(n: nat): (s: string)
    ensures |s| > 0
    ensures s[0] == '0' ==> n == 0
    ensures forall i :: 0 <= i < |s| ==> IsDigit(s[i])
    decreases n
  {
    if n < 10 then [DigitChar(n)] else NatToString(n / 10) + [DigitChar(n % 10)]
  }

  /** The value of a string of decimal digits. */
  function DecimalValue(s: string): nat
    requires forall i :: 0 <= i < |s| ==> IsDigit(s[i])
  {
    if s == [] then 0
    else DecimalValue(s[..|s| - 1]) * 10 + DigitValue(s[|s| - 1])
  }

  /** Reading back the rendering gives the number. */
  lemma {:induction false} DecimalRoundTrip(n: nat)
    ensures DecimalValue(NatToString(n)) == n
    decreases n
  {
    var s := NatToString(n);
    if n >= 10 {
      assert s[..|s| - 1] == NatToString(n / 10);
      DecimalRoundTrip(n / 10);
    }
  }

  /** Distinct numbers render differently. */
  lemma NatToStringInjective(a: nat, b: nat)
    requires NatToString(a) == NatToString(b)
    ensures a == b
  {
    DecimalRoundTrip(a);
    DecimalRoundTrip(b);
  }

  /** The part of s before the first c; all of s when c does not occur.
      This is `s.split(c)[0]`. */
  function TakeUntil(s: string, c: char): (r: string)
    ensures r <= s
    ensures c !in r
    ensures |r| == |s| || s[|r|] == c
    decreases |s|
  {
    if s == [] then []
    else if s[0] == c then []
    else [s[0]] + TakeUntil(s[1..], c)
  }

  /** The first separator after a separator-free prefix ends that prefix. */
  lemma {:induction false} TakeUntilConcat(a: string, b: string, sep: char)
    requires sep !in a
    ensures TakeUntil(a + [sep] + b, sep) == a
    decreases |a|
  {
    var s := a + [sep] + b;
    if a != [] {
      assert s[0] == a[0] && a[0] in a;
      assert s[1..] == a[1..] + [sep] + b;
      TakeUntilConcat(a[1..], b, sep);
    }
  }

  /** Splitting at the first occurrence of a separator that the first parts
      do not contain is unambiguous. */
  lemma SplitAtFirst(a1: string, b1: string, a2: string, b2: string, sep: char)
    requires sep !in a1 && sep !in a2
    requires a1 + [sep] + b1 == a2 + [sep] + b2
    ensures a1 == a2 && b1 == b2
  {
    var s := a1 + [sep] + b1;
    TakeUntilConcat(a1, b1, sep);
    TakeUntilConcat(a2, b2, sep);
    assert b1 == s[|a1| + 1..] == b2;
  }
}
