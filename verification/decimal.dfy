/** Decimal rendering of non-negative integers, as JavaScript's template
    literals print an HTTP status or a counter, together with its parser. */
module Decimal {

  predicate IsDigit(c: char) {
    '0' <= c <= '9'
  }

  function DigitChar(d: nat): (c: char)
    requires d < 10
    ensures IsDigit(c)
  {
    "0123456789"[d]
  }

  function DigitValue(c: char): (d: nat)
    requires IsDigit(c)
    ensures d < 10
  {
    (c as int) - ('0' as int)
  }

  lemma DigitRoundTrip(d: nat)
    requires d < 10
    ensures DigitValue(DigitChar(d)) == d
  {
  }

  /** Shortest decimal spelling: no leading zero except for 0 itself. */
  function NatToString(n: nat): (s: string)
    ensures |s| >= 1
    ensures forall i :: 0 <= i < |s| ==> IsDigit(s[i])
    ensures |s| > 1 ==> s[0] != '0'
    decreases n
  {
    if n < 10 then [DigitChar(n)] else NatToString(n / 10) + [DigitChar(n % 10)]
  }

  /** Value of a string of digits, most significant first. */
  function ParseNat(s: string): (n: nat)
    requires forall i :: 0 <= i < |s| ==> IsDigit(s[i])
    decreases |s|
  {
    if |s| == 0 then 0 else 10 * ParseNat(s[..|s| - 1]) + DigitValue(s[|s| - 1])
  }

  /** Parsing the rendering gives the number back. */
  lemma {:induction false} ParseNatToString(n: nat)
    ensures ParseNat(NatToString(n)) == n
    decreases n
  {
    var s := NatToString(n);
    if n < 10 {
      DigitRoundTrip(n);
    } else {
      var p := NatToString(n / 10);
      assert s == p + [DigitChar(n % 10)];
      assert s[..|s| - 1] == p;
      ParseNatToString(n / 10);
      DigitRoundTrip(n % 10);
    }
  }

  /** Rendering is injective: different numbers print differently. */
  lemma NatToStringInjective(m: nat, n: nat)
    requires NatToString(m) == NatToString(n)
    ensures m == n
  {
    ParseNatToString(m);
    ParseNatToString(n);
  }

  /** The five parts of a concatenation can be sliced back out of it. */
  lemma Segments(p: string, a: string, q: string, b: string, z: string)
    ensures var t := p + a + q + b + z;
            var i, j, k := |p| + |a|, |p| + |a| + |q|, |p| + |a| + |q| + |b|;
            |t| == k + |z| &&
            t[..|p|] == p && t[|p|..i] == a && t[i..j] == q && t[j..k] == b && t[k..] == z
  {
    var t := p + a + q + b + z;
    var i, j, k := |p| + |a|, |p| + |a| + |q|, |p| + |a| + |q| + |b|;
    assert t[..|p|] == p by {
      assert forall n :: 0 <= n < |p| ==> t[n] == p[n];
    }
    assert t[|p|..i] == a by {
      assert forall n :: 0 <= n < |a| ==> t[|p| + n] == a[n];
    }
    assert t[i..j] == q by {
      assert forall n :: 0 <= n < |q| ==> t[i + n] == q[n];
    }
    assert t[j..k] == b by {
      assert forall n :: 0 <= n < |b| ==> t[j + n] == b[n];
    }
    assert t[k..] == z by {
      assert forall n :: 0 <= n < |z| ==> t[k + n] == z[n];
    }
  }
}
