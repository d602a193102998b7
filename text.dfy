/** Decimal formatting and parsing of non-negative integers, and `str.split`'s last
    segment: the string handling behind invoice numbers and ISO dates. */
module Text {
  import opened Wrappers

  predicate IsDigit(c: char)
  {
    '0' <= c <= '9'
  }

  predicate AllDigits(s: string)
  {
    forall i :: 0 <= i < |s| ==> IsDigit(s[i])
  }

  function DigitChar(d: nat): (c: char)
    requires d < 10
    ensures IsDigit(c) && c as int - '0' as int == d
  {
    ('0' as int + d) as char
  }

  /** The decimal digits of `n` without leading zeros (Python `str(n)` for n >= 0). */
  function Digits(n: nat): (s: string)
    ensures 1 <= |s| && AllDigits(s)
  {
    if n < 10 then [DigitChar(n)] else Digits(n / 10) + [DigitChar(n % 10)]
  }

  function Zeros(k: nat): (s: string)
    ensures |s| == k && AllDigits(s)
    ensures forall i :: 0 <= i < k ==> s[i] == '0'
  {
    if k == 0 then [] else Zeros(k - 1) + ['0']
  }

  /** `n` zero-padded to at least `width` digits (Python `f"{n:0{width}d}"` for n >= 0). */
  function ZeroPad(n: nat, width: nat): (s: string)
    ensures width <= |s| && AllDigits(s)
  {
    var d := Digits(n);
    if |d| < width then Zeros(width - |d|) + d else d
  }

  /** The value of a string of decimal digits, leading zeros allowed. */
  function DigitsValue(s: string): nat
    requires AllDigits(s)
  {
    if s == [] then 0 else DigitsValue(s[..|s| - 1]) * 10 + (s[|s| - 1] as int - '0' as int)
  }

  /** Python `int(s)` restricted to plain ASCII digits: a non-empty all-digit string
      parses to its value and anything else fails. */
  function ParseNat(s: string): (r: Option<nat>)
    ensures r.Some? <==> 1 <= |s| && AllDigits(s)
  {
    if 1 <= |s| && AllDigits(s) then Some(DigitsValue(s)) else None
  }

  lemma {:induction false} DigitsRoundTrip(n: nat)
    ensures DigitsValue(Digits(n)) == n
  {
    if n >= 10 {
      DigitsRoundTrip(n / 10);
      var s := Digits(n / 10) + [DigitChar(n % 10)];
      assert s[..|s| - 1] == Digits(n / 10);
    }
  }

  lemma {:induction false} LeadingZeroIgnored(s: string)
    requires 1 <= |s| && AllDigits(s)
    ensures DigitsValue(['0'] + s) == DigitsValue(s)
  {
    var t := ['0'] + s;
    assert t[..|t| - 1] == ['0'] + s[..|s| - 1];
    if |s| > 1 {
      LeadingZeroIgnored(s[..|s| - 1]);
    } else {
      assert t[..|t| - 1] == ['0'];
      assert ['0'][..0] == [];
    }
  }

  lemma {:induction false} LeadingZerosIgnored(k: nat, s: string)
    requires 1 <= |s| && AllDigits(s)
    ensures DigitsValue(Zeros(k) + s) == DigitsValue(s)
  {
    if k > 0 {
      assert Zeros(k) + s == Zeros(k - 1) + (['0'] + s);
      LeadingZerosIgnored(k - 1, ['0'] + s);
      LeadingZeroIgnored(s);
    } else {
      assert Zeros(k) + s == s;
    }
  }

  /** Padding never changes the value a formatted number parses back to. */
  lemma ZeroPadRoundTrip(n: nat, width: nat)
    ensures ParseNat(ZeroPad(n, width)) == Some(n)
  {
    DigitsRoundTrip(n);
    var d := Digits(n);
    if |d| < width {
      LeadingZerosIgnored(width - |d|, d);
    }
  }

  /** The text after the last `sep` (the whole string when there is none):
      Python `s.split(sep)[-1]`. */
  function LastSegment(s: string, sep: char): (r: string)
    ensures sep !in r
    ensures |r| <= |s| && r == s[|s| - |r|..]
    ensures |r| == |s| || s[|s| - |r| - 1] == sep
  {
    if s == [] || s[|s| - 1] == sep then []
    else LastSegment(s[..|s| - 1], sep) + [s[|s| - 1]]
  }

  /** A segment free of the separator, appended after one, is what split returns last. */
  lemma {:induction false} LastSegmentAfterSeparator(a: string, sep: char, b: string)
    requires sep !in b
    ensures LastSegment(a + [sep] + b, sep) == b
  {
    var s := a + [sep] + b;
    if b != [] {
      assert s[..|s| - 1] == a + [sep] + b[..|b| - 1];
      assert b[|b| - 1] in b;
      LastSegmentAfterSeparator(a, sep, b[..|b| - 1]);
      assert b == b[..|b| - 1] + [b[|b| - 1]];
    }
  }
}
