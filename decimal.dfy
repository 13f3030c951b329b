/**
 * The two text conversions of the id exchange: std::to_string of the
 * unsigned device index, and std::stoi of the id the host replies with.
 */
module Decimal {
  import opened Wrappers

  const Int32Min: int := -0x8000_0000
  const Int32Max: int := 0x7FFF_FFFF

  predicate IsDigit(c: char) { '0' <= c <= '9' }

  /** isspace in the C locale: ' ', '\t', '\n', '\v', '\f', '\r'. */
  predicate IsSpace(c: char) { c == ' ' || '\t' <= c <= '\r' }

  predicate AllDigits(s: string) { forall i :: 0 <= i < |s| ==> IsDigit(s[i]) }

  function DigitChar(d: nat): (c: char)
    requires d < 10
    ensures IsDigit(c) && c as int - '0' as int == d
  {
    (d + '0' as int) as char
  }

  /** std::to_string of a non-negative number: its decimal digits, no sign, no leading zero. */
  function ToDecimal(n: nat): (s: string)
    ensures |s| > 0 && AllDigits(s)
    ensures s[0] == '0' ==> n == 0
  {
    if n < 10 then [DigitChar(n)] else ToDecimal(n / 10) + [DigitChar(n % 10)]
  }

  /** The value of a string of decimal digits, most significant first. */
  function DigitsValue(s: string): nat
    requires AllDigits(s)
  {
    if s == [] then 0 else DigitsValue(s[..|s| - 1]) * 10 + (s[|s| - 1] as int - '0' as int)
  }

  /** Reading back the digits written by ToDecimal gives the number. */
  lemma {:induction false} DecimalRoundTrip(n: nat)
    ensures DigitsValue(ToDecimal(n)) == n
  {
    if n >= 10 {
      DecimalRoundTrip(n / 10);
      var s := ToDecimal(n);
      assert s[..|s| - 1] == ToDecimal(n / 10);
    }
  }

  /** What is left of `s` once its leading white space is dropped. */
  function SkipSpaces(s: string): (r: string)
    ensures |r| <= |s| && r == s[|s| - |r|..]
    ensures forall i :: 0 <= i < |s| - |r| ==> IsSpace(s[i])
    ensures r == [] || !IsSpace(r[0])
  {
    if s != [] && IsSpace(s[0]) then SkipSpaces(s[1..]) else s
  }

  /** The longest run of digits at the front of `s`. */
  function LeadingDigits(s: string): (d: string)
    ensures |d| <= |s| && AllDigits(d) && d == s[..|d|]
    ensures |d| == |s| || !IsDigit(s[|d|])
  {
    if s != [] && IsDigit(s[0]) then [s[0]] + LeadingDigits(s[1..]) else []
  }

  /**
   * std::stoi: skip leading white space, take an optional sign and the
   * longest run of digits after it, ignore whatever follows.  It fails
   * (throws) when there is no digit or the value does not fit an int.
   */
  function Stoi(s: string): (r: Option<int>)
    ensures r.Some? ==> Int32Min <= r.value <= Int32Max
  {
    var t := SkipSpaces(s);
    var negative := t != [] && t[0] == '-';
    var body := if t != [] && (t[0] == '-' || t[0] == '+') then t[1..] else t;
    var digits := LeadingDigits(body);
    if digits == [] then None
    else
      var magnitude: int := DigitsValue(digits);
      var v := if negative then -magnitude else magnitude;
      if Int32Min <= v <= Int32Max then Some(v) else None
  }

  lemma {:induction false} LeadingDigitsOfDigits(d: string, rest: string)
    requires AllDigits(d)
    requires rest == [] || !IsDigit(rest[0])
    ensures LeadingDigits(d + rest) == d
  {
    if d != [] {
      assert (d + rest)[1..] == d[1..] + rest;
      LeadingDigitsOfDigits(d[1..], rest);
    }
  }

  /** With no white space or sign in front, stoi reads the leading digits as they are. */
  lemma StoiOfDigits(s: string)
    requires s != [] && IsDigit(s[0])
    ensures var v := DigitsValue(LeadingDigits(s));
      Stoi(s) == if v <= Int32Max then Some(v) else None
  {
    assert !IsSpace(s[0]);
    assert SkipSpaces(s) == s;
  }

  /**
   * A reply made of the decimal rendering of an int-sized number, followed
   * by anything that does not continue the digits (a '\r', say), parses
   * back to that number.
   */
  lemma StoiOfDecimal(n: nat, rest: string)
    requires n <= Int32Max
    requires rest == [] || !IsDigit(rest[0])
    ensures Stoi(ToDecimal(n) + rest) == Some(n)
  {
    var d := ToDecimal(n);
    assert (d + rest)[0] == d[0];
    StoiOfDigits(d + rest);
    LeadingDigitsOfDigits(d, rest);
    DecimalRoundTrip(n);
  }

  /** stoi refuses a reply that has no digit after the white space and sign. */
  lemma StoiNeedsDigit(s: string)
    requires forall i :: 0 <= i < |s| ==> !IsDigit(s[i])
    ensures Stoi(s) == None
  {
    var t := SkipSpaces(s);
    var body := if t != [] && (t[0] == '-' || t[0] == '+') then t[1..] else t;
    assert body == [] || !IsDigit(body[0]) by {
      if body != [] {
        assert body[0] in s;
      }
    }
  }
}
