/**
 * The few pieces of JavaScript value semantics the configuration file relies on:
 * truthiness of a string that may be `undefined`, the operators `||` and `??`,
 * and the text a template literal `${v}` produces for a string, a number or
 * `undefined`. Numbers are integer-valued here (HTTP status codes).
 */
module JsValues {
  import opened Wrappers

  /** Truthiness of a string-or-undefined: only a present, non-empty string is truthy. */
  predicate Truthy(v: Option<string>) {
    v.Some? && v.value != ""
  }

  /** `a || b`: the first operand when it is truthy, the second otherwise. */
  function Or(a: Option<string>, b: Option<string>): Option<string> {
    if Truthy(a) then a else b
  }

  /** `a ?? d`: the default only when `a` is `undefined`; an empty string is kept. */
  function Coalesce(a: Option<string>, d: string): string {
    a.GetOr(d)
  }

  /** `${v}` for a string-or-undefined. */
  function StringText(v: Option<string>): string {
    match v
    case Some(s) => s
    case None => "undefined"
  }

  /** `s.startsWith(prefix)`. */
  predicate StartsWith<T(==)>(s: seq<T>, prefix: seq<T>) {
    |prefix| <= |s| && s[..|prefix|] == prefix
  }

  /** `s.endsWith(suffix)`. */
  predicate EndsWith<T(==)>(s: seq<T>, suffix: seq<T>) {
    |suffix| <= |s| && s[|s| - |suffix|..] == suffix
  }

  // ---------------------------------------------------------------------
  // Decimal text of numbers

  predicate IsDigit(c: char) {
    '0' <= c <= '9'
  }

  function DigitChar(d: nat): (c: char)
    requires d < 10
    ensures IsDigit(c)
  {
    ('0' as int + d) as char
  }

  function DigitValue(c: char): (d: nat)
    requires IsDigit(c)
    ensures d < 10 && DigitChar(d) == c
  {
    c as int - '0' as int
  }

  predicate AllDigits(s: string) {
    forall i :: 0 <= i < |s| ==> IsDigit(s[i])
  }

  /** The decimal text of a natural number: non-empty, digits only, no leading zero. */
  function NatText(n: nat): (r: string)
    ensures |r| >= 1 && AllDigits(r)
    ensures r[0] == '0' ==> n == 0
    decreases n
  {
    if n < 10 then [DigitChar(n)] else NatText(n / 10) + [DigitChar(n % 10)]
  }

  /**
   * `${n}` for an integer-valued number below 10^21 in magnitude, where
   * JavaScript prints plain decimal: a minus sign before the magnitude when
   * negative. Larger magnitudes, printed in exponent form, are not modelled.
   */
  function NumberText(n: int): string {
    if n < 0 then "-" + NatText(-n) else NatText(n)
  }

  /** `${v}` for a number-or-undefined (how the log line prints a status code). */
  function OptNumberText(v: Option<int>): string {
    match v
    case Some(n) => NumberText(n)
    case None => "undefined"
  }

  /** Reads a non-empty string of decimal digits; anything else has no value. */
  function ParseNat(s: string): (r: Option<nat>)
    ensures r.Some? <==> |s| >= 1 && AllDigits(s)
    decreases |s|
  {
    if |s| == 0 || !IsDigit(s[|s| - 1]) then None
    else if |s| == 1 then Some(DigitValue(s[0]))
    else
      match ParseNat(s[..|s| - 1])
      case None => None
      case Some(v) => Some(10 * v + DigitValue(s[|s| - 1]))
  }

  /** Reads an optional minus sign followed by decimal digits. */
  function ParseInteger(s: string): Option<int> {
    if |s| >= 1 && s[0] == '-' then
      match ParseNat(s[1..])
      case None => None
      case Some(v) => Some(-(v as int))
    else
      match ParseNat(s)
      case None => None
      case Some(v) => Some(v as int)
  }

  /** Reading the decimal text of a natural number gives the number back. */
  lemma {:induction false} ParseNatText(n: nat)
    ensures ParseNat(NatText(n)) == Some(n)
    decreases n
  {
    var s := NatText(n);
    if n >= 10 {
      ParseNatText(n / 10);
      assert s[..|s| - 1] == NatText(n / 10);
      assert s[|s| - 1] == DigitChar(n % 10);
    } else {
      assert s == [DigitChar(n)];
    }
  }

  /** Reading the text a template literal gives a number yields that number. */
  lemma NumberTextRoundTrip(n: int)
    ensures ParseInteger(NumberText(n)) == Some(n)
  {
    var s := NumberText(n);
    if n < 0 {
      assert s[1..] == NatText(-n);
      ParseNatText(-n);
    } else {
      assert IsDigit(s[0]);
      ParseNatText(n);
    }
  }

  /**
   * Different status codes, or a present and an absent one, never print the
   * same text: in particular an absent status prints "undefined", not "0".
   */
  lemma OptNumberTextInjective(a: Option<int>, b: Option<int>)
    requires OptNumberText(a) == OptNumberText(b)
    ensures a == b
  {
    assert ParseNat("undefined") == None by { assert !IsDigit("undefined"[8]); }
    assert ParseInteger("undefined") == None;
    if a.Some? {
      NumberTextRoundTrip(a.value);
    }
    if b.Some? {
      NumberTextRoundTrip(b.value);
    }
  }

  /** The text of a number-or-undefined contains no space. */
  lemma OptNumberTextHasNoSpace(v: Option<int>)
    ensures forall i :: 0 <= i < |OptNumberText(v)| ==> OptNumberText(v)[i] != ' '
  {
  }
}
