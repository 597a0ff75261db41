/** The JavaScript string conversions the service relies on: `toString` of an
    integral `number` and of a `boolean`, the falsiness test `!s` on an optional
    string field, and the UTF-16 `length` of a string. Each conversion comes with
    a parser that undoes it, so that the conversions are shown to lose nothing. */
module JsText {
  import opened Wrappers

  predicate IsDigit(c: char) {
    '0' <= c <= '9'
  }

  predicate AllDigits(s: string) {
    forall i :: 0 <= i < |s| ==> IsDigit(s[i])
  }

  function DigitValue(c: char): (d: nat)
    requires IsDigit(c)
    ensures d < 10
  {
    (c as int) - ('0' as int)
  }

  function DigitChar(d: nat): (c: char)
    requires d < 10
    ensures IsDigit(c) && DigitValue(c) == d
  {
    (('0' as int) + d) as char
  }

  /** Decimal digits of a natural number, most significant first, without
      leading zeros. */
  function NatToDecimal(n: nat): (s: string)
    ensures |s| >= 1 && AllDigits(s)
    ensures s[0] == '0' <==> n == 0
    ensures n == 0 ==> s == "0"
    decreases n
  {
    if n < 10 then [DigitChar(n)] else NatToDecimal(n / 10) + [DigitChar(n % 10)]
  }

  /** The value of a string of decimal digits (0 for the empty string). */
  function DigitsValue(s: string): nat
    requires AllDigits(s)
  {
    if |s| == 0 then 0 else 10 * DigitsValue(s[..|s| - 1]) + DigitValue(s[|s| - 1])
  }

  /** One or more decimal digits, with no leading zero unless the number is 0. */
  predicate CanonicalDigits(d: string) {
    |d| >= 1 && AllDigits(d) && (d[0] == '0' ==> d == "0")
  }

  /** The form JavaScript prints an integer in: canonical digits, optionally
      preceded by a minus sign when the magnitude is not zero. */
  predicate CanonicalInteger(s: string) {
    || CanonicalDigits(s)
    || (|s| >= 2 && s[0] == '-' && CanonicalDigits(s[1..]) && s[1..] != "0")
  }

  /** `Number.prototype.toString()` on an integral value: an optional minus
      sign followed by the decimal digits of the magnitude. */
  function NumberToString(n: int): (s: string)
    ensures |s| >= 1
    ensures s[0] == '-' <==> n < 0
    ensures AllDigits(s[1..])
  {
    if n < 0 then "-" + NatToDecimal(-n) else NatToDecimal(n)
  }

  /** `toString` prints every integer in canonical form, and prints "0"
      exactly for zero. */
  lemma NumberToStringCanonical(n: int)
    ensures CanonicalInteger(NumberToString(n))
    ensures NumberToString(n) == "0" <==> n == 0
  {
    if n < 0 {
      assert NumberToString(n)[1..] == NatToDecimal(-n);
    }
  }

  /** Reads back an optionally signed decimal integer; rejects anything else. */
  function ParseInteger(s: string): Option<int> {
    if |s| > 1 && s[0] == '-' && AllDigits(s[1..]) then Some(-(DigitsValue(s[1..]) as int))
    else if |s| > 0 && AllDigits(s) then Some(DigitsValue(s))
    else None
  }

  lemma {:induction false} NatToDecimalRoundTrip(n: nat)
    ensures DigitsValue(NatToDecimal(n)) == n
    decreases n
  {
    if n >= 10 {
      NatToDecimalRoundTrip(n / 10);
      var s := NatToDecimal(n);
      assert s[..|s| - 1] == NatToDecimal(n / 10);
    }
  }

  /** Every integer's decimal string reads back as that integer. */
  lemma NumberToStringRoundTrip(n: int)
    ensures ParseInteger(NumberToString(n)) == Some(n)
  {
    var s := NumberToString(n);
    if n < 0 {
      assert s[1..] == NatToDecimal(-n);
      NatToDecimalRoundTrip(-n);
    } else {
      NatToDecimalRoundTrip(n);
    }
  }

  /** Distinct integers have distinct decimal strings. */
  lemma NumberToStringInjective(a: int, b: int)
    requires NumberToString(a) == NumberToString(b)
    ensures a == b
  {
    NumberToStringRoundTrip(a);
    NumberToStringRoundTrip(b);
  }

  /** `Boolean.prototype.toString()`. */
  function BoolToString(b: bool): (s: string)
    ensures ParseBool(s) == Some(b)
  {
    if b then "true" else "false"
  }

  function ParseBool(s: string): Option<bool> {
    if s == "true" then Some(true) else if s == "false" then Some(false) else None
  }

  /** Whether a string field of a request body passes the source's `!field`
      guard. The only falsy string is the empty one, so the guard rejects
      exactly an absent field and `""`. */
  function Truthy(field: Option<string>): (b: bool)
    ensures !b <==> field == None || field == Some("")
  {
    field.Some? && |field.value| > 0
  }

  /** JavaScript's `length`: characters outside the Basic Multilingual Plane
      take two UTF-16 code units. */
  function Utf16Length(s: string): (n: nat)
    ensures |s| <= n <= 2 * |s|
  {
    if |s| == 0 then 0
    else (if s[0] as int > 0xFFFF then 2 else 1) + Utf16Length(s[1..])
  }

  /** A single character is one code unit, or two (a surrogate pair) when it
      lies above U+FFFF. */
  lemma Utf16LengthOfChar(c: char)
    ensures Utf16Length([c]) == if c as int > 0xFFFF then 2 else 1
  {
    assert [c][1..] == [];
  }

  /** `length` is additive over concatenation; with `Utf16LengthOfChar` this
      fixes the length of every string. */
  lemma {:induction false} Utf16LengthAppend(s: string, t: string)
    ensures Utf16Length(s + t) == Utf16Length(s) + Utf16Length(t)
  {
    if |s| == 0 {
      assert s + t == t;
    } else {
      assert (s + t)[0] == s[0];
      assert (s + t)[1..] == s[1..] + t;
      Utf16LengthAppend(s[1..], t);
    }
  }

  /** For text inside the Basic Multilingual Plane, `length` counts characters. */
  lemma {:induction false} Utf16LengthOfBmp(s: string)
    requires forall i :: 0 <= i < |s| ==> s[i] as int <= 0xFFFF
    ensures Utf16Length(s) == |s|
  {
    if |s| > 0 {
      assert forall i :: 0 <= i < |s[1..]| ==> s[1..][i] == s[i + 1];
      Utf16LengthOfBmp(s[1..]);
    }
  }
}
