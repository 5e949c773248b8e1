/**
 * The pieces of Rust's standard library the core leans on, stated over
 * `string` (a sequence of chars): `u64`/`usize` limits, `char::is_whitespace`,
 * `str::trim`, `str::parse::<u64>()`, and the decimal formatting of `{}` and
 * `{:0N}`.
 */
module Text {
  import opened Wrappers

  /** 2^64: the modulus of `u64` (and of `usize` on a 64-bit target). */
  const U64_MODULUS: nat := 0x1_0000_0000_0000_0000
  const U64_MAX: nat := U64_MODULUS - 1
  const USIZE_MAX: nat := U64_MAX

  predicate IsAsciiDigit(c: char) {
    '0' <= c <= '9'
  }

  /** `char::is_whitespace`: the Unicode White_Space property. */
  predicate IsWhitespace(c: char) {
    || ('\U{0009}' <= c <= '\U{000D}')
    || c == '\U{0020}'
    || c == '\U{0085}'
    || c == '\U{00A0}'
    || c == '\U{1680}'
    || ('\U{2000}' <= c <= '\U{200A}')
    || c == '\U{2028}'
    || c == '\U{2029}'
    || c == '\U{202F}'
    || c == '\U{205F}'
    || c == '\U{3000}'
  }

  predicate AllDigits(s: string) {
    forall i :: 0 <= i < |s| ==> IsAsciiDigit(s[i])
  }

  function DigitValue(c: char): (d: nat)
    requires IsAsciiDigit(c)
    ensures d < 10
  {
    (c as int - '0' as int) as nat
  }

  function DigitChar(d: nat): (c: char)
    requires d < 10
    ensures IsAsciiDigit(c) && DigitValue(c) == d
  {
    ('0' as int + d) as char
  }

  /** The number a run of decimal digits denotes (leading zeros allowed). */
  function DigitsValue(s: string): nat
    requires AllDigits(s)
  {
    if s == [] then 0 else DigitsValue(s[..|s| - 1]) * 10 + DigitValue(s[|s| - 1])
  }

  /**
   * `str::parse` for an unsigned integer type whose largest value is `max`:
   * an optional leading '+', then at least one ASCII digit and nothing else;
   * a value above `max` is an overflow error.
   */
  function ParseUnsigned(s: string, max: nat): (r: Option<nat>)
    ensures r.Some? ==> r.value <= max
    ensures s != [] && AllDigits(s) ==> r == (if DigitsValue(s) <= max then Some(DigitsValue(s)) else None)
    ensures s == [] ==> r == None
  {
    var digits := if |s| > 0 && s[0] == '+' then s[1..] else s;
    if digits == [] || !AllDigits(digits) then None
    else if DigitsValue(digits) > max then None
    else Some(DigitsValue(digits))
  }

  /** The `{}` rendering of a natural number. */
  function Decimal(n: nat): (s: string)
    ensures |s| > 0 && AllDigits(s)
  {
    if n < 10 then [DigitChar(n)] else Decimal(n / 10) + [DigitChar(n % 10)]
  }

  /** `{:0w}`: the decimal rendering left-padded with zeros to at least `width` characters. */
  function ZeroPad(n: nat, width: nat): (s: string)
    ensures |s| > 0 && |s| >= width
  {
    if width <= |Decimal(n)| then Decimal(n) else ['0'] + ZeroPad(n, width - 1)
  }

  lemma {:induction false} DecimalValue(n: nat)
    ensures DigitsValue(Decimal(n)) == n
  {
    if n >= 10 {
      var d := Decimal(n);
      DecimalValue(n / 10);
      assert d[..|d| - 1] == Decimal(n / 10);
    }
  }

  /** A leading zero does not change the value of a digit run. */
  lemma {:induction false} LeadingZeroValue(d: string)
    requires AllDigits(d)
    ensures AllDigits(['0'] + d) && DigitsValue(['0'] + d) == DigitsValue(d)
    decreases |d|
  {
    if d != [] {
      var zd := ['0'] + d;
      assert zd[..|zd| - 1] == ['0'] + d[..|d| - 1];
      LeadingZeroValue(d[..|d| - 1]);
    }
  }

  lemma {:induction false} ZeroPadValue(n: nat, width: nat)
    ensures AllDigits(ZeroPad(n, width)) && DigitsValue(ZeroPad(n, width)) == n
  {
    if width <= |Decimal(n)| {
      DecimalValue(n);
    } else {
      ZeroPadValue(n, width - 1);
      LeadingZeroValue(ZeroPad(n, width - 1));
    }
  }

  /** What `{:0w}` prints, `parse` reads back: the formatting/parsing round trip. */
  lemma ParseZeroPad(n: nat, width: nat, max: nat)
    requires n <= max
    ensures AllDigits(ZeroPad(n, width)) && ParseUnsigned(ZeroPad(n, width), max) == Some(n)
  {
    ZeroPadValue(n, width);
    assert ZeroPad(n, width)[0] != '+';
  }

  /** The number of leading characters of `s` that satisfy `IsAsciiDigit`. */
  function DigitPrefixLength(s: string): (k: nat)
    ensures k <= |s|
    ensures AllDigits(s[..k])
    ensures k < |s| ==> !IsAsciiDigit(s[k])
  {
    if s != [] && IsAsciiDigit(s[0]) then 1 + DigitPrefixLength(s[1..]) else 0
  }

  /** The number of leading characters of `s` that satisfy `IsWhitespace`. */
  function SpacePrefixLength(s: string): (k: nat)
    ensures k <= |s|
    ensures forall i :: 0 <= i < k ==> IsWhitespace(s[i])
    ensures k < |s| ==> !IsWhitespace(s[k])
  {
    if s != [] && IsWhitespace(s[0]) then 1 + SpacePrefixLength(s[1..]) else 0
  }

  /** The number of trailing characters of `s` that satisfy `IsWhitespace`. */
  function SpaceSuffixLength(s: string): (k: nat)
    ensures k <= |s|
    ensures forall i :: |s| - k <= i < |s| ==> IsWhitespace(s[i])
    ensures k < |s| ==> !IsWhitespace(s[|s| - 1 - k])
  {
    if s != [] && IsWhitespace(s[|s| - 1]) then 1 + SpaceSuffixLength(s[..|s| - 1]) else 0
  }

  lemma {:induction false} DigitPrefixOfRun(d: string, rest: string)
    requires AllDigits(d)
    requires rest == [] || !IsAsciiDigit(rest[0])
    ensures DigitPrefixLength(d + rest) == |d|
  {
    if d != [] {
      assert (d + rest)[1..] == d[1..] + rest;
      DigitPrefixOfRun(d[1..], rest);
    } else {
      assert d + rest == rest;
    }
  }

  lemma {:induction false} SpacePrefixOfRun(ws: string, rest: string)
    requires forall i :: 0 <= i < |ws| ==> IsWhitespace(ws[i])
    requires rest == [] || !IsWhitespace(rest[0])
    ensures SpacePrefixLength(ws + rest) == |ws|
  {
    if ws != [] {
      assert (ws + rest)[1..] == ws[1..] + rest;
      SpacePrefixOfRun(ws[1..], rest);
    } else {
      assert ws + rest == rest;
    }
  }

  /** `str::trim`: drop leading and trailing whitespace. */
  function Trim(s: string): (r: string)
    ensures SpacePrefixLength(s) == |s| ==> r == []
    ensures SpacePrefixLength(s) < |s| ==> r == s[SpacePrefixLength(s)..|s| - SpaceSuffixLength(s)]
    ensures r == [] || (!IsWhitespace(r[0]) && !IsWhitespace(r[|r| - 1]))
  {
    var lead := SpacePrefixLength(s);
    if lead == |s| then []
    else
      var trail := SpaceSuffixLength(s);
      assert !IsWhitespace(s[lead]);
      assert lead < |s| - trail;
      s[lead..|s| - trail]
  }
}
