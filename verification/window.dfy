/** The report window: REPORT_WINDOW_HOURS with its fallback to one hour
    (pages/api/send-report.js, line 36) and its rendering in the message
    header (lines 60-62). */
module Window {
  import opened Wrappers

  /** `Number(REPORT_WINDOW_HOURS) || 1`: zero and NaN (None) fall back to 1,
      every other number is kept, negative ones included. */
  function EffectiveHours(parsed: Option<int>): (hours: int)
    ensures hours != 0
    ensures parsed.Some? && parsed.value != 0 ==> hours == parsed.value
    ensures parsed.None? || parsed.value == 0 ==> hours == 1
  {
    match parsed
    case Some(n) => if n != 0 then n else 1
    case None => 1
  }

  /** The noun after the hour count: plural exactly when the count exceeds 1. */
  function HourNoun(hours: int): (noun: string)
    ensures noun == "hours" <==> hours > 1
    ensures noun == "hour" <==> hours <= 1
  {
    "hour" + (if hours > 1 then "s" else "")
  }

  predicate IsDigit(c: char) {
    '0' <= c <= '9'
  }

  function DigitChar(d: nat): (c: char)
    requires d < 10
    ensures IsDigit(c)
  {
    "0123456789"[d]
  }

  function DigitValue(c: char): (d: nat)
    requires IsDigit(c)
    ensures d < 10
  {
    (c as int - '0' as int) as nat
  }

  /** Decimal digits of a natural number, most significant first, with no
      leading zeros. */
  function NatString(n: nat): (s: string)
    ensures 1 <= |s|
    ensures forall i :: 0 <= i < |s| ==> IsDigit(s[i])
    ensures |s| > 1 ==> s[0] != '0'
    decreases n
  {
    if n < 10 then [DigitChar(n)] else NatString(n / 10) + [DigitChar(n % 10)]
  }

  /** How a JavaScript integer is written into a template string: optional
      minus sign, then decimal digits without leading zeros. */
  function DecimalString(n: int): (s: string)
    ensures 1 <= |s|
    ensures forall i :: 0 <= i < |s| ==> IsDigit(s[i]) || (i == 0 && s[i] == '-' && n < 0)
    // canonical form: no leading zeros, and a minus sign only before a non-zero digit
    ensures s[0] != '-' && |s| > 1 ==> s[0] != '0'
    ensures s[0] == '-' ==> |s| > 1 && s[1] != '0'
  {
    if n < 0 then "-" + NatString(-n) else NatString(n)
  }

  function DigitsValue(s: string): nat
    requires forall i :: 0 <= i < |s| ==> IsDigit(s[i])
    decreases |s|
  {
    if |s| == 0 then 0 else 10 * DigitsValue(s[..|s| - 1]) + DigitValue(s[|s| - 1])
  }

  /** Reads a decimal integer (optional leading minus, at least one digit)
      back out of a string; None when the string is not of that form. */
  function ParseDecimal(s: string): Option<int> {
    if |s| > 0 && s[0] == '-' then
      var t := s[1..];
      if |t| > 0 && forall i :: 0 <= i < |t| ==> IsDigit(t[i]) then Some(-(DigitsValue(t) as int)) else None
    else if |s| > 0 && forall i :: 0 <= i < |s| ==> IsDigit(s[i]) then Some(DigitsValue(s))
    else None
  }

  lemma {:induction false} NatStringRoundTrip(n: nat)
    ensures DigitsValue(NatString(n)) == n
    decreases n
  {
    if n >= 10 {
      var a := NatString(n / 10);
      var s := a + [DigitChar(n % 10)];
      assert s[..|s| - 1] == a;
      NatStringRoundTrip(n / 10);
      assert DigitValue(DigitChar(n % 10)) == n % 10;
    } else {
      assert DigitValue(DigitChar(n)) == n;
    }
  }

  /** The number written into the header reads back as the window length. */
  lemma {:induction false} DecimalRoundTrip(n: int)
    ensures ParseDecimal(DecimalString(n)) == Some(n)
  {
    var digits := NatString(if n < 0 then -n else n);
    NatStringRoundTrip(if n < 0 then -n else n);
    if n < 0 {
      var s := "-" + digits;
      assert s[1..] == digits;
      assert s[0] == '-';
    } else {
      assert digits[0] != '-';
    }
  }
}
