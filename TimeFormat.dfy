/** `formatHoldingTime` (src/utils/time.ts): a holding time in milliseconds
    shown as whole hours and minutes, `"<h>h <m>m"`, or a dash when there is
    no holding time. The argument is a JavaScript number, modelled as a
    `real`; `Math.floor`, the truncating `%` and number-to-string
    conversion of whole numbers are written out. */
module TimeFormat {

  import opened Options
  import opened Seqs

  /** 1000 * 60 * 60 */
  const MsPerHour: int := 3600000
  /** 1000 * 60 */
  const MsPerMinute: int := 60000

  /** The em dash shown for a missing or zero holding time. */
  const Placeholder: string := "\U{2014}"

  /** The placeholder literal as the source file spells it: the three
      characters that the UTF-8 bytes of an em dash (E2 80 94) become when
      read as Windows-1252. */
  const PlaceholderAsWritten: string := "\U{E2}\U{20AC}\U{201D}"

  /* ---------------- Whole numbers as decimal text ---------------- */

  predicate IsDigit(c: char) {
    '0' <= c <= '9'
  }

  predicate AllDigits(s: string) {
    forall i :: 0 <= i < |s| ==> IsDigit(s[i])
  }

  function DigitChar(d: nat): (c: char)
    requires d < 10
    ensures IsDigit(c)
  {
    "0123456789"[d]
  }

  function DigitValue(c: char): nat
    requires IsDigit(c)
  {
    (c as int) - ('0' as int)
  }

  /** The decimal text of `n`, without leading zeros. */
  function NatToString(n: nat): (s: string)
    ensures |s| >= 1 && AllDigits(s)
    ensures s[0] == '0' ==> n == 0
  {
    if n < 10 then [DigitChar(n)] else NatToString(n / 10) + [DigitChar(n % 10)]
  }

  /** The number a string of decimal digits denotes. */
  function DigitsValue(s: string): nat
    requires AllDigits(s)
  {
    if s == [] then 0 else 10 * DigitsValue(s[..|s| - 1]) + DigitValue(s[|s| - 1])
  }

  lemma {:induction false} NatToStringValue(n: nat)
    ensures DigitsValue(NatToString(n)) == n
  {
    if n >= 10 {
      NatToStringValue(n / 10);
      var s := NatToString(n);
      assert s[..|s| - 1] == NatToString(n / 10);
    }
  }

  /** Text made only of digits and minus signs. */
  predicate IsNumeral(s: string) {
    forall k :: 0 <= k < |s| ==> s[k] == '-' || IsDigit(s[k])
  }

  /** `${i}` for a whole number `i`. */
  function IntToString(i: int): (s: string)
    ensures |s| >= 1 && IsNumeral(s)
  {
    if i < 0 then "-" + NatToString(-i) else NatToString(i)
  }

  /** Numeral text holds none of the characters that frame the hours and
      minutes in a holding time. */
  lemma NumeralHasNoMarks(s: string)
    requires IsNumeral(s)
    ensures 'h' !in s && 'm' !in s && ' ' !in s
  {
    forall k | 0 <= k < |s|
      ensures s[k] != 'h' && s[k] != 'm' && s[k] != ' '
    {
      assert s[k] == '-' || IsDigit(s[k]);
    }
  }

  /** Reads back what `IntToString` writes. */
  function ParseInt(s: string): Option<int> {
    if |s| >= 2 && s[0] == '-' && AllDigits(s[1..]) then Some(0 - DigitsValue(s[1..]))
    else if |s| >= 1 && AllDigits(s) then Some(DigitsValue(s))
    else None
  }

  lemma IntToStringRoundTrip(i: int)
    ensures ParseInt(IntToString(i)) == Some(i)
  {
    if i < 0 {
      NegativeRoundTrip(i);
    } else {
      NonNegativeRoundTrip(i);
    }
  }

  lemma NonNegativeRoundTrip(n: nat)
    ensures ParseInt(NatToString(n)) == Some(n)
  {
    var s := NatToString(n);
    NatToStringValue(n);
    assert s[0] != '-' by {
      assert IsDigit(s[0]);
    }
  }

  lemma NegativeRoundTrip(i: int)
    requires i < 0
    ensures ParseInt("-" + NatToString(-i)) == Some(i)
  {
    NatToStringValue(-i);
    ParseSigned(NatToString(-i));
  }

  /** A minus sign before a run of digits reads as the negated value. */
  lemma ParseSigned(t: string)
    requires |t| >= 1 && AllDigits(t)
    ensures ParseInt("-" + t) == Some(0 - DigitsValue(t))
  {
    var s := "-" + t;
    assert s[1..] == t;
  }

  /* ---------------- JavaScript arithmetic ---------------- */

  /** `Math.trunc`, which is what `%` rounds its quotient with. */
  function Trunc(x: real): int {
    if x >= 0.0 then x.Floor else -((-x).Floor)
  }

  /** JavaScript's `x % d` for `d > 0`: the remainder takes the sign of `x`. */
  function JsRem(x: real, d: real): real
    requires d > 0.0
  {
    x - d * (Trunc(x / d) as real)
  }

  /** `Math.floor(ms / (1000 * 60 * 60))` */
  function Hours(ms: real): (h: int)
    ensures (h as real) * 3600000.0 <= ms < (h as real + 1.0) * 3600000.0
  {
    (ms / (MsPerHour as real)).Floor
  }

  /** `Math.floor((ms % (1000 * 60 * 60)) / (1000 * 60))` */
  function Minutes(ms: real): (m: int)
    ensures (m as real) * 60000.0 <= JsRem(ms, 3600000.0) < (m as real + 1.0) * 60000.0
  {
    (JsRem(ms, MsPerHour as real) / (MsPerMinute as real)).Floor
  }

  /** `formatHoldingTime(ms)`: `None` stands for `null`; `!ms` also holds
      for 0, which shows the placeholder too. */
  function FormatHoldingTime(ms: Option<real>): (s: string)
    ensures s == Placeholder <==> ms.None? || ms.value == 0.0
  {
    if ms.None? || ms.value == 0.0 then Placeholder
    else IntToString(Hours(ms.value)) + "h " + IntToString(Minutes(ms.value)) + "m"
  }

  /** The formatter with the placeholder literal as written. Every time
      other than 0 is shown as by `FormatHoldingTime`; a missing or zero
      time shows three stray characters instead of a dash. */
  function FormatHoldingTimeAsWritten(ms: Option<real>): (s: string)
    ensures ms.Some? && ms.value != 0.0 ==> s == FormatHoldingTime(ms)
    ensures ms.None? || ms.value == 0.0 ==> |s| == 3 && s != FormatHoldingTime(ms)
  {
    if ms.None? || ms.value == 0.0 then PlaceholderAsWritten
    else IntToString(Hours(ms.value)) + "h " + IntToString(Minutes(ms.value)) + "m"
  }

  /** With the literal as written, a trade without a holding time shows
      "â€" followed by a right double quote, not a dash. */
  lemma PlaceholderAsWrittenIsNotADash()
    ensures FormatHoldingTimeAsWritten(None) == "\U{E2}\U{20AC}\U{201D}"
    ensures FormatHoldingTime(None) == "\U{2014}"
    ensures |FormatHoldingTime(None)| == 1
  {
  }

  /* ---------------- What the formatter shows ---------------- */

  /** Dividing by an hour and rounding down sees only the whole
      milliseconds. */
  lemma FloorHours(x: real)
    requires x >= 0.0
    ensures (x / 3600000.0).Floor == x.Floor / 3600000
  {
    var n := x.Floor;
    var q := n / 3600000;
    assert q * 3600000 <= n < q * 3600000 + 3600000;
    assert (q as real) * 3600000.0 <= x < (q as real) * 3600000.0 + 3600000.0;
    assert (q as real) <= x / 3600000.0 < (q as real) + 1.0;
  }

  lemma FloorMinutes(y: real)
    requires y >= 0.0
    ensures (y / 60000.0).Floor == y.Floor / 60000
  {
    var n := y.Floor;
    var q := n / 60000;
    assert q * 60000 <= n < q * 60000 + 60000;
    assert (q as real) * 60000.0 <= y < (q as real) * 60000.0 + 60000.0;
    assert (q as real) <= y / 60000.0 < (q as real) + 1.0;
  }

  /** For a non-negative time the hours are the whole hours in it and the
      minutes the whole minutes left over, so the two together are the time
      rounded down to the minute. */
  lemma HoldingTimeParts(ms: real)
    requires ms >= 0.0
    ensures Hours(ms) == ms.Floor / MsPerHour
    ensures Minutes(ms) == (ms.Floor % MsPerHour) / MsPerMinute
    ensures Hours(ms) >= 0 && 0 <= Minutes(ms) <= 59
    ensures (Hours(ms) * MsPerHour + Minutes(ms) * MsPerMinute) as real <= ms
    ensures ms < (Hours(ms) * MsPerHour + (Minutes(ms) + 1) * MsPerMinute) as real
  {
    var n := ms.Floor;
    var q, r := n / MsPerHour, n % MsPerHour;
    var a := r / MsPerMinute;
    FloorHours(ms);
    assert Hours(ms) == q;
    assert Trunc(ms / (MsPerHour as real)) == q;
    var rem := JsRem(ms, MsPerHour as real);
    assert rem == ms - (q as real) * 3600000.0;
    assert rem.Floor == r by {
      assert n == q * MsPerHour + r;
      assert (r as real) <= rem < (r as real) + 1.0;
    }
    FloorMinutes(rem);
    assert Minutes(ms) == a;
    assert 0 <= a <= 59;
    assert (q * MsPerHour + a * MsPerMinute) as real <= ms;
    assert ms < (q * MsPerHour + (a + 1) * MsPerMinute) as real by {
      assert r < a * MsPerMinute + MsPerMinute;
      assert n + 1 <= q * MsPerHour + (a + 1) * MsPerMinute;
    }
  }

  /** For a whole number of milliseconds the output is the integer
      decomposition `ms div 3600000` hours and `(ms mod 3600000) div 60000`
      minutes. */
  lemma HoldingTimeOfWholeMs(ms: nat)
    ensures FormatHoldingTime(Some(ms as real))
         == if ms == 0 then Placeholder
            else NatToString(ms / MsPerHour) + "h " + NatToString(ms % MsPerHour / MsPerMinute) + "m"
  {
    HoldingTimeParts(ms as real);
  }

  /** A fractional time of at least one millisecond shows what its whole
      milliseconds show. */
  lemma HoldingTimeOfFraction(ms: real)
    requires ms >= 1.0
    ensures FormatHoldingTime(Some(ms)) == FormatHoldingTime(Some(ms.Floor as real))
  {
    HoldingTimeParts(ms);
    HoldingTimeParts(ms.Floor as real);
  }

  /** Below one millisecond the dash is not shown: `!ms` is false for any
      non-zero number, so 0.5 ms reads "0h 0m" while 0 ms reads as the dash. */
  lemma HoldingTimeBelowOneMs(ms: real)
    requires 0.0 < ms < 1.0
    ensures FormatHoldingTime(Some(ms)) == "0h 0m"
  {
    HoldingTimeParts(ms);
  }

  predicate IsHourMark(c: char) {
    c == 'h'
  }

  /** The first `h` of a text that has none before `|head|`. */
  lemma FindHourMark(head: string, tail: string)
    requires 'h' !in head && tail != [] && tail[0] == 'h'
    ensures FindIndex(head + tail, IsHourMark) == Some(|head|)
  {
    var s := head + tail;
    assert s[|head|] == 'h';
    assert forall j :: 0 <= j < |head| ==> s[j] == head[j];
  }

  /** Reads an `"<h>h <m>m"` text back into its hours and minutes. */
  function ParseHoldingTime(s: string): Option<(int, int)> {
    match FindIndex(s, IsHourMark)
    case None => None
    case Some(k) =>
      if k + 2 < |s| && s[k + 1] == ' ' && s[|s| - 1] == 'm' then
        match (ParseInt(s[..k]), ParseInt(s[k + 2..|s| - 1]))
        case (Some(h), Some(m)) => Some((h, m))
        case _ => None
      else None
  }

  /** Any hours and minutes written as `"<h>h <m>m"` read back as
      themselves. */
  lemma HoursMinutesReadBack(h: int, m: int)
    ensures ParseHoldingTime(IntToString(h) + "h " + IntToString(m) + "m") == Some((h, m))
  {
    var hs, mins := IntToString(h), IntToString(m);
    NumeralHasNoMarks(hs);
    HoldingTextParts(hs, mins);
    IntToStringRoundTrip(h);
    IntToStringRoundTrip(m);
  }

  /** Where `"<hs>h <mins>m"` puts its parts, when `hs` has no `h`. */
  lemma HoldingTextParts(hs: string, mins: string)
    requires 'h' !in hs
    ensures var s := hs + "h " + mins + "m";
      && FindIndex(s, IsHourMark) == Some(|hs|)
      && |hs| + 2 < |s| && s[|hs| + 1] == ' ' && s[|s| - 1] == 'm'
      && s[..|hs|] == hs && s[|hs| + 2..|s| - 1] == mins
  {
    var tail := "h " + mins + "m";
    var s := hs + tail;
    assert s == hs + "h " + mins + "m";
    FindHourMark(hs, tail);
    assert s[..|hs|] == hs;
    assert s[|hs| + 2..|s| - 1] == mins;
  }

  /** The formatted text determines the hours and minutes it was made from,
      and the placeholder is not mistaken for a time. */
  lemma FormatHoldingTimeReadsBack(ms: real)
    requires ms != 0.0
    ensures ParseHoldingTime(FormatHoldingTime(Some(ms))) == Some((Hours(ms), Minutes(ms)))
    ensures ParseHoldingTime(Placeholder) == None
  {
    HoursMinutesReadBack(Hours(ms), Minutes(ms));
    assert FindIndex(Placeholder, IsHourMark) == None by {
      assert Placeholder[0] != 'h' && |Placeholder| == 1;
    }
  }
}
