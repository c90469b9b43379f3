/**
 * Wall-clock values shared by the booking code.
 *
 * A time of day is a number of minutes since midnight (Django's TimeField with
 * the seconds always zero), a calendar date is a day number, and an instant
 * (`timezone.now()`) is a number of seconds since the start of day 0. The
 * strftime formats the code uses (`%H:%M`, `%I:%M %p`) and Python's rendering
 * of a non-negative integer are modelled here together with parsers that
 * invert them.
 */
module Clock {
  import opened Wrappers

  const MinutesPerDay: int := 1440
  const SecondsPerDay: int := 86400

  predicate IsTimeOfDay(t: int) {
    0 <= t < MinutesPerDay
  }

  /** The calendar date of an instant, as `datetime.date()` gives it. */
  function DateOf(instant: int): int {
    instant / SecondsPerDay
  }

  /** Seconds since midnight of an instant, as `datetime.time()` gives it. */
  function SecondOfDay(instant: int): (r: int)
    ensures 0 <= r < SecondsPerDay
  {
    instant % SecondsPerDay
  }

  /** The instant `datetime.combine(date, time)` denotes. */
  function At(date: int, minute: int): int {
    date * SecondsPerDay + minute * 60
  }

  lemma AtSplits(date: int, minute: int)
    requires IsTimeOfDay(minute)
    ensures DateOf(At(date, minute)) == date
    ensures SecondOfDay(At(date, minute)) == minute * 60
  {
  }

  // ---------------------------------------------------------------------------
  // Digits

  predicate IsDigit(c: char) {
    '0' <= c <= '9'
  }

  predicate AllDigits(s: string) {
    forall i :: 0 <= i < |s| ==> IsDigit(s[i])
  }

  function DigitChar(d: int): (c: char)
    requires 0 <= d < 10
    ensures IsDigit(c) && DigitValue(c) == d
  {
    ('0' as int + d) as char
  }

  function DigitValue(c: char): (d: int)
    requires IsDigit(c)
    ensures 0 <= d < 10
  {
    c as int - '0' as int
  }

  /** Two zero-padded decimal digits (`%02d`). */
  function Pad2(n: int): (r: string)
    requires 0 <= n < 100
    ensures |r| == 2 && AllDigits(r)
    ensures DigitValue(r[0]) * 10 + DigitValue(r[1]) == n
  {
    [DigitChar(n / 10), DigitChar(n % 10)]
  }

  function Unpad2(s: string): int
    requires |s| == 2 && AllDigits(s)
  {
    DigitValue(s[0]) * 10 + DigitValue(s[1])
  }

  // ---------------------------------------------------------------------------
  // 24-hour "%H:%M"

  /** `strftime('%H:%M')` of a time of day. */
  function FormatHHMM(t: int): (r: string)
    requires IsTimeOfDay(t)
    ensures |r| == 5 && r[2] == ':'
    ensures AllDigits(r[..2]) && AllDigits(r[3..])
  {
    Pad2(t / 60) + ":" + Pad2(t % 60)
  }

  function ParseHHMM(s: string): Option<int> {
    if |s| == 5 && s[2] == ':' && AllDigits(s[..2]) && AllDigits(s[3..]) then
      var h, m := Unpad2(s[..2]), Unpad2(s[3..]);
      if h < 24 && m < 60 then Some(h * 60 + m) else None
    else
      None
  }

  /** "%H:%M" is read back to the same time of day. */
  lemma HHMMRoundTrip(t: int)
    requires IsTimeOfDay(t)
    ensures ParseHHMM(FormatHHMM(t)) == Some(t)
  {
    var s := FormatHHMM(t);
    assert s[..2] == Pad2(t / 60);
    assert s[3..] == Pad2(t % 60);
  }

  /** Distinct times of day have distinct "%H:%M" strings. */
  lemma HHMMInjective(t1: int, t2: int)
    requires IsTimeOfDay(t1) && IsTimeOfDay(t2)
    ensures FormatHHMM(t1) == FormatHHMM(t2) <==> t1 == t2
  {
    HHMMRoundTrip(t1);
    HHMMRoundTrip(t2);
  }

  // ---------------------------------------------------------------------------
  // 12-hour "%I:%M %p"

  /** The `%I` hour: 1..12, where midnight and noon are 12. */
  function Hour12(h: int): (r: int)
    requires 0 <= h < 24
    ensures 1 <= r <= 12
    ensures r % 12 == h % 12
  {
    if h % 12 == 0 then 12 else h % 12
  }

  /** `strftime('%I:%M %p')` of a time of day. */
  function Format12(t: int): (r: string)
    requires IsTimeOfDay(t)
    ensures |r| == 8 && r[2] == ':' && r[5] == ' '
    ensures r[6..] == (if t < 720 then "AM" else "PM")
  {
    Pad2(Hour12(t / 60)) + ":" + Pad2(t % 60) + " " + (if t / 60 < 12 then "AM" else "PM")
  }

  function Parse12(s: string): Option<int> {
    if |s| == 8 && s[2] == ':' && s[5] == ' ' && AllDigits(s[..2]) && AllDigits(s[3..5])
       && (s[6..] == "AM" || s[6..] == "PM") then
      var h12, m := Unpad2(s[..2]), Unpad2(s[3..5]);
      if 1 <= h12 <= 12 && m < 60 then
        var h := if s[6..] == "AM" then h12 % 12 else h12 % 12 + 12;
        Some(h * 60 + m)
      else
        None
    else
      None
  }

  /** "%I:%M %p" loses nothing: it is read back to the same time of day. */
  lemma Format12RoundTrip(t: int)
    requires IsTimeOfDay(t)
    ensures Parse12(Format12(t)) == Some(t)
  {
    var s := Format12(t);
    assert s[..2] == Pad2(Hour12(t / 60));
    assert s[3..5] == Pad2(t % 60);
  }

  // ---------------------------------------------------------------------------
  // Decimal rendering of a non-negative integer (`str(n)` / f-string `{n}`)

  function NatToString(n: nat): (r: string)
    ensures |r| >= 1 && AllDigits(r)
    decreases n
  {
    if n < 10 then [DigitChar(n)] else NatToString(n / 10) + [DigitChar(n % 10)]
  }

  function ParseNat(s: string): nat
    requires AllDigits(s)
    decreases |s|
  {
    if s == [] then 0 else ParseNat(s[..|s| - 1]) * 10 + DigitValue(s[|s| - 1])
  }

  lemma {:induction false} NatToStringRoundTrip(n: nat)
    ensures ParseNat(NatToString(n)) == n
    decreases n
  {
    if n >= 10 {
      var s := NatToString(n);
      assert s[..|s| - 1] == NatToString(n / 10);
      NatToStringRoundTrip(n / 10);
    }
  }

  /** The leading run of digits of a string. */
  function DigitPrefixLength(s: string): (k: nat)
    ensures k <= |s| && AllDigits(s[..k])
    ensures k < |s| ==> !IsDigit(s[k])
    decreases |s|
  {
    if s != [] && IsDigit(s[0]) then
      var k := 1 + DigitPrefixLength(s[1..]);
      assert s[..k] == [s[0]] + s[1..][..k - 1];
      k
    else
      0
  }

  lemma {:induction false} DigitPrefixOfDigits(d: string, tail: string)
    requires AllDigits(d)
    requires tail == [] || !IsDigit(tail[0])
    ensures DigitPrefixLength(d + tail) == |d|
    decreases |d|
  {
    if d != [] {
      assert (d + tail)[1..] == d[1..] + tail;
      DigitPrefixOfDigits(d[1..], tail);
    }
  }
}
