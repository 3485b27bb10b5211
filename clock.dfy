/** The timestamp every response carries: the current UTC instant rendered with
    the Go layout "2006-01-02T15:04:05.000" followed by a literal 'Z'
    (output.go lines 117 and 157). The clock itself is not modelled: callers
    pass the instant in. */
module Clock {
  import opened Text
  import opened Wrappers

  /** A UTC instant as the civil-time fields that `time.Format` reads. */
  datatype Instant = Instant(
    year: nat, month: nat, day: nat,
    hour: nat, minute: nat, second: nat, nanosecond: nat)

  predicate IsLeapYear(y: nat) {
    y % 4 == 0 && (y % 100 != 0 || y % 400 == 0)
  }

  function DaysIn(month: nat, year: nat): nat
    requires 1 <= month <= 12
  {
    if month == 2 then (if IsLeapYear(year) then 29 else 28)
    else if month == 4 || month == 6 || month == 9 || month == 11 then 30
    else 31
  }

  /** The instants a UTC clock can report. */
  predicate ValidInstant(t: Instant) {
    && 1 <= t.month <= 12
    && 1 <= t.day <= DaysIn(t.month, t.year)
    && t.hour < 24 && t.minute < 60 && t.second < 60
    && t.nanosecond < 1_000_000_000
  }

  /** The ".000" element of the layout shows the fraction of the second
      truncated to whole milliseconds. */
  function Millisecond(t: Instant): nat {
    t.nanosecond / 1_000_000
  }

  /** The "2006-01-02" part of the layout. */
  function DatePart(t: Instant): string {
    Pad(t.year, 4) + "-" + Pad(t.month, 2) + "-" + Pad(t.day, 2)
  }

  /** The "15:04:05.000" part of the layout. */
  function TimePart(t: Instant): string {
    Pad(t.hour, 2) + ":" + Pad(t.minute, 2) + ":" + Pad(t.second, 2) + "." + Pad(Millisecond(t), 3)
  }

  /** `time.Now().UTC().Format("2006-01-02T15:04:05.000") + "Z"` for the instant `t`. */
  function Timestamp(t: Instant): (s: string)
    ensures |s| >= 24 && s[|s| - 1] == 'Z'
    ensures IsDigit(s[0])
  {
    DatePart(t) + "T" + TimePart(t) + "Z"
  }

  /** A timestamp is never blank, so Send's blank test never replaces one. */
  lemma TimestampNotBlank(t: Instant)
    ensures !IsBlank(Timestamp(t))
  {
    var s := Timestamp(t);
    assert IsDigit(s[0]);
    NotBlankAt(s, 0);
  }

  /** Text of the form YYYY-MM-DDTHH:MM:SS.sssZ. */
  predicate IsTimestampText(s: string) {
    && |s| == 24
    && s[4] == '-' && s[7] == '-' && s[10] == 'T'
    && s[13] == ':' && s[16] == ':' && s[19] == '.' && s[23] == 'Z'
    && AllDigits(s[0..4]) && AllDigits(s[5..7]) && AllDigits(s[8..10])
    && AllDigits(s[11..13]) && AllDigits(s[14..16]) && AllDigits(s[17..19])
    && AllDigits(s[20..23])
  }

  /** What a client reads back from a timestamp. */
  datatype Reading = Reading(
    year: nat, month: nat, day: nat,
    hour: nat, minute: nat, second: nat, millisecond: nat)

  /** The reader that is the partner of `Timestamp`. */
  function ParseTimestamp(s: string): (r: Option<Reading>)
    ensures r.Some? <==> IsTimestampText(s)
  {
    if IsTimestampText(s) then
      Some(Reading(
        ParseDigits(s[0..4]), ParseDigits(s[5..7]), ParseDigits(s[8..10]),
        ParseDigits(s[11..13]), ParseDigits(s[14..16]), ParseDigits(s[17..19]),
        ParseDigits(s[20..23])))
    else None
  }

  /** Where the seven fields of "2006-01-02T15:04:05.000Z" sit, for fields of
      the layout's widths. */
  lemma LayoutSlices(y: string, m: string, d: string, h: string, mi: string, sc: string, ms: string)
    requires |y| == 4 && |m| == 2 && |d| == 2 && |h| == 2 && |mi| == 2 && |sc| == 2 && |ms| == 3
    ensures var s := (y + "-" + m + "-" + d) + "T" + (h + ":" + mi + ":" + sc + "." + ms) + "Z";
      && |s| == 24
      && s[0..4] == y && s[5..7] == m && s[8..10] == d
      && s[11..13] == h && s[14..16] == mi && s[17..19] == sc && s[20..23] == ms
      && s[4] == '-' && s[7] == '-' && s[10] == 'T'
      && s[13] == ':' && s[16] == ':' && s[19] == '.' && s[23] == 'Z'
  {

  }

  /** For a year of at most four digits, the timestamp has the fixed
      24-character shape ending in 'Z', and each field sits at its place. */
  lemma TimestampFields(t: Instant)
    requires ValidInstant(t) && t.year < 10000
    ensures var s := Timestamp(t);
      && |s| == 24
      && s[0..4] == Pad(t.year, 4) && s[5..7] == Pad(t.month, 2) && s[8..10] == Pad(t.day, 2)
      && s[11..13] == Pad(t.hour, 2) && s[14..16] == Pad(t.minute, 2)
      && s[17..19] == Pad(t.second, 2) && s[20..23] == Pad(Millisecond(t), 3)
      && s[4] == '-' && s[7] == '-' && s[10] == 'T'
      && s[13] == ':' && s[16] == ':' && s[19] == '.' && s[23] == 'Z'
  {
    assert Pow10(2) == 100 && Pow10(3) == 1000 && Pow10(4) == 10000;
    assert Millisecond(t) < 1000;
    PadLength(t.year, 4);
    PadLength(t.month, 2);
    PadLength(t.day, 2);
    PadLength(t.hour, 2);
    PadLength(t.minute, 2);
    PadLength(t.second, 2);
    PadLength(Millisecond(t), 3);
    LayoutSlices(Pad(t.year, 4), Pad(t.month, 2), Pad(t.day, 2),
                 Pad(t.hour, 2), Pad(t.minute, 2), Pad(t.second, 2), Pad(Millisecond(t), 3));
  }

  /** For a year of at most four digits, the timestamp has the fixed
      24-character shape ending in 'Z'. */
  lemma TimestampShape(t: Instant)
    requires ValidInstant(t) && t.year < 10000
    ensures IsTimestampText(Timestamp(t))
  {
    TimestampFields(t);
  }

  /** Reading a timestamp back gives the instant's fields, to the millisecond. */
  lemma TimestampRoundTrip(t: Instant)
    requires ValidInstant(t) && t.year < 10000
    ensures ParseTimestamp(Timestamp(t)) == Some(Reading(
      t.year, t.month, t.day, t.hour, t.minute, t.second, Millisecond(t)))
  {
    TimestampFields(t);
    PadRoundTrip(t.year, 4);
    PadRoundTrip(t.month, 2);
    PadRoundTrip(t.day, 2);
    PadRoundTrip(t.hour, 2);
    PadRoundTrip(t.minute, 2);
    PadRoundTrip(t.second, 2);
    PadRoundTrip(Millisecond(t), 3);
  }

  /** The round trip, for any instant a UTC clock reports before the year 10000. */
  lemma TimestampReadable(t: Instant)
    ensures ValidInstant(t) && t.year < 10000 ==>
      ParseTimestamp(Timestamp(t)) == Some(Reading(
        t.year, t.month, t.day, t.hour, t.minute, t.second, Millisecond(t)))
  {
    if ValidInstant(t) && t.year < 10000 {
      TimestampRoundTrip(t);
    }
  }

  /** From the year 10000 on, the year field grows and the fixed shape is lost. */
  lemma WideYearTimestamp(t: Instant)
    requires 10000 <= t.year
    ensures !IsTimestampText(Timestamp(t))
  {
    DigitsRoundTrip(t.year);
    assert |Digits(t.year)| > 4;
    assert |Pad(t.year, 4)| > 4;
    assert |DatePart(t)| > 10;
    assert |TimePart(t)| >= 12;
    assert |Timestamp(t)| == |DatePart(t)| + |TimePart(t)| + 2;
  }
}
