/**
 Calendar dates and the two encodings the PeopleSet message uses for them:
 integer seconds since the Unix epoch ("Seconds Since the Epoch", section
 4.16 of POSIX.1-2017 XBD) for the top-level `$time`, and the ISO 8601
 extended-format local date-time `YYYY-MM-DDThh:mm:ss` without a zone
 designator (section 4.3.2 of ISO 8601:2004) for the profile field `$created`.

 A .NET `DateTime` covers the proleptic Gregorian years 1 to 9999; its
 day count starts at 0001-01-01.
 */
module Dates {
  import opened Results

  datatype DateTime = DateTime(year: int, month: int, day: int, hour: int, minute: int, second: int)

  predicate IsLeapYear(y: int)
  {
    y % 4 == 0 && (y % 100 != 0 || y % 400 == 0)
  }

  function DaysInYear(y: int): int
  {
    if IsLeapYear(y) then 366 else 365
  }

  function DaysInMonth(y: int, m: int): int
    requires 1 <= m <= 12
  {
    if m == 2 then (if IsLeapYear(y) then 29 else 28)
    else if m == 4 || m == 6 || m == 9 || m == 11 then 30
    else 31
  }

  /** A date-time a .NET `DateTime` can hold, to whole seconds. */
  predicate Valid(d: DateTime)
  {
    && 1 <= d.year <= 9999
    && 1 <= d.month <= 12
    && 1 <= d.day <= DaysInMonth(d.year, d.month)
    && 0 <= d.hour < 24
    && 0 <= d.minute < 60
    && 0 <= d.second < 60
  }

  type ValidDateTime = d: DateTime | Valid(d) witness DateTime(1970, 1, 1, 0, 0, 0)

  /** Lexicographic order on the six fields: "`a` is an earlier instant than `b`". */
  predicate Before(a: DateTime, b: DateTime)
  {
    || a.year < b.year
    || (a.year == b.year && a.month < b.month)
    || (a.year == b.year && a.month == b.month && a.day < b.day)
    || (a.year == b.year && a.month == b.month && a.day == b.day && a.hour < b.hour)
    || (a.year == b.year && a.month == b.month && a.day == b.day && a.hour == b.hour
        && a.minute < b.minute)
    || (a.year == b.year && a.month == b.month && a.day == b.day && a.hour == b.hour
        && a.minute == b.minute && a.second < b.second)
  }

  // ---------------------------------------------------------------------------
  // Day numbers and Unix seconds
  // ---------------------------------------------------------------------------

  /** Days of year `y` before the first of month `m` (the cumulative month table). */
  function DaysBeforeMonth(y: int, m: int): int
    requires 1 <= m <= 12
  {
    [0, 31, 59, 90, 120, 151, 181, 212, 243, 273, 304, 334][m - 1]
      + (if IsLeapYear(y) && m > 2 then 1 else 0)
  }

  /** Days from 0001-01-01 to January 1 of year `y`, in closed form. */
  function DaysBeforeYear(y: int): int
    requires y >= 1
  {
    var n := y - 1;
    n * 365 + n / 4 - n / 100 + n / 400
  }

  /** Reference definition of `DaysBeforeYear`: add up the lengths of the years. */
  function DaysBeforeYearByCounting(y: int): int
    requires y >= 1
  {
    if y == 1 then 0 else DaysBeforeYearByCounting(y - 1) + DaysInYear(y - 1)
  }

  /** Days from 0001-01-01 to the date of `d`. */
  function DayNumber(d: ValidDateTime): int
  {
    DaysBeforeYear(d.year) + DaysBeforeMonth(d.year, d.month) + d.day - 1
  }

  /** The day number of 1970-01-01, the Unix epoch. */
  const UnixEpochDayNumber: int := 719162

  function SecondsOfDay(d: ValidDateTime): int
  {
    d.hour * 3600 + d.minute * 60 + d.second
  }

  /**
   Seconds since 1970-01-01T00:00:00Z, as POSIX defines them: every day counts
   86400 seconds. Negative before the epoch.
   */
  function UnixSeconds(d: ValidDateTime): int
  {
    (DayNumber(d) - UnixEpochDayNumber) * 86400 + SecondsOfDay(d)
  }

  lemma DivStep(n: int)
    requires n >= 1
    ensures n / 4 - (n - 1) / 4 == (if n % 4 == 0 then 1 else 0)
    ensures n / 100 - (n - 1) / 100 == (if n % 100 == 0 then 1 else 0)
    ensures n / 400 - (n - 1) / 400 == (if n % 400 == 0 then 1 else 0)
    ensures n % 400 == 0 ==> n % 100 == 0
    ensures n % 100 == 0 ==> n % 4 == 0
  {
  }

  lemma StepOfDaysBeforeYear(y: int)
    requires y >= 1
    ensures DaysBeforeYear(y + 1) == DaysBeforeYear(y) + DaysInYear(y)
  {
    DivStep(y);
  }

  /** The closed form agrees with counting the years one by one. */
  lemma {:induction false} DaysBeforeYearCounts(y: int)
    requires y >= 1
    ensures DaysBeforeYear(y) == DaysBeforeYearByCounting(y)
  {
    if y > 1 {
      DaysBeforeYearCounts(y - 1);
      StepOfDaysBeforeYear(y - 1);
    }
  }

  /** A whole year lies between January 1 of `y1` and January 1 of any later year. */
  lemma {:induction false} LaterYearsStartLater(y1: int, y2: int)
    requires 1 <= y1 < y2
    ensures DaysBeforeYear(y1) + DaysInYear(y1) <= DaysBeforeYear(y2)
    decreases y2
  {
    StepOfDaysBeforeYear(y2 - 1);
    if y1 < y2 - 1 {
      LaterYearsStartLater(y1, y2 - 1);
    }
  }

  /** The day of the year of a valid date lies inside its year. */
  lemma DayOfYearInRange(d: ValidDateTime)
    ensures 0 <= DaysBeforeMonth(d.year, d.month) + d.day - 1 < DaysInYear(d.year)
  {
  }

  /** A whole month lies between the first of `m1` and the first of any later month. */
  lemma LaterMonthsStartLater(y: int, m1: int, m2: int)
    requires 1 <= m1 < m2 <= 12
    ensures DaysBeforeMonth(y, m1) + DaysInMonth(y, m1) <= DaysBeforeMonth(y, m2)
  {
  }

  lemma DayNumberIncreasing(a: ValidDateTime, b: ValidDateTime)
    requires a.year < b.year || (a.year == b.year && a.month < b.month)
             || (a.year == b.year && a.month == b.month && a.day < b.day)
    ensures DayNumber(a) < DayNumber(b)
  {
    DayOfYearInRange(a);
    DayOfYearInRange(b);
    if a.year < b.year {
      LaterYearsStartLater(a.year, b.year);
    } else if a.month < b.month {
      LaterMonthsStartLater(a.year, a.month, b.month);
    }
  }

  /**
   Unix seconds preserve the order of instants: an earlier date-time always
   encodes as a strictly smaller number.
   */
  lemma UnixSecondsStrictlyIncreasing(a: ValidDateTime, b: ValidDateTime)
    requires Before(a, b)
    ensures UnixSeconds(a) < UnixSeconds(b)
  {
    if a.year != b.year || a.month != b.month || a.day != b.day {
      DayNumberIncreasing(a, b);
      var da, db := DayNumber(a) - UnixEpochDayNumber, DayNumber(b) - UnixEpochDayNumber;
      assert da * 86400 + 86400 <= db * 86400;
    }
  }

  /** Distinct date-times never share an encoding, so `$time` loses nothing. */
  lemma UnixSecondsInjective(a: ValidDateTime, b: ValidDateTime)
    requires UnixSeconds(a) == UnixSeconds(b)
    ensures a == b
  {
    if Before(a, b) {
      UnixSecondsStrictlyIncreasing(a, b);
    } else if Before(b, a) {
      UnixSecondsStrictlyIncreasing(b, a);
    }
  }

  /** Unix seconds from a day offset and the seconds into that day. */
  lemma UnixSecondsOfDays(d: ValidDateTime, days: int, seconds: int)
    requires DayNumber(d) - UnixEpochDayNumber == days && SecondsOfDay(d) == seconds
    ensures UnixSeconds(d) == days * 86400 + seconds
  {
  }

  /** 1970-01-01 is day 719162 of the .NET calendar. */
  lemma EpochDayNumber()
    ensures DayNumber(DateTime(1970, 1, 1, 0, 0, 0)) == UnixEpochDayNumber
  {
    assert 1969 / 4 == 492 && 1969 / 100 == 19 && 1969 / 400 == 4;
    assert DaysBeforeYear(1970) == 719162;
    assert DaysBeforeMonth(1970, 1) == 0;
  }

  /** The Unix epoch encodes as 0. */
  lemma UnixEpochIsZero()
    ensures UnixSeconds(DateTime(1970, 1, 1, 0, 0, 0)) == 0
  {
    EpochDayNumber();
    UnixSecondsOfDays(DateTime(1970, 1, 1, 0, 0, 0), 0, 0);
  }


  /** The `$time` of the PeopleSet test: 2013-09-26 22:33:44 UTC is 1380234824. */
  lemma UnixSecondsOfTestTime()
    ensures UnixSeconds(DateTime(2013, 9, 26, 22, 33, 44)) == 1380234824
  {
    assert 2012 / 4 == 503 && 2012 / 100 == 20 && 2012 / 400 == 5;
    assert DaysBeforeYear(2013) == 734868;
    assert 2013 % 4 == 1 && !IsLeapYear(2013);
    assert DaysBeforeMonth(2013, 9) == 243;
    var t: ValidDateTime := DateTime(2013, 9, 26, 22, 33, 44);
    assert DayNumber(t) == 735136;
    assert SecondsOfDay(t) == 81224;
    UnixSecondsOfDays(t, 735136 - UnixEpochDayNumber, 81224);
  }

  // ---------------------------------------------------------------------------
  // Zero-padded decimal digits
  // ---------------------------------------------------------------------------

  predicate IsDigit(c: char)
  {
    '0' <= c <= '9'
  }

  predicate AllDigits(s: string)
  {
    forall i :: 0 <= i < |s| ==> IsDigit(s[i])
  }

  function DigitChar(n: int): (c: char)
    requires 0 <= n <= 9
    ensures IsDigit(c)
  {
    (48 + n) as char
  }

  function DigitValue(c: char): (n: int)
    requires IsDigit(c)
    ensures 0 <= n <= 9
  {
    c as int - 48
  }

  function Pow10(w: nat): (p: nat)
    ensures p >= 1
  {
    if w == 0 then 1 else 10 * Pow10(w - 1)
  }

  /** The decimal digits of `n`, left-padded with zeros to exactly `w` characters. */
  function PadDigits(n: nat, w: nat): (s: string)
    requires n < Pow10(w)
    ensures |s| == w && AllDigits(s)
  {
    if w == 0 then ""
    else PadDigits(n / 10, w - 1) + [DigitChar(n % 10)]
  }

  /** The number a string of decimal digits denotes. */
  function DigitsValue(s: string): (n: nat)
    requires AllDigits(s)
  {
    if |s| == 0 then 0 else DigitsValue(s[..|s| - 1]) * 10 + DigitValue(s[|s| - 1])
  }

  lemma {:induction false} PadDigitsRoundTrip(n: nat, w: nat)
    requires n < Pow10(w)
    ensures DigitsValue(PadDigits(n, w)) == n
  {
    if w > 0 {
      var s := PadDigits(n, w);
      assert s[..|s| - 1] == PadDigits(n / 10, w - 1);
      PadDigitsRoundTrip(n / 10, w - 1);
    }
  }

  lemma {:induction false} DigitsValueBound(s: string)
    requires AllDigits(s)
    ensures DigitsValue(s) < Pow10(|s|)
  {
    if |s| > 0 {
      DigitsValueBound(s[..|s| - 1]);
    }
  }

  lemma {:induction false} DigitsRoundTrip(s: string)
    requires AllDigits(s)
    ensures DigitsValue(s) < Pow10(|s|)
    ensures PadDigits(DigitsValue(s), |s|) == s
  {
    DigitsValueBound(s);
    if |s| > 0 {
      var p := s[..|s| - 1];
      DigitsRoundTrip(p);
      assert DigitsValue(s) / 10 == DigitsValue(p);
      assert DigitsValue(s) % 10 == DigitValue(s[|s| - 1]);
      assert s == p + [s[|s| - 1]];
    }
  }

  // ---------------------------------------------------------------------------
  // ISO 8601 extended local date-time
  // ---------------------------------------------------------------------------

  /** `d` as `YYYY-MM-DDThh:mm:ss`: fixed width, zero padded, no zone designator. */
  function IsoDateTime(d: ValidDateTime): (s: string)
    ensures |s| == 19
  {
    PadDigits(d.year, 4) + "-" + PadDigits(d.month, 2) + "-" + PadDigits(d.day, 2)
      + "T" + PadDigits(d.hour, 2) + ":" + PadDigits(d.minute, 2) + ":" + PadDigits(d.second, 2)
  }

  /** The separators and digit positions of `YYYY-MM-DDThh:mm:ss`. */
  predicate IsoShaped(s: string)
  {
    && |s| == 19
    && s[4] == '-' && s[7] == '-' && s[10] == 'T' && s[13] == ':' && s[16] == ':'
    && AllDigits(s[0..4]) && AllDigits(s[5..7]) && AllDigits(s[8..10])
    && AllDigits(s[11..13]) && AllDigits(s[14..16]) && AllDigits(s[17..19])
  }

  /** Reads a `YYYY-MM-DDThh:mm:ss` string back; `None` unless it names a valid date-time. */
  function ParseIsoDateTime(s: string): Option<ValidDateTime>
  {
    if !IsoShaped(s) then None
    else
      var d := DateTime(DigitsValue(s[0..4]), DigitsValue(s[5..7]), DigitsValue(s[8..10]),
                        DigitsValue(s[11..13]), DigitsValue(s[14..16]), DigitsValue(s[17..19]));
      if Valid(d) then Some(d) else None
  }

  /** Each field of the rendering sits at its fixed position. */
  lemma IsoDateTimeFields(d: ValidDateTime)
    ensures var s := IsoDateTime(d);
      && s[0..4] == PadDigits(d.year, 4) && s[4] == '-'
      && s[5..7] == PadDigits(d.month, 2) && s[7] == '-'
      && s[8..10] == PadDigits(d.day, 2) && s[10] == 'T'
      && s[11..13] == PadDigits(d.hour, 2) && s[13] == ':'
      && s[14..16] == PadDigits(d.minute, 2) && s[16] == ':'
      && s[17..19] == PadDigits(d.second, 2)
  {
  }

  /** Rendering then reading gives back the same date-time. */
  lemma IsoDateTimeRoundTrip(d: ValidDateTime)
    ensures IsoShaped(IsoDateTime(d))
    ensures ParseIsoDateTime(IsoDateTime(d)) == Some(d)
  {
    IsoDateTimeFields(d);
    PadDigitsRoundTrip(d.year, 4);
    PadDigitsRoundTrip(d.month, 2);
    PadDigitsRoundTrip(d.day, 2);
    PadDigitsRoundTrip(d.hour, 2);
    PadDigitsRoundTrip(d.minute, 2);
    PadDigitsRoundTrip(d.second, 2);
  }

  /** Every string the reader accepts is exactly the rendering of what it read. */
  lemma ParseIsoDateTimeInverse(s: string)
    requires ParseIsoDateTime(s).Some?
    ensures IsoDateTime(ParseIsoDateTime(s).value) == s
  {
    var d := ParseIsoDateTime(s).value;
    DigitsRoundTrip(s[0..4]);
    DigitsRoundTrip(s[5..7]);
    DigitsRoundTrip(s[8..10]);
    DigitsRoundTrip(s[11..13]);
    DigitsRoundTrip(s[14..16]);
    DigitsRoundTrip(s[17..19]);
    assert s == s[0..4] + "-" + s[5..7] + "-" + s[8..10] + "T" + s[11..13] + ":" + s[14..16]
                + ":" + s[17..19];
  }

  /** The zero-padded fields of the PeopleSet test's creation date. */
  lemma TestCreatedFields()
    ensures PadDigits(2013, 4) == "2013"
    ensures PadDigits(5, 2) == "05" && PadDigits(12, 2) == "12"
    ensures PadDigits(11, 2) == "11" && PadDigits(10, 2) == "10" && PadDigits(9, 2) == "09"
  {
    // One literal at a time: unfolding them all at once is far more expensive.
    assert PadDigits(2013, 4) == "2013";
    assert PadDigits(5, 2) == "05";
    assert PadDigits(12, 2) == "12";
    assert PadDigits(11, 2) == "11";
    assert PadDigits(10, 2) == "10";
  }

  /** The `$created` of the PeopleSet test: 2013-05-12 11:10:09 renders as "2013-05-12T11:10:09". */
  lemma IsoDateTimeOfTestCreated()
    ensures IsoDateTime(DateTime(2013, 5, 12, 11, 10, 9)) == "2013-05-12T11:10:09"
  {
    var d: ValidDateTime := DateTime(2013, 5, 12, 11, 10, 9);
    TestCreatedFields();
    assert IsoDateTime(d) == "2013" + "-" + "05" + "-" + "12" + "T" + "11" + ":" + "10" + ":" + "09";
  }
}
