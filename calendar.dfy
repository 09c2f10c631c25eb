/** The slice of .NET's `DateTime`/`DateTimeOffset` that the archiver uses: turning Unix
    seconds into a UTC calendar time, reading its civil fields, and the two custom formats
    "yyyy-MM-ddTHH:mm:ssZ" and "yyyy-MM". Decimal digits are read and written here too. */
module Calendar {

  // ---------------------------------------------------------------------------------------
  // Decimal digits
  // ---------------------------------------------------------------------------------------

  predicate IsDigit(c: char) {
    '0' <= c <= '9'
  }

  predicate AllDigits(s: string) {
    forall i :: 0 <= i < |s| ==> IsDigit(s[i])
  }

  function DigitValue(c: char): nat
    requires IsDigit(c)
  {
    (c as int) - ('0' as int)
  }

  function DigitChar(d: nat): (c: char)
    requires d < 10
    ensures IsDigit(c) && DigitValue(c) == d
  {
    (('0' as int) + d) as char
  }

  function Pow10(width: nat): (r: nat)
    ensures r >= 1
  {
    if width == 0 then 1 else 10 * Pow10(width - 1)
  }

  /** The value of a string of decimal digits, read most significant digit first
      (what `long.Parse` returns for such a string). */
  function ParseDecimal(s: string): nat
    requires AllDigits(s)
  {
    if s == [] then 0 else 10 * ParseDecimal(s[..|s| - 1]) + DigitValue(s[|s| - 1])
  }

  /** `n` written with exactly `width` digits, zero-padded on the left: the custom format
      specifiers "yyyy" (width 4) and "MM", "dd", "HH", "mm", "ss" (width 2). */
  function Pad(n: nat, width: nat): (s: string)
    ensures |s| == width && AllDigits(s)
  {
    if width == 0 then [] else Pad(n / 10, width - 1) + [DigitChar(n % 10)]
  }

  /** Reading back a padded number gives the number, whenever it fits in the width. */
  lemma {:induction false} ParsePad(n: nat, width: nat)
    requires n < Pow10(width)
    ensures ParseDecimal(Pad(n, width)) == n
  {
    if width > 0 {
      var s := Pad(n, width);
      var front := Pad(n / 10, width - 1);
      var last := DigitChar(n % 10);
      assert s == front + [last];
      assert s[..|s| - 1] == front && s[|s| - 1] == last;
      DivModTen(n, Pow10(width - 1));
      ParsePad(n / 10, width - 1);
    }
  }

  lemma DivModTen(n: nat, p: nat)
    requires n < 10 * p
    ensures n / 10 < p && 10 * (n / 10) + n % 10 == n
  {
  }

  // ---------------------------------------------------------------------------------------
  // The proleptic Gregorian calendar
  // ---------------------------------------------------------------------------------------

  predicate IsLeapYear(y: int) {
    y % 4 == 0 && (y % 100 != 0 || y % 400 == 0)
  }

  function DaysInYear(y: int): nat {
    if IsLeapYear(y) then 366 else 365
  }

  function DaysInMonth(y: int, m: int): nat
    requires 1 <= m <= 12
  {
    if m == 2 then (if IsLeapYear(y) then 29 else 28)
    else if m == 4 || m == 6 || m == 9 || m == 11 then 30
    else 31
  }

  /** Days from 0001-01-01 to January 1 of year `y`. */
  function DaysBeforeYear(y: int): int
    requires y >= 1
  {
    var n := y - 1;
    365 * n + n / 4 - n / 100 + n / 400
  }

  /** Days from January 1 of year `y` to day 1 of month `m` (13 stands for the next year). */
  function DaysBeforeMonth(y: int, m: int): nat
    requires 1 <= m <= 13
  {
    var cumulative := [0, 31, 59, 90, 120, 151, 181, 212, 243, 273, 304, 334, 365];
    cumulative[m - 1] + (if IsLeapYear(y) && m > 2 then 1 else 0)
  }

  /** Going from `n` to `n + 1` adds one multiple of `d` exactly when `n + 1` is one. */
  lemma DivisionStep4(n: nat)
    ensures (n + 1) / 4 == n / 4 + (if (n + 1) % 4 == 0 then 1 else 0)
  {
  }

  lemma DivisionStep100(n: nat)
    ensures (n + 1) / 100 == n / 100 + (if (n + 1) % 100 == 0 then 1 else 0)
  {
  }

  lemma DivisionStep400(n: nat)
    ensures (n + 1) / 400 == n / 400 + (if (n + 1) % 400 == 0 then 1 else 0)
  {
  }

  /** A multiple of `m * k` leaves no remainder modulo `m` (for the divisors used below). */
  lemma MultipleRemainder(y: int, m: int, q: int)
    requires m == 4 || m == 100
    requires y == m * q
    ensures y % m == 0
  {
    var t := q - y / m;
    assert y % m == m * t;
    if m == 4 {
      assert y % 4 == 4 * t;
    } else {
      assert y % 100 == 100 * t;
    }
  }

  /** A multiple of 400 is a multiple of 100, and a multiple of 100 is a multiple of 4. */
  lemma LeapDivisors(y: int)
    ensures y % 400 == 0 ==> y % 100 == 0
    ensures y % 100 == 0 ==> y % 4 == 0
  {
    if y % 400 == 0 {
      MultipleRemainder(y, 100, 4 * (y / 400));
    }
    if y % 100 == 0 {
      MultipleRemainder(y, 4, 25 * (y / 100));
    }
  }

  /** The closed form counts exactly the days of each year in turn. */
  lemma DaysBeforeNextYear(y: int)
    requires y >= 1
    ensures DaysBeforeYear(y + 1) == DaysBeforeYear(y) + DaysInYear(y)
  {
    var n := y - 1;
    DivisionStep4(n);
    DivisionStep100(n);
    DivisionStep400(n);
    LeapDivisors(y);
    var a, b, c := (if y % 4 == 0 then 1 else 0), (if y % 100 == 0 then 1 else 0), (if y % 400 == 0 then 1 else 0);
    assert DaysInYear(y) == 365 + a - b + c;
    assert DaysBeforeYear(y + 1) == 365 * n + 365 + (n / 4 + a) - (n / 100 + b) + (n / 400 + c);
  }

  lemma DaysBeforeNextMonth(y: int, m: int)
    requires 1 <= m <= 12
    ensures DaysBeforeMonth(y, m + 1) == DaysBeforeMonth(y, m) + DaysInMonth(y, m)
  {
  }

  lemma {:induction false} DaysBeforeYearMonotone(a: int, b: int)
    requires 1 <= a < b
    ensures DaysBeforeYear(a) + DaysInYear(a) <= DaysBeforeYear(b)
    decreases b - a
  {
    DaysBeforeNextYear(a);
    if a + 1 < b {
      DaysBeforeYearMonotone(a + 1, b);
    }
  }

  /** Splits `d` days after January 1 of year `y` into a year and a day of that year. */
  function YearAndDay(y: int, d: nat): (r: (int, nat))
    requires y >= 1
    ensures r.0 >= y && r.1 < DaysInYear(r.0)
    decreases d
  {
    if d < DaysInYear(y) then (y, d) else YearAndDay(y + 1, d - DaysInYear(y))
  }

  /** Splits `d` days after day 1 of month `m` of year `y` into a month and a day of that
      month (counted from 0). */
  function MonthAndDay(y: int, m: int, d: nat): (r: (int, nat))
    requires 1 <= m <= 12
    ensures m <= r.0 <= 12
    decreases 12 - m
  {
    if m == 12 || d < DaysInMonth(y, m) then (m, d)
    else MonthAndDay(y, m + 1, d - DaysInMonth(y, m))
  }

  lemma {:induction false} YearAndDayBelow(y: int, d: nat, bound: int)
    requires 1 <= y < bound
    requires d < DaysBeforeYear(bound) - DaysBeforeYear(y)
    ensures YearAndDay(y, d).0 < bound
    decreases d
  {
    if d >= DaysInYear(y) {
      DaysBeforeNextYear(y);
      if y + 1 == bound {
        assert false;
      } else {
        YearAndDayBelow(y + 1, d - DaysInYear(y), bound);
      }
    }
  }

  lemma {:induction false} MonthAndDayInMonth(y: int, m: int, d: nat)
    requires 1 <= m <= 12
    requires DaysBeforeMonth(y, m) + d < DaysInYear(y)
    ensures var r := MonthAndDay(y, m, d); r.1 < DaysInMonth(y, r.0)
    decreases 12 - m
  {
    DaysBeforeNextMonth(y, m);
    if m < 12 && d >= DaysInMonth(y, m) {
      MonthAndDayInMonth(y, m + 1, d - DaysInMonth(y, m));
    }
  }

  /** Counting forward from year `k` to a day of year `y` lands in year `y`. */
  lemma {:induction false} YearAndDayOfYearStart(k: int, y: int, r: nat)
    requires 1 <= k <= y && r < DaysInYear(y)
    ensures YearAndDay(k, DaysBeforeYear(y) - DaysBeforeYear(k) + r) == (y, r)
    decreases y - k
  {
    if k < y {
      DaysBeforeYearMonotone(k, y);
      DaysBeforeNextYear(k);
      YearAndDayOfYearStart(k + 1, y, r);
    }
  }

  /** Counting forward from month `k` to a day of month `m` lands in month `m`. */
  lemma {:induction false} MonthAndDayOfMonthStart(y: int, k: int, m: int, r: nat)
    requires 1 <= k <= m <= 12 && r < DaysInMonth(y, m)
    ensures MonthAndDay(y, k, DaysBeforeMonth(y, m) - DaysBeforeMonth(y, k) + r) == (m, r)
    decreases m - k
  {
    if k < m {
      DaysBeforeNextMonth(y, k);
      MonthAndDayOfMonthStart(y, k + 1, m, r);
    }
  }

  // ---------------------------------------------------------------------------------------
  // DateTime
  // ---------------------------------------------------------------------------------------

  const SecondsPerDay := 86400
  /** Seconds from 0001-01-01T00:00:00 to the Unix epoch 1970-01-01T00:00:00. */
  const UnixEpochSeconds := 62135596800
  /** The largest argument `DateTimeOffset.FromUnixTimeSeconds` accepts (9999-12-31T23:59:59). */
  const MaxUnixSeconds := 253402300799
  /** The first year `DateTime` cannot represent. */
  const EndYear := 10000

  /** A `DateTime` as .NET keeps it: a count since 0001-01-01T00:00:00. .NET counts 100 ns
      ticks; every value the archiver builds is a whole second, so the model counts seconds.
      Comparison and equality are on this count, as in .NET. */
  datatype DateTime = DateTime(seconds: nat)

  predicate ValidDateTime(t: DateTime) {
    t.seconds <= UnixEpochSeconds + MaxUnixSeconds
  }

  /** `DateTimeOffset.FromUnixTimeSeconds(s).DateTime`: the offset is 0, so the clock is UTC. */
  function FromUnixTimeSeconds(s: int): (t: DateTime)
    requires -UnixEpochSeconds <= s <= MaxUnixSeconds
    ensures ValidDateTime(t)
  {
    DateTime(s + UnixEpochSeconds)
  }

  /** Conversion preserves order in both directions and is injective. */
  lemma FromUnixTimeSecondsMonotone(s1: int, s2: int)
    requires -UnixEpochSeconds <= s1 <= MaxUnixSeconds
    requires -UnixEpochSeconds <= s2 <= MaxUnixSeconds
    ensures FromUnixTimeSeconds(s1).seconds <= FromUnixTimeSeconds(s2).seconds <==> s1 <= s2
    ensures FromUnixTimeSeconds(s1) == FromUnixTimeSeconds(s2) <==> s1 == s2
  {
  }

  function DayNumber(t: DateTime): nat {
    t.seconds / SecondsPerDay
  }

  function YearDay(t: DateTime): (int, nat) {
    YearAndDay(1, DayNumber(t))
  }

  /** `DateTime.Year`. */
  function Year(t: DateTime): int {
    YearDay(t).0
  }

  /** `DateTime.Month`. */
  function Month(t: DateTime): int {
    MonthAndDay(Year(t), 1, YearDay(t).1).0
  }

  /** `DateTime.Day`. */
  function Day(t: DateTime): int {
    MonthAndDay(Year(t), 1, YearDay(t).1).1 + 1
  }

  function Hour(t: DateTime): nat {
    t.seconds % SecondsPerDay / 3600
  }

  function Minute(t: DateTime): nat {
    t.seconds % 3600 / 60
  }

  function Second(t: DateTime): nat {
    t.seconds % 60
  }

  /** Every representable instant has civil fields in their usual ranges. */
  lemma CivilFieldRanges(t: DateTime)
    requires ValidDateTime(t)
    ensures 1 <= Year(t) < EndYear
    ensures 1 <= Month(t) <= 12
    ensures 1 <= Day(t) <= DaysInMonth(Year(t), Month(t))
    ensures Hour(t) < 24 && Minute(t) < 60 && Second(t) < 60
  {
    assert DaysBeforeYear(EndYear) == 3652059;
    YearAndDayBelow(1, DayNumber(t), EndYear);
    var yd := YearDay(t);
    MonthAndDayInMonth(yd.0, 1, yd.1);
  }

  /** `new DateTime(y, m, 1)`: midnight at the start of a month. */
  function MonthStart(y: int, m: int): (t: DateTime)
    requires 1 <= y && 1 <= m <= 12
  {
    DaysBeforeNextYear(y);
    DateTime((DaysBeforeYear(y) + DaysBeforeMonth(y, m)) * SecondsPerDay)
  }

  lemma DayNumberOfWholeDays(days: nat)
    ensures DayNumber(DateTime(days * SecondsPerDay)) == days
    ensures var t := DateTime(days * SecondsPerDay); Hour(t) == 0 && Minute(t) == 0 && Second(t) == 0
  {
    var t := DateTime(days * SecondsPerDay);
    assert t.seconds == (days * 1440) * 60;
    assert t.seconds == (days * 24) * 3600;
  }

  lemma {:induction false} MonthStartDay(y: int, m: int)
    requires 1 <= y && 1 <= m <= 12
    ensures YearDay(MonthStart(y, m)) == (y, DaysBeforeMonth(y, m))
  {
    var dm := DaysBeforeMonth(y, m);
    DaysBeforeNextYear(y);
    DayNumberOfWholeDays(DaysBeforeYear(y) + dm);
    DaysBeforeNextMonth(y, 12);
    YearAndDayOfYearStart(1, y, dm);
  }

  /** The civil fields of a month start are the year and month it was built from. */
  lemma MonthStartFields(y: int, m: int)
    requires 1 <= y && 1 <= m <= 12
    ensures Year(MonthStart(y, m)) == y && Month(MonthStart(y, m)) == m && Day(MonthStart(y, m)) == 1
    ensures Hour(MonthStart(y, m)) == 0 && Minute(MonthStart(y, m)) == 0 && Second(MonthStart(y, m)) == 0
  {
    MonthStartDay(y, m);
    MonthAndDayOfMonthStart(y, 1, m, 0);
    DaysBeforeNextYear(y);
    DayNumberOfWholeDays(DaysBeforeYear(y) + DaysBeforeMonth(y, m));
  }

  /** Two month starts are equal exactly when their years and months are. */
  lemma MonthStartInjective(y1: int, m1: int, y2: int, m2: int)
    requires 1 <= y1 && 1 <= m1 <= 12 && 1 <= y2 && 1 <= m2 <= 12
    ensures MonthStart(y1, m1) == MonthStart(y2, m2) <==> y1 == y2 && m1 == m2
  {
    MonthStartFields(y1, m1);
    MonthStartFields(y2, m2);
  }

  /** Every month of a representable year starts at a representable instant. */
  lemma MonthStartValid(y: int, m: int)
    requires 1 <= y < EndYear && 1 <= m <= 12
    ensures ValidDateTime(MonthStart(y, m))
  {
    DaysBeforeNextYear(y);
    DaysBeforeNextMonth(y, 12);
    if y + 1 < EndYear {
      DaysBeforeYearMonotone(y, EndYear);
    }
    assert DaysBeforeYear(EndYear) == 3652059;
    var days := DaysBeforeYear(y) + DaysBeforeMonth(y, m);
    assert days <= 3652058;
    assert days * SecondsPerDay <= 3652058 * SecondsPerDay;
  }

  /** The range `FromUnixTimeSeconds` accepts: second 0 is midnight at the start of January
      1970, and the largest accepted second is the last one before year 10000 begins. */
  lemma UnixRangeAnchors()
    ensures FromUnixTimeSeconds(0) == MonthStart(1970, 1)
    ensures FromUnixTimeSeconds(MaxUnixSeconds).seconds + 1 == MonthStart(EndYear, 1).seconds
  {
  }

  /** Later calendar months start later. */
  lemma MonthStartMonotone(y1: int, m1: int, y2: int, m2: int)
    requires 1 <= y1 && 1 <= m1 <= 12 && 1 <= y2 && 1 <= m2 <= 12
    requires y1 < y2 || (y1 == y2 && m1 < m2)
    ensures MonthStart(y1, m1).seconds < MonthStart(y2, m2).seconds
  {
    DaysBeforeNextMonth(y1, 12);
    if y1 < y2 {
      DaysBeforeYearMonotone(y1, y2);
    }
  }

  // ---------------------------------------------------------------------------------------
  // Formatting
  // ---------------------------------------------------------------------------------------

  /** `t.ToString("yyyy-MM-ddTHH:mm:ssZ")`; 'T' and 'Z' are literals in that format. */
  function FormatIso(t: DateTime): string
    requires ValidDateTime(t)
  {
    CivilFieldRanges(t);
    Pad(Year(t), 4) + "-" + Pad(Month(t), 2) + "-" + Pad(Day(t), 2)
      + "T" + Pad(Hour(t), 2) + ":" + Pad(Minute(t), 2) + ":" + Pad(Second(t), 2) + "Z"
  }

  /** `t.ToString("yyyy-MM")`. */
  function FormatYearMonth(t: DateTime): string
    requires ValidDateTime(t)
  {
    CivilFieldRanges(t);
    Pad(Year(t), 4) + "-" + Pad(Month(t), 2)
  }

  /** Where the separators of "yyyy-MM-ddTHH:mm:ssZ" sit in the rendered string. */
  lemma IsoLayout(y: string, mo: string, d: string, h: string, mi: string, se: string)
    requires |y| == 4 && |mo| == 2 && |d| == 2 && |h| == 2 && |mi| == 2 && |se| == 2
    ensures var s := y + "-" + mo + "-" + d + "T" + h + ":" + mi + ":" + se + "Z";
      && |s| == 20
      && s[4] == '-' && s[7] == '-' && s[10] == 'T' && s[13] == ':' && s[16] == ':' && s[19] == 'Z'
      && s[..7] == y + "-" + mo
  {
  }

  /** Where the digit fields of "yyyy-MM-ddTHH:mm:ssZ" sit in the rendered string. */
  lemma IsoFieldLayout(y: string, mo: string, d: string, h: string, mi: string, se: string)
    requires |y| == 4 && |mo| == 2 && |d| == 2 && |h| == 2 && |mi| == 2 && |se| == 2
    ensures var s := y + "-" + mo + "-" + d + "T" + h + ":" + mi + ":" + se + "Z";
      s[0..4] == y && s[5..7] == mo && s[8..10] == d && s[11..13] == h && s[14..16] == mi && s[17..19] == se
  {
  }

  /** Where the parts of "yyyy-MM" sit in the rendered string. */
  lemma YearMonthLayout(y: string, mo: string)
    requires |y| == 4 && |mo| == 2
    ensures var s := y + "-" + mo; |s| == 7 && s[0..4] == y && s[5..7] == mo
  {
  }

  /** The ISO rendering is 20 characters wide, has its separators at fixed places, and its
      digit fields read back as the civil fields of the instant. */
  lemma FormatIsoFields(t: DateTime)
    requires ValidDateTime(t)
    ensures var s := FormatIso(t);
      && |s| == 20
      && s[4] == '-' && s[7] == '-' && s[10] == 'T' && s[13] == ':' && s[16] == ':' && s[19] == 'Z'
      && AllDigits(s[0..4]) && ParseDecimal(s[0..4]) == Year(t)
      && AllDigits(s[5..7]) && ParseDecimal(s[5..7]) == Month(t)
      && AllDigits(s[8..10]) && ParseDecimal(s[8..10]) == Day(t)
      && AllDigits(s[11..13]) && ParseDecimal(s[11..13]) == Hour(t)
      && AllDigits(s[14..16]) && ParseDecimal(s[14..16]) == Minute(t)
      && AllDigits(s[17..19]) && ParseDecimal(s[17..19]) == Second(t)
  {
    CivilFieldRanges(t);
    IsoLayout(Pad(Year(t), 4), Pad(Month(t), 2), Pad(Day(t), 2), Pad(Hour(t), 2), Pad(Minute(t), 2), Pad(Second(t), 2));
    IsoFieldLayout(Pad(Year(t), 4), Pad(Month(t), 2), Pad(Day(t), 2), Pad(Hour(t), 2), Pad(Minute(t), 2), Pad(Second(t), 2));
    ParsePad(Year(t), 4);
    ParsePad(Month(t), 2);
    ParsePad(Day(t), 2);
    ParsePad(Hour(t), 2);
    ParsePad(Minute(t), 2);
    ParsePad(Second(t), 2);
  }

  /** Two instants render to the same "yyyy-MM" exactly when they share year and month. */
  lemma FormatYearMonthInjective(t1: DateTime, t2: DateTime)
    requires ValidDateTime(t1) && ValidDateTime(t2)
    ensures FormatYearMonth(t1) == FormatYearMonth(t2) <==> Year(t1) == Year(t2) && Month(t1) == Month(t2)
  {
    CivilFieldRanges(t1);
    CivilFieldRanges(t2);
    if FormatYearMonth(t1) == FormatYearMonth(t2) {
      YearMonthLayout(Pad(Year(t1), 4), Pad(Month(t1), 2));
      YearMonthLayout(Pad(Year(t2), 4), Pad(Month(t2), 2));
      ParsePad(Year(t1), 4);
      ParsePad(Year(t2), 4);
      ParsePad(Month(t1), 2);
      ParsePad(Month(t2), 2);
    }
  }

  /** The "yyyy-MM" rendering is the first seven characters of the ISO rendering. */
  lemma FormatIsoStartsWithYearMonth(t: DateTime)
    requires ValidDateTime(t)
    ensures FormatIso(t)[..7] == FormatYearMonth(t)
  {
    CivilFieldRanges(t);
    IsoLayout(Pad(Year(t), 4), Pad(Month(t), 2), Pad(Day(t), 2), Pad(Hour(t), 2), Pad(Minute(t), 2), Pad(Second(t), 2));
  }
}
