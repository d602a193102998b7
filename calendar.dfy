/** The proleptic Gregorian calendar of Python's `datetime.date`: a date is a day
    number (`date.toordinal()`, 1 = 0001-01-01) and converts to and from a
    year/month/day triple. Subtracting a `timedelta(days=k)` is subtracting k. */
module Calendar {
  import Text
  import opened Wrappers

  type Day = n: int | 1 <= n witness 1

  datatype Ymd = Ymd(year: int, month: int, day: int)

  predicate IsLeap(y: int)
  {
    y % 4 == 0 && (y % 100 != 0 || y % 400 == 0)
  }

  function DaysInYear(y: int): int
  {
    if IsLeap(y) then 366 else 365
  }

  function DaysInMonth(y: int, m: int): int
    requires 1 <= m <= 12
  {
    if m == 2 then (if IsLeap(y) then 29 else 28)
    else if m == 4 || m == 6 || m == 9 || m == 11 then 30
    else 31
  }

  /** Days in the months of year `y` before month `m` (m == 13: the whole year). */
  function DaysBeforeMonth(y: int, m: int): (r: int)
    requires 1 <= m <= 13
    ensures 0 <= r
  {
    var common :=
      match m
      case 1 => 0    case 2 => 31   case 3 => 59   case 4 => 90
      case 5 => 120  case 6 => 151  case 7 => 181  case 8 => 212
      case 9 => 243  case 10 => 273 case 11 => 304 case 12 => 334
      case _ => 365;
    if IsLeap(y) && m > 2 then common + 1 else common
  }

  predicate Valid(d: Ymd)
  {
    1 <= d.year && 1 <= d.month <= 12 && 1 <= d.day <= DaysInMonth(d.year, d.month)
  }

  /** Days in all years before `y`. */
  function DaysBeforeYear(y: int): (r: int)
    requires 1 <= y
    ensures 0 <= r
  {
    var p := y - 1;
    365 * p + p / 4 - p / 100 + p / 400
  }

  /** `date(y, m, d).toordinal()` */
  function ToOrdinal(d: Ymd): Day
    requires Valid(d)
  {
    DaysBeforeYear(d.year) + DaysBeforeMonth(d.year, d.month) + d.day
  }

  // ---------------------------------------------------------------- lengths

  /** Going from `p` to `p + 1` raises `p / k` by one exactly when `k` divides `p + 1`. */
  lemma DivStep4(p: int)
    requires 0 <= p
    ensures (p + 1) / 4 == p / 4 + (if (p + 1) % 4 == 0 then 1 else 0)
  {
  }

  lemma DivStep100(p: int)
    requires 0 <= p
    ensures (p + 1) / 100 == p / 100 + (if (p + 1) % 100 == 0 then 1 else 0)
  {
  }

  lemma DivStep400(p: int)
    requires 0 <= p
    ensures (p + 1) / 400 == p / 400 + (if (p + 1) % 400 == 0 then 1 else 0)
  {
  }

  lemma YearLength(y: int)
    requires 1 <= y
    ensures DaysBeforeYear(y + 1) == DaysBeforeYear(y) + DaysInYear(y)
  {
    var p := y - 1;
    DivStep4(p);
    DivStep100(p);
    DivStep400(p);
    DivisorsOfCenturies(y);
    var step := (y / 4 - p / 4) - (y / 100 - p / 100) + (y / 400 - p / 400);
    assert DaysBeforeYear(y + 1) == DaysBeforeYear(y) + 365 + step;
    if y % 4 != 0 {
      assert step == 0;
    } else if y % 100 != 0 {
      assert step == 1;
    } else if y % 400 != 0 {
      assert step == 0;
    } else {
      assert step == 1;
    }
  }

  /** A multiple of 400 is a multiple of 100, and a multiple of 100 one of 4. */
  lemma DivisorsOfCenturies(y: int)
    ensures y % 400 == 0 ==> y % 100 == 0
    ensures y % 100 == 0 ==> y % 4 == 0
  {
    if y % 400 == 0 {
      var k := y / 400;
      assert y == 400 * k;
      assert y / 100 == 4 * k;
    }
    if y % 100 == 0 {
      var k := y / 100;
      assert y == 100 * k;
      assert y / 4 == 25 * k;
    }
  }

  lemma MonthStep(y: int, m: int)
    requires 1 <= m <= 12
    ensures DaysBeforeMonth(y, m + 1) == DaysBeforeMonth(y, m) + DaysInMonth(y, m)
  {
  }

  lemma MonthsFillYear(y: int)
    ensures DaysBeforeMonth(y, 13) == DaysInYear(y)
  {
  }

  lemma {:induction false} DaysBeforeYearMono(a: int, b: int)
    requires 1 <= a <= b
    ensures DaysBeforeYear(a) + 365 * (b - a) <= DaysBeforeYear(b)
    decreases b - a
  {
    if a < b {
      YearLength(a);
      DaysBeforeYearMono(a + 1, b);
    }
  }

  lemma {:induction false} DaysBeforeMonthMono(y: int, a: int, b: int)
    requires 1 <= a <= b <= 13
    ensures DaysBeforeMonth(y, a) + 28 * (b - a) <= DaysBeforeMonth(y, b)
    decreases b - a
  {
    if a < b {
      DaysBeforeMonthMono(y, a, b - 1);
      MonthStep(y, b - 1);
    }
  }

  // ---------------------------------------------------------------- from ordinal

  lemma EstimateBelow(n: Day)
    ensures DaysBeforeYear((n - 1) / 366 + 1) < n
  {
    var p := (n - 1) / 366;
    assert p / 4 - p / 100 + p / 400 <= p;
    assert 366 * p <= n - 1;
  }

  /** The year holding day `n`, walking up from a year that starts before it. */
  function YearOf(n: Day, y: int): (r: int)
    requires 1 <= y && DaysBeforeYear(y) < n
    ensures y <= r && DaysBeforeYear(r) < n <= DaysBeforeYear(r + 1)
    decreases n - DaysBeforeYear(y)
  {
    YearLength(y);
    if n <= DaysBeforeYear(y + 1) then y else YearOf(n, y + 1)
  }

  /** The month holding day-of-year `doy`, walking up from month `m`. */
  function MonthOf(y: int, doy: int, m: int): (r: int)
    requires 1 <= m <= 12 && DaysBeforeMonth(y, m) < doy <= DaysInYear(y)
    ensures m <= r <= 12 && DaysBeforeMonth(y, r) < doy <= DaysBeforeMonth(y, r + 1)
    decreases 12 - m
  {
    MonthsFillYear(y);
    MonthStep(y, m);
    if m == 12 || doy <= DaysBeforeMonth(y, m + 1) then m else MonthOf(y, doy, m + 1)
  }

  /** `date.fromordinal(n)` as a triple. */
  function FromOrdinal(n: Day): (d: Ymd)
    ensures Valid(d) && ToOrdinal(d) == n
  {
    EstimateBelow(n);
    var y := YearOf(n, (n - 1) / 366 + 1);
    YearLength(y);
    var doy := n - DaysBeforeYear(y);
    var m := MonthOf(y, doy, 1);
    MonthStep(y, m);
    Ymd(y, m, doy - DaysBeforeMonth(y, m))
  }

  /** Calendar order on triples. */
  predicate Before(a: Ymd, b: Ymd)
  {
    a.year < b.year
    || (a.year == b.year && (a.month < b.month || (a.month == b.month && a.day < b.day)))
  }

  /** Later calendar dates have larger day numbers. */
  lemma OrdinalMonotone(a: Ymd, b: Ymd)
    requires Valid(a) && Valid(b) && Before(a, b)
    ensures ToOrdinal(a) < ToOrdinal(b)
  {
    if a.year < b.year {
      MonthStep(a.year, a.month);
      DaysBeforeMonthMono(a.year, a.month + 1, 13);
      MonthsFillYear(a.year);
      YearLength(a.year);
      DaysBeforeYearMono(a.year + 1, b.year);
    } else if a.month < b.month {
      MonthStep(a.year, a.month);
      DaysBeforeMonthMono(a.year, a.month + 1, b.month);
    }
  }

  lemma OrdinalInjective(a: Ymd, b: Ymd)
    requires Valid(a) && Valid(b) && ToOrdinal(a) == ToOrdinal(b)
    ensures a == b
  {
    if Before(a, b) {
      OrdinalMonotone(a, b);
    } else if Before(b, a) {
      OrdinalMonotone(b, a);
    }
  }

  /** Converting a valid date to its day number and back gives the same date. */
  lemma FromToOrdinal(d: Ymd)
    requires Valid(d)
    ensures FromOrdinal(ToOrdinal(d)) == d
  {
    OrdinalInjective(FromOrdinal(ToOrdinal(d)), d);
  }

  // ---------------------------------------------------------------- month bounds

  /** `date(y, m, 1)` */
  function MonthStart(y: int, m: int): Day
    requires 1 <= y && 1 <= m <= 12
  {
    ToOrdinal(Ymd(y, m, 1))
  }

  /** The dashboard's month end: the first of the next month (January of the next
      year after December) minus one day. */
  function MonthEnd(y: int, m: int): Day
    requires 1 <= y && 1 <= m <= 12
  {
    if m == 12 then ToOrdinal(Ymd(y + 1, 1, 1)) - 1 else ToOrdinal(Ymd(y, m + 1, 1)) - 1
  }

  /** The month end is the last calendar day of the month, including across December. */
  lemma MonthEndIsLastDay(y: int, m: int)
    requires 1 <= y && 1 <= m <= 12
    ensures MonthEnd(y, m) == ToOrdinal(Ymd(y, m, DaysInMonth(y, m)))
    ensures FromOrdinal(MonthEnd(y, m)) == Ymd(y, m, DaysInMonth(y, m))
    ensures FromOrdinal(MonthStart(y, m)) == Ymd(y, m, 1)
  {
    MonthEndOrdinal(y, m);
    FromToOrdinal(Ymd(y, m, DaysInMonth(y, m)));
    FromToOrdinal(Ymd(y, m, 1));
  }

  /** The day before the first of the next month is the month's last day. */
  lemma MonthEndOrdinal(y: int, m: int)
    requires 1 <= y && 1 <= m <= 12
    ensures MonthEnd(y, m) == ToOrdinal(Ymd(y, m, DaysInMonth(y, m)))
  {
    MonthStep(y, m);
    if m == 12 {
      YearLength(y);
      MonthsFillYear(y);
    }
  }

  /** A day lies between the month's start and end exactly when it falls in that
      calendar month: the bounds are true month boundaries, not 30-day windows. */
  lemma InMonthIff(y: int, m: int, x: Day)
    requires 1 <= y && 1 <= m <= 12
    ensures MonthStart(y, m) <= x <= MonthEnd(y, m)
            <==> FromOrdinal(x).year == y && FromOrdinal(x).month == m
  {
    MonthEndIsLastDay(y, m);
    var d := FromOrdinal(x);
    var first := Ymd(y, m, 1);
    var last := Ymd(y, m, DaysInMonth(y, m));
    if d.year == y && d.month == m {
      if d.day > 1 { OrdinalMonotone(first, d); }
      if d.day < DaysInMonth(y, m) { OrdinalMonotone(d, last); }
    } else if Before(d, first) {
      OrdinalMonotone(d, first);
    } else {
      assert Before(last, d);
      OrdinalMonotone(last, d);
    }
  }

  /** `date(y, 1, 1)` */
  function YearStart(y: int): Day
    requires 1 <= y
  {
    ToOrdinal(Ymd(y, 1, 1))
  }

  /** The first of the month containing `n`. */
  function FirstOfMonth(n: Day): Day
  {
    var d := FromOrdinal(n);
    MonthStart(d.year, d.month)
  }

  /** January 1 of the year containing `n`. */
  function FirstOfYear(n: Day): Day
  {
    YearStart(FromOrdinal(n).year)
  }

  /** January 1 <= first of the month <= today, all in today's year. */
  lemma PeriodStartsOrdered(n: Day)
    ensures FirstOfYear(n) <= FirstOfMonth(n) <= n
    ensures FromOrdinal(FirstOfMonth(n)).year == FromOrdinal(n).year
  {
    var d := FromOrdinal(n);
    DaysBeforeMonthMono(d.year, 1, d.month);
    MonthEndIsLastDay(d.year, d.month);
  }

  // ---------------------------------------------------------------- ISO 8601

  /** `date.isoformat()`: YYYY-MM-DD, zero-padded. */
  function IsoDate(n: Day): (s: string)
    ensures |s| >= 10
  {
    var d := FromOrdinal(n);
    Text.ZeroPad(d.year, 4) + "-" + Text.ZeroPad(d.month, 2) + "-" + Text.ZeroPad(d.day, 2)
  }

  /** For the years Python supports, the ISO string is exactly ten characters and its
      three digit fields read back as the date's year, month and day. */
  lemma IsoDateRoundTrip(n: Day)
    requires FromOrdinal(n).year <= 9999
    ensures var s := IsoDate(n); var d := FromOrdinal(n);
            && |s| == 10 && s[4] == '-' && s[7] == '-'
            && Text.ParseNat(s[..4]) == Some(d.year)
            && Text.ParseNat(s[5..7]) == Some(d.month)
            && Text.ParseNat(s[8..]) == Some(d.day)
  {
    var d := FromOrdinal(n);
    PadWidth(d.year, 4);
    PadWidth(d.month, 2);
    PadWidth(d.day, 2);
    Text.ZeroPadRoundTrip(d.year, 4);
    Text.ZeroPadRoundTrip(d.month, 2);
    Text.ZeroPadRoundTrip(d.day, 2);
    var s := IsoDate(n);
    assert s[..4] == Text.ZeroPad(d.year, 4);
    assert s[5..7] == Text.ZeroPad(d.month, 2);
    assert s[8..] == Text.ZeroPad(d.day, 2);
  }

  /** A number below 10^width pads to exactly `width` digits. */
  lemma PadWidth(n: nat, width: nat)
    requires 1 <= width && n < Pow10(width)
    ensures |Text.ZeroPad(n, width)| == width
  {
    DigitsLength(n, width);
  }

  function Pow10(k: nat): nat
  {
    if k == 0 then 1 else 10 * Pow10(k - 1)
  }

  lemma {:induction false} DigitsLength(n: nat, width: nat)
    requires 1 <= width && n < Pow10(width)
    ensures |Text.Digits(n)| <= width
  {
    if n >= 10 {
      assert width >= 2;
      DigitsLength(n / 10, width - 1);
    }
  }
}
