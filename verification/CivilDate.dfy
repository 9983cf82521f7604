/** The request signer's calendar: a count of seconds since 1970 as a civil date and time, for every integer. */
module CivilDate {

  datatype Date = Date(year: int, month: int, day: int)

  // ---- the calendar, by its own definition -------------------------------------------

  predicate Leap(year: int) { year % 4 == 0 && (year % 100 != 0 || year % 400 == 0) }

  function DaysIn(year: int, month: int): int {
    if month == 2 then (if Leap(year) then 29 else 28)
    else if month == 4 || month == 6 || month == 9 || month == 11 then 30 else 31
  }

  predicate Valid(d: Date) { 1 <= d.month <= 12 && 1 <= d.day <= DaysIn(d.year, d.month) }

  function Next(d: Date): Date {
    if d.day < DaysIn(d.year, d.month) then d.(day := d.day + 1)
    else if d.month < 12 then Date(d.year, d.month + 1, 1)
    else Date(d.year + 1, 1, 1)
  }

  // ---- the conversion ----------------------------------------------------------------

  /** The year, counted from 1 March, of a day of a 400-year era. */
  function YearOfEra(doe: int): int { (doe - doe / 1460 + doe / 36524 - doe / 146096) / 365 }

  /** The days of an era before its year `yoe`, of which there are 400. */
  function DaysBeforeYear(yoe: int): int { 365 * yoe + yoe / 4 - yoe / 100 }

  function MonthOfYear(doy: int): int { (5 * doy + 2) / 153 }

  function DaysBeforeMonth(mp: int): int { (153 * mp + 2) / 5 }

  /** A date from its year counted from 1 March, its month counted from March, and its day. */
  function FromMarch(y: int, mp: int, day: int): Date {
    var month := if mp < 10 then mp + 3 else mp - 9;
    Date(if month <= 2 then y + 1 else y, month, day)
  }

  /** The date of a day of an era. */
  function EraDate(doe: int, era: int): Date {
    var yoe := YearOfEra(doe);
    var doy := doe - DaysBeforeYear(yoe);
    var mp := MonthOfYear(doy);
    FromMarch(yoe + era * 400, mp, doy - DaysBeforeMonth(mp) + 1)
  }

  /** The civil date of a day count, day 0 being 1 January 1970. */
  function Civil(days: int): Date {
    var z := days + 719468;
    var era := z / 146097;
    EraDate(z - era * 146097, era)
  }

  // ---- the year of a day ---------------------------------------------------------------

  /** Centuries, four-year cycles, years and days of an era. */
  lemma {:induction false} PartsOfEra(doe: int, c: int, a: int, b: int, t: int)
    requires 0 <= c < 4 && 0 <= a < 25 && 0 <= b < 4 && 0 <= t && doe == 36524 * c + 1461 * a + 365 * b + t
    requires t <= 364 || (t == 365 && b == 3 && a < 24)
    ensures YearOfEra(doe) == 100 * c + 4 * a + b
  {
    var late := 365 * b + a + t + 24 * c;
    var g := if late < 1460 then 0 else 1;
    assert doe / 36524 == c;
    assert doe / 146096 == 0;
    assert doe == 1460 * (25 * c + a) + late;
    assert doe / 1460 == 25 * c + a + g;
    assert doe - doe / 1460 + doe / 36524 == 365 * (100 * c + 4 * a + b) + (t - g);
  }

  lemma {:induction false} BeforeParts(c: int, a: int, b: int)
    requires 0 <= c < 4 && 0 <= a < 25 && 0 <= b < 4
    ensures DaysBeforeYear(100 * c + 4 * a + b) == 36524 * c + 1461 * a + 365 * b
  {
    var y := 100 * c + 4 * a + b;
    assert y / 4 == 25 * c + a && y / 100 == c;
  }

  /** A year of an era has its 366th day when the February in it belongs to a leap year. */
  predicate Long(yoe: int) { Leap(yoe + 1) }

  lemma {:induction false} YearHoldsDay(doe: int)
    requires 0 <= doe < 146097
    ensures var y := YearOfEra(doe);
            0 <= y < 400 && 0 <= doe - DaysBeforeYear(y) <= (if Long(y) then 365 else 364)
  {
    if doe < 146096 {
      var c, r := doe / 36524, doe % 36524;
      var a, s := r / 1461, r % 1461;
      var b := if s < 1095 then s / 365 else 3;
      var t := s - 365 * b;
      PartsOfEra(doe, c, a, b, t);
      BeforeParts(c, a, b);
      if t == 365 { LongYear(c, a); }
    } else {
      assert doe / 1460 == 100 && doe / 36524 == 4 && doe / 146096 == 1;
      assert YearOfEra(doe) == 399;
    }
  }

  lemma {:induction false} LongYear(c: int, a: int)
    requires 0 <= c < 4 && 0 <= a < 24
    ensures Long(100 * c + 4 * a + 3)
  {
    var y := 100 * c + 4 * a + 4;
    assert y % 4 == 0 by { assert y == 4 * (25 * c + a + 1); }
    assert y % 100 == 4 * a + 4;
  }

  // ---- the month of a day ----------------------------------------------------------------

  /** Twelve months from March on; the last runs to the end of the year. */
  lemma {:induction false} MonthHoldsDay(doy: int)
    requires 0 <= doy <= 365
    ensures var mp := MonthOfYear(doy);
            && 0 <= mp <= 11 && DaysBeforeMonth(mp) <= doy && (mp < 11 ==> doy < DaysBeforeMonth(mp + 1))
  {
  }

  /** The month lengths the divisions encode are the calendar's. */
  lemma {:induction false} MonthLengths(mp: int, year: int)
    requires 0 <= mp < 11
    ensures DaysBeforeMonth(mp + 1) - DaysBeforeMonth(mp) == DaysIn(year, if mp < 10 then mp + 3 else mp - 9)
    ensures DaysBeforeMonth(11) == 337
  {
  }

  lemma {:induction false} LeapRepeats(year: int, era: int)
    ensures Leap(year + era * 400) <==> Leap(year)
  {
    var y := year + era * 400;
    assert y == year + 4 * (100 * era) && y == year + 100 * (4 * era) && y == year + 400 * era;
    Periodic(year, 4, 100 * era);
    Periodic(year, 100, 4 * era);
    Periodic(year, 400, era);
  }

  lemma {:induction false} Periodic(x: int, m: int, k: int)
    requires m == 4 || m == 100 || m == 400
    ensures (x + m * k) % m == x % m
  {
  }

  /** How many leap years there are from year 1 through `year`. */
  function Leaps(year: int): int { year / 4 - year / 100 + year / 400 }

  lemma {:induction false} LeapsOfEra(yoe: int, era: int)
    requires 0 <= yoe < 400
    ensures Leaps(yoe + era * 400) == yoe / 4 - yoe / 100 + 97 * era
  {
    var y := yoe + era * 400;
    assert y == yoe + 4 * (100 * era) && y == yoe + 100 * (4 * era);
    Quotient(yoe, 4, 100 * era);
    Quotient(yoe, 100, 4 * era);
    Quotient(yoe, 400, era);
  }

  lemma {:induction false} Quotient(x: int, m: int, k: int)
    requires m == 4 || m == 100 || m == 400
    ensures (x + m * k) / m == x / m + k
  {
  }

  /** Days from 1 March of year 0 to a date given by its March-based parts. */
  function MarchCount(y: int, mp: int, day: int): int { 365 * y + Leaps(y) + DaysBeforeMonth(mp) + day - 1 }

  /** The parts are those of a month of that length, and count back to the day. */
  predicate MarchParts(days: int, y: int, mp: int, day: int) {
    && 0 <= mp <= 11 && 1 <= day && MarchCount(y, mp, day) == days + 719468
    && (if mp < 11 then day <= DaysBeforeMonth(mp + 1) - DaysBeforeMonth(mp) else day <= (if Leap(y + 1) then 29 else 28))
  }

  lemma {:induction false} EraParts(doe: int, era: int) returns (y: int, mp: int, day: int)
    requires 0 <= doe < 146097
    ensures EraDate(doe, era) == FromMarch(y, mp, day) && MarchParts(era * 146097 + doe - 719468, y, mp, day)
  {
    var yoe := YearOfEra(doe);
    var doy := doe - DaysBeforeYear(yoe);
    YearHoldsDay(doe);
    MonthHoldsDay(doy);
    LeapsOfEra(yoe, era);
    LeapRepeats(yoe + 1, era);
    y, mp := yoe + era * 400, MonthOfYear(doy);
    day := doy - DaysBeforeMonth(mp) + 1;
    assert DaysBeforeMonth(11) == 337;
    assert yoe + 1 + era * 400 == y + 1;
  }

  lemma {:induction false} CivilParts(days: int) returns (y: int, mp: int, day: int)
    ensures Civil(days) == FromMarch(y, mp, day) && MarchParts(days, y, mp, day)
  {
    var z := days + 719468;
    var era := z / 146097;
    y, mp, day := EraParts(z - era * 146097, era);
  }

  lemma {:induction false} PartsAreValid(days: int, y: int, mp: int, day: int)
    requires MarchParts(days, y, mp, day)
    ensures Valid(FromMarch(y, mp, day))
  {
    if mp < 11 { MonthLengths(mp, FromMarch(y, mp, day).year); }
  }

  /** What the conversion yields is a date of the calendar. */
  lemma {:induction false} CivilIsValid(days: int)
    ensures Valid(Civil(days))
  {
    var y, mp, day := CivilParts(days);
    PartsAreValid(days, y, mp, day);
  }

  // ---- the inverse --------------------------------------------------------------------------

  function DaysBefore(year: int, month: int): int
    decreases month
  {
    if month <= 1 then 0 else DaysBefore(year, month - 1) + DaysIn(year, month - 1)
  }

  /** Days from 1 January of year 1 to the start of a year. */
  function YearStart(year: int): int { 365 * (year - 1) + Leaps(year - 1) }

  /** The calendar's own count of days since 1 January 1970: whole years, whole months, days. */
  function DayNumber(d: Date): int { YearStart(d.year) + DaysBefore(d.year, d.month) + d.day - 1 - 719162 }

  lemma {:induction false} LeapsStep(year: int)
    ensures Leaps(year) == Leaps(year - 1) + if Leap(year) then 1 else 0
  {
    DivStep(year, 4);
    DivStep(year, 100);
    DivStep(year, 400);
    CenturiesAreFours(year);
  }

  lemma {:induction false} CenturiesAreFours(year: int)
    ensures year % 400 == 0 ==> year % 100 == 0
    ensures year % 100 == 0 ==> year % 4 == 0
  {
    if year % 400 == 0 { Periodic(0, 100, 4 * (year / 400)); }
    if year % 100 == 0 { Periodic(0, 4, 25 * (year / 100)); }
  }

  lemma {:induction false} DivStep(x: int, m: int)
    requires m == 4 || m == 100 || m == 400
    ensures x / m == (x - 1) / m + if x % m == 0 then 1 else 0
  {
  }

  /** January and February before March, then the months the divisions encode. */
  lemma {:induction false} DaysBeforeFromMarch(year: int, month: int)
    requires 3 <= month <= 12
    ensures DaysBefore(year, month) == 31 + DaysIn(year, 2) + DaysBeforeMonth(month - 3)
    decreases month
  {
    if month == 3 {
      assert DaysBefore(year, 1) == 0 && DaysBefore(year, 2) == 31;
    } else {
      DaysBeforeFromMarch(year, month - 1);
      MonthLengths(month - 4, year);
    }
  }

  /** The calendar's count of a date agrees with the count from March. */
  lemma {:induction false} CountsAgree(y: int, mp: int, day: int)
    requires 0 <= mp <= 11
    ensures DayNumber(FromMarch(y, mp, day)) == MarchCount(y, mp, day) - 719468
  {
    if mp < 10 {
      DaysBeforeFromMarch(y, mp + 3);
      LeapsStep(y);
    } else {
      assert DaysBefore(y + 1, 1) == 0 && DaysBefore(y + 1, 2) == 31;
      assert DaysBeforeMonth(10) == 306 && DaysBeforeMonth(11) == 337;
    }
  }

  /** The calendar counts the date of day `days` as day `days`, for every integer. */
  lemma {:induction false} DayNumberInverts(days: int)
    ensures DayNumber(Civil(days)) == days
  {
    var y, mp, day := CivilParts(days);
    CountsAgree(y, mp, day);
  }

  lemma EpochIsDayZero()
    ensures Civil(0) == Date(1970, 1, 1) && DayNumber(Date(1970, 1, 1)) == 0
  {
    assert 719468 / 146097 == 4;
    assert YearOfEra(135080) == 369;
  }

  // ---- and back ---------------------------------------------------------------------------

  lemma {:induction false} DaysBeforeYearEnd(year: int, month: int)
    requires 1 <= month <= 12
    ensures 0 <= DaysBefore(year, month) && DaysBefore(year, month) + DaysIn(year, month) <= (if Leap(year) then 366 else 365)
  {
    if month >= 3 {
      DaysBeforeFromMarch(year, month);
      DaysBeforeMonthBound(month - 3, year);
    } else {
      assert DaysBefore(year, 1) == 0 && DaysBefore(year, 2) == 31;
    }
  }

  lemma {:induction false} DaysBeforeMonthBound(mp: int, year: int)
    requires 0 <= mp < 10
    ensures 0 <= DaysBeforeMonth(mp) && DaysBeforeMonth(mp) + DaysIn(year, mp + 3) <= 306
  {
  }

  lemma {:induction false} YearStartStep(year: int)
    ensures YearStart(year + 1) == YearStart(year) + if Leap(year) then 366 else 365
  {
    LeapsStep(year);
  }

  lemma {:induction false} YearStartRises(a: int, b: int)
    requires a <= b
    ensures YearStart(a) <= YearStart(b)
    decreases b - a
  {
    if a < b {
      YearStartStep(a);
      YearStartRises(a + 1, b);
    }
  }

  lemma {:induction false} WithinYear(d: Date)
    requires Valid(d)
    ensures YearStart(d.year) <= DayNumber(d) + 719162 < YearStart(d.year + 1)
  {
    DaysBeforeYearEnd(d.year, d.month);
    YearStartStep(d.year);
  }

  lemma {:induction false} DaysBeforeRises(year: int, m: int, n: int)
    requires 1 <= m < n <= 12
    ensures DaysBefore(year, m) + DaysIn(year, m) <= DaysBefore(year, n)
    decreases n
  {
    if m < n - 1 { DaysBeforeRises(year, m, n - 1); }
  }

  lemma {:induction false} SameYear(d: Date, e: Date)
    requires Valid(d) && Valid(e) && DayNumber(d) == DayNumber(e)
    ensures d.year <= e.year
  {
    WithinYear(d);
    WithinYear(e);
    if e.year < d.year { YearStartRises(e.year + 1, d.year); }
  }

  lemma {:induction false} SameMonth(d: Date, e: Date)
    requires Valid(d) && Valid(e) && d.year == e.year && DayNumber(d) == DayNumber(e)
    ensures d.month <= e.month
  {
    if e.month < d.month { DaysBeforeRises(d.year, e.month, d.month); }
  }

  /** No two dates of the calendar have the same count. */
  lemma {:induction false} DayNumberSeparates(d: Date, e: Date)
    requires Valid(d) && Valid(e) && DayNumber(d) == DayNumber(e)
    ensures d == e
  {
    SameYear(d, e);
    SameYear(e, d);
    SameMonth(d, e);
    SameMonth(e, d);
  }

  /** Day counts and dates of the calendar are in one-to-one correspondence. */
  lemma {:induction false} CivilInverts(d: Date)
    requires Valid(d)
    ensures Civil(DayNumber(d)) == d
  {
    CivilIsValid(DayNumber(d));
    DayNumberInverts(DayNumber(d));
    DayNumberSeparates(Civil(DayNumber(d)), d);
  }

  lemma {:induction false} NextCounts(d: Date)
    requires Valid(d)
    ensures Valid(Next(d)) && DayNumber(Next(d)) == DayNumber(d) + 1
  {
    if d.day == DaysIn(d.year, d.month) && d.month == 12 {
      DaysBeforeFromMarch(d.year, 12);
      YearStartStep(d.year);
      assert DaysBeforeMonth(9) == 275;
    }
  }

  /** The day after is the date after. */
  lemma {:induction false} NextDayIsNextDate(days: int)
    ensures Civil(days + 1) == Next(Civil(days))
  {
    CivilIsValid(days);
    DayNumberInverts(days);
    NextCounts(Civil(days));
    CivilInverts(Next(Civil(days)));
  }

  // ---- the stamp --------------------------------------------------------------------------

  datatype Stamp = Stamp(date: Date, hour: int, minute: int, second: int)

  function AmzStamp(secs: int): Stamp {
    var rem := secs % 86400;
    Stamp(Civil(secs / 86400), rem / 3600, (rem % 3600) / 60, rem % 60)
  }

  /** Hour, minute and second are in range and, with the date, recompose the second. */
  lemma {:induction false} StampRecomposes(secs: int)
    ensures var s := AmzStamp(secs);
            && Valid(s.date) && 0 <= s.hour < 24 && 0 <= s.minute < 60 && 0 <= s.second < 60
            && DayNumber(s.date) * 86400 + s.hour * 3600 + s.minute * 60 + s.second == secs
  {
    CivilIsValid(secs / 86400);
    DayNumberInverts(secs / 86400);
    ClockRecomposes(secs % 86400);
  }

  lemma {:induction false} ClockRecomposes(rem: int)
    requires 0 <= rem < 86400
    ensures 0 <= rem / 3600 < 24 && 0 <= (rem % 3600) / 60 < 60
    ensures (rem / 3600) * 3600 + ((rem % 3600) / 60) * 60 + rem % 60 == rem
  {
    var h, m := rem / 3600, (rem % 3600) / 60;
    assert rem == 60 * (60 * h + m) + (rem % 3600) % 60;
  }

  /** Two instants never share a stamp. */
  lemma {:induction false} StampsAreDistinct(a: int, b: int)
    requires AmzStamp(a) == AmzStamp(b)
    ensures a == b
  {
    StampRecomposes(a);
    StampRecomposes(b);
  }
}
