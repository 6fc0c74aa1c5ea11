/**
  Local calendar dates of the attendance report: the presets and the day bounds of a
  zone at a fixed offset. Dates are those of the proleptic Gregorian calendar, years 1 to 9999.
 */
module ReportCalendar {
  import opened BillingTypes

  datatype Date = Date(year: int, month: int, day: int)

  predicate Leap(y: int) {
    y % 4 == 0 && (y % 100 != 0 || y % 400 == 0)
  }

  function DaysIn(y: int, m: int): (days: int)
    ensures 28 <= days <= 31
  {
    if m == 2 then (if Leap(y) then 29 else 28)
    else if m == 4 || m == 6 || m == 9 || m == 11 then 30
    else 31
  }

  predicate IsDate(d: Date) {
    1 <= d.year <= 9999 && 1 <= d.month <= 12 && 1 <= d.day <= DaysIn(d.year, d.month)
  }

  function YearLength(y: int): int {
    if Leap(y) then 366 else 365
  }

  function DaysBeforeYear(y: int): nat {
    if y <= 1 then 0 else DaysBeforeYear(y - 1) + YearLength(y - 1)
  }

  function DaysBeforeMonth(y: int, m: int): nat {
    if m <= 1 then 0 else DaysBeforeMonth(y, m - 1) + DaysIn(y, m - 1)
  }

  /** Day 1 is the first of January of the year 1, a Monday. */
  function Ordinal(d: Date): int {
    DaysBeforeYear(d.year) + DaysBeforeMonth(d.year, d.month) + d.day
  }

  const LAST := 3_652_059

  /** 0 is Monday. */
  function Weekday(d: Date): int {
    (Ordinal(d) + 6) % 7
  }

  predicate Earlier(a: Date, b: Date) {
    a.year < b.year || (a.year == b.year && (a.month < b.month || (a.month == b.month && a.day < b.day)))
  }

  // Ordinals number the dates in order, without gaps

  lemma {:induction false} YearsGrow(y: int, z: int)
    requires 1 <= y < z
    ensures DaysBeforeYear(y) + YearLength(y) <= DaysBeforeYear(z)
    decreases z - y
  {
    if y + 1 < z { YearsGrow(y, z - 1); }
  }

  lemma Fourths(y: int)
    ensures y / 4 - (y - 1) / 4 == if y % 4 == 0 then 1 else 0
  {}

  lemma Hundredths(y: int)
    ensures y / 100 - (y - 1) / 100 == if y % 100 == 0 then 1 else 0
  {}

  lemma FourHundredths(y: int)
    ensures y / 400 - (y - 1) / 400 == if y % 400 == 0 then 1 else 0
  {}

  lemma HundredsAreFourths(y: int, q: int)
    requires y == 100 * q
    ensures y % 4 == 0
  {}

  lemma FourHundredsAreHundredths(y: int, q: int)
    requires y == 400 * q
    ensures y % 100 == 0
  {}

  lemma LeapYearsBefore(y: int)
    requires y >= 1
    ensures y / 4 - y / 100 + y / 400 - ((y - 1) / 4 - (y - 1) / 100 + (y - 1) / 400) == if Leap(y) then 1 else 0
  {
    Fourths(y);
    Hundredths(y);
    FourHundredths(y);
    if y % 400 == 0 {
      FourHundredsAreHundredths(y, y / 400);
    }
    if y % 100 == 0 {
      HundredsAreFourths(y, y / 100);
    }
  }

  lemma {:induction false} ClosedForm(y: int)
    requires y >= 1
    ensures DaysBeforeYear(y) == 365 * (y - 1) + (y - 1) / 4 - (y - 1) / 100 + (y - 1) / 400
  {
    if y > 1 {
      ClosedForm(y - 1);
      LeapYearsBefore(y - 1);
    }
  }

  /** The twelve months make up the year. */
  lemma MonthsMakeTheYear(y: int)
    ensures DaysBeforeMonth(y, 12) + 31 == YearLength(y)
  {
    assert DaysBeforeMonth(y, 2) == 31;
    assert DaysBeforeMonth(y, 4) == 31 + DaysIn(y, 2) + 31;
    assert DaysBeforeMonth(y, 6) == DaysBeforeMonth(y, 4) + 61;
    assert DaysBeforeMonth(y, 8) == DaysBeforeMonth(y, 6) + 61;
    assert DaysBeforeMonth(y, 10) == DaysBeforeMonth(y, 8) + 61;
    assert DaysBeforeMonth(y, 12) == DaysBeforeMonth(y, 10) + 61;
  }

  lemma {:induction false} MonthsGrow(y: int, m: int, n: int)
    requires 1 <= m < n <= 12
    ensures DaysBeforeMonth(y, m) + DaysIn(y, m) <= DaysBeforeMonth(y, n)
    decreases n - m
  {
    if m + 1 < n { MonthsGrow(y, m, n - 1); }
  }

  lemma DayOfYear(d: Date)
    requires IsDate(d)
    ensures 1 <= DaysBeforeMonth(d.year, d.month) + d.day <= YearLength(d.year)
  {
    if d.month < 12 { MonthsGrow(d.year, d.month, 12); }
    MonthsMakeTheYear(d.year);
  }

  lemma EarlierIsSmaller(a: Date, b: Date)
    requires IsDate(a) && IsDate(b) && Earlier(a, b)
    ensures Ordinal(a) < Ordinal(b)
  {
    DayOfYear(a);
    DayOfYear(b);
    if a.year < b.year {
      YearsGrow(a.year, b.year);
    } else if a.month < b.month {
      MonthsGrow(a.year, a.month, b.month);
    }
  }

  lemma OrdinalsOrderDates(a: Date, b: Date)
    requires IsDate(a) && IsDate(b)
    ensures Earlier(a, b) <==> Ordinal(a) < Ordinal(b)
    ensures a == b <==> Ordinal(a) == Ordinal(b)
  {
    if Earlier(a, b) { EarlierIsSmaller(a, b); }
    if Earlier(b, a) { EarlierIsSmaller(b, a); }
  }

  lemma OrdinalRange(d: Date)
    requires IsDate(d)
    ensures 1 <= Ordinal(d) <= LAST
  {
    DayOfYear(d);
    YearsGrow(d.year, 10_000);
    ClosedForm(10_000);
  }

  function YearFrom(n: int, y: int): (r: int)
    requires 1 <= n <= LAST && 1 <= y <= 9999 && DaysBeforeYear(y) < n
    ensures y <= r <= 9999 && DaysBeforeYear(r) < n && n <= DaysBeforeYear(r) + YearLength(r)
    decreases 9999 - y
  {
    ClosedForm(10_000);
    if y < 9999 && DaysBeforeYear(y + 1) < n then YearFrom(n, y + 1) else y
  }

  function MonthFrom(y: int, rest: int, m: int): (r: int)
    requires 1 <= m <= 12 && DaysBeforeMonth(y, m) < rest <= YearLength(y)
    ensures m <= r <= 12 && 1 <= rest - DaysBeforeMonth(y, r) <= DaysIn(y, r)
    decreases 12 - m
  {
    MonthsMakeTheYear(y);
    if m < 12 && DaysBeforeMonth(y, m + 1) < rest then MonthFrom(y, rest, m + 1) else m
  }

  /** The date with a given ordinal, as date arithmetic finds it; None is the overflow. */
  function DateAt(n: int): (d: Option<Date>)
    ensures d.Some? <==> 1 <= n <= LAST
    ensures d.Some? ==> IsDate(d.value) && Ordinal(d.value) == n
  {
    if !(1 <= n <= LAST) then None
    else
      var y := YearFrom(n, 1);
      var rest := n - DaysBeforeYear(y);
      var m := MonthFrom(y, rest, 1);
      Some(Date(y, m, rest - DaysBeforeMonth(y, m)))
  }

  lemma DateAtInverts(d: Date)
    requires IsDate(d)
    ensures DateAt(Ordinal(d)) == Some(d)
  {
    DateAtIs(d, Ordinal(d));
  }

  lemma DateAtIs(d: Date, n: int)
    requires IsDate(d) && Ordinal(d) == n
    ensures DateAt(n) == Some(d)
  {
    OrdinalRange(d);
    OrdinalsOrderDates(DateAt(n).value, d);
  }

  // The presets

  datatype Preset = Today | ThisWeek | ThisMonth | Custom | Unknown

  datatype Range = Range(from: Date, to: Date) | Invalid

  function WeekRange(today: Date): Range {
    var start := DateAt(Ordinal(today) - Weekday(today));
    if start.None? then Invalid else
      var end := DateAt(Ordinal(start.value) + 6);
      if end.None? then Invalid else Range(start.value, end.value)
  }

  /** The first day of the month after today's; in December 9999 it is no date. */
  function NextMonth(today: Date): Date {
    if today.month == 12 then Date(today.year + 1, 1, 1) else Date(today.year, today.month + 1, 1)
  }

  function MonthRange(today: Date): Range {
    var next := NextMonth(today);
    if IsDate(next) then Until(Date(today.year, today.month, 1), Ordinal(next) - 1) else Invalid
  }

  function Until(from: Date, n: int): Range {
    var to := DateAt(n);
    if to.None? then Invalid else Range(from, to.value)
  }

  /** A custom range needs both dates; None is a date not given. Invalid is the error raised. */
  function ReportRange(preset: Preset, today: Date, from: Option<Date>, to: Option<Date>): Range {
    match preset
    case Today => Range(today, today)
    case ThisWeek => WeekRange(today)
    case ThisMonth => MonthRange(today)
    case Custom =>
      if from.None? || to.None? || Earlier(to.value, from.value) then Invalid else Range(from.value, to.value)
    case Unknown => Invalid
  }

  predicate InRange(r: Range, d: Date) {
    r.Range? && !Earlier(d, r.from) && !Earlier(r.to, d)
  }

  /** Weeks run from Monday to Sunday: no Monday lies between the two dates. */
  predicate SameWeek(a: Date, b: Date) {
    (Ordinal(a) - 1) / 7 == (Ordinal(b) - 1) / 7
  }

  lemma WeekArithmetic(t: int, n: int, start: int, end: int)
    requires start == t - (t + 6) % 7 && end == start + 6
    ensures start <= n <= end <==> (n - 1) / 7 == (t - 1) / 7
    ensures (start + 6) % 7 == 0 && (end + 6) % 7 == 6
  {
    assert t - 1 == (t - 1) / 7 * 7 + (t - 1) % 7;
    assert (t + 6) % 7 == (t - 1) % 7;
    assert n - 1 == (n - 1) / 7 * 7 + (n - 1) % 7;
  }

  lemma InRangeByOrdinal(r: Range, d: Date)
    requires r.Range? && IsDate(r.from) && IsDate(r.to) && IsDate(d)
    ensures InRange(r, d) <==> Ordinal(r.from) <= Ordinal(d) <= Ordinal(r.to)
  {
    OrdinalsOrderDates(d, r.from);
    OrdinalsOrderDates(r.to, d);
  }

  /** The seven days from the Monday on or before today. */
  predicate IsWeekOf(r: Range, today: Date) {
    && r.Range? && IsDate(r.from) && IsDate(r.to)
    && Ordinal(r.from) == Ordinal(today) - Weekday(today) && Ordinal(r.to) == Ordinal(r.from) + 6
  }

  lemma WeekBounds(today: Date)
    requires IsDate(today)
    ensures WeekRange(today).Range? ==> IsWeekOf(WeekRange(today), today)
    ensures WeekRange(today).Range? <==> Ordinal(today) - Weekday(today) + 6 <= LAST
  {
    OrdinalRange(today);
    assert Weekday(today) <= Ordinal(today) - 1;
  }

  lemma WeekMembers(r: Range, today: Date, d: Date)
    requires IsDate(today) && IsDate(d) && IsWeekOf(r, today)
    ensures InRange(r, d) <==> SameWeek(d, today)
    ensures Weekday(r.from) == 0 && Weekday(r.to) == 6
  {
    InRangeByOrdinal(r, d);
    WeekArithmetic(Ordinal(today), Ordinal(d), Ordinal(r.from), Ordinal(r.to));
  }

  lemma LastSunday(sunday: Date)
    requires sunday.year == 9999 && sunday.month == 12 && sunday.day == 26
    ensures IsDate(sunday) && Ordinal(sunday) == LAST - 5
  {
    var y := sunday.year;
    ClosedForm(y);
    MonthsMakeTheYear(y);
    assert DaysBeforeMonth(y, 12) == 334;
    assert DaysBeforeYear(y) == LAST - 365;
  }

  lemma LastWholeWeek(today: Date)
    requires IsDate(today)
    ensures Ordinal(today) - Weekday(today) + 6 <= LAST <==> Ordinal(today) <= LAST - 5
  {
    OrdinalRange(today);
  }

  /**
    `this_week` is exactly the Monday-to-Sunday week of today, and fails only where
    that week leaves the calendar: after Sunday, 26 December 9999.
   */
  lemma ThisWeekIsTheWeek(today: Date, d: Date)
    requires IsDate(today) && IsDate(d)
    ensures WeekRange(today).Invalid? <==> Earlier(Date(9999, 12, 26), today)
    ensures WeekRange(today).Range? ==> (InRange(WeekRange(today), d) <==> SameWeek(d, today))
    ensures WeekRange(today).Range? ==> Weekday(WeekRange(today).from) == 0 && Weekday(WeekRange(today).to) == 6
  {
    WeekBounds(today);
    var r := WeekRange(today);
    if r.Range? { WeekMembers(r, today, d); }
    LastSunday(Date(9999, 12, 26));
    LastWholeWeek(today);
    OrdinalsOrderDates(Date(9999, 12, 26), today);
  }

  lemma NextMonthFollows(last: Date)
    requires IsDate(last) && last.day == DaysIn(last.year, last.month)
    ensures Ordinal(NextMonth(last)) == Ordinal(last) + 1
  {
    var y, m := last.year, last.month;
    if m == 12 {
      MonthsMakeTheYear(y);
      assert DaysBeforeYear(y + 1) == DaysBeforeYear(y) + YearLength(y);
    } else {
      assert DaysBeforeMonth(y, m + 1) == DaysBeforeMonth(y, m) + DaysIn(y, m);
    }
  }

  lemma NextMonthIsDate(today: Date)
    requires IsDate(today)
    ensures IsDate(NextMonth(today)) <==> !(today.year == 9999 && today.month == 12)
  {}

  lemma UntilIs(from: Date, to: Date, n: int)
    requires IsDate(to) && Ordinal(to) == n
    ensures Until(from, n) == Range(from, to)
  {
    DateAtIs(to, n);
  }

  lemma MonthBounds(today: Date, last: Date, next: Date)
    requires IsDate(today) && last == Date(today.year, today.month, DaysIn(today.year, today.month))
    requires next == NextMonth(today)
    ensures MonthRange(today) == if IsDate(next) then Range(Date(today.year, today.month, 1), last) else Invalid
  {
    assert next == NextMonth(last);
    NextMonthFollows(last);
    UntilIs(Date(today.year, today.month, 1), last, Ordinal(next) - 1);
  }

  /** `this_month` is every date of today's month, and fails only in December 9999. */
  lemma ThisMonthIsTheMonth(today: Date, d: Date)
    requires IsDate(today) && IsDate(d)
    ensures var r := MonthRange(today);
            && (r.Invalid? <==> today.year == 9999 && today.month == 12)
            && (r.Range? ==> (InRange(r, d) <==> d.year == today.year && d.month == today.month))
  {
    MonthBounds(today, Date(today.year, today.month, DaysIn(today.year, today.month)), NextMonth(today));
    NextMonthIsDate(today);
  }

  // The day bounds

  /** Local time is the instant plus this offset; instants count from the start of day 1. */
  type Offset = int

  function LocalDay(at: Time, offset: Offset): int {
    (at + offset) / DAY + 1
  }

  function DayStart(d: Date, offset: Offset): Time {
    (Ordinal(d) - 1) * DAY - offset
  }

  /** The last microsecond of the day. */
  function DayEnd(d: Date, offset: Offset): Time {
    DayStart(d, offset) + DAY - 1
  }

  predicate Selected(r: Range, offset: Offset, at: Time)
    requires r.Range?
  {
    DayStart(r.from, offset) <= at <= DayEnd(r.to, offset)
  }

  /** An instant is selected exactly when its local date lies in the range. */
  lemma SelectedIffInRange(r: Range, offset: Offset, at: Time, d: Date)
    requires r.Range? && IsDate(r.from) && IsDate(r.to) && IsDate(d) && LocalDay(at, offset) == Ordinal(d)
    ensures Selected(r, offset, at) <==> InRange(r, d)
  {
    InRangeByOrdinal(r, d);
    DivisionBounds(at + offset, Ordinal(r.from) - 1);
    DivisionBounds(at + offset, Ordinal(r.to));
  }

  lemma DivisionBounds(x: int, n: int)
    ensures n * DAY <= x <==> n <= x / DAY
  {
    assert x == x / DAY * DAY + x % DAY;
  }

  /** And a selected instant has a date of its own, so every section has one. */
  lemma SelectedHasADate(r: Range, offset: Offset, at: Time)
    requires r.Range? && IsDate(r.from) && IsDate(r.to) && Selected(r, offset, at)
    ensures DateAt(LocalDay(at, offset)).Some? && InRange(r, DateAt(LocalDay(at, offset)).value)
  {
    OrdinalRange(r.from);
    OrdinalRange(r.to);
    DivisionBounds(at + offset, Ordinal(r.from) - 1);
    DivisionBounds(at + offset, Ordinal(r.to));
    SelectedIffInRange(r, offset, at, DateAt(LocalDay(at, offset)).value);
  }

  // The other presets, and the calendar itself

  /** `today` is today alone; a custom range holds its dates, both ends included, and needs both in order. */
  lemma OtherPresetsMean(today: Date, from: Option<Date>, to: Option<Date>, d: Date)
    requires IsDate(today) && IsDate(d)
    ensures InRange(ReportRange(Today, today, from, to), d) <==> d == today
    ensures ReportRange(Custom, today, from, to).Range? <==> from.Some? && to.Some? && !Earlier(to.value, from.value)
    ensures var r := ReportRange(Custom, today, from, to);
            InRange(r, d) <==> from.Some? && to.Some? && !Earlier(d, from.value) && !Earlier(to.value, d)
    ensures ReportRange(ThisWeek, today, from, to) == WeekRange(today)
    ensures ReportRange(ThisMonth, today, from, to) == MonthRange(today)
    ensures ReportRange(Unknown, today, from, to) == Invalid
  {}

  /** The number of a date, from the leap years before it and the days of its year before the month. */
  lemma NumberOf(d: Date, leaps: int, before: int)
    requires d.year >= 1 && leaps == (d.year - 1) / 4 - (d.year - 1) / 100 + (d.year - 1) / 400
    requires before == DaysBeforeMonth(d.year, d.month)
    ensures Ordinal(d) == 365 * (d.year - 1) + leaps + before + d.day
  {
    ClosedForm(d.year);
  }

  /** A few dates whose numbers and weekdays are known, on both sides of leap days and month ends. */
  lemma KnownDates()
    ensures var d := Date(1900, 3, 1); IsDate(d) && Ordinal(d) == 693_655 && Weekday(d) == 3
    ensures var d := Date(2000, 2, 29); IsDate(d) && Ordinal(d) == 730_179 && Weekday(d) == 1
    ensures !IsDate(Date(2023, 2, 29)) && !IsDate(Date(1900, 2, 29)) && !IsDate(Date(2024, 4, 31))
  {
    DaysBefore(1900);
    DaysBefore(2000);
    NumberOf(Date(1900, 3, 1), 460, 59);
    NumberOf(Date(2000, 2, 29), 484, 31);
  }

  lemma LaterKnownDates()
    ensures var d := Date(2023, 5, 1); IsDate(d) && Ordinal(d) == 738_641 && Weekday(d) == 0
    ensures var d := Date(2024, 8, 1); IsDate(d) && Ordinal(d) == 739_099 && Weekday(d) == 3
    ensures var d := Date(2025, 12, 31); IsDate(d) && Ordinal(d) == 739_616 && Weekday(d) == 2
  {
    DaysBefore(2023);
    DaysBefore(2024);
    DaysBefore(2025);
    NumberOf(Date(2023, 5, 1), 490, 120);
    NumberOf(Date(2024, 8, 1), 490, 213);
    NumberOf(Date(2025, 12, 31), 491, 334);
  }

  /** The days before each month, of a year with so many days in February. */
  lemma DaysBefore(y: int)
    ensures var feb := if Leap(y) then 29 else 28;
            && DaysBeforeMonth(y, 1) == 0 && DaysBeforeMonth(y, 2) == 31 && DaysBeforeMonth(y, 3) == 31 + feb
            && DaysBeforeMonth(y, 4) == 62 + feb && DaysBeforeMonth(y, 5) == 92 + feb
            && DaysBeforeMonth(y, 6) == 123 + feb && DaysBeforeMonth(y, 7) == 153 + feb
            && DaysBeforeMonth(y, 8) == 184 + feb && DaysBeforeMonth(y, 9) == 215 + feb
            && DaysBeforeMonth(y, 10) == 245 + feb && DaysBeforeMonth(y, 11) == 276 + feb
            && DaysBeforeMonth(y, 12) == 306 + feb
  {
    assert DaysBeforeMonth(y, 3) == DaysBeforeMonth(y, 2) + DaysIn(y, 2);
    assert DaysBeforeMonth(y, 5) == DaysBeforeMonth(y, 3) + 61;
    assert DaysBeforeMonth(y, 7) == DaysBeforeMonth(y, 5) + 61;
    assert DaysBeforeMonth(y, 9) == DaysBeforeMonth(y, 7) + 62;
    assert DaysBeforeMonth(y, 11) == DaysBeforeMonth(y, 9) + 61;
  }
}
