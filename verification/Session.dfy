/** The NYSE calendar: regular hours, holidays, and the search for the next opening. Instants are
    UTC milliseconds; days are counted from 1 January 1970 in New York calendar terms. */
module Session {
  import opened Basics

  const HOUR := 3_600_000
  const DAY := 86_400_000
  const SESSION_LENGTH := 23_400_000

  /** Whether daylight saving is in force at the midnight that starts a day. Clocks change at 02:00,
      so what holds from 09:30 to 16:00 is what holds at the next midnight. Any schedule will do. */
  type Daylight = int -> bool

  function BehindUtc(dst: Daylight, day: int): int {
    if dst(day) then 4 * HOUR else 5 * HOUR
  }

  function Midnight(dst: Daylight, day: int): int {
    day * DAY + BehindUtc(dst, day)
  }

  /** The instant of 09:30 local time. */
  function Opening(dst: Daylight, day: int): int {
    day * DAY + 34_200_000 + BehindUtc(dst, day + 1)
  }

  /** The local calendar day of an instant. */
  function DayOf(dst: Daylight, tsMs: int): (day: int)
    ensures Midnight(dst, day) <= tsMs < Midnight(dst, day + 1)
  {
    var day := (tsMs - 5 * HOUR) / DAY;
    if Midnight(dst, day + 1) <= tsMs then day + 1 else day
  }

  // --------------------------------------------------------------------- trading days

  function Date(year: int, daysBeforeMonth: int, dayOfMonth: int): int {
    20454 + 365 * (year - 2026) + daysBeforeMonth + dayOfMonth - 1
  }

  const JAN := 0
  const FEB := 31
  const MAR := 59
  const APR := 90
  const MAY := 120
  const JUN := 151
  const JUL := 181
  const SEP := 243
  const NOV := 304
  const DEC := 334

  const NYSE_HOLIDAYS: set<int> := {
    Date(2026, JAN, 1), Date(2026, JAN, 19), Date(2026, FEB, 16), Date(2026, APR, 3), Date(2026, MAY, 25),
    Date(2026, JUN, 19), Date(2026, JUL, 3), Date(2026, SEP, 7), Date(2026, NOV, 26), Date(2026, DEC, 25),
    Date(2027, JAN, 1), Date(2027, JAN, 18), Date(2027, FEB, 15), Date(2027, MAR, 26), Date(2027, MAY, 31),
    Date(2027, JUN, 18), Date(2027, JUL, 5), Date(2027, SEP, 6), Date(2027, NOV, 25), Date(2027, DEC, 24)
  }

  /** Monday is 0. */
  function Weekday(day: int): int {
    (day + 3) % 7
  }

  predicate IsTradingDay(day: int) {
    Weekday(day) < 5 && day !in NYSE_HOLIDAYS
  }

  /** Every holiday falls on a weekday, and no two are within three days of each other. */
  lemma HolidaysApart(a: int, b: int)
    requires a in NYSE_HOLIDAYS && b in NYSE_HOLIDAYS && a < b
    ensures b - a >= 4 && Weekday(a) < 5 && Weekday(b) < 5
  {}

  /** Any four consecutive days hold a trading day. */
  lemma FourDaysHoldATradingDay(day: int) returns (k: nat)
    ensures k < 4 && IsTradingDay(day + k)
  {
    var w := Weekday(day);
    var a, b := if w == 6 then 1 else if w == 5 then 2 else 0, if w == 6 then 2 else if w >= 4 then 3 else 1;
    WeekdaysAhead(day, w, a, b);
    OneOfTwoTrades(day + a, day + b);
    k := if IsTradingDay(day + a) then a else b;
  }

  lemma WeekdaysAhead(day: int, w: int, a: int, b: int)
    requires w == Weekday(day)
    requires a == (if w == 6 then 1 else if w == 5 then 2 else 0) && b == if w == 6 then 2 else if w >= 4 then 3 else 1
    ensures 0 <= a < b < 4 && Weekday(day + a) < 5 && Weekday(day + b) < 5
  {}

  /** Of two weekdays within three days of each other, one is a trading day. */
  lemma OneOfTwoTrades(a: int, b: int)
    requires a < b < a + 4 && Weekday(a) < 5 && Weekday(b) < 5
    ensures IsTradingDay(a) || IsTradingDay(b)
  {
    if a in NYSE_HOLIDAYS && b in NYSE_HOLIDAYS {
      HolidaysApart(a, b);
    }
  }

  // ------------------------------------------------------------ the calendar's own rules

  predicate Leap(year: int) {
    year % 4 == 0 && (year % 100 != 0 || year % 400 == 0)
  }

  /** The days from 1 January 1970 to 1 January of a year, counted year by year. */
  function YearStart(year: int): int
    decreases year
  {
    if year <= 1970 then 0 else YearStart(year - 1) + if Leap(year - 1) then 366 else 365
  }

  function MonthLength(year: int, month: int): int {
    if month == 2 then (if Leap(year) then 29 else 28) else if month in {4, 6, 9, 11} then 30 else 31
  }

  function MonthStart(year: int, month: int): int
    decreases month
  {
    if month <= 1 then 0 else MonthStart(year, month - 1) + MonthLength(year, month - 1)
  }

  function Civil(year: int, month: int, dayOfMonth: int): int {
    YearStart(year) + MonthStart(year, month) + dayOfMonth - 1
  }

  lemma {:induction false} YearStartClosed(year: int)
    requires 1970 <= year < 2100
    ensures YearStart(year) == 365 * (year - 1970) + (year - 1969) / 4
    decreases year
  {
    if year > 1970 { YearStartClosed(year - 1); }
  }

  /** The n-th such weekday of a month, the last one for n of five. */
  predicate IsNth(day: int, year: int, month: int, weekday: int, n: int) {
    && Weekday(day) == weekday
    && Civil(year, month, 1) + 7 * (n - 1) <= day < Civil(year, month, 1) + 7 * n
  }

  predicate IsLast(day: int, year: int, month: int, weekday: int) {
    Weekday(day) == weekday && Civil(year, month + 1, 1) - 7 <= day < Civil(year, month + 1, 1)
  }

  /** A date that falls on a Saturday is kept the day before, on a Sunday the day after. */
  predicate IsKept(day: int, date: int) {
    day == if Weekday(date) == 5 then date - 1 else if Weekday(date) == 6 then date + 1 else date
  }

  /** Easter Sunday of the Gregorian calendar, by Gauss's method for the years 1900 to 2099. */
  function Easter(year: int): int {
    var d := (19 * (year % 19) + 24) % 30;
    var e := (2 * (year % 4) + 4 * (year % 7) + 6 * d + 5) % 7;
    Civil(year, 3, 22) + d + e
  }

  /** The closures of a year by rule: New Year's Day, the third Mondays of January and February, the Friday before
      Easter, the last Monday of May, 19 June, 4 July, the first Monday of September, the fourth Thursday of November
      and Christmas Day, the fixed dates as they are kept. */
  predicate ClosedByRule(year: int, day: int) {
    || IsKept(day, Civil(year, 1, 1)) || IsNth(day, year, 1, 0, 3) || IsNth(day, year, 2, 0, 3)
    || day == Easter(year) - 2 || IsLast(day, year, 5, 0) || IsKept(day, Civil(year, 6, 19))
    || IsKept(day, Civil(year, 7, 4)) || IsNth(day, year, 9, 0, 1) || IsNth(day, year, 11, 3, 4)
    || IsKept(day, Civil(year, 12, 25))
  }

  lemma {:induction false} MonthStarts(year: int)
    requires year == 2026 || year == 2027
    ensures MonthStart(year, 1) == JAN && MonthStart(year, 2) == FEB && MonthStart(year, 3) == MAR
    ensures MonthStart(year, 4) == APR && MonthStart(year, 5) == MAY && MonthStart(year, 6) == JUN
    ensures MonthStart(year, 7) == JUL && MonthStart(year, 9) == SEP && MonthStart(year, 11) == NOV
    ensures MonthStart(year, 12) == DEC
  {
    assert MonthStart(year, 3) == MAR;
    assert MonthStart(year, 5) == MAY;
    assert MonthStart(year, 7) == JUL;
    assert MonthStart(year, 9) == SEP;
    assert MonthStart(year, 11) == NOV;
  }

  lemma OneInSeven(day: int, from: int, weekday: int, found: int)
    requires from <= found < from + 7 && Weekday(found) == weekday
    ensures Weekday(day) == weekday && from <= day < from + 7 <==> day == found
  {}

  lemma Dates2026()
    ensures Civil(2026, 1, 1) == Date(2026, JAN, 1) && Civil(2026, 2, 1) == Date(2026, FEB, 1)
    ensures Civil(2026, 3, 22) == Date(2026, MAR, 22) && Civil(2026, 5, 1) == Date(2026, MAY, 1)
    ensures Civil(2026, 6, 1) == Date(2026, JUN, 1) && Civil(2026, 6, 19) == Date(2026, JUN, 19)
    ensures Civil(2026, 7, 4) == Date(2026, JUL, 4) && Civil(2026, 9, 1) == Date(2026, SEP, 1)
    ensures Civil(2026, 11, 1) == Date(2026, NOV, 1) && Civil(2026, 12, 25) == Date(2026, DEC, 25)
  {
    YearStartClosed(2026);
    MonthStarts(2026);
  }

  lemma FixedDates2026(day: int)
    ensures IsKept(day, Civil(2026, 1, 1)) <==> day == Date(2026, JAN, 1)
    ensures IsKept(day, Civil(2026, 6, 19)) <==> day == Date(2026, JUN, 19)
    ensures IsKept(day, Civil(2026, 7, 4)) <==> day == Date(2026, JUL, 3)
    ensures IsKept(day, Civil(2026, 12, 25)) <==> day == Date(2026, DEC, 25)
    ensures day == Easter(2026) - 2 <==> day == Date(2026, APR, 3)
  {
    Dates2026();
  }

  lemma Mondays2026(day: int)
    ensures IsNth(day, 2026, 1, 0, 3) <==> day == Date(2026, JAN, 19)
    ensures IsNth(day, 2026, 2, 0, 3) <==> day == Date(2026, FEB, 16)
    ensures IsLast(day, 2026, 5, 0) <==> day == Date(2026, MAY, 25)
    ensures IsNth(day, 2026, 9, 0, 1) <==> day == Date(2026, SEP, 7)
    ensures IsNth(day, 2026, 11, 3, 4) <==> day == Date(2026, NOV, 26)
  {
    Dates2026();
    OneInSeven(day, Date(2026, JAN, 15), 0, Date(2026, JAN, 19));
    OneInSeven(day, Date(2026, FEB, 15), 0, Date(2026, FEB, 16));
    OneInSeven(day, Date(2026, MAY, 25), 0, Date(2026, MAY, 25));
    OneInSeven(day, Date(2026, SEP, 1), 0, Date(2026, SEP, 7));
    OneInSeven(day, Date(2026, NOV, 22), 3, Date(2026, NOV, 26));
  }

  lemma Dates2027()
    ensures Civil(2027, 1, 1) == Date(2027, JAN, 1) && Civil(2027, 2, 1) == Date(2027, FEB, 1)
    ensures Civil(2027, 3, 22) == Date(2027, MAR, 22) && Civil(2027, 5, 1) == Date(2027, MAY, 1)
    ensures Civil(2027, 6, 1) == Date(2027, JUN, 1) && Civil(2027, 6, 19) == Date(2027, JUN, 19)
    ensures Civil(2027, 7, 4) == Date(2027, JUL, 4) && Civil(2027, 9, 1) == Date(2027, SEP, 1)
    ensures Civil(2027, 11, 1) == Date(2027, NOV, 1) && Civil(2027, 12, 25) == Date(2027, DEC, 25)
  {
    YearStartClosed(2027);
    MonthStarts(2027);
  }

  lemma FixedDates2027(day: int)
    ensures IsKept(day, Civil(2027, 1, 1)) <==> day == Date(2027, JAN, 1)
    ensures IsKept(day, Civil(2027, 6, 19)) <==> day == Date(2027, JUN, 18)
    ensures IsKept(day, Civil(2027, 7, 4)) <==> day == Date(2027, JUL, 5)
    ensures IsKept(day, Civil(2027, 12, 25)) <==> day == Date(2027, DEC, 24)
    ensures day == Easter(2027) - 2 <==> day == Date(2027, MAR, 26)
  {
    Dates2027();
  }

  lemma Mondays2027(day: int)
    ensures IsNth(day, 2027, 1, 0, 3) <==> day == Date(2027, JAN, 18)
    ensures IsNth(day, 2027, 2, 0, 3) <==> day == Date(2027, FEB, 15)
    ensures IsLast(day, 2027, 5, 0) <==> day == Date(2027, MAY, 31)
    ensures IsNth(day, 2027, 9, 0, 1) <==> day == Date(2027, SEP, 6)
    ensures IsNth(day, 2027, 11, 3, 4) <==> day == Date(2027, NOV, 25)
  {
    Dates2027();
    OneInSeven(day, Date(2027, JAN, 15), 0, Date(2027, JAN, 18));
    OneInSeven(day, Date(2027, FEB, 15), 0, Date(2027, FEB, 15));
    OneInSeven(day, Date(2027, MAY, 25), 0, Date(2027, MAY, 31));
    OneInSeven(day, Date(2027, SEP, 1), 0, Date(2027, SEP, 6));
    OneInSeven(day, Date(2027, NOV, 22), 3, Date(2027, NOV, 25));
  }

  lemma Closures2026(day: int)
    ensures ClosedByRule(2026, day) <==> day in NYSE_HOLIDAYS && day < Date(2027, JAN, 1)
  {
    FixedDates2026(day);
    Mondays2026(day);
  }

  lemma Closures2027(day: int)
    ensures ClosedByRule(2027, day) <==> day in NYSE_HOLIDAYS && day >= Date(2027, JAN, 1)
  {
    FixedDates2027(day);
    Mondays2027(day);
  }

  /** The table is the exchange's own calendar: exactly the closures of 2026 and 2027 by rule. */
  lemma HolidaysByRule(day: int)
    ensures day in NYSE_HOLIDAYS <==> ClosedByRule(2026, day) || ClosedByRule(2027, day)
  {
    Closures2026(day);
    Closures2027(day);
  }

  // -------------------------------------------------------------------- market hours

  /** 09:30 up to but not including 16:00 local time on a trading day. */
  predicate IsOpen(dst: Daylight, tsMs: int) {
    var day := DayOf(dst, tsMs);
    IsTradingDay(day) && Opening(dst, day) <= tsMs < Opening(dst, day) + SESSION_LENGTH
  }

  ghost predicate IsOpening(dst: Daylight, tsMs: int) {
    exists day :: IsTradingDay(day) && tsMs == Opening(dst, day)
  }

  lemma DayIsUnique(dst: Daylight, tsMs: int, day: int)
    requires Midnight(dst, day) <= tsMs < Midnight(dst, day + 1)
    ensures DayOf(dst, tsMs) == day
  {
    var d := DayOf(dst, tsMs);
    assert d < day ==> (d + 1) * DAY <= day * DAY;
    assert d > day ==> (day + 1) * DAY <= d * DAY;
  }

  /** The market is open exactly in the six and a half hours that follow an opening. */
  lemma OpenAfterAnOpening(dst: Daylight, tsMs: int)
    ensures IsOpen(dst, tsMs)
            <==> exists day :: IsTradingDay(day) && Opening(dst, day) <= tsMs < Opening(dst, day) + SESSION_LENGTH
  {
    forall day | IsTradingDay(day) && Opening(dst, day) <= tsMs < Opening(dst, day) + SESSION_LENGTH
      ensures IsOpen(dst, tsMs)
    {
      DayIsUnique(dst, tsMs, day);
    }
  }

  /** Minutes past local midnight on the clock on the wall: five hours behind UTC, four under daylight saving, with
      changes at 02:00. */
  function WallMinutes(dst: Daylight, tsMs: int): int {
    var day := DayOf(dst, tsMs);
    var hours := if dst(if tsMs >= Midnight(dst, day) + 7_200_000 then day + 1 else day) then 4 else 5;
    tsMs / 60_000 - hours * 60 - day * 24 * 60
  }

  /** The market is open exactly when the wall clock of a weekday shows 9:30 or later, and not yet 16:00, and the
      exchange's rules do not close that day. */
  lemma OpenByTheClock(dst: Daylight, tsMs: int)
    ensures 0 <= WallMinutes(dst, tsMs) < 24 * 60
    ensures var day := DayOf(dst, tsMs);
            IsOpen(dst, tsMs)
            <==> && Weekday(day) < 5 && !ClosedByRule(2026, day) && !ClosedByRule(2027, day)
                 && 9 * 60 + 30 <= WallMinutes(dst, tsMs) < 16 * 60
  {
    HolidaysByRule(DayOf(dst, tsMs));
  }

  /** `next` is the first opening strictly after `tsMs`, at most four days on; the market is open at
      it, and if it was closed at `tsMs` it stays closed until then. */
  ghost predicate FirstOpeningAfter(dst: Daylight, tsMs: int, next: int) {
    && next > tsMs && IsOpening(dst, next) && IsOpen(dst, next)
    && (forall t :: tsMs < t < next ==> !IsOpening(dst, t))
    && (!IsOpen(dst, tsMs) ==> forall t :: tsMs <= t < next ==> !IsOpen(dst, t))
    && DayOf(dst, next) <= DayOf(dst, tsMs) + 4
  }

  lemma LeastTradingDayGivesTheFirstOpening(dst: Daylight, tsMs: int, day: int)
    requires var today := DayOf(dst, tsMs);
             && today <= day <= today + 4 && IsTradingDay(day) && Opening(dst, day) > tsMs
             && forall d :: today <= d < day ==> !(IsTradingDay(d) && Opening(dst, d) > tsMs)
    ensures FirstOpeningAfter(dst, tsMs, Opening(dst, day))
  {
    var next := Opening(dst, day);
    DayIsUnique(dst, next, day);
    forall d | d < DayOf(dst, tsMs) ensures Opening(dst, d) < tsMs {
      assert (d + 1) * DAY <= DayOf(dst, tsMs) * DAY;
    }
    assert forall d :: d >= day ==> Opening(dst, d) >= next by {
      assert forall d :: d > day ==> (day + 1) * DAY <= d * DAY;
    }
    if !IsOpen(dst, tsMs) {
      forall t | tsMs <= t < next ensures !IsOpen(dst, t) {
        StaysClosed(dst, tsMs, t, next);
      }
    }
  }

  lemma StaysClosed(dst: Daylight, tsMs: int, t: int, next: int)
    requires !IsOpen(dst, tsMs) && tsMs <= t < next
    requires forall d :: IsTradingDay(d) && Opening(dst, d) > tsMs ==> Opening(dst, d) >= next
    ensures !IsOpen(dst, t)
  {
    OpenAfterAnOpening(dst, t);
    OpenAfterAnOpening(dst, tsMs);
  }

  /** The scan of at most 366 days from today. It always succeeds, within four. */
  method NextOpenMs(dst: Daylight, tsMs: int) returns (next: Option<int>)
    ensures next.Some? && FirstOpeningAfter(dst, tsMs, next.value)
  {
    var today := DayOf(dst, tsMs);
    ghost var k := FourDaysHoldATradingDay(today + 1);
    ghost var bound := today + 1 + k;
    assert Opening(dst, bound) > tsMs;
    var day := today;
    next := None;
    for i := 0 to 366
      invariant next.None? && day == today + i <= bound
      invariant forall d :: today <= d < day ==> !(IsTradingDay(d) && Opening(dst, d) > tsMs)
    {
      if IsTradingDay(day) && Opening(dst, day) > tsMs {
        LeastTradingDayGivesTheFirstOpening(dst, tsMs, day);
        next := Some(Opening(dst, day));
        break;
      }
      day := day + 1;
    }
  }
}
