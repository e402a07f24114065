// The proleptic Gregorian calendar, counted in whole days from 1970-01-01.
//
// `DateOf` steps one day at a time from the epoch, so it rests only on the month lengths and the
// leap rule; `DayNumber` is the closed form. The two are proved inverse to one another.
module Calendar {

  datatype Date = Date(year: int, month: int, day: int)

  predicate Leap(year: int) {
    year % 4 == 0 && (year % 100 != 0 || year % 400 == 0)
  }

  function DaysIn(year: int, month: int): (n: int)
    requires 1 <= month <= 12
    ensures 28 <= n <= 31
  {
    if month == 2 then (if Leap(year) then 29 else 28)
    else if month in {4, 6, 9, 11} then 30
    else 31
  }

  // The most days the month ever has: February counts 29.
  function LongestDaysIn(month: int): (n: int)
    requires 1 <= month <= 12
    ensures 29 <= n <= 31
  {
    if month == 2 then 29 else if month in {4, 6, 9, 11} then 30 else 31
  }

  predicate ValidDate(x: Date) {
    1 <= x.month <= 12 && 1 <= x.day <= DaysIn(x.year, x.month)
  }

  function Succ(x: Date): (r: Date)
    requires ValidDate(x)
    ensures ValidDate(r)
  {
    if x.day < DaysIn(x.year, x.month) then x.(day := x.day + 1)
    else if x.month < 12 then Date(x.year, x.month + 1, 1)
    else Date(x.year + 1, 1, 1)
  }

  function Pred(x: Date): (r: Date)
    requires ValidDate(x)
    ensures ValidDate(r)
  {
    if x.day > 1 then x.(day := x.day - 1)
    else if x.month > 1 then Date(x.year, x.month - 1, DaysIn(x.year, x.month - 1))
    else Date(x.year - 1, 12, 31)
  }

  function DateOf(n: int): (r: Date)
    ensures ValidDate(r)
    decreases if n < 0 then -n else n
  {
    if n == 0 then Date(1970, 1, 1)
    else if n > 0 then Succ(DateOf(n - 1))
    else Pred(DateOf(n + 1))
  }

  // 1970-01-01 was a Thursday; Sunday is 0.
  function Weekday(n: int): (w: int)
    ensures 0 <= w <= 6
  {
    (n + 4) % 7
  }

  function YearStart(year: int): int {
    var p := year - 1;
    365 * p + p / 4 - p / 100 + p / 400 - 719162
  }

  function MonthOffset(year: int, month: int): int
    requires 1 <= month <= 12
  {
    [0, 31, 59, 90, 120, 151, 181, 212, 243, 273, 304, 334][month - 1]
    + if month > 2 && Leap(year) then 1 else 0
  }

  function DayNumber(x: Date): int
    requires ValidDate(x)
  {
    YearStart(x.year) + MonthOffset(x.year, x.month) + x.day - 1
  }

  lemma DivStep(year: int, k: int)
    requires k in {4, 100, 400}
    ensures year / k == (year - 1) / k + if year % k == 0 then 1 else 0
  {
  }

  lemma YearLength(year: int)
    ensures YearStart(year + 1) == YearStart(year) + if Leap(year) then 366 else 365
  {
    DivStep(year, 4);
    DivStep(year, 100);
    DivStep(year, 400);
    var q := year / 400;
    var r := year % 400;
    assert year == 400 * q + r;
    assert year % 4 == r % 4 && year % 100 == r % 100;
  }

  lemma {:induction false} YearStartGap(year: int, k: nat)
    ensures YearStart(year) + 365 * k <= YearStart(year + k) <= YearStart(year) + 366 * k
    decreases k
  {
    if k > 0 {
      YearStartGap(year, k - 1);
      YearLength(year + k - 1);
    }
  }

  lemma DayNumberInYear(x: Date)
    requires ValidDate(x)
    ensures YearStart(x.year) <= DayNumber(x) < YearStart(x.year + 1)
  {
    YearLength(x.year);
  }

  lemma SuccAdvances(x: Date)
    requires ValidDate(x)
    ensures DayNumber(Succ(x)) == DayNumber(x) + 1
  {
    YearLength(x.year);
  }

  lemma PredRetreats(x: Date)
    requires ValidDate(x)
    ensures DayNumber(Pred(x)) == DayNumber(x) - 1
  {
    YearLength(x.year - 1);
  }

  lemma DayNumberByYear(x: Date, z: Date)
    requires ValidDate(x) && ValidDate(z) && x.year < z.year
    ensures DayNumber(x) < DayNumber(z)
  {
    DayNumberInYear(x);
    DayNumberInYear(z);
    YearStartGap(x.year + 1, z.year - x.year - 1);
  }

  lemma DayNumberInjective(x: Date, z: Date)
    requires ValidDate(x) && ValidDate(z) && DayNumber(x) == DayNumber(z)
    ensures x == z
  {
    if x.year < z.year {
      DayNumberByYear(x, z);
    } else if z.year < x.year {
      DayNumberByYear(z, x);
    }
  }

  lemma {:induction false} DayNumberOfDateOf(n: int)
    ensures DayNumber(DateOf(n)) == n
    decreases if n < 0 then -n else n
  {
    if n > 0 {
      DayNumberOfDateOf(n - 1);
      SuccAdvances(DateOf(n - 1));
    } else if n < 0 {
      DayNumberOfDateOf(n + 1);
      PredRetreats(DateOf(n + 1));
    }
  }

  lemma DateOfDayNumber(x: Date)
    requires ValidDate(x)
    ensures DateOf(DayNumber(x)) == x
  {
    DayNumberOfDateOf(DayNumber(x));
    DayNumberInjective(DateOf(DayNumber(x)), x);
  }

  lemma DayNumberGap(x: Date, z: Date)
    requires ValidDate(x) && ValidDate(z) && x.year < z.year
    ensures DayNumber(z) < DayNumber(x) + 366 * (z.year - x.year + 1)
  {
    DayNumberInYear(x);
    DayNumberInYear(z);
    YearStartGap(x.year, z.year + 1 - x.year);
  }

  // A leap year is never more than eight years away: a century that is not leap costs one cycle.
  lemma NextLeapYear(year: int) returns (leap: int)
    ensures year < leap <= year + 8 && Leap(leap)
  {
    leap := year + 4 - year % 4;
    if !Leap(leap) {
      leap := leap + 4;
    }
  }

  // ---- Weekdays ----

  function LeapDays(year: int): int {
    year / 4 - year / 100 + year / 400
  }

  function MonthCode(month: int): int
    requires 1 <= month <= 12
  {
    [0, 3, 2, 5, 0, 3, 5, 1, 4, 6, 2, 4][month - 1]
  }

  // The weekday read off a date by Sakamoto's congruence.
  function DayOfWeek(x: Date): int
    requires 1 <= x.month <= 12
  {
    var y := if x.month < 3 then x.year - 1 else x.year;
    (y + LeapDays(y) + MonthCode(x.month) + x.day) % 7
  }

  lemma SameRest(a: int, k: int)
    ensures (a + 7 * k) % 7 == a % 7
  {
  }

  lemma MonthsInSevens(year: int, month: int) returns (k: int)
    requires 1 <= month <= 12
    ensures MonthOffset(year, month) == MonthCode(month) + 7 * k + if month < 3 then 0 else if Leap(year) then 2 else 1
  {
    k := (MonthOffset(2001, month) - MonthCode(month)) / 7;
  }

  lemma LeapDaysStep(year: int)
    ensures LeapDays(year) == LeapDays(year - 1) + if Leap(year) then 1 else 0
  {
    YearLength(year);
  }

  lemma WeekdayOfDate(x: Date)
    requires ValidDate(x)
    ensures Weekday(DayNumber(x)) == DayOfWeek(x)
  {
    LeapDaysStep(x.year);
    var p := x.year - 1;
    var k := MonthsInSevens(x.year, x.month);
    var y := if x.month < 3 then p else x.year;
    var a := y + LeapDays(y) + MonthCode(x.month) + x.day;
    assert DayNumber(x) + 4 == a + 7 * (52 * p - 102737 + k);
    SameRest(a, 52 * p - 102737 + k);
  }

  lemma WeekdaysGoRound(n: int)
    ensures Weekday(n + 1) == (Weekday(n) + 1) % 7
  {
  }

  // The first day of 1970 was a Thursday, the first of 2000 a Saturday.
  lemma KnownWeekdays()
    ensures DayOfWeek(Date(1970, 1, 1)) == 4 && DayOfWeek(Date(2000, 1, 1)) == 6
  {
  }

  // The weekdays are the civil ones: they go round one by one, known dates have theirs, and every date
  // has the weekday that the congruence gives it.
  lemma WeekdayIsCivil(x: Date)
    requires ValidDate(x)
    ensures Weekday(DayNumber(x)) == DayOfWeek(x)
    ensures DayOfWeek(Succ(x)) == (DayOfWeek(x) + 1) % 7
    ensures DayOfWeek(Date(1970, 1, 1)) == 4 && DayOfWeek(Date(2000, 1, 1)) == 6
  {
    SuccAdvances(x);
    WeekdayOfDate(x);
    WeekdayOfDate(Succ(x));
    WeekdaysGoRound(DayNumber(x));
    KnownWeekdays();
  }
}
