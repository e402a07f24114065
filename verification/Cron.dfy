// Cron evaluation on a calendar without time zones (go/cronspec.go).
//
// Field masks are sets; times are milliseconds from the epoch and may be negative.
module Cron {
  import opened Common
  import opened Calendar

  const DAY_SECONDS := 86400
  const SEARCH_DAYS := 366 * 12

  datatype CronSpec = CronSpec(
    sec: set<int>, min: set<int>, hour: set<int>,
    dom: set<int>, month: set<int>, dow: set<int>,
    domStar: bool, dowStar: bool)

  // What parsing guarantees: no field is empty, every value is in range, a star field is full.
  predicate Parsed(c: CronSpec) {
    && (exists v :: v in c.sec) && (forall v :: v in c.sec ==> 0 <= v <= 59)
    && (exists v :: v in c.min) && (forall v :: v in c.min ==> 0 <= v <= 59)
    && (exists v :: v in c.hour) && (forall v :: v in c.hour ==> 0 <= v <= 23)
    && (exists v :: v in c.dom) && (forall v :: v in c.dom ==> 1 <= v <= 31)
    && (exists v :: v in c.month) && (forall v :: v in c.month ==> 1 <= v <= 12)
    && (exists v :: v in c.dow) && (forall v :: v in c.dow ==> 0 <= v <= 6)
    && (c.domStar ==> forall v :: 1 <= v <= 31 ==> v in c.dom)
    && (c.dowStar ==> forall v :: 0 <= v <= 6 ==> v in c.dow)
  }

  predicate DayMatches(c: CronSpec, n: int) {
    var x := DateOf(n);
    var domHit := x.day in c.dom;
    var dowHit := Weekday(n) in c.dow;
    x.month in c.month && if !c.domStar && !c.dowStar then domHit || dowHit else domHit && dowHit
  }

  predicate TimeMatches(c: CronSpec, at: int) {
    at / 3600 in c.hour && at % 3600 / 60 in c.min && at % 60 in c.sec
  }

  predicate SecondMatches(c: CronSpec, s: int) {
    DayMatches(c, s / DAY_SECONDS) && TimeMatches(c, s % DAY_SECONDS)
  }

  // The crontab reading of one instant, to which the search is compared.
  predicate Matches(c: CronSpec, t: int) {
    t % 1000 == 0 && SecondMatches(c, t / 1000)
  }

  // ---- The crontab reading ----

  // A date and a time of that day.
  datatype Moment = Moment(date: Date, hour: int, min: int, sec: int)

  ghost predicate ValidMoment(x: Moment) {
    ValidDate(x.date) && 0 <= x.hour <= 23 && 0 <= x.min <= 59 && 0 <= x.sec <= 59
  }

  ghost function InstantOf(x: Moment): int
    requires ValidMoment(x)
  {
    (DayNumber(x.date) * DAY_SECONDS + x.hour * 3600 + x.min * 60 + x.sec) * 1000
  }

  // Each field lets its value through; two restricted day fields are a choice, one is a condition.
  ghost predicate Reads(c: CronSpec, x: Moment)
    requires ValidMoment(x)
  {
    && x.sec in c.sec && x.min in c.min && x.hour in c.hour && x.date.month in c.month
    && (c.domStar || x.date.day in c.dom || (!c.dowStar && DayOfWeek(x.date) in c.dow))
    && (c.dowStar || DayOfWeek(x.date) in c.dow || (!c.domStar && x.date.day in c.dom))
  }

  lemma SplitSecond(day: int, at: int)
    requires 0 <= at < DAY_SECONDS
    ensures (day * DAY_SECONDS + at) / DAY_SECONDS == day
    ensures (day * DAY_SECONDS + at) % DAY_SECONDS == at
  {
  }

  lemma ClockFields(h: int, m: int, s: int)
    requires 0 <= h <= 23 && 0 <= m <= 59 && 0 <= s <= 59
    ensures var at := h * 3600 + m * 60 + s;
            0 <= at < DAY_SECONDS && at / 3600 == h && at % 3600 / 60 == m && at % 60 == s
  {
  }

  lemma DayReads(c: CronSpec, x: Date)
    requires Parsed(c) && ValidDate(x)
    ensures DayMatches(c, DayNumber(x)) <==>
            && x.month in c.month
            && (c.domStar || x.day in c.dom || (!c.dowStar && DayOfWeek(x) in c.dow))
            && (c.dowStar || DayOfWeek(x) in c.dow || (!c.domStar && x.day in c.dom))
  {
    DateOfDayNumber(x);
    WeekdayOfDate(x);
    assert 1 <= x.day <= 31;
  }

  // What the masks mean on the calendar, without stepping through it.
  lemma MatchesReads(c: CronSpec, x: Moment)
    requires Parsed(c) && ValidMoment(x)
    ensures Matches(c, InstantOf(x)) <==> Reads(c, x)
  {
    var day, at := DayNumber(x.date), x.hour * 3600 + x.min * 60 + x.sec;
    ClockFields(x.hour, x.min, x.sec);
    SplitSecond(day, at);
    DayReads(c, x.date);
    var s := day * DAY_SECONDS + at;
    assert InstantOf(x) == s * 1000;
    assert (s * 1000) % 1000 == 0 && (s * 1000) / 1000 == s;
  }

  // Every matching instant is a whole second of some date.
  lemma MatchIsMoment(c: CronSpec, t: int) returns (x: Moment)
    requires Parsed(c) && Matches(c, t)
    ensures ValidMoment(x) && InstantOf(x) == t && Reads(c, x)
  {
    var s := t / 1000;
    var day, at := s / DAY_SECONDS, s % DAY_SECONDS;
    x := Moment(DateOf(day), at / 3600, at % 3600 / 60, at % 60);
    DayNumberOfDateOf(day);
    assert at == x.hour * 3600 + x.min * 60 + x.sec;
    assert s == day * DAY_SECONDS + at;
    MatchesReads(c, x);
  }

  const ANY_DAY: set<int> := set d | 1 <= d <= 31
  const ANY_WEEKDAY: set<int> := set d | 0 <= d <= 6

  // Two restricted day fields match the union of what each would match alone.
  lemma RestrictedDaysUnite(c: CronSpec, t: int)
    requires Parsed(c) && !c.domStar && !c.dowStar
    ensures Matches(c, t) <==>
            Matches(c.(dow := ANY_WEEKDAY, dowStar := true), t) || Matches(c.(dom := ANY_DAY, domStar := true), t)
  {
  }

  // A star field decides nothing, whatever its mask looks like.
  lemma StarFieldIsFree(c: CronSpec, d: CronSpec, t: int)
    requires Parsed(c) && Parsed(d)
    requires (c.domStar && d == c.(dom := d.dom)) || (c.dowStar && d == c.(dow := d.dow))
    ensures Matches(c, t) == Matches(d, t)
  {
    assert 1 <= DateOf(t / 1000 / DAY_SECONDS).day <= 31;
  }

  // Decidable from the masks: the only patterns without any date are those that rely on the day of
  // the month alone and ask each chosen month for a day it never has.
  predicate Satisfiable(c: CronSpec)
    requires Parsed(c)
  {
    c.dowStar ==> exists m, d :: m in c.month && d in c.dom && d <= LongestDaysIn(m)
  }

  ghost predicate NoneBetween(c: CronSpec, lo: int, hi: int) {
    forall s :: lo <= s < hi ==> !SecondMatches(c, s)
  }

  lemma DateWithin(n: int, m: int, d: int) returns (k: int)
    requires 1 <= m <= 12 && 1 <= d <= LongestDaysIn(m)
    ensures n < k < n + 9 * 366
    ensures DateOf(k).month == m && DateOf(k).day == d
  {
    var x := DateOf(n);
    var year := NextLeapYear(x.year);
    var goal := Date(year, m, d);
    k := DayNumber(goal);
    DayNumberOfDateOf(n);
    DayNumberByYear(x, goal);
    DayNumberGap(x, goal);
    DateOfDayNumber(goal);
  }

  lemma WeekdayFollows(n: int, w: int) returns (j: int)
    requires 0 <= w <= 6
    ensures 0 <= j <= 6 && Weekday(n + j) == w
  {
    j := (w - Weekday(n)) % 7;
  }

  lemma SameMonth(n: int, j: int)
    requires DateOf(n).day == 1 && 0 <= j <= 6
    ensures DateOf(n + j) == DateOf(n).(day := 1 + j)
  {
    var x := DateOf(n).(day := 1 + j);
    DayNumberOfDateOf(n);
    assert DayNumber(x) == n + j;
    DateOfDayNumber(x);
  }

  // Within the twelve-year window after any day there is a matching day, if there is one at all.
  lemma MatchingDayWithin(c: CronSpec, n: int) returns (k: int)
    requires Parsed(c) && Satisfiable(c)
    ensures n < k < n + SEARCH_DAYS && DayMatches(c, k)
  {
    if c.dowStar {
      var m, d :| m in c.month && d in c.dom && d <= LongestDaysIn(m);
      k := DateWithin(n, m, d);
    } else {
      var m :| m in c.month;
      var w :| w in c.dow;
      var first := DateWithin(n, m, 1);
      var j := WeekdayFollows(first, w);
      SameMonth(first, j);
      k := first + j;
    }
  }

  lemma SecondInDay(day: int, s: int)
    requires day * DAY_SECONDS <= s < (day + 1) * DAY_SECONDS
    ensures s / DAY_SECONDS == day && s % DAY_SECONDS == s - day * DAY_SECONDS
  {
    SplitSecond(day, s - day * DAY_SECONDS);
  }

  lemma TimeOfDay(c: CronSpec) returns (at: int)
    requires Parsed(c)
    ensures 0 <= at < DAY_SECONDS && TimeMatches(c, at)
  {
    var h :| h in c.hour;
    var m :| m in c.min;
    var s :| s in c.sec;
    at := h * 3600 + m * 60 + s;
    assert at / 3600 == h && at % 3600 / 60 == m && at % 60 == s;
  }

  // Satisfiable is exactly the existence of a matching instant, and it recurs without end.
  lemma SatisfiableMeansMatches(c: CronSpec, t: int)
    requires Parsed(c)
    ensures Satisfiable(c) ==> exists u :: u > t && Matches(c, u)
    ensures Matches(c, t) ==> Satisfiable(c)
  {
    if Satisfiable(c) {
      var k := MatchingDayWithin(c, t / 1000 / DAY_SECONDS);
      var at := TimeOfDay(c);
      SplitSecond(k, at);
      var u := (k * DAY_SECONDS + at) * 1000;
      assert u / 1000 == k * DAY_SECONDS + at;
      assert u > t && Matches(c, u);
    }
    if Matches(c, t) && c.dowStar {
      var x := DateOf(t / 1000 / DAY_SECONDS);
      assert x.month in c.month && x.day in c.dom && x.day <= LongestDaysIn(x.month);
    }
  }

  ghost predicate NextMatch(c: CronSpec, lo: int, w: int) {
    lo < w && Matches(c, w) && forall u :: lo < u < w ==> !Matches(c, u)
  }

  lemma {:induction false} LeastMatch(c: CronSpec, t: int, u: int) returns (w: int)
    requires t < u && Matches(c, u)
    ensures NextMatch(c, t, w)
    decreases u - t
  {
    if v :| t < v < u && Matches(c, v) {
      w := LeastMatch(c, t, v);
    } else {
      w := u;
    }
  }

  lemma MatchesFollow(c: CronSpec, t: int)
    requires Parsed(c) && Satisfiable(c)
    ensures exists w :: NextMatch(c, t, w)
  {
    SatisfiableMeansMatches(c, t);
    var u :| u > t && Matches(c, u);
    var w := LeastMatch(c, t, u);
  }

  // The matching instant that follows a time.
  ghost function MatchAfter(c: CronSpec, t: int): int
    requires Parsed(c) && Satisfiable(c)
  {
    MatchesFollow(c, t);
    var w :| NextMatch(c, t, w);
    w
  }

  lemma MatchAfterIsNext(c: CronSpec, t: int)
    requires Parsed(c) && Satisfiable(c)
    ensures NextMatch(c, t, MatchAfter(c, t)) && forall w :: NextMatch(c, t, w) ==> w == MatchAfter(c, t)
  {
  }

  // The scan of one day: the least matching second of the day that is not before floor.
  method FirstTimeOfDay(c: CronSpec, floor: int) returns (r: Option<int>)
    requires Parsed(c) && 0 <= floor < DAY_SECONDS
    ensures r.Some? ==> floor <= r.value < DAY_SECONDS && TimeMatches(c, r.value)
    ensures r.Some? ==> forall at :: floor <= at < r.value ==> !TimeMatches(c, at)
    ensures r.None? ==> forall at :: floor <= at < DAY_SECONDS ==> !TimeMatches(c, at)
  {
    for h := 0 to 24
      invariant forall at :: floor <= at < h * 3600 ==> !TimeMatches(c, at)
    {
      if h in c.hour {
        for m := 0 to 60
          invariant forall at :: floor <= at < h * 3600 + m * 60 ==> !TimeMatches(c, at)
        {
          if m in c.min {
            for s := 0 to 60
              invariant forall at :: floor <= at < h * 3600 + m * 60 + s ==> !TimeMatches(c, at)
            {
              var at := h * 3600 + m * 60 + s;
              assert at / 3600 == h && at % 3600 / 60 == m && at % 60 == s;
              if s in c.sec && at >= floor {
                return Some(at);
              }
            }
          } else {
            MinuteUnmatched(c, h, m);
          }
        }
      } else {
        HourUnmatched(c, h);
      }
    }
    return None;
  }

  lemma MinuteUnmatched(c: CronSpec, h: int, m: int)
    requires 0 <= m < 60 && m !in c.min
    ensures forall at :: h * 3600 + m * 60 <= at < h * 3600 + m * 60 + 60 ==> !TimeMatches(c, at)
  {
    forall at | h * 3600 + m * 60 <= at < h * 3600 + m * 60 + 60
      ensures !TimeMatches(c, at)
    {
      var past := at - h * 3600;
      assert at % 3600 == past;
      assert past / 60 == m;
    }
  }

  lemma HourUnmatched(c: CronSpec, h: int)
    requires h !in c.hour
    ensures forall at :: h * 3600 <= at < h * 3600 + 3600 ==> !TimeMatches(c, at)
  {
    forall at | h * 3600 <= at < h * 3600 + 3600
      ensures !TimeMatches(c, at)
    {
      assert at / 3600 == h;
    }
  }

  lemma DayExhausted(c: CronSpec, start: int, day: int, floor: int)
    requires NoneBetween(c, start, day * DAY_SECONDS)
    requires floor > 0 ==> start == day * DAY_SECONDS + floor
    requires !DayMatches(c, day) || forall at :: floor <= at < DAY_SECONDS ==> !TimeMatches(c, at)
    ensures NoneBetween(c, start, (day + 1) * DAY_SECONDS)
  {
    forall s | start <= s < (day + 1) * DAY_SECONDS
      ensures !SecondMatches(c, s)
    {
      if s >= day * DAY_SECONDS {
        SecondInDay(day, s);
      }
    }
  }

  lemma DayUntil(c: CronSpec, start: int, day: int, floor: int, at: int)
    requires NoneBetween(c, start, day * DAY_SECONDS)
    requires floor > 0 ==> start == day * DAY_SECONDS + floor
    requires 0 <= at < DAY_SECONDS && forall x :: floor <= x < at ==> !TimeMatches(c, x)
    ensures NoneBetween(c, start, day * DAY_SECONDS + at)
  {
    forall s | start <= s < day * DAY_SECONDS + at
      ensures !SecondMatches(c, s)
    {
      if s >= day * DAY_SECONDS {
        SecondInDay(day, s);
      }
    }
  }

  lemma NoneUntil(c: CronSpec, afterMs: int, hi: int)
    requires NoneBetween(c, afterMs / 1000 + 1, hi)
    ensures forall t :: afterMs < t < hi * 1000 ==> !Matches(c, t)
  {
    forall t | afterMs < t < hi * 1000
      ensures !Matches(c, t)
    {
      if t % 1000 == 0 {
        assert afterMs / 1000 + 1 <= t / 1000 < hi;
      }
    }
  }

  lemma FoundIsLeast(c: CronSpec, afterMs: int, day: int, floor: int, at: int)
    requires Parsed(c) && DayMatches(c, day) && 0 <= at < DAY_SECONDS && TimeMatches(c, at)
    requires NoneBetween(c, afterMs / 1000 + 1, day * DAY_SECONDS)
    requires floor > 0 ==> afterMs / 1000 + 1 == day * DAY_SECONDS + floor
    requires afterMs / 1000 + 1 <= day * DAY_SECONDS + floor && floor <= at
    requires forall x :: floor <= x < at ==> !TimeMatches(c, x)
    ensures var t := (day * DAY_SECONDS + at) * 1000;
            && t > afterMs && Matches(c, t) && Satisfiable(c)
            && forall u :: afterMs < u < t ==> !Matches(c, u)
  {
    var s := day * DAY_SECONDS + at;
    SplitSecond(day, at);
    assert s * 1000 / 1000 == s;
    assert Matches(c, s * 1000);
    DayUntil(c, afterMs / 1000 + 1, day, floor, at);
    NoneUntil(c, afterMs, s);
    SatisfiableMeansMatches(c, s * 1000);
  }

  lemma NeverMatches(c: CronSpec)
    requires Parsed(c) && !Satisfiable(c)
    ensures forall t :: !Matches(c, t)
  {
    forall t ensures !Matches(c, t) {
      SatisfiableMeansMatches(c, t);
    }
  }

  lemma WindowSuffices(c: CronSpec, start: int)
    requires Parsed(c)
    requires NoneBetween(c, start, (start / DAY_SECONDS + SEARCH_DAYS) * DAY_SECONDS)
    ensures !Satisfiable(c)
  {
    if Satisfiable(c) {
      var k := MatchingDayWithin(c, start / DAY_SECONDS);
      var at := TimeOfDay(c);
      SplitSecond(k, at);
      assert SecondMatches(c, k * DAY_SECONDS + at);
    }
  }

  // The least matching instant strictly after afterMs; none exactly when no date can ever match.
  method NextWall(c: CronSpec, afterMs: int) returns (r: Option<int>)
    requires Parsed(c)
    ensures r.Some? ==> r.value > afterMs && Matches(c, r.value)
    ensures r.Some? ==> forall t :: afterMs < t < r.value ==> !Matches(c, t)
    ensures r.Some? <==> Satisfiable(c)
    ensures r.Some? ==> r.value == MatchAfter(c, afterMs)
    ensures r.None? ==> forall t :: !Matches(c, t)
  {
    var start := afterMs / 1000 + 1;
    var day := start / DAY_SECONDS;
    for i := 0 to SEARCH_DAYS
      invariant day == start / DAY_SECONDS + i
      invariant NoneBetween(c, start, day * DAY_SECONDS)
    {
      var floor := 0;
      if DayMatches(c, day) {
        if day * DAY_SECONDS <= start < (day + 1) * DAY_SECONDS {
          floor := start - day * DAY_SECONDS;
        }
        var at := FirstTimeOfDay(c, floor);
        if at.Some? {
          FoundIsLeast(c, afterMs, day, floor, at.value);
          MatchAfterIsNext(c, afterMs);
          return Some((day * DAY_SECONDS + at.value) * 1000);
        }
      }
      DayExhausted(c, start, day, floor);
      day := day + 1;
    }
    WindowSuffices(c, start);
    NeverMatches(c);
    return None;
  }
}
