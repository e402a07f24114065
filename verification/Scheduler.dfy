// Periodic schedules: tick arithmetic, due ticks and the leaderless sweep
// (go/schedulespec.go, go/scheduler.go).
module Scheduler {
  import opened Common
  import opened Cron
  import opened CronZone

  const MAX_SUCCESSORS := 10_000
  const PARK_MS := 3_600_000

  // ---- Ticks ----

  // Division that truncates toward zero.
  function TruncDiv(a: int, b: int): int
    requires b != 0
  {
    if a >= 0 then a / b else -((-a) / b)
  }

  function FloorDiv(a: int, b: int): int
    requires b != 0
  {
    var q := TruncDiv(a, b);
    if a - q * b != 0 && (a < 0) != (b < 0) then q - 1 else q
  }

  lemma DivIsFloor(a: int, b: int)
    requires b > 0
    ensures b * FloorDiv(a, b) <= a < b * (FloorDiv(a, b) + 1)
  {
    var m := -a;
    var t := m / b;
    if a >= 0 {
      assert a == b * (a / b) + a % b;
      assert b * (a / b + 1) == b * (a / b) + b;
    } else {
      assert m == b * t + m % b;
      Negated(b, t);
    }
  }

  lemma Negated(b: int, t: int)
    ensures (-t) * b == -(b * t) && b * (-t) == -(b * t)
    ensures b * (-t - 1) == -(b * t) - b && b * (-t + 1) == -(b * t) + b
  {
  }

  // A period in milliseconds, or the next-tick function of a parsed cron expression.
  datatype Spec = Every(period: int) | Crontab(next: int -> Option<int>)

  // The next tick strictly after a time; none where the expression is rejected or finds nothing.
  function NextTick(spec: Spec, after: int): Option<int> {
    match spec
    case Every(n) => if n < 1 then None else Some((FloorDiv(after, n) + 1) * n)
    case Crontab(next) => next(after)
  }

  ghost predicate IsNext(ticks: int -> bool, after: int, v: int) {
    ticks(v) && v > after && forall u :: after < u < v ==> !ticks(u)
  }

  // From start on, the schedule names exactly the ticks. The stored start counts as one of them.
  ghost predicate Follows(spec: Spec, ticks: int -> bool, start: int) {
    && ticks(start)
    && forall t {:trigger NextTick(spec, t)} :: t >= start ==>
         NextTick(spec, t).Some? && IsNext(ticks, t, NextTick(spec, t).value)
  }

  lemma NoMultipleBetween(q: int, n: int, u: int)
    requires n >= 1 && n * q < u < n * (q + 1)
    ensures u % n != 0
  {
    var k := u / n;
    assert u == n * k + u % n;
    if k <= q {
      MulLe(n, k, q);
    } else {
      MulLe(n, q + 1, k);
    }
  }

  // An interval ticks at every multiple of its period since the epoch, negative times included.
  lemma EveryTicksAtMultiples(n: int, after: int)
    requires n >= 1
    ensures var v := NextTick(Every(n), after);
            v.Some? && v.value > after && v.value % n == 0 && forall u :: after < u < v.value ==> u % n != 0
  {
    DivIsFloor(after, n);
    var q := FloorDiv(after, n);
    var v := (q + 1) * n;
    assert v == n * (q + 1);
    MultipleHasNoRest(q + 1, n);
    forall u | after < u < v
      ensures u % n != 0
    {
      NoMultipleBetween(q, n, u);
    }
  }

  lemma MultipleHasNoRest(k: int, n: int)
    requires n >= 1
    ensures (k * n) % n == 0
  {
    var v := k * n;
    var p := v / n;
    assert v == n * p + v % n;
    assert n * k == v && n * (p + 1) == n * p + n;
    if p < k {
      MulLe(n, p + 1, k);
    } else if p > k {
      MulLe(n, k, p);
    }
  }

  lemma EveryFollows(n: int, start: int)
    requires n >= 1
    ensures Follows(Every(n), t => t == start || t % n == 0, start)
  {
    var ticks := (t: int) => t == start || t % n == 0;
    forall t | t >= start
      ensures NextTick(Every(n), t).Some? && IsNext(ticks, t, NextTick(Every(n), t).value)
    {
      EveryTicksAtMultiples(n, t);
    }
  }

  // A cron expression that always finds its next tick in a regular zone.
  lemma CrontabFollows(c: CronSpec, z: Zone, next: int -> Option<int>, start: int)
    requires forall t {:trigger next(t)} :: next(t).Some? && LeastTick(c, z, t, next(t).value)
    ensures Follows(Crontab(next), t => t == start || Tick(c, z, t), start)
  {
  }

  // The schedule of a cron expression without a zone, as the search computes it.
  ghost function CronSchedule(c: CronSpec): Spec
    requires Parsed(c) && Satisfiable(c)
  {
    Crontab(t => Some(MatchAfter(c, t)))
  }

  // Without a zone every expression with a date at all always finds its next tick.
  lemma CronScheduleFollows(c: CronSpec, start: int)
    requires Parsed(c) && Satisfiable(c)
    ensures Follows(CronSchedule(c), t => t == start || Matches(c, t), start)
  {
    var ticks := (t: int) => t == start || Matches(c, t);
    forall t | t >= start
      ensures NextTick(CronSchedule(c), t) == Some(MatchAfter(c, t)) && IsNext(ticks, t, MatchAfter(c, t))
    {
      MatchAfterIsNext(c, t);
    }
  }

  // ---- Due ticks ----

  // Up to fuel successors of t that are not later than now.
  function SuccessorsUpTo(spec: Spec, t: int, now: int, fuel: nat): Option<seq<int>>
    decreases fuel
  {
    if fuel == 0 then Some([])
    else
      var n := NextTick(spec, t);
      if n.None? then None
      else if n.value > now then Some([])
      else
        var rest := SuccessorsUpTo(spec, n.value, now, fuel - 1);
        if rest.None? then None else Some([n.value] + rest.value)
  }

  function Last(s: seq<int>, n: int): seq<int> {
    if n <= 1 then (if s == [] then [] else [s[|s| - 1]])
    else if |s| <= n then s
    else s[|s| - n..]
  }

  lemma LastOfLonger(kept: seq<int>, all: seq<int>, x: int, n: int)
    requires all != [] && kept == Last(all, n)
    ensures var more := kept + [x];
            Last(all + [x], n) == if |more| > n then more[1..] else more
  {
  }

  // all has been found; what follows t is still missing from the goal.
  ghost predicate FoundSoFar(spec: Spec, goal: Option<seq<int>>, all: seq<int>, t: int, now: int, fuel: nat) {
    var rest := SuccessorsUpTo(spec, t, now, fuel);
    if rest.None? then goal.None? else goal == Some(all + rest.value)
  }

  lemma FoundOneMore(spec: Spec, goal: Option<seq<int>>, all: seq<int>, t: int, now: int, fuel: nat)
    requires FoundSoFar(spec, goal, all, t, now, fuel) && fuel > 0
    ensures var n := NextTick(spec, t);
            if n.None? then goal.None?
            else if n.value > now then goal == Some(all)
            else FoundSoFar(spec, goal, all + [n.value], n.value, now, fuel - 1)
  {
    var n := NextTick(spec, t);
    if n.Some? && n.value <= now {
      var rest := SuccessorsUpTo(spec, n.value, now, fuel - 1);
      if rest.Some? {
        assert all + ([n.value] + rest.value) == all + [n.value] + rest.value;
      }
    } else {
      assert all + [] == all;
    }
  }

  lemma FoundAll(spec: Spec, goal: Option<seq<int>>, all: seq<int>, t: int, now: int)
    requires FoundSoFar(spec, goal, all, t, now, 0)
    ensures goal == Some(all)
  {
    assert all + [] == all;
  }

  // Every due tick: the stored one and its successors up to now, at most cap of them.
  function AllDue(spec: Spec, first: int, now: int, cap: nat): Option<seq<int>> {
    var more := SuccessorsUpTo(spec, first, now, cap);
    if more.None? then None else Some([first] + more.value)
  }

  // The most recent maxTicks of the due ticks, oldest first.
  method DueTicks(spec: Spec, first: int, now: int, maxTicks: int, cap: nat) returns (ticks: Option<seq<int>>)
    ensures first > now ==> ticks == Some([])
    ensures first <= now ==>
              var all := AllDue(spec, first, now, cap);
              ticks == if all.None? then None else Some(Last(all.value, maxTicks))
  {
    if first > now {
      return Some([]);
    }
    var kept := [first];
    var t := first;
    ghost var goal, all := AllDue(spec, first, now, cap), [first];
    for i := 0 to cap
      invariant all != [] && kept == Last(all, maxTicks)
      invariant FoundSoFar(spec, goal, all, t, now, cap - i)
    {
      FoundOneMore(spec, goal, all, t, now, cap - i);
      var next := NextTick(spec, t);
      if next.None? {
        return None;
      }
      if next.value > now {
        return Some(kept);
      }
      LastOfLonger(kept, all, next.value, maxTicks);
      kept := kept + [next.value];
      if |kept| > maxTicks {
        kept := kept[1..];
      }
      all, t := all + [next.value], next.value;
    }
    FoundAll(spec, goal, all, t, now);
    return Some(kept);
  }

  ghost predicate Ascending(s: seq<int>) {
    forall i, j :: 0 <= i < j < |s| ==> s[i] < s[j]
  }

  // Exactly the ticks from lo up to but not including hi, in order.
  ghost predicate Enumerates(ticks: int -> bool, lo: int, hi: int, s: seq<int>) {
    Ascending(s) && forall x :: x in s <==> ticks(x) && lo <= x < hi
  }

  lemma EnumerationsJoin(ticks: int -> bool, lo: int, mid: int, hi: int, a: seq<int>, b: seq<int>)
    requires lo <= mid <= hi && Enumerates(ticks, lo, mid, a) && Enumerates(ticks, mid, hi, b)
    ensures Enumerates(ticks, lo, hi, a + b)
  {
    var s := a + b;
    forall i, j | 0 <= i < j < |s|
      ensures s[i] < s[j]
    {
      if i < |a| <= j {
        assert a[i] in a && b[j - |a|] in b;
      }
    }
  }

  // An enumeration is determined by its ticks.
  lemma {:induction false} EnumerationsAgree(ticks: int -> bool, lo: int, hi: int, a: seq<int>, b: seq<int>)
    requires Enumerates(ticks, lo, hi, a) && Enumerates(ticks, lo, hi, b)
    ensures a == b
    decreases |a|
  {
    assert b != [] ==> b[0] in b && b[0] in a;
    if a != [] {
      assert a[0] in a && a[0] in b;
      var i :| 0 <= i < |b| && b[i] == a[0];
      var j :| 0 <= j < |a| && a[j] == b[0];
      assert a[0] == b[0];
      RestEnumerates(ticks, lo, hi, a);
      RestEnumerates(ticks, lo, hi, b);
      EnumerationsAgree(ticks, a[0] + 1, hi, a[1..], b[1..]);
      assert a == [a[0]] + a[1..] && b == [b[0]] + b[1..];
    }
  }

  lemma RestEnumerates(ticks: int -> bool, lo: int, hi: int, a: seq<int>)
    requires Enumerates(ticks, lo, hi, a) && a != []
    ensures Enumerates(ticks, a[0] + 1, hi, a[1..])
  {
    assert a[0] in a;
    forall x
      ensures x in a[1..] <==> ticks(x) && a[0] + 1 <= x < hi
    {
      if x in a[1..] {
        var i :| 0 <= i < |a[1..]| && a[1..][i] == x;
        assert a[i + 1] == x && x in a;
      }
      if ticks(x) && a[0] + 1 <= x < hi {
        assert x in a;
        var i :| 0 <= i < |a| && a[i] == x;
        assert a[1..][i - 1] == x;
      }
    }
  }

  // ---- What the due ticks are ----

  // Where the search stopped: at now, or at the last successor it was allowed.
  function Reached(t: int, s: seq<int>, now: int, fuel: nat): int {
    if |s| < fuel then now else LastOr(t, s)
  }

  lemma {:induction false} SuccessorsEnumerate(spec: Spec, ticks: int -> bool, start: int, t: int, now: int, fuel: nat)
    requires Follows(spec, ticks, start) && start <= t <= now
    ensures var s := SuccessorsUpTo(spec, t, now, fuel);
            && s.Some? && |s.value| <= fuel && LastOr(t, s.value) <= now
            && Enumerates(ticks, t + 1, Reached(t, s.value, now, fuel) + 1, s.value)
    decreases fuel
  {
    if fuel > 0 {
      var n := NextTick(spec, t).value;
      assert IsNext(ticks, t, n);
      if n <= now {
        SuccessorsEnumerate(spec, ticks, start, n, now, fuel - 1);
        var rest := SuccessorsUpTo(spec, n, now, fuel - 1).value;
        assert rest != [] ==> rest[|rest| - 1] in rest;
        OneTickMore(ticks, t, n, Reached(n, rest, now, fuel - 1) + 1, rest);
        assert ([n] + rest)[|rest|] == LastOr(n, rest);
      }
    }
  }

  lemma OneTickMore(ticks: int -> bool, t: int, n: int, hi: int, rest: seq<int>)
    requires IsNext(ticks, t, n) && n < hi && Enumerates(ticks, n + 1, hi, rest)
    ensures Enumerates(ticks, t + 1, hi, [n] + rest)
  {
    EnumerationsJoin(ticks, t + 1, n + 1, hi, [n], rest);
  }

  // The search was not cut short.
  predicate Exhaustive(spec: Spec, all: seq<int>, now: int) {
    all != [] && NextTick(spec, all[|all| - 1]).Some? && NextTick(spec, all[|all| - 1]).value > now
  }

  lemma AllDueEnumerates(spec: Spec, ticks: int -> bool, start: int, first: int, now: int, cap: nat)
    requires Follows(spec, ticks, start) && start <= first <= now && ticks(first)
    ensures var all := AllDue(spec, first, now, cap);
            && all.Some? && all.value != [] && all.value[0] == first && Ascending(all.value)
            && (forall x :: x in all.value ==> ticks(x) && first <= x <= now)
            && (Exhaustive(spec, all.value, now) <==> Enumerates(ticks, first, now + 1, all.value))
            && (|all.value| <= cap ==> Exhaustive(spec, all.value, now))
  {
    SuccessorsEnumerate(spec, ticks, start, first, now, cap);
    var more := SuccessorsUpTo(spec, first, now, cap).value;
    var all := [first] + more;
    var hi := Reached(first, more, now, cap) + 1;
    assert Enumerates(ticks, first, first + 1, [first]);
    EnumerationsJoin(ticks, first, first + 1, hi, [first], more);
    assert all[|more|] == LastOr(first, more) && all[|more|] in all;
    var last := all[|all| - 1];
    assert IsNext(ticks, last, NextTick(spec, last).value);
    SearchEnds(spec, ticks, first, now, all, hi);
  }

  lemma SearchEnds(spec: Spec, ticks: int -> bool, first: int, now: int, all: seq<int>, hi: int)
    requires all != [] && Enumerates(ticks, first, hi, all) && hi <= now + 1
    requires NextTick(spec, all[|all| - 1]).Some? && IsNext(ticks, all[|all| - 1], NextTick(spec, all[|all| - 1]).value)
    ensures Exhaustive(spec, all, now) <==> Enumerates(ticks, first, now + 1, all)
    ensures hi == now + 1 ==> Exhaustive(spec, all, now)
  {
    var last := all[|all| - 1];
    var next := NextTick(spec, last).value;
    assert last in all;
    if next <= now {
      assert next !in all by {
        assert forall i :: 0 <= i < |all| ==> all[i] <= last;
      }
    } else {
      forall x
        ensures x in all <==> ticks(x) && first <= x < now + 1
      {
        assert ticks(x) && x > last ==> x >= next;
      }
    }
  }

  // ---- What a sweep fires ----

  // cap bounds the search for due ticks.
  datatype Entry = Entry(spec: Spec, backfill: bool, limit: int, cap: nat)

  // The bound is the same for every schedule; nothing below depends on its value.
  function EntryOf(spec: Spec, backfill: bool, limit: int): Entry {
    Entry(spec, backfill, limit, MAX_SUCCESSORS)
  }

  // How many of the due ticks a sweep fires at most.
  function Width(e: Entry): int {
    if !e.backfill || e.limit < 1 then 1 else e.limit
  }

  function Limit(e: Entry): int {
    if e.limit < 1 then 1 else e.limit
  }

  datatype Plan = Broken | NothingDue | NoSuccessor | Fire(ticks: seq<int>, next: int)

  function PlanOf(e: Entry, nextRun: int, now: int): Plan {
    if nextRun > now then NothingDue
    else
      var all := AllDue(e.spec, nextRun, now, e.cap);
      if all.None? then Broken
      else
        var kept := Last(all.value, Limit(e));
        var next := NextTick(e.spec, if LastOr(now, kept) > now then LastOr(now, kept) else now);
        if next.None? then NoSuccessor
        else Fire(if e.backfill then kept else [LastOr(now, kept)], next.value)
  }

  method MakePlan(e: Entry, nextRun: int, now: int) returns (plan: Plan)
    ensures plan == PlanOf(e, nextRun, now)
  {
    var limit := if e.limit < 1 then 1 else e.limit;
    var ticks := DueTicks(e.spec, nextRun, now, limit, e.cap);
    if ticks.None? {
      return Broken;
    }
    if |ticks.value| == 0 {
      return NothingDue;
    }
    var last := ticks.value[|ticks.value| - 1];
    var after := now;
    if last > after {
      after := last;
    }
    var next := NextTick(e.spec, after);
    if next.None? {
      return NoSuccessor;
    }
    var fire := ticks.value;
    if !e.backfill {
      fire := ticks.value[|ticks.value| - 1..];
    }
    return Fire(fire, next.value);
  }

  // The policy lets every due tick through.
  predicate Covers(e: Entry, nextRun: int, now: int) {
    var all := AllDue(e.spec, nextRun, now, e.cap);
    all.Some? && |all.value| <= Width(e) && Exhaustive(e.spec, all.value, now)
  }

  lemma PlanIs(e: Entry, ticks: int -> bool, start: int, nextRun: int, now: int)
    requires Follows(e.spec, ticks, start) && start <= nextRun <= now && ticks(nextRun)
    ensures AllDue(e.spec, nextRun, now, e.cap).Some? && NextTick(e.spec, now).Some?
    ensures PlanOf(e, nextRun, now) == Fire(Last(AllDue(e.spec, nextRun, now, e.cap).value, Width(e)), NextTick(e.spec, now).value)
  {
    AllDueEnumerates(e.spec, ticks, start, nextRun, now, e.cap);
    var all := AllDue(e.spec, nextRun, now, e.cap).value;
    assert all[|all| - 1] in all;
    LatestIsKept(all, Limit(e));
    assert IsNext(ticks, now, NextTick(e.spec, now).value);
  }

  lemma LatestIsKept(all: seq<int>, n: int)
    requires all != []
    ensures Last(all, n) != [] && LastOr(0, Last(all, n)) == all[|all| - 1] && Last(all, 1) == [all[|all| - 1]]
  {
  }

  // The most recent ticks fire and the stored time moves to the first tick after now. Nothing due is
  // dropped exactly when the policy's width covers the due ticks and the search was not cut short.
  lemma SweepFires(e: Entry, ticks: int -> bool, start: int, nextRun: int, now: int)
    requires Follows(e.spec, ticks, start) && start <= nextRun <= now && ticks(nextRun)
    ensures var p := PlanOf(e, nextRun, now);
            && p.Fire? && p.ticks != [] && IsNext(ticks, now, p.next) && Ascending(p.ticks)
            && (forall x :: x in p.ticks ==> ticks(x) && nextRun <= x <= now)
            && (Enumerates(ticks, nextRun, p.next, p.ticks) <==> Covers(e, nextRun, now))
  {
    PlanIs(e, ticks, start, nextRun, now);
    AllDueEnumerates(e.spec, ticks, start, nextRun, now, e.cap);
    var all, p := AllDue(e.spec, nextRun, now, e.cap).value, PlanOf(e, nextRun, now);
    NothingBetween(ticks, nextRun, now, p.next, p.ticks);
    LastIsAll(ticks, nextRun, now, all, Width(e));
  }

  lemma NothingBetween(ticks: int -> bool, lo: int, now: int, next: int, s: seq<int>)
    requires IsNext(ticks, now, next)
    ensures Enumerates(ticks, lo, next, s) <==> Enumerates(ticks, lo, now + 1, s)
  {
  }

  lemma LastIsAll(ticks: int -> bool, first: int, now: int, all: seq<int>, n: int)
    requires n >= 1 && all != [] && all[0] == first && Ascending(all) && first <= now && ticks(first)
    requires forall x :: x in all ==> ticks(x) && first <= x <= now
    ensures Ascending(Last(all, n)) && forall x :: x in Last(all, n) ==> x in all
    ensures Enumerates(ticks, first, now + 1, Last(all, n)) <==> |all| <= n && Enumerates(ticks, first, now + 1, all)
  {
  }

  // ---- Racing sweepers ----

  // One sweeper's pass: what it read, what it fires, how far it got, and where it wants to move the time.
  datatype Sweeper = Sweeper(seen: int, now: int, fire: seq<int>, done: nat, next: int)

  // The stored time, the ticks that were enqueued, deduplicated or quarantined, and the passes under way.
  datatype Board = Board(nextRun: int, settled: set<int>, sweepers: map<nat, Sweeper>)

  datatype Move =
    | Look(k: nat, now: int)
    | Settle(k: nat)
    | Vanish(k: nat)
    | Advance(k: nat)

  ghost predicate Next(e: Entry, b: Board, m: Move, d: Board) {
    match m
    case Look(k, now) =>
      && PlanOf(e, b.nextRun, now).Fire?
      && var p := PlanOf(e, b.nextRun, now);
         d == b.(sweepers := b.sweepers[k := Sweeper(b.nextRun, now, p.ticks, 0, p.next)])
    case Settle(k) =>
      && k in b.sweepers && b.sweepers[k].done < |b.sweepers[k].fire|
      && var s := b.sweepers[k];
         d == b.(settled := b.settled + {s.fire[s.done]}, sweepers := b.sweepers[k := s.(done := s.done + 1)])
    case Vanish(k) => d == b.(sweepers := b.sweepers - {k})
    case Advance(k) =>
      && k in b.sweepers && b.sweepers[k].done == |b.sweepers[k].fire|
      && d == b.(nextRun := if b.nextRun == b.sweepers[k].seen then b.sweepers[k].next else b.nextRun,
                 sweepers := b.sweepers - {k})
  }

  ghost predicate SweeperOk(e: Entry, ticks: int -> bool, start: int, b: Board, s: Sweeper) {
    && start <= s.seen <= s.now && s.seen <= b.nextRun && ticks(s.seen)
    && PlanOf(e, s.seen, s.now) == Fire(s.fire, s.next)
    && SettledUpTo(s.fire, s.done, b.settled)
  }

  ghost predicate SettledUpTo(fire: seq<int>, done: nat, settled: set<int>) {
    done <= |fire| && forall i :: 0 <= i < done ==> fire[i] in settled
  }

  ghost predicate BoardOk(e: Entry, ticks: int -> bool, start: int, b: Board) {
    && Follows(e.spec, ticks, start) && start <= b.nextRun && ticks(b.nextRun)
    && forall k :: k in b.sweepers ==> SweeperOk(e, ticks, start, b, b.sweepers[k])
  }

  // Every tick before the stored time has been dealt with.
  ghost predicate NothingLost(ticks: int -> bool, start: int, b: Board) {
    forall t :: start <= t < b.nextRun && ticks(t) ==> t in b.settled
  }

  // The move takes effect on the stored time.
  predicate Applies(b: Board, m: Move) {
    m.Advance? && m.k in b.sweepers && b.nextRun == b.sweepers[m.k].seen
  }

  lemma AdvanceGoesForward(e: Entry, ticks: int -> bool, start: int, b: Board, s: Sweeper)
    requires Follows(e.spec, ticks, start) && SweeperOk(e, ticks, start, b, s)
    ensures s.next > s.now && ticks(s.next)
  {
    SweepFires(e, ticks, start, s.seen, s.now);
  }

  lemma LookIsOk(e: Entry, ticks: int -> bool, start: int, b: Board, now: int)
    requires Follows(e.spec, ticks, start) && start <= b.nextRun && ticks(b.nextRun) && PlanOf(e, b.nextRun, now).Fire?
    ensures var p := PlanOf(e, b.nextRun, now);
            SweeperOk(e, ticks, start, b, Sweeper(b.nextRun, now, p.ticks, 0, p.next))
  {
  }

  lemma SettleIsOk(e: Entry, ticks: int -> bool, start: int, b: Board, s: Sweeper, d: Board)
    requires SweeperOk(e, ticks, start, b, s) && s.done < |s.fire| && d.nextRun == b.nextRun
    requires d.settled == b.settled + {s.fire[s.done]}
    ensures SweeperOk(e, ticks, start, d, s.(done := s.done + 1))
  {
    OneMoreSettled(s.fire, s.done, b.settled);
  }

  lemma OneMoreSettled(fire: seq<int>, done: nat, settled: set<int>)
    requires SettledUpTo(fire, done, settled) && done < |fire|
    ensures SettledUpTo(fire, done + 1, settled + {fire[done]})
  {
  }

  lemma OthersStay(e: Entry, ticks: int -> bool, start: int, b: Board, d: Board, k: nat)
    requires BoardOk(e, ticks, start, b) && b.nextRun <= d.nextRun && ticks(d.nextRun) && b.settled <= d.settled
    requires forall j :: j in d.sweepers && j != k ==> j in b.sweepers && d.sweepers[j] == b.sweepers[j]
    requires k in d.sweepers ==> SweeperOk(e, ticks, start, d, d.sweepers[k])
    ensures BoardOk(e, ticks, start, d)
  {
  }

  lemma MoveKeepsBoard(e: Entry, ticks: int -> bool, start: int, b: Board, m: Move, d: Board)
    requires BoardOk(e, ticks, start, b) && Next(e, b, m, d)
    ensures BoardOk(e, ticks, start, d) && b.settled <= d.settled
    ensures if Applies(b, m) then d.nextRun > b.nextRun else d.nextRun == b.nextRun
  {
    match m
    case Look(k, now) =>
      LookIsOk(e, ticks, start, b, now);
      OthersStay(e, ticks, start, b, d, k);
    case Settle(k) =>
      SettleIsOk(e, ticks, start, b, b.sweepers[k], d);
      OthersStay(e, ticks, start, b, d, k);
    case Vanish(k) => OthersStay(e, ticks, start, b, d, k);
    case Advance(k) =>
      AdvanceGoesForward(e, ticks, start, b, b.sweepers[k]);
      OthersStay(e, ticks, start, b, d, k);
  }

  // An advance loses no tick if its pass covered what was due.
  lemma MoveLosesNothing(e: Entry, ticks: int -> bool, start: int, b: Board, m: Move, d: Board)
    requires BoardOk(e, ticks, start, b) && Next(e, b, m, d) && NothingLost(ticks, start, b)
    requires Applies(b, m) ==> Covers(e, b.sweepers[m.k].seen, b.sweepers[m.k].now)
    ensures NothingLost(ticks, start, d)
  {
    if Applies(b, m) {
      var s := b.sweepers[m.k];
      assert SweeperOk(e, ticks, start, b, s);
      SweepFires(e, ticks, start, s.seen, s.now);
      forall t | start <= t < d.nextRun && ticks(t)
        ensures t in d.settled
      {
        if t >= s.seen {
          assert t in s.fire;
          var i :| 0 <= i < |s.fire| && s.fire[i] == t;
        }
      }
    }
  }

  ghost predicate IsRace(e: Entry, ticks: int -> bool, start: int, boards: seq<Board>, moves: seq<Move>) {
    && |boards| == |moves| + 1 && boards[0] == Board(start, {}, map[]) && Follows(e.spec, ticks, start)
    && forall i :: 0 <= i < |moves| ==> NextAt(e, boards, moves, i)
  }

  ghost predicate NextAt(e: Entry, boards: seq<Board>, moves: seq<Move>, i: nat)
    requires |boards| == |moves| + 1 && i < |moves|
  {
    Next(e, boards[i], moves[i], boards[i + 1])
  }

  // Over any interleaving of sweepers, crashed or not: the stored time moves only forward, through
  // ticks, and as long as every pass that advances it covered its due ticks, no tick before it is lost.
  lemma {:induction false} NoTickIsLost(e: Entry, ticks: int -> bool, start: int, boards: seq<Board>, moves: seq<Move>, n: nat)
    requires IsRace(e, ticks, start, boards, moves) && n <= |moves|
    requires forall i :: 0 <= i < n && Applies(boards[i], moves[i]) ==>
               Covers(e, boards[i].sweepers[moves[i].k].seen, boards[i].sweepers[moves[i].k].now)
    ensures BoardOk(e, ticks, start, boards[n]) && NothingLost(ticks, start, boards[n])
    ensures n > 0 ==> boards[n - 1].nextRun <= boards[n].nextRun
    ensures n > 0 ==> (boards[n - 1].nextRun < boards[n].nextRun <==> Applies(boards[n - 1], moves[n - 1]))
  {
    if n > 0 {
      NoTickIsLost(e, ticks, start, boards, moves, n - 1);
      assert NextAt(e, boards, moves, n - 1);
      MoveKeepsBoard(e, ticks, start, boards[n - 1], moves[n - 1], boards[n]);
      MoveLosesNothing(e, ticks, start, boards[n - 1], moves[n - 1], boards[n]);
    }
  }

  // ---- One sweeper on its own ----

  // The ticks fired by successive passes at the given times, and the stored time they leave.
  function Alone(e: Entry, start: int, nows: seq<int>): (seq<int>, int) {
    if nows == [] then ([], start)
    else
      var before := Alone(e, start, nows[..|nows| - 1]);
      match PlanOf(e, before.1, nows[|nows| - 1])
      case Fire(ticks, next) => (before.0 + ticks, next)
      case _ => before
  }

  // Each pass covers what is then due.
  ghost predicate AllCovered(e: Entry, start: int, nows: seq<int>) {
    forall i :: 0 <= i < |nows| && Alone(e, start, nows[..i]).1 <= nows[i] ==> Covers(e, Alone(e, start, nows[..i]).1, nows[i])
  }

  // Without gap or repeat, the fired ticks are the enumeration of the schedule.
  lemma {:induction false} AloneFiresEveryTickOnce(e: Entry, ticks: int -> bool, start: int, nows: seq<int>)
    requires Follows(e.spec, ticks, start) && AllCovered(e, start, nows)
    ensures var r := Alone(e, start, nows);
            start <= r.1 && ticks(r.1) && Enumerates(ticks, start, r.1, r.0)
  {
    if nows != [] {
      var init, now := nows[..|nows| - 1], nows[|nows| - 1];
      assert forall i :: 0 <= i < |init| ==> init[..i] == nows[..i];
      AloneFiresEveryTickOnce(e, ticks, start, init);
      var before := Alone(e, start, init);
      if before.1 <= now {
        SweepFires(e, ticks, start, before.1, now);
        var p := PlanOf(e, before.1, now);
        EnumerationsJoin(ticks, start, before.1, p.next, before.0, p.ticks);
      }
    }
  }

  // Keeping the latest tick only drops the stored one once its successor is due as well.
  lemma SkippingDropsTicks(e: Entry, ticks: int -> bool, start: int, nextRun: int, now: int)
    requires Follows(e.spec, ticks, start) && start <= nextRun <= now && ticks(nextRun) && !e.backfill && e.cap >= 1
    requires NextTick(e.spec, nextRun).value <= now
    ensures var p := PlanOf(e, nextRun, now);
            p.Fire? && nextRun !in p.ticks && nextRun < p.next
  {
    PlanIs(e, ticks, start, nextRun, now);
    AllDueEnumerates(e.spec, ticks, start, nextRun, now, e.cap);
    var all := AllDue(e.spec, nextRun, now, e.cap).value;
    assert |all| >= 2 && all[0] < all[|all| - 1];
    assert IsNext(ticks, now, NextTick(e.spec, now).value);
  }

  // ---- The sweep as it is carried out ----

  datatype Verdict = Accepted | Deduplicated | Conflicting | InQuarantine | Unavailable

  predicate Settles(v: Verdict) {
    v != Unavailable
  }

  // How the store answered the advance; a lost answer says nothing about whether it took effect.
  datatype Reply = Answered | Lost(applied: bool)

  // One schedule's row. Other sweepers may settle ticks and move the stored time forward at any call.
  class Row {
    var nextRun: int
    var settled: set<int>

    method Elapse()
      modifies this
      ensures nextRun >= old(nextRun) && settled >= old(settled)
    {
      var later: int, more: set<int> :| later >= nextRun && more >= settled;
      nextRun, settled := later, more;
    }

    method Enqueue(tick: int, v: Verdict)
      modifies this
      ensures nextRun >= old(nextRun) && settled >= old(settled) && (Settles(v) ==> tick in settled)
    {
      Elapse();
      if Settles(v) {
        settled := settled + {tick};
      }
    }

    // Compare and set: only the sweeper that read the stored time may move it. The call may also be
    // lost, before or after it took effect. It meets the row at some later time, here called found.
    method AdvanceFrom(from: int, to: int, reply: Reply) returns (moved: bool, ghost found: int)
      modifies this
      ensures settled >= old(settled) && found >= old(nextRun)
      ensures moved <==> reply != Lost(false) && found == from
      ensures nextRun == if moved then to else found
    {
      Elapse();
      found := nextRun;
      moved := reply != Lost(false) && nextRun == from;
      if moved {
        nextRun := to;
      }
    }
  }

  // The tick was enqueued, or need not be, and the event about it was recorded.
  predicate Passes(t: int, verdict: int -> Verdict, audited: int -> bool) {
    Settles(verdict(t)) && audited(t)
  }

  function CountAccepted(fire: seq<int>, verdict: int -> Verdict): nat {
    if fire == [] then 0
    else CountAccepted(fire[..|fire| - 1], verdict) + if verdict(fire[|fire| - 1]) == Accepted then 1 else 0
  }

  // stop is the first tick that cannot be enqueued or whose event cannot be recorded.
  ghost predicate StopsAt(fire: seq<int>, stop: nat, verdict: int -> Verdict, audited: int -> bool) {
    && stop <= |fire| && (forall i :: 0 <= i < stop ==> Passes(fire[i], verdict, audited))
    && (stop < |fire| ==> !Passes(fire[stop], verdict, audited))
  }

  method FireAll(row: Row, fire: seq<int>, verdict: int -> Verdict, audited: int -> bool) returns (fired: nat, stop: nat)
    modifies row
    ensures row.nextRun >= old(row.nextRun) && row.settled >= old(row.settled)
    ensures StopsAt(fire, stop, verdict, audited) && fired == CountAccepted(fire[..stop], verdict)
    ensures forall i :: 0 <= i < |fire| && i <= stop && Settles(verdict(fire[i])) ==> fire[i] in row.settled
  {
    fired := 0;
    for i := 0 to |fire|
      invariant row.nextRun >= old(row.nextRun) && row.settled >= old(row.settled)
      invariant forall j :: 0 <= j < i ==> fire[j] in row.settled && Passes(fire[j], verdict, audited)
      invariant fired == CountAccepted(fire[..i], verdict)
    {
      var tick := fire[i];
      row.Enqueue(tick, verdict(tick));
      if !audited(tick) {
        return fired, i;
      }
      assert fire[..i + 1][..i] == fire[..i];
      if verdict(tick) == Accepted {
        fired := fired + 1;
      } else if !Settles(verdict(tick)) {
        return fired, i;
      }
    }
    stop := |fire|;
    assert fire[..stop] == fire;
  }

  // Where a pass that got as far as the advance wants to move the stored time.
  function Target(plan: Plan, now: int): int
    requires plan.Fire? || plan.Broken?
  {
    if plan.Fire? then plan.next else now + PARK_MS
  }

  // A broken schedule is due, so putting it off moves it forward like any other.
  lemma TargetIsAhead(e: Entry, ticks: int -> bool, start: int, seen: int, now: int)
    ensures var p := PlanOf(e, seen, now);
            p.Broken? || (p.Fire? && Follows(e.spec, ticks, start) && start <= seen && ticks(seen)) ==> Target(p, now) > now >= seen
  {
    if PlanOf(e, seen, now).Fire? && Follows(e.spec, ticks, start) && start <= seen && ticks(seen) {
      SweepFires(e, ticks, start, seen, now);
    }
  }

  // The stored time moves past a pass's ticks only after every one of them was enqueued and recorded, and
  // then it does move, unless somebody else moved it. A pass that fails on a tick stops without moving
  // it; a broken schedule, once recorded, is put off by an hour. ticks and start say what the schedule follows.
  method FireSchedule(row: Row, spec: Spec, backfill: bool, limit: int, seen: int, now: int,
                      verdict: int -> Verdict, audited: int -> bool, reply: Reply,
                      ghost ticks: int -> bool, ghost start: int)
    returns (fired: nat, ok: bool, moved: bool, plan: Plan, stop: nat, ghost found: int)
    modifies row
    ensures plan == PlanOf(EntryOf(spec, backfill, limit), seen, now) && row.settled >= old(row.settled)
    ensures plan.Fire? ==> StopsAt(plan.ticks, stop, verdict, audited) && fired == CountAccepted(plan.ticks[..stop], verdict)
    ensures plan.Fire? ==> forall i :: 0 <= i < |plan.ticks| && i <= stop && Settles(verdict(plan.ticks[i])) ==> plan.ticks[i] in row.settled
    ensures plan.Fire? ==> (ok <==> stop == |plan.ticks| && reply.Answered?)
    ensures plan.Broken? ==> ok == audited(seen)
    ensures plan.NothingDue? ==> ok
    ensures plan.NoSuccessor? ==> !ok
    ensures found >= old(row.nextRun)
    ensures var last := (plan.Fire? && stop == |plan.ticks|) || (plan.Broken? && ok);
            && (moved <==> last && reply != Lost(false) && found == seen)
            && row.nextRun == if moved then Target(plan, now) else found
    ensures ok && reply.Answered? && old(row.nextRun) >= seen
            && (plan.Broken? || (plan.Fire? && Follows(spec, ticks, start) && start <= seen && ticks(seen)))
            ==> row.nextRun > seen
  {
    TargetIsAhead(EntryOf(spec, backfill, limit), ticks, start, seen, now);
    fired, ok, moved, stop, found := 0, true, false, 0, row.nextRun;
    plan := MakePlan(EntryOf(spec, backfill, limit), seen, now);
    match plan
    case NothingDue =>
    case NoSuccessor => ok := false;
    case Broken =>
      ok := audited(seen);
      if ok {
        moved, found := row.AdvanceFrom(seen, now + PARK_MS, reply);
      }
    case Fire(fire, next) =>
      fired, stop := FireAll(row, fire, verdict, audited);
      ok, found := stop == |fire|, row.nextRun;
      if ok {
        moved, found := row.AdvanceFrom(seen, next, reply);
        ok := reply.Answered?;
      }
  }
}
