// Cron expressions read on a local wall clock (go/cronspec.go).
//
// A zone is an arbitrary function from instants (milliseconds) to UTC offsets (seconds).
module CronZone {
  import opened Common
  import opened Cron

  const DAY_MS := 86_400_000
  const MAX_WALL_CANDIDATES := 100_000

  type Zone = int -> int

  function Wall(z: Zone, t: int): int {
    t + z(t) * 1000
  }

  // Offsets stay below a day, and two days never see more than one offset change.
  ghost predicate Regular(z: Zone) {
    && (forall t :: -86400 < z(t) < 86400)
    && (forall a, b, c :: a <= b <= c <= a + 2 * DAY_MS ==> z(a) == z(b) || z(b) == z(c))
  }

  ghost predicate Occurs(z: Zone, w: int) {
    exists t :: Wall(z, t) == w
  }

  ghost predicate FirstOccurrence(z: Zone, t: int) {
    forall u :: u < t ==> Wall(z, u) != Wall(z, t)
  }

  // What the schedule promises: a matching wall clock fires once, when it first shows.
  ghost predicate Tick(c: CronSpec, z: Zone, t: int) {
    Matches(c, Wall(z, t)) && FirstOccurrence(z, t)
  }

  // The instants showing w lie within a day of w, so the offsets a day either side cover them.
  lemma ProbesCover(z: Zone, w: int, t: int)
    requires Regular(z) && Wall(z, t) == w
    ensures w - DAY_MS < t < w + DAY_MS
    ensures t == w - z(w - DAY_MS) * 1000 || t == w - z(w + DAY_MS) * 1000
  {
  }

  ghost predicate Probed(z: Zone, w: int, off: int) {
    off == z(w - DAY_MS) || off == z(w) || off == z(w + DAY_MS)
  }

  // best is the least instant showing w under one of the offsets seen, all of them probed.
  ghost predicate BestOf(z: Zone, w: int, seen: set<int>, best: int, found: bool) {
    && (found ==> Wall(z, best) == w && Probed(z, w, z(best)))
    && (forall off :: off in seen ==> Probed(z, w, off))
    && (forall off :: off in seen && Wall(z, w - off * 1000) == w ==> found && best <= w - off * 1000)
  }

  lemma OneMoreOffset(z: Zone, w: int, seen: set<int>, best: int, found: bool, off: int)
    requires BestOf(z, w, seen, best, found) && Probed(z, w, off)
    ensures var cand := w - off * 1000;
            var better := Wall(z, cand) / 1000 == w / 1000 && (!found || cand < best);
            BestOf(z, w, seen + {off}, if better then cand else best, found || better)
  {
    SameSecondSameWall(z, w, off);
  }

  lemma BestIsFirst(z: Zone, w: int, seen: set<int>, best: int, found: bool)
    requires BestOf(z, w, seen, best, found) && {z(w - DAY_MS), z(w), z(w + DAY_MS)} <= seen
    ensures forall t :: Wall(z, t) == w && Probed(z, w, z(t)) ==> found && best <= t
    ensures Regular(z) ==> forall t :: Wall(z, t) == w ==> found && best <= t
  {
    forall t | Wall(z, t) == w && Probed(z, w, z(t))
      ensures found && best <= t
    {
      assert t == w - z(t) * 1000;
    }
    forall t | Regular(z) && Wall(z, t) == w
      ensures found && best <= t
    {
      ProbesCover(z, w, t);
    }
  }

  // In any zone: the least instant showing w under an offset in force at w or a day either side.
  // In a regular zone that is the least instant showing w.
  method ResolveLocal(z: Zone, w: int) returns (best: int, found: bool)
    ensures found ==> Wall(z, best) == w && Probed(z, w, z(best))
    ensures found <==> exists t :: Wall(z, t) == w && Probed(z, w, z(t))
    ensures found ==> forall t :: Wall(z, t) == w && Probed(z, w, z(t)) ==> best <= t
    ensures Regular(z) ==> (found <==> Occurs(z, w))
    ensures Regular(z) && found ==> FirstOccurrence(z, best)
  {
    best, found := 0, false;
    var seen := {};
    var probes := [w - DAY_MS, w, w + DAY_MS];
    for i := 0 to 3
      invariant BestOf(z, w, seen, best, found)
      invariant forall j :: 0 <= j < i ==> z(probes[j]) in seen
    {
      var off := z(probes[i]);
      if off !in seen {
        OneMoreOffset(z, w, seen, best, found, off);
        seen := seen + {off};
        var cand := w - off * 1000;
        if Wall(z, cand) / 1000 == w / 1000 {
          if !found || cand < best {
            best, found := cand, true;
          }
        }
      }
    }
    assert z(probes[0]) in seen && z(probes[1]) in seen && z(probes[2]) in seen;
    BestIsFirst(z, w, seen, best, found);
  }

  // Two changes inside two days defeat the probes: the clock shows 0 at -1800s and again at 0, but
  // the offset of the first showing is in force at none of the probed instants.
  lemma ProbesCanMiss()
    ensures var z: Zone := t => if -1_900_000 <= t < -1_700_000 then 1800 else 0;
            && Wall(z, -1_800_000) == 0 && !Probed(z, 0, z(-1_800_000))
            && Wall(z, 0) == 0 && Probed(z, 0, z(0))
            && !Regular(z)
  {
  }

  // Comparing calendar fields down to the second is comparing wall clocks.
  lemma SameSecondSameWall(z: Zone, w: int, off: int)
    ensures Wall(z, w - off * 1000) / 1000 == w / 1000 <==> Wall(z, w - off * 1000) == w
  {
  }

  lemma ShownBefore(z: Zone, a: int, t: int) returns (earlier: int)
    requires Regular(z) && a < t && Wall(z, t) <= Wall(z, a)
    ensures earlier < t && Wall(z, earlier) == Wall(z, t)
  {
    earlier := Wall(z, t) - z(a) * 1000;
    assert earlier <= a < t <= earlier + 2 * DAY_MS;
    assert z(earlier) == z(a) || z(a) == z(t);
  }

  // A later instant that shows its wall clock for the first time shows a later wall clock.
  lemma FirstOccurrencesAscend(z: Zone, a: int, t: int)
    requires Regular(z) && a < t && FirstOccurrence(z, t)
    ensures Wall(z, a) < Wall(z, t)
  {
    if Wall(z, t) <= Wall(z, a) {
      var earlier := ShownBefore(z, a, t);
    }
  }

  // tried lists the matching wall clocks after lo in order, without omission.
  ghost predicate Consecutive(c: CronSpec, lo: int, tried: seq<int>) {
    tried == [] ||
    var init := tried[..|tried| - 1];
    Consecutive(c, lo, init) && NextMatch(c, LastOr(lo, init), tried[|tried| - 1])
  }

  lemma ConsecutiveSnoc(c: CronSpec, lo: int, tried: seq<int>, w: int)
    requires Consecutive(c, lo, tried) && NextMatch(c, LastOr(lo, tried), w)
    ensures Consecutive(c, lo, tried + [w])
  {
  }

  // Every tick after `after` shows a wall clock beyond w.
  ghost predicate TicksBeyond(c: CronSpec, z: Zone, after: int, w: int) {
    forall t :: t > after && Tick(c, z, t) ==> Wall(z, t) > w
  }

  ghost predicate LeastTick(c: CronSpec, z: Zone, after: int, ms: int) {
    ms > after && Tick(c, z, ms) && forall t :: after < t < ms ==> !Tick(c, z, t)
  }

  lemma TicksBeyondNow(c: CronSpec, z: Zone, after: int)
    requires Regular(z)
    ensures TicksBeyond(c, z, after, Wall(z, after))
  {
    forall t | t > after && Tick(c, z, t)
      ensures Wall(z, t) > Wall(z, after)
    {
      FirstOccurrencesAscend(z, after, t);
    }
  }

  lemma ReturnedIsLeast(c: CronSpec, z: Zone, after: int, lo: int, w: int, ms: int)
    requires Regular(z) && Wall(z, ms) == w && FirstOccurrence(z, ms) && ms > after
    requires NextMatch(c, lo, w) && TicksBeyond(c, z, after, lo)
    ensures LeastTick(c, z, after, ms)
  {
    forall t | after < t < ms
      ensures !Tick(c, z, t)
    {
      if Tick(c, z, t) {
        FirstOccurrencesAscend(z, t, ms);
      }
    }
  }

  lemma CandidateSettled(c: CronSpec, z: Zone, after: int, lo: int, w: int, ms: int, found: bool)
    requires Regular(z)
    requires NextMatch(c, lo, w) && TicksBeyond(c, z, after, lo)
    requires found <==> Occurs(z, w)
    requires found ==> Wall(z, ms) == w && FirstOccurrence(z, ms) && ms <= after
    ensures TicksBeyond(c, z, after, w)
  {
  }

  // No probed offset shows w after `after` for the first time.
  ghost predicate Missed(z: Zone, after: int, w: int) {
    forall t :: Wall(z, t) == w && Probed(z, w, z(t)) ==> exists u :: u <= after && Wall(z, u) == w && Probed(z, w, z(u))
  }

  // The matching wall clocks up to wall have been tried, and none of them belongs to a tick after `after`.
  ghost predicate Tried(c: CronSpec, z: Zone, after: int, tried: seq<int>, wall: int) {
    && Consecutive(c, Wall(z, after), tried) && wall == LastOr(Wall(z, after), tried)
    && (forall w :: w in tried ==> Missed(z, after, w))
    && (Regular(z) ==> TicksBeyond(c, z, after, wall))
  }

  // What resolving a wall clock tells.
  ghost predicate Resolved(z: Zone, w: int, ms: int, ok: bool) {
    && (ok ==> Wall(z, ms) == w && Probed(z, w, z(ms)))
    && (forall t :: Wall(z, t) == w && Probed(z, w, z(t)) ==> ok && ms <= t)
    && (Regular(z) ==> (ok <==> Occurs(z, w)) && (ok ==> FirstOccurrence(z, ms)))
  }

  lemma NothingTried(c: CronSpec, z: Zone, after: int)
    ensures Tried(c, z, after, [], Wall(z, after))
  {
    if Regular(z) {
      TicksBeyondNow(c, z, after);
    }
  }

  lemma OneMoreTried(c: CronSpec, z: Zone, after: int, tried: seq<int>, wall: int, w: int, ms: int, ok: bool)
    requires Tried(c, z, after, tried, wall) && NextMatch(c, wall, w) && Resolved(z, w, ms, ok)
    ensures Consecutive(c, Wall(z, after), tried + [w])
    ensures ok && ms > after && Regular(z) ==> LeastTick(c, z, after, ms)
    ensures !(ok && ms > after) ==> Tried(c, z, after, tried + [w], w)
  {
    ConsecutiveSnoc(c, Wall(z, after), tried, w);
    if Regular(z) {
      if ok && ms > after {
        ReturnedIsLeast(c, z, after, wall, w, ms);
      } else {
        CandidateSettled(c, z, after, wall, w, ms, ok);
      }
    }
  }

  // The first showing, under a probed offset, of the first matching wall clock that has one after `after`.
  ghost predicate Found(c: CronSpec, z: Zone, after: int, tried: seq<int>, ms: int) {
    && ms > after && Consecutive(c, Wall(z, after), tried + [Wall(z, ms)])
    && (forall t :: Wall(z, t) == Wall(z, ms) && Probed(z, Wall(z, ms), z(t)) ==> ms <= t)
    && (Regular(z) ==> LeastTick(c, z, after, ms))
  }

  // Nothing was found: no date can match, or all candidates were tried in vain.
  ghost predicate NotFound(c: CronSpec, z: Zone, after: int, tried: seq<int>)
    requires Parsed(c)
  {
    Satisfiable(c) ==> |tried| == MAX_WALL_CANDIDATES && Tried(c, z, after, tried, tried[MAX_WALL_CANDIDATES - 1])
  }

  // Any instant returned is the least tick after `after`. If candidates run out, no tick after
  // `after` shows one of the wall clocks tried.
  method NextAfterIn(c: CronSpec, after: int, z: Zone) returns (r: Option<int>, ghost tried: seq<int>)
    requires Parsed(c)
    ensures forall w :: w in tried ==> Missed(z, after, w)
    ensures if r.Some? then Matches(c, Wall(z, r.value)) && Found(c, z, after, tried, r.value) else NotFound(c, z, after, tried)
  {
    tried := [];
    var wall := Wall(z, after);
    NothingTried(c, z, after);
    for i := 0 to MAX_WALL_CANDIDATES
      invariant |tried| == i && Tried(c, z, after, tried, wall)
    {
      var next := NextWall(c, wall);
      if next.None? {
        return None, tried;
      }
      var ms, ok := ResolveLocal(z, next.value);
      OneMoreTried(c, z, after, tried, wall, next.value, ms, ok);
      if ok && ms > after {
        return Some(ms), tried;
      }
      tried := tried + [next.value];
      wall := next.value;
    }
    return None, tried;
  }

  method NextAfter(c: CronSpec, after: int, loc: Option<Zone>) returns (r: Option<int>, ghost tried: seq<int>)
    requires Parsed(c)
    ensures loc.None? ==> (r.Some? <==> Satisfiable(c)) && (r.Some? ==> NextMatch(c, after, r.value))
    ensures loc.Some? ==> forall w :: w in tried ==> Missed(loc.value, after, w)
    ensures loc.Some? && r.Some? ==> Matches(c, Wall(loc.value, r.value)) && Found(c, loc.value, after, tried, r.value)
    ensures loc.Some? && r.None? ==> NotFound(c, loc.value, after, tried)
  {
    if loc.None? {
      r := NextWall(c, after);
      tried := [];
    } else {
      r, tried := NextAfterIn(c, after, loc.value);
    }
  }

  // In a regular zone the search finds a tick exactly when one shows a wall clock among the candidates.
  lemma SearchIsExact(c: CronSpec, z: Zone, after: int, tried: seq<int>, t: int)
    requires Parsed(c) && Regular(z) && NotFound(c, z, after, tried) && t > after && Tick(c, z, t)
    ensures |tried| == MAX_WALL_CANDIDATES && Wall(z, t) > tried[MAX_WALL_CANDIDATES - 1]
  {
    SatisfiableMeansMatches(c, Wall(z, t));
  }
}
