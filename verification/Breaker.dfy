// The enqueue circuit breaker (go/circuit_breaker.go). Times are in nanoseconds.
module Breaker {
  newtype uint32 = x: int | 0 <= x < 0x1_0000_0000

  const MILLISECOND := 1_000_000

  datatype CircuitState = Closed | Open | HalfOpen

  datatype Config = Config(failureThreshold: uint32, recoveryTimeout: int, halfOpenMaxCalls: uint32) {
    predicate Valid() {
      failureThreshold >= 1 && halfOpenMaxCalls >= 1 && recoveryTimeout >= MILLISECOND
    }
  }

  datatype Mode = Mode(state: CircuitState, failures: uint32, openedAt: int, successes: uint32, inFlight: uint32, generation: nat)

  // The counters fit the state. Every uint32 operation below relies on this not to wrap around.
  predicate ModeOk(c: Config, m: Mode) {
    && c.Valid()
    && (m.state == Closed ==> m.failures < c.failureThreshold && m.successes == 0 && m.inFlight == 0)
    && (m.state == Open ==> m.failures == 0 && m.successes == 0 && m.inFlight == 0)
    && (m.state == HalfOpen ==> m.failures == 0 && m.successes < c.halfOpenMaxCalls
                                && (m.successes as int) + (m.inFlight as int) <= c.halfOpenMaxCalls as int)
  }

  function Opened(m: Mode, now: int): Mode {
    Mode(Open, 0, now, 0, 0, m.generation + 1)
  }

  // The recovery timer is applied whenever the breaker is looked at.
  function Timed(c: Config, m: Mode, now: int): Mode {
    if m.state != Open || now - m.openedAt < c.recoveryTimeout then m
    else Mode(HalfOpen, 0, 0, 0, 0, m.generation + 1)
  }

  // How long to wait, in whole milliseconds rounded up.
  function RetryAfter(c: Config, m: Mode, now: int): int {
    var remaining := c.recoveryTimeout - (now - m.openedAt);
    if remaining <= 0 then 0 else ((remaining + MILLISECOND - 1) / MILLISECOND) * MILLISECOND
  }

  predicate Admits(c: Config, m: Mode)
    requires ModeOk(c, m)
  {
    m.state == Closed || (m.state == HalfOpen && m.successes < c.halfOpenMaxCalls - m.inFlight)
  }

  function Acquired(c: Config, m: Mode): Mode
    requires ModeOk(c, m)
  {
    if m.state == HalfOpen && Admits(c, m) then m.(inFlight := m.inFlight + 1) else m
  }

  function Finished(c: Config, m: Mode, state: CircuitState, generation: nat, unavailable: bool, now: int): Mode
    requires ModeOk(c, m)
  {
    if m.generation != generation || m.state != state || state == Open then m
    else if state == Closed then
      if !unavailable then m.(failures := 0)
      else if m.failures + 1 >= c.failureThreshold then Opened(m, now)
      else m.(failures := m.failures + 1)
    else
      var freed := if m.inFlight > 0 then m.inFlight - 1 else 0;
      if unavailable then Opened(m, now)
      else if m.successes + 1 >= c.halfOpenMaxCalls then Mode(Closed, 0, 0, 0, 0, m.generation + 1)
      else m.(inFlight := freed, successes := m.successes + 1)
  }

  function Excluded(m: Mode, state: CircuitState, generation: nat): Mode {
    if state == HalfOpen && m.generation == generation && m.state == HalfOpen && m.inFlight > 0
    then m.(inFlight := m.inFlight - 1) else m
  }

  // ---- Waiting ----

  // Waiting as long as advertised is always enough to leave the open state, and at most a
  // millisecond more than needed.
  lemma AdvertisedWaitIsEnough(c: Config, m: Mode, now: int, later: int)
    requires ModeOk(c, m) && m.state == Open && now - m.openedAt < c.recoveryTimeout
    ensures var r := RetryAfter(c, m, now);
            && r > 0 && r % MILLISECOND == 0
            && (later >= now + r ==> Timed(c, m, later).state == HalfOpen)
            && (later < now + r - MILLISECOND ==> Timed(c, m, later) == m)
  {
    var remaining := c.recoveryTimeout - (now - m.openedAt);
    var q := (remaining + MILLISECOND - 1) / MILLISECOND;
    assert remaining <= q * MILLISECOND < remaining + MILLISECOND;
  }

  // ---- The breaker over any sequence of calls ----

  datatype Event =
    | Look
    | Acquire
    | Finish(state: CircuitState, generation: nat, unavailable: bool)
    | Exclude(state: CircuitState, generation: nat)

  function After(c: Config, m: Mode, now: int, e: Event): Mode
    requires ModeOk(c, m)
  {
    match e
    case Look => Timed(c, m, now)
    case Acquire => TimedKeeps(c, m, now); Acquired(c, Timed(c, m, now))
    case Finish(s, g, u) => Finished(c, m, s, g, u, now)
    case Exclude(s, g) => Excluded(m, s, g)
  }

  lemma TimedKeeps(c: Config, m: Mode, now: int)
    requires ModeOk(c, m)
    ensures ModeOk(c, Timed(c, m, now))
  {
  }

  // Every event keeps the counters in bounds; the generation changes exactly when the state does.
  lemma AfterKeeps(c: Config, m: Mode, now: int, e: Event)
    requires ModeOk(c, m)
    ensures var n := After(c, m, now, e);
            && ModeOk(c, n) && m.generation <= n.generation
            && (n.state == m.state <==> n.generation == m.generation)
  {
  }

  // A permit of an earlier generation changes nothing, whatever it reports.
  lemma StalePermitsAreHarmless(c: Config, m: Mode, now: int, s: CircuitState, g: nat, unavailable: bool)
    requires ModeOk(c, m) && g != m.generation
    ensures After(c, m, now, Finish(s, g, unavailable)) == m && After(c, m, now, Exclude(s, g)) == m
  {
  }

  ghost predicate IsRun(c: Config, modes: seq<Mode>, times: seq<int>, events: seq<Event>) {
    && |modes| == |events| + 1 && |times| == |events| && ModeOk(c, modes[0])
    && (forall i :: 0 <= i < |events| ==> ModeOk(c, modes[i]) && modes[i + 1] == After(c, modes[i], times[i], events[i]))
    && (forall i, j :: 0 <= i < j < |times| ==> times[i] <= times[j])
  }

  // Within the recovery timeout of opening, nothing moves the breaker and no permit is issued.
  lemma {:induction false} OpenMeansNoCalls(c: Config, modes: seq<Mode>, times: seq<int>, events: seq<Event>, i: nat, j: nat)
    requires IsRun(c, modes, times, events) && i <= j < |events|
    requires modes[i].state == Open && times[j] < modes[i].openedAt + c.recoveryTimeout
    ensures modes[j] == modes[i] && modes[j + 1] == modes[i]
    ensures !Admits(c, Timed(c, modes[j], times[j]))
    decreases j
  {
    if i < j {
      OpenMeansNoCalls(c, modes, times, events, i, j - 1);
    }
    assert modes[j] == modes[i];
    assert modes[j + 1] == After(c, modes[j], times[j], events[j]);
  }

  // A report by a permit of this state and generation.
  predicate Reports(e: Event, state: CircuitState, g: nat, unavailable: bool) {
    e == Finish(state, g, unavailable)
  }

  // How many such reports there are from i up to j.
  function CountReports(events: seq<Event>, state: CircuitState, g: nat, unavailable: bool, i: nat, j: nat): nat
    requires i <= j <= |events|
    decreases j
  {
    if i == j then 0
    else CountReports(events, state, g, unavailable, i, j - 1) + if Reports(events[j - 1], state, g, unavailable) then 1 else 0
  }

  ghost predicate NoReports(events: seq<Event>, state: CircuitState, g: nat, unavailable: bool, i: nat, j: nat)
    requires i <= j <= |events|
  {
    forall k :: i <= k < j ==> !Reports(events[k], state, g, unavailable)
  }

  // While closed, only the reports of its own permits count, and without a success every failure adds up.
  lemma {:induction false} FailuresAddUp(c: Config, modes: seq<Mode>, times: seq<int>, events: seq<Event>, i: nat, j: nat)
    requires IsRun(c, modes, times, events) && i <= j <= |events| && modes[i].state == Closed
    requires NoReports(events, Closed, modes[i].generation, false, i, j)
    requires modes[i].failures as int + CountReports(events, Closed, modes[i].generation, true, i, j) < c.failureThreshold as int
    ensures modes[j].state == Closed && modes[j].generation == modes[i].generation
    ensures modes[j].failures as int == modes[i].failures as int + CountReports(events, Closed, modes[i].generation, true, i, j)
    decreases j
  {
    if i < j {
      FailuresAddUp(c, modes, times, events, i, j - 1);
      assert modes[j] == After(c, modes[j - 1], times[j - 1], events[j - 1]);
    }
  }

  // The breaker opens exactly with the failure that reaches the threshold since the last success or since it
  // closed; a success starts the count anew.
  lemma OpensAtTheThreshold(c: Config, modes: seq<Mode>, times: seq<int>, events: seq<Event>, i: nat, j: nat, unavailable: bool)
    requires IsRun(c, modes, times, events) && i <= j < |events| && modes[i].state == Closed && modes[i].failures == 0
    requires NoReports(events, Closed, modes[i].generation, false, i, j)
    requires CountReports(events, Closed, modes[i].generation, true, i, j) < c.failureThreshold as int
    requires Reports(events[j], Closed, modes[i].generation, unavailable)
    ensures unavailable ==>
              (modes[j + 1].state == Open <==> CountReports(events, Closed, modes[i].generation, true, i, j) + 1 == c.failureThreshold as int)
    ensures modes[j + 1].state == Open ==> modes[j + 1].openedAt == times[j]
    ensures !unavailable ==> modes[j + 1].state == Closed && modes[j + 1].failures == 0
  {
    FailuresAddUp(c, modes, times, events, i, j);
    assert modes[j + 1] == After(c, modes[j], times[j], events[j]);
  }

  lemma {:induction false} SuccessesAddUp(c: Config, modes: seq<Mode>, times: seq<int>, events: seq<Event>, i: nat, j: nat)
    requires IsRun(c, modes, times, events) && i <= j <= |events| && modes[i].state == HalfOpen
    requires NoReports(events, HalfOpen, modes[i].generation, true, i, j)
    requires modes[i].successes as int + CountReports(events, HalfOpen, modes[i].generation, false, i, j) < c.halfOpenMaxCalls as int
    ensures modes[j].state == HalfOpen && modes[j].generation == modes[i].generation
    ensures modes[j].successes as int == modes[i].successes as int + CountReports(events, HalfOpen, modes[i].generation, false, i, j)
    decreases j
  {
    if i < j {
      SuccessesAddUp(c, modes, times, events, i, j - 1);
      assert modes[j] == After(c, modes[j - 1], times[j - 1], events[j - 1]);
    }
  }

  // A half-open breaker closes exactly with the last probe it asked for, if all of them succeed, and any
  // failing probe opens it again.
  lemma ClosesAfterItsProbes(c: Config, modes: seq<Mode>, times: seq<int>, events: seq<Event>, i: nat, j: nat, unavailable: bool)
    requires IsRun(c, modes, times, events) && i <= j < |events| && modes[i].state == HalfOpen && modes[i].successes == 0
    requires NoReports(events, HalfOpen, modes[i].generation, true, i, j)
    requires CountReports(events, HalfOpen, modes[i].generation, false, i, j) < c.halfOpenMaxCalls as int
    requires Reports(events[j], HalfOpen, modes[i].generation, unavailable)
    ensures !unavailable ==>
              (modes[j + 1].state == Closed <==> CountReports(events, HalfOpen, modes[i].generation, false, i, j) + 1 == c.halfOpenMaxCalls as int)
    ensures modes[j + 1].state == Closed ==> modes[j + 1].failures == 0
    ensures unavailable ==> modes[j + 1].state == Open && modes[j + 1].openedAt == times[j]
  {
    SuccessesAddUp(c, modes, times, events, i, j);
    assert modes[j + 1] == After(c, modes[j], times[j], events[j]);
  }

  // ---- The shared object ----

  class CircuitBreaker {
    const config: Config
    var mode: Mode
    // The permits handed out, and those among them not yet finished or excluded.
    ghost var issued: set<Permit>
    ghost var outstanding: set<Permit>

    ghost predicate Valid()
      reads this, issued
    {
      Books() && (mode.state == HalfOpen ==> mode.inFlight as int == |Live()|)
    }

    ghost predicate Books()
      reads this, issued
    {
      && ModeOk(config, mode) && outstanding <= issued
      && (forall p :: p in issued ==> p.breaker == this && p.generation <= mode.generation && (p.completed <==> p !in outstanding))
      && (forall p :: p in issued && p.generation == mode.generation ==> p.state == mode.state != Open)
    }

    // The outstanding permits of the current generation.
    ghost function Live(): set<Permit>
      reads this
    {
      set p | p in outstanding && p.generation == mode.generation
    }

    constructor (c: Config)
      requires c.Valid()
      ensures Valid() && mode == Mode(Closed, 0, 0, 0, 0, 0) && issued == outstanding == {} && config == c
    {
      config, mode := c, Mode(Closed, 0, 0, 0, 0, 0);
      issued, outstanding := {}, {};
    }

    method AdvanceOpen(now: int)
      requires Valid()
      modifies this`mode
      ensures Valid() && mode == Timed(config, old(mode), now)
    {
      if mode.state == Open && now - mode.openedAt >= config.recoveryTimeout {
        mode := Mode(HalfOpen, 0, 0, 0, 0, mode.generation + 1);
        assert Live() == {};
      }
    }

    // The permit for a call that has been counted.
    method Issue() returns (p: Permit)
      requires Books() && mode.state != Open && (mode.state == HalfOpen ==> mode.inFlight as int == |Live()| + 1)
      modifies this`issued, this`outstanding
      ensures Valid() && fresh(p) && issued == old(issued) + {p} && outstanding == old(outstanding) + {p}
      ensures p.generation == mode.generation && p.state == mode.state
    {
      ghost var live := Live();
      p := new Permit(this, mode.state, mode.generation);
      issued, outstanding := issued + {p}, outstanding + {p};
      assert Live() == live + {p};
    }

    // A permit, or how long to wait. With no probe outstanding, a half-open breaker always has one to give.
    method Acquire(now: int) returns (p: Permit?, retryAfter: int)
      requires Valid()
      modifies this
      ensures Valid() && mode == After(config, old(mode), now, Event.Acquire)
      ensures var timed := Timed(config, old(mode), now);
              p != null <==> timed.state == Closed || (timed.state == HalfOpen && timed.successes < config.halfOpenMaxCalls - timed.inFlight)
      ensures p != null ==> fresh(p) && outstanding == old(outstanding) + {p} && issued == old(issued) + {p}
                            && p.generation == mode.generation && p.state == mode.state
      ensures p == null ==> outstanding == old(outstanding) && issued == old(issued)
      ensures retryAfter == if mode.state == Open then RetryAfter(config, mode, now) else 0
      ensures old(mode).state == HalfOpen && old(Live()) == {} ==> p != null
    {
      AdvanceOpen(now);
      p, retryAfter := null, 0;
      if mode.state == Open {
        retryAfter := RetryAfter(config, mode, now);
        return;
      }
      if mode.state == HalfOpen {
        if mode.successes >= config.halfOpenMaxCalls - mode.inFlight {
          return;
        }
        mode := mode.(inFlight := mode.inFlight + 1);
      }
      p := Issue();
    }

    // What a permit's report does to the mode.
    method Record(p: Permit, unavailable: bool, now: int)
      requires Valid() && p in outstanding
      modifies this, p`completed
      ensures Valid() && mode == After(config, old(mode), now, Event.Finish(p.state, p.generation, unavailable))
      ensures outstanding == old(outstanding) - {p} && issued == old(issued) && p.completed
    {
      ghost var live := Live();
      p.completed := true;
      outstanding := outstanding - {p};
      if mode.generation != p.generation {
        assert Live() == live;
        return;
      }
      assert p in live && Live() == live - {p};
      if p.state == Closed {
        if !unavailable {
          mode := mode.(failures := 0);
        } else if mode.failures + 1 >= config.failureThreshold {
          mode := Opened(mode, now);
        } else {
          mode := mode.(failures := mode.failures + 1);
        }
        return;
      }
      assert mode.inFlight > 0;
      mode := mode.(inFlight := mode.inFlight - 1);
      if unavailable {
        mode := Opened(mode, now);
      } else if mode.successes + 1 >= config.halfOpenMaxCalls {
        mode := Mode(Closed, 0, 0, 0, 0, mode.generation + 1);
      } else {
        mode := mode.(successes := mode.successes + 1);
      }
    }

    method Drop(p: Permit)
      requires Valid() && p in outstanding
      modifies this, p`completed
      ensures Valid() && mode == Excluded(old(mode), p.state, p.generation)
      ensures outstanding == old(outstanding) - {p} && issued == old(issued) && p.completed
    {
      ghost var live := Live();
      p.completed := true;
      outstanding := outstanding - {p};
      if p.state == HalfOpen && mode.generation == p.generation && mode.state == HalfOpen && mode.inFlight > 0 {
        assert p in live && Live() == live - {p};
        mode := mode.(inFlight := mode.inFlight - 1);
      } else {
        assert mode.generation != p.generation || mode.state == HalfOpen ==> Live() == live;
      }
    }
  }

  class Permit {
    const breaker: CircuitBreaker
    const state: CircuitState
    const generation: nat
    var completed: bool

    constructor (b: CircuitBreaker, s: CircuitState, g: nat)
      ensures breaker == b && state == s && generation == g && !completed
    {
      breaker, state, generation, completed := b, s, g, false;
    }

    // Only the first report of a permit counts.
    method Finish(unavailable: bool, now: int)
      requires breaker.Valid() && this in breaker.issued
      modifies this, breaker
      ensures breaker.Valid() && completed && breaker.issued == old(breaker.issued)
      ensures breaker.outstanding == old(breaker.outstanding) - {this}
      ensures breaker.mode == if old(completed) then old(breaker.mode)
                              else After(breaker.config, old(breaker.mode), now, Event.Finish(state, generation, unavailable))
    {
      if !completed {
        breaker.Record(this, unavailable, now);
      }
    }

    // Gives the slot back without a result.
    method Exclude()
      requires breaker.Valid() && this in breaker.issued
      modifies this, breaker
      ensures breaker.Valid() && completed && breaker.issued == old(breaker.issued)
      ensures breaker.outstanding == old(breaker.outstanding) - {this}
      ensures breaker.mode == if old(completed) then old(breaker.mode) else Excluded(old(breaker.mode), state, generation)
    {
      if !completed {
        breaker.Drop(this);
      }
    }
  }
}
