// Coalescing of jobs into batches (go/registry.go). Every locked region and every send on a result
// channel is one atomic step, and the steps of all goroutines interleave freely.
module Batch {
  import opened Common

  // A submitted job, known by its own one-slot result channel.
  type Item = nat

  datatype Error = Error(code: int)

  // What a submitter receives.
  datatype Result = Gone | Panicked | WrongCount | FromWork(err: Option<Error>)

  // What the batch function does with the jobs it is given.
  datatype Work = Panics | Returns(results: seq<Option<Error>>)

  // Where the goroutine running a batch stands: answering those no longer wanted, inside the batch
  // function, or handing out its results.
  datatype Phase =
    | Filtering(i: nat, active: seq<Item>)
    | Working(active: seq<Item>)
    | Answering(active: seq<Item>, i: nat)
    | Done

  // A batch that was handed over, the jobs found unwanted so far, and what the batch function did.
  datatype BatchRun = BatchRun(items: seq<Item>, gone: set<Item>, outcome: Option<Work>, phase: Phase)

  // results holds the channels that have been filled.
  datatype State = State(
    maxSize: nat, generation: nat, pending: seq<Item>, timer: Option<nat>, results: map<Item, Result>,
    submitted: set<Item>, withdrawn: set<Item>, runs: seq<BatchRun>)

  datatype Event =
    | Submit(x: Item)
    | Flush(generation: nat)
    | Cancel(x: Item)
    | Filter(k: nat, unwanted: bool)
    | Return(k: nat, work: Work)
    | Answer(k: nat)

  // ---- The locked regions ----

  function Armed(s: State): State {
    if s.pending == [] then s.(generation := s.generation + 1, timer := Some(s.generation + 1)) else s
  }

  function HandedOver(s: State): State {
    s.(generation := s.generation + 1, timer := None, pending := [],
       runs := s.runs + [BatchRun(s.pending, {}, None, Filtering(0, []))])
  }

  function Submitted(s: State, x: Item): State {
    var t := Armed(s).(pending := s.pending + [x], submitted := s.submitted + {x});
    if |t.pending| >= t.maxSize then HandedOver(t) else t
  }

  function Flushed(s: State, g: nat): State {
    if s.generation != g || s.pending == [] then s else HandedOver(s)
  }

  function Without(s: seq<Item>, x: Item): seq<Item> {
    if s == [] then [] else if s[0] == x then s[1..] else [s[0]] + Without(s[1..], x)
  }

  function Cancelled(s: State, x: Item): State {
    if x !in s.pending then s
    else
      var t := s.(pending := Without(s.pending, x), withdrawn := s.withdrawn + {x});
      if t.pending == [] then t.(generation := t.generation + 1, timer := None) else t
  }

  // ---- The goroutine of a batch ----

  function Sent(s: State, x: Item, r: Result): State {
    s.(results := s.results[x := r])
  }

  function WithRun(s: State, k: nat, r: BatchRun): State
    requires k < |s.runs|
  {
    s.(runs := s.runs[k := r])
  }

  function AfterFilter(r: BatchRun, i: nat, active: seq<Item>): Phase {
    if i < |r.items| then Filtering(i, active) else if active == [] then Done else Working(active)
  }

  function Filtered(r: BatchRun, unwanted: bool): BatchRun
    requires r.phase.Filtering? && r.phase.i < |r.items|
  {
    var x := r.items[r.phase.i];
    if unwanted then r.(gone := r.gone + {x}, phase := AfterFilter(r, r.phase.i + 1, r.phase.active))
    else r.(phase := AfterFilter(r, r.phase.i + 1, r.phase.active + [x]))
  }

  function ResultAt(w: Work, count: nat, i: nat): Result {
    match w
    case Panics => Panicked
    case Returns(rs) => if |rs| != count || i >= count then WrongCount else FromWork(rs[i])
  }

  function Answered(r: BatchRun): BatchRun
    requires r.phase.Answering?
  {
    r.(phase := if r.phase.i + 1 < |r.phase.active| then Answering(r.phase.active, r.phase.i + 1) else Done)
  }

  predicate Can(s: State, e: Event) {
    match e
    case Submit(x) => x !in s.submitted
    case Flush(_) => true
    case Cancel(x) => x in s.submitted
    case Filter(k, _) => k < |s.runs| && s.runs[k].phase.Filtering? && s.runs[k].phase.i < |s.runs[k].items|
    case Return(k, _) => k < |s.runs| && s.runs[k].phase.Working?
    case Answer(k) => k < |s.runs| && s.runs[k].phase.Answering? && s.runs[k].phase.i < |s.runs[k].phase.active| && s.runs[k].outcome.Some?
  }

  // The channel the step sends on, if it sends.
  function Target(s: State, e: Event): Option<Item>
    requires Can(s, e)
  {
    match e
    case Filter(k, unwanted) => if unwanted then Some(s.runs[k].items[s.runs[k].phase.i]) else None
    case Answer(k) => Some(s.runs[k].phase.active[s.runs[k].phase.i])
    case _ => None
  }

  function Message(s: State, e: Event): Result
    requires Can(s, e) && Target(s, e).Some?
  {
    if e.Filter? then Gone
    else ResultAt(s.runs[e.k].outcome.value, |s.runs[e.k].phase.active|, s.runs[e.k].phase.i)
  }

  function RunAfter(s: State, e: Event): State
    requires Can(s, e) && (e.Filter? || e.Return? || e.Answer?)
  {
    match e
    case Filter(k, unwanted) => WithRun(s, k, Filtered(s.runs[k], unwanted))
    case Return(k, work) => WithRun(s, k, s.runs[k].(outcome := Some(work), phase := Answering(s.runs[k].phase.active, 0)))
    case Answer(k) => WithRun(s, k, Answered(s.runs[k]))
  }

  function Next(s: State, e: Event): State
    requires Can(s, e)
  {
    match e
    case Submit(x) => Submitted(s, x)
    case Flush(g) => Flushed(s, g)
    case Cancel(x) => Cancelled(s, x)
    case _ =>
      var t := RunAfter(s, e);
      if Target(s, e).Some? then Sent(t, Target(s, e).value, Message(s, e)) else t
  }

  // ---- What holds throughout ----

  // The jobs that are still wanted, in order.
  function Wanted(items: seq<Item>, gone: set<Item>): seq<Item> {
    if items == [] then []
    else
      var init, x := Wanted(items[..|items| - 1], gone), items[|items| - 1];
      if x in gone then init else init + [x]
  }

  ghost predicate PhaseOk(r: BatchRun) {
    match r.phase
    case Filtering(i, active) =>
      i < |r.items| && active == Wanted(r.items[..i], r.gone) && r.gone <= Elems(r.items[..i]) && r.outcome == None
    case Working(active) => active == Wanted(r.items, r.gone) && active != [] && r.gone <= Elems(r.items) && r.outcome == None
    case Answering(active, i) =>
      i < |active| && active == Wanted(r.items, r.gone) && r.gone <= Elems(r.items) && r.outcome.Some?
    case Done => r.gone <= Elems(r.items) && (r.outcome.None? ==> Wanted(r.items, r.gone) == [])
  }

  // The jobs the goroutine has not answered yet.
  ghost function Unanswered(r: BatchRun): set<Item> {
    match r.phase
    case Filtering(i, active) => if i <= |r.items| then Elems(active) + Elems(r.items[i..]) else {}
    case Working(active) => Elems(active)
    case Answering(active, i) => if i <= |active| then Elems(active[i..]) else {}
    case Done => {}
  }

  // The one answer meant for a job of the batch.
  ghost predicate Meant(r: BatchRun, x: Item, m: Result) {
    if x in r.gone then m == Gone
    else
      var active := Wanted(r.items, r.gone);
      r.outcome.Some? && exists i :: 0 <= i < |active| && active[i] == x && m == ResultAt(r.outcome.value, |active|, i)
  }

  // A job's channel is filled exactly when its batch has answered it, with the answer meant for it.
  ghost predicate AnswersOk(r: BatchRun, results: map<Item, Result>) {
    && (forall x :: x in r.items ==> (x in results <==> x !in Unanswered(r)))
    && (forall x :: x in r.items && x in results ==> Meant(r, x, results[x]))
  }

  ghost function Handed(runs: seq<BatchRun>): set<Item> {
    set k, x | 0 <= k < |runs| && x in runs[k].items :: x
  }

  ghost predicate Apart(runs: seq<BatchRun>, pending: seq<Item>) {
    && Distinct(pending)
    && (forall k :: 0 <= k < |runs| ==> Distinct(runs[k].items))
    && (forall k, x :: 0 <= k < |runs| && x in runs[k].items ==> x !in pending)
    && (forall j, k, x :: 0 <= j < |runs| && 0 <= k < |runs| && x in runs[j].items && x in runs[k].items ==> j == k)
  }

  // Every job ever submitted is waiting, withdrawn, or in exactly one place of exactly one batch.
  ghost predicate Books(s: State) {
    && Apart(s.runs, s.pending)
    && s.submitted == Handed(s.runs) + Elems(s.pending) + s.withdrawn
    && s.withdrawn !! Handed(s.runs) && s.withdrawn !! Elems(s.pending)
    && (forall k :: 0 <= k < |s.runs| ==> 1 <= |s.runs[k].items| <= s.maxSize)
  }

  ghost predicate RunsOk(s: State) {
    && (forall k :: 0 <= k < |s.runs| ==> PhaseOk(s.runs[k]) && AnswersOk(s.runs[k], s.results))
    && s.results.Keys <= Handed(s.runs)
  }

  // A waiting job always has a timer armed for the current generation.
  ghost predicate Inv(s: State) {
    && Books(s) && RunsOk(s) && |s.pending| < s.maxSize
    && if s.pending == [] then s.timer == None else s.timer == Some(s.generation)
  }

  // ---- One goroutine ----

  lemma {:induction false} WantedMeans(items: seq<Item>, gone: set<Item>)
    requires Distinct(items)
    ensures Distinct(Wanted(items, gone)) && forall x :: x in Wanted(items, gone) <==> x in items && x !in gone
  {
    if items != [] {
      var init, x := items[..|items| - 1], items[|items| - 1];
      WantedMeans(init, gone);
      assert forall y :: y in items <==> y in init || y == x;
      assert x !in init;
    }
  }

  lemma {:induction false} WantedIgnores(items: seq<Item>, gone: set<Item>, x: Item)
    requires x !in items
    ensures Wanted(items, gone + {x}) == Wanted(items, gone)
  {
    if items != [] {
      assert items[|items| - 1] in items;
      WantedIgnores(items[..|items| - 1], gone, x);
    }
  }

  lemma WantedSnoc(items: seq<Item>, gone: set<Item>, i: nat)
    requires Distinct(items) && i < |items| && gone <= Elems(items[..i])
    ensures items[i] !in items[..i] && items[i] !in gone
    ensures Wanted(items[..i + 1], gone) == Wanted(items[..i], gone) + [items[i]]
    ensures Wanted(items[..i + 1], gone + {items[i]}) == Wanted(items[..i], gone)
  {
    TakeSnoc(items, i);
    WantedIgnores(items[..i], gone, items[i]);
  }

  lemma DropFirst(items: seq<Item>, i: nat)
    requires Distinct(items) && i < |items|
    ensures Elems(items[i..]) == {items[i]} + Elems(items[i + 1..]) && items[i] !in items[i + 1..]
    ensures forall x :: x in items[i + 1..] ==> x in items
  {
    assert items[i..] == [items[i]] + items[i + 1..];
  }

  // While it filters, a goroutine has answered exactly the jobs it found unwanted.
  lemma FilteredAreGone(r: BatchRun, results: map<Item, Result>, x: Item)
    requires r.phase.Filtering? && PhaseOk(r) && AnswersOk(r, results) && x in r.items && x in results
    ensures x in r.gone && results[x] == Gone
  {
    assert Meant(r, x, results[x]);
  }

  lemma UnansweredAfterFilter(r: BatchRun, unwanted: bool)
    requires r.phase.Filtering? && PhaseOk(r) && Distinct(r.items)
    ensures var x := r.items[r.phase.i];
            && x in Unanswered(r) && x !in r.phase.active
            && Unanswered(Filtered(r, unwanted)) == if unwanted then Unanswered(r) - {x} else Unanswered(r)
  {
    var i, active := r.phase.i, r.phase.active;
    var x := r.items[i];
    DropFirst(r.items, i);
    WantedSnoc(r.items, r.gone, i);
    WantedMeans(r.items[..i], r.gone);
    assert Elems(active + [x]) == Elems(active) + {x};
    assert i + 1 == |r.items| ==> r.items[i + 1..] == [];
  }

  lemma FilterKeepsPhase(r: BatchRun, unwanted: bool)
    requires r.phase.Filtering? && PhaseOk(r) && Distinct(r.items)
    ensures PhaseOk(Filtered(r, unwanted))
  {
    var i := r.phase.i;
    WantedSnoc(r.items, r.gone, i);
    TakeSnoc(r.items, i);
    if i + 1 == |r.items| {
      TakeAll(r.items);
    }
  }

  lemma FilterKeepsRun(r: BatchRun, unwanted: bool, results: map<Item, Result>)
    requires r.phase.Filtering? && PhaseOk(r) && AnswersOk(r, results) && Distinct(r.items)
    ensures var x := r.items[r.phase.i];
            && x !in results && PhaseOk(Filtered(r, unwanted))
            && AnswersOk(Filtered(r, unwanted), if unwanted then results[x := Gone] else results)
  {
    var x, q := r.items[r.phase.i], Filtered(r, unwanted);
    FilterKeepsPhase(r, unwanted);
    UnansweredAfterFilter(r, unwanted);
    forall y | y in r.items && y in results
      ensures y in r.gone && results[y] == Gone
    {
      FilteredAreGone(r, results, y);
    }
  }

  lemma ReturnKeepsRun(r: BatchRun, work: Work, results: map<Item, Result>)
    requires r.phase.Working? && PhaseOk(r) && AnswersOk(r, results)
    ensures var q := r.(outcome := Some(work), phase := Answering(r.phase.active, 0));
            PhaseOk(q) && AnswersOk(q, results)
  {
    var q := r.(outcome := Some(work), phase := Answering(r.phase.active, 0));
    assert r.phase.active[0..] == r.phase.active;
    forall y | y in r.items && y in results
      ensures Meant(q, y, results[y])
    {
      assert Meant(r, y, results[y]);
    }
  }

  lemma UnansweredAfterAnswer(r: BatchRun)
    requires r.phase.Answering? && PhaseOk(r) && Distinct(r.items)
    ensures var x := r.phase.active[r.phase.i];
            && x in r.items && x !in r.gone && x in Unanswered(r)
            && Unanswered(Answered(r)) == Unanswered(r) - {x}
  {
    var active, i := r.phase.active, r.phase.i;
    WantedMeans(r.items, r.gone);
    DropFirst(active, i);
    assert active[i] in active;
    assert i + 1 == |active| ==> active[i + 1..] == [];
  }

  lemma AnswerKeepsRun(r: BatchRun, results: map<Item, Result>)
    requires r.phase.Answering? && PhaseOk(r) && AnswersOk(r, results) && Distinct(r.items)
    ensures var active, i := r.phase.active, r.phase.i;
            && active[i] in r.items && active[i] !in results && PhaseOk(Answered(r))
            && AnswersOk(Answered(r), results[active[i] := ResultAt(r.outcome.value, |active|, i)])
  {
    UnansweredAfterAnswer(r);
    var q := Answered(r);
    assert Meant(q, r.phase.active[r.phase.i], ResultAt(r.outcome.value, |r.phase.active|, r.phase.i));
    assert forall y, m :: Meant(r, y, m) ==> Meant(q, y, m);
  }

  // ---- All goroutines together ----

  // A step of one goroutine fills channels of its own batch only.
  lemma RunStepKeeps(s: State, k: nat, q: BatchRun, results: map<Item, Result>)
    requires Inv(s) && k < |s.runs| && q.items == s.runs[k].items && PhaseOk(q) && AnswersOk(q, results)
    requires s.results.Keys <= results.Keys <= s.results.Keys + Elems(q.items)
    requires forall x :: x in s.results && x !in q.items ==> results[x] == s.results[x]
    ensures Inv(WithRun(s, k, q).(results := results))
  {
    var t := WithRun(s, k, q).(results := results);
    assert forall j :: 0 <= j < |s.runs| ==> t.runs[j].items == s.runs[j].items;
    assert Handed(t.runs) == Handed(s.runs);
    forall j | 0 <= j < |t.runs|
      ensures PhaseOk(t.runs[j]) && AnswersOk(t.runs[j], results)
    {
      if j != k {
        OtherRunKeeps(s, k, j, results);
      }
    }
    assert forall x :: x in q.items ==> x in Handed(s.runs);
  }

  lemma OtherRunKeeps(s: State, k: nat, j: nat, results: map<Item, Result>)
    requires Inv(s) && k < |s.runs| && j < |s.runs| && j != k
    requires s.results.Keys <= results.Keys <= s.results.Keys + Elems(s.runs[k].items)
    requires forall x :: x in s.results && x !in s.runs[k].items ==> results[x] == s.results[x]
    ensures AnswersOk(s.runs[j], results)
  {
    assert AnswersOk(s.runs[j], s.results);
    forall x | x in s.runs[j].items
      ensures (x in results <==> x in s.results) && (x in results ==> results[x] == s.results[x])
    {
      assert x !in s.runs[k].items;
    }
  }

  // Every send finds its channel empty.
  lemma SendsFindRoom(s: State, e: Event)
    requires Inv(s) && Can(s, e) && Target(s, e).Some?
    ensures Target(s, e).value !in s.results && Target(s, e).value in s.runs[e.k].items
  {
    var r := s.runs[e.k];
    assert PhaseOk(r) && AnswersOk(r, s.results) && Distinct(r.items);
    if e.Filter? {
      FilterKeepsRun(r, true, s.results);
    } else {
      AnswerKeepsRun(r, s.results);
    }
  }

  lemma RunEventKeeps(s: State, e: Event)
    requires Inv(s) && Can(s, e) && (e.Filter? || e.Return? || e.Answer?)
    ensures Inv(Next(s, e))
  {
    var r := s.runs[e.k];
    assert PhaseOk(r) && AnswersOk(r, s.results) && Distinct(r.items);
    match e
    case Filter(k, unwanted) =>
      FilterKeepsRun(r, unwanted, s.results);
      var x := r.items[r.phase.i];
      RunStepKeeps(s, k, Filtered(r, unwanted), if unwanted then s.results[x := Gone] else s.results);
    case Return(k, work) =>
      ReturnKeepsRun(r, work, s.results);
      RunStepKeeps(s, k, r.(outcome := Some(work), phase := Answering(r.phase.active, 0)), s.results);
    case Answer(k) =>
      AnswerKeepsRun(r, s.results);
      RunStepKeeps(s, k, Answered(r), s.results[r.phase.active[r.phase.i] := Message(s, e)]);
  }

  lemma HandedSnoc(runs: seq<BatchRun>, r: BatchRun)
    ensures Handed(runs + [r]) == Handed(runs) + Elems(r.items)
  {
    var more := runs + [r];
    assert more[|runs|] == r && forall k :: 0 <= k < |runs| ==> more[k] == runs[k];
    forall x | x in Handed(runs) + Elems(r.items)
      ensures x in Handed(more)
    {
      if x in Handed(runs) {
        var k :| 0 <= k < |runs| && x in runs[k].items;
        assert x in more[k].items;
      } else {
        assert x in more[|runs|].items;
      }
    }
  }

  lemma ApartAfterHandOver(runs: seq<BatchRun>, r: BatchRun)
    requires Apart(runs, r.items)
    ensures Apart(runs + [r], [])
  {
  }

  lemma HandOverKeeps(s: State)
    requires Books(s) && RunsOk(s) && 1 <= |s.pending| <= s.maxSize
    ensures Inv(HandedOver(s))
  {
    var r := BatchRun(s.pending, {}, None, Filtering(0, []));
    var t := HandedOver(s);
    HandedSnoc(s.runs, r);
    ApartAfterHandOver(s.runs, r);
    assert r.items[0..] == r.items && r.items[..0] == [];
    assert forall x :: x in Handed(s.runs) ==> x !in s.pending;
    assert AnswersOk(r, s.results) && PhaseOk(r);
    assert forall k :: 0 <= k < |s.runs| ==> t.runs[k] == s.runs[k];
    assert RunsOk(t);
  }

  lemma AppendKeeps(s: State, x: Item)
    requires Books(s) && x !in s.submitted
    ensures Books(s.(pending := s.pending + [x], submitted := s.submitted + {x}))
  {
    var more := s.pending + [x];
    assert Elems(more) == Elems(s.pending) + {x};
    forall k, y | 0 <= k < |s.runs| && y in s.runs[k].items
      ensures y !in more
    {
      assert y in Handed(s.runs);
    }
    assert x !in Elems(s.pending);
  }

  lemma SubmitKeeps(s: State, x: Item)
    requires Inv(s) && x !in s.submitted
    ensures Inv(Submitted(s, x))
  {
    AppendKeeps(s, x);
    var t := Armed(s).(pending := s.pending + [x], submitted := s.submitted + {x});
    assert Books(t) && RunsOk(t);
    if |t.pending| >= t.maxSize {
      HandOverKeeps(t);
    }
  }

  lemma {:induction false} WithoutMeans(s: seq<Item>, x: Item)
    requires Distinct(s) && x in s
    ensures Distinct(Without(s, x)) && Elems(Without(s, x)) == Elems(s) - {x} && |Without(s, x)| == |s| - 1
  {
    assert s == [s[0]] + s[1..];
    if s[0] != x {
      WithoutMeans(s[1..], x);
      assert Elems(Without(s, x)) == {s[0]} + Elems(Without(s[1..], x));
      assert s[0] !in s[1..] && s[0] !in Elems(Without(s[1..], x));
    }
  }

  lemma CancelKeeps(s: State, x: Item)
    requires Inv(s) && x in s.submitted
    ensures Inv(Cancelled(s, x))
  {
    if x in s.pending {
      WithoutMeans(s.pending, x);
      var rest := Without(s.pending, x);
      assert forall y :: y in rest ==> y in Elems(rest);
      forall k, y | 0 <= k < |s.runs| && y in s.runs[k].items
        ensures y !in rest
      {
        assert y in Handed(s.runs);
      }
      assert x !in Handed(s.runs);
      assert Books(s.(pending := rest, withdrawn := s.withdrawn + {x}));
    }
  }

  lemma NextKeeps(s: State, e: Event)
    requires Inv(s) && Can(s, e)
    ensures Inv(Next(s, e))
  {
    match e
    case Submit(x) => SubmitKeeps(s, x);
    case Flush(g) =>
      if s.generation == g && s.pending != [] {
        HandOverKeeps(s);
      }
    case Cancel(x) => CancelKeeps(s, x);
    case _ => RunEventKeeps(s, e);
  }

  // ---- Over every run ----

  ghost predicate Fresh(s: State) {
    s == State(s.maxSize, s.generation, [], None, map[], {}, {}, []) && s.maxSize >= 1
  }

  ghost predicate StepAt(states: seq<State>, events: seq<Event>, i: nat)
    requires |states| == |events| + 1 && i < |events|
  {
    Can(states[i], events[i]) && states[i + 1] == Next(states[i], events[i])
  }

  ghost predicate IsRun(states: seq<State>, events: seq<Event>) {
    |states| == |events| + 1 && Fresh(states[0]) && forall i :: 0 <= i < |events| ==> StepAt(states, events, i)
  }

  // Event i sends on the channel of x.
  ghost predicate SendsTo(states: seq<State>, events: seq<Event>, i: nat, x: Item)
    requires |states| == |events| + 1 && i < |events|
  {
    StepAt(states, events, i) && Target(states[i], events[i]) == Some(x)
  }

  lemma {:induction false} InvOverRuns(states: seq<State>, events: seq<Event>, n: nat)
    requires IsRun(states, events) && n <= |events|
    ensures Inv(states[n])
  {
    if n > 0 {
      InvOverRuns(states, events, n - 1);
      assert StepAt(states, events, n - 1);
      NextKeeps(states[n - 1], events[n - 1]);
    }
  }

  lemma FilledStays(s: State, e: Event, x: Item)
    requires Inv(s) && Can(s, e)
    ensures x in s.results ==> x in Next(s, e).results && Next(s, e).results[x] == s.results[x]
    ensures x in Next(s, e).results <==> x in s.results || Target(s, e) == Some(x)
  {
    if Target(s, e).Some? {
      SendsFindRoom(s, e);
    }
  }

  lemma {:induction false} FilledForever(states: seq<State>, events: seq<Event>, i: nat, j: nat, x: Item)
    requires IsRun(states, events) && i <= j <= |events| && x in states[i].results
    ensures x in states[j].results && states[j].results[x] == states[i].results[x]
    decreases j
  {
    if i < j {
      FilledForever(states, events, i, j - 1, x);
      InvOverRuns(states, events, j - 1);
      assert StepAt(states, events, j - 1);
      FilledStays(states[j - 1], events[j - 1], x);
    }
  }

  // No channel is ever sent on twice, by whatever goroutine, so a channel with one slot never blocks.
  lemma AnsweredAtMostOnce(states: seq<State>, events: seq<Event>, i: nat, j: nat, x: Item)
    requires IsRun(states, events) && i < j < |events| && SendsTo(states, events, i, x)
    ensures !SendsTo(states, events, j, x)
  {
    InvOverRuns(states, events, i);
    FilledStays(states[i], events[i], x);
    FilledForever(states, events, i + 1, j, x);
    InvOverRuns(states, events, j);
    if SendsTo(states, events, j, x) {
      SendsFindRoom(states[j], events[j]);
    }
  }

  lemma {:induction false} FilledBySend(states: seq<State>, events: seq<Event>, n: nat, x: Item)
    requires IsRun(states, events) && n <= |events| && x in states[n].results
    ensures exists i :: 0 <= i < n && SendsTo(states, events, i, x)
  {
    InvOverRuns(states, events, n - 1);
    assert StepAt(states, events, n - 1);
    FilledStays(states[n - 1], events[n - 1], x);
    if x in states[n - 1].results {
      FilledBySend(states, events, n - 1, x);
    } else {
      assert SendsTo(states, events, n - 1, x);
    }
  }

  // When a batch is done each of its jobs has been answered, exactly once, with the answer meant for it.
  lemma DoneMeansAnswered(states: seq<State>, events: seq<Event>, n: nat, k: nat, x: Item)
    requires IsRun(states, events) && n <= |events| && k < |states[n].runs|
    requires states[n].runs[k].phase.Done? && x in states[n].runs[k].items
    ensures exists i :: 0 <= i < n && SendsTo(states, events, i, x)
    ensures forall i, j :: 0 <= i < j < |events| && SendsTo(states, events, i, x) ==> !SendsTo(states, events, j, x)
    ensures x in states[n].results && Meant(states[n].runs[k], x, states[n].results[x])
  {
    InvOverRuns(states, events, n);
    assert AnswersOk(states[n].runs[k], states[n].results);
    FilledBySend(states, events, n, x);
    forall i, j | 0 <= i < j < |events| && SendsTo(states, events, i, x)
      ensures !SendsTo(states, events, j, x)
    {
      AnsweredAtMostOnce(states, events, i, j, x);
    }
  }

  // The wanted jobs are taken in the order in which they were submitted to the batch.
  lemma {:induction false} WantedKeepsOrder(items: seq<Item>, gone: set<Item>, i: nat, j: nat)
    requires i < j < |Wanted(items, gone)|
    ensures exists p, q :: 0 <= p < q < |items| && items[p] == Wanted(items, gone)[i] && items[q] == Wanted(items, gone)[j]
  {
    var init := items[..|items| - 1];
    if j < |Wanted(init, gone)| {
      WantedKeepsOrder(init, gone, i, j);
      var p, q :| 0 <= p < q < |init| && init[p] == Wanted(init, gone)[i] && init[q] == Wanted(init, gone)[j];
      assert items[p] == init[p] && items[q] == init[q];
    } else {
      WantedIn(init, gone, i);
      var p :| 0 <= p < |init| && init[p] == Wanted(init, gone)[i];
      assert items[p] == init[p] && items[|items| - 1] == Wanted(items, gone)[j];
    }
  }

  lemma {:induction false} WantedIn(items: seq<Item>, gone: set<Item>, i: nat)
    requires i < |Wanted(items, gone)|
    ensures exists p :: 0 <= p < |items| && items[p] == Wanted(items, gone)[i]
  {
    var init := items[..|items| - 1];
    if i < |Wanted(init, gone)| {
      WantedIn(init, gone, i);
      var p :| 0 <= p < |init| && init[p] == Wanted(init, gone)[i];
      assert items[p] == init[p];
    } else {
      assert items[|items| - 1] == Wanted(items, gone)[i];
    }
  }

  // Over any run: once a batch is done, the i-th wanted job has received the i-th result of the batch
  // function, if there were as many results as wanted jobs; otherwise all of them learn what went wrong.
  lemma ResultsArriveInOrder(states: seq<State>, events: seq<Event>, n: nat, k: nat, i: nat)
    requires IsRun(states, events) && n <= |events| && k < |states[n].runs|
    requires states[n].runs[k].phase.Done? && i < |Wanted(states[n].runs[k].items, states[n].runs[k].gone)|
    ensures var r := states[n].runs[k];
            var wanted := Wanted(r.items, r.gone);
            && wanted[i] in states[n].results && r.outcome.Some?
            && match r.outcome.value
               case Panics => states[n].results[wanted[i]] == Panicked
               case Returns(rs) => states[n].results[wanted[i]] == if |rs| == |wanted| then FromWork(rs[i]) else WrongCount
  {
    InvOverRuns(states, events, n);
    var r := states[n].runs[k];
    assert PhaseOk(r) && AnswersOk(r, states[n].results) && Distinct(r.items);
    var wanted := Wanted(r.items, r.gone);
    WantedMeans(r.items, r.gone);
    assert wanted[i] in wanted && wanted[i] in r.items;
    var m := states[n].results[wanted[i]];
    assert Meant(r, wanted[i], m);
    var l :| 0 <= l < |wanted| && wanted[l] == wanted[i] && m == ResultAt(r.outcome.value, |wanted|, l);
    assert l == i;
  }

  // A goroutine that is not done can always take its next step.
  lemma GoroutinesNeverBlock(s: State, k: nat, unwanted: bool, work: Work)
    requires Inv(s) && k < |s.runs| && !s.runs[k].phase.Done?
    ensures Can(s, Filter(k, unwanted)) || Can(s, Return(k, work)) || Can(s, Answer(k))
  {
    assert PhaseOk(s.runs[k]);
  }

  // Nobody else moves a goroutine's own variables.
  lemma OthersLeaveRun(s: State, e: Event, k: nat)
    requires Inv(s) && Can(s, e) && k < |s.runs| && !((e.Filter? || e.Return? || e.Answer?) && e.k == k)
    ensures k < |Next(s, e).runs| && Next(s, e).runs[k] == s.runs[k]
    ensures forall x :: x in s.results ==> x in Next(s, e).results && Next(s, e).results[x] == s.results[x]
  {
    forall x | x in s.results
      ensures x in Next(s, e).results && Next(s, e).results[x] == s.results[x]
    {
      FilledStays(s, e, x);
    }
  }

  // A job is never part of two batches.
  lemma OneBatchEach(states: seq<State>, events: seq<Event>, n: nat, j: nat, k: nat, x: Item)
    requires IsRun(states, events) && n <= |events| && j < |states[n].runs| && k < |states[n].runs|
    requires x in states[n].runs[j].items && x in states[n].runs[k].items
    ensures j == k && x !in states[n].pending && x !in states[n].withdrawn && x in states[n].submitted
    ensures |states[n].runs[j].items| <= states[n].maxSize
  {
    InvOverRuns(states, events, n);
    assert x in Handed(states[n].runs);
  }

  // Only the timer armed for the current list hands anything over, and it hands over all of it.
  lemma StaleTimersDoNothing(s: State, g: nat)
    requires Inv(s)
    ensures s.timer != Some(g) ==> Flushed(s, g) == s
    ensures s.timer == Some(g) ==> s.pending != [] && Flushed(s, g).pending == []
                                   && Flushed(s, g).runs == s.runs + [BatchRun(s.pending, {}, None, Filtering(0, []))]
  {
  }

  lemma {:induction false} WithoutAt(s: seq<Item>, x: Item, i: nat)
    requires i < |s| && s[i] == x && x !in s[..i]
    ensures Without(s, x) == s[..i] + s[i + 1..]
  {
    if i > 0 {
      assert s[0] == s[..i][0];
      assert s[1..][..i - 1] == s[..i][1..];
      WithoutAt(s[1..], x, i - 1);
      assert s[..i] + s[i + 1..] == [s[0]] + (s[1..][..i - 1] + s[1..][i..]);
    }
  }

  method Find(pending: seq<Item>, x: Item) returns (i: nat)
    ensures i < |pending| <==> x in pending
    ensures i < |pending| ==> pending[i] == x && Without(pending, x) == pending[..i] + pending[i + 1..]
  {
    i := 0;
    while i < |pending| && pending[i] != x
      invariant i <= |pending| && forall j :: 0 <= j < i ==> pending[j] != x
    {
      i := i + 1;
    }
    if i < |pending| {
      WithoutAt(pending, x, i);
    }
  }

  // What a step of a goroutine writes.
  lemma AnswerIs(s: State, k: nat, x: Item, m: Result)
    requires Inv(s) && Can(s, Answer(k)) && Target(s, Answer(k)) == Some(x) && Message(s, Answer(k)) == m
    ensures x !in s.results && Inv(Next(s, Answer(k)))
    ensures Next(s, Answer(k)) == s.(results := s.results[x := m], runs := s.runs[k := Answered(s.runs[k])])
  {
    NextKeeps(s, Answer(k));
    SendsFindRoom(s, Answer(k));
  }

  lemma FilterIs(s: State, k: nat, x: Item, unwanted: bool)
    requires Inv(s) && Can(s, Filter(k, unwanted)) && s.runs[k].items[s.runs[k].phase.i] == x
    ensures unwanted ==> x !in s.results
    ensures Inv(Next(s, Filter(k, unwanted)))
    ensures Next(s, Filter(k, unwanted)) ==
            s.(results := if unwanted then s.results[x := Gone] else s.results, runs := s.runs[k := Filtered(s.runs[k], unwanted)])
  {
    NextKeeps(s, Filter(k, unwanted));
    if unwanted {
      SendsFindRoom(s, Filter(k, unwanted));
    }
  }

  // ---- The shared object ----

  ghost predicate Kept(before: map<Item, Result>, after: map<Item, Result>) {
    forall x :: x in before ==> x in after && after[x] == before[x]
  }

  class BatchHandler {
    const maxSize: nat
    var generation: nat
    var pending: seq<Item>
    var timer: Option<nat>
    var results: map<Item, Result>
    ghost var submitted: set<Item>
    ghost var withdrawn: set<Item>
    ghost var runs: seq<BatchRun>

    ghost function View(): State
      reads this
    {
      State(maxSize, generation, pending, timer, results, submitted, withdrawn, runs)
    }

    constructor (size: nat)
      requires size >= 1
      ensures Fresh(View()) && Inv(View()) && maxSize == size
    {
      maxSize, generation, pending, timer, results := size, 0, [], None, map[];
      submitted, withdrawn, runs := {}, {}, [];
    }

    method HandOver() returns (batch: seq<Item>)
      modifies this
      ensures View() == HandedOver(old(View())) && batch == old(pending)
    {
      generation := generation + 1;
      timer := None;
      batch, pending := pending, [];
      runs := runs + [BatchRun(batch, {}, None, Filtering(0, []))];
    }

    // Appends the job; the first one arms the timer, and a full list is handed over at once.
    method Submit(x: Item) returns (batch: seq<Item>)
      requires Inv(View()) && x !in submitted
      modifies this
      ensures Inv(View()) && View() == Next(old(View()), Event.Submit(x))
      ensures batch == if |old(pending)| + 1 < maxSize then [] else old(pending) + [x]
    {
      ghost var before := View();
      batch := Append(x);
      NextKeeps(before, Event.Submit(x));
    }

    method Append(x: Item) returns (batch: seq<Item>)
      requires |pending| < maxSize
      modifies this
      ensures View() == Submitted(old(View()), x)
      ensures batch == if |old(pending)| + 1 < maxSize then [] else old(pending) + [x]
    {
      if |pending| == 0 {
        generation := generation + 1;
        timer := Some(generation);
      }
      pending := pending + [x];
      submitted := submitted + {x};
      batch := [];
      if |pending| >= maxSize {
        batch := HandOver();
      }
    }

    // A timer fires.
    method Flush(g: nat) returns (batch: seq<Item>)
      requires Inv(View())
      modifies this
      ensures Inv(View()) && View() == Next(old(View()), Event.Flush(g))
      ensures batch == if old(timer) == Some(g) then old(pending) else []
    {
      ghost var before := View();
      batch := [];
      if generation == g && |pending| > 0 {
        batch := HandOver();
      }
      NextKeeps(before, Event.Flush(g));
    }

    // The submitter gives up: its job leaves the list unless it has been handed over already.
    method CancelPending(x: Item)
      requires Inv(View()) && x in submitted
      modifies this
      ensures Inv(View()) && View() == Next(old(View()), Cancel(x))
    {
      ghost var before := View();
      var i := Find(pending, x);
      if i < |pending| {
        pending := pending[..i] + pending[i + 1..];
        withdrawn := withdrawn + {x};
        if |pending| == 0 {
          generation := generation + 1;
          timer := None;
        }
      }
      NextKeeps(before, Cancel(x));
    }

    // Whatever other goroutines do between two steps of goroutine k. Each of their steps is one of
    // those that OthersLeaveRun and NextKeeps speak of.
    method Elapse(ghost k: nat)
      requires Inv(View()) && k < |runs|
      modifies this
      ensures Inv(View()) && k < |runs| && runs[k] == old(runs[k]) && Kept(old(results), results)
    {
    }

    // Fills a result channel. It has one slot, so it must not have been filled before.
    method Send(x: Item, r: Result)
      requires x !in results
      modifies this`results
      ensures results == old(results)[x := r]
    {
      results := results[x := r];
    }

    method FilterNext(ghost k: nat, x: Item, unwanted: bool)
      requires Inv(View()) && Can(View(), Filter(k, unwanted)) && x == runs[k].items[runs[k].phase.i]
      modifies this`results, this`runs
      ensures Inv(View()) && View() == Next(old(View()), Filter(k, unwanted)) && Kept(old(results), results)
    {
      FilterIs(View(), k, x, unwanted);
      if unwanted {
        Send(x, Gone);
      }
      runs := runs[k := Filtered(runs[k], unwanted)];
    }

    method AnswerNext(ghost k: nat, x: Item, r: Result)
      requires Inv(View()) && Can(View(), Answer(k)) && Some(x) == Target(View(), Answer(k)) && r == Message(View(), Answer(k))
      modifies this`results, this`runs
      ensures Inv(View()) && View() == Next(old(View()), Answer(k)) && Kept(old(results), results)
    {
      ghost var before := View();
      AnswerIs(before, k, x, r);
      SendAndMove(k, x, r, Answered(runs[k]));
      assert View() == Next(before, Answer(k));
    }

    method SendAndMove(ghost k: nat, x: Item, r: Result, ghost q: BatchRun)
      requires k < |runs| && x !in results
      modifies this`results, this`runs
      ensures View() == old(View()).(results := old(results)[x := r], runs := old(runs)[k := q])
    {
      Send(x, r);
      runs := runs[k := q];
    }

    // The same steps, whenever the goroutine gets to them.
    method FilterLater(ghost k: nat, ghost r: BatchRun, x: Item, unwanted: bool)
      requires Inv(View()) && k < |runs| && runs[k] == r
      requires r.phase.Filtering? && r.phase.i < |r.items| && x == r.items[r.phase.i]
      modifies this
      ensures Inv(View()) && k < |runs| && runs[k] == Filtered(r, unwanted) && Kept(old(results), results)
    {
      Elapse(k);
      FilterNext(k, x, unwanted);
    }

    method AnswerLater(ghost k: nat, ghost r: BatchRun, x: Item, m: Result)
      requires Inv(View()) && k < |runs| && runs[k] == r && r.outcome.Some?
      requires r.phase.Answering? && r.phase.i < |r.phase.active| && x == r.phase.active[r.phase.i]
      requires m == ResultAt(r.outcome.value, |r.phase.active|, r.phase.i)
      modifies this
      ensures Inv(View()) && k < |runs| && runs[k] == Answered(r) && Kept(old(results), results)
    {
      Elapse(k);
      AnswerNext(k, x, m);
    }

    // The first pass: jobs no longer wanted are answered at once.
    method DropGone(ghost k: nat, batch: seq<Item>, gone: Item -> bool) returns (active: seq<Item>)
      requires Inv(View()) && k < |runs| && runs[k] == BatchRun(batch, {}, None, Filtering(0, []))
      modifies this
      ensures Inv(View()) && k < |runs| && Kept(old(results), results)
      ensures runs[k] == BatchRun(batch, GoneAmong(batch, gone), None, if active == [] then Done else Working(active))
    {
      active := [];
      assert batch != [] by {
        assert 1 <= |runs[k].items|;
      }
      var i := 0;
      while i < |batch|
        invariant i <= |batch| && Inv(View()) && k < |runs| && Kept(old(results), results)
        invariant runs[k] == BatchRun(batch, GoneAmong(batch[..i], gone), None, AfterFilter(runs[k], i, active))
      {
        TakeSnoc(batch, i);
        GoneSnoc(batch[..i], batch[i], gone);
        FilterLater(k, runs[k], batch[i], gone(batch[i]));
        if !gone(batch[i]) {
          active := active + [batch[i]];
        }
        i := i + 1;
      }
      TakeAll(batch);
    }

    // The goroutine of one batch, from its hand-over on. Every send is a step of its own, and in the
    // end every job has received the answer meant for it.
    method Run(ghost k: nat, batch: seq<Item>, gone: Item -> bool, work: seq<Item> -> Work)
      requires Inv(View()) && k < |runs| && runs[k] == BatchRun(batch, {}, None, Filtering(0, []))
      modifies this
      ensures Inv(View()) && k < |runs| && Kept(old(results), results)
      ensures runs[k].phase.Done? && runs[k].items == batch && runs[k].gone == GoneAmong(batch, gone)
      ensures var wanted := Wanted(batch, GoneAmong(batch, gone));
              runs[k].outcome == if wanted == [] then None else Some(work(wanted))
      ensures forall x :: x in batch ==> x in results && Meant(runs[k], x, results[x])
    {
      var active := DropGone(k, batch, gone);
      assert PhaseOk(runs[k]);
      if |active| > 0 {
        Elapse(k);
        ghost var before := View();
        var outcome := work(active);
        NextKeeps(before, Return(k, outcome));
        runs := runs[k := runs[k].(outcome := Some(outcome), phase := Answering(active, 0))];
        HandOut(k, batch, GoneAmong(batch, gone), active, outcome);
      }
      assert PhaseOk(runs[k]) && AnswersOk(runs[k], results);
    }

    method HandOut(ghost k: nat, ghost batch: seq<Item>, ghost gone: set<Item>, active: seq<Item>, outcome: Work)
      requires Inv(View()) && k < |runs| && active != []
      requires runs[k] == BatchRun(batch, gone, Some(outcome), Answering(active, 0))
      modifies this
      ensures Inv(View()) && k < |runs| && Kept(old(results), results)
      ensures runs[k] == BatchRun(batch, gone, Some(outcome), Done)
    {
      var i := 0;
      while i < |active|
        invariant i <= |active| && Inv(View()) && k < |runs| && Kept(old(results), results)
        invariant runs[k] == BatchRun(batch, gone, Some(outcome), if i < |active| then Answering(active, i) else Done)
      {
        var r := match outcome
          case Panics => Panicked
          case Returns(rs) => if |rs| != |active| then WrongCount else FromWork(rs[i]);
        AnswerLater(k, runs[k], active[i], r);
        i := i + 1;
      }
    }
  }

  ghost function GoneAmong(batch: seq<Item>, gone: Item -> bool): set<Item> {
    set x | x in batch && gone(x)
  }

  lemma GoneSnoc(batch: seq<Item>, x: Item, gone: Item -> bool)
    ensures GoneAmong(batch + [x], gone) == if gone(x) then GoneAmong(batch, gone) + {x} else GoneAmong(batch, gone)
  {
  }
}
