// The workflow coordinator: one attempt at a time, interrupted anywhere
// (go/headgateworkflow/coordinator.go).
module Coordinator {
  import opened Common
  import opened WorkflowGraph
  import opened WorkflowTick
  import opened WorkflowWorld
  import opened WorkflowStore
  import opened CoordinatorTick
  import opened Receipts

  // Another receipt than the automatic one waits under its id.
  predicate Occupied(c: Config, s: World) {
    var cur := Normalize(s.cursor);
    var id := RetryReceipt(cur.revision + 1);
    cur.autoRetry && id in s.jobs && s.jobs[id].payload != RetryArgs(c.base.workflowId, cur.revision)
  }

  // The payload was stored under the id after s.
  ghost predicate Stored(c: Config, s: World, id: JobId, p: Payload) {
    exists t :: Kept(c, s, t) && id in t.jobs && t.jobs[id].payload == p
  }

  method EnqueueAutomaticRetry(w: Store, cur0: Cursor) returns (err: bool, cur: Cursor)
    requires Inv(w.c, w.s) && cur0 == Normalize(w.s.cursor) && cur0.autoRetry
    modifies w
    ensures Reconciled(w.c, old(w.s), w.s, cur, err) && w.s.accepted == old(w.s.accepted)
    ensures !err ==> cur == cur0.(autoRetry := false)
    ensures !err ==> Stored(w.c, old(w.s), RetryReceipt(cur0.revision + 1), RetryArgs(w.c.base.workflowId, cur0.revision))
    ensures !err ==> (RetryReceipt(cur0.revision + 1), RetryArgs(w.c.base.workflowId, cur0.revision)) in w.s.submitted
    ensures w.Later() && (w.Alone() && err ==> Occupied(w.c, old(w.s)))
    ensures w.Alone() && !err ==>
              w.s.jobs == AddRetryReceipt(old(w.s), RetryReceipt(cur0.revision + 1), RetryArgs(w.c.base.workflowId, cur0.revision)).jobs
  {
    cur := cur0;
    if !cur.failed {
      return true, cur;
    }
    err := w.EnqueueRetry(RetryArgs(w.c.base.workflowId, cur.revision));
    if err {
      return;
    }
    cur := cur.(autoRetry := false);
    FlagWrite(w.c, w.s, cur);
    err := w.SetCursor(cur, Plain);
  }

  // ---- One attempt of the coordinator job, and any number of them ----

  datatype AttemptOutcome = Errored | Snoozed | Skipped | Done

  // Records a failed verdict; with a retry policy and budget left, asks for the next generation.
  method RecordFailure(w: Store, cur0: Cursor) returns (outcome: AttemptOutcome)
    requires Inv(w.c, w.s) && cur0 == Normalize(w.s.cursor) && !cur0.autoRetry
    modifies w
    ensures Advanced(w.c, old(w.s), w.s)
    ensures outcome == Errored || (FailureRecorded(w.c, w.s.cursor, outcome)
                                   && w.s.cursor == cur0.(failed := w.s.cursor.failed, autoRetry := w.s.cursor.autoRetry))
    ensures w.Later() && (outcome == Errored <==> !w.Heard())
  {
    var cur := cur0;
    if w.c.base.failedSubgraphRetry {
      cur := cur.(failed := true);
      if w.c.base.retryPolicy.Some? && cur.generation < w.c.base.retryPolicy.value.maxGenerations {
        cur := cur.(autoRetry := true);
      }
    }
    FlagWrite(w.c, w.s, cur);
    var lost := w.Persist(cur, Plain);
    if lost {
      return Errored;
    }
    return if cur.autoRetry then Snoozed else Skipped;
  }

  // The durable cursor says failed where retries are allowed, and asks for another generation exactly
  // when the policy has one left.
  ghost predicate FailureRecorded(c: Config, cur: Cursor, outcome: AttemptOutcome) {
    var again := c.base.failedSubgraphRetry && c.base.retryPolicy.Some? && cur.generation < c.base.retryPolicy.value.maxGenerations;
    && (c.base.failedSubgraphRetry ==> cur.failed) && cur.autoRetry == again
    && outcome == if again then Snoozed else Skipped
  }

  // What can stop an attempt when nobody else acts.
  ghost predicate Snag(c: Config, s: World) {
    Occupied(c, s) || RetrySnag(c, s) || GraftSnag(s)
  }

  // The workflow has started, and a retry that was asked for is enqueued.
  ghost predicate Begun(c: Config, s: World, t: World) {
    var cur := Normalize(s.cursor);
    && Clean(c, s, t) && Normalize(t.cursor) == cur.(started := true, autoRetry := false)
    && (cur.autoRetry ==> (RetryReceipt(cur.revision + 1), RetryArgs(c.base.workflowId, cur.revision)) in t.submitted)
  }

  // The worlds on the way to a tick: after the start, with no retry left to deal with, with no graft left either.
  datatype Path = Path(begun: World, noRetry: World, noGraft: World)

  ghost predicate Through(c: Config, s: World, path: Path) {
    Begun(c, s, path.begun) && NoRetryDue(c, path.begun, path.noRetry) && NoGraftDue(c, path.noRetry, path.noGraft)
  }

  // What an attempt did: it was interrupted, dealt with a retry or with a graft, came upon a node without
  // an answer, or evaluated the graph. heard says that no call was lost.
  datatype Story =
    | Interrupted
    | Retried(begun: World, verdict: TickResult, heard: bool)
    | Grafted(begun: World, noRetry: World)
    | Faulted(path: Path, cur: Cursor, tick: TickStory)
    | Ticked(path: Path, result: TickResult, tick: TickStory)

  // The outcome of an attempt that evaluated the graph in s, and the cursor it left.
  ghost predicate TickTold(c: Config, s: World, t: World, evaluate: NodeSpec -> Option<bool>,
                           outcome: AttemptOutcome, result: TickResult, tick: TickStory) {
    && Seen(c, s, Normalize(s.cursor), t.cursor, evaluate, tick) && Judged(c, t, result, tick)
    && (result == Waiting ==> outcome == Snoozed)
    && (result == Succeeded ==> outcome == Done)
    && (result == Failed ==> FailureRecorded(c, t.cursor, outcome))
  }

  ghost predicate Told(c: Config, s: World, t: World, evaluate: NodeSpec -> Option<bool>, outcome: AttemptOutcome, story: Story) {
    match story
    case Interrupted => outcome == Errored
    case Retried(begun, verdict, heard) =>
      && Begun(c, s, begun) && RetryDealt(c, begun, t, verdict, heard)
      && outcome == if verdict == Failed then Skipped else Snoozed
    case Grafted(begun, noRetry) =>
      Begun(c, s, begun) && NoRetryDue(c, begun, noRetry) && GraftDealt(c, noRetry, t) && outcome == Snoozed
    case Faulted(path, cur, tick) =>
      && Through(c, s, path) && outcome == Errored
      && Seen(c, path.noGraft, Normalize(path.noGraft.cursor), cur, evaluate, tick) && tick.view.Faults(tick.failed)
    case Ticked(path, result, tick) =>
      Through(c, s, path) && t.accepted == s.accepted && TickTold(c, path.noGraft, t, evaluate, outcome, result, tick)
  }

  // What an attempt that began in s has done.
  ghost predicate AttemptOk(c: Config, s: World, t: World, evaluate: NodeSpec -> Option<bool>, outcome: AttemptOutcome, story: Story) {
    && Inv(c, t) && Grows(s, t) && |t.accepted| <= |s.accepted| + 1
    && (outcome == Done ==> AllDone(c, t.cursor)) && Told(c, s, t, evaluate, outcome, story)
  }

  ghost predicate AllDone(c: Config, cur: Cursor) {
    Names(EffectiveWorkflow(c, cur).nodes) <= cur.completed
  }

  // What the registered coordinator handler does once.
  method Attempt(w: Store, evaluate: NodeSpec -> Option<bool>) returns (outcome: AttemptOutcome, ghost story: Story)
    requires Inv(w.c, w.s)
    modifies w
    ensures AttemptOk(w.c, old(w.s), w.s, evaluate, outcome, story)
    ensures w.Later() && (w.Heard() && story.Retried? ==> story.heard)
    ensures w.Alone() && story.Interrupted? ==> Snag(w.c, old(w.s))
  {
    var err, cur := Begin(w);
    if err {
      return Errored, Interrupted;
    }
    ghost var now := w.s;
    outcome, story := Proceed(w, cur, evaluate, old(w.s));
    if w.Alone() {
      SnagsWereThere(w.c, old(w.s), now);
    }
  }

  // Flags aside, the same cursor; no job changed, and any new one is a pending retry receipt.
  ghost predicate Refreshed(s: World, t: World) {
    && Normalize(t.cursor) == Normalize(s.cursor).(started := t.cursor.started, autoRetry := t.cursor.autoRetry)
    && (forall id :: id in s.jobs ==> id in t.jobs && t.jobs[id] == s.jobs[id])
    && (forall id :: id in t.jobs && id !in s.jobs ==> id.RetryReceipt? && t.jobs[id].state == Pending)
  }

  lemma StillUnretriable(nodes: seq<NodeSpec>, s: World, t: World)
    requires Refreshed(s, t) && Unretriable(nodes, t)
    ensures Unretriable(nodes, s)
  {
    var n :| n in nodes && !FoundRetriable(n, t);
    assert !FoundRetriable(n, s);
  }

  lemma SnagsWereThere(c: Config, s: World, t: World)
    requires Refreshed(s, t)
    ensures RetrySnag(c, t) ==> RetrySnag(c, s)
    ensures GraftSnag(t) ==> GraftSnag(s)
  {
    var cur := Normalize(t.cursor);
    assert EffectiveWorkflow(c, cur).nodes == EffectiveWorkflow(c, Normalize(s.cursor)).nodes;
    if Unretriable(EffectiveWorkflow(c, cur).nodes, t) {
      StillUnretriable(EffectiveWorkflow(c, cur).nodes, s, t);
    }
    if Hinders(t, GraftReceipt(cur.revision + 1)) {
      HinderedBefore(s, t, GraftReceipt(cur.revision + 1));
    }
  }

  lemma HinderedBefore(s: World, t: World, id: JobId)
    requires Refreshed(s, t) && id.GraftReceipt? && Hinders(t, id)
    ensures Hinders(s, id)
  {
    if t.jobs[id].state == Pending {
      var n :| n in t.jobs[id].payload.nodes && Firm(t, NodeJob(n.jobId));
      assert Firm(s, NodeJob(n.jobId));
    }
  }

  lemma CleanTrans(c: Config, s: World, t: World, u: World)
    requires Clean(c, s, t) && Clean(c, t, u)
    ensures Clean(c, s, u)
  {
    GrowsTrans(s, t, u);
  }

  lemma RefreshedIs(s: World, t: World, u: World, id: JobId, p: Payload)
    requires t.jobs == s.jobs && u.jobs == AddRetryReceipt(t, id, p).jobs && id.RetryReceipt?
    requires Normalize(u.cursor) == Normalize(s.cursor).(started := true, autoRetry := false)
    ensures Refreshed(s, u)
  {
  }

  // The start of the workflow is recorded once, and a retry that was asked for is enqueued.
  method Begin(w: Store) returns (err: bool, cur: Cursor)
    requires Inv(w.c, w.s)
    modifies w
    ensures Clean(w.c, old(w.s), w.s)
    ensures !err ==> cur == Normalize(w.s.cursor) && Begun(w.c, old(w.s), w.s)
    ensures w.Later() && (w.Alone() && err ==> Occupied(w.c, old(w.s)))
    ensures w.Alone() && !err ==> Refreshed(old(w.s), w.s)
  {
    err, cur := Start(w);
    if !err && cur.autoRetry {
      ghost var now, start := w.s, cur;
      err, cur := EnqueueAutomaticRetry(w, cur);
      GrowsTrans(old(w.s), now, w.s);
      if !err && w.Alone() {
        RefreshedIs(old(w.s), now, w.s, RetryReceipt(start.revision + 1), RetryArgs(w.c.base.workflowId, start.revision));
      }
    }
  }

  method Start(w: Store) returns (err: bool, cur: Cursor)
    requires Inv(w.c, w.s)
    modifies w
    ensures Clean(w.c, old(w.s), w.s)
    ensures !err ==> cur == Normalize(w.s.cursor) == Normalize(old(w.s.cursor)).(started := true)
    ensures w.Later() && (err <==> !w.Heard()) && (w.Alone() ==> w.s.jobs == old(w.s.jobs))
  {
    cur := Normalize(w.s.cursor);
    err := false;
    if !cur.started {
      cur := cur.(started := true);
      FlagWrite(w.c, w.s, cur);
      err := w.Persist(cur, Plain);
    }
  }

  lemma BrokenOff(c: Config, s: World, t: World, u: World, evaluate: NodeSpec -> Option<bool>, cur: Cursor)
    requires Clean(c, s, t) && Reconciled(c, t, u, cur, true)
    ensures AttemptOk(c, s, u, evaluate, Errored, Interrupted)
  {
    GrowsTrans(s, t, u);
  }

  lemma RetriedIsOk(c: Config, s: World, t: World, u: World, evaluate: NodeSpec -> Option<bool>,
                    cur: Cursor, verdict: TickResult, heard: bool)
    requires Begun(c, s, t) && Reconciled(c, t, u, cur, false) && RetryDealt(c, t, u, verdict, heard)
    ensures AttemptOk(c, s, u, evaluate, if verdict == Failed then Skipped else Snoozed, Retried(t, verdict, heard))
  {
    GrowsTrans(s, t, u);
  }

  lemma GraftedIsOk(c: Config, s: World, t: World, u: World, v: World, evaluate: NodeSpec -> Option<bool>, cur: Cursor)
    requires Begun(c, s, t) && NoRetryDue(c, t, u) && Reconciled(c, u, v, cur, false) && GraftDealt(c, u, v)
    ensures AttemptOk(c, s, v, evaluate, Snoozed, Grafted(t, u))
  {
    GrowsTrans(s, t, u);
    GrowsTrans(s, u, v);
  }

  // The part of an attempt after the start, seen from the world s where it began.
  method Proceed(w: Store, cur0: Cursor, evaluate: NodeSpec -> Option<bool>, ghost s: World)
    returns (outcome: AttemptOutcome, ghost story: Story)
    requires Inv(w.c, w.s) && cur0 == Normalize(w.s.cursor) && !cur0.autoRetry && Begun(w.c, s, w.s)
    modifies w
    ensures AttemptOk(w.c, s, w.s, evaluate, outcome, story)
    ensures w.Later() && (w.Heard() && story.Retried? ==> story.heard)
    ensures w.Alone() && story.Interrupted? ==> RetrySnag(w.c, old(w.s)) || GraftSnag(old(w.s))
  {
    var result, handled, err, cur := ReconcileRetry(w, cur0);
    if err {
      BrokenOff(w.c, s, old(w.s), w.s, evaluate, cur);
      return Errored, Interrupted;
    }
    if handled {
      RetriedIsOk(w.c, s, old(w.s), w.s, evaluate, cur, result, w.Heard());
      return if result == Failed then Skipped else Snoozed, Retried(old(w.s), result, w.Heard());
    }
    ghost var now := w.s;
    outcome, story := GraftOrTick(w, cur, evaluate, s, old(w.s));
    if w.Alone() && story.Interrupted? {
      GraftSnagStays(old(w.s), now);
    }
  }

  lemma GraftSnagStays(s: World, t: World)
    requires t.jobs == s.jobs && Normalize(t.cursor) == Normalize(s.cursor).(pendingRetry := None) && GraftSnag(t)
    ensures GraftSnag(s)
  {
  }

  method GraftOrTick(w: Store, cur0: Cursor, evaluate: NodeSpec -> Option<bool>, ghost s: World, ghost begun: World)
    returns (outcome: AttemptOutcome, ghost story: Story)
    requires Inv(w.c, w.s) && cur0 == Normalize(w.s.cursor) && !cur0.autoRetry && Begun(w.c, s, begun) && NoRetryDue(w.c, begun, w.s)
    modifies w
    ensures AttemptOk(w.c, s, w.s, evaluate, outcome, story) && !story.Retried?
    ensures w.Later() && (w.Alone() && story.Interrupted? ==> GraftSnag(old(w.s)))
  {
    CleanTrans(w.c, s, begun, w.s);
    var handled, err, cur := ReconcileGraft(w, cur0);
    if err {
      BrokenOff(w.c, s, old(w.s), w.s, evaluate, cur);
      return Errored, Interrupted;
    }
    if handled {
      GraftedIsOk(w.c, s, begun, old(w.s), w.s, evaluate, cur);
      return Snoozed, Grafted(begun, old(w.s));
    }
    CleanTrans(w.c, s, old(w.s), w.s);
    outcome, story := TickAndRecord(w, cur, evaluate, s, Path(begun, old(w.s), w.s));
  }

  method RecordSuccess(w: Store, cur: Cursor) returns (outcome: AttemptOutcome)
    requires Inv(w.c, w.s) && cur == Normalize(w.s.cursor) && !cur.autoRetry
    modifies w
    ensures Advanced(w.c, old(w.s), w.s)
    ensures outcome == Done ==> w.s.cursor == cur
    ensures outcome in {Done, Errored}
    ensures w.Later() && (outcome == Errored <==> !w.Heard())
  {
    FlagWrite(w.c, w.s, cur);
    var lost := w.Persist(cur, Plain);
    return if lost then Errored else Done;
  }

  // Writes down the verdict of a tick.
  method Conclude(w: Store, cur: Cursor, result: TickResult) returns (outcome: AttemptOutcome)
    requires Inv(w.c, w.s) && cur == Normalize(w.s.cursor) && !cur.autoRetry
    modifies w
    ensures Advanced(w.c, old(w.s), w.s)
    ensures w.Later() && (outcome == Errored <==> !w.Heard())
    ensures result == Waiting ==> outcome == Snoozed && w.s == old(w.s)
    ensures result == Succeeded && outcome != Errored ==> outcome == Done && w.s.cursor == cur
    ensures result == Failed && outcome != Errored ==>
              FailureRecorded(w.c, w.s.cursor, outcome) && w.s.cursor == cur.(failed := w.s.cursor.failed, autoRetry := w.s.cursor.autoRetry)
  {
    match result {
      case Waiting =>
        outcome := Snoozed;
      case Failed =>
        outcome := RecordFailure(w, cur);
      case Succeeded =>
        outcome := RecordSuccess(w, cur);
    }
  }

  lemma TickIsTold(c: Config, s: World, path: Path, t: World, u: World, cur0: Cursor, cur: Cursor,
                   evaluate: NodeSpec -> Option<bool>, outcome: AttemptOutcome, result: TickResult, tick: TickStory)
    requires Through(c, s, path) && Clean(c, s, path.noGraft) && Advanced(c, path.noGraft, t) && Advanced(c, t, u) && outcome != Errored
    requires cur0 == Normalize(path.noGraft.cursor) && cur == Normalize(t.cursor) == cur0.(completed := cur.completed, completedAt := cur.completedAt)
    requires Seen(c, path.noGraft, cur0, cur, evaluate, tick) && Judged(c, t, result, tick)
    requires result == Waiting ==> outcome == Snoozed && u == t
    requires result == Succeeded ==> outcome == Done && u.cursor == cur
    requires result == Failed ==>
               FailureRecorded(c, u.cursor, outcome) && u.cursor == cur.(failed := u.cursor.failed, autoRetry := u.cursor.autoRetry)
    ensures AttemptOk(c, s, u, evaluate, outcome, Ticked(path, result, tick))
  {
    GrowsTrans(s, path.noGraft, t);
    GrowsTrans(s, t, u);
    assert EffectiveWorkflow(c, u.cursor).nodes == tick.view.nodes;
  }

  lemma TickBrokenOff(c: Config, s: World, t: World, u: World, evaluate: NodeSpec -> Option<bool>)
    requires Clean(c, s, t) && Advanced(c, t, u)
    ensures AttemptOk(c, s, u, evaluate, Errored, Interrupted)
  {
    GrowsTrans(s, t, u);
  }

  method TickAndRecord(w: Store, cur0: Cursor, evaluate: NodeSpec -> Option<bool>, ghost s: World, ghost path: Path)
    returns (outcome: AttemptOutcome, ghost story: Story)
    requires Inv(w.c, w.s) && cur0 == Normalize(w.s.cursor) && !cur0.autoRetry
    requires Through(w.c, s, path) && path.noGraft == w.s && Clean(w.c, s, w.s)
    modifies w
    ensures AttemptOk(w.c, s, w.s, evaluate, outcome, story) && !story.Retried?
    ensures w.Later() && (w.Alone() ==> !story.Interrupted?)
  {
    var result, err, cur;
    ghost var tick;
    result, err, cur, tick := Tick(w, cur0, evaluate);
    if err {
      TickBrokenOff(w.c, s, old(w.s), w.s, evaluate);
      story := if w.Alone() then Faulted(path, cur, tick) else Interrupted;
      return Errored, story;
    }
    ghost var now := w.s;
    outcome := Conclude(w, cur, result);
    if outcome == Errored {
      AdvancedTwice(w.c, old(w.s), now, w.s);
      TickBrokenOff(w.c, s, old(w.s), w.s, evaluate);
      return outcome, Interrupted;
    }
    TickIsTold(w.c, s, path, now, w.s, cur0, cur, evaluate, outcome, result, tick);
    return outcome, Ticked(path, result, tick);
  }

  lemma AdvancedTwice(c: Config, s: World, t: World, u: World)
    requires Advanced(c, s, t) && Advanced(c, t, u)
    ensures Advanced(c, s, u)
  {
    GrowsTrans(s, t, u);
  }

  // The attempts so far, each with the world it began in.
  datatype Log = Nothing | Then(earlier: Log, before: World, outcome: AttemptOutcome, story: Story)

  function Attempts(log: Log): nat {
    match log
    case Nothing => 0
    case Then(earlier, _, _, _) => Attempts(earlier) + 1
  }

  // The attempts led from s to t, each from where the one before it ended, and each did what its story says.
  ghost predicate Chronicle(c: Config, s: World, log: Log, evaluate: nat -> NodeSpec -> Option<bool>, t: World) {
    match log
    case Nothing => t == s
    case Then(earlier, before, outcome, story) =>
      AttemptOk(c, before, t, evaluate(Attempts(earlier)), outcome, story) && Chronicle(c, s, earlier, evaluate, before)
  }

  // What was recorded stays recorded, and each attempt accepts at most one receipt.
  lemma {:induction false} ChronicleGrows(c: Config, s: World, log: Log, evaluate: nat -> NodeSpec -> Option<bool>, t: World)
    requires Inv(c, s) && Chronicle(c, s, log, evaluate, t)
    ensures Inv(c, t) && Grows(s, t) && |t.accepted| <= |s.accepted| + Attempts(log)
  {
    match log
    case Nothing =>
    case Then(earlier, before, _, _) =>
      ChronicleGrows(c, s, earlier, evaluate, before);
      GrowsTrans(s, before, t);
  }

  method Again(w: Store, i: nat, evaluate: nat -> NodeSpec -> Option<bool>, ghost s: World, ghost earlier: Log) returns (ghost log: Log)
    requires Inv(w.c, w.s) && Attempts(earlier) == i && Chronicle(w.c, s, earlier, evaluate, w.s)
    modifies w
    ensures Inv(w.c, w.s) && Attempts(log) == i + 1 && Chronicle(w.c, s, log, evaluate, w.s)
  {
    var outcome;
    ghost var story;
    outcome, story := Attempt(w, evaluate(i));
    log := Then(earlier, old(w.s), outcome, story);
  }

  // Whatever the script of interruptions and outside actions, and however many attempts it takes.
  method Run(w: Store, attempts: nat, evaluate: nat -> NodeSpec -> Option<bool>) returns (ghost log: Log)
    requires Inv(w.c, w.s)
    modifies w
    ensures Inv(w.c, w.s) && Grows(old(w.s), w.s) && |w.s.accepted| <= |old(w.s.accepted)| + attempts
    ensures Attempts(log) == attempts && Chronicle(w.c, old(w.s), log, evaluate, w.s)
  {
    log := Nothing;
    for i := 0 to attempts
      invariant Inv(w.c, w.s) && Attempts(log) == i && Chronicle(w.c, old(w.s), log, evaluate, w.s)
    {
      log := Again(w, i, evaluate, old(w.s), log);
    }
    ChronicleGrows(w.c, old(w.s), log, evaluate, w.s);
  }
}
