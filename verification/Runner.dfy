// What the runner reports about a claim against what the store did (go/runner_execution.go).
module Runner {
  import opened Common
  import opened StoreModel
  import opened Admission
  import opened StoreOps
  import opened StoreRuns
  import MemStore

  // How an attempt ended, as the runner classifies it.
  datatype Ending =
    | NoHandler
    | DeadlineOver
    | LostLease
    | Returned(result: Option<JobValue>)
    | SkipJob
    | RevokeJob
    | LimitedByRate
    | SnoozeFor(delayMs: int)
    | NotDecodable
    | NotAFailure
    | Failed

  datatype EventKind = CompletedEvent | FailedEvent | CancelledEvent

  // The state a job is said to be in; deleted when no record is left.
  datatype Reported = InState(state: JobState) | Deleted

  datatype Report = Report(kind: EventKind, state: Reported)

  datatype Death = DeadlineExceeded | AttemptsExhausted | WasSkipped

  predicate RetryArchives(e: Envelope) {
    e.maxAttempts == 0 || e.attempt >= e.maxAttempts - 1
  }

  function Standing(s: MemState, id: string): Reported {
    if id in s.jobs then InState(s.jobs[id].state) else Deleted
  }

  function LeaseOf(c: Claim): LeaseRef {
    LeaseRef(c.env.id, c.leaseId, c.fence)
  }

  // While the claim is current, the record still carries the envelope that was handed out.
  ghost predicate Mirrors(s: MemState, c: Claim) {
    Current(s, LeaseOf(c)) ==> s.jobs[c.env.id].env == c.env
  }

  // An ending that counts as a failed attempt.
  predicate Retries(end: Ending) {
    end.Failed? || (end.SnoozeFor? && end.delayMs <= 0)
  }

  // Endings after which a listener hears about the job.
  predicate Announced(end: Ending) {
    Retries(end) || end.DeadlineOver? || end.Returned? || end.SkipJob? || end.RevokeJob? || end.NotDecodable?
  }

  predicate KindFits(k: EventKind, end: Ending) {
    (k.CompletedEvent? <==> end.Returned?) && (k.CancelledEvent? <==> end.RevokeJob?)
  }

  // The report for a retry is computed from the claim, not read back.
  method ReportRetry(c: Claim, ok: bool) returns (report: Option<Report>, death: Option<Death>)
    ensures report == if ok then Some(Report(FailedEvent, InState(if RetryArchives(c.env) then Archived else Retryable))) else None
    ensures death == if ok && RetryArchives(c.env) then Some(AttemptsExhausted) else None
  {
    report, death := None, None;
    if ok {
      var state := Retryable;
      if RetryArchives(c.env) {
        state := Archived;
      }
      report := Some(Report(FailedEvent, InState(state)));
    }
    if ok && RetryArchives(c.env) {
      death := Some(AttemptsExhausted);
    }
  }

  // Where an acknowledged job is expected to stand.
  function Expected(e: Envelope, outcome: AckOutcome): Reported {
    match outcome
    case Success => if e.retentionMs == 0 then Deleted else InState(Completed)
    case Retry => InState(if RetryArchives(e) then Archived else Retryable)
    case Skip => InState(Archived)
    case Revoke => Deleted
    case UndecodableOutcome => InState(Undecodable)
    case Snooze => InState(Scheduled)
    case RateLimited => InState(Available)
    case LeaseLost => InState(Running)
  }

  predicate Accepted(outcome: AckOutcome, delayMs: int) {
    outcome != LeaseLost && (outcome == Snooze ==> delayMs > 0)
  }

  // The store does what the outcome promises, for every outcome it accepts.
  lemma AckStanding(s: MemState, now: int, l: LeaseRef, outcome: AckOutcome, delayMs: int, actual: Option<nat>)
    requires RecordsOk(s) && Current(s, l)
    ensures var r := AckState(s, now, l, outcome, delayMs, actual);
            && (r.1 <==> Accepted(outcome, delayMs))
            && (r.1 ==> Standing(r.0, l.jobId) == Expected(s.jobs[l.jobId].env, outcome) && !Current(r.0, l))
  {
    assert RecordOk(l.jobId, s.jobs[l.jobId]);
    AckAt(s, now, l, outcome, delayMs, actual, l.jobId);
  }

  lemma ResultStanding(s: MemState, now: int, l: LeaseRef, actual: Option<nat>, result: JobValue)
    requires RecordsOk(s) && Current(s, l)
    ensures var r := AckResultState(s, now, l, actual, result);
            r.1 && Standing(r.0, l.jobId) == Expected(s.jobs[l.jobId].env, Success) && !Current(r.0, l)
  {
  }

  // An ending that puts the job back without counting anything against it.
  predicate Spares(end: Ending) {
    end.NoHandler? || end.LimitedByRate? || end.NotAFailure? || (end.SnoozeFor? && end.delayMs > 0)
  }

  // What an ending does to the record: one attempt for a failure and nothing otherwise, crashes and
  // checkpoint as they were; a job that is spared stays, available at once or scheduled after its delay.
  ghost predicate Fared(a: JobRec, now: int, end: Ending, b: Option<JobRec>) {
    && (b.Some? ==> b.value.env.attempt == a.env.attempt + (if Retries(end) then 1 else 0)
                    && b.value.env.crashAttempt == a.env.crashAttempt && b.value.checkpoint == a.checkpoint)
    && (Spares(end) || Retries(end) ==> b.Some?)
    && (end.NoHandler? ==> b.value.state == Scheduled && b.value.env.scheduledAtMs == now + 30_000)
    && (end.SnoozeFor? && end.delayMs > 0 ==> b.value.state == Scheduled && b.value.env.scheduledAtMs == now + end.delayMs)
    && (end.LimitedByRate? || end.NotAFailure? ==> b.value.state == Available && b.value.env.scheduledAtMs <= now)
    && (end.Returned? && end.result.Some? && b.Some? ==> b.value.result == end.result)
  }

  lemma AckedFares(s: MemState, now: int, l: LeaseRef, end: Ending, actual: Option<nat>)
    requires Current(s, l) && RecordOk(l.jobId, s.jobs[l.jobId]) && !end.LostLease? && !(end.Returned? && end.result.Some?)
    ensures Fared(s.jobs[l.jobId], now, end, Acked(s, now, l, Outcome(end).0, Outcome(end).1, actual))
  {
    var j := if actual.Some? then s.jobs[l.jobId].(rateCharge := 0) else s.jobs[l.jobId];
    AckRecordOk(s.conf, l.jobId, j, now, Outcome(end).0, Outcome(end).1);
  }

  // The account is the store's: what is reported is where the job now stands, it is reported exactly
  // when the claim was still current, and death by exhaustion exactly when a retry archived the job.
  ghost predicate Truthful(s: MemState, now: int, c: Claim, end: Ending, t: MemState, report: Option<Report>, death: Option<Death>) {
    var held := Current(s, LeaseOf(c));
    && (report.Some? <==> held && Announced(end))
    && (report.Some? ==> report.value.state == Standing(t, c.env.id) && KindFits(report.value.kind, end))
    && (death == Some(AttemptsExhausted) <==> held && Retries(end) && Standing(t, c.env.id) == InState(Archived))
    && (death == Some(DeadlineExceeded) <==> held && end.DeadlineOver?)
    && (death == Some(WasSkipped) <==> held && end.SkipJob?)
    && (death.Some? ==> Standing(t, c.env.id) == InState(Archived))
    && (!held || end == LostLease ==> t == s)
    && (held && end != LostLease ==> !Current(t, LeaseOf(c)) && Fared(s.jobs[c.env.id], now, end, At(t, c.env.id)))
  }

  // The outcome acknowledged for an ending, where there is one.
  function Outcome(end: Ending): (AckOutcome, int)
    requires !end.LostLease?
  {
    match end
    case NoHandler => (Snooze, 30_000)
    case DeadlineOver => (Skip, 0)
    case Returned(_) => (Success, 0)
    case SkipJob => (Skip, 0)
    case RevokeJob => (Revoke, 0)
    case LimitedByRate => (RateLimited, 0)
    case SnoozeFor(ms) => if ms <= 0 then (Retry, 0) else (Snooze, ms)
    case NotDecodable => (UndecodableOutcome, 0)
    case NotAFailure => (RateLimited, 0)
    case Failed => (Retry, 0)
  }

  lemma ResultFares(s: MemState, now: int, l: LeaseRef, actual: Option<nat>, result: JobValue)
    requires RecordsOk(s) && Current(s, l)
    ensures Fared(s.jobs[l.jobId], now, Returned(Some(result)), At(AckResultState(s, now, l, actual, result).0, l.jobId))
  {
    assert RecordOk(l.jobId, s.jobs[l.jobId]);
  }

  // Acknowledges and says whether the store took it.
  method AckAs(store: MemStore.MemStore, now: int, l: LeaseRef, outcome: AckOutcome, delayMs: int, actual: Option<nat>)
    returns (ok: bool)
    requires store.Ok() && Accepted(outcome, delayMs)
    modifies store
    ensures store.Ok() && (ok <==> Current(old(store.State()), l))
    ensures ok ==> Standing(store.State(), l.jobId) == Expected(old(store.State()).jobs[l.jobId].env, outcome)
    ensures if ok then !Current(store.State(), l) else store.State() == old(store.State())
    ensures ok ==> At(store.State(), l.jobId) == Acked(old(store.State()), now, l, outcome, delayMs, actual)
  {
    ghost var s := store.State();
    if store.Holds(l) {
      AckStanding(s, now, l, outcome, delayMs, actual);
      AckAt(s, now, l, outcome, delayMs, actual, l.jobId);
    }
    ok := store.Ack(now, l, outcome, delayMs, actual);
  }

  method CompleteWith(store: MemStore.MemStore, now: int, l: LeaseRef, result: JobValue, actual: Option<nat>) returns (ok: bool)
    requires store.Ok() && ValueOk(result)
    modifies store
    ensures store.Ok() && (ok <==> Current(old(store.State()), l))
    ensures ok ==> Standing(store.State(), l.jobId) == Expected(old(store.State()).jobs[l.jobId].env, Success)
    ensures if ok then !Current(store.State(), l) else store.State() == old(store.State())
    ensures ok ==> Fared(old(store.State()).jobs[l.jobId], now, Returned(Some(result)), At(store.State(), l.jobId))
  {
    ghost var s := store.State();
    if store.Holds(l) {
      ResultStanding(s, now, l, actual, result);
      ResultFares(s, now, l, actual, result);
    }
    var err := store.AckSuccessWithResult(now, l, actual, result);
    ok := err.None?;
  }

  // What is announced once an ending has been acknowledged.
  method Announce(c: Claim, end: Ending, ok: bool) returns (report: Option<Report>, death: Option<Death>)
    requires !end.LostLease?
    ensures report.Some? <==> ok && Announced(end)
    ensures report.Some? ==> report.value.state == Expected(c.env, Outcome(end).0) && KindFits(report.value.kind, end)
    ensures death == Some(AttemptsExhausted) <==> ok && Retries(end) && RetryArchives(c.env)
    ensures death == Some(DeadlineExceeded) <==> ok && end.DeadlineOver?
    ensures death == Some(WasSkipped) <==> ok && end.SkipJob?
    ensures death.Some? ==> ok && Expected(c.env, Outcome(end).0) == InState(Archived)
  {
    report, death := None, None;
    if Retries(end) {
      report, death := ReportRetry(c, ok);
    } else if ok {
      match end
      case Returned(_) =>
        var state := InState(Completed);
        if c.env.retentionMs == 0 {
          state := Deleted;
        }
        report := Some(Report(CompletedEvent, state));
      case DeadlineOver => report, death := Some(Report(FailedEvent, InState(Archived))), Some(DeadlineExceeded);
      case SkipJob => report, death := Some(Report(FailedEvent, InState(Archived))), Some(WasSkipped);
      case RevokeJob => report := Some(Report(CancelledEvent, Deleted));
      case NotDecodable => report := Some(Report(FailedEvent, InState(Undecodable)));
      case _ =>
    }
  }

  // What the store did and what was announced fit together.
  lemma AccountFits(s: MemState, now: int, c: Claim, end: Ending, t: MemState, ok: bool, report: Option<Report>, death: Option<Death>)
    requires Mirrors(s, c) && !end.LostLease? && (ok <==> Current(s, LeaseOf(c)))
    requires if ok then Standing(t, c.env.id) == Expected(s.jobs[c.env.id].env, Outcome(end).0) && !Current(t, LeaseOf(c)) else t == s
    requires ok ==> Fared(s.jobs[c.env.id], now, end, At(t, c.env.id))
    requires report.Some? <==> ok && Announced(end)
    requires report.Some? ==> report.value.state == Expected(c.env, Outcome(end).0) && KindFits(report.value.kind, end)
    requires death == Some(AttemptsExhausted) <==> ok && Retries(end) && RetryArchives(c.env)
    requires death == Some(DeadlineExceeded) <==> ok && end.DeadlineOver?
    requires death == Some(WasSkipped) <==> ok && end.SkipJob?
    requires death.Some? ==> ok && Expected(c.env, Outcome(end).0) == InState(Archived)
    ensures Truthful(s, now, c, end, t, report, death)
  {
  }

  // The classification of an ended attempt. An attempt that lost its lease is left to the reclaimer.
  // A handler cannot record a result that fails the boundary check.
  method ProcessClaim(store: MemStore.MemStore, now: int, c: Claim, end: Ending, actual: Option<nat>)
    returns (report: Option<Report>, death: Option<Death>)
    requires store.Ok() && Mirrors(store.State(), c)
    requires end.Returned? && end.result.Some? ==> ValueOk(end.result.value)
    modifies store
    ensures store.Ok() && Truthful(old(store.State()), now, c, end, store.State(), report, death)
  {
    if end.LostLease? {
      return None, None;
    }
    ghost var s := store.State();
    var ok;
    if end.Returned? && end.result.Some? {
      ok := CompleteWith(store, now, LeaseOf(c), end.result.value, actual);
    } else {
      var outcome := Outcome(end);
      var weight := if end.NoHandler? || end.DeadlineOver? then None else actual;
      if store.Holds(LeaseOf(c)) {
        AckedFares(s, now, LeaseOf(c), end, weight);
      }
      ok := AckAs(store, now, LeaseOf(c), outcome.0, outcome.1, weight);
    }
    report, death := Announce(c, end, ok);
    AccountFits(s, now, c, end, store.State(), ok, report, death);
  }

  // ---- Why the claim can be trusted ----

  lemma CurrentIsCarriedOver(s: MemState, now: int, op: Op, t: MemState, l: LeaseRef)
    requires RecordsOk(s) && StoreOps.Step(s, now, op, t) && Current(t, l) && l.jobId in s.jobs
    requires s.jobs[l.jobId].fence >= l.fence
    ensures Current(s, l) && t.jobs[l.jobId].env == s.jobs[l.jobId].env
  {
    StepEvolves(s, now, op, t, l.jobId);
  }

  lemma GrantMirrors(s: MemState, now: int, op: Op, t: MemState, k: nat)
    requires op.AdmitOp? && StoreOps.Step(s, now, op, t) && k < |op.adm.claims|
    ensures var c := op.adm.claims[k];
            c.env.id in t.jobs && t.jobs[c.env.id].env == c.env && t.jobs[c.env.id].fence == c.fence
  {
    AdmitStep(s, now, op.req, op.adm, t);
    var c := op.adm.claims[k];
    assert Eligible(s, op.req, now, c.env.id) && ClaimedIn(op.adm.claims, c.env.id);
    assert c == ClaimOf(op.req, now, s.jobs[c.env.id]);
  }

  lemma {:induction false} StillMirrors(r: Run, i: nat, j: nat, c: Claim)
    requires r.Ok() && i <= j <= |r.ops| && StoredFrom(r, c.env.id, i, j)
    requires r.states[i].jobs[c.env.id].env == c.env && r.states[i].jobs[c.env.id].fence == c.fence
    ensures Mirrors(r.states[j], c)
    decreases j
  {
    if j > i {
      StillMirrors(r, i, j - 1, c);
      FencesNeverFall(r, c.env.id, i, j - 1);
      RecordsStayOk(r, j - 1);
      assert r.StepAt(j - 1);
      MirrorStep(r.states[j - 1], r.times[j - 1], r.ops[j - 1], r.states[j], c);
    }
  }

  lemma MirrorStep(s: MemState, now: int, op: Op, t: MemState, c: Claim)
    requires RecordsOk(s) && StoreOps.Step(s, now, op, t) && Mirrors(s, c)
    requires c.env.id in s.jobs && s.jobs[c.env.id].fence >= c.fence
    ensures Mirrors(t, c)
  {
    if Current(t, LeaseOf(c)) {
      CurrentIsCarriedOver(s, now, op, t, LeaseOf(c));
    }
  }

  // From the admission that granted it on, a claim that is still current mirrors the record.
  lemma ClaimsMirrorTheirRecords(r: Run, i: nat, j: nat, k: nat)
    requires r.Ok() && i < j <= |r.ops| && r.ops[i].AdmitOp? && k < |r.ops[i].adm.claims|
    requires StoredFrom(r, r.ops[i].adm.claims[k].env.id, i, j)
    ensures Mirrors(r.states[j], r.ops[i].adm.claims[k])
  {
    assert r.StepAt(i);
    GrantMirrors(r.states[i], r.times[i], r.ops[i], r.states[i + 1], k);
    StillMirrors(r, i + 1, j, r.ops[i].adm.claims[k]);
  }
}
