// The store follows the job state machine (conformance/state_machine.yaml, go/headgatetest/memstore*.go).
module StateMachine {
  import opened Common
  import opened StoreModel
  import opened StoreEnqueue
  import opened Admission
  import opened StoreOps
  import opened StoreRuns

  // ---- The table ----

  // What happens to a job without an operator.
  datatype Trigger =
    | ScheduleDue | BackoffDue | Admission
    | Succeeded | Retried | Skipping | Revoked | Snoozed | NotDecoded | Limited
    | LeaseGone

  // The row of the table for a trigger: where the job must come from, and where it goes; none when it is deleted.
  predicate Row(from: JobState, on: Trigger, e: Envelope, crashLimit: nat, to: Option<JobState>) {
    match on
    case ScheduleDue => from == Scheduled && to == Some(Available)
    case BackoffDue => from == Retryable && to == Some(Available)
    case Admission => from == Available && to == Some(Running)
    case Succeeded => from == Running && to == if e.retentionMs == 0 then None else Some(Completed)
    case Retried => from == Running && to == Some(if e.attempt + 1 < e.maxAttempts then Retryable else Archived)
    case Skipping => from == Running && to == Some(Archived)
    case Revoked => from == Running && to == None
    case Snoozed => from == Running && to == Some(Scheduled)
    case NotDecoded => from == Running && to == Some(Undecodable)
    case Limited => from == Running && to == Some(Available)
    case LeaseGone => from == Running && to == Some(if e.crashAttempt + 1 < crashLimit then Retryable else Quarantined)
  }

  // Attempts count handler-returned failures only, crashes count lease losses, and every claim has a fence of its own.
  predicate Counts(on: Trigger, a: JobRec, b: JobRec) {
    && b.env.attempt == a.env.attempt + (if on == Retried then 1 else 0)
    && b.env.crashAttempt == a.env.crashAttempt + (if on == LeaseGone then 1 else 0)
    && b.fence == a.fence + (if on == Admission then 1 else 0)
  }

  // When a job that goes back to waiting is due: after the delay that was asked for, else after the default
  // backoff for the failures, or crashes, it now has. A job turned away is due at once.
  predicate DueAfter(on: Trigger, conf: Settings, now: int, delayMs: int, a: JobRec, b: JobRec) {
    && (on == Retried && b.state == Retryable ==>
          b.env.scheduledAtMs == now + if delayMs > 0 then delayMs else DefaultBackoff(a.env.attempt + 1, conf.retryBaseMs, conf.retryCapMs))
    && (on == Snoozed ==> delayMs > 0 && b.env.scheduledAtMs == now + delayMs)
    && (on == LeaseGone && b.state == Retryable ==>
          b.env.scheduledAtMs == now + DefaultBackoff(a.env.crashAttempt + 1, conf.retryBaseMs, conf.retryCapMs))
    && (on == Limited ==> b.env.scheduledAtMs <= now)
    && (Terminal(b.state) ==> b.finalizedAt == now)
  }

  ghost predicate Fires(conf: Settings, now: int, on: Trigger, delayMs: int, a: JobRec, b: Option<JobRec>) {
    && Row(a.state, on, a.env, conf.crashLimit, if b.Some? then Some(b.value.state) else None)
    && (b.Some? ==> Counts(on, a, b.value) && DueAfter(on, conf, now, delayMs, a, b.value))
  }

  // ---- Which trigger an operation is to a job ----

  function OutcomeTrigger(outcome: AckOutcome): Option<Trigger> {
    match outcome
    case Success => Some(Succeeded)
    case Retry => Some(Retried)
    case Skip => Some(Skipping)
    case Revoke => Some(Revoked)
    case Snooze => Some(Snoozed)
    case UndecodableOutcome => Some(NotDecoded)
    case RateLimited => Some(Limited)
    case LeaseLost => None
  }

  function TriggerOf(s: MemState, op: Op, id: string): Option<Trigger>
    requires id in s.jobs
  {
    match op
    case AdmitOp(req, adm) =>
      if exists k :: 0 <= k < |adm.claims| && adm.claims[k].env.id == id then Some(Admission) else None
    case AckOp(l, outcome, delayMs, _) =>
      if l.jobId == id && Current(s, l) && (outcome == Snooze ==> delayMs > 0) then OutcomeTrigger(outcome) else None
    case AckResultOp(l, _, _) => if l.jobId == id && Current(s, l) then Some(Succeeded) else None
    case SweepOp(Reclaim, _, out) => if id in out then Some(LeaseGone) else None
    case SweepOp(Promote, _, out) => if id !in out then None else if s.jobs[id].state == Scheduled then Some(ScheduleDue) else Some(BackoffDue)
    case _ => None
  }

  function DelayOf(op: Op): int {
    if op.AckOp? then op.delayMs else 0
  }

  // A duplicate replaced what the holder was to do; a debounce also makes it wait anew.
  predicate Replaced(s: MemState, now: int, op: Op, id: string) {
    op.EnqueueOp? && EnqueueState(s, now, op.batch, op.limits).1 == Some(Duplicate(id, true))
  }

  predicate Evicts(op: Op, id: string) {
    op.SweepOp? && op.kind == Evict && id in op.out
  }

  // The renewal carries the job's current lease.
  ghost predicate Renews(s: MemState, op: Op, id: string) {
    op.RenewOp? && exists l :: l in op.leases && l.jobId == id && Current(s, l)
  }

  // Without a trigger a job keeps its state, its counters, its fence and, unless renewed, its lease; a job that
  // is neither running nor waiting is not touched at all.
  ghost predicate Rests(s: MemState, now: int, op: Op, id: string, a: JobRec, b: Option<JobRec>) {
    if Evicts(op, id) then b.None? && a.state in {Completed, Archived, Cancelled, Undecodable}
    else
      && b.Some? && b.value.fence == a.fence
      && b.value.env.attempt == a.env.attempt && b.value.env.crashAttempt == a.env.crashAttempt
      && (b.value.state == a.state || (Replaced(s, now, op, id) && Waitable(a.state) && b.value.state == Scheduled))
      && b.value.leaseExpires == (if Renews(s, op, id) then now + op.leaseMs else a.leaseExpires)
      && ((!Replaced(s, now, op, id) || !Waitable(a.state)) && a.state != Running ==> b.value == a)
  }

  ghost predicate StepOf(s: MemState, now: int, op: Op, t: MemState, id: string)
    requires id in s.jobs
  {
    var on := TriggerOf(s, op, id);
    if on.Some? then Fires(s.conf, now, on.value, DelayOf(op), s.jobs[id], At(t, id))
    else Rests(s, now, op, id, s.jobs[id], At(t, id))
  }

  // ---- Every operation follows the table ----

  // The acknowledged record, for every outcome.
  lemma AckedFires(s: MemState, now: int, l: LeaseRef, outcome: AckOutcome, delayMs: int, actual: Option<nat>)
    requires Current(s, l) && OutcomeTrigger(outcome).Some? && (outcome == Snooze ==> delayMs > 0)
    ensures Fires(s.conf, now, OutcomeTrigger(outcome).value, delayMs, s.jobs[l.jobId], Acked(s, now, l, outcome, delayMs, actual))
  {
  }

  lemma AckFires(s: MemState, now: int, l: LeaseRef, outcome: AckOutcome, delayMs: int, actual: Option<nat>, id: string)
    requires RecordsOk(s) && id in s.jobs
    ensures StepOf(s, now, AckOp(l, outcome, delayMs, actual), AckState(s, now, l, outcome, delayMs, actual).0, id)
  {
    if Current(s, l) {
      assert RecordOk(l.jobId, s.jobs[l.jobId]);
      AckAt(s, now, l, outcome, delayMs, actual, id);
      if OutcomeTrigger(outcome).Some? && (outcome == Snooze ==> delayMs > 0) {
        AckedFires(s, now, l, outcome, delayMs, actual);
      } else {
        RefusedRests(s, now, l, outcome, delayMs, actual);
      }
    }
  }

  // A refused outcome leaves the claim as it is, corrected charge aside.
  lemma RefusedRests(s: MemState, now: int, l: LeaseRef, outcome: AckOutcome, delayMs: int, actual: Option<nat>)
    requires Current(s, l) && (OutcomeTrigger(outcome).None? || (outcome == Snooze && delayMs <= 0))
    ensures Acked(s, now, l, outcome, delayMs, actual)
            == Some(if actual.Some? then s.jobs[l.jobId].(rateCharge := 0) else s.jobs[l.jobId])
  {
  }

  lemma AckResultFires(s: MemState, now: int, l: LeaseRef, actual: Option<nat>, result: JobValue, id: string)
    requires RecordsOk(s) && id in s.jobs
    ensures StepOf(s, now, AckResultOp(l, actual, result), AckResultState(s, now, l, actual, result).0, id)
  {
    if Current(s, l) {
      assert RecordOk(l.jobId, s.jobs[l.jobId]);
      AckResultAt(s, now, l, actual, result, id);
    }
  }

  lemma ClaimFires(s: MemState, now: int, req: AdmitRequest, adm: Adm, id: string)
    requires AdmInv(s, req, now, adm) && id in s.jobs
    ensures ClaimedIn(adm.claims, id) ==> Fires(s.conf, now, Admission, 0, s.jobs[id], At(s.(jobs := adm.jobs), id))
    ensures !ClaimedIn(adm.claims, id) ==> adm.jobs[id] == s.jobs[id]
  {
    if ClaimedIn(adm.claims, id) {
      ClaimedWasAvailable(s, now, req, adm.claims, id);
    }
  }

  lemma AdmitFires(s: MemState, now: int, req: AdmitRequest, adm: Adm, t: MemState, id: string)
    requires Step(s, now, AdmitOp(req, adm), t) && id in s.jobs
    ensures StepOf(s, now, AdmitOp(req, adm), t, id)
  {
    AdmitStep(s, now, req, adm, t);
    if req.leaseMs > 0 {
      ClaimFires(s, now, req, adm, id);
      assert At(t, id) == At(s.(jobs := adm.jobs), id);
      assert TriggerOf(s, AdmitOp(req, adm), id) == if ClaimedIn(adm.claims, id) then Some(Admission) else None;
    }
  }

  lemma SweepFires(k: Sweep, s: MemState, now: int, limit: int, out: seq<string>, id: string)
    requires RecordsOk(s) && Swept(k, s, now, limit, out) && id in s.jobs
    ensures StepOf(s, now, SweepOp(k, limit, out), SweepAll(k, s, now, out), id)
  {
    if id in out {
      SweptAt(k, s, now, out, id);
    } else {
      SweepEvolves(k, s, now, out, id);
    }
  }

  lemma {:induction false} RenewedAt(s: MemState, now: int, leases: seq<LeaseRef>, leaseMs: int, id: string)
    requires id in s.jobs
    ensures At(RenewAll(s, now, leases, leaseMs), id) ==
            Some(if Renews(s, RenewOp(leases, leaseMs), id) then s.jobs[id].(leaseExpires := now + leaseMs) else s.jobs[id])
  {
    if leases != [] {
      var init, last := leases[..|leases| - 1], leases[|leases| - 1];
      RenewedAt(s, now, init, leaseMs, id);
      RenewKeepsCurrent(s, now, init, leaseMs, last);
      if l :| l in init && l.jobId == id && Current(s, l) {
        assert l in leases;
      }
      if last.jobId == id && Current(s, last) {
        assert last in leases;
      }
      if Renews(s, RenewOp(leases, leaseMs), id) && !Renews(s, RenewOp(init, leaseMs), id) {
        assert last.jobId == id && Current(s, last);
      }
    }
  }

  lemma RenewRests(s: MemState, now: int, leases: seq<LeaseRef>, leaseMs: int, id: string)
    requires id in s.jobs
    ensures StepOf(s, now, RenewOp(leases, leaseMs), RenewAll(s, now, leases, leaseMs), id)
  {
    RenewedAt(s, now, leases, leaseMs, id);
  }

  // A job that was not moved, though what it is to do may have been replaced.
  ghost predicate RestsAs(a: JobRec, b: JobRec, replaced: bool) {
    && b.fence == a.fence && b.env.attempt == a.env.attempt && b.env.crashAttempt == a.env.crashAttempt
    && b.leaseExpires == a.leaseExpires
    && (b.state == a.state || (replaced && Waitable(a.state) && b.state == Scheduled))
    && (!replaced || !Waitable(a.state) ==> b == a)
  }

  lemma HolderRests(j: JobRec, e: Envelope, now: int)
    ensures RestsAs(j, ReplaceHolder(j, e, now).0, ReplaceHolder(j, e, now).1)
  {
    ReplaceKeepsHolder(j, e, now);
  }

  lemma {:induction false} RefusalRests(s: MemState, now: int, batch: seq<Envelope>, i: nat, id: string)
    requires i <= |batch| && RefusedFrom(s, now, batch, i).Some? && id in s.jobs
    ensures var r := RefusedFrom(s, now, batch, i).value;
            id in r.1.jobs && RestsAs(s.jobs[id], r.1.jobs[id], r.0 == Duplicate(id, true))
    decreases |batch| - i
  {
    var e := batch[i];
    var h := Holder(s, now, e);
    if Skipped(s, e) || (h.None? && (e.fingerprint == "" || e.fingerprint !in s.quarantine)) {
      RefusalRests(s, now, batch, i + 1, id);
    } else if h == Some(id) {
      HolderRests(s.jobs[id], e, now);
    }
  }

  lemma EnqueueRests(s: MemState, now: int, batch: seq<Envelope>, limits: Envelope -> bool, id: string)
    requires id in s.jobs
    ensures StepOf(s, now, EnqueueOp(batch, limits), EnqueueState(s, now, batch, limits).0, id)
  {
    if ValidateEnqueue(batch, limits).None? && ConflictFrom(s, batch, 0).None? {
      if RefusedFrom(s, now, batch, 0).Some? {
        RefusalRests(s, now, batch, 0, id);
      } else {
        InsertLeavesOthers(s, now, batch, s.jobs.Keys, 0, id);
      }
    }
  }

  lemma HeldRests(s: MemState, now: int, op: Op, l: LeaseRef, j: JobRec, id: string)
    requires id in s.jobs && Current(s, l) && TriggerOf(s, op, id).None? && !Replaced(s, now, op, id) && !Evicts(op, id)
    requires j.env == s.jobs[l.jobId].env && j.state == Running && j.fence == s.jobs[l.jobId].fence
    requires j.leaseExpires == s.jobs[l.jobId].leaseExpires && !op.RenewOp?
    ensures StepOf(s, now, op, s.(jobs := s.jobs[l.jobId := j]), id)
  {
  }

  lemma WriteRests(s: MemState, now: int, op: Op, t: MemState, id: string)
    requires Step(s, now, op, t) && id in s.jobs && (op.CheckpointOp? || op.OutputOp? || op.ProgressOp?)
    ensures StepOf(s, now, op, t, id)
  {
    if Current(s, op.lease) {
      HeldRests(s, now, op, op.lease, t.jobs[op.lease.jobId], id);
    }
  }

  lemma SwitchRests(s: MemState, now: int, op: Op, t: MemState, id: string)
    requires Step(s, now, op, t) && id in s.jobs && (op.LimitOp? || op.DutyOp? || op.ReleaseDutyOp? || op.PauseOp?)
    ensures StepOf(s, now, op, t, id)
  {
    assert t.jobs == s.jobs;
  }

  // Every step of the store, to every stored job, is a row of the table with its counters and its delay,
  // or leaves the job as it is.
  lemma StoreFollowsTheTable(s: MemState, now: int, op: Op, t: MemState, id: string)
    requires RecordsOk(s) && Step(s, now, op, t) && id in s.jobs
    ensures StepOf(s, now, op, t, id)
  {
    match op
    case EnqueueOp(batch, limits) => EnqueueRests(s, now, batch, limits, id);
    case AdmitOp(req, adm) => AdmitFires(s, now, req, adm, t, id);
    case AckOp(l, outcome, delayMs, actual) => AckFires(s, now, l, outcome, delayMs, actual, id);
    case AckResultOp(l, actual, result) => AckResultFires(s, now, l, actual, result, id);
    case RenewOp(leases, leaseMs) => RenewRests(s, now, leases, leaseMs, id);
    case SweepOp(k, limit, out) => SweepFires(k, s, now, limit, out, id);
    case CheckpointOp(_, _) => WriteRests(s, now, op, t, id);
    case OutputOp(_, _) => WriteRests(s, now, op, t, id);
    case ProgressOp(_, _) => WriteRests(s, now, op, t, id);
    case _ => SwitchRests(s, now, op, t, id);
  }

  // ---- Over runs ----

  lemma {:induction false} SettingsStay(r: Run, i: nat)
    requires r.Ok() && i <= |r.ops|
    ensures r.states[i].conf == r.states[0].conf
  {
    if i > 0 {
      SettingsStay(r, i - 1);
      assert r.StepAt(i - 1);
      SettingsStep(r.states[i - 1], r.times[i - 1], r.ops[i - 1], r.states[i]);
    }
  }

  lemma AckLeavesSettings(s: MemState, now: int, l: LeaseRef, outcome: AckOutcome, delayMs: int, actual: Option<nat>)
    ensures AckState(s, now, l, outcome, delayMs, actual).0.conf == s.conf
  {
    if Current(s, l) {
      var t := ReconcileRate(s, s.jobs[l.jobId], now, actual);
      assert forall j, e :: Effected(t, j, e).conf == s.conf;
    }
  }

  lemma SettingsStep(s: MemState, now: int, op: Op, t: MemState)
    requires Step(s, now, op, t)
    ensures t.conf == s.conf
  {
    match op
    case AdmitOp(req, adm) =>
    case AckOp(l, outcome, delayMs, actual) => AckLeavesSettings(s, now, l, outcome, delayMs, actual);
    case AckResultOp(l, actual, result) =>
    case LimitOp(_, _, _, _) =>
    case DutyOp(_, _, _) =>
    case ReleaseDutyOp(_, _) =>
    case _ => ElsewhereLeaves(s, now, op, t);
  }

  // The job and its step at k, as long as it is stored.
  lemma StepAtFollows(r: Run, k: nat, id: string)
    requires r.Ok() && k < |r.ops| && id in r.states[k].jobs
    ensures StepOf(r.states[k], r.times[k], r.ops[k], r.states[k + 1], id)
  {
    RecordsStayOk(r, k);
    assert r.StepAt(k);
    StoreFollowsTheTable(r.states[k], r.times[k], r.ops[k], r.states[k + 1], id);
  }

  lemma RestingStep(s: MemState, now: int, op: Op, t: MemState, id: string)
    requires id in s.jobs && id in t.jobs && StepOf(s, now, op, t, id)
    requires s.jobs[id].state == Pending || Terminal(s.jobs[id].state)
    ensures t.jobs[id].state == s.jobs[id].state
  {
  }

  // Pending and terminal jobs never move by themselves.
  lemma {:induction false} NothingMovesByItself(r: Run, id: string, i: nat, j: nat)
    requires r.Ok() && i <= j <= |r.ops| && StoredFrom(r, id, i, j)
    requires r.states[i].jobs[id].state == Pending || Terminal(r.states[i].jobs[id].state)
    ensures r.states[j].jobs[id].state == r.states[i].jobs[id].state
    decreases j
  {
    if i < j {
      NothingMovesByItself(r, id, i, j - 1);
      StepAtFollows(r, j - 1, id);
      RestingStep(r.states[j - 1], r.times[j - 1], r.ops[j - 1], r.states[j], id);
    }
  }

  // Neither below its crash limit and quarantined, nor at the limit and anything else.
  predicate CrashesOk(conf: Settings, j: JobRec) {
    j.state == Quarantined <==> j.env.crashAttempt >= conf.crashLimit
  }

  lemma CrashStep(s: MemState, now: int, op: Op, t: MemState, id: string)
    requires id in s.jobs && id in t.jobs && StepOf(s, now, op, t, id) && CrashesOk(s.conf, s.jobs[id])
    ensures CrashesOk(s.conf, t.jobs[id])
  {
  }

  // A job is quarantined exactly when it has crashed as often as the limit says.
  lemma {:induction false} QuarantinedAtTheLimit(r: Run, id: string, i: nat, j: nat)
    requires r.Ok() && i <= j <= |r.ops| && StoredFrom(r, id, i, j) && CrashesOk(r.states[0].conf, r.states[i].jobs[id])
    ensures CrashesOk(r.states[0].conf, r.states[j].jobs[id])
    decreases j
  {
    if i < j {
      QuarantinedAtTheLimit(r, id, i, j - 1);
      SettingsStay(r, j - 1);
      StepAtFollows(r, j - 1, id);
      CrashStep(r.states[j - 1], r.times[j - 1], r.ops[j - 1], r.states[j], id);
    }
  }

  // ---- Delays ----

  predicate IsWaiting(j: JobRec) {
    j.state in {Scheduled, Retryable}
  }

  // The operation put the job back to wait, and this is when it is due.
  predicate PutsOff(s: MemState, now: int, op: Op, id: string, due: int)
    requires id in s.jobs
  {
    var a, on := s.jobs[id], TriggerOf(s, op, id);
    || (on == Some(Retried) && a.env.attempt + 1 < a.env.maxAttempts
        && due == now + if DelayOf(op) > 0 then DelayOf(op) else DefaultBackoff(a.env.attempt + 1, s.conf.retryBaseMs, s.conf.retryCapMs))
    || (on == Some(Snoozed) && due == now + DelayOf(op))
    || (on == Some(LeaseGone) && a.env.crashAttempt + 1 < s.conf.crashLimit
        && due == now + DefaultBackoff(a.env.crashAttempt + 1, s.conf.retryBaseMs, s.conf.retryCapMs))
  }

  lemma PutOffWaits(s: MemState, now: int, op: Op, t: MemState, id: string, due: int)
    requires id in s.jobs && StepOf(s, now, op, t, id) && PutsOff(s, now, op, id, due)
    ensures id in t.jobs && IsWaiting(t.jobs[id]) && t.jobs[id].env.scheduledAtMs == due
  {
  }

  // Nobody replaced the job or promoted it.
  predicate LeavesWaiting(s: MemState, now: int, op: Op, id: string) {
    !Replaced(s, now, op, id) && !(op.SweepOp? && op.kind == Promote && id in op.out)
  }

  lemma WaitingStep(s: MemState, now: int, op: Op, t: MemState, id: string)
    requires RecordsOk(s) && Step(s, now, op, t) && id in s.jobs && IsWaiting(s.jobs[id]) && LeavesWaiting(s, now, op, id)
    ensures At(t, id) == Some(s.jobs[id])
  {
    StoreFollowsTheTable(s, now, op, t, id);
  }

  lemma {:induction false} WaitsUntouched(r: Run, id: string, i: nat, j: nat)
    requires r.Ok() && i <= j <= |r.ops| && id in r.states[i].jobs && IsWaiting(r.states[i].jobs[id])
    requires forall k :: i <= k < j ==> LeavesWaiting(r.states[k], r.times[k], r.ops[k], id)
    ensures At(r.states[j], id) == Some(r.states[i].jobs[id])
    decreases j
  {
    if i < j {
      WaitsUntouched(r, id, i, j - 1);
      RecordsStayOk(r, j - 1);
      assert r.StepAt(j - 1);
      WaitingStep(r.states[j - 1], r.times[j - 1], r.ops[j - 1], r.states[j], id);
    }
  }

  // From the step that put it off, a job nobody replaced is claimed by no admission before it is promoted;
  // a promotion takes it no earlier than it is due, and leaves it out afterwards only for want of room.
  lemma PromotionIsPunctual(r: Run, id: string, i: nat, j: nat, due: int)
    requires r.Ok() && i < j < |r.ops| && id in r.states[i].jobs && PutsOff(r.states[i], r.times[i], r.ops[i], id, due)
    requires forall k :: i < k < j ==> LeavesWaiting(r.states[k], r.times[k], r.ops[k], id)
    ensures id in r.states[j].jobs
    ensures r.ops[j].AdmitOp? ==> !ClaimedIn(r.ops[j].adm.claims, id)
    ensures r.ops[j].SweepOp? && r.ops[j].kind == Promote ==>
              && (id in r.ops[j].out ==> r.times[j] >= due && At(r.states[j + 1], id).Some? && r.states[j + 1].jobs[id].state == Available)
              && (r.times[j] >= due && id !in r.ops[j].out ==> |r.ops[j].out| >= r.ops[j].limit)
  {
    StepAtFollows(r, i, id);
    PutOffWaits(r.states[i], r.times[i], r.ops[i], r.states[i + 1], id, due);
    WaitsUntouched(r, id, i + 1, j);
    RecordsStayOk(r, j);
    assert r.StepAt(j);
    WaitingIsPunctual(r.states[j], r.times[j], r.ops[j], r.states[j + 1], id);
  }

  lemma WaitingIsPunctual(s: MemState, now: int, op: Op, t: MemState, id: string)
    requires RecordsOk(s) && Step(s, now, op, t) && id in s.jobs && IsWaiting(s.jobs[id])
    ensures op.AdmitOp? ==> !ClaimedIn(op.adm.claims, id)
    ensures op.SweepOp? && op.kind == Promote ==>
              && (id in op.out ==> now >= s.jobs[id].env.scheduledAtMs && id in t.jobs && t.jobs[id].state == Available)
              && (now >= s.jobs[id].env.scheduledAtMs && id !in op.out ==> |op.out| >= op.limit)
  {
    StoreFollowsTheTable(s, now, op, t, id);
  }

  // ---- Poisoned fingerprints ----

  lemma {:induction false} SweepQuarantines(s: MemState, now: int, out: seq<string>, id: string)
    requires RecordsOk(s) && Distinct(out) && id in out
    requires forall x :: x in out ==> x in s.jobs && DueFor(Reclaim, s.jobs[x], now)
    requires s.jobs[id].env.fingerprint != "" && s.jobs[id].env.crashAttempt + 1 >= s.conf.crashLimit
    ensures s.jobs[id].env.fingerprint in SweepAll(Reclaim, s, now, out).quarantine
    decreases |out|
  {
    var init, x := out[..|out| - 1], out[|out| - 1];
    SweepLeaves(Reclaim, s, now, init);
    SweepEvolves(Reclaim, s, now, init, x);
    if x != id {
      SweepQuarantines(s, now, init, id);
    }
  }

  lemma BansStep(s: MemState, now: int, op: Op, t: MemState)
    requires Step(s, now, op, t)
    ensures s.quarantine <= t.quarantine
  {
    match op
    case AdmitOp(req, adm) =>
    case AckOp(l, outcome, delayMs, actual) => AckLeavesBans(s, now, l, outcome, delayMs, actual);
    case AckResultOp(l, actual, result) =>
    case LimitOp(_, _, _, _) =>
    case DutyOp(_, _, _) =>
    case ReleaseDutyOp(_, _) =>
    case _ => ElsewhereLeaves(s, now, op, t);
  }

  lemma AckLeavesBans(s: MemState, now: int, l: LeaseRef, outcome: AckOutcome, delayMs: int, actual: Option<nat>)
    ensures AckState(s, now, l, outcome, delayMs, actual).0.quarantine == s.quarantine
  {
    if Current(s, l) {
      var t := ReconcileRate(s, s.jobs[l.jobId], now, actual);
      assert forall j, e :: Effected(t, j, e).quarantine == s.quarantine;
    }
  }

  lemma {:induction false} BansLast(r: Run, fingerprint: string, i: nat, j: nat)
    requires r.Ok() && i <= j <= |r.ops| && fingerprint in r.states[i].quarantine
    ensures fingerprint in r.states[j].quarantine
    decreases j
  {
    if i < j {
      BansLast(r, fingerprint, i, j - 1);
      assert r.StepAt(j - 1);
      BansStep(r.states[j - 1], r.times[j - 1], r.ops[j - 1], r.states[j]);
    }
  }

  lemma BannedIsRefused(s: MemState, now: int, batch: seq<Envelope>, limits: Envelope -> bool, k: nat)
    requires k < |batch| && batch[k].id !in s.jobs && batch[k].fingerprint != "" && batch[k].fingerprint in s.quarantine
    ensures var r := EnqueueState(s, now, batch, limits); r.1.Some? && r.0.jobs.Keys == s.jobs.Keys
  {
    if RefusedFrom(s, now, batch, 0).Some? {
      RefusalKeepsKeys(s, now, batch, 0);
    } else {
      NotRefused(s, now, batch, 0);
    }
  }

  lemma {:induction false} RefusalKeepsKeys(s: MemState, now: int, batch: seq<Envelope>, i: nat)
    requires i <= |batch| && RefusedFrom(s, now, batch, i).Some?
    ensures RefusedFrom(s, now, batch, i).value.1.jobs.Keys == s.jobs.Keys
    decreases |batch| - i
  {
    if i < |batch| && RefusedFrom(s, now, batch, i + 1).Some? {
      RefusalKeepsKeys(s, now, batch, i + 1);
    }
  }

  // From the crash that puts a job into quarantine on, no batch with its fingerprint brings in anything new,
  // and no admission claims a job that carries it.
  lemma PoisonStaysOut(r: Run, id: string, i: nat, j: nat)
    requires r.Ok() && i < j < |r.ops| && r.ops[i].SweepOp? && r.ops[i].kind == Reclaim && id in r.ops[i].out
    requires id in r.states[i].jobs && r.states[i].jobs[id].env.fingerprint != ""
    requires r.states[i].jobs[id].env.crashAttempt + 1 >= r.states[0].conf.crashLimit
    ensures var f := r.states[i].jobs[id].env.fingerprint;
            && f in r.states[j].quarantine
            && (r.ops[j].EnqueueOp? && (exists k :: 0 <= k < |r.ops[j].batch| && r.ops[j].batch[k].fingerprint == f
                                                    && r.ops[j].batch[k].id !in r.states[j].jobs) ==>
                  r.states[j + 1].jobs.Keys == r.states[j].jobs.Keys)
            && (r.ops[j].AdmitOp? ==> forall k :: 0 <= k < |r.ops[j].adm.claims| ==> r.ops[j].adm.claims[k].env.fingerprint != f)
  {
    var f := r.states[i].jobs[id].env.fingerprint;
    SettingsStay(r, i);
    RecordsStayOk(r, i);
    assert r.StepAt(i) && r.StepAt(j);
    SweepQuarantines(r.states[i], r.times[i], r.ops[i].out, id);
    BansLast(r, f, i + 1, j);
    if r.ops[j].EnqueueOp? {
      if k :| 0 <= k < |r.ops[j].batch| && r.ops[j].batch[k].fingerprint == f && r.ops[j].batch[k].id !in r.states[j].jobs {
        BannedIsRefused(r.states[j], r.times[j], r.ops[j].batch, r.ops[j].limits, k);
      }
    }
    if r.ops[j].AdmitOp? {
      AdmitStep(r.states[j], r.times[j], r.ops[j].req, r.ops[j].adm, r.states[j + 1]);
    }
  }
}
