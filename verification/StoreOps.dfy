// The remaining store operations and what every operation may do to a record
// (go/headgatetest/memstore_lifecycle.go, memstore_ack.go).
module StoreOps {
  import opened Common
  import opened Sorting
  import opened StoreModel
  import opened StoreEnqueue
  import opened Admission
  import opened AdmissionPass
  import opened AdmissionCall

  // ---- Operations under a lease ----

  function Renewed(s: MemState, now: int, l: LeaseRef, leaseMs: int): MemState {
    if Current(s, l) then s.(jobs := s.jobs[l.jobId := s.jobs[l.jobId].(leaseExpires := now + leaseMs)]) else s
  }

  function RenewAll(s: MemState, now: int, leases: seq<LeaseRef>, leaseMs: int): MemState {
    if leases == [] then s
    else Renewed(RenewAll(s, now, leases[..|leases| - 1], leaseMs), now, leases[|leases| - 1], leaseMs)
  }

  // The ids of the leases that are no longer held, in order.
  function LostOf(s: MemState, leases: seq<LeaseRef>): seq<string> {
    if leases == [] then []
    else
      var last := leases[|leases| - 1];
      LostOf(s, leases[..|leases| - 1]) + if Current(s, last) then [] else [last.jobId]
  }

  lemma {:induction false} RenewKeepsCurrent(s: MemState, now: int, leases: seq<LeaseRef>, leaseMs: int, l: LeaseRef)
    ensures Current(RenewAll(s, now, leases, leaseMs), l) <==> Current(s, l)
  {
    if leases != [] {
      RenewKeepsCurrent(s, now, leases[..|leases| - 1], leaseMs, l);
    }
  }

  function WithCheckpoint(s: MemState, l: LeaseRef, cp: Checkpoint): MemState {
    if Current(s, l) then s.(jobs := s.jobs[l.jobId := s.jobs[l.jobId].(checkpoint := cp)]) else s
  }

  function WithOutput(s: MemState, now: int, l: LeaseRef, value: JobValue): MemState {
    if Current(s, l) then s.(jobs := s.jobs[l.jobId := s.jobs[l.jobId].(output := Some(Output(value, l.fence, now)))]) else s
  }

  function WithProgress(s: MemState, now: int, l: LeaseRef, update: ProgressUpdate): MemState {
    if Current(s, l) then
      s.(jobs := s.jobs[l.jobId := s.jobs[l.jobId].(progress := Some(Progress(update, l.fence, now)))])
    else s
  }

  // ---- Sweeps ----

  datatype Sweep = Reclaim | Promote | Evict

  predicate DueFor(k: Sweep, j: JobRec, now: int) {
    match k
    case Reclaim => j.state == Running && j.leaseExpires <= now
    case Promote => j.state in {Scheduled, Retryable} && j.env.scheduledAtMs <= now
    case Evict => j.state in {Completed, Archived, Cancelled, Undecodable} && j.env.retentionMs > 0
                  && j.finalizedAt + j.env.retentionMs <= now
  }

  // The crash is blamed on the step the checkpoint names as in progress.
  function Blamed(cp: Checkpoint): Checkpoint {
    if cp.inProgressStep == "" then cp
    else cp.(crashesByStep := cp.crashesByStep[cp.inProgressStep := Crashes(cp, cp.inProgressStep) + 1])
  }

  function Crashes(cp: Checkpoint, step: string): nat {
    if step in cp.crashesByStep then cp.crashesByStep[step] else 0
  }

  function ReclaimRecord(conf: Settings, now: int, j: JobRec): JobRec {
    var crashed := DropLease(j).(env := j.env.(crashAttempt := j.env.crashAttempt + 1), checkpoint := Blamed(j.checkpoint));
    if crashed.env.crashAttempt >= conf.crashLimit then crashed.(state := Quarantined, finalizedAt := now)
    else
      var backoff := DefaultBackoff(crashed.env.crashAttempt, conf.retryBaseMs, conf.retryCapMs);
      crashed.(state := Retryable, env := crashed.env.(scheduledAtMs := now + backoff))
  }

  function Quarantines(s: MemState, j: JobRec): set<string> {
    if j.state == Quarantined && j.env.fingerprint != "" then s.quarantine + {j.env.fingerprint} else s.quarantine
  }

  function SweepOne(k: Sweep, s: MemState, now: int, id: string): MemState {
    if id !in s.jobs then s
    else
      match k
      case Reclaim =>
        var r := ReclaimRecord(s.conf, now, s.jobs[id]);
        WithRecord(s, r).(quarantine := Quarantines(s, r))
      case Promote => s.(jobs := s.jobs[id := s.jobs[id].(state := Available)])
      case Evict => s.(jobs := s.jobs - {id})
  }

  function SweepAll(k: Sweep, s: MemState, now: int, ids: seq<string>): MemState {
    if ids == [] then s
    else SweepOne(k, SweepAll(k, s, now, ids[..|ids| - 1]), now, ids[|ids| - 1])
  }

  // A bounded sweep takes the due records in id order until the limit is reached.
  ghost predicate Swept(k: Sweep, s: MemState, now: int, limit: int, out: seq<string>) {
    && SortedBy(out, StringLe) && Distinct(out)
    && |out| <= (if limit < 0 then 0 else limit)
    && (forall id :: id in out ==> id in s.jobs && DueFor(k, s.jobs[id], now))
    && (forall id :: id in s.jobs && DueFor(k, s.jobs[id], now) && id !in out ==>
          |out| >= limit && forall i :: 0 <= i < |out| ==> StringLe(out[i], id))
  }

  // ---- Duties ----

  const NS_PER_MS := 1_000_000

  // Nobody else holds the duty at this time.
  predicate DutyFree(s: MemState, now: int, name: string, holder: string) {
    name in s.duties && s.duties[name].expires > now ==> s.duties[name].holder == holder
  }

  // The lease is a duration in nanoseconds, of which only whole milliseconds are stored.
  predicate DutyGranted(s: MemState, now: int, name: string, holder: string, lease: int) {
    lease > 0 && DutyFree(s, now, name, holder)
  }

  function DutyUntil(now: int, lease: int): int {
    now + lease / NS_PER_MS
  }

  function WithDuty(s: MemState, now: int, name: string, holder: string, lease: int): MemState {
    if DutyGranted(s, now, name, holder, lease) then s.(duties := s.duties[name := Duty(holder, DutyUntil(now, lease))]) else s
  }

  function WithoutDuty(s: MemState, name: string, holder: string): MemState {
    if name in s.duties && s.duties[name].holder == holder then s.(duties := s.duties - {name}) else s
  }

  // ---- One step of the store ----

  datatype Op =
    | EnqueueOp(batch: seq<Envelope>, limits: Envelope -> bool)
    | AdmitOp(req: AdmitRequest, adm: Adm)
    | AckOp(lease: LeaseRef, outcome: AckOutcome, delayMs: int, actual: Option<nat>)
    | AckResultOp(lease: LeaseRef, actual: Option<nat>, result: JobValue)
    | RenewOp(leases: seq<LeaseRef>, leaseMs: int)
    | CheckpointOp(lease: LeaseRef, cp: Checkpoint)
    | OutputOp(lease: LeaseRef, value: JobValue)
    | ProgressOp(lease: LeaseRef, update: ProgressUpdate)
    | SweepOp(kind: Sweep, limit: int, out: seq<string>)
    | LimitOp(cls: string, limit: int, window: int, burst: int)
    | DutyOp(name: string, holder: string, period: int)
    | ReleaseDutyOp(name: string, holder: string)
    | PauseOp(queue: string, pause: bool)

  ghost predicate Step(s: MemState, now: int, op: Op, t: MemState) {
    match op
    case EnqueueOp(batch, limits) => t == EnqueueState(s, now, batch, limits).0
    case AdmitOp(req, adm) => if req.leaseMs > 0 then Admitted(Call(s, req, now), adm, t) else t == s && adm.claims == []
    case AckOp(l, outcome, delayMs, actual) => t == AckState(s, now, l, outcome, delayMs, actual).0
    case AckResultOp(l, actual, result) => t == AckResultState(s, now, l, actual, result).0
    case RenewOp(leases, leaseMs) => t == RenewAll(s, now, leases, leaseMs)
    case CheckpointOp(l, cp) => t == WithCheckpoint(s, l, cp)
    case OutputOp(l, value) => t == WithOutput(s, now, l, value)
    case ProgressOp(l, update) => t == WithProgress(s, now, l, update)
    case SweepOp(k, limit, out) => Swept(k, s, now, limit, out) && t == SweepAll(k, s, now, out)
    case LimitOp(cls, limit, window, burst) => t == s.(rate := s.rate[cls := Bucket(burst, burst, limit, window, now)])
    case DutyOp(name, holder, period) => t == WithDuty(s, now, name, holder, period)
    case ReleaseDutyOp(name, holder) => t == WithoutDuty(s, name, holder)
    case PauseOp(queue, pause) => t == s.(paused := if pause then s.paused + {queue} else s.paused - {queue})
  }

  // ---- What a step may do to one record ----

  function At(s: MemState, id: string): Option<JobRec> {
    if id in s.jobs then Some(s.jobs[id]) else None
  }

  // The resumable part of a checkpoint; crash counts are the reclaimer's.
  function Resume(cp: Checkpoint): Checkpoint {
    cp.(crashesByStep := map[])
  }

  // Attempts and crashes are counted apart, one at a time, and only when a claim ends.
  ghost predicate Counted(a: JobRec, b: JobRec) {
    || (b.env.attempt == a.env.attempt && b.env.crashAttempt == a.env.crashAttempt)
    || (a.state == Running && b.env.attempt == a.env.attempt + 1 && b.env.crashAttempt == a.env.crashAttempt)
    || (a.state == Running && b.env.attempt == a.env.attempt && b.env.crashAttempt == a.env.crashAttempt + 1)
  }

  // A claim carries on unchanged, ends for good, or a waiting job gets the next fence.
  ghost predicate Moves(a: JobRec, b: JobRec, leaseId: Option<string>, written: Option<Checkpoint>) {
    if a.state == Available && b.state == Running then
      b.fence == a.fence + 1 && b.env == a.env && b.checkpoint == a.checkpoint && leaseId == Some(b.leaseId)
    else
      && b.fence == a.fence && Counted(a, b)
      && (b.state == Running ==> a.state == Running && b.leaseId == a.leaseId && b.env == a.env)
      && (Resume(b.checkpoint) == Resume(a.checkpoint) || written == Some(b.checkpoint))
  }

  ghost predicate Evolves(id: string, x: Option<JobRec>, y: Option<JobRec>, leaseId: Option<string>, written: Option<Checkpoint>) {
    y.Some? ==>
      && RecordOk(id, y.value)
      && if x.Some? then Moves(x.value, y.value, leaseId, written)
         else y.value.fence == 0 && y.value.state != Running && y.value.checkpoint == NO_CHECKPOINT
  }

  // The lease id handed out by the operation, if it hands out any.
  function Granted(op: Op): Option<string> {
    if op.AdmitOp? then Some(op.req.leaseId) else None
  }

  // The checkpoint the operation stores under this id, if it stores any.
  function Written(s: MemState, op: Op, id: string): Option<Checkpoint> {
    if op.CheckpointOp? && op.lease.jobId == id && Current(s, op.lease) then Some(op.cp) else None
  }

  lemma ReplaceEvolves(s: MemState, now: int, e: Envelope, holder: string, id: string)
    requires RecordsOk(s) && holder in s.jobs && id in s.jobs
    ensures var t := s.(jobs := s.jobs[holder := ReplaceHolder(s.jobs[holder], e, now).0]);
            Evolves(id, At(s, id), At(t, id), None, None)
  {
    ReplaceKeepsHolder(s.jobs[holder], e, now);
    assert RecordOk(holder, s.jobs[holder]) && RecordOk(id, s.jobs[id]);
  }

  lemma {:induction false} RefusalEvolves(s: MemState, now: int, batch: seq<Envelope>, i: nat, id: string)
    requires RecordsOk(s) && i <= |batch| && RefusedFrom(s, now, batch, i).Some?
    ensures Evolves(id, At(s, id), At(RefusedFrom(s, now, batch, i).value.1, id), None, None)
    decreases |batch| - i
  {
    var h := Holder(s, now, batch[i]);
    if Skipped(s, batch[i]) || (h.None? && (batch[i].fingerprint == "" || batch[i].fingerprint !in s.quarantine)) {
      RefusalEvolves(s, now, batch, i + 1, id);
    } else if h.Some? && h.value in s.jobs && id in s.jobs {
      ReplaceEvolves(s, now, batch[i], h.value, id);
    }
  }

  lemma NewRecordOk(e: Envelope, now: int)
    ensures RecordOk(e.id, NewRecord(e, now))
  {
  }

  lemma EnqueueEvolves(s: MemState, now: int, batch: seq<Envelope>, limits: Envelope -> bool, id: string)
    requires RecordsOk(s)
    ensures Evolves(id, At(s, id), At(EnqueueState(s, now, batch, limits).0, id), None, None)
  {
    if ValidateEnqueue(batch, limits).None? && ConflictFrom(s, batch, 0).None? {
      if RefusedFrom(s, now, batch, 0).Some? {
        RefusalEvolves(s, now, batch, 0, id);
      } else {
        ValidatedBatch(batch, limits);
        InsertEvolves(s, now, batch, id);
      }
    }
  }

  lemma InsertEvolves(s: MemState, now: int, batch: seq<Envelope>, id: string)
    requires RecordsOk(s) && DistinctIds(batch)
    ensures Evolves(id, At(s, id), At(InsertFrom(s, now, batch, s.jobs.Keys, 0), id), None, None)
  {
    if k :| 0 <= k < |batch| && batch[k].id == id && id !in s.jobs {
      InsertedAt(s, now, batch, s.jobs.Keys, 0, k);
      NewRecordFresh(batch[k], now);
      NewRecordOk(batch[k], now);
    } else {
      InsertLeavesOthers(s, now, batch, s.jobs.Keys, 0, id);
    }
  }

  lemma AdmitEvolves(s: MemState, now: int, req: AdmitRequest, adm: Adm, t: MemState, id: string)
    requires AdmInv(s, req, now, adm) && t.jobs == adm.jobs
    ensures Evolves(id, At(s, id), At(t, id), Some(req.leaseId), None)
  {
    if id in s.jobs {
      assert RecordOk(id, s.jobs[id]);
      if ClaimedIn(adm.claims, id) {
        var k :| 0 <= k < |adm.claims| && adm.claims[k].env.id == id;
        assert Eligible(s, req, now, adm.claims[k].env.id);
      }
    }
  }

  // What an acknowledgement leaves under the lease's id.
  function Acked(s: MemState, now: int, l: LeaseRef, outcome: AckOutcome, delayMs: int, actual: Option<nat>): Option<JobRec>
    requires Current(s, l)
  {
    var j := if actual.Some? then s.jobs[l.jobId].(rateCharge := 0) else s.jobs[l.jobId];
    match AckRecord(s.conf, j, now, outcome, delayMs)
    case Refused => Some(j)
    case Keep(rec) => Some(rec)
    case Drop => None
  }

  lemma AckAt(s: MemState, now: int, l: LeaseRef, outcome: AckOutcome, delayMs: int, actual: Option<nat>, id: string)
    requires Current(s, l) && RecordOk(l.jobId, s.jobs[l.jobId])
    ensures At(AckState(s, now, l, outcome, delayMs, actual).0, id) ==
            if id == l.jobId then Acked(s, now, l, outcome, delayMs, actual) else At(s, id)
  {
  }

  lemma AckMoves(s: MemState, now: int, l: LeaseRef, outcome: AckOutcome, delayMs: int, actual: Option<nat>)
    requires Current(s, l) && RecordOk(l.jobId, s.jobs[l.jobId])
    ensures Evolves(l.jobId, At(s, l.jobId), Acked(s, now, l, outcome, delayMs, actual), None, None)
  {
    var j := if actual.Some? then s.jobs[l.jobId].(rateCharge := 0) else s.jobs[l.jobId];
    AckRecordOk(s.conf, l.jobId, j, now, outcome, delayMs);
  }

  lemma AckEvolves(s: MemState, now: int, l: LeaseRef, outcome: AckOutcome, delayMs: int, actual: Option<nat>, id: string)
    requires RecordsOk(s)
    ensures Evolves(id, At(s, id), At(AckState(s, now, l, outcome, delayMs, actual).0, id), None, None)
  {
    assert id in s.jobs ==> RecordOk(id, s.jobs[id]);
    if Current(s, l) {
      AckAt(s, now, l, outcome, delayMs, actual, id);
      AckMoves(s, now, l, outcome, delayMs, actual);
    }
  }

  function AckedResult(s: MemState, now: int, l: LeaseRef, actual: Option<nat>, result: JobValue): Option<JobRec>
    requires Current(s, l)
  {
    var j := if actual.Some? then s.jobs[l.jobId].(rateCharge := 0) else s.jobs[l.jobId];
    if j.env.retentionMs == 0 then None
    else Some(DropLease(j).(state := Completed, finalizedAt := now, result := Some(result)))
  }

  lemma AckResultAt(s: MemState, now: int, l: LeaseRef, actual: Option<nat>, result: JobValue, id: string)
    requires Current(s, l) && RecordOk(l.jobId, s.jobs[l.jobId])
    ensures At(AckResultState(s, now, l, actual, result).0, id) ==
            if id == l.jobId then AckedResult(s, now, l, actual, result) else At(s, id)
  {
  }

  lemma AckResultEvolves(s: MemState, now: int, l: LeaseRef, actual: Option<nat>, result: JobValue, id: string)
    requires RecordsOk(s)
    ensures Evolves(id, At(s, id), At(AckResultState(s, now, l, actual, result).0, id), None, None)
  {
    assert id in s.jobs ==> RecordOk(id, s.jobs[id]);
    if Current(s, l) {
      assert RecordOk(l.jobId, s.jobs[l.jobId]);
      AckResultAt(s, now, l, actual, result, id);
    }
  }

  lemma {:induction false} RenewEvolves(s: MemState, now: int, leases: seq<LeaseRef>, leaseMs: int, id: string)
    requires RecordsOk(s)
    ensures RecordsOk(RenewAll(s, now, leases, leaseMs))
    ensures Evolves(id, At(s, id), At(RenewAll(s, now, leases, leaseMs), id), None, None)
  {
    if leases != [] {
      RenewEvolves(s, now, leases[..|leases| - 1], leaseMs, id);
    }
  }

  lemma SweepOneEvolves(k: Sweep, s: MemState, now: int, x: string, id: string)
    requires RecordsOk(s) && x in s.jobs && DueFor(k, s.jobs[x], now)
    ensures Evolves(id, At(s, id), At(SweepOne(k, s, now, x), id), None, None)
    ensures id != x ==> At(SweepOne(k, s, now, x), id) == At(s, id)
  {
  }

  lemma {:induction false} SweepEvolves(k: Sweep, s: MemState, now: int, ids: seq<string>, id: string)
    requires RecordsOk(s) && Distinct(ids) && forall x :: x in ids ==> x in s.jobs && DueFor(k, s.jobs[x], now)
    ensures Evolves(id, At(s, id), At(SweepAll(k, s, now, ids), id), None, None)
    ensures id !in ids ==> At(SweepAll(k, s, now, ids), id) == At(s, id)
    ensures RecordsOk(SweepAll(k, s, now, ids))
    decreases |ids|
  {
    assert id in s.jobs ==> RecordOk(id, s.jobs[id]);
    if ids != [] {
      var init, x := ids[..|ids| - 1], ids[|ids| - 1];
      var t := SweepAll(k, s, now, init);
      SweepEvolves(k, s, now, init, id);
      SweepEvolves(k, s, now, init, x);
      SweepOneEvolves(k, t, now, x, id);
      forall y | y in SweepOne(k, t, now, x).jobs
        ensures RecordOk(y, SweepOne(k, t, now, x).jobs[y])
      {
        SweepOneEvolves(k, t, now, x, y);
      }
    }
  }

  // A write under a lease.
  lemma HeldEvolves(s: MemState, l: LeaseRef, j: JobRec, id: string, written: Option<Checkpoint>)
    requires RecordsOk(s) && Current(s, l)
    requires var h := s.jobs[l.jobId];
             && j.env == h.env && j.state == Running && j.fence == h.fence && j.leaseId == h.leaseId
             && (j.checkpoint == h.checkpoint || id != l.jobId || written == Some(j.checkpoint))
    ensures Evolves(id, At(s, id), At(s.(jobs := s.jobs[l.jobId := j]), id), None, written)
  {
  }

  lemma CheckpointEvolves(s: MemState, l: LeaseRef, cp: Checkpoint, id: string)
    requires RecordsOk(s)
    ensures Evolves(id, At(s, id), At(WithCheckpoint(s, l, cp), id), None,
                    if l.jobId == id && Current(s, l) then Some(cp) else None)
  {
  }

  lemma OutputEvolves(s: MemState, now: int, l: LeaseRef, value: JobValue, id: string)
    requires RecordsOk(s)
    ensures Evolves(id, At(s, id), At(WithOutput(s, now, l, value), id), None, None)
  {
    StaysPut(s, id);
    if Current(s, l) {
      HeldEvolves(s, l, s.jobs[l.jobId].(output := Some(Output(value, l.fence, now))), id, None);
    }
  }

  lemma ProgressEvolves(s: MemState, now: int, l: LeaseRef, update: ProgressUpdate, id: string)
    requires RecordsOk(s)
    ensures Evolves(id, At(s, id), At(WithProgress(s, now, l, update), id), None, None)
  {
    StaysPut(s, id);
    if Current(s, l) {
      HeldEvolves(s, l, s.jobs[l.jobId].(progress := Some(Progress(update, l.fence, now))), id, None);
    }
  }

  lemma AdmitStep(s: MemState, now: int, req: AdmitRequest, adm: Adm, t: MemState)
    requires Step(s, now, AdmitOp(req, adm), t)
    ensures if req.leaseMs > 0 then AdmInv(s, req, now, adm) && t.jobs == adm.jobs && t.rate == Spend(adm.rate, adm.spent)
            else t == s && adm.claims == []
  {
  }

  // Every operation, every record.
  lemma StepEvolves(s: MemState, now: int, op: Op, t: MemState, id: string)
    requires RecordsOk(s) && Step(s, now, op, t)
    ensures Evolves(id, At(s, id), At(t, id), Granted(op), Written(s, op, id))
  {
    match op
    case EnqueueOp(batch, limits) => EnqueueEvolves(s, now, batch, limits, id);
    case AdmitOp(req, adm) =>
      AdmitStep(s, now, req, adm, t);
      if req.leaseMs > 0 {
        AdmitEvolves(s, now, req, adm, t, id);
      } else {
        StaysPut(s, id);
        assert At(t, id) == At(s, id);
      }
    case AckOp(l, outcome, delayMs, actual) => AckEvolves(s, now, l, outcome, delayMs, actual, id);
    case AckResultOp(l, actual, result) => AckResultEvolves(s, now, l, actual, result, id);
    case RenewOp(leases, leaseMs) => RenewEvolves(s, now, leases, leaseMs, id);
    case SweepOp(k, limit, out) => SweepEvolves(k, s, now, out, id);
    case LimitOp(_, _, _, _) => StaysPut(s, id);
    case DutyOp(_, _, _) => StaysPut(s, id);
    case ReleaseDutyOp(_, _) => StaysPut(s, id);
    case PauseOp(_, _) => StaysPut(s, id);
    case CheckpointOp(l, cp) => CheckpointEvolves(s, l, cp, id);
    case OutputOp(l, value) => OutputEvolves(s, now, l, value, id);
    case ProgressOp(l, update) => ProgressEvolves(s, now, l, update, id);
  }

  lemma StaysPut(s: MemState, id: string)
    requires RecordsOk(s)
    ensures Evolves(id, At(s, id), At(s, id), None, None)
  {
  }

  lemma StepKeepsRecords(s: MemState, now: int, op: Op, t: MemState)
    requires RecordsOk(s) && Step(s, now, op, t)
    ensures RecordsOk(t)
  {
    forall id | id in t.jobs
      ensures RecordOk(id, t.jobs[id])
    {
      StepEvolves(s, now, op, t, id);
    }
  }
}
