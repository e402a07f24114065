// The reference store as one object whose methods are atomic
// (go/headgatetest/memstore.go, memstore_ack.go, memstore_lifecycle.go).
module MemStore {
  import opened Common
  import opened Sorting
  import opened StoreModel
  import opened StoreEnqueue
  import opened Admission
  import opened AdmissionPass
  import opened StoreOps

  // ---- Boundary validation ----

  method ValidateBatch(batch: seq<Envelope>, limits: Envelope -> bool) returns (err: Option<EnqueueError>)
    ensures err == ValidateEnqueue(batch, limits)
  {
    if |batch| > MAX_BATCH {
      return Some(Invalid);
    }
    var seen: set<string> := {};
    var replacing := false;
    for i := 0 to |batch|
      invariant ValidateFrom(batch, limits, 0, {}) == ValidateFrom(batch, limits, i, seen)
      invariant replacing <==> exists k :: 0 <= k < i && Replaces(batch[k])
    {
      if !EnvelopeOk(batch[i], limits) {
        return Some(Invalid);
      }
      if batch[i].id in seen {
        return Some(IdConflict(batch[i].id));
      }
      seen := seen + {batch[i].id};
      replacing := replacing || Replaces(batch[i]);
    }
    err := if |batch| != 1 && replacing then Some(Invalid) else None;
  }

  datatype WriteError = BadValue | Rejected

  // The boundary check comes first, then the lease.
  function WriteVerdict(s: MemState, l: LeaseRef, ok: bool): Option<WriteError> {
    if !ok then Some(BadValue) else if !Current(s, l) then Some(Rejected) else None
  }

  class MemStore {
    const conf: Settings
    var jobs: map<string, JobRec>
    var unique: map<Bytes, string>
    var throttle: map<Bytes, (string, int)>
    var quarantine: set<string>
    var paused: set<string>
    var rate: map<string, Bucket>
    var duties: map<string, Duty>
    var rr: map<string, nat>

    function State(): MemState
      reads this
    {
      MemState(conf, jobs, unique, throttle, quarantine, paused, rate, duties, rr)
    }

    ghost predicate Ok()
      reads this
    {
      RecordsOk(State())
    }

    constructor ()
      ensures Valid(State()) && State() == MemState(Settings(3, 1000, 3_600_000), map[], map[], map[], {}, {}, map[], map[], map[])
    {
      conf := Settings(3, 1000, 3_600_000);
      jobs, unique, throttle, quarantine, paused, rate, duties, rr := map[], map[], map[], {}, {}, map[], map[], map[];
    }

    method Enqueue(now: int, batch: seq<Envelope>, limits: Envelope -> bool) returns (err: Option<EnqueueError>)
      requires Ok()
      modifies this
      ensures Ok() && Step(old(State()), now, EnqueueOp(batch, limits), State())
      ensures err == EnqueueState(old(State()), now, batch, limits).1
    {
      ghost var s := State();
      err := Accept(now, batch, limits);
      StepKeepsRecords(s, now, EnqueueOp(batch, limits), State());
    }

    method Accept(now: int, batch: seq<Envelope>, limits: Envelope -> bool) returns (err: Option<EnqueueError>)
      modifies this
      ensures (State(), err) == EnqueueState(old(State()), now, batch, limits)
    {
      err := ValidateBatch(batch, limits);
      if err.Some? {
        return;
      }
      ghost var s := State();
      for i := 0 to |batch|
        invariant State() == s && ConflictFrom(s, batch, 0) == ConflictFrom(s, batch, i)
      {
        if batch[i].id in jobs && !SameJobContent(batch[i], jobs[batch[i].id].env) {
          return Some(IdConflict(batch[i].id));
        }
      }
      err := Refuse(now, batch);
      if err.None? {
        InsertAll(now, batch);
      }
    }

    // The uniqueness pass: the first refused envelope ends it, updating the holder where it may.
    method Refuse(now: int, batch: seq<Envelope>) returns (err: Option<EnqueueError>)
      modifies this
      ensures var r := RefusedFrom(old(State()), now, batch, 0);
              if r.Some? then State() == r.value.1 && err == Some(r.value.0) else State() == old(State()) && err == None
    {
      ghost var s := State();
      for i := 0 to |batch|
        invariant State() == s && RefusedFrom(s, now, batch, 0) == RefusedFrom(s, now, batch, i)
      {
        var e := batch[i];
        if e.id !in jobs {
          if e.fingerprint != "" && e.fingerprint in quarantine {
            return Some(QuarantinedKind(e.fingerprint));
          }
          var holder := Holder(State(), now, e);
          if holder.Some? {
            if holder.value !in jobs {
              return Some(Duplicate(holder.value, false));
            }
            var r := ReplaceHolder(jobs[holder.value], e, now);
            jobs := jobs[holder.value := r.0];
            return Some(Duplicate(holder.value, r.1));
          }
        }
      }
      return None;
    }

    method InsertAll(now: int, batch: seq<Envelope>)
      modifies this
      ensures State() == InsertFrom(old(State()), now, batch, old(jobs).Keys, 0)
    {
      var known := jobs.Keys;
      ghost var s := State();
      for i := 0 to |batch|
        invariant InsertFrom(s, now, batch, known, 0) == InsertFrom(State(), now, batch, known, i)
      {
        if batch[i].id !in known {
          InsertOne(now, batch[i]);
        }
      }
    }

    method InsertOne(now: int, e: Envelope)
      modifies this
      ensures State() == Insert(old(State()), now, e)
    {
      jobs := jobs[e.id := NewRecord(e, now)];
      var key := EffectiveUniqueKey(e);
      if key.Some? {
        if e.uniqueWindowMs > 0 {
          throttle := throttle[key.value := (e.id, now + e.uniqueWindowMs)];
        } else {
          unique := unique[key.value := e.id];
        }
      }
    }

    method Admit(now: int, req: AdmitRequest) returns (claims: seq<Claim>, ok: bool, ghost adm: Adm)
      requires Ok()
      modifies this
      ensures Ok() && Step(old(State()), now, AdmitOp(req, adm), State())
      ensures claims == adm.claims && (ok <==> req.leaseMs > 0)
    {
      ghost var s := State();
      var a, t;
      a, t, ok := AdmissionCall.Admit(Call(State(), req, now));
      jobs, rate, rr := t.jobs, t.rate, t.rr;
      claims, adm := a.claims, a;
      StepKeepsRecords(s, now, AdmitOp(req, adm), State());
    }

    // ---- Under a lease ----

    predicate Holds(l: LeaseRef)
      reads this
    {
      l.jobId in jobs && jobs[l.jobId].state == Running && jobs[l.jobId].leaseId == l.leaseId && jobs[l.jobId].fence == l.fence
    }

    method Release(j: JobRec)
      modifies this`unique
      ensures unique == StoreModel.ReleaseUnique(old(unique), j)
    {
      var k := EffectiveUniqueKey(j.env);
      if k.Some? && j.env.uniqueWindowMs == 0 && k.value in unique && unique[k.value] == j.env.id {
        unique := unique - {k.value};
      }
    }

    // The late correction of the charge.
    method Correct(now: int, id: string, actual: Option<nat>)
      requires id in jobs && jobs[id].env.id == id
      modifies this`rate, this`jobs
      ensures State() == ReconcileRate(old(State()), old(jobs[id]), now, actual)
    {
      if actual.Some? {
        var j := jobs[id];
        if j.rateCharge > 0 && j.env.rateClass in rate {
          var b := rate[j.env.rateClass];
          var elapsed := if now - b.refilled < 0 then 0 else now - b.refilled;
          var gained := if b.limit > 0 && b.window > 0 then elapsed * b.limit / b.window else 0;
          var available := Min(b.burst, b.tokens + gained);
          rate := rate[j.env.rateClass := b.(tokens := Min(b.burst, available + j.rateCharge - actual.value), refilled := now)];
        }
        jobs := jobs[id := j.(rateCharge := 0)];
      }
    }

    // Stores a record that has ended its claim.
    method Put(j: JobRec)
      modifies this
      ensures State() == WithRecord(old(State()), j)
    {
      jobs := jobs[j.env.id := j];
      if Terminal(j.state) {
        Release(j);
      }
    }

    method Remove(j: JobRec)
      modifies this
      ensures State() == WithoutRecord(old(State()), j)
    {
      Release(j);
      jobs := jobs - {j.env.id};
    }

    method Conclude(now: int, j: JobRec, outcome: AckOutcome, delayMs: int) returns (ok: bool)
      modifies this
      ensures var e := AckRecord(conf, j, now, outcome, delayMs);
              match e
              case Refused => State() == old(State()) && !ok
              case Keep(rec) => State() == WithRecord(old(State()), rec) && ok
              case Drop => State() == WithoutRecord(old(State()), j) && ok
    {
      var done := DropLease(j);
      ok := true;
      match outcome
      case Success =>
        if j.env.retentionMs == 0 {
          Remove(j);
        } else {
          Put(done.(state := Completed, finalizedAt := now));
        }
      case Retry =>
        var tried := done.(env := j.env.(attempt := j.env.attempt + 1));
        if tried.env.attempt < tried.env.maxAttempts {
          var backoff := if delayMs <= 0 then DefaultBackoff(tried.env.attempt, conf.retryBaseMs, conf.retryCapMs) else delayMs;
          Put(tried.(state := Retryable, env := tried.env.(scheduledAtMs := now + backoff)));
        } else {
          Put(tried.(state := Archived, finalizedAt := now));
        }
      case Skip => Put(done.(state := Archived, finalizedAt := now));
      case UndecodableOutcome => Put(done.(state := Undecodable, finalizedAt := now));
      case Revoke => Remove(j);
      case Snooze =>
        if delayMs <= 0 {
          return false;
        }
        Put(done.(state := Scheduled, env := j.env.(scheduledAtMs := now + delayMs)));
      case RateLimited => Put(done.(state := Available, env := j.env.(scheduledAtMs := Min(j.env.scheduledAtMs, now))));
      case LeaseLost => return false;
    }

    method Ack(now: int, l: LeaseRef, outcome: AckOutcome, delayMs: int, actual: Option<nat>) returns (ok: bool)
      requires Ok()
      modifies this
      ensures Ok() && Step(old(State()), now, AckOp(l, outcome, delayMs, actual), State())
      ensures ok == AckState(old(State()), now, l, outcome, delayMs, actual).1
    {
      ghost var s := State();
      ok := false;
      if Holds(l) {
        assert RecordOk(l.jobId, jobs[l.jobId]);
        Correct(now, l.jobId, actual);
        ok := Conclude(now, jobs[l.jobId], outcome, delayMs);
      }
      StepKeepsRecords(s, now, AckOp(l, outcome, delayMs, actual), State());
    }

    method AckSuccessWithResult(now: int, l: LeaseRef, actual: Option<nat>, result: JobValue) returns (err: Option<WriteError>)
      requires Ok()
      modifies this
      ensures Ok() && err == WriteVerdict(old(State()), l, ValueOk(result))
      ensures if err.None? then Step(old(State()), now, AckResultOp(l, actual, result), State()) else State() == old(State())
    {
      if !ValueOk(result) {
        return Some(BadValue);
      }
      if !Holds(l) {
        return Some(Rejected);
      }
      ghost var s := State();
      assert RecordOk(l.jobId, jobs[l.jobId]);
      Correct(now, l.jobId, actual);
      var j := jobs[l.jobId];
      if j.env.retentionMs == 0 {
        Remove(j);
      } else {
        Put(DropLease(j).(state := Completed, finalizedAt := now, result := Some(result)));
      }
      StepKeepsRecords(s, now, AckResultOp(l, actual, result), State());
      err := None;
    }

    // Extends the leases still held and names the others.
    method Renew(now: int, leases: seq<LeaseRef>, leaseMs: int) returns (lost: seq<string>, ok: bool)
      requires Ok()
      modifies this
      ensures Ok() && (ok <==> leaseMs > 0)
      ensures if ok then Step(old(State()), now, RenewOp(leases, leaseMs), State()) && lost == LostOf(old(State()), leases)
              else State() == old(State()) && lost == []
    {
      ghost var s := State();
      lost, ok := [], leaseMs > 0;
      if !ok {
        return;
      }
      for i := 0 to |leases|
        invariant State() == RenewAll(s, now, leases[..i], leaseMs) && lost == LostOf(s, leases[..i])
      {
        RenewKeepsCurrent(s, now, leases[..i], leaseMs, leases[i]);
        TakeSnoc(leases, i);
        var l := leases[i];
        if Holds(l) {
          jobs := jobs[l.jobId := jobs[l.jobId].(leaseExpires := now + leaseMs)];
        } else {
          lost := lost + [l.jobId];
        }
      }
      TakeAll(leases);
      StepKeepsRecords(s, now, RenewOp(leases, leaseMs), State());
    }

    method Checkpoint(now: int, l: LeaseRef, cp: StoreModel.Checkpoint) returns (ok: bool)
      requires Ok()
      modifies this`jobs
      ensures Ok() && Step(old(State()), now, CheckpointOp(l, cp), State()) && (ok <==> Current(old(State()), l))
    {
      ghost var s := State();
      ok := Holds(l);
      if ok {
        jobs := jobs[l.jobId := jobs[l.jobId].(checkpoint := cp)];
      }
      StepKeepsRecords(s, now, CheckpointOp(l, cp), State());
    }

    method WriteOutput(now: int, l: LeaseRef, value: JobValue) returns (err: Option<WriteError>)
      requires Ok()
      modifies this`jobs
      ensures Ok() && err == WriteVerdict(old(State()), l, ValueOk(value))
      ensures if err.None? then Step(old(State()), now, OutputOp(l, value), State()) else State() == old(State())
    {
      if !ValueOk(value) {
        return Some(BadValue);
      }
      if !Holds(l) {
        return Some(Rejected);
      }
      ghost var s := State();
      jobs := jobs[l.jobId := jobs[l.jobId].(output := Some(Output(value, l.fence, now)))];
      StepKeepsRecords(s, now, OutputOp(l, value), State());
      err := None;
    }

    method WriteProgress(now: int, l: LeaseRef, update: ProgressUpdate) returns (err: Option<WriteError>)
      requires Ok()
      modifies this`jobs
      ensures Ok() && err == WriteVerdict(old(State()), l, UpdateOk(update))
      ensures if err.None? then Step(old(State()), now, ProgressOp(l, update), State()) else State() == old(State())
    {
      if !UpdateOk(update) {
        return Some(BadValue);
      }
      if !Holds(l) {
        return Some(Rejected);
      }
      ghost var s := State();
      jobs := jobs[l.jobId := jobs[l.jobId].(progress := Some(Progress(update, l.fence, now)))];
      StepKeepsRecords(s, now, ProgressOp(l, update), State());
      err := None;
    }

    // ---- Sweeps ----

    // One due record of a sweep.
    method Treat(k: Sweep, now: int, id: string)
      requires id in jobs && jobs[id].env.id == id
      modifies this
      ensures State() == SweepOne(k, old(State()), now, id)
    {
      match k
      case Reclaim =>
        var r := ReclaimRecord(conf, now, jobs[id]);
        Put(r);
        if r.state == Quarantined && r.env.fingerprint != "" {
          quarantine := quarantine + {r.env.fingerprint};
        }
      case Promote => jobs := jobs[id := jobs[id].(state := Available)];
      case Evict => jobs := jobs - {id};
    }

    // Goes through the ids in order until the limit is reached.
    method SweepDue(k: Sweep, now: int, limit: int) returns (out: seq<string>)
      requires Ok()
      modifies this
      ensures Ok() && Step(old(State()), now, SweepOp(k, limit, out), State())
    {
      ghost var s := State();
      StringsTotal(jobs.Keys);
      var ids := SortSet(jobs.Keys, StringLe);
      out := [];
      var i := 0;
      while i < |ids| && |out| < limit
        invariant i <= |ids| && |out| <= (if limit < 0 then 0 else limit)
        invariant State() == SweepAll(k, s, now, out)
        invariant Picked(k, s, now, ids, i, out)
      {
        PickedStep(k, s, now, ids, i, out);
        SweepEvolves(k, s, now, out, ids[i]);
        assert At(State(), ids[i]) == Some(s.jobs[ids[i]]);
        if DueFor(k, jobs[ids[i]], now) {
          ghost var before := out;
          out := out + [ids[i]];
          assert out[..|out| - 1] == before;
          Treat(k, now, ids[i]);
        }
        i := i + 1;
      }
      PickedAll(k, s, now, limit, ids, i, out);
      StepKeepsRecords(s, now, SweepOp(k, limit, out), State());
    }

    // Crash-attributes the expired claims. Reports the records as they now are.
    method ReclaimExpired(now: int, limit: int) returns (out: seq<string>)
      requires Ok()
      modifies this
      ensures Ok() && Step(old(State()), now, SweepOp(Reclaim, limit, out), State())
    {
      out := SweepDue(Reclaim, now, limit);
    }

    method PromoteDue(now: int, limit: int) returns (n: nat, ghost out: seq<string>)
      requires Ok()
      modifies this
      ensures Ok() && Step(old(State()), now, SweepOp(Promote, limit, out), State()) && n == |out|
    {
      var ids := SweepDue(Promote, now, limit);
      n, out := |ids|, ids;
    }

    method EvictRetained(now: int, limit: int) returns (n: nat, ghost out: seq<string>)
      requires Ok()
      modifies this
      ensures Ok() && Step(old(State()), now, SweepOp(Evict, limit, out), State()) && n == |out|
    {
      var ids := SweepDue(Evict, now, limit);
      n, out := |ids|, ids;
    }

    // ---- Duties and controls ----

    // The lease is in nanoseconds; a lease of no length is an error.
    method ClaimDuty(now: int, name: string, holder: string, lease: int) returns (ok: Option<bool>)
      requires Ok()
      modifies this`duties
      ensures Ok() && Step(old(State()), now, DutyOp(name, holder, lease), State())
      ensures ok == if lease <= 0 then None else Some(DutyGranted(old(State()), now, name, holder, lease))
      ensures ok == Some(true) ==>
                forall other, at :: other != holder && at < DutyUntil(now, lease) ==> !DutyFree(State(), at, name, other)
    {
      if lease <= 0 {
        return None;
      }
      if name in duties && duties[name].expires > now && duties[name].holder != holder {
        return Some(false);
      }
      duties := duties[name := Duty(holder, now + lease / NS_PER_MS)];
      ok := Some(true);
    }

    method ReleaseDuty(now: int, name: string, holder: string)
      requires Ok()
      modifies this`duties
      ensures Ok() && Step(old(State()), now, ReleaseDutyOp(name, holder), State())
      ensures (forall other, at :: DutyFree(old(State()), at, name, other) ==> DutyFree(State(), at, name, other))
      ensures DutyFree(old(State()), now, name, holder) ==> forall other :: DutyFree(State(), now, name, other)
    {
      if name in duties && duties[name].holder == holder {
        duties := duties - {name};
      }
    }

    method SetQueuePaused(now: int, queue: string, pause: bool)
      requires Ok()
      modifies this`paused
      ensures Ok() && Step(old(State()), now, PauseOp(queue, pause), State())
      ensures forall q :: q in paused <==> if q == queue then pause else q in old(paused)
    {
      paused := if pause then paused + {queue} else paused - {queue};
    }

    method SetRateLimit(now: int, cls: string, limit: int, window: int, burst: int)
      requires Ok()
      modifies this`rate
      ensures Ok() && Step(old(State()), now, LimitOp(cls, limit, window, burst), State())
    {
      rate := rate[cls := Bucket(burst, burst, limit, window, now)];
    }
  }

  // ---- The order of a sweep ----

  // Of the first i ids, exactly the due ones have been picked, in order.
  ghost predicate Picked(k: Sweep, s: MemState, now: int, ids: seq<string>, i: nat, out: seq<string>)
    requires i <= |ids|
  {
    && SortedBy(ids, StringLe) && Distinct(ids) && Elems(ids) == s.jobs.Keys
    && SortedBy(out, StringLe) && Distinct(out)
    && (forall x :: x in out <==> x in ids[..i] && x in s.jobs && DueFor(k, s.jobs[x], now))
  }

  lemma PickedStep(k: Sweep, s: MemState, now: int, ids: seq<string>, i: nat, out: seq<string>)
    requires i < |ids| && Picked(k, s, now, ids, i, out)
    ensures ids[i] in s.jobs && ids[i] !in out
    ensures Picked(k, s, now, ids, i + 1, if DueFor(k, s.jobs[ids[i]], now) then out + [ids[i]] else out)
  {
    TakeSnoc(ids, i);
    assert ids[i] in Elems(ids);
    forall x | x in out
      ensures StringLe(x, ids[i])
    {
      var j :| 0 <= j < |ids[..i]| && ids[..i][j] == x;
      assert StringLe(ids[j], ids[i]);
    }
  }

  lemma PickedAll(k: Sweep, s: MemState, now: int, limit: int, ids: seq<string>, i: nat, out: seq<string>)
    requires i <= |ids| && Picked(k, s, now, ids, i, out) && |out| <= (if limit < 0 then 0 else limit)
    requires i == |ids| || |out| >= limit
    ensures Swept(k, s, now, limit, out)
  {
    forall id | id in s.jobs && DueFor(k, s.jobs[id], now) && id !in out
      ensures |out| >= limit && forall n :: 0 <= n < |out| ==> StringLe(out[n], id)
    {
      assert id in Elems(ids);
      var m :| 0 <= m < |ids| && ids[m] == id;
      assert m >= i;
      forall n | 0 <= n < |out|
        ensures StringLe(out[n], id)
      {
        assert out[n] in out;
        var j :| 0 <= j < |ids[..i]| && ids[..i][j] == out[n];
        assert StringLe(ids[j], ids[m]);
      }
    }
  }
}
