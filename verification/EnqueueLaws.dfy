// When a batch is taken in, what is stored of it, and how long its keys keep others out
// (go/headgatetest/memstore.go, go/trace_context.go).
module EnqueueLaws {
  import opened Common
  import opened StoreModel
  import opened StoreEnqueue
  import opened StoreOps
  import opened StoreRuns

  // ---- Acceptance ----

  ghost predicate WellFormed(batch: seq<Envelope>, limits: Envelope -> bool) {
    && |batch| <= MAX_BATCH && DistinctIds(batch) && (forall k :: 0 <= k < |batch| ==> EnvelopeOk(batch[k], limits))
    && (|batch| != 1 ==> forall k :: 0 <= k < |batch| ==> !Replaces(batch[k]))
  }

  // Nothing stored stands against the envelope: its id is new, its fingerprint is not banned and its key is
  // free; or it repeats work that is stored under its id.
  ghost predicate Welcome(s: MemState, now: int, e: Envelope) {
    if e.id in s.jobs then SameJobContent(e, s.jobs[e.id].env)
    else (e.fingerprint == "" || e.fingerprint !in s.quarantine) && Holder(s, now, e).None?
  }

  lemma {:induction false} NoConflict(s: MemState, batch: seq<Envelope>, i: nat)
    requires i <= |batch|
    ensures ConflictFrom(s, batch, i).None? <==>
            forall k :: i <= k < |batch| && batch[k].id in s.jobs ==> SameJobContent(batch[k], s.jobs[batch[k].id].env)
    decreases |batch| - i
  {
    if i < |batch| {
      NoConflict(s, batch, i + 1);
    }
  }

  lemma {:induction false} NoRefusal(s: MemState, now: int, batch: seq<Envelope>, i: nat)
    requires i <= |batch|
    ensures RefusedFrom(s, now, batch, i).None? <==>
            forall k :: i <= k < |batch| && batch[k].id !in s.jobs ==>
              (batch[k].fingerprint == "" || batch[k].fingerprint !in s.quarantine) && Holder(s, now, batch[k]).None?
    decreases |batch| - i
  {
    if i < |batch| {
      NoRefusal(s, now, batch, i + 1);
    }
  }

  // A batch is taken in exactly when it is well formed and every envelope is welcome.
  lemma AcceptedExactly(s: MemState, now: int, batch: seq<Envelope>, limits: Envelope -> bool)
    ensures EnqueueState(s, now, batch, limits).1.None? <==>
            WellFormed(batch, limits) && forall k :: 0 <= k < |batch| ==> Welcome(s, now, batch[k])
  {
    ValidateFromMeans(batch, limits, 0, {});
    NoConflict(s, batch, 0);
    NoRefusal(s, now, batch, 0);
  }

  lemma {:induction false} RefusalAddsNothing(s: MemState, now: int, batch: seq<Envelope>, i: nat)
    requires i <= |batch| && RefusedFrom(s, now, batch, i).Some?
    ensures var t := RefusedFrom(s, now, batch, i).value.1;
            t.jobs.Keys == s.jobs.Keys && t.unique == s.unique && t.throttle == s.throttle
    decreases |batch| - i
  {
    if i < |batch| && RefusedFrom(s, now, batch, i + 1).Some? {
      RefusalAddsNothing(s, now, batch, i + 1);
    }
  }

  // A refused batch stores no new job and no key.
  lemma RefusedAddsNothing(s: MemState, now: int, batch: seq<Envelope>, limits: Envelope -> bool)
    requires EnqueueState(s, now, batch, limits).1.Some?
    ensures var t := EnqueueState(s, now, batch, limits).0;
            t.jobs.Keys == s.jobs.Keys && t.unique == s.unique && t.throttle == s.throttle
  {
    if ValidateEnqueue(batch, limits).None? && ConflictFrom(s, batch, 0).None? {
      RefusalAddsNothing(s, now, batch, 0);
    }
  }

  // As long as a live job holds a lifecycle key, no batch brings in another job under it.
  lemma LiveKeyKeepsOthersOut(s: MemState, now: int, batch: seq<Envelope>, limits: Envelope -> bool, holder: string, k: nat)
    requires Valid(s) && holder in s.jobs && !Terminal(s.jobs[holder].state) && LifecycleKey(s.jobs[holder].env).Some?
    requires k < |batch| && batch[k].id !in s.jobs && LifecycleKey(batch[k]) == LifecycleKey(s.jobs[holder].env)
    ensures var r := EnqueueState(s, now, batch, limits); r.1.Some? && r.0.jobs.Keys == s.jobs.Keys
  {
    AcceptedExactly(s, now, batch, limits);
    assert Holder(s, now, batch[k]) == Some(holder);
    assert !Welcome(s, now, batch[k]);
    RefusedAddsNothing(s, now, batch, limits);
  }

  // ---- What is stored ----

  // A new job is pending if it asks for it; otherwise it is available at once unless it is due later. It is
  // due after its debounce, or when it says, or now. Empty fields get their defaults, the rest is kept.
  lemma NewJobIs(e: Envelope, now: int)
    ensures var j := NewRecord(e, now);
            var due := if e.uniqueDebounceMs > 0 then now + e.uniqueDebounceMs else if e.scheduledAtMs == 0 then now else e.scheduledAtMs;
            && j.env.scheduledAtMs == due && j.env.enqueuedAtMs == now
            && (j.state == Pending <==> e.pending)
            && (!e.pending ==> (j.state == Available <==> due <= now) && (j.state == Scheduled <==> due > now))
            && (j.env.queue != "" && (e.queue != "" ==> j.env.queue == e.queue) && (e.queue == "" ==> j.env.queue == "default"))
            && j.env.maxAttempts == (if e.maxAttempts == 0 then 25 else e.maxAttempts)
            && j.env.schemaVersion >= 1 && (e.schemaVersion != 0 ==> j.env.schemaVersion == e.schemaVersion)
            && j.env.weight >= 1 && (e.weight != 0 ==> j.env.weight == e.weight)
            && j.env == e.(queue := j.env.queue, maxAttempts := j.env.maxAttempts, schemaVersion := j.env.schemaVersion,
                           weight := j.env.weight, enqueuedAtMs := now, scheduledAtMs := due)
            && j.fence == 0 && j.leaseId == "" && j.rateCharge == 0 && j.result.None? && j.output.None? && j.progress.None?
  {
  }

  // What a replacing duplicate changes in a waiting holder, field by field.
  lemma ReplacementIs(j: JobRec, e: Envelope, now: int)
    ensures var r := ReplaceHolder(j, e, now);
            if !Replaces(e) || !Waitable(j.state) then r == (j, false)
            else
              var body := e.uniqueDebounceMs > 0 || e.uniqueReplace.payload;
              var waits := if e.uniqueDebounceMs > 0 then Scheduled else j.state;
              && r.0.state == waits
              && r.0.env.payload == (if body then e.payload else j.env.payload)
              && r.0.env.fingerprint == (if body then e.fingerprint else j.env.fingerprint)
              && r.0.env.schemaVersion == (if !body then j.env.schemaVersion else if e.schemaVersion == 0 then 1 else e.schemaVersion)
              && r.0.env.priority == (if e.uniqueReplace.priority then e.priority else j.env.priority)
              && r.0.env.maxAttempts == (if !e.uniqueReplace.maxAttempts then j.env.maxAttempts else if e.maxAttempts == 0 then 25 else e.maxAttempts)
              && r.0.env.scheduledAtMs ==
                 (if e.uniqueReplace.scheduledAt && waits == Scheduled then (if e.scheduledAtMs == 0 then now else e.scheduledAtMs)
                  else if e.uniqueDebounceMs > 0 then now + e.uniqueDebounceMs else j.env.scheduledAtMs)
              && (r.1 <==> body || e.uniqueReplace.priority || e.uniqueReplace.maxAttempts || (e.uniqueReplace.scheduledAt && waits == Scheduled))
  {
  }

  // ---- Windows ----

  // The key under which an envelope is throttled, if it is.
  function WindowKey(e: Envelope): Option<Bytes> {
    if e.uniqueWindowMs > 0 then EffectiveUniqueKey(e) else None
  }

  // The window of a key is open at this time.
  predicate WindowOpen(s: MemState, now: int, key: Bytes) {
    key in s.throttle && s.throttle[key].1 > now
  }

  // No new envelope from i on is throttled under the key.
  ghost predicate NoneUnder(batch: seq<Envelope>, known: set<string>, i: nat, key: Bytes) {
    forall k :: i <= k < |batch| && batch[k].id !in known ==> WindowKey(batch[k]) != Some(key)
  }

  function WindowOf(s: MemState, key: Bytes): Option<(string, int)> {
    if key in s.throttle then Some(s.throttle[key]) else None
  }

  lemma InsertWindow(s: MemState, now: int, e: Envelope, key: Bytes)
    ensures WindowOf(Insert(s, now, e), key) == if WindowKey(e) == Some(key) then Some((e.id, now + e.uniqueWindowMs)) else WindowOf(s, key)
  {
  }

  lemma {:induction false} InsertLeavesWindow(s: MemState, now: int, batch: seq<Envelope>, known: set<string>, i: nat, key: Bytes)
    requires i <= |batch| && NoneUnder(batch, known, i, key)
    ensures WindowOf(InsertFrom(s, now, batch, known, i), key) == WindowOf(s, key)
    decreases |batch| - i
  {
    if i < |batch| {
      InsertWindow(s, now, batch[i], key);
      InsertLeavesWindow(if batch[i].id in known then s else Insert(s, now, batch[i]), now, batch, known, i + 1, key);
    }
  }

  lemma {:induction false} InsertSetsWindow(s: MemState, now: int, batch: seq<Envelope>, known: set<string>, i: nat, k: nat, key: Bytes)
    requires i <= k < |batch| && batch[k].id !in known && WindowKey(batch[k]) == Some(key) && NoneUnder(batch, known, k + 1, key)
    ensures WindowOf(InsertFrom(s, now, batch, known, i), key) == Some((batch[k].id, now + batch[k].uniqueWindowMs))
    decreases |batch| - i
  {
    if i < k {
      InsertSetsWindow(if batch[i].id in known then s else Insert(s, now, batch[i]), now, batch, known, i + 1, k, key);
    } else {
      InsertWindow(s, now, batch[k], key);
      InsertLeavesWindow(Insert(s, now, batch[k]), now, batch, known, k + 1, key);
    }
  }

  // A job that is taken in opens the window of its key, for as long as it asks, if it is the last of the batch to do so.
  lemma WindowOpens(s: MemState, now: int, batch: seq<Envelope>, limits: Envelope -> bool, k: nat)
    requires EnqueueState(s, now, batch, limits).1.None? && k < |batch| && batch[k].id !in s.jobs && WindowKey(batch[k]).Some?
    requires forall l :: k < l < |batch| && batch[l].id !in s.jobs ==> WindowKey(batch[l]) != WindowKey(batch[k])
    ensures var t, key := EnqueueState(s, now, batch, limits).0, WindowKey(batch[k]).value;
            key in t.throttle && t.throttle[key] == (batch[k].id, now + batch[k].uniqueWindowMs)
  {
    InsertSetsWindow(s, now, batch, s.jobs.Keys, 0, k, WindowKey(batch[k]).value);
  }

  // While the window is open, no batch brings in another job under the key.
  lemma OpenWindowKeepsOthersOut(s: MemState, now: int, batch: seq<Envelope>, limits: Envelope -> bool, key: Bytes, k: nat)
    requires WindowOpen(s, now, key) && k < |batch| && batch[k].id !in s.jobs && WindowKey(batch[k]) == Some(key)
    ensures var r := EnqueueState(s, now, batch, limits); r.1.Some? && r.0.jobs.Keys == s.jobs.Keys
  {
    AcceptedExactly(s, now, batch, limits);
    assert Holder(s, now, batch[k]).Some?;
    assert !Welcome(s, now, batch[k]);
    RefusedAddsNothing(s, now, batch, limits);
  }

  lemma EnqueueKeepsWindow(s: MemState, now: int, batch: seq<Envelope>, limits: Envelope -> bool, key: Bytes)
    requires WindowOpen(s, now, key)
    ensures var t := EnqueueState(s, now, batch, limits).0; key in t.throttle && t.throttle[key] == s.throttle[key]
  {
    if EnqueueState(s, now, batch, limits).1.Some? {
      RefusedAddsNothing(s, now, batch, limits);
    } else {
      forall k | 0 <= k < |batch| && batch[k].id !in s.jobs
        ensures WindowKey(batch[k]) != Some(key)
      {
        if WindowKey(batch[k]) == Some(key) {
          OpenWindowKeepsOthersOut(s, now, batch, limits, key, k);
        }
      }
      InsertLeavesWindow(s, now, batch, s.jobs.Keys, 0, key);
    }
  }

  lemma AckKeepsWindow(s: MemState, now: int, l: LeaseRef, outcome: AckOutcome, delayMs: int, actual: Option<nat>)
    ensures AckState(s, now, l, outcome, delayMs, actual).0.throttle == s.throttle
  {
    if Current(s, l) {
      var t := ReconcileRate(s, s.jobs[l.jobId], now, actual);
      assert forall j, e :: Effected(t, j, e).throttle == s.throttle;
    }
  }

  lemma {:induction false} SweepKeepsWindow(k: Sweep, s: MemState, now: int, ids: seq<string>)
    ensures SweepAll(k, s, now, ids).throttle == s.throttle
  {
    if ids != [] {
      SweepKeepsWindow(k, s, now, ids[..|ids| - 1]);
    }
  }

  lemma {:induction false} RenewKeepsWindow(s: MemState, now: int, leases: seq<LeaseRef>, leaseMs: int)
    ensures RenewAll(s, now, leases, leaseMs).throttle == s.throttle
  {
    if leases != [] {
      RenewKeepsWindow(s, now, leases[..|leases| - 1], leaseMs);
    }
  }

  lemma WindowStep(s: MemState, now: int, op: Op, t: MemState, key: Bytes)
    requires Step(s, now, op, t) && WindowOpen(s, now, key)
    ensures key in t.throttle && t.throttle[key] == s.throttle[key]
  {
    match op
    case EnqueueOp(batch, limits) => EnqueueKeepsWindow(s, now, batch, limits, key);
    case AdmitOp(req, adm) =>
    case AckOp(l, outcome, delayMs, actual) => AckKeepsWindow(s, now, l, outcome, delayMs, actual);
    case AckResultOp(l, actual, result) =>
    case RenewOp(leases, leaseMs) => RenewKeepsWindow(s, now, leases, leaseMs);
    case SweepOp(k, limit, out) => SweepKeepsWindow(k, s, now, out);
    case _ =>
  }

  // Whatever happens in between, also to the job that opened it, a window stays open until its time is over,
  // and until then no batch brings in another job under its key.
  lemma {:induction false} WindowLasts(r: Run, key: Bytes, i: nat, j: nat)
    requires r.Ok() && ClockRuns(r) && i <= j < |r.ops| && key in r.states[i].throttle && r.times[j] < r.states[i].throttle[key].1
    ensures key in r.states[j].throttle && r.states[j].throttle[key] == r.states[i].throttle[key]
    ensures r.ops[j].EnqueueOp? && (exists k :: 0 <= k < |r.ops[j].batch| && r.ops[j].batch[k].id !in r.states[j].jobs
                                                && WindowKey(r.ops[j].batch[k]) == Some(key)) ==>
              r.states[j + 1].jobs.Keys == r.states[j].jobs.Keys
    decreases j
  {
    if i < j {
      WindowLasts(r, key, i, j - 1);
      assert r.StepAt(j - 1);
      WindowStep(r.states[j - 1], r.times[j - 1], r.ops[j - 1], r.states[j], key);
    }
    assert r.StepAt(j);
    if r.ops[j].EnqueueOp? {
      if k :| 0 <= k < |r.ops[j].batch| && r.ops[j].batch[k].id !in r.states[j].jobs && WindowKey(r.ops[j].batch[k]) == Some(key) {
        OpenWindowKeepsOthersOut(r.states[j], r.times[j], r.ops[j].batch, r.ops[j].limits, key, k);
      }
    }
  }
}
