// What holds over every run of the store: uniqueness, fencing and the token bound
// (go/headgatetest/memstore*.go).
module StoreRuns {
  import opened Common
  import opened StoreModel
  import opened StoreEnqueue
  import opened Admission
  import opened AdmissionCall
  import opened StoreOps

  // states[i] --ops[i] at times[i]--> states[i + 1]
  datatype Run = Run(states: seq<MemState>, times: seq<int>, ops: seq<Op>) {
    ghost predicate Ok() {
      && |states| == |ops| + 1 && |times| == |ops| && RecordsOk(states[0])
      && forall i :: 0 <= i < |ops| ==> StepAt(i)
    }

    ghost predicate StepAt(i: nat)
      requires |states| == |ops| + 1 && |times| == |ops| && i < |ops|
    {
      Step(states[i], times[i], ops[i], states[i + 1])
    }
  }

  // The clock never goes back.
  ghost predicate ClockRuns(r: Run) {
    forall i, j :: 0 <= i < j < |r.times| ==> r.times[i] <= r.times[j]
  }

  lemma {:induction false} RecordsStayOk(r: Run, i: nat)
    requires r.Ok() && i <= |r.ops|
    ensures RecordsOk(r.states[i])
  {
    if i > 0 {
      RecordsStayOk(r, i - 1);
      assert r.StepAt(i - 1);
      StepKeepsRecords(r.states[i - 1], r.times[i - 1], r.ops[i - 1], r.states[i]);
    }
  }

  // ---- Uniqueness ----

  lemma EvictKeepsUnique(s: MemState, id: string)
    requires UniqueOk(s) && id in s.jobs && Terminal(s.jobs[id].state)
    ensures UniqueOk(s.(jobs := s.jobs - {id}))
  {
  }

  lemma SweepOneKeepsUnique(k: Sweep, s: MemState, now: int, x: string)
    requires Valid(s) && x in s.jobs && DueFor(k, s.jobs[x], now)
    ensures UniqueOk(SweepOne(k, s, now, x))
  {
    match k
    case Reclaim =>
      var rec := ReclaimRecord(s.conf, now, s.jobs[x]);
      WithRecordKeepsValid(s, x, rec);
      assert UniqueOk(WithRecord(s, rec));
    case Promote => SameUse(s, SweepOne(k, s, now, x));
    case Evict => EvictKeepsUnique(s, x);
  }

  lemma {:induction false} SweepKeepsUnique(k: Sweep, s: MemState, now: int, ids: seq<string>)
    requires Valid(s) && Distinct(ids) && forall x :: x in ids ==> x in s.jobs && DueFor(k, s.jobs[x], now)
    ensures UniqueOk(SweepAll(k, s, now, ids))
    decreases |ids|
  {
    if ids != [] {
      var init, x := ids[..|ids| - 1], ids[|ids| - 1];
      SweepKeepsUnique(k, s, now, init);
      SweepEvolves(k, s, now, init, x);
      SweepOneKeepsUnique(k, SweepAll(k, s, now, init), now, x);
    }
  }

  lemma {:induction false} RenewKeepsUnique(s: MemState, now: int, leases: seq<LeaseRef>, leaseMs: int)
    requires UniqueOk(s)
    ensures UniqueOk(RenewAll(s, now, leases, leaseMs))
  {
    if leases != [] {
      RenewKeepsUnique(s, now, leases[..|leases| - 1], leaseMs);
      var t := RenewAll(s, now, leases[..|leases| - 1], leaseMs);
      SameUse(t, Renewed(t, now, leases[|leases| - 1], leaseMs));
    }
  }

  lemma AdmitKeepsUnique(s: MemState, now: int, req: AdmitRequest, adm: Adm, t: MemState)
    requires UniqueOk(s) && AdmInv(s, req, now, adm) && t.jobs == adm.jobs && t.unique == s.unique
    ensures UniqueOk(t)
  {
    forall id | id in s.jobs
      ensures t.jobs[id].env == s.jobs[id].env && Terminal(t.jobs[id].state) == Terminal(s.jobs[id].state)
    {
      if ClaimedIn(adm.claims, id) {
        ClaimedWasAvailable(s, now, req, adm.claims, id);
      }
    }
    SameUse(s, t);
  }

  lemma AdmitStepKeepsUnique(s: MemState, now: int, req: AdmitRequest, adm: Adm, t: MemState)
    requires UniqueOk(s) && Step(s, now, AdmitOp(req, adm), t)
    ensures UniqueOk(t)
  {
    AdmitStep(s, now, req, adm, t);
    if req.leaseMs > 0 {
      AdmitKeepsUnique(s, now, req, adm, t);
    }
  }

  lemma ClaimedWasAvailable(s: MemState, now: int, req: AdmitRequest, claims: seq<Claim>, id: string)
    requires ClaimsOk(s, req, now, claims) && ClaimedIn(claims, id)
    ensures id in s.jobs && s.jobs[id].state == Available
  {
  }

  // The batch does not repeat a lifecycle key within itself.
  ghost predicate Restrained(s: MemState, now: int, op: Op) {
    op.EnqueueOp? && EnqueueState(s, now, op.batch, op.limits).1.None? ==> DistinctKeys(op.batch, s.jobs.Keys)
  }

  lemma HeldKeepsUnique(s: MemState, l: LeaseRef, j: JobRec)
    requires UniqueOk(s) && Current(s, l) && j.env == s.jobs[l.jobId].env && j.state == Running
    ensures UniqueOk(s.(jobs := s.jobs[l.jobId := j]))
  {
    SameUse(s, s.(jobs := s.jobs[l.jobId := j]));
  }

  lemma WriteKeepsUnique(s: MemState, now: int, op: Op, t: MemState)
    requires UniqueOk(s) && Step(s, now, op, t) && (op.CheckpointOp? || op.OutputOp? || op.ProgressOp?)
    ensures UniqueOk(t)
  {
    if Current(s, op.lease) {
      HeldKeepsUnique(s, op.lease, t.jobs[op.lease.jobId]);
    }
  }

  lemma EnqueueStepKeepsUnique(s: MemState, now: int, batch: seq<Envelope>, limits: Envelope -> bool, t: MemState)
    requires Valid(s) && Step(s, now, EnqueueOp(batch, limits), t)
    ensures UniqueOk(t) <==> Restrained(s, now, EnqueueOp(batch, limits))
  {
    EnqueueKeepsValid(s, now, batch, limits);
    StepKeepsRecords(s, now, EnqueueOp(batch, limits), t);
  }

  lemma StepKeepsUnique(s: MemState, now: int, op: Op, t: MemState)
    requires Valid(s) && Step(s, now, op, t)
    ensures UniqueOk(t) <==> Restrained(s, now, op)
  {
    match op
    case EnqueueOp(batch, limits) => EnqueueStepKeepsUnique(s, now, batch, limits, t);
    case AdmitOp(req, adm) => AdmitStepKeepsUnique(s, now, req, adm, t);
    case AckOp(l, outcome, delayMs, actual) => AckKeepsValid(s, now, l, outcome, delayMs, actual);
    case AckResultOp(l, actual, result) => AckResultKeepsValid(s, now, l, actual, result);
    case RenewOp(leases, leaseMs) => RenewKeepsUnique(s, now, leases, leaseMs);
    case SweepOp(k, limit, out) => SweepKeepsUnique(k, s, now, out);
    case LimitOp(_, _, _, _) =>
    case DutyOp(_, _, _) =>
    case ReleaseDutyOp(_, _) =>
    case PauseOp(_, _) =>
    case _ => WriteKeepsUnique(s, now, op, t);
  }

  // Index and records agree in every state exactly as long as no accepted batch repeats a key.
  lemma {:induction false} UniquenessOverRuns(r: Run, n: nat)
    requires r.Ok() && Valid(r.states[0]) && n <= |r.ops|
    ensures (forall i :: 0 <= i <= n ==> Valid(r.states[i])) <==>
            (forall i :: 0 <= i < n ==> Restrained(r.states[i], r.times[i], r.ops[i]))
  {
    if n > 0 {
      UniquenessOverRuns(r, n - 1);
      RecordsStayOk(r, n);
      if Valid(r.states[n - 1]) {
        assert r.StepAt(n - 1);
        StepKeepsUnique(r.states[n - 1], r.times[n - 1], r.ops[n - 1], r.states[n]);
      }
    }
  }

  // ---- Fencing ----

  // The claim has been acknowledged, reclaimed or succeeded by another.
  ghost predicate Retired(s: MemState, l: LeaseRef) {
    l.jobId in s.jobs && (s.jobs[l.jobId].fence > l.fence || (s.jobs[l.jobId].fence == l.fence && s.jobs[l.jobId].state != Running))
  }

  lemma RetiredStays(s: MemState, now: int, op: Op, t: MemState, l: LeaseRef)
    requires RecordsOk(s) && Step(s, now, op, t) && Retired(s, l) && l.jobId in t.jobs
    ensures Retired(t, l) && !Current(t, l)
  {
    StepEvolves(s, now, op, t, l.jobId);
  }

  ghost predicate StoredFrom(r: Run, id: string, i: nat, j: nat)
    requires j < |r.states|
  {
    forall k :: i <= k <= j ==> id in r.states[k].jobs
  }

  // For as long as the record stays stored, whatever lease ids are handed out.
  lemma {:induction false} RetiredForever(r: Run, i: nat, j: nat, l: LeaseRef)
    requires r.Ok() && i <= j <= |r.ops| && Retired(r.states[i], l) && StoredFrom(r, l.jobId, i, j)
    ensures Retired(r.states[j], l) && !Current(r.states[j], l)
    decreases j
  {
    if i < j {
      RetiredForever(r, i, j - 1, l);
      RecordsStayOk(r, j - 1);
      assert r.StepAt(j - 1);
      RetiredStays(r.states[j - 1], r.times[j - 1], r.ops[j - 1], r.states[j], l);
    }
  }

  // An acknowledgement or write that carries this lease.
  ghost predicate Carries(op: Op, l: LeaseRef) {
    match op
    case AckOp(lease, _, _, _) => lease == l
    case AckResultOp(lease, _, _) => lease == l
    case CheckpointOp(lease, _) => lease == l
    case OutputOp(lease, _) => lease == l
    case ProgressOp(lease, _) => lease == l
    case _ => false
  }

  lemma {:induction false} RenewalLost(s: MemState, leases: seq<LeaseRef>, l: LeaseRef)
    requires l in leases
    ensures l.jobId in LostOf(s, leases) || Current(s, l)
  {
    if l != leases[|leases| - 1] {
      RenewalLost(s, leases[..|leases| - 1], l);
    }
  }

  // Nothing that carries the lease of a finished claim has any effect.
  lemma LateWritesAreRefused(r: Run, i: nat, j: nat, l: LeaseRef)
    requires r.Ok() && i <= j < |r.ops| && Retired(r.states[i], l) && StoredFrom(r, l.jobId, i, j)
    ensures Carries(r.ops[j], l) ==> r.states[j + 1] == r.states[j]
    ensures r.ops[j].AckOp? && r.ops[j].lease == l ==>
              !AckState(r.states[j], r.times[j], l, r.ops[j].outcome, r.ops[j].delayMs, r.ops[j].actual).1
    ensures r.ops[j].RenewOp? && l in r.ops[j].leases ==> l.jobId in LostOf(r.states[j], r.ops[j].leases)
  {
    RetiredForever(r, i, j, l);
    assert r.StepAt(j);
    if r.ops[j].RenewOp? && l in r.ops[j].leases {
      RenewalLost(r.states[j], r.ops[j].leases, l);
    }
  }

  // How a claim ends.
  lemma AckRetires(s: MemState, now: int, l: LeaseRef, outcome: AckOutcome, delayMs: int, actual: Option<nat>)
    requires RecordsOk(s)
    ensures var r := AckState(s, now, l, outcome, delayMs, actual);
            && (r.1 ==> Current(s, l) && !Current(r.0, l) && (l.jobId in r.0.jobs ==> Retired(r.0, l)))
            && (!r.1 && Current(s, l) ==> Current(r.0, l))
  {
    if Current(s, l) {
      assert RecordOk(l.jobId, s.jobs[l.jobId]);
      AckAt(s, now, l, outcome, delayMs, actual, l.jobId);
      var j := if actual.Some? then s.jobs[l.jobId].(rateCharge := 0) else s.jobs[l.jobId];
      AckRecordOk(s.conf, l.jobId, j, now, outcome, delayMs);
    }
  }

  lemma ReclaimRetires(s: MemState, now: int, limit: int, out: seq<string>, l: LeaseRef)
    requires RecordsOk(s) && Swept(Reclaim, s, now, limit, out) && l.jobId in out && Current(s, l)
    ensures Retired(SweepAll(Reclaim, s, now, out), l)
  {
    SweptAt(Reclaim, s, now, out, l.jobId);
  }

  // What a sweep makes of a record it takes.
  function SweptTo(k: Sweep, conf: Settings, now: int, j: JobRec): Option<JobRec> {
    match k
    case Reclaim => Some(ReclaimRecord(conf, now, j))
    case Promote => Some(j.(state := Available))
    case Evict => None
  }

  // Each swept record is treated once.
  lemma {:induction false} SweptAt(k: Sweep, s: MemState, now: int, out: seq<string>, id: string)
    requires RecordsOk(s) && Distinct(out) && id in out
    requires forall x :: x in out ==> x in s.jobs && DueFor(k, s.jobs[x], now)
    ensures At(SweepAll(k, s, now, out), id) == SweptTo(k, s.conf, now, s.jobs[id])
    decreases |out|
  {
    var init, x := out[..|out| - 1], out[|out| - 1];
    var t := SweepAll(k, s, now, init);
    SweepEvolves(k, s, now, init, x);
    SweepLeaves(k, s, now, init);
    assert RecordOk(x, s.jobs[x]);
    if x != id {
      SweptAt(k, s, now, init, id);
      SweepEvolves(k, s, now, init, id);
      SweepOneEvolves(k, t, now, x, id);
    }
  }

  lemma {:induction false} FencesNeverFall(r: Run, id: string, i: nat, j: nat)
    requires r.Ok() && i <= j <= |r.ops| && StoredFrom(r, id, i, j)
    ensures r.states[i].jobs[id].fence <= r.states[j].jobs[id].fence
    decreases j
  {
    if i < j {
      FencesNeverFall(r, id, i, j - 1);
      RecordsStayOk(r, j - 1);
      assert r.StepAt(j - 1);
      StepEvolves(r.states[j - 1], r.times[j - 1], r.ops[j - 1], r.states[j], id);
    }
  }

  // Two claims of one stored record never carry the same fence.
  lemma ClaimsHaveRisingFences(r: Run, i: nat, j: nat, k: nat, l: nat)
    requires r.Ok() && i < j < |r.ops| && r.ops[i].AdmitOp? && r.ops[j].AdmitOp?
    requires k < |r.ops[i].adm.claims| && l < |r.ops[j].adm.claims|
    requires r.ops[i].adm.claims[k].env.id == r.ops[j].adm.claims[l].env.id
    requires StoredFrom(r, r.ops[i].adm.claims[k].env.id, i, j)
    ensures r.ops[i].adm.claims[k].fence < r.ops[j].adm.claims[l].fence
  {
    var id := r.ops[i].adm.claims[k].env.id;
    assert r.StepAt(i);
    ClaimRaisesFence(r.states[i], r.times[i], r.ops[i].req, r.ops[i].adm, r.states[i + 1], k);
    assert r.StepAt(j);
    ClaimRaisesFence(r.states[j], r.times[j], r.ops[j].req, r.ops[j].adm, r.states[j + 1], l);
    FencesNeverFall(r, id, i + 1, j);
  }

  lemma ClaimRaisesFence(s: MemState, now: int, req: AdmitRequest, adm: Adm, t: MemState, k: nat)
    requires Step(s, now, AdmitOp(req, adm), t) && k < |adm.claims|
    ensures var id, fence := adm.claims[k].env.id, adm.claims[k].fence;
            && id in s.jobs && fence == s.jobs[id].fence + 1
            && Current(t, LeaseRef(id, req.leaseId, fence))
  {
  }

  // Every attempt and every crash on record was a claim of its own.
  ghost predicate Accounted(j: JobRec) {
    j.env.attempt + j.env.crashAttempt + (if j.state == Running then 1 else 0) <= j.fence
  }

  lemma StepKeepsAccount(s: MemState, now: int, op: Op, t: MemState, id: string)
    requires RecordsOk(s) && Step(s, now, op, t) && id in s.jobs && id in t.jobs && Accounted(s.jobs[id])
    ensures Accounted(t.jobs[id])
    ensures s.jobs[id].env.attempt <= t.jobs[id].env.attempt && s.jobs[id].env.crashAttempt <= t.jobs[id].env.crashAttempt
  {
    StepEvolves(s, now, op, t, id);
  }

  lemma {:induction false} ClaimsCoverTheCounters(r: Run, id: string, i: nat, j: nat)
    requires r.Ok() && i <= j <= |r.ops| && StoredFrom(r, id, i, j) && Accounted(r.states[i].jobs[id])
    ensures Accounted(r.states[j].jobs[id])
    decreases j
  {
    if i < j {
      ClaimsCoverTheCounters(r, id, i, j - 1);
      RecordsStayOk(r, j - 1);
      assert r.StepAt(j - 1);
      StepKeepsAccount(r.states[j - 1], r.times[j - 1], r.ops[j - 1], r.states[j], id);
    }
  }

  // Even across deletion and re-enqueueing, a lost claim returns only by an admission with its lease id.
  lemma LostClaimsReturnOnlyByAdmission(s: MemState, now: int, op: Op, t: MemState, l: LeaseRef)
    requires RecordsOk(s) && Step(s, now, op, t) && !Current(s, l) && Current(t, l)
    ensures op.AdmitOp? && op.req.leaseId == l.leaseId && l.jobId in s.jobs && s.jobs[l.jobId].fence + 1 == l.fence
  {
    StepEvolves(s, now, op, t, l.jobId);
  }

  // Fences belong to the stored record. A claim is granted, its acknowledgement deletes the record, and
  // the id is enqueued anew; an admission that reuses the lease id brings the dead claim back to life
  // exactly when it was the first claim of its record.
  lemma DeletionRestartsFences(r: Run, k: nat, m: nat, l: LeaseRef)
    requires r.Ok() && |r.ops| == 4 && r.ops[0].AdmitOp? && r.ops[2].EnqueueOp? && r.ops[3].AdmitOp?
    requires k < |r.ops[0].adm.claims| && m < |r.ops[3].adm.claims|
    requires l == LeaseRef(r.ops[0].adm.claims[k].env.id, r.ops[0].req.leaseId, r.ops[0].adm.claims[k].fence)
    requires (r.ops[1].AckOp? || r.ops[1].AckResultOp?) && r.ops[1].lease == l && l.jobId !in r.states[2].jobs
    requires r.ops[3].adm.claims[m].env.id == l.jobId && r.ops[3].req.leaseId == l.leaseId
    ensures Current(r.states[1], l) && !Current(r.states[2], l)
    ensures Current(r.states[4], l) <==> l.fence == 1
  {
    assert r.StepAt(0) && r.StepAt(2) && r.StepAt(3);
    ClaimRaisesFence(r.states[0], r.times[0], r.ops[0].req, r.ops[0].adm, r.states[1], k);
    RecordsStayOk(r, 2);
    StepEvolves(r.states[2], r.times[2], r.ops[2], r.states[3], l.jobId);
    ClaimRaisesFence(r.states[3], r.times[3], r.ops[3].req, r.ops[3].adm, r.states[4], m);
  }

  // ---- The token bucket ----

  // What the step charges to a class, corrections of earlier charges included.
  function NetCharge(s: MemState, op: Op, cls: string): int {
    match op
    case AdmitOp(req, adm) => if req.leaseMs > 0 then Charged(s.rate, adm.claims, cls) else 0
    case AckOp(l, _, _, actual) => Correction(s, l, actual, cls)
    case AckResultOp(l, actual, _) => Correction(s, l, actual, cls)
    case _ => 0
  }

  function Correction(s: MemState, l: LeaseRef, actual: Option<nat>, cls: string): int {
    if Current(s, l) && actual.Some? && s.jobs[l.jobId].rateCharge > 0 && s.jobs[l.jobId].env.rateClass == cls && cls in s.rate
    then actual.value - s.jobs[l.jobId].rateCharge else 0
  }

  function NetUpTo(r: Run, cls: string, i: nat): int
    requires i <= |r.ops| && i <= |r.states|
  {
    if i == 0 then 0 else NetUpTo(r, cls, i - 1) + NetCharge(r.states[i - 1], r.ops[i - 1], cls)
  }

  // Since the class was configured at time c, what was charged and what is left never exceed the
  // initial burst plus what the window let in.
  ghost predicate Bounded(b: Bucket, net: int, c: int) {
    && b.limit > 0 && b.window > 0 && b.tokens <= b.burst && c <= b.refilled
    && b.window * (net + b.tokens) <= b.window * b.burst + b.limit * (b.refilled - c)
  }

  ghost predicate BoundAfter(b: Bucket, net: int, c: int, now: int, was: Bucket) {
    Bounded(b, net, c) && SameClass(was, b) && b.refilled <= now
  }

  ghost predicate SameClass(a: Bucket, b: Bucket) {
    a.limit == b.limit && a.window == b.window && a.burst == b.burst
  }

  lemma GainIsEarned(b: Bucket, now: int)
    requires b.limit > 0 && b.window > 0 && now >= b.refilled
    ensures b.window * Gained(b, now) <= b.limit * (now - b.refilled) && Gained(b, now) >= 0
  {
    if now > b.refilled {
      WholeTokens((now - b.refilled) * b.limit, b.window);
      MulLe(b.limit, 0, now - b.refilled);
    }
  }

  lemma WholeTokens(earned: int, window: int)
    requires window > 0
    ensures window * (earned / window) <= earned && (earned >= 0 ==> earned / window >= 0)
  {
    assert earned == window * (earned / window) + earned % window;
  }

  // A bucket whose clock moves to now and whose tokens rise by at most the gain, beyond what is refunded.
  lemma BoundMoves(b: Bucket, net: int, c: int, now: int, b': Bucket, net': int)
    requires Bounded(b, net, c) && SameClass(b, b') && b'.refilled == now >= b.refilled && b'.tokens <= b'.burst
    requires net' + b'.tokens <= net + b.tokens + Gained(b, now)
    ensures Bounded(b', net', c)
  {
    GainIsEarned(b, now);
    MulLe(b.window, net' + b'.tokens, net + b.tokens + Gained(b, now));
    assert b.window * (net + b.tokens + Gained(b, now)) == b.window * (net + b.tokens) + b.window * Gained(b, now);
    assert b.limit * (now - c) == b.limit * (b.refilled - c) + b.limit * (now - b.refilled);
  }

  lemma RefillKeepsBound(b: Bucket, net: int, c: int, now: int)
    requires Bounded(b, net, c) && now >= b.refilled
    ensures Bounded(Refill(b, now), net, c) && SameClass(b, Refill(b, now)) && b.refilled <= Refill(b, now).refilled <= now
  {
    if Gained(b, now) > 0 {
      BoundMoves(b, net, c, now, Refill(b, now), net);
    }
  }

  lemma SpendKeepsBound(b: Bucket, net: int, c: int, spent: int)
    requires Bounded(b, net, c) && spent >= 0
    ensures Bounded(b.(tokens := b.tokens - spent), net + spent, c)
  {
  }

  lemma ReconcileKeepsBound(b: Bucket, net: int, c: int, now: int, charge: int, actual: nat)
    requires Bounded(b, net, c) && now >= b.refilled
    ensures Bounded(Reconcile(b, now, charge, actual), net + actual - charge, c)
  {
    BoundMoves(b, net, c, now, Reconcile(b, now, charge, actual), net + actual - charge);
  }

  // Topped up or not, a bucket gives what is charged and never goes below zero by it.
  ghost predicate Gives(was: Bucket, now: int, b: Bucket, charge: int) {
    var full := b.(tokens := b.tokens + charge);
    (full == Refill(was, now) || full == was) && charge >= 0 && (charge > 0 ==> b.tokens >= 0)
  }

  lemma GivingKeepsBound(was: Bucket, now: int, b: Bucket, charge: int, net: int, total: int, c: int)
    requires Bounded(was, net, c) && now >= was.refilled && Gives(was, now, b, charge) && total == net + charge
    ensures BoundAfter(b, total, c, now, was)
  {
    RefillKeepsBound(was, net, c, now);
    SpendKeepsBound(b.(tokens := b.tokens + charge), net, c, charge);
  }

  lemma AdmitGives(s: MemState, now: int, adm: Adm, cls: string)
    requires RatesOk(s, now, adm) && cls in s.rate
    ensures cls in Spend(adm.rate, adm.spent)
    ensures Gives(s.rate[cls], now, Spend(adm.rate, adm.spent)[cls], Charged(s.rate, adm.claims, cls))
  {
  }

  lemma AdmitStepGives(s: MemState, now: int, op: Op, t: MemState, cls: string)
    requires op.AdmitOp? && Step(s, now, op, t) && cls in s.rate
    ensures cls in t.rate && Gives(s.rate[cls], now, t.rate[cls], NetCharge(s, op, cls))
  {
    AdmitStep(s, now, op.req, op.adm, t);
    if op.req.leaseMs > 0 {
      AdmitGives(s, now, op.adm, cls);
    }
  }

  // The bucket of a class after an acknowledgement.
  function Corrected(s: MemState, now: int, l: LeaseRef, actual: Option<nat>, cls: string): Bucket
    requires cls in s.rate
  {
    if Current(s, l) && actual.Some? && s.jobs[l.jobId].rateCharge > 0 && s.jobs[l.jobId].env.rateClass == cls
    then Reconcile(s.rate[cls], now, s.jobs[l.jobId].rateCharge, actual.value) else s.rate[cls]
  }

  lemma AckRate(s: MemState, now: int, l: LeaseRef, outcome: AckOutcome, delayMs: int, actual: Option<nat>, cls: string)
    requires cls in s.rate
    ensures var t := AckState(s, now, l, outcome, delayMs, actual).0;
            cls in t.rate && t.rate[cls] == Corrected(s, now, l, actual, cls)
  {
  }

  lemma AckResultRate(s: MemState, now: int, l: LeaseRef, actual: Option<nat>, result: JobValue, cls: string)
    requires cls in s.rate
    ensures var t := AckResultState(s, now, l, actual, result).0;
            cls in t.rate && t.rate[cls] == Corrected(s, now, l, actual, cls)
  {
  }

  lemma CorrectionKeepsBound(s: MemState, now: int, l: LeaseRef, actual: Option<nat>, cls: string, net: int, c: int)
    requires cls in s.rate && Bounded(s.rate[cls], net, c) && now >= s.rate[cls].refilled
    ensures var b := Corrected(s, now, l, actual, cls);
            Bounded(b, net + Correction(s, l, actual, cls), c) && SameClass(s.rate[cls], b) && b.refilled <= now
  {
    if Correction(s, l, actual, cls) != 0 || Corrected(s, now, l, actual, cls) != s.rate[cls] {
      ReconcileKeepsBound(s.rate[cls], net, c, now, s.jobs[l.jobId].rateCharge, actual.value);
    }
  }

  // Operations on the records or the switches alone.
  predicate Elsewhere(op: Op) {
    op.EnqueueOp? || op.RenewOp? || op.CheckpointOp? || op.OutputOp? || op.ProgressOp? || op.SweepOp? || op.PauseOp?
  }

  ghost predicate Untouched(s: MemState, t: MemState) {
    t.rate == s.rate && t.duties == s.duties && t.conf == s.conf && s.quarantine <= t.quarantine
  }

  lemma {:induction false} RefusalLeaves(s: MemState, now: int, batch: seq<Envelope>, i: nat)
    requires i <= |batch| && RefusedFrom(s, now, batch, i).Some?
    ensures Untouched(s, RefusedFrom(s, now, batch, i).value.1)
    decreases |batch| - i
  {
    if i + 1 <= |batch| && RefusedFrom(s, now, batch, i + 1).Some? {
      RefusalLeaves(s, now, batch, i + 1);
    }
  }

  lemma {:induction false} InsertLeaves(s: MemState, now: int, batch: seq<Envelope>, known: set<string>, i: nat)
    requires i <= |batch|
    ensures Untouched(s, InsertFrom(s, now, batch, known, i))
    decreases |batch| - i
  {
    if i < |batch| {
      InsertLeaves(if batch[i].id in known then s else Insert(s, now, batch[i]), now, batch, known, i + 1);
    }
  }

  lemma {:induction false} RenewLeaves(s: MemState, now: int, leases: seq<LeaseRef>, leaseMs: int)
    ensures Untouched(s, RenewAll(s, now, leases, leaseMs))
  {
    if leases != [] {
      RenewLeaves(s, now, leases[..|leases| - 1], leaseMs);
    }
  }

  lemma {:induction false} SweepLeaves(k: Sweep, s: MemState, now: int, ids: seq<string>)
    ensures Untouched(s, SweepAll(k, s, now, ids))
  {
    if ids != [] {
      SweepLeaves(k, s, now, ids[..|ids| - 1]);
    }
  }

  lemma EnqueueLeaves(s: MemState, now: int, batch: seq<Envelope>, limits: Envelope -> bool)
    ensures Untouched(s, EnqueueState(s, now, batch, limits).0)
  {
    if RefusedFrom(s, now, batch, 0).Some? {
      RefusalLeaves(s, now, batch, 0);
    } else {
      InsertLeaves(s, now, batch, s.jobs.Keys, 0);
    }
  }

  lemma ElsewhereLeaves(s: MemState, now: int, op: Op, t: MemState)
    requires Step(s, now, op, t) && Elsewhere(op)
    ensures Untouched(s, t)
  {
    match op
    case EnqueueOp(batch, limits) => EnqueueLeaves(s, now, batch, limits);
    case RenewOp(leases, leaseMs) => RenewLeaves(s, now, leases, leaseMs);
    case SweepOp(k, limit, out) => SweepLeaves(k, s, now, out);
    case _ =>
  }

  // The bucket after a step that admits nothing.
  function RateAfter(s: MemState, now: int, op: Op, cls: string): Bucket
    requires cls in s.rate
  {
    match op
    case AckOp(l, _, _, actual) => Corrected(s, now, l, actual, cls)
    case AckResultOp(l, actual, _) => Corrected(s, now, l, actual, cls)
    case _ => s.rate[cls]
  }

  lemma RateStep(s: MemState, now: int, op: Op, t: MemState, cls: string)
    requires Step(s, now, op, t) && cls in s.rate && !op.AdmitOp? && !(op.LimitOp? && op.cls == cls)
    ensures cls in t.rate && t.rate[cls] == RateAfter(s, now, op, cls)
  {
    match op
    case AckOp(l, outcome, delayMs, actual) => AckRate(s, now, l, outcome, delayMs, actual, cls);
    case AckResultOp(l, actual, result) => AckResultRate(s, now, l, actual, result, cls);
    case LimitOp(_, _, _, _) =>
    case DutyOp(_, _, _) =>
    case ReleaseDutyOp(_, _) =>
    case _ => ElsewhereLeaves(s, now, op, t);
  }

  lemma RateAfterBound(s: MemState, now: int, op: Op, cls: string, net: int, total: int, c: int)
    requires cls in s.rate && !op.AdmitOp? && Bounded(s.rate[cls], net, c) && now >= s.rate[cls].refilled
    requires total == net + NetCharge(s, op, cls)
    ensures BoundAfter(RateAfter(s, now, op, cls), total, c, now, s.rate[cls])
  {
    match op
    case AckOp(l, _, _, actual) => CorrectionKeepsBound(s, now, l, actual, cls, net, c);
    case AckResultOp(l, actual, _) => CorrectionKeepsBound(s, now, l, actual, cls, net, c);
    case _ =>
  }

  lemma StepKeepsBound(s: MemState, now: int, op: Op, t: MemState, cls: string, net: int, total: int, c: int)
    requires Step(s, now, op, t) && cls in s.rate && Bounded(s.rate[cls], net, c) && now >= s.rate[cls].refilled
    requires !(op.LimitOp? && op.cls == cls) && total == net + NetCharge(s, op, cls)
    ensures cls in t.rate && BoundAfter(t.rate[cls], total, c, now, s.rate[cls])
    ensures op.AdmitOp? && NetCharge(s, op, cls) > 0 ==> t.rate[cls].tokens >= 0
  {
    if op.AdmitOp? {
      AdmitStepGives(s, now, op, t, cls);
      GivingKeepsBound(s.rate[cls], now, t.rate[cls], NetCharge(s, op, cls), net, total, c);
    } else {
      RateStep(s, now, op, t, cls);
      RateAfterBound(s, now, op, cls, net, total, c);
    }
  }

  // A class configured at time c, and not again.
  ghost predicate ConfiguredOnce(r: Run, cls: string, c: int) {
    && r.Ok() && cls in r.states[0].rate
    && (var b := r.states[0].rate[cls]; b == Bucket(b.burst, b.burst, b.limit, b.window, c) && b.limit > 0 && b.window > 0)
    && (forall i :: 0 <= i < |r.ops| ==> r.times[i] >= c && !(r.ops[i].LimitOp? && r.ops[i].cls == cls))
    && ClockRuns(r)
  }

  lemma {:induction false} TokensOverRuns(r: Run, cls: string, c: int, i: nat)
    requires ConfiguredOnce(r, cls, c) && i <= |r.ops|
    ensures cls in r.states[i].rate && Bounded(r.states[i].rate[cls], NetUpTo(r, cls, i), c)
    ensures SameClass(r.states[0].rate[cls], r.states[i].rate[cls])
    ensures r.states[i].rate[cls].refilled <= (if i == 0 then c else r.times[i - 1])
  {
    if i > 0 {
      TokensOverRuns(r, cls, c, i - 1);
      assert r.StepAt(i - 1);
      StepKeepsBound(r.states[i - 1], r.times[i - 1], r.ops[i - 1], r.states[i], cls, NetUpTo(r, cls, i - 1), NetUpTo(r, cls, i), c);
    }
  }

  lemma DivBound(w: int, x: int, y: int)
    requires w > 0 && w * x <= y
    ensures x <= y / w
  {
    assert y == w * (y / w) + y % w;
    assert w * (y / w + 1) == w * (y / w) + w;
    if x > y / w {
      MulLe(w, y / w + 1, x);
    }
  }

  // The burst, plus the share of the limit that has come in since c.
  function Allowance(b: Bucket, c: int, now: int): int
    requires b.window > 0
  {
    b.burst + b.limit * (now - c) / b.window
  }

  lemma NetIsBounded(b: Bucket, net: int, c: int, now: int, was: Bucket)
    requires BoundAfter(b, net, c, now, was) && b.tokens >= 0
    ensures net <= Allowance(was, c, now)
  {
    MulLe(b.window, net, net + b.tokens);
    MulLe(b.limit, b.refilled - c, now - c);
    assert b.window * (net - b.burst) == b.window * net - b.window * b.burst;
    DivBound(b.window, net - b.burst, b.limit * (now - c));
  }

  lemma TokensAfter(r: Run, cls: string, c: int, i: nat)
    requires ConfiguredOnce(r, cls, c) && i < |r.ops|
    ensures cls in r.states[i + 1].rate
    ensures BoundAfter(r.states[i + 1].rate[cls], NetUpTo(r, cls, i + 1), c, r.times[i], r.states[0].rate[cls])
    ensures r.ops[i].AdmitOp? && NetCharge(r.states[i], r.ops[i], cls) > 0 ==> r.states[i + 1].rate[cls].tokens >= 0
  {
    TokensOverRuns(r, cls, c, i);
    assert r.StepAt(i);
    StepKeepsBound(r.states[i], r.times[i], r.ops[i], r.states[i + 1], cls, NetUpTo(r, cls, i), NetUpTo(r, cls, i + 1), c);
  }

  // Right after an admission that charged the class, the net charge is within the allowance.
  lemma ChargesAreWithinTheLimit(r: Run, cls: string, c: int, i: nat)
    requires ConfiguredOnce(r, cls, c) && i < |r.ops|
    requires r.ops[i].AdmitOp? && NetCharge(r.states[i], r.ops[i], cls) > 0
    ensures NetUpTo(r, cls, i + 1) <= Allowance(r.states[0].rate[cls], c, r.times[i])
  {
    TokensAfter(r, cls, c, i);
    NetIsBounded(r.states[i + 1].rate[cls], NetUpTo(r, cls, i + 1), c, r.times[i], r.states[0].rate[cls]);
  }

  // ---- Duties ----

  lemma AckLeavesDuties(s: MemState, now: int, l: LeaseRef, outcome: AckOutcome, delayMs: int, actual: Option<nat>)
    ensures AckState(s, now, l, outcome, delayMs, actual).0.duties == s.duties
  {
    if Current(s, l) {
      var t := ReconcileRate(s, s.jobs[l.jobId], now, actual);
      assert forall j, e :: Effected(t, j, e).duties == s.duties;
    }
  }

  lemma AckResultLeavesDuties(s: MemState, now: int, l: LeaseRef, actual: Option<nat>, result: JobValue)
    ensures AckResultState(s, now, l, actual, result).0.duties == s.duties
  {
  }

  function DutiesAfter(s: MemState, now: int, op: Op): map<string, Duty> {
    match op
    case DutyOp(name, holder, period) => WithDuty(s, now, name, holder, period).duties
    case ReleaseDutyOp(name, holder) => WithoutDuty(s, name, holder).duties
    case _ => s.duties
  }

  lemma DutiesStep(s: MemState, now: int, op: Op, t: MemState)
    requires Step(s, now, op, t)
    ensures t.duties == DutiesAfter(s, now, op)
  {
    match op
    case AdmitOp(req, adm) => AdmitStep(s, now, req, adm, t);
    case AckOp(l, outcome, delayMs, actual) => AckLeavesDuties(s, now, l, outcome, delayMs, actual);
    case AckResultOp(l, actual, result) => AckResultLeavesDuties(s, now, l, actual, result);
    case LimitOp(_, _, _, _) =>
    case DutyOp(_, _, _) =>
    case ReleaseDutyOp(_, _) =>
    case _ => ElsewhereLeaves(s, now, op, t);
  }

  // A claim of this duty by its holder.
  predicate Extends(op: Op, name: string, holder: string) {
    op.DutyOp? && op.name == name && op.holder == holder && op.period > 0
  }

  // Somebody else's claim of this duty, granted.
  predicate TakesOver(s: MemState, now: int, op: Op, name: string, holder: string) {
    op.DutyOp? && op.name == name && op.holder != holder && DutyGranted(s, now, name, op.holder, op.period)
  }

  lemma DutyStep(s: MemState, now: int, op: Op, name: string, d: Duty)
    requires name in s.duties && s.duties[name] == d
    requires op != ReleaseDutyOp(name, d.holder) && !TakesOver(s, now, op, name, d.holder)
    ensures var after := DutiesAfter(s, now, op);
            name in after && after[name] == if Extends(op, name, d.holder) then Duty(d.holder, DutyUntil(now, op.period)) else d
  {
  }

  // The holder's latest claim before step j, the first being step i, runs until then.
  function TermEnd(r: Run, name: string, holder: string, i: nat, j: nat): int
    requires i < j <= |r.ops| == |r.times| && Extends(r.ops[i], name, holder)
    decreases j
  {
    if Extends(r.ops[j - 1], name, holder) then DutyUntil(r.times[j - 1], r.ops[j - 1].period)
    else TermEnd(r, name, holder, i, j - 1)
  }

  // Since step i, where the holder's claim was granted, the duty was neither released nor taken over.
  ghost predicate DutyKept(r: Run, name: string, holder: string, i: nat, j: nat)
    requires r.Ok() && i < j <= |r.ops|
  {
    && Extends(r.ops[i], name, holder) && DutyGranted(r.states[i], r.times[i], name, holder, r.ops[i].period)
    && (forall k :: i < k < j ==> r.ops[k] != ReleaseDutyOp(name, holder))
    && (forall k :: i < k < j ==> !TakesOver(r.states[k], r.times[k], r.ops[k], name, holder))
  }

  lemma {:induction false} DutyRecord(r: Run, name: string, holder: string, i: nat, j: nat)
    requires r.Ok() && i < j <= |r.ops| && DutyKept(r, name, holder, i, j)
    ensures name in r.states[j].duties && r.states[j].duties[name] == Duty(holder, TermEnd(r, name, holder, i, j))
    decreases j
  {
    assert r.StepAt(j - 1);
    DutiesStep(r.states[j - 1], r.times[j - 1], r.ops[j - 1], r.states[j]);
    if i < j - 1 {
      DutyRecord(r, name, holder, i, j - 1);
      DutyStep(r.states[j - 1], r.times[j - 1], r.ops[j - 1], name, r.states[j - 1].duties[name]);
    }
  }

  // The duty passes to somebody else exactly when the holder's latest term is over.
  lemma DutyPassesAtTheEndOfTheTerm(r: Run, name: string, holder: string, i: nat, j: nat, other: string, lease: int)
    requires r.Ok() && i < j < |r.ops| && DutyKept(r, name, holder, i, j) && other != holder && lease > 0
    ensures DutyGranted(r.states[j], r.times[j], name, other, lease) <==> TermEnd(r, name, holder, i, j) <= r.times[j]
  {
    DutyRecord(r, name, holder, i, j);
  }

  // Every term the holder was given since step i reaches beyond now.
  ghost predicate TermsReach(r: Run, name: string, holder: string, i: nat, j: nat, now: int)
    requires i < j <= |r.ops| == |r.times|
  {
    forall k :: i <= k < j && Extends(r.ops[k], name, holder) ==> now < DutyUntil(r.times[k], r.ops[k].period)
  }

  lemma {:induction false} TermReaches(r: Run, name: string, holder: string, i: nat, j: nat, now: int)
    requires i < j <= |r.ops| == |r.times| && Extends(r.ops[i], name, holder) && TermsReach(r, name, holder, i, j, now)
    ensures now < TermEnd(r, name, holder, i, j)
    decreases j
  {
    if !Extends(r.ops[j - 1], name, holder) {
      TermReaches(r, name, holder, i, j - 1, now);
    }
  }

  // From a grant until it expires nobody else is given the duty, unless the holder gives it up, by a
  // release or by a claim of its own for less time.
  lemma {:induction false} DutyIsExclusive(r: Run, name: string, holder: string, i: nat, j: nat)
    requires r.Ok() && ClockRuns(r) && i < j < |r.ops|
    requires Extends(r.ops[i], name, holder) && DutyGranted(r.states[i], r.times[i], name, holder, r.ops[i].period)
    requires forall k :: i < k < j ==> r.ops[k] != ReleaseDutyOp(name, holder)
    requires TermsReach(r, name, holder, i, j, r.times[j])
    ensures DutyKept(r, name, holder, i, j)
    ensures !TakesOver(r.states[j], r.times[j], r.ops[j], name, holder)
    decreases j
  {
    forall k | i < k < j
      ensures !TakesOver(r.states[k], r.times[k], r.ops[k], name, holder)
    {
      DutyIsExclusive(r, name, holder, i, k);
    }
    DutyRecord(r, name, holder, i, j);
    TermReaches(r, name, holder, i, j, r.times[j]);
  }

  // The last condition is needed: the holder's own shorter claim lets others in before the first one expires.
  lemma ShorterClaimEndsTheTerm(s: MemState, now: int, name: string, lease: int, shorter: int, t: MemState, u: MemState)
    requires 0 < shorter && DutyUntil(now, shorter) < DutyUntil(now, lease) && DutyFree(s, now, name, "a")
    requires Step(s, now, DutyOp(name, "a", lease), t) && Step(t, now, DutyOp(name, "a", shorter), u)
    ensures !DutyGranted(t, DutyUntil(now, shorter), name, "b", lease)
    ensures DutyGranted(u, DutyUntil(now, shorter), name, "b", lease)
  {
  }
}
