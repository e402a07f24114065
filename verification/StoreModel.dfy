// Records, keys and single-record transitions of the reference store
// (go/headgatetest/memstore*.go, go/store_contract.go).
module StoreModel {
  import opened Common

  newtype byte = x | 0 <= x < 256

  type Bytes = seq<byte>

  // Which fields of the holder a conflicting enqueue may replace.
  datatype Replace = Replace(payload: bool, scheduledAt: bool, priority: bool, maxAttempts: bool) {
    predicate Any() {
      payload || scheduledAt || priority || maxAttempts
    }
  }

  // The fields the store reads or writes; those it merely carries are left out.
  datatype Envelope = Envelope(
    id: string, kind: Bytes, queue: string, schemaVersion: nat, payload: Bytes,
    partitionKey: string, rateClass: string, weight: nat, fingerprint: string, priority: int,
    attempt: nat, crashAttempt: nat, maxAttempts: nat, enqueuedAtMs: int, scheduledAtMs: int,
    uniqueKey: Option<Bytes>, uniqueWindowMs: int, uniqueReplace: Replace, uniqueDebounceMs: int,
    uniqueExcludeKind: bool, retentionMs: int, pending: bool, stickyWorker: string)

  datatype Checkpoint = Checkpoint(
    completedSteps: seq<string>, inProgressStep: string, cursorStep: string, cursor: Bytes,
    crashesByStep: map<string, nat>)

  const MAX_OPAQUE_VERSION := 0x7fff_ffff
  const MAX_OPAQUE_BYTES := 0x200_0000
  const MAX_PROGRESS := 0x1f_ffff_ffff_ffff
  const MAX_MESSAGE_BYTES := 512

  // Versioned opaque bytes: a job's result or its latest output.
  datatype JobValue = JobValue(schemaVersion: nat, bytes: Bytes)

  predicate ValueOk(v: JobValue) {
    1 <= v.schemaVersion <= MAX_OPAQUE_VERSION && |v.bytes| <= MAX_OPAQUE_BYTES
  }

  datatype ProgressUpdate = ProgressUpdate(current: nat, total: nat, message: Bytes)

  predicate UpdateOk(u: ProgressUpdate) {
    1 <= u.total <= MAX_PROGRESS && u.current <= u.total && |u.message| <= MAX_MESSAGE_BYTES && 0 !in u.message
  }

  datatype Output = Output(value: JobValue, fence: nat, updatedAtMs: int)

  datatype Progress = Progress(update: ProgressUpdate, fence: nat, updatedAtMs: int)

  datatype JobRec = JobRec(
    env: Envelope, state: JobState, fence: nat, leaseId: string, leaseExpires: int, rateCharge: int,
    finalizedAt: int, checkpoint: Checkpoint, result: Option<JobValue>, output: Option<Output>,
    progress: Option<Progress>)

  datatype Bucket = Bucket(tokens: int, burst: int, limit: int, window: int, refilled: int)

  datatype LeaseRef = LeaseRef(jobId: string, leaseId: string, fence: nat)

  datatype Duty = Duty(holder: string, expires: int)

  datatype Settings = Settings(crashLimit: nat, retryBaseMs: int, retryCapMs: int)

  datatype MemState = MemState(
    conf: Settings, jobs: map<string, JobRec>, unique: map<Bytes, string>, throttle: map<Bytes, (string, int)>,
    quarantine: set<string>, paused: set<string>, rate: map<string, Bucket>, duties: map<string, Duty>,
    rr: map<string, nat>)

  const NO_CHECKPOINT := Checkpoint([], "", "", [], map[])

  // ---- Uniqueness keys ----

  function Byte(n: nat): byte {
    (n % 256) as byte
  }

  function LengthBytes(n: nat): Bytes {
    [Byte(n / 0x100_0000), Byte(n / 0x1_0000), Byte(n / 0x100), Byte(n)]
  }

  // Absent means uniqueness is off. The scope letter and the counted kind keep keys apart.
  function EffectiveUniqueKey(e: Envelope): Option<Bytes> {
    if e.uniqueKey.None? then None
    else if e.uniqueExcludeKind then Some([1, 71] + e.uniqueKey.value)
    else Some([1, 75] + LengthBytes(|e.kind|) + e.kind + e.uniqueKey.value)
  }

  function Value(b: Bytes): nat
    requires |b| == 4
  {
    (b[0] as nat) * 0x100_0000 + (b[1] as nat) * 0x1_0000 + (b[2] as nat) * 0x100 + (b[3] as nat)
  }

  lemma LengthBytesValue(n: nat)
    requires n < 0x1_0000_0000
    ensures Value(LengthBytes(n)) == n
  {
    var n1 := n / 0x100;
    var n2 := n1 / 0x100;
    var n3 := n2 / 0x100;
    assert n / 0x1_0000 == n2 && n / 0x100_0000 == n3 < 0x100;
  }

  lemma LengthBytesInjective(m: nat, n: nat)
    requires m < 0x1_0000_0000 && n < 0x1_0000_0000 && LengthBytes(m) == LengthBytes(n)
    ensures m == n
  {
    LengthBytesValue(m);
    LengthBytesValue(n);
  }

  lemma AppendInjective<T>(a: seq<T>, b: seq<T>, c: seq<T>, d: seq<T>)
    requires a + b == c + d && |a| == |c|
    ensures a == c && b == d
  {
    assert a == (a + b)[..|a|] && c == (c + d)[..|c|];
    assert b == (a + b)[|a|..] && d == (c + d)[|c|..];
  }

  // Two jobs share a key exactly when scope, kind (where it counts) and key bytes all agree.
  lemma KeysAgree(e: Envelope, f: Envelope)
    requires e.uniqueKey.Some? && f.uniqueKey.Some?
    requires |e.kind| < 0x1_0000_0000 && |f.kind| < 0x1_0000_0000
    ensures EffectiveUniqueKey(e) == EffectiveUniqueKey(f) <==>
            && e.uniqueExcludeKind == f.uniqueExcludeKind
            && (!e.uniqueExcludeKind ==> e.kind == f.kind)
            && e.uniqueKey == f.uniqueKey
  {
    if EffectiveUniqueKey(e) == EffectiveUniqueKey(f) {
      var a, b := EffectiveUniqueKey(e).value, EffectiveUniqueKey(f).value;
      assert a[1] == b[1];
      if e.uniqueExcludeKind {
        AppendInjective([1, 71], e.uniqueKey.value, [1, 71], f.uniqueKey.value);
      } else {
        var le, lf := LengthBytes(|e.kind|), LengthBytes(|f.kind|);
        assert a == [1, 75] + (le + (e.kind + e.uniqueKey.value));
        assert b == [1, 75] + (lf + (f.kind + f.uniqueKey.value));
        AppendInjective([1, 75], le + (e.kind + e.uniqueKey.value), [1, 75], lf + (f.kind + f.uniqueKey.value));
        AppendInjective(le, e.kind + e.uniqueKey.value, lf, f.kind + f.uniqueKey.value);
        LengthBytesInjective(|e.kind|, |f.kind|);
        AppendInjective(e.kind, e.uniqueKey.value, f.kind, f.uniqueKey.value);
      }
    }
  }

  // The key under which a job holds lifecycle uniqueness, if it does.
  function LifecycleKey(e: Envelope): Option<Bytes> {
    if e.uniqueWindowMs == 0 then EffectiveUniqueKey(e) else None
  }

  // ---- Records ----

  predicate Terminal(s: JobState) {
    s in {Completed, Archived, Cancelled, Quarantined, Undecodable}
  }

  predicate Waitable(s: JobState) {
    s in {Scheduled, Available, Retryable}
  }

  function EffectiveWeight(w: nat): nat {
    if w == 0 then 1 else w
  }

  function Min(a: int, b: int): int {
    if a < b then a else b
  }

  function Pow2(n: nat): nat {
    if n == 0 then 1 else 2 * Pow2(n - 1)
  }

  function DefaultBackoff(attempt: nat, base: int, ceiling: int): int
    requires attempt >= 1
  {
    var shift := if attempt - 1 > 20 then 20 else attempt - 1;
    Min(base * Pow2(shift), ceiling)
  }

  // Doubling from the base up to the ceiling, and never falling.
  lemma BackoffGrows(attempt: nat, base: int, ceiling: int)
    requires attempt >= 1 && base >= 0
    ensures DefaultBackoff(1, base, ceiling) == Min(base, ceiling)
    ensures var d, e := DefaultBackoff(attempt, base, ceiling), DefaultBackoff(attempt + 1, base, ceiling);
            d <= e <= ceiling && (attempt <= 20 && 2 * d <= ceiling ==> e == 2 * d || d == ceiling)
  {
    if attempt <= 20 {
      var p := Pow2(attempt - 1);
      assert Pow2(attempt) == 2 * p && base * (2 * p) == 2 * (base * p);
      MulLe(base, 0, p);
    }
  }

  predicate RecordOk(id: string, j: JobRec) {
    && j.env.id == id && j.env.maxAttempts >= 1 && j.env.weight >= 1
    && (j.state != Running ==> j.leaseId == "" && j.leaseExpires == 0)
  }

  function DropLease(j: JobRec): JobRec {
    j.(leaseId := "", leaseExpires := 0)
  }

  // ---- The store invariant ----

  // The index and the live records describe each other.
  ghost predicate UniqueOk(s: MemState) {
    && (forall k :: k in s.unique ==>
          && s.unique[k] in s.jobs && !Terminal(s.jobs[s.unique[k]].state)
          && LifecycleKey(s.jobs[s.unique[k]].env) == Some(k))
    && (forall id :: id in s.jobs && !Terminal(s.jobs[id].state) && LifecycleKey(s.jobs[id].env).Some? ==>
          var k := LifecycleKey(s.jobs[id].env).value; k in s.unique && s.unique[k] == id)
  }

  ghost predicate RecordsOk(s: MemState) {
    forall id :: id in s.jobs ==> RecordOk(id, s.jobs[id])
  }

  ghost predicate Valid(s: MemState) {
    RecordsOk(s) && UniqueOk(s)
  }

  // At most one live job holds a lifecycle key.
  lemma OneHolderPerKey(s: MemState, a: string, b: string)
    requires Valid(s) && a in s.jobs && b in s.jobs
    requires !Terminal(s.jobs[a].state) && !Terminal(s.jobs[b].state)
    requires LifecycleKey(s.jobs[a].env).Some? && LifecycleKey(s.jobs[a].env) == LifecycleKey(s.jobs[b].env)
    ensures a == b
  {
  }

  // ---- Leases ----

  predicate Current(s: MemState, l: LeaseRef) {
    && l.jobId in s.jobs && s.jobs[l.jobId].state == Running
    && s.jobs[l.jobId].leaseId == l.leaseId && s.jobs[l.jobId].fence == l.fence
  }

  function ReleaseUnique(unique: map<Bytes, string>, j: JobRec): map<Bytes, string> {
    var k := LifecycleKey(j.env);
    if k.Some? && k.value in unique && unique[k.value] == j.env.id then unique - {k.value} else unique
  }

  // Replaces or removes one record; a record that ends its life gives up its key.
  function WithRecord(s: MemState, j: JobRec): MemState {
    s.(jobs := s.jobs[j.env.id := j], unique := if Terminal(j.state) then ReleaseUnique(s.unique, j) else s.unique)
  }

  function WithoutRecord(s: MemState, j: JobRec): MemState {
    s.(jobs := s.jobs - {j.env.id}, unique := ReleaseUnique(s.unique, j))
  }

  // The records use their keys as before.
  lemma SameUse(s: MemState, t: MemState)
    requires UniqueOk(s) && t.unique == s.unique && t.jobs.Keys == s.jobs.Keys
    requires forall id :: id in s.jobs ==>
               LifecycleKey(t.jobs[id].env) == LifecycleKey(s.jobs[id].env) && Terminal(t.jobs[id].state) == Terminal(s.jobs[id].state)
    ensures UniqueOk(t)
  {
  }

  lemma OneRecordOk(s: MemState, id: string, j: JobRec)
    requires RecordsOk(s) && RecordOk(id, j)
    ensures RecordsOk(s.(jobs := s.jobs[id := j]))
  {
  }

  // A live record that dies gives up its key.
  lemma KeyReleased(s: MemState, id: string, j: JobRec)
    requires UniqueOk(s) && id in s.jobs && !Terminal(s.jobs[id].state) && Terminal(j.state)
    requires j.env.id == id && LifecycleKey(j.env) == LifecycleKey(s.jobs[id].env)
    ensures UniqueOk(s.(jobs := s.jobs[id := j], unique := ReleaseUnique(s.unique, j)))
  {
    var key := LifecycleKey(j.env);
    if key.Some? {
      assert key.value in s.unique && s.unique[key.value] == id;
    }
    forall k | k in s.unique && Some(k) != key
      ensures s.unique[k] != id
    {
    }
  }

  lemma WithRecordKeepsValid(s: MemState, id: string, j: JobRec)
    requires Valid(s) && id in s.jobs && !Terminal(s.jobs[id].state)
    requires RecordOk(id, j) && LifecycleKey(j.env) == LifecycleKey(s.jobs[id].env)
    ensures Valid(WithRecord(s, j))
  {
    OneRecordOk(s, id, j);
    if Terminal(j.state) {
      KeyReleased(s, id, j);
    } else {
      SameUse(s, s.(jobs := s.jobs[id := j]));
    }
  }

  lemma WithoutRecordKeepsValid(s: MemState, id: string)
    requires Valid(s) && id in s.jobs
    ensures Valid(WithoutRecord(s, s.jobs[id]))
  {
  }

  // ---- Ack ----

  datatype AckOutcome = Success | Retry | Skip | Revoke | Snooze | LeaseLost | UndecodableOutcome | RateLimited

  datatype AckEffect = Refused | Keep(rec: JobRec) | Drop

  // What an accepted outcome does to a running record.
  function AckRecord(conf: Settings, j: JobRec, now: int, outcome: AckOutcome, delayMs: int): AckEffect {
    var free := DropLease(j);
    match outcome
    case Success =>
      if j.env.retentionMs == 0 then Drop else Keep(free.(state := Completed, finalizedAt := now))
    case Retry =>
      var tried := free.(env := j.env.(attempt := j.env.attempt + 1));
      if tried.env.attempt < j.env.maxAttempts then
        var backoff := if delayMs <= 0 then DefaultBackoff(tried.env.attempt, conf.retryBaseMs, conf.retryCapMs) else delayMs;
        Keep(tried.(state := Retryable, env := tried.env.(scheduledAtMs := now + backoff)))
      else Keep(tried.(state := Archived, finalizedAt := now))
    case Skip => Keep(free.(state := Archived, finalizedAt := now))
    case UndecodableOutcome => Keep(free.(state := Undecodable, finalizedAt := now))
    case Revoke => Drop
    case Snooze =>
      if delayMs <= 0 then Refused
      else Keep(free.(state := Scheduled, env := j.env.(scheduledAtMs := now + delayMs)))
    case RateLimited => Keep(free.(state := Available, env := j.env.(scheduledAtMs := Min(j.env.scheduledAtMs, now))))
    case LeaseLost => Refused
  }

  // ---- Rate buckets ----

  function Gained(b: Bucket, now: int): int {
    if b.limit > 0 && b.window > 0 && now > b.refilled then (now - b.refilled) * b.limit / b.window else 0
  }

  // Admission credits whole tokens and otherwise leaves the clock of the bucket alone.
  function Refill(b: Bucket, now: int): Bucket {
    var g := Gained(b, now);
    if g > 0 then b.(tokens := Min(b.burst, b.tokens + g), refilled := now) else b
  }

  // A late correction of the charge made at admission.
  function Reconcile(b: Bucket, now: int, charge: int, actual: nat): Bucket {
    var available := Min(b.burst, b.tokens + Gained(b, now));
    b.(tokens := Min(b.burst, available + charge - actual), refilled := now)
  }

  function ReconcileRate(s: MemState, j: JobRec, now: int, actual: Option<nat>): MemState {
    if actual.None? then s
    else
      s.(rate := if j.rateCharge > 0 && j.env.rateClass in s.rate
                 then s.rate[j.env.rateClass := Reconcile(s.rate[j.env.rateClass], now, j.rateCharge, actual.value)]
                 else s.rate,
         jobs := s.jobs[j.env.id := j.(rateCharge := 0)])
  }

  // The reconciliation stands even when the outcome is then refused.
  function AckState(s: MemState, now: int, l: LeaseRef, outcome: AckOutcome, delayMs: int, actual: Option<nat>): (MemState, bool) {
    if !Current(s, l) then (s, false)
    else
      var t := ReconcileRate(s, s.jobs[l.jobId], now, actual);
      var j := if actual.Some? then s.jobs[l.jobId].(rateCharge := 0) else s.jobs[l.jobId];
      var e := AckRecord(s.conf, j, now, outcome, delayMs);
      (Effected(t, j, e), !e.Refused?)
  }

  function Effected(t: MemState, j: JobRec, e: AckEffect): MemState {
    match e
    case Refused => t
    case Keep(rec) => WithRecord(t, rec)
    case Drop => WithoutRecord(t, j)
  }

  function AckResultState(s: MemState, now: int, l: LeaseRef, actual: Option<nat>, result: JobValue): (MemState, bool) {
    if !Current(s, l) then (s, false)
    else
      var t := ReconcileRate(s, s.jobs[l.jobId], now, actual);
      var j := if actual.Some? then s.jobs[l.jobId].(rateCharge := 0) else s.jobs[l.jobId];
      if j.env.retentionMs == 0 then (WithoutRecord(t, j), true)
      else (WithRecord(t, DropLease(j).(state := Completed, finalizedAt := now, result := Some(result))), true)
  }

  lemma ReconcileKeepsValid(s: MemState, id: string, now: int, actual: Option<nat>)
    requires Valid(s) && id in s.jobs
    ensures var t := ReconcileRate(s, s.jobs[id], now, actual);
            && Valid(t) && t.jobs.Keys == s.jobs.Keys && t.unique == s.unique
            && t.jobs[id] == (if actual.Some? then s.jobs[id].(rateCharge := 0) else s.jobs[id])
  {
  }

  lemma AckRecordOk(conf: Settings, id: string, j: JobRec, now: int, outcome: AckOutcome, delayMs: int)
    requires RecordOk(id, j)
    ensures var e := AckRecord(conf, j, now, outcome, delayMs);
            e.Keep? ==> RecordOk(id, e.rec) && LifecycleKey(e.rec.env) == LifecycleKey(j.env) && e.rec.state != Running
                        && e.rec.fence == j.fence && e.rec.checkpoint == j.checkpoint
                        && e.rec.env.attempt == j.env.attempt + (if outcome == Retry then 1 else 0)
                        && e.rec.env.crashAttempt == j.env.crashAttempt
  {
  }

  lemma EffectKeepsValid(t: MemState, id: string, e: AckEffect)
    requires Valid(t) && id in t.jobs && !Terminal(t.jobs[id].state)
    requires e.Keep? ==> RecordOk(id, e.rec) && LifecycleKey(e.rec.env) == LifecycleKey(t.jobs[id].env)
    ensures Valid(Effected(t, t.jobs[id], e))
  {
    match e
    case Refused =>
    case Keep(rec) => WithRecordKeepsValid(t, id, rec);
    case Drop => WithoutRecordKeepsValid(t, id);
  }

  lemma OutcomeKeepsValid(t: MemState, id: string, conf: Settings, now: int, outcome: AckOutcome, delayMs: int)
    requires Valid(t) && id in t.jobs && t.jobs[id].state == Running
    ensures Valid(Effected(t, t.jobs[id], AckRecord(conf, t.jobs[id], now, outcome, delayMs)))
  {
    assert RecordOk(id, t.jobs[id]);
    AckRecordOk(conf, id, t.jobs[id], now, outcome, delayMs);
    EffectKeepsValid(t, id, AckRecord(conf, t.jobs[id], now, outcome, delayMs));
  }

  lemma AckKeepsValid(s: MemState, now: int, l: LeaseRef, outcome: AckOutcome, delayMs: int, actual: Option<nat>)
    requires Valid(s)
    ensures Valid(AckState(s, now, l, outcome, delayMs, actual).0)
  {
    if Current(s, l) {
      ReconcileKeepsValid(s, l.jobId, now, actual);
      OutcomeKeepsValid(ReconcileRate(s, s.jobs[l.jobId], now, actual), l.jobId, s.conf, now, outcome, delayMs);
    }
  }

  lemma AckResultKeepsValid(s: MemState, now: int, l: LeaseRef, actual: Option<nat>, result: JobValue)
    requires Valid(s)
    ensures Valid(AckResultState(s, now, l, actual, result).0)
  {
    if Current(s, l) {
      var id := l.jobId;
      ReconcileKeepsValid(s, id, now, actual);
      var t := ReconcileRate(s, s.jobs[id], now, actual);
      var j := t.jobs[id];
      if j.env.retentionMs == 0 {
        WithoutRecordKeepsValid(t, id);
      } else {
        WithRecordKeepsValid(t, id, DropLease(j).(state := Completed, finalizedAt := now, result := Some(result)));
      }
    }
  }
}
