// Enqueueing into the reference store (go/headgatetest/memstore.go, go/trace_context.go).
module StoreEnqueue {
  import opened Common
  import opened StoreModel

  const MAX_BATCH := 1000
  const MAX_KIND := 128
  const DEFAULT_ATTEMPTS := 25

  datatype EnqueueError = Invalid | IdConflict(id: string) | QuarantinedKind(fingerprint: string) | Duplicate(existing: string, replaced: bool)

  // ---- Boundary validation ----

  // The rules with consequences inside the store. withinLimits stands for the size and character
  // limits on identifiers, payload, tags and worker names.
  predicate EnvelopeOk(e: Envelope, withinLimits: Envelope -> bool) {
    && e.id != "" && 1 <= |e.kind| <= MAX_KIND && withinLimits(e)
    && e.retentionMs >= 0 && e.uniqueWindowMs >= 0 && e.uniqueDebounceMs >= 0
    && (e.uniqueDebounceMs > 0 ==> e.uniqueKey.Some? && e.uniqueKey.value != [] && e.uniqueWindowMs == 0)
    && (e.uniqueReplace.Any() ==> e.uniqueKey.Some? && e.uniqueKey.value != [])
    && (e.pending ==> e.scheduledAtMs == 0)
  }

  predicate Replaces(e: Envelope) {
    e.uniqueReplace.Any() || e.uniqueDebounceMs > 0
  }

  function ValidateFrom(batch: seq<Envelope>, withinLimits: Envelope -> bool, i: nat, seen: set<string>): Option<EnqueueError>
    requires i <= |batch|
    decreases |batch| - i
  {
    if i == |batch| then None
    else if !EnvelopeOk(batch[i], withinLimits) then Some(Invalid)
    else if batch[i].id in seen then Some(IdConflict(batch[i].id))
    else ValidateFrom(batch, withinLimits, i + 1, seen + {batch[i].id})
  }

  function ValidateEnqueue(batch: seq<Envelope>, withinLimits: Envelope -> bool): Option<EnqueueError> {
    if |batch| > MAX_BATCH then Some(Invalid)
    else
      var e := ValidateFrom(batch, withinLimits, 0, {});
      if e.Some? then e
      else if |batch| != 1 && exists i :: 0 <= i < |batch| && Replaces(batch[i]) then Some(Invalid)
      else None
  }

  ghost predicate DistinctIds(batch: seq<Envelope>) {
    forall i, j :: 0 <= i < j < |batch| ==> batch[i].id != batch[j].id
  }

  lemma {:induction false} ValidateFromMeans(batch: seq<Envelope>, withinLimits: Envelope -> bool, i: nat, seen: set<string>)
    requires i <= |batch| && seen == set k | 0 <= k < i :: batch[k].id
    requires forall k, l :: 0 <= k < l < i ==> batch[k].id != batch[l].id
    requires forall k :: 0 <= k < i ==> EnvelopeOk(batch[k], withinLimits)
    ensures ValidateFrom(batch, withinLimits, i, seen).None? <==>
            DistinctIds(batch) && forall k :: 0 <= k < |batch| ==> EnvelopeOk(batch[k], withinLimits)
    decreases |batch| - i
  {
    if i < |batch| && EnvelopeOk(batch[i], withinLimits) {
      if batch[i].id in seen {
        var k :| 0 <= k < i && batch[k].id == batch[i].id;
      } else {
        ValidateFromMeans(batch, withinLimits, i + 1, seen + {batch[i].id});
      }
    }
  }

  // ---- The id pass: a replay of stored work is skipped, anything else under its id is refused ----

  function EffectiveQueue(q: string): string {
    if q == "" then "default" else q
  }

  predicate SameJobContent(e: Envelope, stored: Envelope) {
    e.kind == stored.kind && e.fingerprint == stored.fingerprint && EffectiveQueue(e.queue) == stored.queue
  }

  function ConflictFrom(s: MemState, batch: seq<Envelope>, i: nat): Option<EnqueueError>
    requires i <= |batch|
    decreases |batch| - i
  {
    if i == |batch| then None
    else if batch[i].id in s.jobs && !SameJobContent(batch[i], s.jobs[batch[i].id].env) then Some(IdConflict(batch[i].id))
    else ConflictFrom(s, batch, i + 1)
  }

  // ---- The uniqueness pass ----

  function Holder(s: MemState, now: int, e: Envelope): Option<string> {
    var key := EffectiveUniqueKey(e);
    if key.None? then None
    else if e.uniqueWindowMs > 0 then
      if key.value in s.throttle && s.throttle[key.value].1 > now then Some(s.throttle[key.value].0) else None
    else if key.value in s.unique then Some(s.unique[key.value])
    else None
  }

  function Version(v: nat): nat {
    if v == 0 then 1 else v
  }

  function Debounced(j: JobRec, e: Envelope, now: int): JobRec {
    if e.uniqueDebounceMs > 0 then
      j.(state := Scheduled,
         env := j.env.(schemaVersion := Version(e.schemaVersion), payload := e.payload,
                       fingerprint := e.fingerprint, scheduledAtMs := now + e.uniqueDebounceMs))
    else j
  }

  function PayloadReplaced(j: JobRec, e: Envelope): JobRec {
    if e.uniqueReplace.payload then
      j.(env := j.env.(schemaVersion := Version(e.schemaVersion), payload := e.payload, fingerprint := e.fingerprint))
    else j
  }

  function Rescheduled(j: JobRec, e: Envelope, now: int): JobRec {
    if e.uniqueReplace.scheduledAt && j.state == Scheduled then
      j.(env := j.env.(scheduledAtMs := if e.scheduledAtMs == 0 then now else e.scheduledAtMs))
    else j
  }

  function Tuned(j: JobRec, e: Envelope): JobRec {
    var p := if e.uniqueReplace.priority then j.(env := j.env.(priority := e.priority)) else j;
    if e.uniqueReplace.maxAttempts then
      p.(env := p.env.(maxAttempts := if e.maxAttempts == 0 then DEFAULT_ATTEMPTS else e.maxAttempts))
    else p
  }

  // A waiting holder takes over the fields the newcomer may replace; a debounce also restarts its wait.
  function ReplaceHolder(j: JobRec, e: Envelope, now: int): (JobRec, bool) {
    if !Replaces(e) || !Waitable(j.state) then (j, false)
    else
      var patched := PayloadReplaced(Debounced(j, e, now), e);
      (Tuned(Rescheduled(patched, e, now), e),
       e.uniqueDebounceMs > 0 || e.uniqueReplace.payload || e.uniqueReplace.priority || e.uniqueReplace.maxAttempts
       || (e.uniqueReplace.scheduledAt && patched.state == Scheduled))
  }

  predicate Skipped(s: MemState, e: Envelope) {
    e.id in s.jobs
  }

  // The first envelope that is refused, and the store as it is then left.
  function RefusedFrom(s: MemState, now: int, batch: seq<Envelope>, i: nat): Option<(EnqueueError, MemState)>
    requires i <= |batch|
    decreases |batch| - i
  {
    if i == |batch| then None
    else
      var e := batch[i];
      if Skipped(s, e) then RefusedFrom(s, now, batch, i + 1)
      else if e.fingerprint != "" && e.fingerprint in s.quarantine then Some((QuarantinedKind(e.fingerprint), s))
      else
        var h := Holder(s, now, e);
        if h.None? then RefusedFrom(s, now, batch, i + 1)
        else if h.value in s.jobs then
          var r := ReplaceHolder(s.jobs[h.value], e, now);
          Some((Duplicate(h.value, r.1), s.(jobs := s.jobs[h.value := r.0])))
        else Some((Duplicate(h.value, false), s))
  }

  // ---- Insertion ----

  function NewRecord(e: Envelope, now: int): JobRec {
    var at := if e.uniqueDebounceMs > 0 then now + e.uniqueDebounceMs else if e.scheduledAtMs == 0 then now else e.scheduledAtMs;
    var env := e.(queue := EffectiveQueue(e.queue), maxAttempts := if e.maxAttempts == 0 then DEFAULT_ATTEMPTS else e.maxAttempts,
                  schemaVersion := Version(e.schemaVersion), weight := EffectiveWeight(e.weight),
                  enqueuedAtMs := now, scheduledAtMs := at);
    var state := if e.pending then Pending else if at > now then Scheduled else Available;
    JobRec(env, state, 0, "", 0, 0, 0, NO_CHECKPOINT, None, None, None)
  }

  function Insert(s: MemState, now: int, e: Envelope): MemState {
    var j := NewRecord(e, now);
    var key := EffectiveUniqueKey(e);
    s.(jobs := s.jobs[e.id := j],
       throttle := if key.Some? && e.uniqueWindowMs > 0 then s.throttle[key.value := (e.id, now + e.uniqueWindowMs)] else s.throttle,
       unique := if key.Some? && e.uniqueWindowMs <= 0 then s.unique[key.value := e.id] else s.unique)
  }

  // known are the ids stored before the batch: those envelopes are skipped.
  function InsertFrom(s: MemState, now: int, batch: seq<Envelope>, known: set<string>, i: nat): MemState
    requires i <= |batch|
    decreases |batch| - i
  {
    if i == |batch| then s
    else InsertFrom(if batch[i].id in known then s else Insert(s, now, batch[i]), now, batch, known, i + 1)
  }

  function EnqueueState(s: MemState, now: int, batch: seq<Envelope>, withinLimits: Envelope -> bool): (MemState, Option<EnqueueError>) {
    var invalid := ValidateEnqueue(batch, withinLimits);
    if invalid.Some? then (s, invalid)
    else
      var conflict := ConflictFrom(s, batch, 0);
      if conflict.Some? then (s, conflict)
      else
        var refused := RefusedFrom(s, now, batch, 0);
        if refused.Some? then (refused.value.1, Some(refused.value.0))
        else (InsertFrom(s, now, batch, s.jobs.Keys, 0), None)
  }

  // ---- What enqueueing keeps ----

  // The same job to everyone but its future handler.
  ghost predicate SameHolder(j: JobRec, r: JobRec) {
    && r.env.id == j.env.id && LifecycleKey(r.env) == LifecycleKey(j.env) && r.env.weight == j.env.weight
    && r.fence == j.fence && r.leaseId == j.leaseId && r.leaseExpires == j.leaseExpires && r.checkpoint == j.checkpoint
    && r.env.attempt == j.env.attempt && r.env.crashAttempt == j.env.crashAttempt
    && (j.env.maxAttempts >= 1 ==> r.env.maxAttempts >= 1)
    && (r.state == j.state || (Waitable(j.state) && Waitable(r.state)))
  }

  lemma TuningKeepsHolder(j: JobRec, e: Envelope, now: int)
    ensures SameHolder(j, Tuned(Rescheduled(j, e, now), e))
  {
  }

  lemma PatchKeepsHolder(j: JobRec, e: Envelope, now: int)
    requires Waitable(j.state)
    ensures SameHolder(j, PayloadReplaced(Debounced(j, e, now), e))
  {
  }

  lemma ReplaceKeepsHolder(j: JobRec, e: Envelope, now: int)
    ensures SameHolder(j, ReplaceHolder(j, e, now).0)
  {
    if Replaces(e) && Waitable(j.state) {
      PatchKeepsHolder(j, e, now);
      TuningKeepsHolder(PayloadReplaced(Debounced(j, e, now), e), e, now);
    }
  }

  lemma DuplicateKeepsValid(s: MemState, now: int, e: Envelope, id: string)
    requires Valid(s) && id in s.jobs
    ensures var r := ReplaceHolder(s.jobs[id], e, now);
            Valid(s.(jobs := s.jobs[id := r.0])) && (!r.1 ==> s.(jobs := s.jobs[id := r.0]) == s)
  {
    var r := ReplaceHolder(s.jobs[id], e, now);
    ReplaceKeepsHolder(s.jobs[id], e, now);
    HolderSwap(s, id, r.0);
    if !r.1 {
      assert r.0 == s.jobs[id];
      assert s.jobs[id := r.0] == s.jobs;
    }
  }

  lemma {:induction false} RefusalKeepsValid(s: MemState, now: int, batch: seq<Envelope>, i: nat)
    requires i <= |batch| && Valid(s)
    ensures var r := RefusedFrom(s, now, batch, i);
            r.Some? ==> Valid(r.value.1)
                        && (r.value.1 != s ==> r.value.0.Duplicate? && r.value.0.replaced)
    decreases |batch| - i
  {
    if i < |batch| {
      RefusalKeepsValid(s, now, batch, i + 1);
      var h := Holder(s, now, batch[i]);
      if h.Some? && h.value in s.jobs {
        DuplicateKeepsValid(s, now, batch[i], h.value);
      }
    }
  }

  lemma HolderSwap(s: MemState, id: string, r: JobRec)
    requires Valid(s) && id in s.jobs && RecordOk(id, r) && LifecycleKey(r.env) == LifecycleKey(s.jobs[id].env)
    requires r.state == s.jobs[id].state || (!Terminal(r.state) && !Terminal(s.jobs[id].state))
    ensures Valid(s.(jobs := s.jobs[id := r]))
  {
    OneRecordOk(s, id, r);
    SameUse(s, s.(jobs := s.jobs[id := r]));
  }

  // No two inserted lifecycle jobs of the batch claim one key.
  ghost predicate DistinctKeys(batch: seq<Envelope>, known: set<string>) {
    forall i, j ::
      (0 <= i < j < |batch| && batch[i].id !in known && batch[j].id !in known && LifecycleKey(batch[i]).Some?)
      ==> LifecycleKey(batch[i]) != LifecycleKey(batch[j])
  }

  // Nothing in the rest of the batch clashes with what is stored.
  ghost predicate Fresh(s: MemState, batch: seq<Envelope>, known: set<string>, i: nat) {
    forall k :: i <= k < |batch| && batch[k].id !in known ==>
      batch[k].id !in s.jobs && batch[k].uniqueWindowMs >= 0
      && (LifecycleKey(batch[k]).Some? ==> LifecycleKey(batch[k]).value !in s.unique)
  }

  lemma AddHolder(s: MemState, id: string, j: JobRec, key: Bytes)
    requires UniqueOk(s) && id !in s.jobs && !Terminal(j.state) && LifecycleKey(j.env) == Some(key) && key !in s.unique
    ensures UniqueOk(s.(jobs := s.jobs[id := j], unique := s.unique[key := id]))
  {
  }

  lemma AddWithoutKey(s: MemState, id: string, j: JobRec, throttle: map<Bytes, (string, int)>)
    requires UniqueOk(s) && id !in s.jobs && LifecycleKey(j.env) == None
    ensures UniqueOk(s.(jobs := s.jobs[id := j], throttle := throttle))
  {
  }

  lemma InsertKeepsValid(s: MemState, now: int, e: Envelope)
    requires Valid(s) && e.id !in s.jobs && e.uniqueWindowMs >= 0
    requires LifecycleKey(e).Some? ==> LifecycleKey(e).value !in s.unique
    ensures Valid(Insert(s, now, e))
  {
    var j := NewRecord(e, now);
    assert LifecycleKey(j.env) == LifecycleKey(e);
    var t := Insert(s, now, e);
    assert RecordsOk(t);
    if LifecycleKey(e).Some? {
      AddHolder(s, e.id, j, LifecycleKey(e).value);
    } else {
      AddWithoutKey(s, e.id, j, t.throttle);
    }
  }

  lemma {:induction false} InsertAllKeepsValid(s: MemState, now: int, batch: seq<Envelope>, known: set<string>, i: nat)
    requires i <= |batch| && Valid(s) && DistinctIds(batch) && DistinctKeys(batch, known) && Fresh(s, batch, known, i)
    ensures Valid(InsertFrom(s, now, batch, known, i))
    decreases |batch| - i
  {
    if i < |batch| {
      if batch[i].id in known {
        InsertAllKeepsValid(s, now, batch, known, i + 1);
      } else {
        InsertKeepsValid(s, now, batch[i]);
        InsertAllKeepsValid(Insert(s, now, batch[i]), now, batch, known, i + 1);
      }
    }
  }

  lemma NewRecordFresh(e: Envelope, now: int)
    ensures var j := NewRecord(e, now);
            && LifecycleKey(j.env) == LifecycleKey(e) && !Terminal(j.state) && j.state != Running
            && j.fence == 0 && j.checkpoint == NO_CHECKPOINT && j.env.id == e.id
  {
  }

  // Everything inserted is there afterwards.
  lemma {:induction false} InsertedAt(s: MemState, now: int, batch: seq<Envelope>, known: set<string>, i: nat, k: nat)
    requires i <= k < |batch| && DistinctIds(batch) && batch[k].id !in known
    ensures var t := InsertFrom(s, now, batch, known, i);
            batch[k].id in t.jobs && t.jobs[batch[k].id] == NewRecord(batch[k], now)
    decreases |batch| - i
  {
    if i < k {
      InsertedAt(if batch[i].id in known then s else Insert(s, now, batch[i]), now, batch, known, i + 1, k);
    } else {
      InsertLeavesOthers(Insert(s, now, batch[i]), now, batch, known, i + 1, batch[k].id);
    }
  }

  // Nothing else changes.
  lemma {:induction false} InsertLeavesOthers(s: MemState, now: int, batch: seq<Envelope>, known: set<string>, i: nat, id: string)
    requires i <= |batch| && forall k :: i <= k < |batch| && batch[k].id !in known ==> batch[k].id != id
    ensures var t := InsertFrom(s, now, batch, known, i);
            && (id in t.jobs <==> id in s.jobs) && (id in s.jobs ==> t.jobs[id] == s.jobs[id])
            && t.quarantine == s.quarantine && t.rate == s.rate && t.paused == s.paused && t.conf == s.conf
            && t.rr == s.rr && t.duties == s.duties
    decreases |batch| - i
  {
    if i < |batch| {
      InsertLeavesOthers(if batch[i].id in known then s else Insert(s, now, batch[i]), now, batch, known, i + 1, id);
    }
  }

  lemma {:induction false} NotRefused(s: MemState, now: int, batch: seq<Envelope>, i: nat)
    requires i <= |batch| && RefusedFrom(s, now, batch, i).None?
    ensures forall k :: i <= k < |batch| && !Skipped(s, batch[k]) ==>
              Holder(s, now, batch[k]).None? && (batch[k].fingerprint == "" || batch[k].fingerprint !in s.quarantine)
    decreases |batch| - i
  {
    if i < |batch| {
      NotRefused(s, now, batch, i + 1);
    }
  }

  lemma ValidatedBatch(batch: seq<Envelope>, withinLimits: Envelope -> bool)
    requires ValidateEnqueue(batch, withinLimits).None?
    ensures DistinctIds(batch) && forall k :: 0 <= k < |batch| ==> EnvelopeOk(batch[k], withinLimits)
  {
    ValidateFromMeans(batch, withinLimits, 0, {});
  }

  lemma SharedKeyBreaksIndex(s: MemState, now: int, batch: seq<Envelope>, i: nat, j: nat)
    requires i < j < |batch| && DistinctIds(batch) && batch[i].id !in s.jobs && batch[j].id !in s.jobs
    requires LifecycleKey(batch[i]).Some? && LifecycleKey(batch[i]) == LifecycleKey(batch[j])
    ensures !Valid(InsertFrom(s, now, batch, s.jobs.Keys, 0))
  {
    var t := InsertFrom(s, now, batch, s.jobs.Keys, 0);
    InsertedAt(s, now, batch, s.jobs.Keys, 0, i);
    InsertedAt(s, now, batch, s.jobs.Keys, 0, j);
    NewRecordFresh(batch[i], now);
    NewRecordFresh(batch[j], now);
    if Valid(t) {
      OneHolderPerKey(t, batch[i].id, batch[j].id);
    }
  }

  // A refused batch changes nothing, except that a replacing duplicate updates the holder. An
  // accepted batch keeps the uniqueness index sound exactly when no two of its new lifecycle jobs
  // share an effective key: the uniqueness pass compares with the index, not within the batch.
  lemma EnqueueKeepsValid(s: MemState, now: int, batch: seq<Envelope>, withinLimits: Envelope -> bool)
    requires Valid(s)
    ensures var r := EnqueueState(s, now, batch, withinLimits);
            if r.1.Some? then Valid(r.0) && (r.0 != s ==> r.1.value.Duplicate? && r.1.value.replaced)
            else Valid(r.0) <==> DistinctKeys(batch, s.jobs.Keys)
  {
    RefusalKeepsValid(s, now, batch, 0);
    var r := EnqueueState(s, now, batch, withinLimits);
    if r.1.None? {
      ValidatedBatch(batch, withinLimits);
      NotRefused(s, now, batch, 0);
      if DistinctKeys(batch, s.jobs.Keys) {
        InsertAllKeepsValid(s, now, batch, s.jobs.Keys, 0);
      } else {
        var i, j :| 0 <= i < j < |batch| && batch[i].id !in s.jobs.Keys && batch[j].id !in s.jobs.Keys
                    && LifecycleKey(batch[i]).Some? && LifecycleKey(batch[i]) == LifecycleKey(batch[j]);
        SharedKeyBreaksIndex(s, now, batch, i, j);
      }
    }
  }

  // ---- The failing case is real ----

  function EmptyStore(conf: Settings): MemState {
    MemState(conf, map[], map[], map[], {}, {}, map[], map[], map[])
  }

  function KeyedJob(id: string): Envelope {
    Envelope(id, [107], "", 1, [], "", "", 1, "", 0, 0, 0, 0, 0, 0, Some([42]), 0, Replace(false, false, false, false), 0, false, 0, false, "")
  }

  // Two jobs under one key pass every check of an empty store, and leave its index wrong.
  lemma SharedKeySlipsThrough(conf: Settings, now: int, withinLimits: Envelope -> bool)
    requires withinLimits(KeyedJob("a")) && withinLimits(KeyedJob("b"))
    ensures var r := EnqueueState(EmptyStore(conf), now, [KeyedJob("a"), KeyedJob("b")], withinLimits);
            Valid(EmptyStore(conf)) && r.1.None? && !Valid(r.0)
  {
    var s, batch := EmptyStore(conf), [KeyedJob("a"), KeyedJob("b")];
    ValidateFromMeans(batch, withinLimits, 0, {});
    assert RefusedFrom(s, now, batch, 1).None?;
    SharedKeyBreaksIndex(s, now, batch, 0, 1);
  }
}
