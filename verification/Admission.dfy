// Admission: which waiting jobs one call claims (go/headgatetest/memstore.go).
module Admission {
  import opened Common
  import opened StoreModel

  datatype AdmitRequest = AdmitRequest(worker: string, leaseId: string, queues: seq<string>, capacity: int, leaseMs: int)

  datatype Claim = Claim(env: Envelope, leaseId: string, fence: nat, expires: int, checkpoint: Checkpoint)

  // The call so far: records, buckets, tokens set aside per class, claims made.
  datatype Adm = Adm(jobs: map<string, JobRec>, rate: map<string, Bucket>, spent: map<string, int>, claims: seq<Claim>)

  predicate Metered(rate: map<string, Bucket>, e: Envelope) {
    e.rateClass != "" && e.rateClass in rate
  }

  function Cost(e: Envelope): int {
    EffectiveWeight(e.weight)
  }

  function SpentOn(spent: map<string, int>, cls: string): int {
    if cls in spent then spent[cls] else 0
  }

  predicate Banned(s: MemState, e: Envelope) {
    e.fingerprint != "" && e.fingerprint in s.quarantine
  }

  // The gate: quarantine first, then the class's bucket, topped up to now.
  function Examine(s: MemState, a: Adm, now: int, e: Envelope): (Adm, bool) {
    if Banned(s, e) then (a, false)
    else if !Metered(a.rate, e) then (a, true)
    else
      var b := Refill(a.rate[e.rateClass], now);
      (a.(rate := a.rate[e.rateClass := b]), SpentOn(a.spent, e.rateClass) + Cost(e) <= b.tokens)
  }

  function ClaimedRecord(s: MemState, req: AdmitRequest, now: int, j: JobRec): JobRec {
    j.(state := Running, fence := j.fence + 1, leaseId := req.leaseId, leaseExpires := now + req.leaseMs,
       rateCharge := if Metered(s.rate, j.env) then Cost(j.env) else 0)
  }

  function ClaimOf(req: AdmitRequest, now: int, j: JobRec): Claim {
    Claim(j.env, req.leaseId, j.fence + 1, now + req.leaseMs, j.checkpoint)
  }

  function Take(s: MemState, a: Adm, req: AdmitRequest, now: int, id: string): Adm
    requires id in a.jobs
  {
    var j := a.jobs[id];
    Adm(a.jobs[id := ClaimedRecord(s, req, now, j)], a.rate,
        if Metered(a.rate, j.env) then a.spent[j.env.rateClass := SpentOn(a.spent, j.env.rateClass) + Cost(j.env)] else a.spent,
        a.claims + [ClaimOf(req, now, j)])
  }

  // A job this request may claim, tokens and quarantine aside.
  predicate Eligible(s: MemState, req: AdmitRequest, now: int, id: string) {
    id in s.jobs &&
    var j := s.jobs[id];
    && j.env.queue in req.queues && j.env.queue !in s.paused
    && j.state == Available && j.env.scheduledAtMs <= now
    && (j.env.stickyWorker == "" || j.env.stickyWorker == req.worker)
  }

  // Tokens charged to a class by the claims.
  function Charged(rate: map<string, Bucket>, claims: seq<Claim>, cls: string): int {
    if claims == [] then 0
    else
      var e := claims[|claims| - 1].env;
      Charged(rate, claims[..|claims| - 1], cls) + if Metered(rate, e) && e.rateClass == cls then Cost(e) else 0
  }

  ghost predicate ClaimedIn(claims: seq<Claim>, id: string) {
    exists k :: 0 <= k < |claims| && claims[k].env.id == id
  }

  // ---- What holds throughout the call ----

  ghost predicate ClaimsOk(s: MemState, req: AdmitRequest, now: int, claims: seq<Claim>) {
    && (forall k :: 0 <= k < |claims| ==>
          && Eligible(s, req, now, claims[k].env.id) && !Banned(s, claims[k].env)
          && claims[k] == ClaimOf(req, now, s.jobs[claims[k].env.id]))
    && (forall k, l :: 0 <= k < l < |claims| ==> claims[k].env.id != claims[l].env.id)
  }

  ghost predicate JobsOk(s: MemState, req: AdmitRequest, now: int, a: Adm) {
    && a.jobs.Keys == s.jobs.Keys
    && forall id :: id in s.jobs ==>
         a.jobs[id] == if ClaimedIn(a.claims, id) then ClaimedRecord(s, req, now, s.jobs[id]) else s.jobs[id]
  }

  // A bucket is untouched or topped up, and what was set aside is covered.
  ghost predicate BucketOk(s: MemState, now: int, a: Adm, cls: string)
    requires a.rate.Keys == s.rate.Keys && cls in s.rate
  {
    && SpentOn(a.spent, cls) == Charged(s.rate, a.claims, cls) && SpentOn(a.spent, cls) >= 0
    && (a.rate[cls] == Refill(s.rate[cls], now) || (a.rate[cls] == s.rate[cls] && SpentOn(a.spent, cls) == 0))
    && (SpentOn(a.spent, cls) > 0 ==> SpentOn(a.spent, cls) <= a.rate[cls].tokens)
  }

  ghost predicate RatesOk(s: MemState, now: int, a: Adm) {
    a.rate.Keys == s.rate.Keys && a.spent.Keys <= s.rate.Keys && forall cls :: cls in s.rate ==> BucketOk(s, now, a, cls)
  }

  ghost predicate AdmInv(s: MemState, req: AdmitRequest, now: int, a: Adm) {
    RecordsOk(s) && ClaimsOk(s, req, now, a.claims) && JobsOk(s, req, now, a) && RatesOk(s, now, a)
  }

  // Refused for good within this call.
  predicate Blocked(s: MemState, now: int, a: Adm, e: Envelope) {
    Banned(s, e) ||
    (Metered(a.rate, e) && e.rateClass in s.rate && a.rate[e.rateClass] == Refill(s.rate[e.rateClass], now)
     && SpentOn(a.spent, e.rateClass) + Cost(e) > a.rate[e.rateClass].tokens)
  }

  // The call only moves forward: what is blocked stays blocked.
  ghost predicate Later(s: MemState, now: int, a: Adm, b: Adm) {
    && a.claims <= b.claims && b.rate.Keys == a.rate.Keys
    && (forall cls :: cls in a.rate && cls in s.rate && a.rate[cls] == Refill(s.rate[cls], now) ==> b.rate[cls] == a.rate[cls])
    && (forall cls :: SpentOn(a.spent, cls) <= SpentOn(b.spent, cls))
    && (forall k :: |a.claims| <= k < |b.claims| ==> !Blocked(s, now, a, b.claims[k].env))
  }

  lemma LaterTrans(s: MemState, now: int, a: Adm, b: Adm, c: Adm)
    requires Later(s, now, a, b) && Later(s, now, b, c)
    ensures Later(s, now, a, c)
  {
  }

  lemma RefillOnce(b: Bucket, now: int)
    ensures Refill(Refill(b, now), now) == Refill(b, now)
  {
  }

  // Passed the gate in the state as it is now.
  ghost predicate Admissible(s: MemState, now: int, a: Adm, e: Envelope) {
    !Banned(s, e) &&
    (Metered(s.rate, e) && e.rateClass in a.rate ==>
       && a.rate[e.rateClass] == Refill(s.rate[e.rateClass], now)
       && SpentOn(a.spent, e.rateClass) + Cost(e) <= a.rate[e.rateClass].tokens)
  }

  lemma ExamineRates(s: MemState, now: int, a: Adm, e: Envelope)
    requires RatesOk(s, now, a)
    ensures var r := Examine(s, a, now, e);
            && RatesOk(s, now, r.0) && Later(s, now, a, r.0)
            && (r.1 ==> Admissible(s, now, r.0, e)) && (!r.1 <==> Blocked(s, now, r.0, e))
  {
    var r := Examine(s, a, now, e);
    if !Banned(s, e) && Metered(a.rate, e) {
      RefillOnce(s.rate[e.rateClass], now);
      forall cls | cls in s.rate
        ensures BucketOk(s, now, r.0, cls)
      {
        assert BucketOk(s, now, a, cls);
      }
    }
  }

  lemma ExamineKeeps(s: MemState, req: AdmitRequest, now: int, a: Adm, e: Envelope)
    requires AdmInv(s, req, now, a)
    ensures var r := Examine(s, a, now, e);
            && AdmInv(s, req, now, r.0) && Later(s, now, a, r.0)
            && r.0.jobs == a.jobs && r.0.claims == a.claims && r.0.spent == a.spent
            && (r.1 ==> Admissible(s, now, r.0, e)) && (!r.1 <==> Blocked(s, now, r.0, e))
  {
    ExamineRates(s, now, a, e);
  }

  lemma ClaimedInSnoc(claims: seq<Claim>, c: Claim, id: string)
    ensures ClaimedIn(claims + [c], id) <==> ClaimedIn(claims, id) || c.env.id == id
  {
    var more := claims + [c];
    if ClaimedIn(claims, id) {
      var k :| 0 <= k < |claims| && claims[k].env.id == id;
      assert more[k].env.id == id;
    }
    if c.env.id == id {
      assert more[|claims|].env.id == id;
    }
    if ClaimedIn(more, id) && c.env.id != id {
      var k :| 0 <= k < |more| && more[k].env.id == id;
      assert claims[k].env.id == id;
    }
  }

  lemma TakeRates(s: MemState, req: AdmitRequest, now: int, a: Adm, id: string)
    requires RatesOk(s, now, a) && id in a.jobs && Admissible(s, now, a, a.jobs[id].env)
    ensures RatesOk(s, now, Take(s, a, req, now, id)) && Later(s, now, a, Take(s, a, req, now, id))
  {
  }

  lemma TakeJobs(s: MemState, req: AdmitRequest, now: int, a: Adm, id: string)
    requires RecordsOk(s) && ClaimsOk(s, req, now, a.claims) && JobsOk(s, req, now, a)
    requires Eligible(s, req, now, id) && !ClaimedIn(a.claims, id) && !Banned(s, s.jobs[id].env)
    ensures var b := Take(s, a, req, now, id);
            ClaimsOk(s, req, now, b.claims) && JobsOk(s, req, now, b)
  {
    var b := Take(s, a, req, now, id);
    var c := ClaimOf(req, now, a.jobs[id]);
    assert a.jobs[id] == s.jobs[id] && RecordOk(id, s.jobs[id]);
    forall x | x in s.jobs
      ensures b.jobs[x] == if ClaimedIn(b.claims, x) then ClaimedRecord(s, req, now, s.jobs[x]) else s.jobs[x]
    {
      ClaimedInSnoc(a.claims, c, x);
    }
    ClaimsGrow(s, req, now, a.claims, id);
  }

  lemma ClaimsGrow(s: MemState, req: AdmitRequest, now: int, claims: seq<Claim>, id: string)
    requires ClaimsOk(s, req, now, claims) && Eligible(s, req, now, id) && !ClaimedIn(claims, id)
    requires RecordOk(id, s.jobs[id]) && !Banned(s, s.jobs[id].env)
    ensures ClaimsOk(s, req, now, claims + [ClaimOf(req, now, s.jobs[id])])
  {
  }

  lemma TakeKeeps(s: MemState, req: AdmitRequest, now: int, a: Adm, id: string)
    requires AdmInv(s, req, now, a) && Eligible(s, req, now, id) && !ClaimedIn(a.claims, id)
    requires Admissible(s, now, a, s.jobs[id].env)
    ensures AdmInv(s, req, now, Take(s, a, req, now, id)) && Later(s, now, a, Take(s, a, req, now, id))
  {
    assert a.jobs[id] == s.jobs[id];
    TakeRates(s, req, now, a, id);
    TakeJobs(s, req, now, a, id);
  }
}
