// What an admission may claim, what it may leave behind, and in which order (go/headgatetest/memstore.go).
module AdmissionLaws {
  import opened Common
  import opened Sorting
  import opened StoreModel
  import opened Admission
  import opened AdmissionPass
  import opened AdmissionCall

  // The job waits in a requested queue that is not paused, is due, is not kept for another worker, and its
  // fingerprint is not in quarantine.
  predicate CouldRun(s: MemState, req: AdmitRequest, now: int, id: string) {
    && id in s.jobs && s.jobs[id].state == Available && s.jobs[id].env.scheduledAtMs <= now
    && s.jobs[id].env.queue in req.queues && s.jobs[id].env.queue !in s.paused
    && s.jobs[id].env.stickyWorker in {"", req.worker}
    && (s.jobs[id].env.fingerprint == "" || s.jobs[id].env.fingerprint !in s.quarantine)
  }

  lemma ClaimedCouldRun(c: Call, a: Adm, id: string)
    requires ClaimsOk(c.s, c.req, c.now, a.claims) && id in c.s.jobs && ClaimedIn(a.claims, id)
    ensures CouldRun(c.s, c.req, c.now, id)
  {
    var k :| 0 <= k < |a.claims| && a.claims[k].env.id == id;
    assert Eligible(c.s, c.req, c.now, a.claims[k].env.id) && !Banned(c.s, a.claims[k].env);
  }

  // Only such jobs are claimed; a claimed job runs under a new fence and the lease that was asked for, and no
  // other record changes.
  lemma ClaimsAreRightful(c: Call, a: Adm, t: MemState, id: string)
    requires Admitted(c, a, t) && id in c.s.jobs
    ensures id in t.jobs
    ensures ClaimedIn(a.claims, id) ==>
              && CouldRun(c.s, c.req, c.now, id) && t.jobs[id].state == Running
              && t.jobs[id].fence == c.s.jobs[id].fence + 1 && t.jobs[id].leaseId == c.req.leaseId
              && t.jobs[id].leaseExpires == c.now + c.req.leaseMs && t.jobs[id].env == c.s.jobs[id].env
    ensures !ClaimedIn(a.claims, id) ==> t.jobs[id] == c.s.jobs[id]
  {
    assert id in a.jobs;
    if ClaimedIn(a.claims, id) {
      ClaimedCouldRun(c, a, id);
    }
  }

  // The class of the job cannot pay for it after what the call has charged.
  ghost predicate Unpaid(c: Call, a: Adm, e: Envelope) {
    Metered(c.s.rate, e) && Charged(c.s.rate, a.claims, e.rateClass) + Cost(e) > Refill(c.s.rate[e.rateClass], c.now).tokens
  }

  lemma LeftIsOpen(c: Call, a: Adm, t: MemState, id: string)
    requires Admitted(c, a, t) && CouldRun(c.s, c.req, c.now, id) && !ClaimedIn(a.claims, id) && !Unpaid(c, a, c.s.jobs[id].env)
    ensures var q := c.s.jobs[id].env.queue; Served(c, q, a) && InQueue(c, q, id) && !Done(c, a, id)
  {
    var q := c.s.jobs[id].env.queue;
    var j :| 0 <= j < |c.req.queues| && c.req.queues[j] == q;
    assert Served(c, q, a) && InQueue(c, q, id);
  }

  // Below its capacity a call leaves nothing behind that could run and be paid for.
  lemma NothingIsLeftBehind(c: Call, a: Adm, t: MemState, id: string)
    requires Admitted(c, a, t) && CouldRun(c.s, c.req, c.now, id) && !ClaimedIn(a.claims, id) && |a.claims| < c.req.capacity
    ensures Unpaid(c, a, c.s.jobs[id].env)
  {
    if !Unpaid(c, a, c.s.jobs[id].env) {
      LeftIsOpen(c, a, t, id);
    }
  }

  // The more urgent: higher priority, then due earlier, then the smaller id.
  ghost predicate MoreUrgent(x: Envelope, y: Envelope) {
    || x.priority > y.priority
    || (x.priority == y.priority && x.scheduledAtMs < y.scheduledAtMs)
    || (x.priority == y.priority && x.scheduledAtMs == y.scheduledAtMs && StringLe(x.id, y.id))
  }

  // Within a partition of a queue, nothing that could run and be paid for is passed over for a less urgent job.
  lemma UrgentJobsFirst(c: Call, a: Adm, t: MemState, k: nat, id: string)
    requires Admitted(c, a, t) && k < |a.claims| && CouldRun(c.s, c.req, c.now, id)
    requires !ClaimedIn(a.claims, id) && !Unpaid(c, a, c.s.jobs[id].env)
    requires a.claims[k].env.queue == c.s.jobs[id].env.queue && a.claims[k].env.partitionKey == c.s.jobs[id].env.partitionKey
    ensures MoreUrgent(a.claims[k].env, c.s.jobs[id].env)
  {
    LeftIsOpen(c, a, t, id);
    assert Eligible(c.s, c.req, c.now, a.claims[k].env.id);
    assert JobLe(c.s, a.claims[k].env.id, id);
    assert RecordOk(id, c.s.jobs[id]);
  }
}
