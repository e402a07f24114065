// How long a claim and a finished job last over runs of the store (go/headgatetest/memstore_lifecycle.go).
module LeaseTimes {
  import opened Common
  import opened StoreModel
  import opened Admission
  import opened StoreOps
  import opened StoreRuns
  import opened StateMachine

  // ---- Leases ----

  // The lease of a claim granted at step i, as last renewed before step j.
  function LeaseEnd(r: Run, l: LeaseRef, i: nat, j: nat): int
    requires i < j <= |r.ops| == |r.times| && r.ops[i].AdmitOp?
    decreases j
  {
    if j == i + 1 then r.times[i] + r.ops[i].req.leaseMs
    else if r.ops[j - 1].RenewOp? && l in r.ops[j - 1].leases then r.times[j - 1] + r.ops[j - 1].leaseMs
    else LeaseEnd(r, l, i, j - 1)
  }

  // Granted at step i and current ever since.
  ghost predicate HeldSince(r: Run, l: LeaseRef, i: nat, j: nat)
    requires r.Ok() && i < j <= |r.ops|
  {
    && r.ops[i].AdmitOp? && r.ops[i].req.leaseId == l.leaseId
    && (exists k :: 0 <= k < |r.ops[i].adm.claims| && r.ops[i].adm.claims[k].env.id == l.jobId && r.ops[i].adm.claims[k].fence == l.fence)
    && forall m :: i < m <= j ==> Current(r.states[m], l)
  }

  lemma GrantSetsLease(s: MemState, now: int, op: Op, t: MemState, k: nat)
    requires op.AdmitOp? && Step(s, now, op, t) && k < |op.adm.claims|
    ensures op.adm.claims[k].env.id in t.jobs && t.jobs[op.adm.claims[k].env.id].leaseExpires == now + op.req.leaseMs
  {
    AdmitStep(s, now, op.req, op.adm, t);
    var id := op.adm.claims[k].env.id;
    assert Eligible(s, op.req, now, id) && ClaimedIn(op.adm.claims, id);
  }

  lemma LeaseStep(s: MemState, now: int, op: Op, t: MemState, l: LeaseRef)
    requires RecordsOk(s) && Step(s, now, op, t) && Current(s, l) && Current(t, l)
    ensures t.jobs[l.jobId].leaseExpires == if op.RenewOp? && l in op.leases then now + op.leaseMs else s.jobs[l.jobId].leaseExpires
  {
    StoreFollowsTheTable(s, now, op, t, l.jobId);
    HeldRuns(s, now, op, t, l.jobId);
    if Renews(s, op, l.jobId) {
      var m :| m in op.leases && m.jobId == l.jobId && Current(s, m);
      assert m == l;
    }
  }

  lemma HeldRuns(s: MemState, now: int, op: Op, t: MemState, id: string)
    requires id in s.jobs && id in t.jobs && StepOf(s, now, op, t, id) && s.jobs[id].state == Running && t.jobs[id].state == Running
    ensures t.jobs[id].leaseExpires == if Renews(s, op, id) then now + op.leaseMs else s.jobs[id].leaseExpires
  {
  }

  lemma LeaseAtGrant(r: Run, l: LeaseRef, i: nat)
    requires r.Ok() && i < |r.ops| && HeldSince(r, l, i, i + 1)
    ensures l.jobId in r.states[i + 1].jobs && r.states[i + 1].jobs[l.jobId].leaseExpires == r.times[i] + r.ops[i].req.leaseMs
  {
    var k :| 0 <= k < |r.ops[i].adm.claims| && r.ops[i].adm.claims[k].env.id == l.jobId && r.ops[i].adm.claims[k].fence == l.fence;
    assert r.StepAt(i);
    GrantSetsLease(r.states[i], r.times[i], r.ops[i], r.states[i + 1], k);
  }

  lemma {:induction false} LeaseRecord(r: Run, l: LeaseRef, i: nat, j: nat)
    requires r.Ok() && i < j <= |r.ops| && HeldSince(r, l, i, j)
    ensures l.jobId in r.states[j].jobs && r.states[j].jobs[l.jobId].leaseExpires == LeaseEnd(r, l, i, j)
    decreases j
  {
    assert Current(r.states[j], l);
    if j == i + 1 {
      LeaseAtGrant(r, l, i);
    } else {
      LeaseRecord(r, l, i, j - 1);
      RecordsStayOk(r, j - 1);
      assert r.StepAt(j - 1) && Current(r.states[j - 1], l);
      LeaseStep(r.states[j - 1], r.times[j - 1], r.ops[j - 1], r.states[j], l);
    }
  }

  // A claim is reclaimed no earlier than its lease, as last renewed, is over, and then only left out for want of room.
  lemma ReclaimedAfterTheLease(r: Run, l: LeaseRef, i: nat, j: nat)
    requires r.Ok() && i < j < |r.ops| && HeldSince(r, l, i, j) && r.ops[j].SweepOp? && r.ops[j].kind == Reclaim
    ensures l.jobId in r.ops[j].out ==> LeaseEnd(r, l, i, j) <= r.times[j]
    ensures LeaseEnd(r, l, i, j) <= r.times[j] && l.jobId !in r.ops[j].out ==> |r.ops[j].out| >= r.ops[j].limit
  {
    LeaseRecord(r, l, i, j);
    assert r.StepAt(j) && Current(r.states[j], l);
  }

  // ---- Retention ----

  lemma {:induction false} FinishedStays(r: Run, id: string, i: nat, j: nat)
    requires r.Ok() && i <= j <= |r.ops| && StoredFrom(r, id, i, j) && Terminal(r.states[i].jobs[id].state)
    ensures r.states[j].jobs[id] == r.states[i].jobs[id]
    decreases j
  {
    if i < j {
      FinishedStays(r, id, i, j - 1);
      StepAtFollows(r, j - 1, id);
      FinishedStep(r.states[j - 1], r.times[j - 1], r.ops[j - 1], r.states[j], id);
    }
  }

  lemma FinishedStep(s: MemState, now: int, op: Op, t: MemState, id: string)
    requires id in s.jobs && id in t.jobs && StepOf(s, now, op, t, id) && Terminal(s.jobs[id].state)
    ensures t.jobs[id] == s.jobs[id]
  {
  }

  // A job that finished at step i is evicted no earlier than its retention allows, and a quarantined one or
  // one without retention never; after that it is only left out for want of room.
  lemma EvictedAfterRetention(r: Run, id: string, i: nat, j: nat)
    requires r.Ok() && i < j < |r.ops| && id in r.states[i].jobs && TriggerOf(r.states[i], r.ops[i], id).Some?
    requires StoredFrom(r, id, i + 1, j) && Terminal(r.states[i + 1].jobs[id].state)
    requires r.ops[j].SweepOp? && r.ops[j].kind == Evict
    ensures var b := r.states[i + 1].jobs[id];
            && (id in r.ops[j].out ==> b.state != Quarantined && b.env.retentionMs > 0 && r.times[i] + b.env.retentionMs <= r.times[j])
            && (b.state != Quarantined && b.env.retentionMs > 0 && r.times[i] + b.env.retentionMs <= r.times[j] && id !in r.ops[j].out ==>
                  |r.ops[j].out| >= r.ops[j].limit)
  {
    FinishTimeAt(r, i, id);
    FinishedStays(r, id, i + 1, j);
    assert r.StepAt(j);
    EvictionIsPunctual(r.states[j], r.times[j], r.ops[j].limit, r.ops[j].out, id);
  }

  lemma FinishTime(s: MemState, now: int, op: Op, t: MemState, id: string)
    requires id in s.jobs && id in t.jobs && StepOf(s, now, op, t, id) && TriggerOf(s, op, id).Some? && Terminal(t.jobs[id].state)
    ensures t.jobs[id].finalizedAt == now
  {
  }

  lemma FinishTimeAt(r: Run, i: nat, id: string)
    requires r.Ok() && i < |r.ops| && id in r.states[i].jobs && id in r.states[i + 1].jobs
    requires TriggerOf(r.states[i], r.ops[i], id).Some? && Terminal(r.states[i + 1].jobs[id].state)
    ensures r.states[i + 1].jobs[id].finalizedAt == r.times[i]
  {
    StepAtFollows(r, i, id);
    FinishTime(r.states[i], r.times[i], r.ops[i], r.states[i + 1], id);
  }

  lemma EvictionIsPunctual(s: MemState, now: int, limit: int, out: seq<string>, id: string)
    requires Swept(Evict, s, now, limit, out) && id in s.jobs && Terminal(s.jobs[id].state)
    ensures var j := s.jobs[id];
            var over := j.state != Quarantined && j.env.retentionMs > 0 && j.finalizedAt + j.env.retentionMs <= now;
            (id in out ==> over) && (over && id !in out ==> |out| >= limit)
  {
  }
}
