// Grafts and failed-subgraph retries: how receipts are accepted, finished and refused
// (go/headgateworkflow/coordinator.go).
module Receipts {
  import opened Common
  import opened WorkflowGraph
  import opened WorkflowTick
  import opened WorkflowWorld
  import opened WorkflowStore

  // The step may have accepted one receipt, and leaves the local cursor equal to the durable one.
  ghost predicate Reconciled(c: Config, s: World, t: World, cur: Cursor, err: bool) {
    && Inv(c, t) && Grows(s, t) && |t.accepted| <= |s.accepted| + 1
    && (!err ==> cur == Normalize(t.cursor) && !cur.autoRetry)
  }

  lemma ReconciledSince(c: Config, s: World, t: World, u: World, cur: Cursor, err: bool)
    requires Kept(c, s, t) && Reconciled(c, t, u, cur, err)
    ensures Reconciled(c, s, u, cur, err)
  {
  }

  function JobsOf(nodes: seq<NodeSpec>): seq<JobId> {
    seq(|nodes|, i requires 0 <= i < |nodes| => NodeJob(nodes[i].jobId))
  }

  // The job has moved on, so that it cannot be taken back.
  predicate Firm(s: World, id: JobId) {
    id in s.jobs && !Deletable(s.jobs[id].state)
  }

  // Looks at one job of a refused receipt and takes it back.
  method TakeBack(w: Store, id: JobId) returns (err: bool)
    requires Inv(w.c, w.s)
    modifies w
    ensures Kept(w.c, old(w.s), w.s)
    ensures !err ==> id !in w.s.jobs
    ensures w.Later() && (w.Alone() ==> (err <==> Firm(old(w.s), id)))
    ensures w.Alone() ==> w.s.jobs == if err then old(w.s.jobs) else old(w.s.jobs) - {id}
  {
    var job, lost := w.GetJob(id);
    if lost {
      return true;
    }
    if job.Some? {
      if !Deletable(job.value.state) {
        return true;
      }
      lost := w.DeleteJob(id);
      return lost;
    }
    return false;
  }

  // The first i jobs have been taken back, each in its own world.
  ghost predicate TakenBack(c: Config, s: World, ids: seq<JobId>, i: nat, seen: seq<World>)
    requires i <= |ids|
  {
    AllKept(c, s, seen) && |seen| == i && forall k :: 0 <= k < i ==> ids[k] !in seen[k].jobs
  }

  lemma OneMoreTakenBack(c: Config, s: World, t: World, u: World, ids: seq<JobId>, i: nat, seen: seq<World>)
    requires i < |ids| && TakenBack(c, s, ids, i, seen) && Kept(c, s, t) && Kept(c, t, u) && ids[i] !in u.jobs
    ensures TakenBack(c, s, ids, i + 1, seen + [u])
  {
    KeptTrans(c, s, t, u);
  }

  // Nobody else acted: exactly the first i jobs are gone.
  ghost predicate OnlyTaken(s: World, t: World, ids: seq<JobId>, i: nat)
    requires i <= |ids|
  {
    forall id :: if id in ids[..i] then id !in t.jobs else (id in t.jobs <==> id in s.jobs) && (id in t.jobs ==> t.jobs[id] == s.jobs[id])
  }

  lemma OneMoreGone(s: World, t: World, u: World, ids: seq<JobId>, i: nat, err: bool)
    requires i < |ids| && OnlyTaken(s, t, ids, i) && err == Firm(t, ids[i]) && u.jobs == if err then t.jobs else t.jobs - {ids[i]}
    ensures if err then ids[i] in ids && Firm(s, ids[i]) else OnlyTaken(s, u, ids, i + 1)
  {
    TakeSnoc(ids, i);
  }

  lemma AllGone(s: World, t: World, ids: seq<JobId>)
    requires OnlyTaken(s, t, ids, |ids|)
    ensures t.jobs == s.jobs - Elems(ids)
  {
    TakeAll(ids);
  }

  // Takes the jobs back one after the other.
  method TakeAllBack(w: Store, ids: seq<JobId>) returns (err: bool, ghost seen: seq<World>)
    requires Inv(w.c, w.s)
    modifies w
    ensures Kept(w.c, old(w.s), w.s)
    ensures !err ==> TakenBack(w.c, old(w.s), ids, |ids|, seen) && (ids != [] ==> ids[|ids| - 1] !in w.s.jobs)
    ensures w.Later()
    ensures w.Alone() && err ==> exists id :: id in ids && Firm(old(w.s), id)
    ensures w.Alone() && !err ==> OnlyTaken(old(w.s), w.s, ids, |ids|)
  {
    seen := [];
    for i := 0 to |ids|
      invariant Kept(w.c, old(w.s), w.s) && w.Later() && TakenBack(w.c, old(w.s), ids, i, seen)
      invariant i > 0 ==> ids[i - 1] !in w.s.jobs
      invariant w.Alone() ==> OnlyTaken(old(w.s), w.s, ids, i)
    {
      ghost var now := w.s;
      err := TakeBack(w, ids[i]);
      if w.Alone() {
        OneMoreGone(old(w.s), now, w.s, ids, i, err);
      }
      if err {
        return;
      }
      OneMoreTakenBack(w.c, old(w.s), now, w.s, ids, i, seen);
      seen := seen + [w.s];
    }
    err := false;
  }

  // Deletes a refused receipt and the jobs it brought, unless they already moved.
  method RejectGraft(w: Store, receipt: JobId, nodes: seq<NodeSpec>) returns (err: bool, ghost seen: seq<World>)
    requires Inv(w.c, w.s)
    modifies w
    ensures Kept(w.c, old(w.s), w.s)
    ensures !err ==> receipt !in w.s.jobs
    ensures !err ==> TakenBack(w.c, old(w.s), JobsOf(nodes) + [receipt], |nodes| + 1, seen)
    ensures w.Later()
    ensures w.Alone() && err ==> exists id :: id in JobsOf(nodes) + [receipt] && Firm(old(w.s), id)
    ensures w.Alone() && !err ==> w.s.jobs == old(w.s.jobs) - Elems(JobsOf(nodes) + [receipt])
  {
    var ids := JobsOf(nodes) + [receipt];
    err, seen := TakeAllBack(w, ids);
    if w.Alone() && !err {
      AllGone(old(w.s), w.s, ids);
    }
  }

  predicate Retriable(s: JobState) {
    s !in {Quarantined, Undecodable}
  }

  // The stopped jobs among the nodes, each as it was found when its turn came.
  ghost function Stopped(nodes: seq<NodeSpec>, seen: seq<World>): seq<JobId>
    requires |nodes| == |seen|
  {
    if nodes == [] then []
    else
      var id, t := NodeJob(nodes[|nodes| - 1].jobId), seen[|seen| - 1];
      Stopped(nodes[..|nodes| - 1], seen[..|seen| - 1])
      + if id in t.jobs && IsStopped(t.jobs[id].state) then [id] else []
  }

  ghost predicate FoundRetriable(n: NodeSpec, t: World) {
    NodeJob(n.jobId) in t.jobs && Retriable(t.jobs[NodeJob(n.jobId)].state)
  }

  lemma StoppedSnoc(nodes: seq<NodeSpec>, i: nat, seen: seq<World>, t: World)
    requires i < |nodes| && |seen| == i
    ensures var id := NodeJob(nodes[i].jobId);
            Stopped(nodes[..i + 1], seen + [t]) ==
            Stopped(nodes[..i], seen) + if id in t.jobs && IsStopped(t.jobs[id].state) then [id] else []
  {
    TakeSnoc(nodes, i);
    assert (seen + [t])[..i] == seen;
  }

  method ReadForRetry(w: Store, n: NodeSpec) returns (stopped: bool, err: bool)
    requires Inv(w.c, w.s)
    modifies w
    ensures Kept(w.c, old(w.s), w.s)
    ensures !err ==> FoundRetriable(n, w.s) && stopped == IsStopped(w.s.jobs[NodeJob(n.jobId)].state)
    ensures !err && !stopped ==> NodeJob(n.jobId) !in w.s.dormant
    ensures w.Later() && (w.Heard() && err ==> !FoundRetriable(n, w.s)) && (w.Alone() ==> w.s == old(w.s))
    ensures !w.Heard() ==> err
  {
    var job, lost := w.GetJob(NodeJob(n.jobId));
    if lost || job.None? || !Retriable(job.value.state) {
      return false, true;
    }
    return IsStopped(job.value.state), false;
  }

  // Some node of the graph cannot be retried in this world.
  ghost predicate Unretriable(nodes: seq<NodeSpec>, s: World) {
    exists n :: n in nodes && !FoundRetriable(n, s)
  }

  // Lists exactly the jobs that were archived or cancelled; a node that cannot be retried is an error.
  // Whatever is still dormant is on the list.
  method FailedNodesToRetry(w: Store, nodes: seq<NodeSpec>) returns (jobs: seq<JobId>, err: bool, ghost seen: seq<World>)
    requires Inv(w.c, w.s) && nodes == EffectiveWorkflow(w.c, w.s.cursor).nodes
    modifies w
    ensures Kept(w.c, old(w.s), w.s) && AllKept(w.c, old(w.s), seen)
    ensures !err ==> |seen| == |nodes| && jobs == Stopped(nodes, seen)
    ensures !err ==> forall i :: 0 <= i < |nodes| ==> FoundRetriable(nodes[i], seen[i])
    ensures !err ==> w.s.dormant <= Elems(jobs)
    ensures w.Later() && (w.Heard() && err ==> Unretriable(nodes, w.s)) && (!err ==> w.Heard())
    ensures w.Alone() ==> w.s == old(w.s) && forall t :: t in seen ==> t == old(w.s)
  {
    jobs, seen := [], [];
    for i := 0 to |nodes|
      invariant Kept(w.c, old(w.s), w.s) && AllKept(w.c, old(w.s), seen)
      invariant ListedTo(nodes, i, jobs, seen, w.s.dormant)
      invariant w.Later() && w.Heard() && (w.Alone() ==> w.s == old(w.s) && forall t :: t in seen ==> t == old(w.s))
    {
      ghost var before := w.s;
      var stopped, lost := ReadForRetry(w, nodes[i]);
      KeptTrans(w.c, old(w.s), before, w.s);
      if lost {
        assert nodes[i] in nodes;
        return jobs, true, seen;
      }
      ListedOneMore(nodes, i, jobs, seen, before.dormant, w.s, stopped);
      seen := seen + [w.s];
      if stopped {
        jobs := jobs + [NodeJob(nodes[i].jobId)];
      }
    }
    TakeAll(nodes);
    DormantAreListed(w.s, nodes, jobs);
    err := false;
  }

  // The first i nodes have been read; what is still dormant among them is listed.
  ghost predicate ListedTo(nodes: seq<NodeSpec>, i: nat, jobs: seq<JobId>, seen: seq<World>, dormant: set<JobId>)
    requires i <= |nodes|
  {
    && |seen| == i && jobs == Stopped(nodes[..i], seen)
    && (forall k :: 0 <= k < i ==> FoundRetriable(nodes[k], seen[k]))
    && (forall k :: 0 <= k < i && NodeJob(nodes[k].jobId) in dormant ==> NodeJob(nodes[k].jobId) in jobs)
  }

  lemma ListedOneMore(nodes: seq<NodeSpec>, i: nat, jobs: seq<JobId>, seen: seq<World>, dormant: set<JobId>, t: World, stopped: bool)
    requires i < |nodes| && ListedTo(nodes, i, jobs, seen, dormant) && t.dormant <= dormant
    requires FoundRetriable(nodes[i], t) && stopped == IsStopped(t.jobs[NodeJob(nodes[i].jobId)].state)
    requires !stopped ==> NodeJob(nodes[i].jobId) !in t.dormant
    ensures ListedTo(nodes, i + 1, if stopped then jobs + [NodeJob(nodes[i].jobId)] else jobs, seen + [t], t.dormant)
  {
    StoppedSnoc(nodes, i, seen, t);
  }

  lemma DormantAreListed(s: World, nodes: seq<NodeSpec>, jobs: seq<JobId>)
    requires WakeOk(nodes, s)
    requires forall k :: 0 <= k < |nodes| && NodeJob(nodes[k].jobId) in s.dormant ==> NodeJob(nodes[k].jobId) in jobs
    ensures s.dormant <= Elems(jobs)
  {
    forall id | id in s.dormant
      ensures id in jobs
    {
      var n :| n in nodes && id == NodeJob(n.jobId);
      var k :| 0 <= k < |nodes| && nodes[k] == n;
    }
  }

  // A list made by reading every node once, after s, and finding each of them fit for a retry.
  ghost predicate Listing(c: Config, s: World, nodes: seq<NodeSpec>, jobs: seq<JobId>) {
    exists seen :: ListedIn(c, s, nodes, jobs, seen)
  }

  ghost predicate ListedIn(c: Config, s: World, nodes: seq<NodeSpec>, jobs: seq<JobId>, seen: seq<World>) {
    && AllKept(c, s, seen) && |seen| == |nodes| && jobs == Stopped(nodes, seen)
    && forall i :: 0 <= i < |nodes| ==> FoundRetriable(nodes[i], seen[i])
  }

  lemma {:induction false} StoppedAreNodes(nodes: seq<NodeSpec>, seen: seq<World>, x: JobId)
    requires |nodes| == |seen| && x in Stopped(nodes, seen)
    ensures exists i :: 0 <= i < |nodes| && x == NodeJob(nodes[i].jobId) && x in seen[i].jobs && IsStopped(seen[i].jobs[x].state)
  {
    var init, last := nodes[..|nodes| - 1], seen[..|seen| - 1];
    if x in Stopped(init, last) {
      StoppedAreNodes(init, last, x);
      var i :| 0 <= i < |init| && x == NodeJob(init[i].jobId) && x in last[i].jobs && IsStopped(last[i].jobs[x].state);
      assert nodes[i] == init[i] && seen[i] == last[i];
    } else {
      assert x == NodeJob(nodes[|nodes| - 1].jobId);
    }
  }

  // Distinct tasks have distinct jobs, so no job is listed twice.
  lemma {:induction false} StoppedAreDistinct(c: Config, nodes: seq<NodeSpec>, seen: seq<World>)
    requires |nodes| == |seen| && Owned(c, nodes) && UniqueNames(nodes)
    ensures Distinct(Stopped(nodes, seen))
  {
    if nodes != [] {
      var k := |nodes| - 1;
      var init, last := nodes[..k], seen[..k];
      StoppedAreDistinct(c, init, last);
      forall i | 0 <= i < k
        ensures nodes[i].jobId != nodes[k].jobId
      {
        assert nodes[i] in nodes && nodes[k] in nodes;
      }
      if NodeJob(nodes[k].jobId) in Stopped(init, last) {
        StoppedAreNodes(init, last, NodeJob(nodes[k].jobId));
      }
    }
  }

  // The listed jobs can be reopened one after the other.
  ghost predicate AllReopenable(s: World, jobs: seq<JobId>) {
    Distinct(jobs) && forall x :: x in jobs ==> Reopenable(s, x)
  }

  // The same list, for callers that go on to reopen it.
  method JobsToReopen(w: Store, nodes: seq<NodeSpec>) returns (jobs: seq<JobId>, err: bool)
    requires Inv(w.c, w.s) && nodes == EffectiveWorkflow(w.c, w.s.cursor).nodes
    modifies w
    ensures Kept(w.c, old(w.s), w.s)
    ensures !err ==> Listing(w.c, old(w.s), nodes, jobs) && w.s.dormant <= Elems(jobs)
    ensures !err ==> forall x :: x in jobs ==> exists n :: n in nodes && x == NodeJob(n.jobId)
    ensures w.Later() && (w.Heard() && err ==> Unretriable(nodes, w.s)) && (!err ==> w.Heard())
    ensures w.Alone() ==> w.s == old(w.s) && (!err ==> AllReopenable(w.s, jobs))
  {
    ghost var seen;
    jobs, err, seen := FailedNodesToRetry(w, nodes);
    if !err {
      assert ListedIn(w.c, old(w.s), nodes, jobs, seen);
      StoppedAreDistinct(w.c, nodes, seen);
      forall x | x in jobs
        ensures exists n :: n in nodes && x == NodeJob(n.jobId)
        ensures w.Alone() ==> Reopenable(w.s, x)
      {
        StoppedAreNodes(nodes, seen, x);
        var i :| 0 <= i < |nodes| && x == NodeJob(nodes[i].jobId) && x in seen[i].jobs && IsStopped(seen[i].jobs[x].state);
        assert nodes[i] in nodes && seen[i] in seen;
      }
    }
  }

  // Jobs that are not listed are as they were.
  ghost predicate SameElsewhere(s: World, t: World, jobs: seq<JobId>) {
    forall id :: id !in jobs ==> (id in t.jobs <==> id in s.jobs) && (id in t.jobs ==> t.jobs[id] == s.jobs[id])
  }

  lemma OneMoreElsewhere(s: World, t: World, u: World, jobs: seq<JobId>, i: nat, err: bool)
    requires i < |jobs| && SameElsewhere(s, t, jobs[..i]) && err == !Reopenable(t, jobs[i])
    requires u == if err then t else Reopened(t, jobs[i])
    ensures SameElsewhere(s, u, jobs[..i + 1]) && SameElsewhere(s, u, jobs)
    ensures err ==> !AllReopenable(s, jobs)
  {
    TakeSnoc(jobs, i);
    if err && Distinct(jobs) {
      assert jobs[i] in jobs && jobs[i] !in jobs[..i];
    }
  }

  // The first i jobs have been made available, each in its own world.
  ghost predicate OpenedTo(c: Config, s: World, jobs: seq<JobId>, i: nat, seen: seq<World>)
    requires i <= |jobs|
  {
    AllKept(c, s, seen) && |seen| == i
    && forall k :: 0 <= k < i ==> jobs[k] in seen[k].jobs && seen[k].jobs[jobs[k]].state == Available
  }

  lemma OneMoreOpened(c: Config, s: World, t: World, u: World, jobs: seq<JobId>, i: nat, seen: seq<World>)
    requires i < |jobs| && OpenedTo(c, s, jobs, i, seen) && Kept(c, s, t) && Kept(c, t, u)
    requires jobs[i] in u.jobs && u.jobs[jobs[i]].state == Available
    ensures OpenedTo(c, s, jobs, i + 1, seen + [u]) && jobs[i] !in u.dormant
  {
    KeptTrans(c, s, t, u);
  }

  // Every listed job was made available again, one after the other, and is dormant no longer.
  method ReopenFailedNodes(w: Store, jobs: seq<JobId>) returns (err: bool, ghost seen: seq<World>)
    requires Inv(w.c, w.s)
    modifies w
    ensures Kept(w.c, old(w.s), w.s)
    ensures !err ==> OpenedTo(w.c, old(w.s), jobs, |jobs|, seen)
    ensures !err ==> w.s.dormant !! Elems(jobs)
    ensures w.Later() && (w.Alone() && err ==> !AllReopenable(old(w.s), jobs))
    ensures w.Alone() ==> SameElsewhere(old(w.s), w.s, jobs)
  {
    seen := [];
    for i := 0 to |jobs|
      invariant Kept(w.c, old(w.s), w.s) && w.Later() && OpenedTo(w.c, old(w.s), jobs, i, seen)
      invariant forall k :: 0 <= k < i ==> jobs[k] !in w.s.dormant
      invariant w.Alone() ==> SameElsewhere(old(w.s), w.s, jobs[..i])
    {
      ghost var now := w.s;
      err := w.OperatorRetry(jobs[i]);
      if w.Alone() {
        OneMoreElsewhere(old(w.s), now, w.s, jobs, i, err);
      }
      if err {
        return;
      }
      OneMoreOpened(w.c, old(w.s), now, w.s, jobs, i, seen);
      seen := seen + [w.s];
    }
    TakeAll(jobs);
    err := false;
  }

  // Lists the stopped jobs and reopens them: nothing is dormant afterwards.
  method Reopen(w: Store, nodes: seq<NodeSpec>) returns (err: bool)
    requires Inv(w.c, w.s) && nodes == EffectiveWorkflow(w.c, w.s.cursor).nodes
    modifies w
    ensures Kept(w.c, old(w.s), w.s)
    ensures !err ==> w.s.dormant == {}
    ensures w.Later() && (w.Alone() && err ==> Unretriable(nodes, old(w.s)))
    ensures w.Alone() ==> forall id: JobId :: !id.NodeJob? ==> IsPending(w.s, id) == IsPending(old(w.s), id)
  {
    var jobs;
    jobs, err := JobsToReopen(w, nodes);
    if !err {
      ghost var seen;
      err, seen := ReopenFailedNodes(w, jobs);
    }
  }

  // Reopens whatever is stopped and then lets the receipt go.
  method ResumeRetry(w: Store, nodes: seq<NodeSpec>, id: JobId) returns (err: bool)
    requires Inv(w.c, w.s) && nodes == EffectiveWorkflow(w.c, w.s.cursor).nodes && id.RetryReceipt?
    modifies w
    ensures Held(w.c, old(w.s), w.s)
    ensures !err ==> w.s.dormant == {} && id in w.s.jobs && w.s.jobs[id].state == Available
    ensures w.Later() && (w.Alone() && err ==> Unretriable(nodes, old(w.s)) || !IsPending(old(w.s), id))
  {
    err := Reopen(w, nodes);
    if !err {
      err := w.PromoteReceiptJob(id);
    }
  }

  // The receipt was seen after s, in such a state.
  ghost predicate SawState(c: Config, s: World, id: JobId, states: set<JobState>) {
    exists t :: Kept(c, s, t) && id in t.jobs && t.jobs[id].state in states
  }

  // Records that an accepted receipt has done its part.
  method ForgetReceipt(w: Store, cur0: Cursor, cur: Cursor) returns (err: bool)
    requires Inv(w.c, w.s) && cur0 == Normalize(w.s.cursor) && !cur0.autoRetry
    requires cur == cur0.(pendingRetry := None) || cur == cur0.(pendingGraft := None)
    modifies w
    ensures Reconciled(w.c, old(w.s), w.s, cur, err) && w.s.accepted == old(w.s.accepted)
    ensures w.Later() && (err <==> !w.Heard()) && (w.Alone() ==> w.s.jobs == old(w.s.jobs))
  {
    FlagWrite(w.c, w.s, cur);
    err := w.Persist(cur, Plain);
  }

  // The receipt is available, and a retry has no job left to reopen.
  predicate LetGo(s: World, id: JobId) {
    id in s.jobs && s.jobs[id].state == Available && (id.RetryReceipt? ==> s.dormant == {})
  }

  // How far an accepted receipt has come: it is on its way, it was let go just now, or it is completed.
  ghost predicate ReceiptStep(c: Config, s: World, t: World, id: JobId, handled: bool) {
    if handled then
      || SawState(c, s, id, {Available, Running})
      || (SawState(c, s, id, {Pending}) && LetGo(t, id))
    else SawState(c, s, id, {Completed})
  }

  // An accepted receipt that cannot go on: it is gone or came to an end other than completion.
  predicate Derailed(s: World, id: JobId) {
    id !in s.jobs || s.jobs[id].state !in {Pending, Available, Running, Completed}
  }

  // Finishes a retry that was accepted earlier. handled is false once its receipt has completed.
  method FinishRetry(w: Store, cur0: Cursor, receipt: nat) returns (handled: bool, err: bool, cur: Cursor)
    requires Inv(w.c, w.s) && cur0 == Normalize(w.s.cursor) && !cur0.autoRetry
    modifies w
    ensures Reconciled(w.c, old(w.s), w.s, cur, err) && w.s.accepted == old(w.s.accepted)
    ensures !err ==> ReceiptStep(w.c, old(w.s), w.s, RetryReceipt(receipt), handled)
    ensures !err ==> cur == if handled then cur0 else cur0.(pendingRetry := None)
    ensures w.Later()
    ensures w.Alone() && err ==>
              || Derailed(old(w.s), RetryReceipt(receipt))
              || (IsPending(old(w.s), RetryReceipt(receipt)) && Unretriable(EffectiveWorkflow(w.c, cur0).nodes, old(w.s)))
    ensures w.Alone() && !err && !handled ==> w.s.jobs == old(w.s.jobs)
  {
    cur := cur0;
    var job, lost := w.GetJob(RetryReceipt(receipt));
    if lost || job.None? {
      return true, true, cur;
    }
    match job.value.state {
      case Pending =>
        lost := ResumeRetry(w, EffectiveWorkflow(w.c, cur).nodes, RetryReceipt(receipt));
        return true, lost, cur;
      case Available | Running =>
        return true, false, cur;
      case Completed =>
        cur := cur.(pendingRetry := None);
        lost := ForgetReceipt(w, cur0, cur);
        return lost, lost, cur;
      case _ =>
        return true, true, cur;
    }
  }

  // Passing the retry on to failed child workflows touches other workflows only.
  method RetryFailedChildren(w: Store) returns (err: bool)
    requires Inv(w.c, w.s)
    modifies w
    ensures Kept(w.c, old(w.s), w.s)
    ensures w.Later() && (err <==> !w.Heard()) && (w.Alone() ==> w.s == old(w.s))
  {
    var fate := w.Elapse();
    return fate != Answered;
  }

  // There was a graft receipt for this revision.
  ghost predicate Competed(c: Config, s: World, revision: nat) {
    exists t :: Kept(c, s, t) && GraftReceipt(revision) in t.jobs
  }

  // A graft receipt that competes with an acceptable retry loses.
  method RejectCompetingGraft(w: Store, revision: nat) returns (err: bool)
    requires Inv(w.c, w.s)
    modifies w
    ensures Kept(w.c, old(w.s), w.s)
    ensures !err ==> GraftReceipt(revision) !in w.s.jobs
    ensures w.Later() && (w.Heard() && err ==> Competed(w.c, old(w.s), revision))
    ensures w.Alone() && err ==> Hinders(old(w.s), GraftReceipt(revision))
    ensures w.Alone() && GraftReceipt(revision) !in old(w.s.jobs) ==> w.s == old(w.s)
  {
    var competing, lost := w.GetJob(GraftReceipt(revision));
    if lost {
      return true;
    }
    if competing.None? {
      return false;
    }
    if competing.value.state != Pending {
      return true;
    }
    var nodes := if competing.value.payload.GraftArgs? then competing.value.payload.nodes else [];
    ghost var seen;
    err, seen := RejectGraft(w, GraftReceipt(revision), nodes);
  }

  // The receipt of a graft cannot be taken back: it has moved, or one of the jobs it brought has.
  ghost predicate Hinders(s: World, id: JobId) {
    id in s.jobs && (s.jobs[id].state != Pending
                     || (s.jobs[id].payload.GraftArgs? && exists n :: n in s.jobs[id].payload.nodes && Firm(s, NodeJob(n.jobId))))
  }

  // Competing grafts go, and children are told.
  method ClearGrafts(w: Store, revision: nat) returns (lost: bool)
    requires Inv(w.c, w.s)
    modifies w
    ensures Kept(w.c, old(w.s), w.s)
    ensures !lost ==> Cleared(w.c, old(w.s), revision)
    ensures w.Later() && (w.Heard() && lost ==> Competed(w.c, old(w.s), revision))
    ensures w.Alone() && GraftReceipt(revision) !in old(w.s.jobs) ==> !lost && w.s == old(w.s)
  {
    lost := RejectCompetingGraft(w, revision);
    if !lost {
      lost := RetryFailedChildren(w);
    }
  }

  // What comes before a retry is accepted: competing grafts go, children are told, jobs are listed.
  method ClearTheWay(w: Store, revision: nat, nodes: seq<NodeSpec>) returns (jobs: seq<JobId>, lost: bool, refused: bool)
    requires Inv(w.c, w.s) && nodes == EffectiveWorkflow(w.c, w.s.cursor).nodes
    modifies w
    ensures Kept(w.c, old(w.s), w.s)
    ensures !lost && !refused ==> Listing(w.c, old(w.s), nodes, jobs) && Cleared(w.c, old(w.s), revision)
    ensures !lost && !refused ==> forall x :: x in jobs ==> exists n :: n in nodes && x == NodeJob(n.jobId)
    ensures w.Later() && (w.Heard() && lost ==> Competed(w.c, old(w.s), revision))
    ensures w.Heard() && refused ==> Unretriable(nodes, w.s)
    ensures w.Alone() && GraftReceipt(revision) !in old(w.s.jobs) ==>
              !lost && w.s == old(w.s) && (!refused ==> AllReopenable(w.s, jobs))
  {
    jobs, refused := [], false;
    lost := ClearGrafts(w, revision);
    if !lost {
      ghost var now := w.s;
      jobs, refused := JobsToReopen(w, nodes);
      KeptTrans(w.c, old(w.s), now, w.s);
      if !refused {
        ListingSince(w.c, old(w.s), now, nodes, jobs);
      }
    }
  }

  // At some time no graft receipt for this revision was left.
  ghost predicate Cleared(c: Config, s: World, revision: nat) {
    exists t :: Kept(c, s, t) && GraftReceipt(revision) !in t.jobs
  }

  lemma ListingSince(c: Config, s: World, t: World, nodes: seq<NodeSpec>, jobs: seq<JobId>)
    requires Kept(c, s, t) && Listing(c, t, nodes, jobs)
    ensures Listing(c, s, nodes, jobs)
  {
    var seen :| ListedIn(c, t, nodes, jobs, seen);
    forall u | u in seen
      ensures Kept(c, s, u)
    {
      KeptTrans(c, s, t, u);
    }
    assert ListedIn(c, s, nodes, jobs, seen);
  }

  // The receipt is pending, with this payload.
  predicate Waits(s: World, id: JobId, p: Payload) {
    IsPending(s, id) && s.jobs[id].payload == p
  }

  // The receipt under an id, if it is there and still pending.
  method ReadReceipt(w: Store, id: JobId) returns (p: Option<Payload>, err: bool)
    requires Inv(w.c, w.s)
    modifies w
    ensures Kept(w.c, old(w.s), w.s)
    ensures !err && p.Some? ==> (id, p.value) in w.s.submitted && Waits(w.s, id, p.value)
    ensures !err && p.None? ==> id !in w.s.jobs
    ensures w.Later() && (w.Heard() && err ==> LeftPendingId(w.s, id)) && (!w.Heard() ==> err) && (w.Alone() ==> w.s == old(w.s))
  {
    var job, lost := w.GetJob(id);
    if lost {
      return None, true;
    }
    if job.None? {
      return None, false;
    }
    return Some(job.value.payload), job.value.state != Pending;
  }

  // The payload was found under the id after s, still pending.
  ghost predicate Met(c: Config, s: World, id: JobId, p: Payload) {
    exists t :: Kept(c, s, t) && Waits(t, id, p)
  }

  // One more acceptance, and it is this one.
  ghost predicate Took(s: World, t: World, entry: Acceptance) {
    t.accepted == s.accepted + [entry]
  }

  // A retry of this workflow against this revision, which has failed and allows retries.
  predicate RetryFits(c: Config, cur: Cursor, p: Payload) {
    && p.RetryArgs? && c.base.failedSubgraphRetry && cur.failed
    && p.workflowId == c.base.workflowId && p.expectedRevision == cur.revision
  }

  // The retry was accepted as it was read, when no graft competed any more, with exactly the jobs found
  // stopped among nodes that were all found fit for a retry.
  ghost predicate RetryTaken(c: Config, s: World, t: World, revision: nat, p: Payload, nodes: seq<NodeSpec>) {
    exists jobs :: Took(s, t, Acceptance(RetryReceipt(revision), p, jobs)) && Listing(c, s, nodes, jobs) && Cleared(c, s, revision)
  }

  lemma RetryTakenSince(c: Config, s: World, t: World, u: World, revision: nat, p: Payload, nodes: seq<NodeSpec>)
    requires Kept(c, s, t) && RetryTaken(c, t, u, revision, p, nodes)
    ensures RetryTaken(c, s, u, revision, p, nodes)
  {
    var jobs :| Took(t, u, Acceptance(RetryReceipt(revision), p, jobs)) && Listing(c, t, nodes, jobs) && Cleared(c, t, revision);
    ListingSince(c, s, t, nodes, jobs);
    var v :| Kept(c, t, v) && GraftReceipt(revision) !in v.jobs;
    KeptTrans(c, s, t, v);
    assert Took(s, u, Acceptance(RetryReceipt(revision), p, jobs));
  }

  // Why a fitting retry is not accepted although every call was answered: some node was found unfit, or
  // a competing graft could not be taken back.
  ghost predicate RetryRefused(c: Config, s: World, revision: nat, nodes: seq<NodeSpec>, err: bool) {
    (exists t :: Kept(c, s, t) && Unretriable(nodes, t)) || (err && Competed(c, s, revision))
  }

  lemma RetryRefusedSince(c: Config, s: World, t: World, revision: nat, nodes: seq<NodeSpec>, err: bool)
    requires Kept(c, s, t) && RetryRefused(c, t, revision, nodes, err)
    ensures RetryRefused(c, s, revision, nodes, err)
  {
    if v :| Kept(c, t, v) && Unretriable(nodes, v) {
      KeptTrans(c, s, t, v);
    } else {
      var v :| Kept(c, t, v) && GraftReceipt(revision) in v.jobs;
      KeptTrans(c, s, t, v);
    }
  }

  // An accepted receipt is let go and the cursor is the next one; a refused receipt is gone and the cursor the same.
  predicate Ends(s: World, id: JobId, accepted: bool, before: Cursor, next: Cursor, cur: Cursor) {
    if accepted then cur == next && LetGo(s, id) else cur == before && id !in s.jobs
  }

  // A retry is accepted only if it fits, and always if it fits and nothing speaks against it.
  ghost predicate RetryVerdict(c: Config, s: World, t: World, cur: Cursor, p: Payload, err: bool, heard: bool) {
    var nodes := EffectiveWorkflow(c, cur).nodes;
    if t.accepted != s.accepted then RetryFits(c, cur, p) && RetryTaken(c, s, t, cur.revision + 1, p, nodes)
    else heard && RetryFits(c, cur, p) ==> RetryRefused(c, s, cur.revision + 1, nodes, err)
  }

  lemma RetryVerdictSince(c: Config, s: World, t: World, u: World, cur: Cursor, p: Payload, err: bool, heard: bool)
    requires Kept(c, s, t) && RetryVerdict(c, t, u, cur, p, err, heard)
    ensures RetryVerdict(c, s, u, cur, p, err, heard)
  {
    var nodes := EffectiveWorkflow(c, cur).nodes;
    if u.accepted != t.accepted {
      RetryTakenSince(c, s, t, u, cur.revision + 1, p, nodes);
    } else if heard && RetryFits(c, cur, p) {
      RetryRefusedSince(c, s, t, cur.revision + 1, nodes, err);
    }
  }

  // What became of a retry receipt that was read with this payload.
  ghost predicate RetryAnswer(c: Config, s: World, t: World, cur0: Cursor, p: Payload,
                              result: TickResult, err: bool, cur: Cursor, heard: bool) {
    && Reconciled(c, s, t, cur, err) && RetryVerdict(c, s, t, cur0, p, err, heard)
    && (!err ==> Ends(t, RetryReceipt(cur0.revision + 1), t.accepted != s.accepted, cur0, WithRetry(cur0), cur))
    && (!err ==> (result == Failed <==> cur0.failed && t.accepted == s.accepted))
  }

  lemma RetryAnswerSince(c: Config, s: World, t: World, u: World, cur0: Cursor, p: Payload,
                         result: TickResult, err: bool, cur: Cursor, heard: bool)
    requires Kept(c, s, t) && RetryAnswer(c, t, u, cur0, p, result, err, cur, heard)
    ensures RetryAnswer(c, s, u, cur0, p, result, err, cur, heard)
  {
    ReconciledSince(c, s, t, u, cur, err);
    RetryVerdictSince(c, s, t, u, cur0, p, err, heard);
  }

  // The receipt was found with this payload and answered, or there is none, or it could not be read.
  ghost predicate RetryFound(c: Config, s: World, t: World, cur0: Cursor, p: Option<Payload>,
                             result: TickResult, handled: bool, err: bool, cur: Cursor, heard: bool) {
    var id := RetryReceipt(cur0.revision + 1);
    if p.Some? then handled && Met(c, s, id, p.value) && RetryAnswer(c, s, t, cur0, p.value, result, err, cur, heard)
    else Kept(c, s, t) && cur == cur0 && result == Waiting && handled == err && (!err ==> id !in t.jobs)
  }

  // Accepts the retry prepared against the current revision, if there is one and the workflow failed.
  // p is the payload that was read.
  method AcceptNextRetry(w: Store, cur0: Cursor)
    returns (result: TickResult, handled: bool, err: bool, cur: Cursor, ghost p: Option<Payload>)
    requires Inv(w.c, w.s) && cur0 == Normalize(w.s.cursor) && !cur0.autoRetry
    modifies w
    ensures RetryFound(w.c, old(w.s), w.s, cur0, p, result, handled, err, cur, w.Heard())
    ensures w.Later() && (p.None? && err && w.Heard() ==> LeftPendingId(w.s, RetryReceipt(cur0.revision + 1)))
    ensures w.Alone() && err ==> LeftPendingId(old(w.s), RetryReceipt(cur0.revision + 1)) || GraftReceipt(cur0.revision + 1) in old(w.s.jobs)
    ensures w.Alone() && p.None? ==> w.s == old(w.s)
    ensures w.Alone() && p.Some? ==> Waits(old(w.s), RetryReceipt(cur0.revision + 1), p.value)
  {
    var receipt, lost := ReadReceipt(w, RetryReceipt(cur0.revision + 1));
    if lost {
      return Waiting, true, true, cur0, None;
    }
    if receipt.None? {
      return Waiting, false, false, cur0, None;
    }
    ghost var now := w.s;
    p := receipt;
    result, lost, cur := AnswerRetry(w, cur0, receipt.value);
    RetryAnswerSince(w.c, old(w.s), now, w.s, cur0, p.value, result, lost, cur, w.Heard());
    return result, true, lost, cur, p;
  }

  method AnswerRetry(w: Store, cur0: Cursor, p: Payload) returns (result: TickResult, err: bool, cur: Cursor)
    requires Inv(w.c, w.s) && cur0 == Normalize(w.s.cursor) && !cur0.autoRetry
    requires Waits(w.s, RetryReceipt(cur0.revision + 1), p)
    modifies w
    ensures RetryAnswer(w.c, old(w.s), w.s, cur0, p, result, err, cur, w.Heard())
    ensures w.Later() && (w.Alone() && err ==> GraftReceipt(cur0.revision + 1) in old(w.s.jobs))
  {
    if !p.RetryArgs? || !w.c.base.failedSubgraphRetry || !cur0.failed
       || p.workflowId != w.c.base.workflowId || p.expectedRevision != cur0.revision {
      ghost var seen;
      err, seen := RejectGraft(w, RetryReceipt(cur0.revision + 1), []);
      return if cur0.failed then Failed else Waiting, err, cur0;
    }
    result, err, cur := DecideRetry(w, cur0, p);
  }

  lemma FittingIsLegitimate(c: Config, s: World, cur0: Cursor, p: Payload)
    requires Inv(c, s) && cur0 == Normalize(s.cursor) && !cur0.autoRetry && RetryFits(c, cur0, p)
    requires Waits(s, RetryReceipt(cur0.revision + 1), p)
    ensures Legitimate(c, s.submitted, cur0.revision, RetryReceipt(cur0.revision + 1), p)
    ensures c.automaticOnly && c.base.retryPolicy.Some? ==> cur0.generation < c.base.retryPolicy.value.maxGenerations
  {
  }

  lemma RetryWasTaken(c: Config, s: World, t: World, u: World, cur0: Cursor, p: Payload, jobs: seq<JobId>,
                      err: bool, cur: Cursor, heard: bool)
    requires Kept(c, s, t) && RetryFits(c, cur0, p) && Reconciled(c, t, u, cur, err)
    requires Listing(c, s, EffectiveWorkflow(c, cur0).nodes, jobs) && Cleared(c, s, cur0.revision + 1)
    requires Took(t, u, Acceptance(RetryReceipt(cur0.revision + 1), p, jobs)) || (err && u.accepted == t.accepted && !heard)
    requires !err ==> cur == WithRetry(cur0) && LetGo(u, RetryReceipt(cur0.revision + 1))
    ensures RetryAnswer(c, s, u, cur0, p, Waiting, err, cur, heard)
  {
    ReconciledSince(c, s, t, u, cur, err);
    if u.accepted != t.accepted {
      assert Took(s, u, Acceptance(RetryReceipt(cur0.revision + 1), p, jobs));
    }
  }

  lemma RetryWasRefused(c: Config, s: World, t: World, u: World, cur0: Cursor, p: Payload, err: bool, heard: bool)
    requires Kept(c, s, t) && Kept(c, t, u) && RetryFits(c, cur0, p) && cur0 == Normalize(s.cursor) && !cur0.autoRetry
    requires heard ==> Unretriable(EffectiveWorkflow(c, cur0).nodes, t)
    requires !err ==> RetryReceipt(cur0.revision + 1) !in u.jobs
    ensures RetryAnswer(c, s, u, cur0, p, Failed, err, cur0, heard)
  {
    KeptTrans(c, s, t, u);
  }

  lemma RetryAllowed(c: Config, s: World, t: World, cur0: Cursor, p: Payload, jobs: seq<JobId>)
    requires Kept(c, s, t) && cur0 == Normalize(s.cursor) && !cur0.autoRetry && RetryFits(c, cur0, p)
    requires Waits(s, RetryReceipt(cur0.revision + 1), p) && Inv(c, s)
    requires forall x :: x in jobs ==> exists n :: n in EffectiveWorkflow(c, cur0).nodes && x == NodeJob(n.jobId)
    ensures Allowed(c, t, WithRetry(cur0), Take(RetryReceipt(cur0.revision + 1), p, jobs))
  {
    FittingIsLegitimate(c, s, cur0, p);
    assert WithRetry(cur0) == WithRetry(t.cursor);
  }

  // A legitimate retry is accepted unless a node cannot be retried, in which case its receipt goes.
  method DecideRetry(w: Store, cur0: Cursor, p: Payload) returns (result: TickResult, err: bool, cur: Cursor)
    requires Inv(w.c, w.s) && cur0 == Normalize(w.s.cursor) && !cur0.autoRetry && RetryFits(w.c, cur0, p)
    requires Waits(w.s, RetryReceipt(cur0.revision + 1), p)
    modifies w
    ensures RetryAnswer(w.c, old(w.s), w.s, cur0, p, result, err, cur, w.Heard())
    ensures w.Later() && (w.Alone() && err ==> GraftReceipt(cur0.revision + 1) in old(w.s.jobs))
  {
    var jobs, lost, refused := ClearTheWay(w, cur0.revision + 1, EffectiveWorkflow(w.c, cur0).nodes);
    if lost {
      return Waiting, true, cur0;
    }
    ghost var now := w.s;
    if refused {
      ghost var seen;
      lost, seen := RejectGraft(w, RetryReceipt(cur0.revision + 1), []);
      RetryWasRefused(w.c, old(w.s), now, w.s, cur0, p, lost, w.Heard());
      return Failed, lost, cur0;
    }
    RetryAllowed(w.c, old(w.s), w.s, cur0, p, jobs);
    lost, cur := GrantRetry(w, cur0, p, jobs);
    RetryWasTaken(w.c, old(w.s), now, w.s, cur0, p, jobs, lost, cur, w.Heard());
    return Waiting, lost, cur;
  }

  lemma HeldReconciles(c: Config, s: World, t: World, u: World, cur: Cursor, err: bool)
    requires Reconciled(c, s, t, cur, false) && Held(c, t, u)
    ensures Reconciled(c, s, u, cur, err)
  {
  }

  // Acceptance is the cursor write; reopening the jobs and completing the receipt can be repeated.
  method GrantRetry(w: Store, cur0: Cursor, p: Payload, jobs: seq<JobId>) returns (err: bool, cur: Cursor)
    requires Inv(w.c, w.s) && cur0 == Normalize(w.s.cursor) && p.RetryArgs?
    requires Allowed(w.c, w.s, WithRetry(cur0), Take(RetryReceipt(cur0.revision + 1), p, jobs))
    modifies w
    ensures Reconciled(w.c, old(w.s), w.s, cur, err)
    ensures Took(old(w.s), w.s, Acceptance(RetryReceipt(cur0.revision + 1), p, jobs)) || (err && w.s.accepted == old(w.s.accepted))
    ensures !err ==> cur == WithRetry(cur0) && w.s.dormant == {}
    ensures !err ==> var id := RetryReceipt(cur0.revision + 1); id in w.s.jobs && w.s.jobs[id].state == Available
    ensures w.Later() && (w.Heard() ==> Took(old(w.s), w.s, Acceptance(RetryReceipt(cur0.revision + 1), p, jobs)))
    ensures w.Alone() && err ==> !AllReopenable(old(w.s), jobs) || !IsPending(old(w.s), RetryReceipt(cur0.revision + 1))
  {
    cur := WithRetry(cur0);
    err := w.Persist(cur, Take(RetryReceipt(cur0.revision + 1), p, jobs));
    if !err {
      ghost var now := w.s;
      err := WakeJobs(w, RetryReceipt(cur0.revision + 1), jobs);
      HeldReconciles(w.c, old(w.s), now, w.s, cur, err);
    }
  }

  // What is left to do for an accepted retry whose jobs are known.
  method WakeJobs(w: Store, id: JobId, jobs: seq<JobId>) returns (err: bool)
    requires Inv(w.c, w.s) && id.RetryReceipt? && w.s.dormant <= Elems(jobs) && id !in jobs
    modifies w
    ensures Held(w.c, old(w.s), w.s)
    ensures !err ==> w.s.dormant == {} && id in w.s.jobs && w.s.jobs[id].state == Available
    ensures w.Later() && (w.Alone() && err ==> !AllReopenable(old(w.s), jobs) || !IsPending(old(w.s), id))
  {
    ghost var seen;
    err, seen := ReopenFailedNodes(w, jobs);
    if !err {
      err := w.PromoteReceiptJob(id);
    }
  }

  // What can stop the reconciliation of a retry when nobody else acts.
  ghost predicate RetrySnag(c: Config, s: World) {
    var cur := Normalize(s.cursor);
    || (cur.pendingRetry.Some? && var id := RetryReceipt(cur.pendingRetry.value);
          Derailed(s, id) || (IsPending(s, id) && Unretriable(EffectiveWorkflow(c, cur).nodes, s)))
    || LeftPendingId(s, RetryReceipt(cur.revision + 1)) || GraftReceipt(cur.revision + 1) in s.jobs
  }

  // The accepted receipt has been forgotten, or there was none; nothing was accepted since.
  ghost predicate Clean(c: Config, s: World, t: World) {
    Inv(c, t) && Grows(s, t) && t.accepted == s.accepted
  }

  lemma GrowsTrans(s: World, t: World, u: World)
    requires Grows(s, t) && Grows(t, u)
    ensures Grows(s, u)
  {
  }

  lemma CleanReconciles(c: Config, s: World, t: World, u: World, cur: Cursor, err: bool)
    requires Clean(c, s, t) && Reconciled(c, t, u, cur, err)
    ensures Reconciled(c, s, u, cur, err)
  {
    GrowsTrans(s, t, u);
  }

  // An accepted retry has been completed and forgotten, or there was none.
  ghost predicate RetryForgotten(c: Config, s: World, t: World) {
    var cur := Normalize(s.cursor);
    && Clean(c, s, t) && Normalize(t.cursor) == cur.(pendingRetry := None)
    && (cur.pendingRetry.Some? ==> SawState(c, s, RetryReceipt(cur.pendingRetry.value), {Completed}))
  }

  // The next retry receipt was found with this payload once the earlier one was forgotten, and answered.
  ghost predicate RetryTurn(c: Config, s: World, t: World, u: World, p: Payload, result: TickResult, cur: Cursor, heard: bool) {
    && RetryForgotten(c, s, t) && Met(c, t, RetryReceipt(Normalize(t.cursor).revision + 1), p)
    && RetryAnswer(c, t, u, Normalize(t.cursor), p, result, false, cur, heard)
  }

  // A retry was dealt with: one accepted earlier goes its way, or the next one was answered.
  ghost predicate RetryDealt(c: Config, s: World, u: World, result: TickResult, heard: bool) {
    var cur := Normalize(s.cursor);
    || (cur.pendingRetry.Some? && result == Waiting && u.accepted == s.accepted && Normalize(u.cursor) == cur
        && ReceiptStep(c, s, u, RetryReceipt(cur.pendingRetry.value), true))
    || (exists t, p, cur1 :: RetryTurn(c, s, t, u, p, result, cur1, heard))
  }

  // No retry was left to deal with.
  ghost predicate NoRetryDue(c: Config, s: World, u: World) {
    RetryForgotten(c, s, u) && RetryReceipt(Normalize(s.cursor).revision + 1) !in u.jobs
  }

  lemma NoRetryDueIs(c: Config, s: World, t: World, u: World)
    requires RetryForgotten(c, s, t) && Kept(c, t, u) && RetryReceipt(Normalize(s.cursor).revision + 1) !in u.jobs
    ensures NoRetryDue(c, s, u) && Reconciled(c, s, u, Normalize(u.cursor), Normalize(u.cursor).autoRetry)
  {
    GrowsTrans(s, t, u);
  }

  lemma RetryTurnIs(c: Config, s: World, t: World, u: World, p: Payload, result: TickResult, cur: Cursor, all: bool, heard: bool)
    requires RetryForgotten(c, s, t) && Met(c, t, RetryReceipt(Normalize(t.cursor).revision + 1), p)
    requires RetryAnswer(c, t, u, Normalize(t.cursor), p, result, false, cur, heard) && (all ==> heard)
    ensures RetryDealt(c, s, u, result, all)
  {
    assert RetryTurn(c, s, t, u, p, result, cur, all);
  }

  lemma RetryFoundIs(c: Config, s: World, t: World, u: World, cur0: Cursor, p: Option<Payload>,
                     result: TickResult, handled: bool, err: bool, cur: Cursor, all: bool, heard: bool)
    requires RetryForgotten(c, s, t) && cur0 == Normalize(t.cursor) && !cur0.autoRetry && (all ==> heard)
    requires RetryFound(c, t, u, cur0, p, result, handled, err, cur, heard)
    ensures Reconciled(c, s, u, cur, err)
    ensures !err && handled ==> RetryDealt(c, s, u, result, all)
    ensures !handled ==> !err && cur == cur0 == Normalize(u.cursor) && NoRetryDue(c, s, u)
  {
    if p.Some? {
      CleanReconciles(c, s, t, u, cur, err);
      if !err {
        RetryTurnIs(c, s, t, u, p.value, result, cur, all, heard);
      }
    } else if err {
      GrowsTrans(s, t, u);
    } else {
      NoRetryDueIs(c, s, t, u);
    }
  }

  lemma NextRetrySnag(c: Config, s: World, t: World)
    requires RetryForgotten(c, s, t) && t.jobs == s.jobs
    requires var r := Normalize(t.cursor).revision + 1; LeftPendingId(t, RetryReceipt(r)) || GraftReceipt(r) in t.jobs
    ensures RetrySnag(c, s)
  {
  }

  // The second half of the reconciliation, seen from the world s where it began.
  method NextRetry(w: Store, cur0: Cursor, ghost s: World, ghost all: bool)
    returns (result: TickResult, handled: bool, err: bool, cur: Cursor)
    requires RetryForgotten(w.c, s, w.s) && cur0 == Normalize(w.s.cursor) && !cur0.autoRetry
    modifies w
    ensures Reconciled(w.c, s, w.s, cur, err)
    ensures !err && handled ==> RetryDealt(w.c, s, w.s, result, all && w.Heard())
    ensures !handled ==> !err && cur == Normalize(w.s.cursor) && NoRetryDue(w.c, s, w.s)
    ensures w.Later()
    ensures w.Alone() && err ==> LeftPendingId(old(w.s), RetryReceipt(cur0.revision + 1)) || GraftReceipt(cur0.revision + 1) in old(w.s.jobs)
    ensures w.Alone() && !handled ==> w.s == old(w.s)
  {
    ghost var p;
    result, handled, err, cur, p := AcceptNextRetry(w, cur0);
    RetryFoundIs(w.c, s, old(w.s), w.s, cur0, p, result, handled, err, cur, all && w.Heard(), w.Heard());
  }

  // The first half: a retry that was accepted earlier comes first.
  method EarlierRetry(w: Store, cur0: Cursor) returns (handled: bool, err: bool, cur: Cursor)
    requires Inv(w.c, w.s) && cur0 == Normalize(w.s.cursor) && !cur0.autoRetry
    modifies w
    ensures handled ==> Reconciled(w.c, old(w.s), w.s, cur, err)
    ensures handled && !err ==> RetryDealt(w.c, old(w.s), w.s, Waiting, w.Heard())
    ensures !handled ==> !err && RetryForgotten(w.c, old(w.s), w.s) && cur == Normalize(w.s.cursor)
    ensures w.Later() && (w.Alone() && err ==> RetrySnag(w.c, old(w.s))) && (w.Alone() && !handled ==> w.s.jobs == old(w.s.jobs))
  {
    if cur0.pendingRetry.None? {
      return false, false, cur0;
    }
    handled, err, cur := FinishRetry(w, cur0, cur0.pendingRetry.value);
    handled := handled || err;
  }

  method ReconcileRetry(w: Store, cur0: Cursor) returns (result: TickResult, handled: bool, err: bool, cur: Cursor)
    requires Inv(w.c, w.s) && cur0 == Normalize(w.s.cursor) && !cur0.autoRetry
    modifies w
    ensures Reconciled(w.c, old(w.s), w.s, cur, err)
    ensures !err && handled ==> RetryDealt(w.c, old(w.s), w.s, result, w.Heard())
    ensures !handled ==> !err && cur == Normalize(w.s.cursor) && NoRetryDue(w.c, old(w.s), w.s)
    ensures w.Later() && (w.Alone() && err ==> RetrySnag(w.c, old(w.s)))
    ensures w.Alone() && !handled ==> w.s.jobs == old(w.s.jobs)
  {
    handled, err, cur := EarlierRetry(w, cur0);
    if handled {
      return Waiting, true, err, cur;
    }
    ghost var now := w.s;
    result, handled, err, cur := NextRetry(w, cur, old(w.s), w.Heard());
    if w.Alone() {
      assert now.jobs == old(w.s.jobs);
      if err {
        NextRetrySnag(w.c, old(w.s), now);
      } else if !handled {
        assert w.s == now;
      }
    }
  }

  method FinishGraft(w: Store, cur0: Cursor, receipt: nat) returns (handled: bool, err: bool, cur: Cursor)
    requires Inv(w.c, w.s) && cur0 == Normalize(w.s.cursor) && !cur0.autoRetry
    modifies w
    ensures Reconciled(w.c, old(w.s), w.s, cur, err) && w.s.accepted == old(w.s.accepted)
    ensures !err ==> ReceiptStep(w.c, old(w.s), w.s, GraftReceipt(receipt), handled)
    ensures !err ==> cur == if handled then cur0 else cur0.(pendingGraft := None)
    ensures w.Later() && (w.Alone() && err ==> Derailed(old(w.s), GraftReceipt(receipt)))
    ensures w.Alone() && !err && !handled ==> w.s.jobs == old(w.s.jobs)
  {
    cur := cur0;
    var job, lost := w.GetJob(GraftReceipt(receipt));
    if lost || job.None? {
      return true, true, cur;
    }
    match job.value.state {
      case Pending =>
        lost := w.PromoteReceiptJob(GraftReceipt(receipt));
        return true, lost, cur;
      case Available | Running =>
        return true, false, cur;
      case Completed =>
        cur := cur.(pendingGraft := None);
        lost := ForgetReceipt(w, cur0, cur);
        return lost, lost, cur;
      case _ =>
        return true, true, cur;
    }
  }

  // A graft of this workflow against this revision, which has not failed, with nodes that fit the graph.
  ghost predicate GraftFits(c: Config, cur: Cursor, p: Payload) {
    && p.GraftArgs? && p.workflowId == c.base.workflowId && p.expectedRevision == cur.revision && p.nodes != [] && !cur.failed
    && ValidGraph(EffectiveWorkflow(c, cur).(nodes := EffectiveWorkflow(c, cur).nodes + p.nodes), c.compiles)
  }

  // The receipt and the jobs it brought.
  function Brought(id: JobId, p: Payload): seq<JobId> {
    JobsOf(if p.GraftArgs? then p.nodes else []) + [id]
  }

  // What became of a graft receipt that was read with this payload: accepted exactly if it fits, as far as
  // the calls were answered, or gone.
  ghost predicate GraftAnswer(c: Config, s: World, t: World, cur0: Cursor, p: Payload, err: bool, cur: Cursor, heard: bool) {
    && Reconciled(c, s, t, cur, err)
    && (t.accepted == s.accepted || (GraftFits(c, cur0, p) && Took(s, t, Acceptance(GraftReceipt(cur0.revision + 1), p, []))))
    && (!err || heard ==> (t.accepted != s.accepted <==> GraftFits(c, cur0, p)))
    && (!err && t.accepted == s.accepted ==> Ends(t, GraftReceipt(cur0.revision + 1), false, cur0, cur0, cur))
    && (!err && t.accepted != s.accepted ==> Ends(t, GraftReceipt(cur0.revision + 1), true, cur0, WithGraft(cur0, p.nodes), cur))
  }

  lemma GraftAnswerSince(c: Config, s: World, t: World, u: World, cur0: Cursor, p: Payload, err: bool, cur: Cursor, heard: bool)
    requires Kept(c, s, t) && GraftAnswer(c, t, u, cur0, p, err, cur, heard)
    ensures GraftAnswer(c, s, u, cur0, p, err, cur, heard)
  {
    ReconciledSince(c, s, t, u, cur, err);
  }

  // The receipt was found with this payload and answered, or there is none, or it could not be read.
  ghost predicate GraftFound(c: Config, s: World, t: World, cur0: Cursor, p: Option<Payload>,
                             handled: bool, err: bool, cur: Cursor, heard: bool) {
    var id := GraftReceipt(cur0.revision + 1);
    if p.Some? then handled && Met(c, s, id, p.value) && GraftAnswer(c, s, t, cur0, p.value, err, cur, heard)
    else Kept(c, s, t) && cur == cur0 && handled == err && (!err ==> id !in t.jobs)
  }

  // Accepts the graft prepared against the current revision exactly if it fits; otherwise it goes, and
  // the jobs it brought with it. p is the payload that was read.
  method AcceptNextGraft(w: Store, cur0: Cursor) returns (handled: bool, err: bool, cur: Cursor, ghost p: Option<Payload>)
    requires Inv(w.c, w.s) && cur0 == Normalize(w.s.cursor) && !cur0.autoRetry
    modifies w
    ensures GraftFound(w.c, old(w.s), w.s, cur0, p, handled, err, cur, w.Heard())
    ensures w.Later() && (p.None? && err && w.Heard() ==> LeftPendingId(w.s, GraftReceipt(cur0.revision + 1)))
    ensures w.Alone() && err ==> Hinders(old(w.s), GraftReceipt(cur0.revision + 1))
    ensures w.Alone() && !err && p.Some? && !GraftFits(w.c, cur0, p.value) ==>
              w.s.jobs == old(w.s.jobs) - Elems(Brought(GraftReceipt(cur0.revision + 1), p.value))
    ensures w.Alone() && p.None? ==> w.s == old(w.s)
    ensures w.Alone() && p.Some? ==> Waits(old(w.s), GraftReceipt(cur0.revision + 1), p.value)
  {
    var receipt, lost := ReadReceipt(w, GraftReceipt(cur0.revision + 1));
    if lost {
      return true, true, cur0, None;
    }
    if receipt.None? {
      return false, false, cur0, None;
    }
    ghost var now := w.s;
    p := receipt;
    lost, cur := AnswerGraft(w, cur0, receipt.value);
    GraftAnswerSince(w.c, old(w.s), now, w.s, cur0, p.value, lost, cur, w.Heard());
    return true, lost, cur, p;
  }

  // One of the jobs the graft brought has moved on.
  ghost predicate Rooted(s: World, p: Payload) {
    p.GraftArgs? && exists n :: n in p.nodes && Firm(s, NodeJob(n.jobId))
  }

  lemma FirmIsRooted(s: World, nodes: seq<NodeSpec>, receipt: JobId, id: JobId)
    requires IsPending(s, receipt) && id in JobsOf(nodes) + [receipt] && Firm(s, id)
    ensures exists n :: n in nodes && Firm(s, NodeJob(n.jobId))
  {
    var ids := JobsOf(nodes) + [receipt];
    var i :| 0 <= i < |ids| && ids[i] == id;
    assert i < |nodes| && nodes[i] in nodes;
  }

  // Sends a receipt away that is still pending.
  method SendAway(w: Store, receipt: JobId, nodes: seq<NodeSpec>) returns (err: bool)
    requires Inv(w.c, w.s) && IsPending(w.s, receipt)
    modifies w
    ensures Kept(w.c, old(w.s), w.s) && (!err ==> receipt !in w.s.jobs)
    ensures w.Later() && (w.Alone() && err ==> exists n :: n in nodes && Firm(old(w.s), NodeJob(n.jobId)))
    ensures w.Alone() && !err ==> w.s.jobs == old(w.s.jobs) - Elems(JobsOf(nodes) + [receipt])
  {
    ghost var seen;
    err, seen := RejectGraft(w, receipt, nodes);
    if w.Alone() && err {
      ghost var id :| id in JobsOf(nodes) + [receipt] && Firm(old(w.s), id);
      FirmIsRooted(old(w.s), nodes, receipt, id);
    }
  }

  method AnswerGraft(w: Store, cur0: Cursor, p: Payload) returns (err: bool, cur: Cursor)
    requires Inv(w.c, w.s) && cur0 == Normalize(w.s.cursor) && !cur0.autoRetry
    requires Waits(w.s, GraftReceipt(cur0.revision + 1), p)
    modifies w
    ensures GraftAnswer(w.c, old(w.s), w.s, cur0, p, err, cur, w.Heard())
    ensures w.Later() && (w.Alone() && err ==> Rooted(old(w.s), p))
    ensures w.Alone() && !err && !GraftFits(w.c, cur0, p) ==>
              w.s.jobs == old(w.s.jobs) - Elems(Brought(GraftReceipt(cur0.revision + 1), p))
  {
    if !p.GraftArgs? || p.workflowId != w.c.base.workflowId || p.expectedRevision != cur0.revision || |p.nodes| == 0 || cur0.failed {
      err := SendAway(w, GraftReceipt(cur0.revision + 1), if p.GraftArgs? then p.nodes else []);
      return err, cur0;
    }
    err, cur := DecideGraft(w, cur0, p);
  }

  // A legitimate graft is accepted exactly if the grown graph is valid; otherwise its receipt goes.
  method DecideGraft(w: Store, cur0: Cursor, p: Payload) returns (err: bool, cur: Cursor)
    requires Inv(w.c, w.s) && cur0 == Normalize(w.s.cursor) && !cur0.failed && !cur0.autoRetry
    requires Waits(w.s, GraftReceipt(cur0.revision + 1), p)
    requires p.GraftArgs? && p.workflowId == w.c.base.workflowId && p.expectedRevision == cur0.revision && p.nodes != []
    modifies w
    ensures GraftAnswer(w.c, old(w.s), w.s, cur0, p, err, cur, w.Heard())
    ensures w.Later() && (w.Alone() && err ==> Rooted(old(w.s), p))
    ensures w.Alone() && !err && !GraftFits(w.c, cur0, p) ==>
              w.s.jobs == old(w.s.jobs) - Elems(Brought(GraftReceipt(cur0.revision + 1), p))
  {
    var candidate := EffectiveWorkflow(w.c, cur0);
    var invalid := ValidateCoordinator(candidate.(nodes := candidate.nodes + p.nodes), w.c.compiles);
    if invalid.Some? {
      err := SendAway(w, GraftReceipt(cur0.revision + 1), p.nodes);
      return err, cur0;
    }
    err, cur := GrantGraft(w, cur0, p);
  }

  method GrantGraft(w: Store, cur0: Cursor, p: Payload) returns (err: bool, cur: Cursor)
    requires Inv(w.c, w.s) && cur0 == Normalize(w.s.cursor) && !cur0.autoRetry && p.GraftArgs?
    requires Allowed(w.c, w.s, WithGraft(cur0, p.nodes), Take(GraftReceipt(cur0.revision + 1), p, []))
    modifies w
    ensures Reconciled(w.c, old(w.s), w.s, cur, err)
    ensures Took(old(w.s), w.s, Acceptance(GraftReceipt(cur0.revision + 1), p, [])) || (err && w.s.accepted == old(w.s.accepted))
    ensures !err ==> cur == WithGraft(cur0, p.nodes)
    ensures !err ==> var id := GraftReceipt(cur0.revision + 1); id in w.s.jobs && w.s.jobs[id].state == Available
    ensures w.Later() && (w.Heard() ==> Took(old(w.s), w.s, Acceptance(GraftReceipt(cur0.revision + 1), p, [])))
    ensures w.Alone() && err ==> !IsPending(old(w.s), GraftReceipt(cur0.revision + 1))
  {
    cur := WithGraft(cur0, p.nodes);
    err := w.Persist(cur, Take(GraftReceipt(cur0.revision + 1), p, []));
    if !err {
      ghost var now := w.s;
      err := w.PromoteReceiptJob(GraftReceipt(cur0.revision + 1));
      HeldReconciles(w.c, old(w.s), now, w.s, cur, err);
    }
  }

  // What can stop the reconciliation of a graft when nobody else acts.
  ghost predicate GraftSnag(s: World) {
    var cur := Normalize(s.cursor);
    || (cur.pendingGraft.Some? && Derailed(s, GraftReceipt(cur.pendingGraft.value)))
    || Hinders(s, GraftReceipt(cur.revision + 1))
  }

  ghost predicate GraftForgotten(c: Config, s: World, t: World) {
    var cur := Normalize(s.cursor);
    && Clean(c, s, t) && Normalize(t.cursor) == cur.(pendingGraft := None)
    && (cur.pendingGraft.Some? ==> SawState(c, s, GraftReceipt(cur.pendingGraft.value), {Completed}))
  }

  ghost predicate GraftTurn(c: Config, s: World, t: World, u: World, p: Payload, cur: Cursor) {
    && GraftForgotten(c, s, t) && Met(c, t, GraftReceipt(Normalize(t.cursor).revision + 1), p)
    && GraftAnswer(c, t, u, Normalize(t.cursor), p, false, cur, true)
  }

  // A graft was dealt with: one accepted earlier goes its way, or the next one was answered.
  ghost predicate GraftDealt(c: Config, s: World, u: World) {
    var cur := Normalize(s.cursor);
    || (cur.pendingGraft.Some? && u.accepted == s.accepted && Normalize(u.cursor) == cur
        && ReceiptStep(c, s, u, GraftReceipt(cur.pendingGraft.value), true))
    || (exists t, p, cur1 :: GraftTurn(c, s, t, u, p, cur1))
  }

  ghost predicate NoGraftDue(c: Config, s: World, u: World) {
    GraftForgotten(c, s, u) && GraftReceipt(Normalize(s.cursor).revision + 1) !in u.jobs
  }

  lemma NoGraftDueIs(c: Config, s: World, t: World, u: World)
    requires GraftForgotten(c, s, t) && Kept(c, t, u) && GraftReceipt(Normalize(s.cursor).revision + 1) !in u.jobs
    ensures NoGraftDue(c, s, u) && Reconciled(c, s, u, Normalize(u.cursor), Normalize(u.cursor).autoRetry)
  {
    GrowsTrans(s, t, u);
  }

  lemma GraftTurnIs(c: Config, s: World, t: World, u: World, p: Payload, cur: Cursor, heard: bool)
    requires GraftForgotten(c, s, t) && Met(c, t, GraftReceipt(Normalize(t.cursor).revision + 1), p)
    requires GraftAnswer(c, t, u, Normalize(t.cursor), p, false, cur, heard)
    ensures GraftDealt(c, s, u)
  {
    assert GraftTurn(c, s, t, u, p, cur);
  }

  lemma GraftFoundIs(c: Config, s: World, t: World, u: World, cur0: Cursor, p: Option<Payload>,
                     handled: bool, err: bool, cur: Cursor, heard: bool)
    requires GraftForgotten(c, s, t) && cur0 == Normalize(t.cursor) && !cur0.autoRetry
    requires GraftFound(c, t, u, cur0, p, handled, err, cur, heard)
    ensures Reconciled(c, s, u, cur, err)
    ensures !err && handled ==> GraftDealt(c, s, u)
    ensures !handled ==> !err && cur == cur0 == Normalize(u.cursor) && NoGraftDue(c, s, u)
  {
    if p.Some? {
      CleanReconciles(c, s, t, u, cur, err);
      if !err {
        GraftTurnIs(c, s, t, u, p.value, cur, heard);
      }
    } else if err {
      GrowsTrans(s, t, u);
    } else {
      NoGraftDueIs(c, s, t, u);
    }
  }

  lemma NextGraftSnag(c: Config, s: World, t: World)
    requires GraftForgotten(c, s, t) && t.jobs == s.jobs
    requires Hinders(t, GraftReceipt(Normalize(t.cursor).revision + 1))
    ensures GraftSnag(s)
  {
  }

  method NextGraft(w: Store, cur0: Cursor, ghost s: World) returns (handled: bool, err: bool, cur: Cursor)
    requires GraftForgotten(w.c, s, w.s) && cur0 == Normalize(w.s.cursor) && !cur0.autoRetry
    modifies w
    ensures Reconciled(w.c, s, w.s, cur, err)
    ensures !err && handled ==> GraftDealt(w.c, s, w.s)
    ensures !handled ==> !err && cur == Normalize(w.s.cursor) && NoGraftDue(w.c, s, w.s)
    ensures w.Later() && (w.Alone() && err ==> Hinders(old(w.s), GraftReceipt(cur0.revision + 1)))
    ensures w.Alone() && !handled ==> w.s == old(w.s)
  {
    ghost var p;
    handled, err, cur, p := AcceptNextGraft(w, cur0);
    GraftFoundIs(w.c, s, old(w.s), w.s, cur0, p, handled, err, cur, w.Heard());
  }

  method EarlierGraft(w: Store, cur0: Cursor) returns (handled: bool, err: bool, cur: Cursor)
    requires Inv(w.c, w.s) && cur0 == Normalize(w.s.cursor) && !cur0.autoRetry
    modifies w
    ensures handled ==> Reconciled(w.c, old(w.s), w.s, cur, err)
    ensures handled && !err ==> GraftDealt(w.c, old(w.s), w.s)
    ensures !handled ==> !err && GraftForgotten(w.c, old(w.s), w.s) && cur == Normalize(w.s.cursor)
    ensures w.Later() && (w.Alone() && err ==> GraftSnag(old(w.s))) && (w.Alone() && !handled ==> w.s.jobs == old(w.s.jobs))
  {
    if cur0.pendingGraft.None? {
      return false, false, cur0;
    }
    handled, err, cur := FinishGraft(w, cur0, cur0.pendingGraft.value);
    handled := handled || err;
  }

  method ReconcileGraft(w: Store, cur0: Cursor) returns (handled: bool, err: bool, cur: Cursor)
    requires Inv(w.c, w.s) && cur0 == Normalize(w.s.cursor) && !cur0.autoRetry
    modifies w
    ensures Reconciled(w.c, old(w.s), w.s, cur, err)
    ensures !err && handled ==> GraftDealt(w.c, old(w.s), w.s)
    ensures !handled ==> !err && cur == Normalize(w.s.cursor) && NoGraftDue(w.c, old(w.s), w.s)
    ensures w.Later() && (w.Alone() && err ==> GraftSnag(old(w.s)))
    ensures w.Alone() && !handled ==> w.s.jobs == old(w.s.jobs)
  {
    handled, err, cur := EarlierGraft(w, cur0);
    if handled {
      return true, err, cur;
    }
    ghost var now := w.s;
    handled, err, cur := NextGraft(w, cur, old(w.s));
    if w.Alone() {
      assert now.jobs == old(w.s.jobs);
      if err {
        NextGraftSnag(w.c, old(w.s), now);
      } else if !handled {
        assert w.s == now;
      }
    }
  }
}
