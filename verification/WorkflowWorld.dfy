// The durable state a workflow coordinator works on, everything that may happen to it, and the
// invariant that all of it keeps (go/headgateworkflow/coordinator.go, evaluation.go).
module WorkflowWorld {
  import opened Common
  import opened Graph
  import opened WorkflowGraph
  import opened WorkflowTick

  // Receipts have ids of their own, one per revision they would open.
  datatype JobId = NodeJob(id: string) | GraftReceipt(revision: nat) | RetryReceipt(revision: nat)

  datatype Payload =
    | Opaque
    | GraftArgs(workflowId: string, expectedRevision: nat, nodes: seq<NodeSpec>)
    | RetryArgs(workflowId: string, expectedRevision: nat)

  // dueAtMs is the time a job was last scheduled for.
  datatype Job = Job(state: JobState, finalizedAtMs: Option<int>, payload: Payload, dueAtMs: Option<int>)

  datatype Cursor = Cursor(
    revision: nat, generation: nat, completed: set<string>, completedAt: map<string, int>,
    grafts: seq<NodeSpec>, pendingGraft: Option<nat>, failed: bool, pendingRetry: Option<nat>,
    autoRetry: bool, started: bool)

  const NEW_CURSOR := Cursor(0, 0, {}, map[], [], None, false, None, false, false)

  function Normalize(c: Cursor): Cursor {
    c.(revision := if c.revision == 0 then 1 else c.revision,
       generation := if c.generation == 0 then 1 else c.generation)
  }

  // A receipt as it was accepted: its id, what its author wrote into it, and for a retry the jobs that
  // had been found archived or cancelled.
  datatype Acceptance = Acceptance(id: JobId, payload: Payload, listed: seq<JobId>)

  // jobs and cursor are durable, the rest is history: released holds the gated nodes whose job has left
  // pending, accepted the receipts accepted so far, in order, submitted every payload ever stored under
  // an id, and dormant the jobs listed by the last accepted retry that have not moved since.
  datatype World = World(
    jobs: map<JobId, Job>, cursor: Cursor, released: set<string>, accepted: seq<Acceptance>,
    submitted: set<(JobId, Payload)>, dormant: set<JobId>)

  predicate IsStopped(s: JobState) {
    s in {Archived, Cancelled}
  }

  function WithJob(s: World, id: JobId, job: Job): World {
    s.(jobs := s.jobs[id := job], submitted := s.submitted + {(id, job.payload)},
       dormant := if IsStopped(job.state) then s.dormant else s.dormant - {id})
  }

  function WithoutJob(s: World, id: JobId): World {
    s.(jobs := s.jobs - {id}, dormant := s.dormant - {id})
  }

  // owner says which task a job id was made for: distinct tasks never share a job.
  // automaticOnly restricts the outside world to not submitting retry receipts.
  datatype Config = Config(
    base: CoordinatorArgs, compiles: string -> bool, owner: string -> string, automaticOnly: bool)

  function EffectiveWorkflow(c: Config, cur: Cursor): CoordinatorArgs {
    c.base.(nodes := c.base.nodes + cur.grafts)
  }

  // Nodes whose job the coordinator alone may release, and only after their dependencies.
  predicate Gated(n: NodeSpec) {
    Ordinary(n) || NormalizedKind(n) == Condition || (NormalizedKind(n) == Timer && n.delayMs > 0)
  }

  // ---- The invariant ----

  ghost predicate LeftPending(s: World, n: NodeSpec) {
    NodeJob(n.jobId) in s.jobs && s.jobs[NodeJob(n.jobId)].state != Pending
  }

  predicate Owned(c: Config, nodes: seq<NodeSpec>) {
    forall n :: n in nodes ==> c.owner(n.jobId) == n.name
  }

  predicate OwnedPayload(c: Config, p: Payload) {
    p.GraftArgs? ==> Owned(c, p.nodes)
  }

  // The evidence is about the graph and leaves no dependency out.
  ghost predicate EvidenceOk(nodes: seq<NodeSpec>, completed: set<string>) {
    completed <= Names(nodes) && DownClosed(nodes, completed)
  }

  // A gated job has left pending only if the durable evidence lists all its dependencies.
  ghost predicate OrderOk(nodes: seq<NodeSpec>, s: World) {
    && s.released <= Names(nodes)
    && (forall n :: n in nodes && Gated(n) && n.name in s.released ==> DependenciesCompleted(n, s.cursor.completed))
    && (forall n :: n in nodes && Gated(n) && LeftPending(s, n) ==> n.name in s.released)
    && (forall id :: NodeJob(id) in s.jobs && s.jobs[NodeJob(id)].state != Pending ==> exists n :: n in nodes && n.jobId == id)
  }

  function Retries(accepted: seq<Acceptance>): nat {
    if accepted == [] then 0
    else Retries(accepted[..|accepted| - 1]) + if accepted[|accepted| - 1].payload.RetryArgs? then 1 else 0
  }

  function Grafted(accepted: seq<Acceptance>): seq<NodeSpec> {
    if accepted == [] then []
    else if accepted[|accepted| - 1].payload.GraftArgs? then
      Grafted(accepted[..|accepted| - 1]) + accepted[|accepted| - 1].payload.nodes
    else Grafted(accepted[..|accepted| - 1])
  }

  // A receipt of this workflow, prepared against the revision, was stored under the id it had to have.
  ghost predicate Legitimate(c: Config, submitted: set<(JobId, Payload)>, revision: nat, id: JobId, p: Payload) {
    && ((id == GraftReceipt(revision + 1) && p.GraftArgs?) || (id == RetryReceipt(revision + 1) && p.RetryArgs?))
    && p.workflowId == c.base.workflowId && p.expectedRevision == revision && (id, p) in submitted
  }

  // The cursor is exactly what the accepted receipts make it, and each of them was legitimate.
  ghost predicate HistoryOk(c: Config, s: World) {
    var cur := Normalize(s.cursor);
    && cur.revision == 1 + |s.accepted|
    && cur.generation == 1 + Retries(s.accepted)
    && cur.grafts == Grafted(s.accepted)
    && forall i :: 0 <= i < |s.accepted| ==>
         Legitimate(c, s.submitted, i + 1, s.accepted[i].id, s.accepted[i].payload)
  }

  ghost predicate PayloadsOk(c: Config, s: World) {
    && (forall id :: id in s.jobs ==> (id, s.jobs[id].payload) in s.submitted)
    && (forall x :: x in s.submitted ==> OwnedPayload(c, x.1))
  }

  // Dormant jobs are stopped jobs of the graph, and the receipt of an accepted retry leaves pending
  // only when none is left.
  ghost predicate WakeOk(nodes: seq<NodeSpec>, s: World) {
    && (forall id :: id in s.dormant ==>
          id in s.jobs && IsStopped(s.jobs[id].state) && exists n :: n in nodes && id == NodeJob(n.jobId))
    && (s.cursor.pendingRetry.Some? && LeftPendingId(s, RetryReceipt(s.cursor.pendingRetry.value)) ==> s.dormant == {})
  }

  ghost predicate LeftPendingId(s: World, id: JobId) {
    id in s.jobs && s.jobs[id].state != Pending
  }

  // Without outside retries, a retry receipt that could be accepted was paid for in advance.
  ghost predicate BudgetOk(c: Config, s: World) {
    c.automaticOnly && c.base.retryPolicy.Some? ==>
      var cur := Normalize(s.cursor);
      var limit := c.base.retryPolicy.value.maxGenerations;
      && cur.generation <= limit
      && (forall r: nat :: RetryReceipt(r) in s.jobs ==> r <= cur.revision + 1)
      && (RetryReceipt(cur.revision + 1) in s.jobs ==> cur.failed && cur.generation < limit)
  }

  // An automatic retry is only ever asked for by a failed workflow with generations left.
  ghost predicate RetryFlagOk(c: Config, cur: Cursor) {
    cur.autoRetry ==>
      cur.failed && (c.base.retryPolicy.Some? ==> Normalize(cur).generation < c.base.retryPolicy.value.maxGenerations)
  }

  ghost predicate Inv(c: Config, s: World) {
    var nodes := EffectiveWorkflow(c, s.cursor).nodes;
    && ValidGraph(EffectiveWorkflow(c, s.cursor), c.compiles)
    && Owned(c, nodes)
    && EvidenceOk(nodes, s.cursor.completed)
    && OrderOk(nodes, s)
    && HistoryOk(c, s)
    && PayloadsOk(c, s)
    && WakeOk(nodes, s)
    && RetryFlagOk(c, s.cursor)
    && BudgetOk(c, s)
  }

  // What only ever grows.
  ghost predicate Grows(s: World, t: World) {
    && s.cursor.completed <= t.cursor.completed
    && s.cursor.grafts <= t.cursor.grafts
    && s.released <= t.released
    && s.accepted <= t.accepted
    && s.submitted <= t.submitted
  }

  // ---- The outside world ----

  // Work moves or removes any job that is not pending; signals release the pending jobs of signal
  // nodes; jobs and receipts are submitted pending under a new id.
  datatype EnvAction =
    | Work(id: JobId, to: JobState, at: Option<int>)
    | Remove(id: JobId)
    | EmitSignal(node: NodeSpec)
    | Submit(id: JobId, payload: Payload)

  predicate Enabled(c: Config, s: World, a: EnvAction) {
    match a
    case Work(id, to, _) => id in s.jobs && s.jobs[id].state != Pending && to != Pending
    case Remove(id) => true
    case EmitSignal(n) =>
      && n in EffectiveWorkflow(c, s.cursor).nodes && NormalizedKind(n) == Signal
      && NodeJob(n.jobId) in s.jobs && s.jobs[NodeJob(n.jobId)].state == Pending
    case Submit(id, p) => id !in s.jobs && OwnedPayload(c, p) && (c.automaticOnly ==> !id.RetryReceipt?)
  }

  function Outcome(s: World, a: EnvAction): World
    requires a.Work? ==> a.id in s.jobs
    requires a.EmitSignal? ==> NodeJob(a.node.jobId) in s.jobs
  {
    match a
    case Work(id, to, at) => WithJob(s, id, s.jobs[id].(state := to, finalizedAtMs := at))
    case Remove(id) => WithoutJob(s, id)
    case EmitSignal(n) => WithJob(s, NodeJob(n.jobId), s.jobs[NodeJob(n.jobId)].(state := Available))
    case Submit(id, p) => WithJob(s, id, Job(Pending, None, p, None))
  }

  lemma OrderAfterJobs(nodes: seq<NodeSpec>, s: World, t: World)
    requires OrderOk(nodes, s)
    requires t.cursor == s.cursor && t.released == s.released
    requires forall id :: NodeJob(id) in t.jobs && t.jobs[NodeJob(id)].state != Pending ==>
               NodeJob(id) in s.jobs && s.jobs[NodeJob(id)].state != Pending
    ensures OrderOk(nodes, t)
  {
  }

  lemma SignalKeepsOrder(c: Config, nodes: seq<NodeSpec>, s: World, n: NodeSpec)
    requires OrderOk(nodes, s) && Owned(c, nodes) && UniqueNames(nodes)
    requires n in nodes && NormalizedKind(n) == Signal && NodeJob(n.jobId) in s.jobs
    ensures OrderOk(nodes, Outcome(s, EmitSignal(n)))
  {
  }

  lemma JobMoveKeepsRecords(c: Config, s: World, id: JobId, job: Job)
    requires HistoryOk(c, s) && PayloadsOk(c, s) && OwnedPayload(c, job.payload)
    ensures HistoryOk(c, WithJob(s, id, job)) && PayloadsOk(c, WithJob(s, id, job))
  {
  }

  // Only the receipt of the accepted retry may wake up the dormant, and only when none is left.
  ghost predicate MayMove(s: World, id: JobId, job: Job) {
    id.RetryReceipt? && s.cursor.pendingRetry == Some(id.revision) && job.state != Pending ==>
      LeftPendingId(s, id) || s.dormant == {}
  }

  lemma JobMoveKeepsWake(nodes: seq<NodeSpec>, s: World, id: JobId, job: Job)
    requires WakeOk(nodes, s) && MayMove(s, id, job)
    ensures WakeOk(nodes, WithJob(s, id, job))
  {
  }

  lemma BudgetFollowsReceipts(c: Config, s: World, t: World)
    requires BudgetOk(c, s) && t.cursor == s.cursor
    requires forall r: nat :: RetryReceipt(r) in t.jobs ==> RetryReceipt(r) in s.jobs
    ensures BudgetOk(c, t)
  {
  }

  // Any change of one job that respects order and budget.
  lemma JobMoveKeepsInv(c: Config, s: World, id: JobId, job: Job, released: set<string>)
    requires Inv(c, s) && OwnedPayload(c, job.payload) && MayMove(s, id, job)
    requires var t := WithJob(s, id, job).(released := released);
             OrderOk(EffectiveWorkflow(c, s.cursor).nodes, t) && BudgetOk(c, t)
    ensures Inv(c, WithJob(s, id, job).(released := released))
  {
    JobMoveKeepsRecords(c, s, id, job);
    JobMoveKeepsWake(EffectiveWorkflow(c, s.cursor).nodes, s, id, job);
  }

  lemma RemovalKeepsInv(c: Config, s: World, id: JobId)
    requires Inv(c, s)
    ensures Inv(c, WithoutJob(s, id))
  {
    var t := WithoutJob(s, id);
    OrderAfterJobs(EffectiveWorkflow(c, s.cursor).nodes, s, t);
    BudgetFollowsReceipts(c, s, t);
  }

  lemma EnvKeepsInv(c: Config, s: World, a: EnvAction)
    requires Inv(c, s) && Enabled(c, s, a)
    ensures Inv(c, Outcome(s, a)) && Grows(s, Outcome(s, a)) && Outcome(s, a).cursor == s.cursor
  {
    var nodes := EffectiveWorkflow(c, s.cursor).nodes;
    var t := Outcome(s, a);
    match a
    case Work(id, to, at) =>
      OrderAfterJobs(nodes, s, t);
      BudgetFollowsReceipts(c, s, t);
      assert OwnedPayload(c, (id, s.jobs[id].payload).1);
      JobMoveKeepsInv(c, s, id, s.jobs[id].(state := to, finalizedAtMs := at), s.released);
    case Remove(id) => RemovalKeepsInv(c, s, id);
    case EmitSignal(n) =>
      SignalKeepsOrder(c, nodes, s, n);
      BudgetFollowsReceipts(c, s, t);
      var id := NodeJob(n.jobId);
      assert OwnedPayload(c, (id, s.jobs[id].payload).1);
      JobMoveKeepsInv(c, s, id, s.jobs[id].(state := Available), s.released);
    case Submit(id, p) =>
      OrderAfterJobs(nodes, s, t);
      BudgetAfterSubmit(c, s, id, p);
      JobMoveKeepsInv(c, s, id, Job(Pending, None, p, None), s.released);
  }

  lemma BudgetAfterSubmit(c: Config, s: World, id: JobId, p: Payload)
    requires BudgetOk(c, s) && (c.automaticOnly ==> !id.RetryReceipt?)
    ensures BudgetOk(c, WithJob(s, id, Job(Pending, None, p, None)))
  {
  }

  // ---- The coordinator's own writes ----

  // Promotion and timer scheduling take a node's job out of pending.
  function Release(s: World, n: NodeSpec, to: JobState, due: Option<int>): World
    requires NodeJob(n.jobId) in s.jobs
  {
    WithJob(s, NodeJob(n.jobId), s.jobs[NodeJob(n.jobId)].(state := to, dueAtMs := due)).(released := s.released + {n.name})
  }

  lemma ReleaseKeepsInv(c: Config, s: World, n: NodeSpec, to: JobState, due: Option<int>)
    requires Inv(c, s) && n in EffectiveWorkflow(c, s.cursor).nodes && NodeJob(n.jobId) in s.jobs
    requires DependenciesCompleted(n, s.cursor.completed)
    ensures Inv(c, Release(s, n, to, due)) && Grows(s, Release(s, n, to, due))
  {
    var id := NodeJob(n.jobId);
    assert OwnedPayload(c, (id, s.jobs[id].payload).1);
    ReleaseKeepsOrder(c, EffectiveWorkflow(c, s.cursor).nodes, s, n, to, due);
    BudgetFollowsReceipts(c, s, Release(s, n, to, due));
    JobMoveKeepsInv(c, s, id, s.jobs[id].(state := to, dueAtMs := due), s.released + {n.name});
  }

  lemma ReleaseKeepsOrder(c: Config, nodes: seq<NodeSpec>, s: World, n: NodeSpec, to: JobState, due: Option<int>)
    requires OrderOk(nodes, s) && Owned(c, nodes) && UniqueNames(nodes) && n in nodes && NodeJob(n.jobId) in s.jobs
    requires DependenciesCompleted(n, s.cursor.completed)
    ensures OrderOk(nodes, Release(s, n, to, due))
  {
  }

  function PromoteReceipt(s: World, id: JobId): World
    requires id in s.jobs
  {
    WithJob(s, id, s.jobs[id].(state := Available))
  }

  lemma PromoteReceiptKeepsInv(c: Config, s: World, id: JobId)
    requires Inv(c, s) && id in s.jobs && !id.NodeJob?
    requires id.RetryReceipt? && s.cursor.pendingRetry == Some(id.revision) ==> s.dormant == {}
    ensures Inv(c, PromoteReceipt(s, id)) && Grows(s, PromoteReceipt(s, id))
  {
    assert OwnedPayload(c, (id, s.jobs[id].payload).1);
    OrderAfterJobs(EffectiveWorkflow(c, s.cursor).nodes, s, PromoteReceipt(s, id));
    BudgetFollowsReceipts(c, s, PromoteReceipt(s, id));
    JobMoveKeepsInv(c, s, id, s.jobs[id].(state := Available), s.released);
  }

  function AddRetryReceipt(s: World, id: JobId, p: Payload): World {
    if id in s.jobs then s else WithJob(s, id, Job(Pending, None, p, None))
  }

  lemma AutoRetryKeepsInv(c: Config, s: World, p: Payload)
    requires Inv(c, s) && s.cursor.autoRetry && p.RetryArgs?
    ensures var t := AddRetryReceipt(s, RetryReceipt(Normalize(s.cursor).revision + 1), p);
            Inv(c, t) && Grows(s, t)
  {
    var id := RetryReceipt(Normalize(s.cursor).revision + 1);
    if id !in s.jobs {
      OrderAfterJobs(EffectiveWorkflow(c, s.cursor).nodes, s, AddRetryReceipt(s, id, p));
      JobMoveKeepsInv(c, s, id, Job(Pending, None, p, None), s.released);
    }
  }

  // A cursor write that accepts nothing: it may add evidence and change flags.
  ghost predicate PlainWrite(c: Config, old_: Cursor, cur: Cursor) {
    var before, after := Normalize(old_), Normalize(cur);
    && after.revision == before.revision && after.generation == before.generation && after.grafts == before.grafts
    && before.completed <= after.completed
    && EvidenceOk(EffectiveWorkflow(c, cur).nodes, cur.completed)
    && (before.failed ==> after.failed)
    && (after.pendingRetry == before.pendingRetry || after.pendingRetry == None)
    && RetryFlagOk(c, cur)
  }

  lemma PlainWriteKeepsInv(c: Config, s: World, cur: Cursor)
    requires Inv(c, s) && PlainWrite(c, s.cursor, cur)
    ensures Inv(c, s.(cursor := cur)) && Grows(s, s.(cursor := cur))
  {
  }

  // Only flags differ from the durable cursor.
  lemma FlagWrite(c: Config, s: World, cur: Cursor)
    requires Inv(c, s)
    requires cur == Normalize(s.cursor).(pendingGraft := cur.pendingGraft, failed := cur.failed,
                                         pendingRetry := cur.pendingRetry, autoRetry := cur.autoRetry, started := cur.started)
    requires s.cursor.failed ==> cur.failed
    requires cur.pendingRetry == s.cursor.pendingRetry || cur.pendingRetry == None
    requires RetryFlagOk(c, cur)
    ensures PlainWrite(c, s.cursor, cur)
  {
  }

  function WithGraft(cur: Cursor, nodes: seq<NodeSpec>): Cursor {
    var n := Normalize(cur);
    n.(revision := n.revision + 1, grafts := n.grafts + nodes, pendingGraft := Some(n.revision + 1))
  }

  function AcceptGraft(s: World, id: JobId, p: Payload): World
    requires p.GraftArgs?
  {
    s.(cursor := WithGraft(s.cursor, p.nodes), accepted := s.accepted + [Acceptance(id, p, [])])
  }

  lemma EvidenceInLargerGraph(nodes: seq<NodeSpec>, more: seq<NodeSpec>, completed: set<string>)
    requires EvidenceOk(nodes, completed) && UniqueNames(nodes + more)
    ensures EvidenceOk(nodes + more, completed)
  {
    var all := nodes + more;
    forall x | x in Names(nodes)
      ensures x in Names(all)
    {
      var n :| n in nodes && n.name == x;
      assert n in all;
    }
    forall n | n in all && n.name in completed
      ensures DependenciesCompleted(n, completed)
    {
      NewNamesAreNew(nodes, more, n);
    }
  }

  lemma NewNamesAreNew(nodes: seq<NodeSpec>, more: seq<NodeSpec>, n: NodeSpec)
    requires UniqueNames(nodes + more) && n in nodes + more
    ensures n in nodes || n.name !in Names(nodes)
  {
    if n !in nodes && n.name in Names(nodes) {
      var m :| m in nodes && m.name == n.name;
      assert m in nodes + more;
      SameName(nodes + more, n, m);
    }
  }

  lemma OrderInLargerGraph(c: Config, nodes: seq<NodeSpec>, more: seq<NodeSpec>, s: World, t: World)
    requires OrderOk(nodes, s) && UniqueNames(nodes + more) && Owned(c, nodes) && Owned(c, more)
    requires t.jobs == s.jobs && t.released == s.released && t.cursor.completed == s.cursor.completed
    ensures OrderOk(nodes + more, t)
  {
    var all := nodes + more;
    assert forall n :: n in nodes ==> n in all;
    assert Names(nodes) <= Names(all);
    forall n | n in all && Gated(n) && n.name in t.released
      ensures DependenciesCompleted(n, t.cursor.completed)
    {
      NewNamesAreNew(nodes, more, n);
    }
    forall n | n in all && Gated(n) && LeftPending(t, n)
      ensures n.name in t.released
    {
      var m :| m in nodes && m.jobId == n.jobId;
      assert n in nodes || n in more;
      assert m.name == n.name;
      SameName(all, n, m);
      assert LeftPending(s, n);
    }
  }

  lemma HistoryGrows(c: Config, s: World, t: World, a: Acceptance)
    requires HistoryOk(c, s) && t.submitted == s.submitted && t.accepted == s.accepted + [a]
    requires Legitimate(c, s.submitted, Normalize(s.cursor).revision, a.id, a.payload)
    requires Normalize(t.cursor).revision == Normalize(s.cursor).revision + 1
    requires Normalize(t.cursor).generation == Normalize(s.cursor).generation + (if a.payload.RetryArgs? then 1 else 0)
    requires Normalize(t.cursor).grafts == s.cursor.grafts + (if a.payload.GraftArgs? then a.payload.nodes else [])
    ensures HistoryOk(c, t)
  {
    assert t.accepted[..|s.accepted|] == s.accepted;
  }

  lemma WakeInLargerGraph(nodes: seq<NodeSpec>, more: seq<NodeSpec>, s: World, t: World)
    requires WakeOk(nodes, s) && t.jobs == s.jobs && t.dormant == s.dormant && t.cursor.pendingRetry == s.cursor.pendingRetry
    ensures WakeOk(nodes + more, t)
  {
    assert forall n :: n in nodes ==> n in nodes + more;
  }

  lemma BudgetAfterGraft(c: Config, s: World, nodes: seq<NodeSpec>)
    requires BudgetOk(c, s) && !s.cursor.failed
    ensures BudgetOk(c, s.(cursor := WithGraft(s.cursor, nodes)))
  {
  }

  lemma NodesAfterGraft(c: Config, cur: Cursor, nodes: seq<NodeSpec>)
    ensures EffectiveWorkflow(c, WithGraft(cur, nodes)) ==
            EffectiveWorkflow(c, cur).(nodes := EffectiveWorkflow(c, cur).nodes + nodes)
  {
    assert c.base.nodes + (cur.grafts + nodes) == (c.base.nodes + cur.grafts) + nodes;
  }

  lemma AcceptGraftKeepsInv(c: Config, s: World, id: JobId, p: Payload)
    requires Inv(c, s) && !s.cursor.failed && p.GraftArgs?
    requires Legitimate(c, s.submitted, Normalize(s.cursor).revision, id, p)
    requires ValidGraph(EffectiveWorkflow(c, s.cursor).(nodes := EffectiveWorkflow(c, s.cursor).nodes + p.nodes), c.compiles)
    ensures Inv(c, AcceptGraft(s, id, p)) && Grows(s, AcceptGraft(s, id, p))
  {
    var before := EffectiveWorkflow(c, s.cursor).nodes;
    var t := AcceptGraft(s, id, p);
    assert OwnedPayload(c, (id, p).1);
    NodesAfterGraft(c, s.cursor, p.nodes);
    EvidenceInLargerGraph(before, p.nodes, s.cursor.completed);
    OrderInLargerGraph(c, before, p.nodes, s, t);
    WakeInLargerGraph(before, p.nodes, s, t);
    HistoryGrows(c, s, t, Acceptance(id, p, []));
    BudgetAfterGraft(c, s, p.nodes);
    assert BudgetOk(c, t);
  }

  function WithRetry(cur: Cursor): Cursor {
    var n := Normalize(cur);
    n.(revision := n.revision + 1, generation := n.generation + 1, failed := false, pendingRetry := Some(n.revision + 1))
  }

  function AcceptRetry(s: World, id: JobId, p: Payload, listed: seq<JobId>): World {
    s.(cursor := WithRetry(s.cursor), accepted := s.accepted + [Acceptance(id, p, listed)],
       dormant := set x | x in listed && x in s.jobs && IsStopped(s.jobs[x].state))
  }

  lemma AcceptRetryKeepsInv(c: Config, s: World, id: JobId, p: Payload, listed: seq<JobId>)
    requires Inv(c, s) && s.cursor.failed && !s.cursor.autoRetry && p.RetryArgs?
    requires Legitimate(c, s.submitted, Normalize(s.cursor).revision, id, p) && !LeftPendingId(s, id)
    requires forall x :: x in listed ==> exists n :: n in EffectiveWorkflow(c, s.cursor).nodes && x == NodeJob(n.jobId)
    requires c.automaticOnly && c.base.retryPolicy.Some? ==>
               Normalize(s.cursor).generation < c.base.retryPolicy.value.maxGenerations
    ensures Inv(c, AcceptRetry(s, id, p, listed)) && Grows(s, AcceptRetry(s, id, p, listed))
  {
    var nodes := EffectiveWorkflow(c, s.cursor).nodes;
    var t := AcceptRetry(s, id, p, listed);
    assert EffectiveWorkflow(c, t.cursor).nodes == nodes;
    assert forall n :: LeftPending(t, n) <==> LeftPending(s, n);
    assert s.cursor.grafts + [] == s.cursor.grafts;
    HistoryGrows(c, s, t, Acceptance(id, p, listed));
  }

  // ---- What the invariant says ----

  // A workflow as it is enqueued: everything gated is pending, nothing is recorded.
  ghost predicate Initial(c: Config, s: World) {
    && ValidGraph(c.base, c.compiles) && Owned(c, c.base.nodes)
    && s.cursor == NEW_CURSOR && s.released == {} && s.accepted == [] && s.dormant == {}
    && s.submitted == (set id | id in s.jobs :: (id, s.jobs[id].payload)) && PayloadsOk(c, s)
    && (forall n :: n in c.base.nodes && Gated(n) ==> !LeftPending(s, n))
    && (forall id :: NodeJob(id) in s.jobs && s.jobs[NodeJob(id)].state != Pending ==> exists n :: n in c.base.nodes && n.jobId == id)
    && (c.automaticOnly ==> forall r: nat :: RetryReceipt(r) !in s.jobs)
  }

  lemma InitialIsInv(c: Config, s: World)
    requires Initial(c, s)
    ensures Inv(c, s)
  {
    assert EffectiveWorkflow(c, s.cursor).nodes == c.base.nodes;
  }

  // Execution order: work that is not pending has all its dependencies in the durable evidence.
  lemma WorkFollowsDependencies(c: Config, s: World, n: NodeSpec, d: string)
    requires Inv(c, s) && n in EffectiveWorkflow(c, s.cursor).nodes && Gated(n) && LeftPending(s, n) && d in n.deps
    ensures d in s.cursor.completed
  {
  }

  // No receipt is accepted twice, and among all grafts and retries whose author had seen one revision
  // at most one is accepted. What was accepted had been submitted, for this workflow, under that id.
  lemma OneAcceptancePerRevision(c: Config, s: World, i: nat, j: nat)
    requires Inv(c, s) && i < |s.accepted| && j < |s.accepted|
    ensures var a := s.accepted[i];
            (a.id, a.payload) in s.submitted && !a.payload.Opaque? && a.payload.workflowId == c.base.workflowId
    ensures s.accepted[i].id == s.accepted[j].id ==> i == j
    ensures s.accepted[i].payload.expectedRevision == s.accepted[j].payload.expectedRevision ==> i == j
  {
    assert Legitimate(c, s.submitted, i + 1, s.accepted[i].id, s.accepted[i].payload);
    assert Legitimate(c, s.submitted, j + 1, s.accepted[j].id, s.accepted[j].payload);
  }

  // Revision and generation count the accepted receipts.
  lemma CursorCountsAcceptances(c: Config, s: World)
    requires Inv(c, s)
    ensures Normalize(s.cursor).revision == 1 + |s.accepted| && Normalize(s.cursor).generation == 1 + Retries(s.accepted)
    ensures ValidGraph(EffectiveWorkflow(c, s.cursor), c.compiles)
  {
  }

  // The receipt of an accepted retry leaves pending only after every job that was listed for it and
  // stopped at acceptance has moved.
  lemma RetryWaitsForItsJobs(c: Config, s: World, id: JobId)
    requires Inv(c, s) && s.cursor.pendingRetry.Some? && LeftPendingId(s, RetryReceipt(s.cursor.pendingRetry.value))
    ensures id !in s.dormant
  {
  }

  // With automatic retries only, the generation never passes the configured limit.
  lemma GenerationsStayInBudget(c: Config, s: World)
    requires Inv(c, s) && c.automaticOnly && c.base.retryPolicy.Some?
    ensures Normalize(s.cursor).generation <= c.base.retryPolicy.value.maxGenerations
    ensures Retries(s.accepted) < c.base.retryPolicy.value.maxGenerations
  {
  }

  // Three tasks, two of them on the same job; c is still pending.
  const SHARED_A := NodeSpec("a", "j1", [], Task, "", 0, 0, "", "")
  const SHARED_B := NodeSpec("b", "j1", ["c"], Task, "", 0, 0, "", "")
  const SHARED_C := NodeSpec("c", "j2", [], Task, "", 0, 0, "", "")
  const SHARED: seq<NodeSpec> := [SHARED_A, SHARED_B, SHARED_C]
  const SHARED_JOBS: Snapshot := map["a" := JobSummary(Completed, None), "b" := JobSummary(Completed, None),
                                     "c" := JobSummary(Pending, None)]

  lemma SharedEdges()
    ensures EdgesOf(SHARED) == {("c", "b")} && Names(SHARED) == {"a", "b", "c"} && EdgeCount(SHARED) == 1
  {
    assert SHARED_A in SHARED && SHARED_B in SHARED && SHARED_C in SHARED;
    assert "c" in SHARED_B.deps;
    var two, one := [SHARED_A, SHARED_B], [SHARED_A];
    assert one[..0] == [] && EdgeCount(one) == 0;
    assert two[..1] == one && EdgeCount(two) == 1;
    assert SHARED[..2] == two;
  }

  lemma SharedIsValid()
    ensures ValidGraph(CoordinatorArgs("w", SHARED, false, None), _ => true)
  {
    SharedEdges();
    RankedIsAcyclic(EdgesOf(SHARED), map["a" := 0, "c" := 0, "b" := 1]);
  }

  // Ownership cannot be dropped: validation does not compare job ids, and when two tasks share a job
  // the completion of one counts as completion of the other, whatever that one still waits for.
  lemma SharedJobBreaksOrder(completed: set<string>)
    requires EvidenceClosed(SHARED, SHARED_JOBS, completed) && LeastFrom(SHARED, SHARED_JOBS, {}, completed)
    ensures ValidGraph(CoordinatorArgs("w", SHARED, false, None), _ => true) && !DownClosed(SHARED, completed)
  {
    SharedIsValid();
    assert EvidenceClosed(SHARED, SHARED_JOBS, {"a", "b"});
    assert completed <= {"a", "b"};
    assert SHARED_B in SHARED && Evident(SHARED_JOBS, SHARED_B, completed);
    assert "c" in SHARED_B.deps && "c" !in completed;
  }
}
