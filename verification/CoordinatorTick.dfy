// One tick of the coordinator against the store (go/headgateworkflow/evaluation.go).
module CoordinatorTick {
  import opened Common
  import opened Graph
  import opened WorkflowGraph
  import opened WorkflowTick
  import opened WorkflowWorld
  import opened WorkflowStore

  ghost predicate ReadAt(n: NodeSpec, state: Snapshot, s: World) {
    if NodeJob(n.jobId) in s.jobs then
      var job := s.jobs[NodeJob(n.jobId)];
      n.name in state && state[n.name] == JobSummary(job.state, job.finalizedAtMs)
    else n.name !in state
  }

  // The first i reads, and nothing else in the snapshot.
  ghost predicate ReadTo(nodes: seq<NodeSpec>, i: nat, state: Snapshot, seen: seq<World>)
    requires i <= |nodes|
  {
    && |seen| == i && (forall x :: x in state ==> exists j :: 0 <= j < i && nodes[j].name == x)
    && forall j :: 0 <= j < i ==> ReadAt(nodes[j], state, seen[j])
  }

  // The snapshot shows each node's job as it was in some world after s, not all in the same one.
  ghost predicate Observed(c: Config, s: World, nodes: seq<NodeSpec>, state: Snapshot, seen: seq<World>) {
    ReadTo(nodes, |nodes|, state, seen) && AllKept(c, s, seen)
  }

  function WithRead(n: NodeSpec, state: Snapshot, job: Option<Job>): Snapshot {
    if job.Some? then state[n.name := JobSummary(job.value.state, job.value.finalizedAtMs)] else state
  }

  lemma ReadOne(nodes: seq<NodeSpec>, i: nat, state: Snapshot, seen: seq<World>, t: World)
    requires UniqueNames(nodes) && i < |nodes| && ReadTo(nodes, i, state, seen)
    ensures var id := NodeJob(nodes[i].jobId);
            ReadTo(nodes, i + 1, WithRead(nodes[i], state, if id in t.jobs then Some(t.jobs[id]) else None), seen + [t])
  {
  }

  // One read per node, at different times.
  method ReadStates(w: Store, nodes: seq<NodeSpec>) returns (state: Snapshot, err: bool, ghost seen: seq<World>)
    requires Inv(w.c, w.s) && nodes == EffectiveWorkflow(w.c, w.s.cursor).nodes
    modifies w
    ensures Kept(w.c, old(w.s), w.s)
    ensures !err ==> Observed(w.c, old(w.s), nodes, state, seen)
    ensures w.Later() && (err <==> !w.Heard())
    ensures w.Alone() ==> w.s == old(w.s) && forall t :: t in seen ==> t == old(w.s)
  {
    state, err, seen := map[], false, [];
    for i := 0 to |nodes|
      invariant Kept(w.c, old(w.s), w.s)
      invariant ReadTo(nodes, i, state, seen) && AllKept(w.c, old(w.s), seen)
      invariant w.Later() && w.Heard() && (w.Alone() ==> w.s == old(w.s) && forall t :: t in seen ==> t == old(w.s))
    {
      var job, lost := w.GetJob(NodeJob(nodes[i].jobId));
      if lost {
        return state, true, seen;
      }
      ReadOne(nodes, i, state, seen, w.s);
      state, seen := WithRead(nodes[i], state, job), seen + [w.s];
    }
  }

  // Finished work seen in a snapshot has its dependencies in the evidence the snapshot started from.
  lemma ObservedWorkIsOrdered(c: Config, s: World, nodes: seq<NodeSpec>, state: Snapshot, seen: seq<World>)
    requires Observed(c, s, nodes, state, seen) && nodes == EffectiveWorkflow(c, s.cursor).nodes
    ensures forall n :: n in nodes && Ordinary(n) && Finished(state, n) ==> DependenciesCompleted(n, s.cursor.completed)
  {
    forall n | n in nodes && Ordinary(n) && Finished(state, n)
      ensures DependenciesCompleted(n, s.cursor.completed)
    {
      var i :| 0 <= i < |nodes| && nodes[i] == n;
      assert seen[i] in seen && ReadAt(n, state, seen[i]);
      assert LeftPending(seen[i], n);
    }
  }

  // The call the mutation asks for would go through.
  predicate Feasible(s: World, m: Mutation) {
    if m.delete then Removable(s, NodeJob(m.node.jobId)) else IsPending(s, NodeJob(m.node.jobId))
  }

  predicate OneEach(ms: seq<Mutation>) {
    forall m, k :: m in ms && k in ms && m.node.jobId == k.node.jobId ==> m == k
  }

  // What is still to do has not been touched.
  ghost predicate Untouched(s: World, t: World, todo: set<Mutation>) {
    forall m :: m in todo ==> Feasible(t, m) == Feasible(s, m)
  }

  method ExecuteOne(w: Store, m: Mutation) returns (err: bool)
    requires Inv(w.c, w.s)
    requires !m.delete ==> Ready(w.c, w.s, m)
    modifies w
    ensures Kept(w.c, old(w.s), w.s)
    ensures !err ==> Carried(w.s, m)
    ensures w.Later() && (err && w.Heard() ==> !Feasible(w.s, m))
    ensures w.Alone() ==> (err <==> !Feasible(old(w.s), m))
    ensures w.Alone() ==> OthersSame(old(w.s), w.s, NodeJob(m.node.jobId))
  {
    if m.delete {
      err := w.DeleteJob(NodeJob(m.node.jobId));
    } else {
      err := w.ReleaseJob(m.node, Available, None);
    }
  }

  ghost predicate OthersSame(s: World, t: World, id: JobId) {
    forall x :: x != id ==> (x in t.jobs <==> x in s.jobs) && (x in t.jobs ==> t.jobs[x] == s.jobs[x])
  }

  lemma StillUntouched(s: World, t: World, u: World, ms: seq<Mutation>, todo: set<Mutation>, m: Mutation)
    requires Untouched(s, t, todo) && OthersSame(t, u, NodeJob(m.node.jobId)) && OneEach(ms) && m in todo
    requires forall k :: k in todo ==> k in ms
    ensures Untouched(s, u, todo - {m})
  {
    forall k | k in todo - {m}
      ensures Feasible(u, k) == Feasible(s, k)
    {
      assert k.node.jobId != m.node.jobId;
    }
  }

  // A deleted job is gone, a promoted one is on record as released.
  ghost predicate Carried(s: World, m: Mutation) {
    if m.delete then NodeJob(m.node.jobId) !in s.jobs else m.node.name in s.released
  }

  // The mutations outside todo have been carried out, each in its own world after s.
  ghost predicate CarriedBut(c: Config, s: World, ms: seq<Mutation>, todo: set<Mutation>, after: map<Mutation, World>) {
    forall m :: m in ms && m !in todo ==> m in after && Kept(c, s, after[m]) && Carried(after[m], m)
  }

  lemma OneMoreCarried(c: Config, s: World, t: World, u: World, ms: seq<Mutation>, todo: set<Mutation>, after: map<Mutation, World>, m: Mutation)
    requires CarriedBut(c, s, ms, todo, after) && Kept(c, s, t) && Kept(c, t, u) && Carried(u, m)
    ensures CarriedBut(c, s, ms, todo - {m}, after[m := u])
  {
    KeptTrans(c, s, t, u);
  }

  ghost predicate Ready(c: Config, s: World, m: Mutation) {
    m.node in EffectiveWorkflow(c, s.cursor).nodes && DependenciesCompleted(m.node, s.cursor.completed)
  }

  lemma ReadyStays(c: Config, s: World, t: World, ms: seq<Mutation>, m: Mutation)
    requires Kept(c, s, t) && m in ms && forall k :: k in ms && !k.delete ==> Ready(c, s, k)
    ensures !m.delete ==> Ready(c, t, m)
  {
  }

  // Promotions and deletions run concurrently, so in any order. Each deletion that was asked for had its
  // job gone in some world on the way.
  method Execute(w: Store, ms: seq<Mutation>) returns (err: bool, ghost after: map<Mutation, World>)
    requires Inv(w.c, w.s) && OneEach(ms)
    requires forall m :: m in ms && !m.delete ==> Ready(w.c, w.s, m)
    modifies w
    ensures Kept(w.c, old(w.s), w.s)
    ensures !err ==> CarriedBut(w.c, old(w.s), ms, {}, after)
    ensures w.Later() && (w.Alone() && err ==> exists m :: m in ms && !Feasible(old(w.s), m))
  {
    var todo := set m | m in ms;
    after := map[];
    while todo != {}
      invariant Kept(w.c, old(w.s), w.s) && w.Later()
      invariant forall m :: m in todo ==> m in ms
      invariant CarriedBut(w.c, old(w.s), ms, todo, after)
      invariant w.Alone() ==> Untouched(old(w.s), w.s, todo)
      decreases |todo|
    {
      var m :| m in todo;
      ghost var now := w.s;
      ReadyStays(w.c, old(w.s), now, ms, m);
      err := ExecuteOne(w, m);
      KeptTrans(w.c, old(w.s), now, w.s);
      if err {
        return;
      }
      OneMoreCarried(w.c, old(w.s), now, w.s, ms, todo, after, m);
      if w.Alone() {
        StillUntouched(old(w.s), now, w.s, ms, todo, m);
      }
      todo, after := todo - {m}, after[m := w.s];
    }
    err := false;
  }

  ghost predicate Advanced(c: Config, s: World, t: World) {
    Inv(c, t) && Grows(s, t) && t.accepted == s.accepted
  }

  lemma EvidenceWrite(c: Config, old_: Cursor, nodes: seq<NodeSpec>, state: Snapshot, cur: Cursor)
    requires ValidGraph(EffectiveWorkflow(c, old_), c.compiles) && nodes == EffectiveWorkflow(c, old_).nodes
    requires EvidenceOk(nodes, old_.completed)
    requires cur == Normalize(old_).(completed := cur.completed, completedAt := cur.completedAt)
    requires old_.completed <= cur.completed <= old_.completed + Names(nodes)
    requires EvidenceClosed(nodes, state, cur.completed) && LeastFrom(nodes, state, old_.completed, cur.completed)
    requires forall n :: n in nodes && Ordinary(n) && Finished(state, n) ==> DependenciesCompleted(n, old_.completed)
    ensures EvidenceOk(EffectiveWorkflow(c, cur).nodes, cur.completed)
  {
    GrowthKeepsDownClosed(nodes, state, old_.completed, cur.completed);
  }

  // Reads every job and records what their completion proves, durably, before anything is acted on.
  method Observe(w: Store, cur0: Cursor, nodes: seq<NodeSpec>) returns (state: Snapshot, cur: Cursor, err: bool, ghost seen: seq<World>)
    requires Inv(w.c, w.s) && cur0 == Normalize(w.s.cursor) && !cur0.autoRetry
    requires nodes == EffectiveWorkflow(w.c, w.s.cursor).nodes
    modifies w
    ensures Advanced(w.c, old(w.s), w.s)
    ensures !err ==> cur == Normalize(w.s.cursor) && cur == cur0.(completed := cur.completed, completedAt := cur.completedAt)
    ensures !err ==> Observed(w.c, old(w.s), nodes, state, seen)
    ensures !err ==> EvidenceClosed(nodes, state, cur.completed) && LeastFrom(nodes, state, cur0.completed, cur.completed)
    ensures !err ==> TimesOk(state, Stamps(nodes, state, cur0.completed, cur.completed), cur0.completedAt, cur.completedAt)
    ensures w.Later() && (err <==> !w.Heard())
    ensures w.Alone() ==> w.s.jobs == old(w.s.jobs) && forall t :: t in seen ==> t == old(w.s)
  {
    cur := cur0;
    state, err, seen := ReadStates(w, nodes);
    if err {
      return;
    }
    var completed, at, changed := GrowEvidence(nodes, state, cur0.completed, cur0.completedAt);
    cur := cur0.(completed := completed, completedAt := at);
    if changed {
      ObservedWorkIsOrdered(w.c, old(w.s), nodes, state, seen);
      EvidenceWrite(w.c, w.s.cursor, nodes, state, cur);
      ghost var now := w.s;
      err := w.Persist(cur, Plain);
      KeptAdvances(w.c, old(w.s), now, w.s);
    }
  }

  lemma KeptAdvances(c: Config, s: World, t: World, u: World)
    requires Kept(c, s, t) && Inv(c, u) && Grows(t, u) && u.accepted == t.accepted
    ensures Advanced(c, s, u)
  {
  }

  // The timer at which the pass stopped is scheduled, for the time it is due.
  ghost predicate TimerSet(v: View, failed: set<string>, s: World) {
    exists n, at :: v.Schedules(failed, n, at) && NodeJob(n.jobId) in s.jobs
                    && s.jobs[NodeJob(n.jobId)].state == Scheduled && s.jobs[NodeJob(n.jobId)].dueAtMs == Some(at)
  }

  // Every promotion and deletion that was called for has been carried out.
  ghost predicate AllCarried(c: Config, s: World, v: View, failed: set<string>, after: map<Mutation, World>) {
    forall m :: v.Wanted(failed, m) ==> m in after && Kept(c, s, after[m]) && Carried(after[m], m)
  }

  // Either the first timer that is ready was scheduled, or everything was carried out.
  ghost predicate Moved(c: Config, s: World, v: View, failed: set<string>, t: World, after: map<Mutation, World>) {
    TimerSet(v, failed, t) || AllCarried(c, s, v, failed, after)
  }

  // The snapshot shows this world.
  ghost predicate Shows(v: View, s: World) {
    forall n :: n in v.nodes ==> ReadAt(n, v.state, s)
  }

  // A decision about the world as it is can be carried out.
  lemma WantedIsFeasible(c: Config, v: View, failed: set<string>, s: World, m: Mutation)
    requires v.Settled() && Shows(v, s) && v.Wanted(failed, m)
    ensures Feasible(s, m)
  {
    var n := m.node;
    assert ReadAt(n, v.state, s);
    if m.delete {
      assert v.Effective(n).Some?;
    } else {
      ReadyIsPending(v, n, s);
    }
  }

  lemma ReadyIsPending(v: View, n: NodeSpec, s: World)
    requires v.Settled() && Shows(v, s) && n in v.nodes && v.ReadyPending(n)
    ensures IsPending(s, NodeJob(n.jobId))
  {
    assert ReadAt(n, v.state, s);
    DependenciesAreEvidence(v, n);
    assert !Evident(v.state, n, v.completed);
  }

  lemma OneMutationEach(c: Config, v: View, failed: set<string>, ms: seq<Mutation>)
    requires Owned(c, v.nodes) && UniqueNames(v.nodes) && forall m :: m in ms ==> v.Wanted(failed, m)
    ensures OneEach(ms)
  {
    forall m, k | m in ms && k in ms && m.node.jobId == k.node.jobId
      ensures m == k
    {
      assert v.Wanted(failed, m) && v.Wanted(failed, k);
      SameName(v.nodes, m.node, k.node);
    }
  }

  method CarryOut(w: Store, ghost v: View, ghost failed: set<string>, ms: seq<Mutation>) returns (err: bool, ghost after: map<Mutation, World>)
    requires Inv(w.c, w.s) && v.Settled()
    requires v.nodes == EffectiveWorkflow(w.c, w.s.cursor).nodes && v.completed == w.s.cursor.completed
    requires forall m :: m in ms <==> v.Wanted(failed, m)
    modifies w
    ensures Kept(w.c, old(w.s), w.s)
    ensures !err ==> AllCarried(w.c, old(w.s), v, failed, after)
    ensures w.Later() && (w.Alone() && err ==> !Shows(v, old(w.s)))
  {
    PromotionsAreReady(v, failed, ms);
    OneMutationEach(w.c, v, failed, ms);
    err, after := Execute(w, ms);
    if Shows(v, old(w.s)) {
      forall m | m in ms
        ensures Feasible(old(w.s), m)
      {
        WantedIsFeasible(w.c, v, failed, old(w.s), m);
      }
    }
  }

  method SetTimer(w: Store, ghost v: View, ghost failed: set<string>, n: NodeSpec, at: int) returns (err: bool)
    requires Inv(w.c, w.s) && v.Settled() && v.Schedules(failed, n, at)
    requires v.nodes == EffectiveWorkflow(w.c, w.s.cursor).nodes && v.completed == w.s.cursor.completed
    modifies w
    ensures Kept(w.c, old(w.s), w.s)
    ensures !err ==> TimerSet(v, failed, w.s)
    ensures w.Later() && (w.Alone() && err ==> !Shows(v, old(w.s)))
  {
    DependenciesAreEvidence(v, n);
    if Shows(v, old(w.s)) {
      ReadyIsPending(v, n, w.s);
    }
    err := w.ReleaseJob(n, Scheduled, Some(at));
  }

  // Acts on the decision: schedules one timer, or promotes and deletes, or settles.
  method Act(w: Store, v: View)
    returns (result: TickResult, err: bool, ghost acted: bool, ghost failed: set<string>, ghost after: map<Mutation, World>)
    requires Inv(w.c, w.s) && v.Settled()
    requires v.nodes == EffectiveWorkflow(w.c, w.s.cursor).nodes && v.completed == w.s.cursor.completed
    modifies w
    ensures Kept(w.c, old(w.s), w.s)
    ensures v.FailedExactly(failed)
    ensures !err && result == Succeeded ==> failed == {} && Names(v.nodes) <= v.completed
    ensures !err && result == Failed ==> failed != {} && Names(v.nodes) <= failed + v.completed
    ensures !err && result == Waiting && !acted && !HasCycle(EdgesOf(v.nodes)) ==>
              exists n :: n in v.nodes && n.name !in failed && v.Outside(n)
    ensures !err && !acted ==> forall m :: !v.Wanted(failed, m)
    ensures !err && acted ==> result == Waiting && Moved(w.c, old(w.s), v, failed, w.s, after)
    ensures w.Later() && (w.Alone() && err && Shows(v, old(w.s)) ==> v.Faults(failed))
  {
    var plan;
    plan, failed := PlanTick(v);
    result, err, acted, after := Waiting, false, false, map[];
    match plan {
      case Fault =>
        err := true;
      case ScheduleTimer(n, atMs) =>
        acted := true;
        err := SetTimer(w, v, failed, n, atMs);
      case Mutate(ms) =>
        acted := true;
        err, after := CarryOut(w, v, failed, ms);
      case Settle(verdict) =>
        result := verdict;
    }
  }

  // What the decision is made on.
  function ViewOf(workflow: CoordinatorArgs, state: Snapshot, cur: Cursor, evaluate: NodeSpec -> Option<bool>): View {
    View(workflow.nodes, workflow.failedSubgraphRetry, state, cur.completed, cur.completedAt, evaluate)
  }

  // Reads the jobs, records new evidence durably, then acts on it. acted tells whether a mutation
  // was requested; view and failed are what the decision was based on, base is the world it was acted in.
  method Tick(w: Store, cur0: Cursor, evaluate: NodeSpec -> Option<bool>)
    returns (result: TickResult, err: bool, cur: Cursor, ghost story: TickStory)
    requires Inv(w.c, w.s) && cur0 == Normalize(w.s.cursor) && !cur0.autoRetry
    modifies w
    ensures Advanced(w.c, old(w.s), w.s)
    ensures !err ==> cur == Normalize(w.s.cursor) && cur == cur0.(completed := cur.completed, completedAt := cur.completedAt)
    ensures !err ==> Seen(w.c, old(w.s), cur0, cur, evaluate, story) && Judged(w.c, w.s, result, story)
    ensures w.Later() && (w.Alone() ==> forall t :: t in story.seen ==> t == old(w.s))
    ensures w.Alone() && err ==> Seen(w.c, old(w.s), cur0, cur, evaluate, story) && story.view.Faults(story.failed)
  {
    var workflow := EffectiveWorkflow(w.c, cur0);
    result, cur := Waiting, cur0;
    story := TickStory(ViewOf(workflow, map[], cur0, evaluate), {}, false, [], w.s, map[]);
    var invalid := ValidateCoordinator(workflow, w.c.compiles);
    if invalid.Some? {
      err := true;
      return;
    }
    var state;
    ghost var seen;
    state, cur, err, seen := Observe(w, cur0, workflow.nodes);
    if err {
      return;
    }
    result, err, story := Decide(w, ViewOf(workflow, state, cur, evaluate), old(w.s), cur0, cur, seen, w.Alone());
  }

  // The second half of a tick, after the jobs were read since s. calm says that nobody else acted meanwhile.
  method Decide(w: Store, v: View, ghost s: World, ghost cur0: Cursor, ghost cur: Cursor, ghost seen: seq<World>, ghost calm: bool)
    returns (result: TickResult, err: bool, ghost story: TickStory)
    requires Advanced(w.c, s, w.s) && cur == Normalize(w.s.cursor) == cur0.(completed := cur.completed, completedAt := cur.completedAt)
    requires v == ViewOf(EffectiveWorkflow(w.c, cur0), v.state, cur, v.evaluate)
    requires Observed(w.c, s, v.nodes, v.state, seen) && EvidenceClosed(v.nodes, v.state, cur.completed)
    requires LeastFrom(v.nodes, v.state, cur0.completed, cur.completed)
    requires TimesOk(v.state, Stamps(v.nodes, v.state, cur0.completed, cur.completed), cur0.completedAt, cur.completedAt)
    requires calm ==> w.s.jobs == s.jobs && forall t :: t in seen ==> t == s
    modifies w
    ensures Advanced(w.c, s, w.s) && w.s.cursor == old(w.s.cursor)
    ensures Seen(w.c, s, cur0, cur, v.evaluate, story) && story.seen == seen
    ensures !err ==> Judged(w.c, w.s, result, story)
    ensures w.Later() && (calm && w.Alone() && err ==> story.view.Faults(story.failed))
  {
    ValidIsSettled(EffectiveWorkflow(w.c, w.s.cursor), w.c.compiles, v);
    if calm {
      AloneShows(w.c, s, v, seen, w.s);
    }
    ghost var acted, failed, after;
    result, err, acted, failed, after := Act(w, v);
    FailedMissesCompleted(v.nodes, v.state, cur.completed, failed);
    story := TickStory(v, failed, acted, seen, old(w.s), after);
    AdvancedOn(w.c, s, old(w.s), w.s);
  }

  lemma AdvancedOn(c: Config, s: World, t: World, u: World)
    requires Advanced(c, s, t) && Kept(c, t, u)
    ensures Advanced(c, s, u)
  {
  }

  // What a tick saw and did: the decision's view, what it took for failed, whether it asked for a
  // mutation, the worlds it read in, the world it acted in, and those after each mutation.
  datatype TickStory = TickStory(
    view: View, failed: set<string>, acted: bool, seen: seq<World>, base: World, after: map<Mutation, World>)

  // The view is what was read after s, with the least evidence it proves and the times that were read.
  ghost predicate Seen(c: Config, s: World, cur0: Cursor, cur: Cursor, evaluate: NodeSpec -> Option<bool>, story: TickStory) {
    var v := story.view;
    && v == ViewOf(EffectiveWorkflow(c, cur0), v.state, cur, evaluate)
    && v.Settled() && v.FailedExactly(story.failed) && story.failed !! cur.completed
    && Observed(c, s, v.nodes, v.state, story.seen) && LeastFrom(v.nodes, v.state, cur0.completed, cur.completed)
    && TimesOk(v.state, Stamps(v.nodes, v.state, cur0.completed, cur.completed), cur0.completedAt, cur.completedAt)
  }

  // What the result means in the world t the tick left.
  ghost predicate Judged(c: Config, t: World, result: TickResult, story: TickStory) {
    var v, failed := story.view, story.failed;
    && (result == Succeeded ==> failed == {} && Names(v.nodes) <= v.completed)
    && (result == Failed ==> failed != {} && Names(v.nodes) <= failed + v.completed)
    && (result == Waiting && !story.acted ==> exists n :: n in v.nodes && n.name !in failed && v.Outside(n))
    && (!story.acted ==> forall m :: !v.Wanted(failed, m))
    && (story.acted ==> result == Waiting && Moved(c, story.base, v, failed, t, story.after))
  }

  lemma AloneShows(c: Config, s: World, v: View, seen: seq<World>, t: World)
    requires Observed(c, s, v.nodes, v.state, seen) && t.jobs == s.jobs && forall u :: u in seen ==> u == s
    ensures Shows(v, t)
  {
    forall n | n in v.nodes
      ensures ReadAt(n, v.state, t)
    {
      var i :| 0 <= i < |v.nodes| && v.nodes[i] == n;
      assert seen[i] in seen && ReadAt(n, v.state, seen[i]);
    }
  }

  lemma ValidIsSettled(workflow: CoordinatorArgs, compiles: string -> bool, v: View)
    requires ValidGraph(workflow, compiles) && v.nodes == workflow.nodes
    requires EvidenceClosed(v.nodes, v.state, v.completed)
    ensures v.Settled()
  {
  }

  lemma PromotionsAreReady(v: View, failed: set<string>, ms: seq<Mutation>)
    requires v.Settled() && forall m :: m in ms ==> v.Wanted(failed, m)
    ensures forall m :: m in ms && !m.delete ==> m.node in v.nodes && DependenciesCompleted(m.node, v.completed)
  {
    forall m | m in ms && !m.delete
      ensures m.node in v.nodes && DependenciesCompleted(m.node, v.completed)
    {
      assert v.Wanted(failed, m);
      DependenciesAreEvidence(v, m.node);
    }
  }
}
