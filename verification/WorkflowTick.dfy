// One evaluation of a workflow graph against a snapshot of its jobs
// (go/headgateworkflow/evaluation.go).
module WorkflowTick {
  import opened Common
  import opened Graph
  import opened WorkflowGraph

  datatype JobSummary = JobSummary(state: JobState, finalizedAtMs: Option<int>)

  // The jobs that were found, by node name.
  type Snapshot = map<string, JobSummary>

  datatype TickResult = Waiting | Succeeded | Failed

  predicate IsFailed(s: JobState) {
    s in {Archived, Cancelled, Quarantined, Undecodable}
  }

  predicate Deletable(s: JobState) {
    s in {Pending, Scheduled, Available, Retryable}
  }

  // Work that will move without the coordinator.
  predicate Active(s: JobState) {
    s in {Scheduled, Available, Running, Retryable}
  }

  // Nodes without application work: their job may finish before their dependencies.
  predicate Virtual(n: NodeSpec) {
    NormalizedKind(n) in {Signal, Timer, Condition}
  }

  // Nodes whose job is real work, released only by the coordinator.
  predicate Ordinary(n: NodeSpec) {
    NormalizedKind(n) in {Task, Child}
  }

  function EffectiveState(state: Snapshot, n: NodeSpec, completed: set<string>): Option<JobState> {
    if n.name in completed then Some(Completed)
    else if n.name !in state then None
    else if Virtual(n) && state[n.name].state == Completed then Some(Pending)
    else Some(state[n.name].state)
  }

  predicate DependenciesCompleted(n: NodeSpec, completed: set<string>) {
    forall d :: d in n.deps ==> d in completed
  }

  predicate Finished(state: Snapshot, n: NodeSpec) {
    n.name in state && state[n.name].state == Completed
  }

  // ---- Completion evidence ----

  // What a finished job proves on its own: ordinary work ran after its dependencies, anything else
  // counts only once the dependencies are completed too.
  predicate Evident(state: Snapshot, n: NodeSpec, completed: set<string>) {
    && Finished(state, n)
    && (Ordinary(n) || (Virtual(n) && DependenciesCompleted(n, completed)))
  }

  ghost predicate EvidenceClosed(nodes: seq<NodeSpec>, state: Snapshot, completed: set<string>) {
    forall n :: n in nodes && Evident(state, n, completed) ==> n.name in completed
  }

  // Every closed set that contains `from` contains s.
  ghost predicate LeastFrom(nodes: seq<NodeSpec>, state: Snapshot, from: set<string>, s: set<string>) {
    forall big :: from <= big && EvidenceClosed(nodes, state, big) ==> s <= big
  }

  lemma AddEvident(nodes: seq<NodeSpec>, state: Snapshot, from: set<string>, s: set<string>, n: NodeSpec)
    requires LeastFrom(nodes, state, from, s) && n in nodes && Evident(state, n, s)
    ensures LeastFrom(nodes, state, from, s + {n.name})
  {
  }

  // The names that get a completion time: every finished task, and whatever became evidence only now.
  ghost function Stamps(nodes: seq<NodeSpec>, state: Snapshot, before: set<string>, completed: set<string>): set<string> {
    (set n | n in nodes && Ordinary(n) && Finished(state, n) && state[n.name].finalizedAtMs.Some? :: n.name)
    + set x | x in completed && x !in before && x in state && state[x].finalizedAtMs.Some?
  }

  function TimeOf(at: map<string, int>, x: string): Option<int> {
    if x in at then Some(at[x]) else None
  }

  // The times of the stamped names are those that were read, the others stay as they were.
  ghost predicate TimesOk(state: Snapshot, stamped: set<string>, at0: map<string, int>, at: map<string, int>) {
    forall x :: if x in stamped then x in state && x in at && Some(at[x]) == state[x].finalizedAtMs
                else TimeOf(at, x) == TimeOf(at0, x)
  }

  ghost function FinishedTasks(nodes: seq<NodeSpec>, state: Snapshot): set<string> {
    set n | n in nodes && Ordinary(n) && Finished(state, n) :: n.name
  }

  // The tasks among the first i nodes have been recorded.
  ghost predicate TasksRecorded(nodes: seq<NodeSpec>, i: nat, state: Snapshot, before: set<string>, completed: set<string>,
                                at0: map<string, int>, at: map<string, int>)
    requires i <= |nodes|
  {
    && completed == before + FinishedTasks(nodes[..i], state) && LeastFrom(nodes, state, before, completed)
    && TimesOk(state, Stamps(nodes[..i], state, {}, {}), at0, at)
  }

  lemma FinishedSnoc(nodes: seq<NodeSpec>, n: NodeSpec, state: Snapshot)
    ensures FinishedTasks(nodes + [n], state) ==
            FinishedTasks(nodes, state) + if Ordinary(n) && Finished(state, n) then {n.name} else {}
    ensures Stamps(nodes + [n], state, {}, {}) ==
            Stamps(nodes, state, {}, {}) + if Ordinary(n) && Finished(state, n) && state[n.name].finalizedAtMs.Some? then {n.name} else {}
  {
  }

  lemma TimeStamped(state: Snapshot, stamped: set<string>, at0: map<string, int>, at: map<string, int>, x: string)
    requires TimesOk(state, stamped, at0, at) && x in state
    ensures var done := state[x].finalizedAtMs;
            TimesOk(state, stamped + if done.Some? then {x} else {}, at0, if done.Some? then at[x := done.value] else at)
  {
  }

  lemma OneTaskRecorded(nodes: seq<NodeSpec>, i: nat, state: Snapshot, before: set<string>, completed: set<string>,
                        at0: map<string, int>, at: map<string, int>)
    requires i < |nodes| && TasksRecorded(nodes, i, state, before, completed, at0, at)
    ensures var n := nodes[i];
            if Ordinary(n) && Finished(state, n) then
              var done := state[n.name].finalizedAtMs;
              TasksRecorded(nodes, i + 1, state, before, completed + {n.name}, at0, if done.Some? then at[n.name := done.value] else at)
            else TasksRecorded(nodes, i + 1, state, before, completed, at0, at)
  {
    var n, s := nodes[i], Stamps(nodes[..i], state, {}, {});
    TakeSnoc(nodes, i);
    FinishedSnoc(nodes[..i], n, state);
    if Ordinary(n) && Finished(state, n) {
      assert n in nodes;
      AddEvident(nodes, state, before, completed, n);
      TimeStamped(state, s, at0, at, n.name);
      assert completed + {n.name} == before + FinishedTasks(nodes[..i + 1], state);
    } else {
      assert s + {} == s && FinishedTasks(nodes[..i], state) + {} == FinishedTasks(nodes[..i], state);
    }
  }

  lemma AllTasksRecorded(nodes: seq<NodeSpec>, state: Snapshot, before: set<string>, completed: set<string>,
                         at0: map<string, int>, at: map<string, int>)
    requires TasksRecorded(nodes, |nodes|, state, before, completed, at0, at)
    ensures completed == before + FinishedTasks(nodes, state) && LeastFrom(nodes, state, before, completed)
    ensures TimesOk(state, Stamps(nodes, state, before, completed), at0, at)
  {
    TakeAll(nodes);
    assert Stamps(nodes, state, before, before + FinishedTasks(nodes, state)) == Stamps(nodes, state, {}, {});
  }

  method RecordTask(name: string, done: Option<int>, completed0: set<string>, at0: map<string, int>)
    returns (completed: set<string>, at: map<string, int>, changed: bool)
    ensures completed == completed0 + {name} && at == if done.Some? then at0[name := done.value] else at0
    ensures !changed ==> completed == completed0 && at == at0
  {
    completed, at, changed := completed0, at0, false;
    if name !in completed {
      completed, changed := completed + {name}, true;
    }
    if done.Some? && (name !in at || at[name] != done.value) {
      at, changed := at[name := done.value], true;
    }
  }

  // A completed ordinary job is evidence by itself.
  method RecordTasks(nodes: seq<NodeSpec>, state: Snapshot, before: set<string>, at0: map<string, int>)
    returns (completed: set<string>, at: map<string, int>, changed: bool)
    ensures completed == before + FinishedTasks(nodes, state)
    ensures LeastFrom(nodes, state, before, completed)
    ensures TimesOk(state, Stamps(nodes, state, before, completed), at0, at)
    ensures !changed ==> completed == before && at == at0
  {
    completed, at, changed := before, at0, false;
    for i := 0 to |nodes|
      invariant TasksRecorded(nodes, i, state, before, completed, at0, at)
      invariant !changed ==> completed == before && at == at0
    {
      var n := nodes[i];
      OneTaskRecorded(nodes, i, state, before, completed, at0, at);
      if Ordinary(n) && Finished(state, n) {
        var more;
        completed, at, more := RecordTask(n.name, state[n.name].finalizedAtMs, completed, at);
        changed := changed || more;
      }
    }
    AllTasksRecorded(nodes, state, before, completed, at0, at);
  }

  lemma OneMoreStamped(nodes: seq<NodeSpec>, state: Snapshot, before: set<string>, completed: set<string>, at0: map<string, int>,
                       at: map<string, int>, x: string)
    requires TimesOk(state, Stamps(nodes, state, before, completed), at0, at) && x !in before && x in state
    ensures var done := state[x].finalizedAtMs;
            TimesOk(state, Stamps(nodes, state, before, completed + {x}), at0, if done.Some? then at[x := done.value] else at)
  {
    var s, t := Stamps(nodes, state, before, completed), Stamps(nodes, state, before, completed + {x});
    assert t == if state[x].finalizedAtMs.Some? then s + {x} else s;
  }

  // One pass over the nodes that must wait for their dependencies.
  method RecordVirtualPass(nodes: seq<NodeSpec>, state: Snapshot, ghost from: set<string>, before: set<string>,
                           ghost at0: map<string, int>, at1: map<string, int>)
    returns (completed: set<string>, at: map<string, int>, added: bool)
    requires LeastFrom(nodes, state, from, before) && from <= before <= from + Names(nodes)
    requires TimesOk(state, Stamps(nodes, state, from, before), at0, at1)
    ensures before <= completed <= from + Names(nodes)
    ensures LeastFrom(nodes, state, from, completed)
    ensures TimesOk(state, Stamps(nodes, state, from, completed), at0, at)
    ensures added <==> completed != before
    ensures !added ==> at == at1
    ensures !added ==> forall n :: n in nodes && Virtual(n) && Evident(state, n, completed) ==> n.name in completed
  {
    completed, at, added := before, at1, false;
    for i := 0 to |nodes|
      invariant before <= completed <= from + Names(nodes)
      invariant LeastFrom(nodes, state, from, completed)
      invariant TimesOk(state, Stamps(nodes, state, from, completed), at0, at)
      invariant added <==> completed != before
      invariant !added ==> at == at1
      invariant !added ==> forall j :: 0 <= j < i && Virtual(nodes[j]) && Evident(state, nodes[j], completed)
                                       ==> nodes[j].name in completed
    {
      var n := nodes[i];
      assert n in nodes;
      if Virtual(n) && n.name !in completed && Finished(state, n) && DependenciesCompleted(n, completed) {
        AddEvident(nodes, state, from, completed, n);
        OneMoreStamped(nodes, state, from, completed, at0, at, n.name);
        completed, added := completed + {n.name}, true;
        if state[n.name].finalizedAtMs.Some? {
          at := at[n.name := state[n.name].finalizedAtMs.value];
        }
      }
    }
  }

  // The evidence after a tick is the least closed set containing the evidence before it, and the
  // completion times are the finalization times that were read.
  method GrowEvidence(nodes: seq<NodeSpec>, state: Snapshot, before: set<string>, at0: map<string, int>)
    returns (completed: set<string>, at: map<string, int>, changed: bool)
    ensures before <= completed <= before + Names(nodes)
    ensures EvidenceClosed(nodes, state, completed) && LeastFrom(nodes, state, before, completed)
    ensures TimesOk(state, Stamps(nodes, state, before, completed), at0, at)
    ensures !changed ==> completed == before && at == at0
  {
    completed, at, changed := RecordTasks(nodes, state, before, at0);
    var added := true;
    while added
      invariant before <= completed <= before + Names(nodes)
      invariant LeastFrom(nodes, state, before, completed)
      invariant TimesOk(state, Stamps(nodes, state, before, completed), at0, at)
      invariant !changed ==> completed == before && at == at0
      invariant forall n :: n in nodes && Ordinary(n) && Finished(state, n) ==> n.name in completed
      invariant !added ==> forall n :: n in nodes && Virtual(n) && Evident(state, n, completed) ==> n.name in completed
      decreases |before + Names(nodes)| - |completed|, added
    {
      ghost var prior := completed;
      completed, at, added := RecordVirtualPass(nodes, state, before, completed, at0, at);
      if added {
        changed := true;
        var x := ProperSubset(prior, completed);
      }
      SubsetSize(completed, before + Names(nodes));
    }
  }

  // ---- What the evidence means ----

  // No completed node has an uncompleted dependency.
  ghost predicate DownClosed(nodes: seq<NodeSpec>, completed: set<string>) {
    forall n :: n in nodes && n.name in completed ==> DependenciesCompleted(n, completed)
  }

  lemma SameName(nodes: seq<NodeSpec>, n: NodeSpec, m: NodeSpec)
    requires UniqueNames(nodes) && n in nodes && m in nodes && n.name == m.name
    ensures n == m
  {
  }

  // If ordinary work only ever finishes after its dependencies were recorded, growing the evidence
  // keeps it downward closed, however early the virtual nodes finish.
  lemma GrowthKeepsDownClosed(nodes: seq<NodeSpec>, state: Snapshot, before: set<string>, completed: set<string>)
    requires UniqueNames(nodes) && DownClosed(nodes, before) && before <= completed
    requires EvidenceClosed(nodes, state, completed) && LeastFrom(nodes, state, before, completed)
    requires forall n :: n in nodes && Ordinary(n) && Finished(state, n) ==> DependenciesCompleted(n, before)
    ensures DownClosed(nodes, completed)
  {
    var sound := set x | x in completed && forall n :: n in nodes && n.name == x ==> DependenciesCompleted(n, completed);
    forall n | n in nodes && Evident(state, n, sound)
      ensures n.name in sound
    {
      assert Evident(state, n, completed);
      forall m | m in nodes && m.name == n.name
        ensures DependenciesCompleted(m, completed)
      {
        SameName(nodes, n, m);
      }
    }
    assert before <= sound;
    assert completed <= sound;
  }

  // Evidence never comes from nowhere.
  lemma NewEvidenceFinished(nodes: seq<NodeSpec>, state: Snapshot, before: set<string>, completed: set<string>, x: string)
    requires EvidenceClosed(nodes, state, completed) && LeastFrom(nodes, state, before, completed)
    requires x in completed && x !in before && before <= completed
    ensures exists n :: n in nodes && n.name == x && Finished(state, n)
  {
    var shown := before + set n | n in nodes && n.name in completed && Finished(state, n) :: n.name;
    forall n | n in nodes && Evident(state, n, shown)
      ensures n.name in shown
    {
      assert Evident(state, n, completed);
    }
    assert completed <= shown;
    assert x in shown;
  }

  // ---- Failure propagation ----

  predicate Broken(state: Snapshot, n: NodeSpec, completed: set<string>) {
    var s := EffectiveState(state, n, completed);
    s.None? || IsFailed(s.value)
  }

  ghost function Seeds(nodes: seq<NodeSpec>, state: Snapshot, completed: set<string>): set<string> {
    set n | n in nodes && Broken(state, n, completed) :: n.name
  }

  // x waits, through some chain of dependencies, for a member of seeds (or is one).
  ghost predicate Doomed(nodes: seq<NodeSpec>, seeds: set<string>, x: string) {
    exists p :: IsWalk(EdgesOf(nodes), p) && p[0] in seeds && p[|p| - 1] == x
  }

  predicate HasDepIn(n: NodeSpec, s: set<string>) {
    exists d :: d in n.deps && d in s
  }

  ghost predicate UpClosed(nodes: seq<NodeSpec>, s: set<string>) {
    forall n :: n in nodes && HasDepIn(n, s) ==> n.name in s
  }

  lemma DoomSpreads(nodes: seq<NodeSpec>, seeds: set<string>, n: NodeSpec, d: string)
    requires n in nodes && d in n.deps && Doomed(nodes, seeds, d)
    ensures Doomed(nodes, seeds, n.name)
  {
    var edges := EdgesOf(nodes);
    var p :| IsWalk(edges, p) && p[0] in seeds && p[|p| - 1] == d;
    assert (d, n.name) in edges;
    WalkSnoc(edges, p, n.name);
    var q := p + [n.name];
    assert IsWalk(edges, q) && q[0] in seeds && q[|q| - 1] == n.name;
  }

  lemma {:induction false} WalkStaysIn(nodes: seq<NodeSpec>, s: set<string>, p: seq<string>)
    requires UpClosed(nodes, s) && IsWalk(EdgesOf(nodes), p) && p[0] in s
    ensures p[|p| - 1] in s
    decreases |p|
  {
    if |p| > 1 {
      var q := p[..|p| - 1];
      assert (q[|q| - 1], p[|p| - 1]) in EdgesOf(nodes);
      WalkStaysIn(nodes, s, q);
      EdgeTarget(nodes, (q[|q| - 1], p[|p| - 1]));
    }
  }

  // One pass over the nodes; dependents of failed nodes fail.
  method SpreadPass(nodes: seq<NodeSpec>, before: set<string>, ghost seeds: set<string>) returns (failed: set<string>)
    requires forall x :: x in before ==> Doomed(nodes, seeds, x)
    requires before <= Names(nodes)
    ensures before <= failed <= Names(nodes)
    ensures forall x :: x in failed ==> Doomed(nodes, seeds, x)
    ensures failed == before ==> UpClosed(nodes, failed)
  {
    failed := before;
    for i := 0 to |nodes|
      invariant before <= failed <= Names(nodes)
      invariant forall x :: x in failed ==> Doomed(nodes, seeds, x)
      invariant forall j :: 0 <= j < i && HasDepIn(nodes[j], before) ==> nodes[j].name in failed
    {
      var n := nodes[i];
      assert n in nodes;
      if HasDepIn(n, failed) {
        ghost var d :| d in n.deps && d in failed;
        DoomSpreads(nodes, seeds, n, d);
        failed := failed + {n.name};
      }
    }
  }

  lemma SeedsAreDoomed(nodes: seq<NodeSpec>, seeds: set<string>)
    ensures forall x :: x in seeds ==> Doomed(nodes, seeds, x)
  {
    forall x | x in seeds
      ensures Doomed(nodes, seeds, x)
    {
      var p := [x];
      assert IsWalk(EdgesOf(nodes), p) && p[0] in seeds && p[|p| - 1] == x;
    }
  }

  // Exactly the nodes reachable along dependency edges from a missing or failed node.
  method WorkflowFailedSet(nodes: seq<NodeSpec>, state: Snapshot, completed: set<string>) returns (failed: set<string>)
    ensures forall x :: x in failed <==> Doomed(nodes, Seeds(nodes, state, completed), x)
    ensures Seeds(nodes, state, completed) <= failed <= Names(nodes) && UpClosed(nodes, failed)
  {
    failed := set n | n in nodes && Broken(state, n, completed) :: n.name;
    ghost var seeds := Seeds(nodes, state, completed);
    SeedsAreDoomed(nodes, seeds);
    var size := -1;
    while |failed| != size
      invariant seeds <= failed <= Names(nodes) && size <= |failed|
      invariant forall x :: x in failed ==> Doomed(nodes, seeds, x)
      invariant |failed| == size ==> UpClosed(nodes, failed)
      decreases |Names(nodes)| - size
    {
      size := |failed|;
      ghost var before := failed;
      failed := SpreadPass(nodes, failed, seeds);
      SubsetSize(failed, Names(nodes));
      SubsetSize(before, Names(nodes));
      if failed != before {
        var x := ProperSubset(before, failed);
      }
    }
    forall x | Doomed(nodes, seeds, x)
      ensures x in failed
    {
      var p :| IsWalk(EdgesOf(nodes), p) && p[0] in seeds && p[|p| - 1] == x;
      WalkStaysIn(nodes, failed, p);
    }
  }

  // Evidence outlives failures around it: nothing completed is ever counted as failed.
  lemma FailedMissesCompleted(nodes: seq<NodeSpec>, state: Snapshot, completed: set<string>, failed: set<string>)
    requires DownClosed(nodes, completed)
    requires forall x :: x in failed <==> Doomed(nodes, Seeds(nodes, state, completed), x)
    ensures failed !! completed
  {
    forall x | x in failed
      ensures x !in completed
    {
      var p :| IsWalk(EdgesOf(nodes), p) && p[0] in Seeds(nodes, state, completed) && p[|p| - 1] == x;
      WalkAvoids(nodes, completed, p);
    }
  }

  lemma {:induction false} WalkAvoids(nodes: seq<NodeSpec>, completed: set<string>, p: seq<string>)
    requires DownClosed(nodes, completed) && IsWalk(EdgesOf(nodes), p) && p[0] !in completed
    ensures p[|p| - 1] !in completed
    decreases |p|
  {
    if |p| > 1 {
      var q := p[..|p| - 1];
      assert (q[|q| - 1], p[|p| - 1]) in EdgesOf(nodes);
      WalkAvoids(nodes, completed, q);
      EdgeTarget(nodes, (q[|q| - 1], p[|p| - 1]));
    }
  }

  // ---- Deciding the tick ----

  const MAX_INT64 := 0x7fff_ffff_ffff_ffff

  datatype Mutation = Mutation(node: NodeSpec, delete: bool)

  datatype Plan =
    | Fault
    | ScheduleTimer(node: NodeSpec, atMs: int)
    | Mutate(ms: seq<Mutation>)
    | Settle(result: TickResult)

  // Everything a decision depends on. evaluate is the outcome of a node's condition: none on error.
  datatype View = View(
    nodes: seq<NodeSpec>, keepForRetry: bool, state: Snapshot, completed: set<string>,
    completedAt: map<string, int>, evaluate: NodeSpec -> Option<bool>)
  {
    function Effective(n: NodeSpec): Option<JobState> {
      EffectiveState(state, n, completed)
    }

    function FindNode(name: string): NodeSpec {
      FindNodeIn(nodes, name)
    }

    // Dependencies judged by the effective state of the node they name.
    predicate DependenciesComplete(n: NodeSpec) {
      forall d :: d in n.deps ==> Effective(FindNode(d)) == Some(Completed)
    }

    predicate ReadyPending(n: NodeSpec) {
      Effective(n) == Some(Pending) && DependenciesComplete(n)
    }

    predicate WantsDelete(failed: set<string>, n: NodeSpec) {
      n.name in failed && !keepForRetry && Effective(n).Some? && Deletable(Effective(n).value)
    }

    predicate WantsPromote(failed: set<string>, n: NodeSpec) {
      && n.name !in failed && ReadyPending(n)
      && (Ordinary(n) || (NormalizedKind(n) == Condition && evaluate(n).Some? && evaluate(n).value))
    }

    predicate Wanted(failed: set<string>, m: Mutation) {
      m.node in nodes && if m.delete then WantsDelete(failed, m.node) else WantsPromote(failed, m.node)
    }

    predicate WantsSchedule(failed: set<string>, n: NodeSpec) {
      n.name !in failed && NormalizedKind(n) == Timer && n.delayMs > 0 && ReadyPending(n)
    }

    predicate ConditionKnown(failed: set<string>, n: NodeSpec) {
      n.name !in failed && NormalizedKind(n) == Condition && ReadyPending(n) ==> evaluate(n).Some?
    }

    // A pass stops here: at a timer to schedule, or at a condition that cannot be evaluated.
    predicate Stops(failed: set<string>, n: NodeSpec) {
      WantsSchedule(failed, n) || !ConditionKnown(failed, n)
    }

    ghost predicate FirstStop(failed: set<string>, i: nat) {
      i < |nodes| && Stops(failed, nodes[i]) && forall j :: 0 <= j < i ==> !Stops(failed, nodes[j])
    }

    // The delay after the latest completion among the dependencies; times before the epoch count as the epoch.
    ghost predicate DueAt(n: NodeSpec, at: int) {
      && n.deps != [] && n.delayMs <= at <= MAX_INT64
      && (forall d :: d in n.deps ==> d in completedAt && completedAt[d] + n.delayMs <= at)
      && (at == n.delayMs || exists d :: d in n.deps && completedAt[d] + n.delayMs == at)
    }

    // The pass stops at a timer, and this is when it is due.
    ghost predicate Schedules(failed: set<string>, n: NodeSpec, at: int) {
      (exists i: nat :: FirstStop(failed, i) && nodes[i] == n) && WantsSchedule(failed, n) && DueAt(n, at)
    }

    // The pass stops at a node that has no answer: a condition that cannot be evaluated, a timer whose
    // dependencies have no completion time, or one due beyond the range of times.
    ghost predicate Faults(failed: set<string>) {
      exists i: nat :: FirstStop(failed, i) && (!ConditionKnown(failed, nodes[i]) || forall at :: !DueAt(nodes[i], at))
    }

    // What the snapshot must satisfy when the decision is made.
    ghost predicate Settled() {
      && UniqueNames(nodes) && DepsOk(nodes) && (forall n :: n in nodes ==> Ordinary(n) || Virtual(n))
      && EvidenceClosed(nodes, state, completed)
    }

    ghost predicate FailedExactly(failed: set<string>) {
      forall x :: x in failed <==> Doomed(nodes, Seeds(nodes, state, completed), x)
    }

    // Neither failed nor completed.
    ghost function Open(failed: set<string>): set<string> {
      set n | n in nodes && n.name !in failed && n.name !in completed :: n.name
    }

    // Ready nodes that wait for something other than the coordinator: work in progress, a signal
    // or an absolute timer still to come, a condition that does not hold yet.
    predicate Outside(n: NodeSpec) {
      n.name in state && n.name !in completed && DependenciesComplete(n) &&
      var s := state[n.name].state;
      || Active(s)
      || (s == Pending && (NormalizedKind(n) == Signal || (NormalizedKind(n) == Timer && n.delayMs <= 0)))
      || (s == Pending && NormalizedKind(n) == Condition && evaluate(n).Some? && !evaluate(n).value)
    }
  }

  function FindNodeIn(nodes: seq<NodeSpec>, name: string): NodeSpec {
    if nodes == [] then NodeSpec(name, "", [], Unspecified, "", 0, 0, "", "")
    else if nodes[0].name == name then nodes[0]
    else FindNodeIn(nodes[1..], name)
  }

  lemma {:induction false} FindNodeFinds(nodes: seq<NodeSpec>, name: string)
    ensures FindNodeIn(nodes, name).name == name
    ensures name in Names(nodes) ==> FindNodeIn(nodes, name) in nodes
  {
    if nodes != [] && nodes[0].name != name {
      FindNodeFinds(nodes[1..], name);
      if name in Names(nodes) {
        var n :| n in nodes && n.name == name;
        assert n in nodes[1..];
      }
    }
  }

  // Judging dependencies by effective state is judging them by the evidence.
  lemma DependenciesAreEvidence(v: View, n: NodeSpec)
    requires v.Settled() && n in v.nodes
    ensures v.DependenciesComplete(n) <==> DependenciesCompleted(n, v.completed)
  {
    assert NodeDepsOk(Names(v.nodes), n);
    forall d | d in n.deps
      ensures v.Effective(v.FindNode(d)) == Some(Completed) <==> d in v.completed
    {
      FindNodeFinds(v.nodes, d);
    }
  }

  method CompletionAnchor(n: NodeSpec, completedAt: map<string, int>) returns (r: Option<int>)
    ensures r.None? <==> n.deps == [] || exists d :: d in n.deps && d !in completedAt
    ensures r.Some? ==> r.value >= 0 && forall d :: d in n.deps ==> completedAt[d] <= r.value
    ensures r.Some? ==> r.value == 0 || exists d :: d in n.deps && completedAt[d] == r.value
  {
    if |n.deps| == 0 {
      return None;
    }
    var anchor := 0;
    for i := 0 to |n.deps|
      invariant forall j :: 0 <= j < i ==> n.deps[j] in completedAt
      invariant anchor >= 0 && forall j :: 0 <= j < i ==> completedAt[n.deps[j]] <= anchor
      invariant anchor == 0 || exists j :: 0 <= j < i && completedAt[n.deps[j]] == anchor
    {
      var d := n.deps[i];
      if d !in completedAt {
        assert d in n.deps;
        return None;
      }
      if completedAt[d] > anchor {
        anchor := completedAt[d];
      }
    }
    return Some(anchor);
  }

  // The due time of a delayed timer, where it has one.
  method DueTime(v: View, n: NodeSpec) returns (at: Option<int>)
    ensures at.Some? ==> v.DueAt(n, at.value)
    ensures at.None? ==> forall t :: !v.DueAt(n, t)
  {
    var anchor := CompletionAnchor(n, v.completedAt);
    if anchor.None? || n.delayMs > MAX_INT64 - anchor.value {
      return None;
    }
    return Some(anchor.value + n.delayMs);
  }

  // The mutations a pass over the nodes collects, unless it stops at a timer or an error.
  method CollectMutations(v: View, failed: set<string>) returns (plan: Plan)
    ensures plan.Mutate? || plan.ScheduleTimer? || plan.Fault?
    ensures plan.Mutate? ==> forall m :: m in plan.ms <==> v.Wanted(failed, m)
    ensures plan.Mutate? ==> forall n :: n in v.nodes ==> !v.Stops(failed, n)
    ensures plan.ScheduleTimer? ==> v.Schedules(failed, plan.node, plan.atMs)
    ensures plan.Fault? ==> v.Faults(failed)
  {
    var ms: seq<Mutation> := [];
    for i := 0 to |v.nodes|
      invariant forall m :: m in ms ==> v.Wanted(failed, m)
      invariant forall j :: 0 <= j < i ==>
        && (v.WantsDelete(failed, v.nodes[j]) ==> Mutation(v.nodes[j], true) in ms)
        && (v.WantsPromote(failed, v.nodes[j]) ==> Mutation(v.nodes[j], false) in ms)
        && !v.Stops(failed, v.nodes[j])
    {
      var n := v.nodes[i];
      assert n in v.nodes;
      var job := v.Effective(n);
      if n.name in failed {
        if !v.keepForRetry && job.Some? && Deletable(job.value) {
          ms := ms + [Mutation(n, true)];
        }
        continue;
      }
      if Ordinary(n) && job == Some(Pending) && v.DependenciesComplete(n) {
        ms := ms + [Mutation(n, false)];
      }
      if NormalizedKind(n) == Condition && job == Some(Pending) && v.DependenciesComplete(n) {
        var ready := v.evaluate(n);
        if ready.None? {
          assert v.FirstStop(failed, i);
          return Fault;
        }
        if ready.value {
          ms := ms + [Mutation(n, false)];
        }
      }
      if NormalizedKind(n) == Timer && n.delayMs > 0 && job == Some(Pending) && v.DependenciesComplete(n) {
        assert v.FirstStop(failed, i);
        var at := DueTime(v, n);
        if at.None? {
          return Fault;
        }
        return ScheduleTimer(n, at.value);
      }
    }
    return Mutate(ms);
  }

  lemma OpenNodeState(v: View, failed: set<string>, n: NodeSpec)
    requires v.Settled() && Seeds(v.nodes, v.state, v.completed) <= failed
    requires n in v.nodes && n.name !in failed && n.name !in v.completed
    ensures v.Effective(n).Some? && !IsFailed(v.Effective(n).value) && v.Effective(n) != Some(Completed)
  {
  }

  // Without a cycle, open work always has a front: an open node all of whose dependencies are done.
  lemma Front(v: View, failed: set<string>) returns (n: NodeSpec)
    requires v.Settled() && !HasCycle(EdgesOf(v.nodes))
    requires Seeds(v.nodes, v.state, v.completed) <= failed && UpClosed(v.nodes, failed)
    requires v.Open(failed) != {}
    ensures n in v.nodes && n.name in v.Open(failed) && v.DependenciesComplete(n)
  {
    var x := MinimalMember(EdgesOf(v.nodes), v.Open(failed));
    n :| n in v.nodes && n.name == x;
    assert NodeDepsOk(Names(v.nodes), n);
    forall d | d in n.deps
      ensures d in v.completed
    {
      assert (d, n.name) in EdgesOf(v.nodes);
      assert d !in v.Open(failed);
      assert HasDepIn(n, failed) ==> n.name in failed;
    }
    DependenciesAreEvidence(v, n);
  }

  // If nothing was asked for and something is open, the front node waits for the outside world.
  lemma NeverStuck(v: View, failed: set<string>)
    requires v.Settled() && !HasCycle(EdgesOf(v.nodes))
    requires Seeds(v.nodes, v.state, v.completed) <= failed && UpClosed(v.nodes, failed)
    requires forall n :: n in v.nodes ==>
               !v.WantsPromote(failed, n) && !v.WantsSchedule(failed, n) && v.ConditionKnown(failed, n)
    requires v.Open(failed) != {}
    ensures exists n :: n in v.nodes && n.name !in failed && v.Outside(n)
  {
    var n := Front(v, failed);
    var m :| m in v.nodes && m.name == n.name && m.name !in failed && m.name !in v.completed;
    OpenNodeState(v, failed, n);
    DependenciesAreEvidence(v, n);
    assert !Evident(v.state, n, v.completed);
    var s := v.state[n.name].state;
    assert v.Effective(n) == Some(s);
    if s == Pending {
      assert !v.WantsPromote(failed, n) && !v.WantsSchedule(failed, n) && v.ConditionKnown(failed, n);
      assert !Ordinary(n);
    } else {
      assert Active(s);
    }
    assert v.Outside(n);
  }

  lemma SomeNodeFailed(nodes: seq<NodeSpec>, failed: set<string>)
    requires failed <= Names(nodes)
    ensures failed != {} <==> exists j :: 0 <= j < |nodes| && nodes[j].name in failed
  {
  }

  // The verdict when there is nothing to do.
  method Verdict(v: View, failed: set<string>) returns (result: TickResult)
    requires v.Settled() && Seeds(v.nodes, v.state, v.completed) <= failed <= Names(v.nodes)
    ensures result == Succeeded <==> failed == {} && v.Open(failed) == {}
    ensures result == Failed <==> failed != {} && v.Open(failed) == {}
  {
    var bad := false;
    for i := 0 to |v.nodes|
      invariant forall j :: 0 <= j < i ==> v.nodes[j].name in failed || v.nodes[j].name in v.completed
      invariant bad <==> exists j :: 0 <= j < i && v.nodes[j].name in failed
    {
      var n := v.nodes[i];
      assert n in v.nodes;
      if n.name in failed {
        bad := true;
        continue;
      }
      if n.name !in v.completed {
        OpenNodeState(v, failed, n);
        assert n.name in v.Open(failed);
      }
      var job := v.Effective(n);
      if job.None? || IsFailed(job.value) {
        bad := true;
        continue;
      }
      if job.value != Completed {
        return Waiting;
      }
    }
    assert v.Open(failed) == {};
    SomeNodeFailed(v.nodes, failed);
    if bad {
      return Failed;
    }
    return Succeeded;
  }

  // Nothing failed or completed is left out of a verdict.
  lemma VerdictMeans(v: View, failed: set<string>)
    requires v.Open(failed) == {}
    ensures Names(v.nodes) <= failed + v.completed
  {
    forall x | x in Names(v.nodes)
      ensures x in failed + v.completed
    {
      var n :| n in v.nodes && n.name == x;
      assert x !in v.Open(failed);
    }
  }

  // The tick's decision.
  method PlanTick(v: View) returns (plan: Plan, ghost failed: set<string>)
    requires v.Settled()
    ensures v.FailedExactly(failed)
    ensures plan.Mutate? ==> plan.ms != [] && forall m :: m in plan.ms <==> v.Wanted(failed, m)
    ensures plan.ScheduleTimer? ==> v.Schedules(failed, plan.node, plan.atMs)
    ensures plan.Fault? ==> v.Faults(failed)
    ensures plan.Mutate? || plan.Settle? ==> forall n :: n in v.nodes ==> !v.Stops(failed, n)
    ensures plan.Settle? ==> forall m :: !v.Wanted(failed, m)
    ensures plan == Settle(Succeeded) ==> failed == {} && Names(v.nodes) <= v.completed
    ensures plan == Settle(Failed) ==> failed != {} && Names(v.nodes) <= failed + v.completed
    ensures plan == Settle(Waiting) && !HasCycle(EdgesOf(v.nodes)) ==>
              exists n :: n in v.nodes && n.name !in failed && v.Outside(n)
    ensures plan == Settle(Waiting) && !HasCycle(EdgesOf(v.nodes)) && (forall n :: n in v.nodes ==> Ordinary(n)) ==>
              exists n :: n in v.nodes && n.name in v.state && Active(v.state[n.name].state)
  {
    var doomed := WorkflowFailedSet(v.nodes, v.state, v.completed);
    failed := doomed;
    plan := CollectMutations(v, doomed);
    if plan.Mutate? && plan.ms == [] {
      var result := Settlement(v, doomed);
      plan := Settle(result);
    }
  }

  method Settlement(v: View, failed: set<string>) returns (result: TickResult)
    requires v.Settled() && Seeds(v.nodes, v.state, v.completed) <= failed <= Names(v.nodes) && UpClosed(v.nodes, failed)
    requires forall m :: !v.Wanted(failed, m)
    requires forall n :: n in v.nodes ==> !v.WantsSchedule(failed, n) && v.ConditionKnown(failed, n)
    ensures result == Succeeded ==> failed == {} && Names(v.nodes) <= v.completed
    ensures result == Failed ==> failed != {} && Names(v.nodes) <= failed + v.completed
    ensures result == Waiting && !HasCycle(EdgesOf(v.nodes)) ==>
              exists n :: n in v.nodes && n.name !in failed && v.Outside(n)
  {
    forall n | n in v.nodes
      ensures !v.WantsPromote(failed, n)
    {
      assert !v.Wanted(failed, Mutation(n, false));
    }
    result := Verdict(v, failed);
    if result == Waiting {
      if !HasCycle(EdgesOf(v.nodes)) {
        NeverStuck(v, failed);
      }
    } else {
      VerdictMeans(v, failed);
    }
  }
}
