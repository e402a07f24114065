// Workflow graphs and their validation (go/headgateworkflow/evaluation.go, workflow.go).
module WorkflowGraph {
  import opened Common
  import opened Graph

  const MAX_NODES := 999
  const MAX_EDGES := 10_000
  const MAX_NAME := 128
  const MAX_JOB_ID := 255

  datatype Kind = Unspecified | Task | Signal | Timer | Child | Condition | Unknown

  datatype NodeSpec = NodeSpec(
    name: string, jobId: string, deps: seq<string>, kind: Kind, signal: string,
    wakeAtMs: int, delayMs: int, childWorkflowId: string, condition: string)

  datatype RetryPolicy = RetryPolicy(maxGenerations: nat, backoffMs: int)

  datatype CoordinatorArgs = CoordinatorArgs(
    workflowId: string, nodes: seq<NodeSpec>, failedSubgraphRetry: bool, retryPolicy: Option<RetryPolicy>)

  datatype GraphError =
    | EmptyId | NodeCount | BadRetryPolicy | InvalidTask | RepeatedName
    | TooManyEdges | MissingDependency | RepeatedDependency | SelfDependency | Cycle
    | MissingChild

  function NormalizedKind(n: NodeSpec): Kind {
    if n.kind == Unspecified then Task else n.kind
  }

  predicate ValidTimerSchedule(wakeAtMs: int, delayMs: int) {
    (wakeAtMs > 0 && delayMs == 0) || (wakeAtMs == 0 && delayMs > 0)
  }

  // compiles says which condition expressions the expression language accepts.
  predicate ValidNode(n: NodeSpec, compiles: string -> bool) {
    var k := NormalizedKind(n);
    && 0 < |n.name| <= MAX_NAME && 0 < |n.jobId| <= MAX_JOB_ID
    && (k == Signal <==> n.signal != "")
    && (if k == Timer then
          ValidTimerSchedule(n.wakeAtMs, n.delayMs) && (n.delayMs > 0 ==> n.deps != [])
        else n.wakeAtMs == 0 && n.delayMs == 0)
    && (k == Child <==> n.childWorkflowId != "")
    && (if k == Condition then 1 <= |n.condition| <= 1024 && compiles(n.condition) else n.condition == "")
    && k in {Task, Signal, Timer, Child, Condition}
  }

  ghost function Names(nodes: seq<NodeSpec>): set<string> {
    set n | n in nodes :: n.name
  }

  ghost predicate UniqueNames(nodes: seq<NodeSpec>) {
    forall i, j :: 0 <= i < j < |nodes| ==> nodes[i].name != nodes[j].name
  }

  ghost function EdgesOf(nodes: seq<NodeSpec>): Edges {
    set n, d | n in nodes && d in n.deps :: (d, n.name)
  }

  ghost predicate NodeDepsOk(names: set<string>, n: NodeSpec) {
    Distinct(n.deps) && forall d :: d in n.deps ==> d in names
  }

  ghost predicate DepsOk(nodes: seq<NodeSpec>) {
    forall n :: n in nodes ==> NodeDepsOk(Names(nodes), n)
  }

  function EdgeCount(nodes: seq<NodeSpec>): nat {
    if nodes == [] then 0 else EdgeCount(nodes[..|nodes| - 1]) + |nodes[|nodes| - 1].deps|
  }

  predicate HeaderOk(w: CoordinatorArgs) {
    && w.workflowId != "" && 0 < |w.nodes| <= MAX_NODES
    && (w.retryPolicy.Some? ==>
          w.retryPolicy.value.maxGenerations >= 2 && w.retryPolicy.value.backoffMs > 0 && w.failedSubgraphRetry)
  }

  // Everything the coordinator demands of its graph apart from the absence of cycles.
  ghost predicate WellFormed(w: CoordinatorArgs, compiles: string -> bool) {
    && HeaderOk(w)
    && (forall n :: n in w.nodes ==> ValidNode(n, compiles))
    && UniqueNames(w.nodes) && EdgeCount(w.nodes) <= MAX_EDGES && DepsOk(w.nodes)
  }

  ghost predicate ValidGraph(w: CoordinatorArgs, compiles: string -> bool) {
    WellFormed(w, compiles) && !HasCycle(EdgesOf(w.nodes))
  }

  lemma {:induction false} UniqueNamesCount(nodes: seq<NodeSpec>)
    requires UniqueNames(nodes)
    ensures |Names(nodes)| == |nodes|
  {
    if nodes != [] {
      var init := nodes[..|nodes| - 1];
      UniqueNamesCount(init);
      var last := nodes[|nodes| - 1];
      assert nodes == init + [last];
      assert Names(nodes) == Names(init) + {last.name};
      assert last.name !in Names(init);
    }
  }

  // ---- Building the degree and child tables, edge by edge ----

  type EdgeList = seq<(string, string)>

  ghost function CountInto(es: EdgeList, n: string): int {
    if es == [] then 0
    else CountInto(es[..|es| - 1], n) + if es[|es| - 1].1 == n then 1 else 0
  }

  ghost function Targets(es: EdgeList, d: string): seq<string> {
    if es == [] then []
    else if es[|es| - 1].0 == d then Targets(es[..|es| - 1], d) + [es[|es| - 1].1]
    else Targets(es[..|es| - 1], d)
  }

  ghost function Degrees(names: set<string>, es: EdgeList): map<string, int> {
    map n | n in names :: CountInto(es, n)
  }

  ghost function Children(names: set<string>, es: EdgeList): map<string, seq<string>> {
    map d | d in names :: Targets(es, d)
  }

  ghost predicate Tables(names: set<string>, degree: map<string, int>, outgoing: map<string, seq<string>>, es: EdgeList) {
    degree == Degrees(names, es) && outgoing == Children(names, es)
  }

  ghost function DepEdges(name: string, deps: seq<string>): EdgeList {
    if deps == [] then [] else DepEdges(name, deps[..|deps| - 1]) + [(deps[|deps| - 1], name)]
  }

  ghost function EdgeListOf(nodes: seq<NodeSpec>): EdgeList {
    if nodes == [] then []
    else EdgeListOf(nodes[..|nodes| - 1]) + DepEdges(nodes[|nodes| - 1].name, nodes[|nodes| - 1].deps)
  }

  lemma RecordEdge(names: set<string>, degree: map<string, int>, outgoing: map<string, seq<string>>, es: EdgeList, d: string, n: string)
    requires Tables(names, degree, outgoing, es) && d in names && n in names
    ensures Tables(names, degree[n := degree[n] + 1], outgoing[d := outgoing[d] + [n]], es + [(d, n)])
  {
  }

  lemma DepEdgesSnoc(es: EdgeList, name: string, deps: seq<string>, d: string)
    ensures es + DepEdges(name, deps + [d]) == (es + DepEdges(name, deps)) + [(d, name)]
  {
  }

  lemma DepStep(names: set<string>, degree: map<string, int>, outgoing: map<string, seq<string>>,
                es: EdgeList, name: string, deps: seq<string>, d: string)
    requires Tables(names, degree, outgoing, es + DepEdges(name, deps)) && d in names && name in names
    ensures Tables(names, degree[name := degree[name] + 1], outgoing[d := outgoing[d] + [name]],
                   es + DepEdges(name, deps + [d]))
  {
    DepEdgesSnoc(es, name, deps, d);
    RecordEdge(names, degree, outgoing, es + DepEdges(name, deps), d, name);
  }

  lemma AddToDegree(names: set<string>, degree: map<string, int>, edges: Edges, d: string, n: string)
    requires DegreesOf(names, degree, edges) && n in names && (d, n) !in edges
    ensures DegreesOf(names, degree[n := degree[n] + 1], edges + {(d, n)})
  {
    var edges' := edges + {(d, n)};
    forall m | m in names
      ensures |Waiting(edges', {}, m)| == |Waiting(edges, {}, m)| + if m == n then 1 else 0
    {
      if m == n {
        assert Waiting(edges', {}, m) == Waiting(edges, {}, m) + {(d, n)};
      } else {
        assert Waiting(edges', {}, m) == Waiting(edges, {}, m);
      }
    }
  }

  lemma AddToChildren(names: set<string>, outgoing: map<string, seq<string>>, edges: Edges, d: string, n: string)
    requires ChildrenOf(names, outgoing, edges) && d in names && (d, n) !in edges
    ensures ChildrenOf(names, outgoing[d := outgoing[d] + [n]], edges + {(d, n)})
  {
  }

  // Tables built from a duplicate-free edge list are what the visiting loop needs.
  lemma {:induction false} TablesRepresent(names: set<string>, es: EdgeList)
    requires Distinct(es) && Endpoints(names, Elems(es))
    ensures Represents(names, Degrees(names, es), Children(names, es), Elems(es))
  {
    if es == [] {
      assert forall n :: Waiting(Elems(es), {}, n) == {};
    } else {
      var init, e := es[..|es| - 1], es[|es| - 1];
      assert es == init + [e];
      assert Elems(es) == Elems(init) + {e} && e !in Elems(init) && e in Elems(es);
      TablesRepresent(names, init);
      RecordEdge(names, Degrees(names, init), Children(names, init), init, e.0, e.1);
      AddToDegree(names, Degrees(names, init), Elems(init), e.0, e.1);
      AddToChildren(names, Children(names, init), Elems(init), e.0, e.1);
    }
  }

  lemma DistinctAppend<T>(a: seq<T>, b: seq<T>)
    requires Distinct(a) && Distinct(b) && forall x :: x in a ==> x !in b
    ensures Distinct(a + b)
  {
    forall i, j | 0 <= i < j < |a + b|
      ensures (a + b)[i] != (a + b)[j]
    {
      if i < |a| <= j {
        assert a[i] in a && b[j - |a|] in b;
      }
    }
  }

  lemma {:induction false} DepEdgesExact(name: string, deps: seq<string>)
    requires Distinct(deps)
    ensures Distinct(DepEdges(name, deps))
    ensures forall e :: e in DepEdges(name, deps) <==> e.1 == name && e.0 in deps
  {
    if deps != [] {
      var init, d := deps[..|deps| - 1], deps[|deps| - 1];
      assert deps == init + [d] && d !in init;
      DepEdgesExact(name, init);
      DistinctAppend(DepEdges(name, init), [(d, name)]);
    }
  }

  lemma EdgeTarget(nodes: seq<NodeSpec>, e: (string, string))
    requires e in EdgesOf(nodes)
    ensures exists j :: 0 <= j < |nodes| && nodes[j].name == e.1 && e.0 in nodes[j].deps
  {
  }

  lemma EdgesOfSnoc(nodes: seq<NodeSpec>, n: NodeSpec)
    ensures EdgesOf(nodes + [n]) == EdgesOf(nodes) + set d | d in n.deps :: (d, n.name)
  {
  }

  lemma {:induction false} EdgeListExact(nodes: seq<NodeSpec>)
    requires UniqueNames(nodes) && forall n :: n in nodes ==> Distinct(n.deps)
    ensures Distinct(EdgeListOf(nodes)) && Elems(EdgeListOf(nodes)) == EdgesOf(nodes)
  {
    if nodes != [] {
      var init, last := nodes[..|nodes| - 1], nodes[|nodes| - 1];
      assert nodes == init + [last] && last in nodes;
      assert forall n :: n in init ==> n in nodes;
      EdgeListExact(init);
      DepEdgesExact(last.name, last.deps);
      forall e | e in EdgeListOf(init)
        ensures e !in DepEdges(last.name, last.deps)
      {
        assert e in Elems(EdgeListOf(init));
        EdgeTarget(init, e);
      }
      DistinctAppend(EdgeListOf(init), DepEdges(last.name, last.deps));
      EdgesOfSnoc(init, last);
      assert Elems(EdgeListOf(nodes)) == Elems(EdgeListOf(init)) + Elems(DepEdges(last.name, last.deps));
    }
  }

  lemma SeenSnoc(deps: seq<string>, k: nat, seen: set<string>)
    requires k < |deps| && seen == Elems(deps[..k]) && Distinct(deps[..k])
    ensures Elems(deps[..k + 1]) == seen + {deps[k]}
    ensures deps[k] !in seen ==> Distinct(deps[..k + 1])
    ensures deps[k] in seen ==> !Distinct(deps)
  {
  }

  // ---- validateCoordinator, validateGraph ----

  // The first i nodes are in order, and these are their names and edges.
  ghost predicate Collected(nodes: seq<NodeSpec>, compiles: string -> bool, i: nat, names: set<string>, edges: nat)
    requires i <= |nodes|
  {
    && names == Names(nodes[..i]) && edges == EdgeCount(nodes[..i]) && UniqueNames(nodes[..i])
    && forall j :: 0 <= j < i ==> ValidNode(nodes[j], compiles)
  }

  lemma CollectedSnoc(nodes: seq<NodeSpec>, compiles: string -> bool, i: nat, names: set<string>, edges: nat)
    requires i < |nodes| && Collected(nodes, compiles, i, names, edges)
    ensures nodes[i].name in names ==> !UniqueNames(nodes)
    ensures nodes[i].name !in names && ValidNode(nodes[i], compiles) ==>
              Collected(nodes, compiles, i + 1, names + {nodes[i].name}, edges + |nodes[i].deps|)
  {
    TakeSnoc(nodes, i);
    assert Names(nodes[..i + 1]) == Names(nodes[..i]) + {nodes[i].name};
    if nodes[i].name in names {
      var j :| 0 <= j < i && nodes[j].name == nodes[i].name;
    }
  }

  method CollectNames(nodes: seq<NodeSpec>, compiles: string -> bool)
    returns (names: set<string>, edges: nat, err: Option<GraphError>)
    ensures err.None? <==> (forall n :: n in nodes ==> ValidNode(n, compiles)) && UniqueNames(nodes)
    ensures err.None? ==> names == Names(nodes) && edges == EdgeCount(nodes)
    ensures err.Some? ==> err.value in {InvalidTask, RepeatedName}
  {
    names, edges := {}, 0;
    for i := 0 to |nodes|
      invariant Collected(nodes, compiles, i, names, edges)
    {
      var n := nodes[i];
      CollectedSnoc(nodes, compiles, i, names, edges);
      if !ValidNode(n, compiles) {
        assert n in nodes;
        return names, edges, Some(InvalidTask);
      }
      if n.name in names {
        return names, edges, Some(RepeatedName);
      }
      names, edges := names + {n.name}, edges + |n.deps|;
    }
    TakeAll(nodes);
    err := None;
  }

  method AddDependencies(names: set<string>, degree0: map<string, int>, outgoing0: map<string, seq<string>>,
                         name: string, deps: seq<string>, ghost es: EdgeList)
    returns (degree: map<string, int>, outgoing: map<string, seq<string>>, err: Option<GraphError>)
    requires Tables(names, degree0, outgoing0, es) && name in names
    ensures err.None? <==> Distinct(deps) && forall d :: d in deps ==> d in names
    ensures err.None? ==> Tables(names, degree, outgoing, es + DepEdges(name, deps))
    ensures err.Some? ==> err.value in {MissingDependency, RepeatedDependency}
  {
    degree, outgoing := degree0, outgoing0;
    var seen: set<string> := {};
    assert es + DepEdges(name, []) == es;
    for k := 0 to |deps|
      invariant seen == Elems(deps[..k]) && Distinct(deps[..k])
      invariant seen <= names
      invariant Tables(names, degree, outgoing, es + DepEdges(name, deps[..k]))
    {
      var d := deps[k];
      if d !in names {
        assert d in deps;
        return degree, outgoing, Some(MissingDependency);
      }
      SeenSnoc(deps, k, seen);
      if d in seen {
        return degree, outgoing, Some(RepeatedDependency);
      }
      seen := seen + {d};
      TakeSnoc(deps, k);
      DepStep(names, degree, outgoing, es, name, deps[..k], d);
      degree, outgoing := degree[name := degree[name] + 1], outgoing[d := outgoing[d] + [name]];
    }
    TakeAll(deps);
    err := None;
  }

  method AddAllDependencies(nodes: seq<NodeSpec>, names: set<string>)
    returns (degree: map<string, int>, outgoing: map<string, seq<string>>, err: Option<GraphError>)
    requires names == Names(nodes)
    ensures err.None? <==> DepsOk(nodes)
    ensures err.None? ==> Tables(names, degree, outgoing, EdgeListOf(nodes))
    ensures err.Some? ==> err.value in {MissingDependency, RepeatedDependency}
  {
    degree, outgoing, err := map n | n in names :: 0, map n | n in names :: [], None;
    for i := 0 to |nodes|
      invariant forall j :: 0 <= j < i ==> NodeDepsOk(names, nodes[j])
      invariant Tables(names, degree, outgoing, EdgeListOf(nodes[..i]))
    {
      var n := nodes[i];
      assert n in nodes;
      TakeSnoc(nodes, i);
      degree, outgoing, err := AddDependencies(names, degree, outgoing, n.name, n.deps, EdgeListOf(nodes[..i]));
      if err.Some? {
        return;
      }
    }
    TakeAll(nodes);
    err := None;
  }

  lemma WholeGraph(nodes: seq<NodeSpec>)
    requires UniqueNames(nodes) && DepsOk(nodes)
    ensures |Names(nodes)| == |nodes|
    ensures var es := EdgeListOf(nodes);
            Represents(Names(nodes), Degrees(Names(nodes), es), Children(Names(nodes), es), EdgesOf(nodes))
  {
    UniqueNamesCount(nodes);
    EdgeListExact(nodes);
    TablesRepresent(Names(nodes), EdgeListOf(nodes));
  }

  // Accepts exactly the well-formed graphs without a cycle; once everything else passes, the only
  // possible complaint is a cycle that is really there.
  method ValidateCoordinator(w: CoordinatorArgs, compiles: string -> bool) returns (err: Option<GraphError>)
    ensures err.None? <==> ValidGraph(w, compiles)
    ensures err == Some(Cycle) <==> WellFormed(w, compiles) && HasCycle(EdgesOf(w.nodes))
  {
    if w.workflowId == "" {
      return Some(EmptyId);
    }
    if |w.nodes| == 0 || |w.nodes| > MAX_NODES {
      return Some(NodeCount);
    }
    if w.retryPolicy.Some? && (w.retryPolicy.value.maxGenerations < 2
                               || w.retryPolicy.value.backoffMs <= 0 || !w.failedSubgraphRetry) {
      return Some(BadRetryPolicy);
    }
    err := ValidateNodes(w, compiles);
  }

  method ValidateNodes(w: CoordinatorArgs, compiles: string -> bool) returns (err: Option<GraphError>)
    requires HeaderOk(w)
    ensures err.None? <==> ValidGraph(w, compiles)
    ensures err == Some(Cycle) <==> WellFormed(w, compiles) && HasCycle(EdgesOf(w.nodes))
  {
    var names, edges, bad := CollectNames(w.nodes, compiles);
    if bad.Some? {
      return bad;
    }
    if edges > MAX_EDGES {
      return Some(TooManyEdges);
    }
    var degree, outgoing, missing := AddAllDependencies(w.nodes, names);
    if missing.Some? {
      return missing;
    }
    WholeGraph(w.nodes);
    var visited := CountVisits(names, degree, outgoing, EdgesOf(w.nodes));
    if visited != |w.nodes| {
      return Some(Cycle);
    }
    return None;
  }

  // ---- validateGraftNodes: dependencies outside the graft are left to the coordinator ----

  // The part of a graft that lies inside it.
  ghost function LocalDeps(names: set<string>, deps: seq<string>): seq<string> {
    if deps == [] then []
    else if deps[|deps| - 1] in names then LocalDeps(names, deps[..|deps| - 1]) + [deps[|deps| - 1]]
    else LocalDeps(names, deps[..|deps| - 1])
  }

  ghost function LocalNodes(names: set<string>, nodes: seq<NodeSpec>): (r: seq<NodeSpec>)
    ensures |r| == |nodes|
    ensures forall i :: 0 <= i < |nodes| ==> r[i] == nodes[i].(deps := LocalDeps(names, nodes[i].deps))
  {
    seq(|nodes|, i requires 0 <= i < |nodes| => nodes[i].(deps := LocalDeps(names, nodes[i].deps)))
  }

  ghost predicate GraftNodeOk(n: NodeSpec) {
    Distinct(n.deps) && n.name !in n.deps
  }

  ghost predicate GraftDepsOk(nodes: seq<NodeSpec>) {
    forall n :: n in nodes ==> GraftNodeOk(n)
  }

  // The cycles a graft can have by itself.
  ghost function LocalEdges(nodes: seq<NodeSpec>): Edges {
    set e | e in EdgesOf(nodes) && e.0 in Names(nodes)
  }

  lemma {:induction false} LocalDepsExact(names: set<string>, deps: seq<string>)
    ensures forall d :: d in LocalDeps(names, deps) <==> d in deps && d in names
    ensures Distinct(deps) ==> Distinct(LocalDeps(names, deps))
  {
    if deps != [] {
      var init := deps[..|deps| - 1];
      assert deps == init + [deps[|deps| - 1]];
      LocalDepsExact(names, init);
    }
  }

  lemma LocalNodesExact(nodes: seq<NodeSpec>)
    requires UniqueNames(nodes) && GraftDepsOk(nodes)
    ensures var local := LocalNodes(Names(nodes), nodes);
            && UniqueNames(local) && (forall n :: n in local ==> Distinct(n.deps))
            && EdgesOf(local) == LocalEdges(nodes)
  {
    var local := LocalNodes(Names(nodes), nodes);
    forall n | n in local
      ensures Distinct(n.deps)
    {
      var i :| 0 <= i < |nodes| && local[i] == n;
      assert GraftNodeOk(nodes[i]);
      LocalDepsExact(Names(nodes), nodes[i].deps);
    }
    forall e
      ensures e in EdgesOf(local) <==> e in LocalEdges(nodes)
    {
      if e in EdgesOf(local) {
        var n, d :| n in local && d in n.deps && e == (d, n.name);
        var i :| 0 <= i < |nodes| && local[i] == n;
        LocalDepsExact(Names(nodes), nodes[i].deps);
        assert nodes[i] in nodes;
      }
      if e in LocalEdges(nodes) {
        var n, d :| n in nodes && d in n.deps && e == (d, n.name);
        var i :| 0 <= i < |nodes| && nodes[i] == n;
        LocalDepsExact(Names(nodes), n.deps);
        assert local[i] in local;
      }
    }
  }

  lemma LocalNodesTake(names: set<string>, nodes: seq<NodeSpec>, i: nat)
    requires i < |nodes|
    ensures LocalNodes(names, nodes[..i + 1]) == LocalNodes(names, nodes[..i]) + [nodes[i].(deps := LocalDeps(names, nodes[i].deps))]
    ensures LocalNodes(names, nodes[..i + 1])[..i] == LocalNodes(names, nodes[..i])
  {
  }

  lemma LocalDepsSnoc(names: set<string>, deps: seq<string>, d: string)
    ensures LocalDeps(names, deps + [d]) == if d in names then LocalDeps(names, deps) + [d] else LocalDeps(names, deps)
  {
  }

  method AddLocalDependencies(names: set<string>, degree0: map<string, int>, outgoing0: map<string, seq<string>>,
                              name: string, deps: seq<string>, ghost es: EdgeList)
    returns (degree: map<string, int>, outgoing: map<string, seq<string>>, err: Option<GraphError>)
    requires Tables(names, degree0, outgoing0, es) && name in names
    ensures err.None? <==> Distinct(deps) && name !in deps
    ensures err.None? ==> Tables(names, degree, outgoing, es + DepEdges(name, LocalDeps(names, deps)))
    ensures err.Some? ==> err.value in {SelfDependency, RepeatedDependency}
  {
    degree, outgoing := degree0, outgoing0;
    var seen: set<string> := {};
    ghost var local: seq<string> := [];
    assert es + DepEdges(name, local) == es;
    for k := 0 to |deps|
      invariant seen == Elems(deps[..k]) && Distinct(deps[..k]) && name !in seen
      invariant local == LocalDeps(names, deps[..k])
      invariant Tables(names, degree, outgoing, es + DepEdges(name, local))
    {
      var d := deps[k];
      SeenSnoc(deps, k, seen);
      if d in seen {
        return degree, outgoing, Some(RepeatedDependency);
      }
      seen := seen + {d};
      if d == name {
        assert name in deps;
        return degree, outgoing, Some(SelfDependency);
      }
      TakeSnoc(deps, k);
      LocalDepsSnoc(names, deps[..k], d);
      if d in names {
        DepStep(names, degree, outgoing, es, name, local, d);
        local := local + [d];
        degree, outgoing := degree[name := degree[name] + 1], outgoing[d := outgoing[d] + [name]];
      }
    }
    TakeAll(deps);
    err := None;
  }

  method AddAllLocalDependencies(nodes: seq<NodeSpec>, names: set<string>)
    returns (degree: map<string, int>, outgoing: map<string, seq<string>>, edges: nat, err: Option<GraphError>)
    requires names == Names(nodes)
    ensures err.None? <==> GraftDepsOk(nodes)
    ensures err.None? ==> edges == EdgeCount(nodes) && Tables(names, degree, outgoing, EdgeListOf(LocalNodes(names, nodes)))
    ensures err.Some? ==> err.value in {SelfDependency, RepeatedDependency}
  {
    degree, outgoing, edges, err := map n | n in names :: 0, map n | n in names :: [], 0, None;
    for i := 0 to |nodes|
      invariant forall j :: 0 <= j < i ==> GraftNodeOk(nodes[j])
      invariant edges == EdgeCount(nodes[..i])
      invariant Tables(names, degree, outgoing, EdgeListOf(LocalNodes(names, nodes[..i])))
    {
      var n := nodes[i];
      assert n in nodes;
      TakeSnoc(nodes, i);
      LocalNodesTake(names, nodes, i);
      degree, outgoing, err :=
        AddLocalDependencies(names, degree, outgoing, n.name, n.deps, EdgeListOf(LocalNodes(names, nodes[..i])));
      if err.Some? {
        return;
      }
      edges := edges + |n.deps|;
    }
    TakeAll(nodes);
    err := None;
  }

  // Names are unique already. The local part is accepted exactly when no task repeats or names
  // itself as a dependency, the edges fit, and the graft's own tasks form no cycle.
  method ValidateGraftNodes(nodes: seq<NodeSpec>) returns (err: Option<GraphError>)
    requires UniqueNames(nodes)
    ensures err.None? <==> GraftDepsOk(nodes) && EdgeCount(nodes) <= MAX_EDGES && !HasCycle(LocalEdges(nodes))
    ensures err == Some(Cycle) <==> GraftDepsOk(nodes) && EdgeCount(nodes) <= MAX_EDGES && HasCycle(LocalEdges(nodes))
  {
    var names := set n | n in nodes :: n.name;
    var degree, outgoing, edges, bad := AddAllLocalDependencies(nodes, names);
    if bad.Some? {
      return bad;
    }
    if edges > MAX_EDGES {
      return Some(TooManyEdges);
    }
    LocalNodesExact(nodes);
    EdgeListExact(LocalNodes(names, nodes));
    assert Endpoints(names, LocalEdges(nodes));
    TablesRepresent(names, EdgeListOf(LocalNodes(names, nodes)));
    UniqueNamesCount(nodes);
    var visited := CountVisits(names, degree, outgoing, LocalEdges(nodes));
    if visited != |nodes| {
      return Some(Cycle);
    }
    return None;
  }

  // ---- PrepareBundle: the graph of workflows that contain one another ----

  // A workflow of a bundle, with the workflows its child nodes name, in node order.
  datatype Member = Member(id: string, children: seq<string>)

  ghost function Ids(ws: seq<Member>): set<string> {
    set w | w in ws :: w.id
  }

  ghost predicate UniqueIds(ws: seq<Member>) {
    forall i, j :: 0 <= i < j < |ws| ==> ws[i].id != ws[j].id
  }

  ghost function ChildEdges(ws: seq<Member>): Edges {
    set w, c | w in ws && c in w.children :: (w.id, c)
  }

  ghost function Dedup(children: seq<string>): seq<string> {
    if children == [] then []
    else if children[|children| - 1] in children[..|children| - 1] then Dedup(children[..|children| - 1])
    else Dedup(children[..|children| - 1]) + [children[|children| - 1]]
  }

  ghost function OutEdges(id: string, children: seq<string>): EdgeList {
    if children == [] then [] else OutEdges(id, children[..|children| - 1]) + [(id, children[|children| - 1])]
  }

  ghost function ChildEdgeList(ws: seq<Member>): EdgeList {
    if ws == [] then []
    else ChildEdgeList(ws[..|ws| - 1]) + OutEdges(ws[|ws| - 1].id, Dedup(ws[|ws| - 1].children))
  }

  lemma {:induction false} DedupExact(children: seq<string>)
    ensures Distinct(Dedup(children)) && forall c :: c in Dedup(children) <==> c in children
  {
    if children != [] {
      var init := children[..|children| - 1];
      assert children == init + [children[|children| - 1]];
      DedupExact(init);
    }
  }

  lemma DedupSnoc(children: seq<string>, c: string)
    ensures Dedup(children + [c]) == if c in children then Dedup(children) else Dedup(children) + [c]
  {
  }

  lemma {:induction false} OutEdgesExact(id: string, children: seq<string>)
    requires Distinct(children)
    ensures Distinct(OutEdges(id, children))
    ensures forall e :: e in OutEdges(id, children) <==> e.0 == id && e.1 in children
  {
    if children != [] {
      var init, c := children[..|children| - 1], children[|children| - 1];
      OutEdgesExact(id, init);
      assert children == init + [c] && OutEdges(id, children) == OutEdges(id, init) + [(id, c)];
      assert c !in init;
    }
  }

  lemma OutStep(names: set<string>, degree: map<string, int>, outgoing: map<string, seq<string>>,
                es: EdgeList, id: string, children: seq<string>, c: string)
    requires Tables(names, degree, outgoing, es + OutEdges(id, children)) && id in names && c in names
    ensures Tables(names, degree[c := degree[c] + 1], outgoing[id := outgoing[id] + [c]],
                   es + OutEdges(id, children + [c]))
  {
    assert (children + [c])[..|children|] == children;
    AppendSnoc(es, OutEdges(id, children), (id, c));
    RecordEdge(names, degree, outgoing, es + OutEdges(id, children), id, c);
  }

  lemma {:induction false} ChildEdgeListExact(ws: seq<Member>)
    requires UniqueIds(ws)
    ensures Distinct(ChildEdgeList(ws))
    ensures forall e :: e in ChildEdgeList(ws) <==> exists i :: 0 <= i < |ws| && ws[i].id == e.0 && e.1 in ws[i].children
  {
    if ws != [] {
      var init, last := ws[..|ws| - 1], ws[|ws| - 1];
      ChildEdgeListExact(init);
      DedupExact(last.children);
      OutEdgesExact(last.id, Dedup(last.children));
      var a, b := ChildEdgeList(init), OutEdges(last.id, Dedup(last.children));
      forall e | e in a
        ensures e !in b
      {
        var i :| 0 <= i < |init| && init[i].id == e.0;
        assert ws[i].id == e.0;
      }
      DistinctAppend(a, b);
      forall e
        ensures e in a + b <==> exists i :: 0 <= i < |ws| && ws[i].id == e.0 && e.1 in ws[i].children
      {
        if e in a {
          var i :| 0 <= i < |init| && init[i].id == e.0 && e.1 in init[i].children;
          assert ws[i] == init[i];
        }
        if e in b {
          assert ws[|ws| - 1].id == e.0;
        }
        if i :| 0 <= i < |ws| && ws[i].id == e.0 && e.1 in ws[i].children {
          assert i == |ws| - 1 || init[i] == ws[i];
        }
      }
    }
  }

  lemma {:induction false} UniqueIdsCount(ws: seq<Member>)
    requires UniqueIds(ws)
    ensures |Ids(ws)| == |ws|
  {
    if ws != [] {
      var init, last := ws[..|ws| - 1], ws[|ws| - 1];
      UniqueIdsCount(init);
      assert ws == init + [last];
      assert Ids(ws) == Ids(init) + {last.id};
      assert last.id !in Ids(init);
    }
  }

  lemma WholeBundle(ws: seq<Member>)
    requires UniqueIds(ws) && Endpoints(Ids(ws), ChildEdges(ws))
    ensures |Ids(ws)| == |ws|
    ensures var es := ChildEdgeList(ws);
            Represents(Ids(ws), Degrees(Ids(ws), es), Children(Ids(ws), es), ChildEdges(ws))
  {
    UniqueIdsCount(ws);
    ListedEdges(ws);
    TablesRepresent(Ids(ws), ChildEdgeList(ws));
  }

  lemma ListedEdges(ws: seq<Member>)
    requires UniqueIds(ws)
    ensures Distinct(ChildEdgeList(ws)) && Elems(ChildEdgeList(ws)) == ChildEdges(ws)
  {
    ChildEdgeListExact(ws);
    forall e
      ensures e in ChildEdgeList(ws) <==> e in ChildEdges(ws)
    {
      if e in ChildEdgeList(ws) {
        var i :| 0 <= i < |ws| && ws[i].id == e.0 && e.1 in ws[i].children;
        assert ws[i] in ws;
      }
      if e in ChildEdges(ws) {
        var w, c :| w in ws && c in w.children && e == (w.id, c);
        var i :| 0 <= i < |ws| && ws[i] == w;
      }
    }
  }

  method CollectIds(ws: seq<Member>) returns (ids: set<string>, ok: bool)
    ensures ok <==> UniqueIds(ws) && forall w :: w in ws ==> w.id != ""
    ensures ok ==> ids == Ids(ws)
  {
    ids, ok := {}, true;
    for i := 0 to |ws|
      invariant ids == Ids(ws[..i]) && UniqueIds(ws[..i])
      invariant forall j :: 0 <= j < i ==> ws[j].id != ""
    {
      TakeSnoc(ws, i);
      if ws[i].id == "" {
        assert ws[i] in ws;
        return ids, false;
      }
      if ws[i].id in ids {
        var j :| 0 <= j < i && ws[j].id == ws[i].id;
        return ids, false;
      }
      assert Ids(ws[..i + 1]) == Ids(ws[..i]) + {ws[i].id};
      ids := ids + {ws[i].id};
    }
    TakeAll(ws);
  }

  ghost predicate ChildrenIn(ids: set<string>, children: seq<string>) {
    forall c :: c in children ==> c in ids
  }

  lemma BundleEndpoints(ws: seq<Member>, ids: set<string>)
    requires ids == Ids(ws)
    ensures Endpoints(ids, ChildEdges(ws)) <==> forall j :: 0 <= j < |ws| ==> ChildrenIn(ids, ws[j].children)
  {
    forall w, c | w in ws && c in w.children
      ensures (w.id, c) in ChildEdges(ws)
    {
    }
  }

  method AddChildren(ids: set<string>, degree0: map<string, int>, outgoing0: map<string, seq<string>>,
                     id: string, children: seq<string>, ghost es: EdgeList)
    returns (degree: map<string, int>, outgoing: map<string, seq<string>>, ok: bool)
    requires Tables(ids, degree0, outgoing0, es) && id in ids
    ensures ok <==> ChildrenIn(ids, children)
    ensures ok ==> Tables(ids, degree, outgoing, es + OutEdges(id, Dedup(children)))
  {
    degree, outgoing, ok := degree0, outgoing0, true;
    var seen: set<string> := {};
    ghost var kids: seq<string> := [];
    assert es + OutEdges(id, kids) == es;
    for k := 0 to |children|
      invariant seen == Elems(children[..k]) && seen <= ids
      invariant kids == Dedup(children[..k])
      invariant Tables(ids, degree, outgoing, es + OutEdges(id, kids))
    {
      var c := children[k];
      TakeSnoc(children, k);
      DedupSnoc(children[..k], c);
      assert Elems(children[..k + 1]) == seen + {c};
      if c !in ids {
        assert c in children;
        return degree, outgoing, false;
      }
      assert c in seen <==> c in children[..k];
      if c in seen {
        assert seen + {c} == seen;
      } else {
        seen := seen + {c};
        OutStep(ids, degree, outgoing, es, id, kids, c);
        kids := kids + [c];
        degree, outgoing := degree[c := degree[c] + 1], outgoing[id := outgoing[id] + [c]];
      }
    }
    TakeAll(children);
  }

  method AddAllChildren(ws: seq<Member>, ids: set<string>)
    returns (degree: map<string, int>, outgoing: map<string, seq<string>>, ok: bool)
    requires ids == Ids(ws)
    ensures ok <==> Endpoints(ids, ChildEdges(ws))
    ensures ok ==> Tables(ids, degree, outgoing, ChildEdgeList(ws))
  {
    BundleEndpoints(ws, ids);
    degree, outgoing, ok := map n | n in ids :: 0, map n | n in ids :: [], true;
    for i := 0 to |ws|
      invariant forall j :: 0 <= j < i ==> ChildrenIn(ids, ws[j].children)
      invariant Tables(ids, degree, outgoing, ChildEdgeList(ws[..i]))
    {
      var w := ws[i];
      assert w in ws;
      TakeSnoc(ws, i);
      degree, outgoing, ok := AddChildren(ids, degree, outgoing, w.id, w.children, ChildEdgeList(ws[..i]));
      if !ok {
        return;
      }
    }
    TakeAll(ws);
    ok := true;
  }

  // A bundle is accepted exactly when its ids are distinct, every child belongs to it, and no
  // workflow contains itself through any chain of children.
  method ValidateBundle(ws: seq<Member>) returns (err: Option<GraphError>)
    ensures err.None? <==>
            && ws != [] && UniqueIds(ws) && (forall w :: w in ws ==> w.id != "")
            && Endpoints(Ids(ws), ChildEdges(ws)) && !HasCycle(ChildEdges(ws))
    ensures err == Some(Cycle) ==> HasCycle(ChildEdges(ws))
  {
    if |ws| == 0 {
      return Some(NodeCount);
    }
    var ids, unique := CollectIds(ws);
    if !unique {
      return Some(RepeatedName);
    }
    var degree, outgoing, ok := AddAllChildren(ws, ids);
    if !ok {
      return Some(MissingChild);
    }
    WholeBundle(ws);
    var visited := CountVisits(ids, degree, outgoing, ChildEdges(ws));
    if visited != |ws| {
      return Some(Cycle);
    }
    return None;
  }
}
