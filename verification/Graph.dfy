// Directed graphs on names, and the queue-and-degree check that workflow.go and evaluation.go share.
module Graph {
  import opened Common

  // (d, n) is an edge when n waits for d.
  type Edges = set<(string, string)>

  ghost predicate IsWalk(edges: Edges, p: seq<string>) {
    |p| > 0 && forall i :: 0 <= i < |p| - 1 ==> (p[i], p[i + 1]) in edges
  }

  ghost predicate IsCycle(edges: Edges, p: seq<string>) {
    IsWalk(edges, p) && |p| >= 2 && p[0] == p[|p| - 1]
  }

  ghost predicate HasCycle(edges: Edges) {
    exists p :: IsCycle(edges, p)
  }

  ghost predicate WaitsWithin(edges: Edges, s: set<string>, n: string) {
    exists d :: d in s && (d, n) in edges
  }

  ghost predicate AllWait(edges: Edges, s: set<string>) {
    forall n :: n in s ==> WaitsWithin(edges, s, n)
  }

  lemma WalkCons(edges: Edges, d: string, q: seq<string>)
    requires IsWalk(edges, q) && (d, q[0]) in edges
    ensures IsWalk(edges, [d] + q)
  {
  }

  lemma WalkSnoc(edges: Edges, p: seq<string>, n: string)
    requires IsWalk(edges, p) && (p[|p| - 1], n) in edges
    ensures IsWalk(edges, p + [n])
  {
  }

  lemma SubWalk(edges: Edges, p: seq<string>, i: nat, j: nat)
    requires IsWalk(edges, p) && i < j <= |p|
    ensures IsWalk(edges, p[i..j])
  {
  }

  // A walk inside s of any length, when no member of s is free of predecessors in s.
  lemma {:induction false} LongWalk(edges: Edges, s: set<string>, k: nat) returns (p: seq<string>)
    requires s != {} && AllWait(edges, s)
    ensures IsWalk(edges, p) && |p| == k + 1 && forall x :: x in p ==> x in s
  {
    if k == 0 {
      var n :| n in s;
      p := [n];
    } else {
      var q := LongWalk(edges, s, k - 1);
      assert WaitsWithin(edges, s, q[0]);
      var d :| d in s && (d, q[0]) in edges;
      WalkCons(edges, d, q);
      p := [d] + q;
    }
  }

  // The heart of every acyclicity argument here: a finite set in which everything waits for
  // something in the set contains a cycle.
  lemma EveryoneWaits(edges: Edges, s: set<string>)
    requires s != {} && AllWait(edges, s)
    ensures HasCycle(edges)
  {
    var p := LongWalk(edges, s, |s|);
    if Distinct(p) {
      DistinctSize(p);
      SubsetSize(Elems(p), s);
      assert false;
    }
    var i, j :| 0 <= i < j < |p| && p[i] == p[j];
    SubWalk(edges, p, i, j + 1);
    assert IsCycle(edges, p[i..j + 1]);
  }

  lemma MinimalMember(edges: Edges, s: set<string>) returns (n: string)
    requires s != {} && !HasCycle(edges)
    ensures n in s && !WaitsWithin(edges, s, n)
  {
    if AllWait(edges, s) {
      EveryoneWaits(edges, s);
    }
    n :| n in s && !WaitsWithin(edges, s, n);
  }

  // Edges that never lead from a higher to a lower rank admit no cycle.
  ghost predicate Ranked(edges: Edges, rank: map<string, int>) {
    forall e :: e in edges && e.1 in rank ==> e.0 in rank && rank[e.0] < rank[e.1]
  }

  lemma {:induction false} RankAlongWalk(edges: Edges, rank: map<string, int>, p: seq<string>)
    requires Ranked(edges, rank) && IsWalk(edges, p) && p[|p| - 1] in rank
    ensures p[0] in rank && (|p| >= 2 ==> rank[p[0]] < rank[p[|p| - 1]])
    decreases |p|
  {
    if |p| >= 2 {
      var q := p[..|p| - 1];
      assert (q[|q| - 1], p[|p| - 1]) in edges;
      RankAlongWalk(edges, rank, q);
    }
  }

  lemma RankedIsAcyclic(edges: Edges, rank: map<string, int>)
    requires Ranked(edges, rank) && forall e :: e in edges ==> e.1 in rank
    ensures !HasCycle(edges)
  {
    forall p | IsCycle(edges, p)
      ensures false
    {
      assert (p[|p| - 2], p[|p| - 1]) in edges;
      RankAlongWalk(edges, rank, p);
    }
  }

  // ---- The queue-and-degree loop ----

  // How many of n's predecessors have not been visited.
  ghost function Waiting(edges: Edges, done: set<string>, n: string): Edges {
    set e | e in edges && e.1 == n && e.0 !in done
  }

  ghost predicate Endpoints(names: set<string>, edges: Edges) {
    forall e :: e in edges ==> e.0 in names && e.1 in names
  }

  ghost predicate DegreesOf(names: set<string>, degree: map<string, int>, edges: Edges) {
    degree.Keys == names && forall n :: n in names ==> degree[n] == |Waiting(edges, {}, n)|
  }

  ghost predicate ChildrenOf(names: set<string>, outgoing: map<string, seq<string>>, edges: Edges) {
    && outgoing.Keys == names
    && (forall d :: d in names ==> Distinct(outgoing[d]))
    && (forall d, n :: d in names ==> (n in outgoing[d] <==> (d, n) in edges))
  }

  ghost predicate Represents(names: set<string>, degree: map<string, int>, outgoing: map<string, seq<string>>, edges: Edges) {
    Endpoints(names, edges) && DegreesOf(names, degree, edges) && ChildrenOf(names, outgoing, edges)
  }

  lemma VisitLowers(edges: Edges, done: set<string>, name: string, n: string)
    requires name !in done
    ensures |Waiting(edges, done + {name}, n)| == |Waiting(edges, done, n)| - (if (name, n) in edges then 1 else 0)
  {
    var before, after := Waiting(edges, done, n), Waiting(edges, done + {name}, n);
    if (name, n) in edges {
      assert before == after + {(name, n)};
    } else {
      assert before == after;
    }
  }

  ghost predicate QueueInv(names: set<string>, degree: map<string, int>, edges: Edges, ready: seq<string>, rank: map<string, int>) {
    && degree.Keys == names && rank.Keys <= names
    && (forall n :: n in names ==> degree[n] == |Waiting(edges, rank.Keys, n)|)
    && Distinct(ready)
    && (forall n :: n in ready <==> n in names && n !in rank && degree[n] == 0)
    && Ranked(edges, rank)
    && (forall n :: n in rank ==> degree[n] == 0 && 0 <= rank[n] < |rank|)
  }

  lemma NothingWaits(edges: Edges, done: set<string>, n: string)
    requires |Waiting(edges, done, n)| == 0
    ensures forall e :: e in edges && e.1 == n ==> e.0 in done
  {
    forall e | e in edges && e.1 == n
      ensures e.0 in done
    {
      assert e.0 !in done ==> e in Waiting(edges, done, n);
    }
  }

  lemma StuckHasCycle(names: set<string>, edges: Edges, done: set<string>)
    requires Endpoints(names, edges) && done <= names && done != names
    requires forall n :: n in names && n !in done ==> |Waiting(edges, done, n)| != 0
    ensures HasCycle(edges)
  {
    var s := names - done;
    var w := ProperSubset(done, names);
    forall n | n in s
      ensures WaitsWithin(edges, s, n)
    {
      assert Waiting(edges, done, n) != {};
      var e :| e in Waiting(edges, done, n);
      assert e.0 in s && (e.0, n) in edges;
    }
    EveryoneWaits(edges, s);
  }

  lemma AllVisited(names: set<string>, degree: map<string, int>, edges: Edges, rank: map<string, int>)
    requires Endpoints(names, edges)
    requires QueueInv(names, degree, edges, [], rank)
    ensures |rank| == |names| <==> !HasCycle(edges)
  {
    assert |rank.Keys| == |rank|;
    if rank.Keys == names {
      RankedIsAcyclic(edges, rank);
    } else {
      var n := ProperSubset(rank.Keys, names);
      assert forall n :: n in names && n !in rank ==> n !in [] && degree[n] != 0;
      StuckHasCycle(names, edges, rank.Keys);
    }
  }

  // The names with no predecessors, in whatever order the map yields them.
  method ReadyNames(names: set<string>, degree: map<string, int>) returns (ready: seq<string>)
    requires degree.Keys == names
    ensures Distinct(ready) && forall n :: n in ready <==> n in names && degree[n] == 0
  {
    ready := [];
    var rest := names;
    while rest != {}
      invariant rest <= names && Distinct(ready)
      invariant forall n :: n in ready <==> n in names - rest && degree[n] == 0
      decreases |rest|
    {
      var n :| n in rest;
      rest := rest - {n};
      if degree[n] == 0 {
        ready := ready + [n];
      }
    }
  }

  // The children of a visited name lose one unvisited predecessor each; those that lose the last
  // one join the queue.
  method VisitChildren(names: set<string>, degree0: map<string, int>, children: seq<string>, ready0: seq<string>)
    returns (degree: map<string, int>, ready: seq<string>)
    requires degree0.Keys == names && Distinct(children) && Distinct(ready0)
    requires forall n :: n in children ==> n in names && degree0[n] > 0
    requires forall n :: n in ready0 ==> n in names && degree0[n] == 0
    ensures degree.Keys == names && Distinct(ready)
    ensures forall n :: n in names ==> degree[n] == degree0[n] - if n in children then 1 else 0
    ensures forall n :: n in ready <==> n in ready0 || (n in children && degree[n] == 0)
  {
    degree, ready := degree0, ready0;
    for k := 0 to |children|
      invariant degree.Keys == names && Distinct(ready)
      invariant forall n :: n in names ==> degree[n] == degree0[n] - if n in children[..k] then 1 else 0
      invariant forall n :: n in ready <==> n in ready0 || (n in children[..k] && degree[n] == 0)
    {
      var child := children[k];
      assert child !in children[..k];
      assert children[..k + 1] == children[..k] + [child];
      degree := degree[child := degree[child] - 1];
      if degree[child] == 0 {
        ready := ready + [child];
      }
    }
    assert children[..|children|] == children;
  }

  // Takes the first ready name off the queue and visits it.
  method VisitNext(names: set<string>, degree0: map<string, int>, outgoing: map<string, seq<string>>, ghost edges: Edges,
                   ready0: seq<string>, ghost rank0: map<string, int>)
    returns (degree: map<string, int>, ready: seq<string>, ghost rank: map<string, int>)
    requires ready0 != [] && QueueInv(names, degree0, edges, ready0, rank0)
    requires ChildrenOf(names, outgoing, edges) && Endpoints(names, edges)
    ensures QueueInv(names, degree, edges, ready, rank) && |rank| == |rank0| + 1 && |rank| <= |names|
  {
    var name := ready0[0];
    ChildrenWait(names, degree0, outgoing, edges, ready0, rank0, name);
    degree, ready := VisitChildren(names, degree0, outgoing[name], ready0[1..]);
    rank := rank0[name := |rank0|];
    VisitKeepsInv(names, degree0, outgoing, edges, ready0, rank0, degree, ready);
  }

  // Visits every name whose predecessors are visited, and counts the visits. The count reaches the
  // number of names exactly when the graph has no cycle.
  method CountVisits(names: set<string>, degree0: map<string, int>, outgoing: map<string, seq<string>>, ghost edges: Edges)
    returns (visited: nat)
    requires Represents(names, degree0, outgoing, edges)
    ensures visited == |names| <==> !HasCycle(edges)
  {
    var degree := degree0;
    var ready := ReadyNames(names, degree);
    visited := 0;
    ghost var rank: map<string, int> := map[];
    assert QueueInv(names, degree, edges, ready, rank);
    while |ready| > 0
      invariant QueueInv(names, degree, edges, ready, rank)
      invariant visited == |rank|
      decreases |names| - |rank|
    {
      visited := visited + 1;
      degree, ready, rank := VisitNext(names, degree, outgoing, edges, ready, rank);
    }
    assert ready == [];
    AllVisited(names, degree, edges, rank);
  }

  lemma ChildrenWait(names: set<string>, degree: map<string, int>, outgoing: map<string, seq<string>>, edges: Edges,
                     ready: seq<string>, rank: map<string, int>, name: string)
    requires QueueInv(names, degree, edges, ready, rank) && name in ready
    requires outgoing.Keys == names && forall n :: n in outgoing[name] <==> (name, n) in edges
    requires Endpoints(names, edges)
    ensures forall n :: n in outgoing[name] ==> n in names && degree[n] > 0
  {
    forall n | n in outgoing[name]
      ensures n in names && degree[n] > 0
    {
      assert (name, n) in edges;
      assert (name, n) in Waiting(edges, rank.Keys, n);
    }
  }

  lemma VisitRank(names: set<string>, degree: map<string, int>, edges: Edges, ready: seq<string>, rank0: map<string, int>)
    requires ready != [] && QueueInv(names, degree, edges, ready, rank0)
    ensures ready[0] !in rank0
    ensures var rank := rank0[ready[0] := |rank0|];
            && rank.Keys == rank0.Keys + {ready[0]} <= names && Ranked(edges, rank) && |rank| == |rank0| + 1 <= |names|
            && forall n :: n in rank ==> 0 <= rank[n] < |rank|
  {
    var name := ready[0];
    assert name in ready;
    RankAfterVisit(edges, rank0, name);
    var rank := rank0[name := |rank0|];
    assert rank.Keys == rank0.Keys + {name};
    SubsetSize(rank.Keys, names);
  }

  lemma VisitKeepsInv(names: set<string>, degree0: map<string, int>, outgoing: map<string, seq<string>>, edges: Edges,
                      ready0: seq<string>, rank0: map<string, int>, degree: map<string, int>, ready: seq<string>)
    requires ready0 != [] && QueueInv(names, degree0, edges, ready0, rank0) && ready0[0] in names
    requires outgoing.Keys == names && degree.Keys == names && Distinct(ready)
    requires forall n :: n in outgoing[ready0[0]] <==> (ready0[0], n) in edges
    requires forall n :: n in outgoing[ready0[0]] ==> n in names && degree0[n] > 0
    requires forall n :: n in names ==> degree[n] == degree0[n] - if n in outgoing[ready0[0]] then 1 else 0
    requires forall n :: n in ready <==> n in ready0[1..] || (n in outgoing[ready0[0]] && degree[n] == 0)
    ensures var rank := rank0[ready0[0] := |rank0|];
            QueueInv(names, degree, edges, ready, rank) && |rank| == |rank0| + 1 && |rank| <= |names|
  {
    var name := ready0[0];
    VisitRank(names, degree0, edges, ready0, rank0);
    DegreesAfterVisit(names, degree0, outgoing[name], edges, rank0.Keys, name, degree);
    ReadyAfterVisit(names, degree0, outgoing[name], rank0.Keys, ready0, degree, ready);
  }

  lemma ReadyAfterVisit(names: set<string>, degree0: map<string, int>, children: seq<string>, done: set<string>,
                        ready0: seq<string>, degree: map<string, int>, ready: seq<string>)
    requires ready0 != [] && Distinct(ready0) && degree0.Keys == names == degree.Keys && done <= names
    requires forall n :: n in ready0 <==> n in names && n !in done && degree0[n] == 0
    requires forall n :: n in done ==> degree0[n] == 0
    requires forall n :: n in children ==> n in names && degree0[n] > 0
    requires forall n :: n in names ==> degree[n] == degree0[n] - if n in children then 1 else 0
    requires forall n :: n in ready <==> n in ready0[1..] || (n in children && degree[n] == 0)
    ensures forall n :: n in ready <==> n in names && n !in done + {ready0[0]} && degree[n] == 0
    ensures forall n :: n in done + {ready0[0]} ==> n in degree && degree[n] == 0
  {
  }

  lemma DegreesAfterVisit(names: set<string>, degree0: map<string, int>, children: seq<string>, edges: Edges,
                          done: set<string>, name: string, degree: map<string, int>)
    requires degree0.Keys == names == degree.Keys && name !in done
    requires forall n :: n in names ==> degree0[n] == |Waiting(edges, done, n)|
    requires forall n :: n in children <==> (name, n) in edges
    requires forall n :: n in names ==> degree[n] == degree0[n] - if n in children then 1 else 0
    ensures forall n :: n in names ==> degree[n] == |Waiting(edges, done + {name}, n)|
  {
    forall n | n in names
      ensures degree[n] == |Waiting(edges, done + {name}, n)|
    {
      VisitLowers(edges, done, name, n);
    }
  }

  lemma RankAfterVisit(edges: Edges, rank: map<string, int>, name: string)
    requires Ranked(edges, rank) && name !in rank && |Waiting(edges, rank.Keys, name)| == 0
    requires forall n :: n in rank ==> 0 <= rank[n] < |rank|
    ensures var rank' := rank[name := |rank|];
            && Ranked(edges, rank') && |rank'| == |rank| + 1
            && forall n :: n in rank' ==> 0 <= rank'[n] < |rank'|
  {
    NothingWaits(edges, rank.Keys, name);
  }
}
