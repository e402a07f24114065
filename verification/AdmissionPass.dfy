// The round-robin over one queue's partitions (go/headgatetest/memstore.go).
module AdmissionPass {
  import opened Common
  import opened Sorting
  import opened StoreModel
  import opened Admission

  // One call: the store as it was, the request and the store's time.
  datatype Call = Call(s: MemState, req: AdmitRequest, now: int)

  // Higher priority first, then the earlier, then the smaller id.
  predicate JobLe(s: MemState, a: string, b: string) {
    a in s.jobs && b in s.jobs &&
    var x, y := s.jobs[a].env, s.jobs[b].env;
    if x.priority != y.priority then x.priority > y.priority
    else if x.scheduledAtMs != y.scheduledAtMs then x.scheduledAtMs < y.scheduledAtMs
    else StringLe(x.id, y.id)
  }

  lemma JobsTotal(s: MemState, ids: set<string>)
    requires ids <= s.jobs.Keys
    ensures TotalOn(ids, (a, b) => JobLe(s, a, b))
  {
    var le := (a: string, b: string) => JobLe(s, a, b);
    forall a, b | a in ids && b in ids
      ensures le(a, b) || le(b, a)
    {
      StringLeTotal(s.jobs[a].env.id, s.jobs[b].env.id);
    }
    forall a, b, c | a in ids && b in ids && c in ids && le(a, b) && le(b, c)
      ensures le(a, c)
    {
      JobLeTrans(s, a, b, c);
    }
  }

  lemma JobLeTrans(s: MemState, a: string, b: string, c: string)
    requires JobLe(s, a, b) && JobLe(s, b, c)
    ensures JobLe(s, a, c)
  {
    var x, y, z := s.jobs[a].env, s.jobs[b].env, s.jobs[c].env;
    if x.priority == y.priority == z.priority && x.scheduledAtMs == y.scheduledAtMs == z.scheduledAtMs {
      StringLeTrans(x.id, y.id, z.id);
    }
  }

  type Work = map<string, seq<string>>

  ghost predicate InQueue(c: Call, queue: string, id: string) {
    Eligible(c.s, c.req, c.now, id) && c.s.jobs[id].env.queue == queue
  }

  // A partition's remaining candidates: unclaimed, in order.
  ghost predicate ListOk(c: Call, queue: string, claims: seq<Claim>, p: string, list: seq<string>) {
    && Distinct(list) && SortedBy(list, (a, b) => JobLe(c.s, a, b))
    && forall id :: id in list ==> InQueue(c, queue, id) && c.s.jobs[id].env.partitionKey == p && !ClaimedIn(claims, id)
  }

  ghost predicate Lists(c: Call, queue: string, claims: seq<Claim>, work: Work) {
    forall p :: p in work ==> ListOk(c, queue, claims, p, work[p])
  }

  // Every candidate is claimed, blocked or still listed.
  ghost predicate Covered(c: Call, queue: string, a: Adm, work: Work) {
    forall id :: InQueue(c, queue, id) ==>
      || ClaimedIn(a.claims, id) || Blocked(c.s, c.now, a, c.s.jobs[id].env)
      || (c.s.jobs[id].env.partitionKey in work && id in work[c.s.jobs[id].env.partitionKey])
  }

  // Claims of a partition come in its order, ahead of everything still listed.
  ghost predicate InOrder(c: Call, claims: seq<Claim>, base: nat, work: Work) {
    && (forall k, l :: base <= k < l < |claims| && claims[k].env.partitionKey == claims[l].env.partitionKey ==>
          JobLe(c.s, claims[k].env.id, claims[l].env.id))
    && (forall k, y :: base <= k < |claims| && claims[k].env.partitionKey in work && y in work[claims[k].env.partitionKey] ==>
          JobLe(c.s, claims[k].env.id, y))
  }

  ghost predicate PassInv(c: Call, queue: string, base: nat, a: Adm, work: Work) {
    AdmInv(c.s, c.req, c.now, a) && PassRest(c, queue, base, a, work)
  }

  ghost predicate PassRest(c: Call, queue: string, base: nat, a: Adm, work: Work) {
    && base <= |a.claims|
    && (forall k :: base <= k < |a.claims| ==> a.claims[k].env.queue == queue && a.claims[k].env.partitionKey in work)
    && Lists(c, queue, a.claims, work)
    && Covered(c, queue, a, work)
    && InOrder(c, a.claims, base, work)
  }

  lemma ListTail(c: Call, queue: string, claims: seq<Claim>, p: string, list: seq<string>)
    requires ListOk(c, queue, claims, p, list) && list != []
    ensures ListOk(c, queue, claims, p, list[1..]) && list[0] !in list[1..]
    ensures forall y :: y in list[1..] ==> JobLe(c.s, list[0], y)
  {
  }

  function Popped(work: Work, p: string): Work
    requires p in work && work[p] != []
  {
    work[p := work[p][1..]]
  }

  lemma ListsPop(c: Call, queue: string, claims: seq<Claim>, work: Work, p: string)
    requires Lists(c, queue, claims, work) && p in work && work[p] != []
    ensures Lists(c, queue, claims, Popped(work, p))
  {
  }

  lemma OrderPop(c: Call, claims: seq<Claim>, base: nat, work: Work, p: string)
    requires InOrder(c, claims, base, work) && p in work && work[p] != []
    ensures InOrder(c, claims, base, Popped(work, p))
  {
  }

  lemma CoveredPop(c: Call, queue: string, a: Adm, b: Adm, work: Work, p: string)
    requires Covered(c, queue, a, work) && p in work && work[p] != []
    requires Later(c.s, c.now, a, b)
    requires work[p][0] in c.s.jobs
    requires ClaimedIn(b.claims, work[p][0]) || Blocked(c.s, c.now, b, c.s.jobs[work[p][0]].env)
    ensures Covered(c, queue, b, Popped(work, p))
  {
  }

  // The head of a list fails the gate and leaves.
  lemma DropKeepsPass(c: Call, queue: string, base: nat, a: Adm, work: Work, p: string, b: Adm)
    requires PassInv(c, queue, base, a, work) && p in work && work[p] != []
    requires AdmInv(c.s, c.req, c.now, b) && Later(c.s, c.now, a, b) && b.claims == a.claims
    requires work[p][0] in c.s.jobs && Blocked(c.s, c.now, b, c.s.jobs[work[p][0]].env)
    ensures PassInv(c, queue, base, b, Popped(work, p))
  {
    ListsPop(c, queue, a.claims, work, p);
    OrderPop(c, a.claims, base, work, p);
    CoveredPop(c, queue, a, b, work, p);
  }

  lemma ListsTake(c: Call, queue: string, claims: seq<Claim>, work: Work, p: string, cl: Claim)
    requires Lists(c, queue, claims, work) && p in work && work[p] != [] && cl.env.id == work[p][0]
    ensures Lists(c, queue, claims + [cl], Popped(work, p))
  {
  }

  lemma OrderTake(c: Call, claims: seq<Claim>, base: nat, work: Work, p: string, cl: Claim)
    requires InOrder(c, claims, base, work) && p in work && work[p] != []
    requires cl.env.id == work[p][0] && cl.env.partitionKey == p
    requires forall y :: y in work[p][1..] ==> JobLe(c.s, work[p][0], y)
    ensures InOrder(c, claims + [cl], base, Popped(work, p))
  {
  }

  lemma TakeKeepsRest(c: Call, queue: string, base: nat, a: Adm, work: Work, p: string, t: Adm)
    requires PassRest(c, queue, base, a, work) && p in work && work[p] != [] && work[p][0] in c.s.jobs
    requires RecordOk(work[p][0], c.s.jobs[work[p][0]])
    requires Later(c.s, c.now, a, t) && t.claims == a.claims + [ClaimOf(c.req, c.now, c.s.jobs[work[p][0]])]
    ensures PassRest(c, queue, base, t, Popped(work, p)) && c.s.jobs[work[p][0]].env.partitionKey == p
  {
    var id := work[p][0];
    var cl := ClaimOf(c.req, c.now, c.s.jobs[id]);
    assert id in work[p] && ListOk(c, queue, a.claims, p, work[p]);
    ListTail(c, queue, a.claims, p, work[p]);
    ListsTake(c, queue, a.claims, work, p, cl);
    OrderTake(c, a.claims, base, work, p, cl);
    ClaimedInSnoc(a.claims, cl, id);
    CoveredPop(c, queue, a, t, work, p);
  }

  // The head of a list passes the gate and is claimed.
  lemma TakeKeepsPass(c: Call, queue: string, base: nat, a: Adm, work: Work, p: string, b: Adm)
    requires PassInv(c, queue, base, a, work) && p in work && work[p] != []
    requires AdmInv(c.s, c.req, c.now, b) && Later(c.s, c.now, a, b) && b.claims == a.claims
    requires work[p][0] in c.s.jobs && Admissible(c.s, c.now, b, c.s.jobs[work[p][0]].env)
    ensures work[p][0] in b.jobs
    ensures var t := Take(c.s, b, c.req, c.now, work[p][0]);
            && PassInv(c, queue, base, t, Popped(work, p)) && Later(c.s, c.now, a, t)
            && t.claims == a.claims + [ClaimOf(c.req, c.now, c.s.jobs[work[p][0]])]
            && c.s.jobs[work[p][0]].env.partitionKey == p
  {
    var id := work[p][0];
    assert id in work[p] && ListOk(c, queue, a.claims, p, work[p]);
    TakeKeeps(c.s, c.req, c.now, b, id);
    var t := Take(c.s, b, c.req, c.now, id);
    LaterTrans(c.s, c.now, a, b, t);
    assert b.jobs[id] == c.s.jobs[id] && RecordOk(id, c.s.jobs[id]);
    TakeKeepsRest(c, queue, base, a, work, p, t);
  }

  // How many claims of this pass went to a partition.
  function Count(claims: seq<Claim>, base: nat, p: string): nat {
    if |claims| <= base then 0
    else Count(claims[..|claims| - 1], base, p) + if claims[|claims| - 1].env.partitionKey == p then 1 else 0
  }

  // Puts the first candidate of a partition before the gate.
  method TryHead(c: Call, queue: string, ghost base: nat, a: Adm, work: Work, p: string) returns (b: Adm, ok: bool)
    requires PassInv(c, queue, base, a, work) && p in work && work[p] != []
    ensures PassInv(c, queue, base, b, Popped(work, p)) && Later(c.s, c.now, a, b)
    ensures ok ==> exists cl :: b.claims == a.claims + [cl] && cl.env.partitionKey == p
    ensures !ok ==> b.claims == a.claims
  {
    var id := work[p][0];
    assert id in work[p] && ListOk(c, queue, a.claims, p, work[p]);
    ExamineKeeps(c.s, c.req, c.now, a, c.s.jobs[id].env);
    var gate := Examine(c.s, a, c.now, c.s.jobs[id].env);
    if gate.1 {
      TakeKeepsPass(c, queue, base, a, work, p, gate.0);
      return Take(c.s, gate.0, c.req, c.now, id), true;
    }
    DropKeepsPass(c, queue, base, a, work, p, gate.0);
    return gate.0, false;
  }

  // Serves one partition: discards candidates until one passes the gate, and claims that one.
  method Serve(c: Call, queue: string, ghost base: nat, a0: Adm, work0: Work, p: string)
    returns (a: Adm, work: Work, served: bool)
    requires PassInv(c, queue, base, a0, work0) && p in work0
    ensures PassInv(c, queue, base, a, work) && Later(c.s, c.now, a0, a)
    ensures work.Keys == work0.Keys && forall q :: q in work && q != p ==> work[q] == work0[q]
    ensures served ==> exists cl :: a.claims == a0.claims + [cl] && cl.env.partitionKey == p
    ensures served ==> work0[p] != []
    ensures !served ==> a.claims == a0.claims && work[p] == []
  {
    a, work, served := a0, work0, false;
    while |work[p]| > 0 && !served
      invariant PassInv(c, queue, base, a, work) && Later(c.s, c.now, a0, a)
      invariant work.Keys == work0.Keys && forall q :: q in work && q != p ==> work[q] == work0[q]
      invariant if served then work0[p] != [] && exists cl :: a.claims == a0.claims + [cl] && cl.env.partitionKey == p
                else a.claims == a0.claims && (work0[p] == [] ==> work[p] == [])
      decreases |work[p]|
    {
      var b;
      b, served := TryHead(c, queue, base, a, work, p);
      LaterTrans(c.s, c.now, a0, a, b);
      a, work := b, Popped(work, p);
    }
  }

  // ---- Rounds ----

  // Partition p has had its n claims, or has nothing left and got fewer.
  ghost predicate Even(claims: seq<Claim>, base: nat, work: Work, p: string, n: nat)
    requires p in work
  {
    Count(claims, base, p) == n || (work[p] == [] && Count(claims, base, p) <= n)
  }

  // Partitions in done were served in the current round, the others in the rounds before.
  ghost predicate RoundInv(claims: seq<Claim>, base: nat, work: Work, done: set<string>, round: nat) {
    forall p :: p in work ==> Even(claims, base, work, p, if p in done then round + 1 else round)
  }

  // No partition with work left is two claims behind another.
  ghost predicate Fair(claims: seq<Claim>, base: nat, work: Work) {
    forall p, q :: p in work && q in work && Count(claims, base, p) + 2 <= Count(claims, base, q) ==> work[p] == []
  }

  lemma RoundIsFair(claims: seq<Claim>, base: nat, work: Work, done: set<string>, round: nat)
    requires RoundInv(claims, base, work, done, round)
    ensures Fair(claims, base, work)
  {
  }

  lemma ServedKeepsRound(claims: seq<Claim>, base: nat, work: Work, done: set<string>, round: nat, p: string,
                         claims': seq<Claim>, work': Work, served: bool)
    requires RoundInv(claims, base, work, done, round) && p in work && p !in done && base <= |claims|
    requires work'.Keys == work.Keys && forall q :: q in work && q != p ==> work'[q] == work[q]
    requires served ==> exists cl :: claims' == claims + [cl] && cl.env.partitionKey == p
    requires served ==> work[p] != []
    requires !served ==> claims' == claims && work'[p] == []
    ensures RoundInv(claims', base, work', done + {p}, round)
  {
  }

  function Rotated(parts: seq<string>, start: nat): seq<string>
    requires start <= |parts|
  {
    parts[start..] + parts[..start]
  }

  lemma RotatedParts(parts: seq<string>, start: nat)
    requires Distinct(parts) && start <= |parts|
    ensures Distinct(Rotated(parts, start)) && Elems(Rotated(parts, start)) == Elems(parts)
  {
  }

  lemma RotationStep(rotated: seq<string>, i: nat)
    requires Distinct(rotated) && i < |rotated|
    ensures rotated[i] !in Elems(rotated[..i]) && Elems(rotated[..i + 1]) == Elems(rotated[..i]) + {rotated[i]}
    ensures rotated[i] in Elems(rotated)
  {
  }

  ghost predicate Before(turns: seq<string>, q: string, p: string) {
    exists j, k :: 0 <= j < k < |turns| && turns[j] == q && turns[k] == p
  }

  // The first claim of the pass went to the first partition, in turn order, that had one to give.
  ghost predicate FirstFrom(c: Call, queue: string, base: nat, a: Adm, turns: seq<string>) {
    |a.claims| > base ==>
      && a.claims[base].env.partitionKey in turns
      && forall id :: InQueue(c, queue, id) && Before(turns, c.s.jobs[id].env.partitionKey, a.claims[base].env.partitionKey) ==>
           Done(c, a, id)
  }

  // Claimed, or not claimable in this call.
  ghost predicate Done(c: Call, a: Adm, id: string)
    requires id in c.s.jobs
  {
    ClaimedIn(a.claims, id) || Blocked(c.s, c.now, a, c.s.jobs[id].env)
  }

  lemma DoneStays(c: Call, a: Adm, b: Adm, id: string)
    requires Later(c.s, c.now, a, b) && id in c.s.jobs && Done(c, a, id)
    ensures Done(c, b, id)
  {
  }

  lemma FirstStays(c: Call, queue: string, base: nat, a: Adm, b: Adm, turns: seq<string>)
    requires FirstFrom(c, queue, base, a, turns) && Later(c.s, c.now, a, b) && |a.claims| > base
    ensures FirstFrom(c, queue, base, b, turns)
  {
  }

  // Partitions before turn i had nothing, and now one more was offered its turn.
  lemma FirstClaim(c: Call, queue: string, a: Adm, work: Work, b: Adm, turns: seq<string>, i: nat)
    requires Covered(c, queue, a, work) && Later(c.s, c.now, a, b) && i < |turns| && Distinct(turns)
    requires forall p :: p in Elems(turns[..i]) && p in work ==> work[p] == []
    requires b.claims == a.claims || exists cl :: b.claims == a.claims + [cl] && cl.env.partitionKey == turns[i]
    ensures FirstFrom(c, queue, |a.claims|, b, turns)
  {
  }

  // Everything a round promises while it is under way. done are the partitions already served.
  ghost predicate UnderWay(c: Call, queue: string, base: nat, a0: Adm, a: Adm, work: Work, done: set<string>, round: nat) {
    && PassInv(c, queue, base, a, work) && Later(c.s, c.now, a0, a)
    && RoundInv(a.claims, base, work, done, round)
    && (a.claims == a0.claims ==> forall p :: p in done && p in work ==> work[p] == [])
  }

  lemma FirstKept(c: Call, queue: string, base: nat, a0: Adm, a: Adm, work: Work, b: Adm, turns: seq<string>, i: nat)
    requires Covered(c, queue, a, work) && Later(c.s, c.now, a0, a) && Later(c.s, c.now, a, b) && i < |turns|
    requires a.claims == a0.claims ==> forall p :: p in Elems(turns[..i]) && p in work ==> work[p] == []
    requires b.claims == a.claims || exists cl :: b.claims == a.claims + [cl] && cl.env.partitionKey == turns[i]
    requires base <= |a0.claims| && FirstFrom(c, queue, base, a, turns) && (|a0.claims| > base ==> |a.claims| > base)
    requires Distinct(turns)
    ensures FirstFrom(c, queue, base, b, turns)
  {
    if |a.claims| > base {
      FirstStays(c, queue, base, a, b, turns);
    } else {
      FirstClaim(c, queue, a, work, b, turns, i);
    }
  }

  method ServeNext(c: Call, queue: string, ghost base: nat, ghost a0: Adm, a: Adm, work: Work, p: string,
                   ghost done: set<string>, ghost round: nat)
    returns (b: Adm, rest: Work)
    requires UnderWay(c, queue, base, a0, a, work, done, round) && p in work && p !in done
    ensures UnderWay(c, queue, base, a0, b, rest, done + {p}, round) && rest.Keys == work.Keys
    ensures |a.claims| <= |b.claims| <= |a.claims| + 1 && Later(c.s, c.now, a, b)
    ensures b.claims == a.claims || exists cl :: b.claims == a.claims + [cl] && cl.env.partitionKey == p
  {
    var served;
    b, rest, served := Serve(c, queue, base, a, work, p);
    ServedKeepsRound(a.claims, base, work, done, round, p, b.claims, rest, served);
    LaterTrans(c.s, c.now, a0, a, b);
  }

  ghost predicate AtTurn(c: Call, queue: string, base: nat, a0: Adm, a: Adm, work: Work, turns: seq<string>, done: set<string>, round: nat) {
    UnderWay(c, queue, base, a0, a, work, done, round) && FirstFrom(c, queue, base, a, turns) && base <= |a0.claims|
  }

  method ServeTurn(c: Call, queue: string, ghost base: nat, ghost a0: Adm, a: Adm, work: Work, turns: seq<string>, i: nat,
                   ghost done: set<string>, ghost round: nat)
    returns (b: Adm, rest: Work)
    requires Distinct(turns) && Elems(turns) == work.Keys && i < |turns| && done == Elems(turns[..i])
    requires AtTurn(c, queue, base, a0, a, work, turns, done, round)
    ensures AtTurn(c, queue, base, a0, b, rest, turns, done + {turns[i]}, round) && rest.Keys == work.Keys
    ensures |a.claims| <= |b.claims| <= |a.claims| + 1
  {
    RotationStep(turns, i);
    b, rest := ServeNext(c, queue, base, a0, a, work, turns[i], done, round);
    FirstKept(c, queue, base, a0, a, work, b, turns, i);
  }

  lemma RoundOver(c: Call, queue: string, base: nat, a0: Adm, a: Adm, work: Work, turns: seq<string>, round: nat)
    requires Elems(turns) == work.Keys && AtTurn(c, queue, base, a0, a, work, turns, Elems(turns), round)
    ensures RoundInv(a.claims, base, work, {}, round + 1)
    ensures |a.claims| <= |a0.claims| ==> forall p :: p in work ==> work[p] == []
  {
    NextRound(a.claims, base, work, round);
    assert a0.claims <= a.claims;
    assert |a.claims| <= |a0.claims| ==> a.claims == a0.claims;
  }

  // Goes once around, until the capacity is used up.
  method TakeTurns(c: Call, queue: string, ghost base: nat, a0: Adm, work0: Work, rotated: seq<string>, ghost round: nat)
    returns (a: Adm, work: Work, ghost done: set<string>)
    requires Distinct(rotated) && Elems(rotated) == work0.Keys && |a0.claims| < c.req.capacity
    requires AtTurn(c, queue, base, a0, a0, work0, rotated, {}, round)
    ensures |a0.claims| <= |a.claims| <= c.req.capacity && work.Keys == work0.Keys
    ensures AtTurn(c, queue, base, a0, a, work, rotated, done, round)
    ensures done == Elems(rotated) || |a.claims| == c.req.capacity
  {
    a, work, done := a0, work0, {};
    var i := 0;
    while i < |rotated| && |a.claims| < c.req.capacity
      invariant i <= |rotated| && |a0.claims| <= |a.claims| <= c.req.capacity && work.Keys == work0.Keys
      invariant done == Elems(rotated[..i])
      invariant AtTurn(c, queue, base, a0, a, work, rotated, done, round)
    {
      RotationStep(rotated, i);
      a, work := ServeTurn(c, queue, base, a0, a, work, rotated, i, done, round);
      done := done + {rotated[i]};
      i := i + 1;
    }
    TakeAll(rotated);
  }

  lemma LaterRefl(s: MemState, now: int, a: Adm)
    ensures Later(s, now, a, a)
  {
  }

  // One round: every partition, from the rotating start on, gets at most one claim.
  method Round(c: Call, queue: string, ghost base: nat, a0: Adm, work0: Work, rotated: seq<string>, ghost round: nat)
    returns (a: Adm, work: Work, progressed: bool)
    requires PassInv(c, queue, base, a0, work0) && Distinct(rotated) && Elems(rotated) == work0.Keys
    requires RoundInv(a0.claims, base, work0, {}, round) && |a0.claims| < c.req.capacity
    requires FirstFrom(c, queue, base, a0, rotated)
    ensures FirstFrom(c, queue, base, a, rotated)
    ensures PassInv(c, queue, base, a, work) && Later(c.s, c.now, a0, a) && work.Keys == work0.Keys
    ensures |a.claims| <= c.req.capacity
    ensures Fair(a.claims, base, work)
    ensures |a.claims| < c.req.capacity ==> RoundInv(a.claims, base, work, {}, round + 1)
    ensures progressed <==> |a.claims| > |a0.claims|
    ensures !progressed ==> forall p :: p in work ==> work[p] == []
  {
    LaterRefl(c.s, c.now, a0);
    ghost var done;
    a, work, done := TakeTurns(c, queue, base, a0, work0, rotated, round);
    RoundIsFair(a.claims, base, work, done, round);
    if |a.claims| < c.req.capacity {
      RoundOver(c, queue, base, a0, a, work, rotated, round);
    }
    progressed := |a.claims| > |a0.claims|;
  }

  lemma NextRound(claims: seq<Claim>, base: nat, work: Work, round: nat)
    requires RoundInv(claims, base, work, work.Keys, round)
    ensures RoundInv(claims, base, work, {}, round + 1)
  {
  }

  // ---- One queue ----

  predicate Candidate(c: Call, queue: string, a: Adm, id: string) {
    id in a.jobs &&
    var j := a.jobs[id];
    && j.env.queue == queue && j.state == Available && j.env.scheduledAtMs <= c.now
    && (j.env.stickyWorker == "" || j.env.stickyWorker == c.req.worker)
  }

  // The candidates are the eligible jobs of the queue that this call has not claimed yet.
  lemma CandidatesAre(c: Call, queue: string, a: Adm, id: string)
    requires AdmInv(c.s, c.req, c.now, a) && queue in c.req.queues && queue !in c.s.paused
    ensures Candidate(c, queue, a, id) <==> InQueue(c, queue, id) && !ClaimedIn(a.claims, id)
    ensures Candidate(c, queue, a, id) ==> a.jobs[id] == c.s.jobs[id]
  {
  }

  ghost predicate Grouped(a: Adm, ids: set<string>, work: Work) {
    forall id :: id in ids ==>
      id in a.jobs && (a.jobs[id].env.partitionKey in work ==> id in work[a.jobs[id].env.partitionKey])
  }

  // One partition's candidates, in order.
  method Group(c: Call, queue: string, a: Adm, ids: set<string>, p: string) returns (list: seq<string>)
    requires AdmInv(c.s, c.req, c.now, a) && queue in c.req.queues && queue !in c.s.paused
    requires forall id :: id in ids <==> Candidate(c, queue, a, id)
    ensures ListOk(c, queue, a.claims, p, list)
    ensures forall id :: id in ids && id in a.jobs && a.jobs[id].env.partitionKey == p ==> id in list
  {
    var members := set id | id in ids && a.jobs[id].env.partitionKey == p;
    JobsTotal(c.s, members);
    list := SortSet(members, (x, y) => JobLe(c.s, x, y));
    forall id | id in ids && a.jobs[id].env.partitionKey == p
      ensures id in list
    {
      assert id in members && id in Elems(list);
    }
    forall id | id in list
      ensures InQueue(c, queue, id) && c.s.jobs[id].env.partitionKey == p && !ClaimedIn(a.claims, id)
    {
      assert id in Elems(list);
      CandidatesAre(c, queue, a, id);
    }
  }

  lemma AddGroup(c: Call, queue: string, a: Adm, ids: set<string>, work: Work, p: string, list: seq<string>)
    requires Grouped(a, ids, work) && Lists(c, queue, a.claims, work) && ListOk(c, queue, a.claims, p, list)
    requires forall id :: id in ids && id in a.jobs && a.jobs[id].env.partitionKey == p ==> id in list
    ensures Grouped(a, ids, work[p := list]) && Lists(c, queue, a.claims, work[p := list])
  {
  }

  ghost predicate Waiting(c: Call, queue: string, a: Adm) {
    exists id :: Candidate(c, queue, a, id)
  }

  lemma WaitingKeys(c: Call, queue: string, a: Adm, ids: set<string>, parts: seq<string>)
    requires forall id :: id in ids <==> Candidate(c, queue, a, id)
    requires ids <= a.jobs.Keys && Elems(parts) == set id | id in ids :: a.jobs[id].env.partitionKey
    requires Distinct(parts) && SortedBy(parts, StringLe)
    ensures |parts| > 0 <==> Waiting(c, queue, a)
    ensures PartitionsOf(c, queue, a, parts)
  {
    if |parts| > 0 {
      assert parts[0] in Elems(parts);
    }
    if Waiting(c, queue, a) {
      var id :| Candidate(c, queue, a, id);
      assert a.jobs[id].env.partitionKey in Elems(parts);
    }
  }

  // The partitions with candidates, in name order.
  ghost predicate PartitionsOf(c: Call, queue: string, a: Adm, parts: seq<string>) {
    && Distinct(parts) && SortedBy(parts, StringLe)
    && forall p :: p in Elems(parts) <==> exists id :: Candidate(c, queue, a, id) && a.jobs[id].env.partitionKey == p
  }

  // Groups the candidates by partition, each group in order.
  method Collect(c: Call, queue: string, a: Adm) returns (parts: seq<string>, work: Work)
    requires AdmInv(c.s, c.req, c.now, a) && queue in c.req.queues && queue !in c.s.paused
    ensures Distinct(parts) && Elems(parts) == work.Keys
    ensures PartitionsOf(c, queue, a, parts)
    ensures |parts| > 0 <==> Waiting(c, queue, a)
    ensures PassInv(c, queue, |a.claims|, a, work)
  {
    var ids := set id | id in a.jobs && Candidate(c, queue, a, id);
    var keys := set id | id in ids :: a.jobs[id].env.partitionKey;
    StringsTotal(keys);
    parts := SortSet(keys, StringLe);
    work := map[];
    for i := 0 to |parts|
      invariant work.Keys == Elems(parts[..i])
      invariant Lists(c, queue, a.claims, work) && Grouped(a, ids, work)
    {
      var list := Group(c, queue, a, ids, parts[i]);
      AddGroup(c, queue, a, ids, work, parts[i], list);
      work := work[parts[i] := list];
      TakeSnoc(parts, i);
    }
    TakeAll(parts);
    WaitingKeys(c, queue, a, ids, parts);
    CollectedCovers(c, queue, a, work, ids);
  }

  lemma CollectedCovers(c: Call, queue: string, a: Adm, work: Work, ids: set<string>)
    requires AdmInv(c.s, c.req, c.now, a) && queue in c.req.queues && queue !in c.s.paused
    requires forall id :: id in ids <==> Candidate(c, queue, a, id)
    requires Grouped(a, ids, work) && forall id :: id in ids ==> id in a.jobs && a.jobs[id].env.partitionKey in work
    ensures Covered(c, queue, a, work) && InOrder(c, a.claims, |a.claims|, work)
  {
  }

  // ---- What a pass achieves for its queue, in terms of the whole call ----

  function CountIn(claims: seq<Claim>, queue: string, p: string): nat {
    if claims == [] then 0
    else
      var e := claims[|claims| - 1].env;
      CountIn(claims[..|claims| - 1], queue, p) + if e.queue == queue && e.partitionKey == p then 1 else 0
  }

  ghost predicate Exhausted(c: Call, queue: string, a: Adm) {
    forall id :: InQueue(c, queue, id) ==> Done(c, a, id)
  }

  // A partition two claims behind another has nothing claimable left.
  ghost predicate FairTo(c: Call, queue: string, a: Adm) {
    forall p, q, id ::
      (CountIn(a.claims, queue, p) + 2 <= CountIn(a.claims, queue, q) && InQueue(c, queue, id) && c.s.jobs[id].env.partitionKey == p)
      ==> Done(c, a, id)
  }

  // Within a partition, claims follow the order, and no claimable job was passed over.
  ghost predicate Ordered(c: Call, queue: string, a: Adm) {
    && (forall k, l :: 0 <= k < l < |a.claims| && a.claims[k].env.queue == queue == a.claims[l].env.queue
                       && a.claims[k].env.partitionKey == a.claims[l].env.partitionKey ==>
          JobLe(c.s, a.claims[k].env.id, a.claims[l].env.id))
    && (forall k, id :: 0 <= k < |a.claims| && a.claims[k].env.queue == queue && InQueue(c, queue, id)
                        && c.s.jobs[id].env.partitionKey == a.claims[k].env.partitionKey && !Done(c, a, id) ==>
          JobLe(c.s, a.claims[k].env.id, id))
  }

  ghost predicate Served(c: Call, queue: string, a: Adm) {
    FairTo(c, queue, a) && Ordered(c, queue, a) && (|a.claims| < c.req.capacity ==> Exhausted(c, queue, a))
  }

  lemma {:induction false} CountInSplit(claims: seq<Claim>, base: nat, queue: string, p: string)
    requires base <= |claims|
    requires forall k :: base <= k < |claims| ==> claims[k].env.queue == queue
    requires forall k :: 0 <= k < base ==> claims[k].env.queue != queue
    ensures CountIn(claims, queue, p) == Count(claims, base, p)
    decreases |claims|
  {
    if |claims| > base {
      CountInSplit(claims[..|claims| - 1], base, queue, p);
    } else {
      NoneCounted(claims, queue, p);
    }
  }

  lemma {:induction false} NoneCounted(claims: seq<Claim>, queue: string, p: string)
    requires forall k :: 0 <= k < |claims| ==> claims[k].env.queue != queue
    ensures CountIn(claims, queue, p) == 0
  {
    if claims != [] {
      NoneCounted(claims[..|claims| - 1], queue, p);
    }
  }

  lemma {:induction false} CountElsewhere(claims: seq<Claim>, base: nat, queue: string, p: string)
    requires base <= |claims| && forall k :: base <= k < |claims| ==> claims[k].env.queue != queue
    ensures CountIn(claims, queue, p) == CountIn(claims[..base], queue, p)
    decreases |claims|
  {
    if |claims| > base {
      CountElsewhere(claims[..|claims| - 1], base, queue, p);
      assert claims[..|claims| - 1][..base] == claims[..base];
    } else {
      TakeAll(claims);
    }
  }

  // Serving other queues does not disturb a served one.
  lemma ServedStays(c: Call, queue: string, a: Adm, b: Adm)
    requires Served(c, queue, a) && Later(c.s, c.now, a, b)
    requires forall k :: |a.claims| <= k < |b.claims| ==> b.claims[k].env.queue != queue
    requires |a.claims| >= c.req.capacity ==> |b.claims| >= c.req.capacity
    ensures Served(c, queue, b)
  {
    forall id | InQueue(c, queue, id) && Done(c, a, id)
      ensures Done(c, b, id)
    {
      DoneStays(c, a, b, id);
    }
    forall p
      ensures CountIn(b.claims, queue, p) == CountIn(a.claims, queue, p)
    {
      CountElsewhere(b.claims, |a.claims|, queue, p);
      assert b.claims[..|a.claims|] == a.claims;
    }
    assert forall k :: 0 <= k < |a.claims| ==> b.claims[k] == a.claims[k];
  }

  lemma PassServes(c: Call, queue: string, base: nat, a: Adm, work: Work)
    requires PassRest(c, queue, base, a, work) && Fair(a.claims, base, work)
    requires forall k :: 0 <= k < base ==> a.claims[k].env.queue != queue
    requires |a.claims| < c.req.capacity ==> forall p :: p in work ==> work[p] == []
    ensures Served(c, queue, a)
  {
    forall p | p !in work
      ensures Count(a.claims, base, p) == 0
    {
      NothingCounted(a.claims, base, p);
    }
    forall p, q, id | CountIn(a.claims, queue, p) + 2 <= CountIn(a.claims, queue, q)
                      && InQueue(c, queue, id) && c.s.jobs[id].env.partitionKey == p
      ensures Done(c, a, id)
    {
      CountInSplit(a.claims, base, queue, p);
      CountInSplit(a.claims, base, queue, q);
    }
    PassOrders(c, queue, base, a, work);
  }

  lemma {:induction false} NothingCounted(claims: seq<Claim>, base: nat, p: string)
    requires forall k :: base <= k < |claims| ==> claims[k].env.partitionKey != p
    ensures Count(claims, base, p) == 0
    decreases |claims|
  {
    if |claims| > base {
      NothingCounted(claims[..|claims| - 1], base, p);
    }
  }

  lemma PassOrders(c: Call, queue: string, base: nat, a: Adm, work: Work)
    requires PassRest(c, queue, base, a, work)
    requires forall k :: 0 <= k < base ==> a.claims[k].env.queue != queue
    ensures Ordered(c, queue, a)
  {
  }

  lemma NewClaimsAreOpen(c: Call, a: Adm, b: Adm, k: nat)
    requires Later(c.s, c.now, a, b) && AdmInv(c.s, c.req, c.now, b) && |a.claims| <= k < |b.claims|
    ensures InQueue(c, b.claims[k].env.queue, b.claims[k].env.id) && !Done(c, a, b.claims[k].env.id)
  {
  }

  // A queue that was exhausted before gets nothing more.
  lemma ExhaustedStays(c: Call, queue: string, a: Adm, b: Adm)
    requires Exhausted(c, queue, a) && Later(c.s, c.now, a, b) && AdmInv(c.s, c.req, c.now, b)
    requires forall k :: |a.claims| <= k < |b.claims| ==> b.claims[k].env.queue == queue
    ensures b.claims == a.claims
  {
    assert a.claims <= b.claims;
    if |b.claims| > |a.claims| {
      NewClaimsAreOpen(c, a, b, |a.claims|);
    }
  }

  // ---- The pass and the call ----

  lemma FirstRound(claims: seq<Claim>, work: Work)
    ensures RoundInv(claims, |claims|, work, {}, 0)
  {
  }

  // Rounds until the capacity is used up or a round claims nothing.
  method Rounds(c: Call, queue: string, a0: Adm, work0: Work, rotated: seq<string>) returns (a: Adm, work: Work)
    requires PassInv(c, queue, |a0.claims|, a0, work0) && Distinct(rotated) && Elems(rotated) == work0.Keys
    requires |a0.claims| < c.req.capacity
    ensures PassInv(c, queue, |a0.claims|, a, work) && Later(c.s, c.now, a0, a) && |a.claims| <= c.req.capacity
    ensures Fair(a.claims, |a0.claims|, work) && FirstFrom(c, queue, |a0.claims|, a, rotated)
    ensures |a.claims| < c.req.capacity ==> forall p :: p in work ==> work[p] == []
  {
    a, work := a0, work0;
    ghost var round := 0;
    ghost var base := |a0.claims|;
    FirstRound(a.claims, work);
    RoundIsFair(a.claims, base, work, {}, 0);
    var progressed := true;
    while |a.claims| < c.req.capacity && progressed
      invariant PassInv(c, queue, base, a, work) && Later(c.s, c.now, a0, a) && |a.claims| <= c.req.capacity
      invariant work.Keys == work0.Keys && Fair(a.claims, base, work) && FirstFrom(c, queue, base, a, rotated)
      invariant |a.claims| < c.req.capacity ==> RoundInv(a.claims, base, work, {}, round)
      invariant !progressed ==> forall p :: p in work ==> work[p] == []
      decreases c.req.capacity - |a.claims|, progressed
    {
      ghost var before := a;
      a, work, progressed := Round(c, queue, base, a, work, rotated, round);
      LaterTrans(c.s, c.now, a0, before, a);
      round := round + 1;
    }
  }

  // A queue either comes up for the first time or, named twice, has nothing left to claim.
  ghost predicate Due(c: Call, queue: string, a: Adm) {
    if Exhausted(c, queue, a) then Served(c, queue, a)
    else forall k :: 0 <= k < |a.claims| ==> a.claims[k].env.queue != queue
  }

  // What is true of the call after a queue had its turn.
  ghost predicate Turned(c: Call, queue: string, a: Adm, b: Adm) {
    && AdmInv(c.s, c.req, c.now, b) && Later(c.s, c.now, a, b) && |b.claims| <= c.req.capacity
    && (forall k :: |a.claims| <= k < |b.claims| ==> b.claims[k].env.queue == queue)
    && Served(c, queue, b)
  }

  lemma NoMoreIsServed(c: Call, queue: string, a: Adm, b: Adm)
    requires Exhausted(c, queue, a) && Served(c, queue, a) && Later(c.s, c.now, a, b) && AdmInv(c.s, c.req, c.now, b)
    requires forall k :: |a.claims| <= k < |b.claims| ==> b.claims[k].env.queue == queue
    ensures Served(c, queue, b)
  {
    ExhaustedStays(c, queue, a, b);
    ServedStays(c, queue, a, b);
  }

  lemma OldClaimsAreElsewhere(queue: string, before: seq<Claim>, after: seq<Claim>)
    requires before <= after && forall k :: 0 <= k < |before| ==> before[k].env.queue != queue
    ensures forall k :: 0 <= k < |before| ==> after[k].env.queue != queue
  {
    assert forall k :: 0 <= k < |before| ==> after[k] == before[k];
  }

  lemma TurnServes(c: Call, queue: string, a: Adm, b: Adm, work: Work)
    requires Due(c, queue, a) && PassInv(c, queue, |a.claims|, b, work) && Later(c.s, c.now, a, b)
    requires Fair(b.claims, |a.claims|, work)
    requires |b.claims| < c.req.capacity ==> forall p :: p in work ==> work[p] == []
    ensures Served(c, queue, b)
  {
    if Exhausted(c, queue, a) {
      NoMoreIsServed(c, queue, a, b);
    } else {
      OldClaimsAreElsewhere(queue, a.claims, b.claims);
      PassServes(c, queue, |a.claims|, b, work);
    }
  }

  // The first claim goes to the partition whose turn it is, or to the next one that has a claimable job.
  ghost predicate StartsAt(c: Call, queue: string, a0: Adm, a: Adm, turn: nat) {
    exists parts :: |parts| > 0 && StartsIn(c, queue, a0, a, turn, parts)
  }

  ghost predicate StartsIn(c: Call, queue: string, a0: Adm, a: Adm, turn: nat, parts: seq<string>)
    requires |parts| > 0
  {
    PartitionsOf(c, queue, a0, parts) && FirstFrom(c, queue, |a0.claims|, a, Rotated(parts, turn % |parts|))
  }

  lemma StartIs(c: Call, queue: string, a0: Adm, a: Adm, turn: nat, parts: seq<string>)
    requires |parts| > 0 && PartitionsOf(c, queue, a0, parts)
    requires FirstFrom(c, queue, |a0.claims|, a, Rotated(parts, turn % |parts|))
    ensures StartsAt(c, queue, a0, a, turn)
  {
  }

  method ServeParts(c: Call, queue: string, a0: Adm, work0: Work, parts: seq<string>, start: nat) returns (a: Adm)
    requires PassInv(c, queue, |a0.claims|, a0, work0) && Distinct(parts) && Elems(parts) == work0.Keys
    requires |a0.claims| < c.req.capacity && start < |parts| && Due(c, queue, a0)
    ensures Turned(c, queue, a0, a) && FirstFrom(c, queue, |a0.claims|, a, Rotated(parts, start))
  {
    RotatedParts(parts, start);
    var work;
    a, work := Rounds(c, queue, a0, work0, Rotated(parts, start));
    TurnServes(c, queue, a0, a, work);
  }

  lemma NothingToServe(c: Call, queue: string, a: Adm, work: Work)
    requires PassInv(c, queue, |a.claims|, a, work) && work.Keys == {} && Due(c, queue, a)
    requires |a.claims| <= c.req.capacity
    ensures Turned(c, queue, a, a)
  {
  }

  // One requested queue, starting from the partition whose turn it is.
  method Pass(c: Call, queue: string, a0: Adm, turn: nat) returns (a: Adm, found: bool)
    requires AdmInv(c.s, c.req, c.now, a0) && queue in c.req.queues && queue !in c.s.paused
    requires |a0.claims| < c.req.capacity && Due(c, queue, a0)
    ensures Turned(c, queue, a0, a)
    ensures found <==> Waiting(c, queue, a0)
    ensures !found ==> a.claims == a0.claims
    ensures found ==> StartsAt(c, queue, a0, a, turn)
  {
    var parts, work := Collect(c, queue, a0);
    found := |parts| > 0;
    if !found {
      NothingToServe(c, queue, a0, work);
      return a0, found;
    }
    a := ServeParts(c, queue, a0, work, parts, turn % |parts|);
    StartIs(c, queue, a0, a, turn, parts);
  }
}
