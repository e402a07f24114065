// The whole admission call over the requested queues (go/headgatetest/memstore.go).
module AdmissionCall {
  import opened Common
  import opened StoreModel
  import opened Admission
  import opened AdmissionPass

  type Turns = map<string, nat>

  function TurnOf(rr: Turns, queue: string): nat {
    if queue in rr then rr[queue] else 0
  }

  // What was set aside is spent when the call ends.
  function Spend(rate: map<string, Bucket>, spent: map<string, int>): map<string, Bucket> {
    map cls | cls in rate :: rate[cls].(tokens := rate[cls].tokens - SpentOn(spent, cls))
  }

  ghost predicate QueuesServed(c: Call, a: Adm, queues: seq<string>) {
    forall j :: 0 <= j < |queues| && queues[j] !in c.s.paused ==> Served(c, queues[j], a)
  }

  // A queue that got a claim starts from the next partition another time; queues not asked for keep their place.
  ghost predicate TurnsOk(before: Turns, queues: seq<string>, claims: seq<Claim>, after: Turns) {
    && (forall k :: 0 <= k < |claims| ==> TurnOf(after, claims[k].env.queue) > TurnOf(before, claims[k].env.queue))
    && (forall q :: TurnOf(after, q) >= TurnOf(before, q))
    && (forall q :: q !in Elems(queues) ==> TurnOf(after, q) == TurnOf(before, q))
  }

  // What a successful call has done to the store.
  ghost predicate Admitted(c: Call, a: Adm, t: MemState) {
    && AdmInv(c.s, c.req, c.now, a)
    && |a.claims| <= (if c.req.capacity < 0 then 0 else c.req.capacity)
    && QueuesServed(c, a, c.req.queues)
    && TurnsOk(c.s.rr, c.req.queues, a.claims, t.rr)
    && t == c.s.(jobs := a.jobs, rate := Spend(a.rate, a.spent), rr := t.rr)
  }

  // ---- Before and after a queue's turn ----

  ghost predicate ClaimsFrom(claims: seq<Claim>, queues: seq<string>) {
    forall k :: 0 <= k < |claims| ==> claims[k].env.queue in Elems(queues)
  }

  lemma FreshServed(c: Call, queue: string, a: Adm)
    requires forall k :: 0 <= k < |a.claims| ==> a.claims[k].env.queue != queue
    requires |a.claims| >= c.req.capacity || Exhausted(c, queue, a)
    ensures Served(c, queue, a)
  {
    forall p
      ensures CountIn(a.claims, queue, p) == 0
    {
      NoneCounted(a.claims, queue, p);
    }
  }

  lemma NextIsDue(c: Call, a: Adm, done: seq<string>, queue: string)
    requires QueuesServed(c, a, done) && ClaimsFrom(a.claims, done) && queue !in c.s.paused
    ensures if |a.claims| < c.req.capacity then Due(c, queue, a) else Served(c, queue, a)
  {
    if queue in Elems(done) {
      var j :| 0 <= j < |done| && done[j] == queue;
      assert Served(c, done[j], a);
    } else if |a.claims| >= c.req.capacity || Exhausted(c, queue, a) {
      FreshServed(c, queue, a);
    }
  }

  lemma TurnKeeps(c: Call, a: Adm, b: Adm, done: seq<string>, queue: string)
    requires QueuesServed(c, a, done) && ClaimsFrom(a.claims, done) && Turned(c, queue, a, b)
    requires |a.claims| < c.req.capacity
    ensures QueuesServed(c, b, done + [queue]) && ClaimsFrom(b.claims, done + [queue])
  {
    var more := done + [queue];
    forall j | 0 <= j < |more| && more[j] !in c.s.paused
      ensures Served(c, more[j], b)
    {
      if more[j] != queue {
        ServedStays(c, more[j], a, b);
      }
    }
    forall k | 0 <= k < |b.claims|
      ensures b.claims[k].env.queue in Elems(more)
    {
      assert k < |a.claims| ==> b.claims[k] == a.claims[k];
      assert more[|done|] == queue;
      if k < |a.claims| {
        var j :| 0 <= j < |done| && done[j] == a.claims[k].env.queue;
        assert more[j] == b.claims[k].env.queue;
      }
    }
  }

  lemma SkipKeeps(c: Call, a: Adm, done: seq<string>, queue: string)
    requires QueuesServed(c, a, done) && ClaimsFrom(a.claims, done)
    requires queue in c.s.paused || |a.claims| >= c.req.capacity
    ensures QueuesServed(c, a, done + [queue]) && ClaimsFrom(a.claims, done + [queue])
  {
    if queue !in c.s.paused {
      NextIsDue(c, a, done, queue);
    }
    var more := done + [queue];
    forall k | 0 <= k < |a.claims|
      ensures a.claims[k].env.queue in Elems(more)
    {
      var j :| 0 <= j < |done| && done[j] == a.claims[k].env.queue;
      assert more[j] == a.claims[k].env.queue;
    }
  }

  function Advance(rr: Turns, queue: string, found: bool): Turns {
    if found then rr[queue := TurnOf(rr, queue) + 1] else rr
  }

  lemma AdvanceKeeps(before: Turns, done: seq<string>, claims: seq<Claim>, rr: Turns, queue: string, more: seq<Claim>, found: bool)
    requires TurnsOk(before, done, claims, rr) && claims <= more
    requires forall k :: |claims| <= k < |more| ==> more[k].env.queue == queue
    requires !found ==> more == claims
    ensures TurnsOk(before, done + [queue], more, Advance(rr, queue, found))
  {
  }

  lemma StartOk(c: Call, a: Adm)
    requires RecordsOk(c.s) && a == Adm(c.s.jobs, c.s.rate, map[], [])
    ensures AdmInv(c.s, c.req, c.now, a)
  {
  }

  ghost predicate CallInv(c: Call, a: Adm, done: seq<string>, rr: Turns) {
    && AdmInv(c.s, c.req, c.now, a)
    && |a.claims| <= (if c.req.capacity < 0 then 0 else c.req.capacity)
    && QueuesServed(c, a, done) && ClaimsFrom(a.claims, done)
    && TurnsOk(c.s.rr, done, a.claims, rr)
  }

  method ServeQueue(c: Call, queue: string, a0: Adm, rr0: Turns, ghost done: seq<string>) returns (a: Adm, rr: Turns)
    requires CallInv(c, a0, done, rr0) && queue in c.req.queues
    ensures CallInv(c, a, done + [queue], rr)
  {
    if |a0.claims| >= c.req.capacity || queue in c.s.paused {
      SkipKeeps(c, a0, done, queue);
      AdvanceKeeps(c.s.rr, done, a0.claims, rr0, queue, a0.claims, false);
      return a0, rr0;
    }
    NextIsDue(c, a0, done, queue);
    var found;
    a, found := Pass(c, queue, a0, TurnOf(rr0, queue));
    TurnKeeps(c, a0, a, done, queue);
    AdvanceKeeps(c.s.rr, done, a0.claims, rr0, queue, a.claims, found);
    rr := Advance(rr0, queue, found);
  }

  method Admit(c: Call) returns (a: Adm, t: MemState, ok: bool)
    requires RecordsOk(c.s)
    ensures ok <==> c.req.leaseMs > 0
    ensures if ok then Admitted(c, a, t) else t == c.s && a.claims == []
  {
    a := Adm(c.s.jobs, c.s.rate, map[], []);
    if c.req.leaseMs <= 0 {
      return a, c.s, false;
    }
    var rr := c.s.rr;
    StartOk(c, a);
    for i := 0 to |c.req.queues|
      invariant CallInv(c, a, c.req.queues[..i], rr)
    {
      TakeSnoc(c.req.queues, i);
      a, rr := ServeQueue(c, c.req.queues[i], a, rr, c.req.queues[..i]);
    }
    TakeAll(c.req.queues);
    t := c.s.(jobs := a.jobs, rate := Spend(a.rate, a.spent), rr := rr);
    ok := true;
  }
}
