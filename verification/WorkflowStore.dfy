// The store as the workflow coordinator meets it: calls may be lost, and others act in between
// (go/headgateworkflow/coordinator.go, evaluation.go).
module WorkflowStore {
  import opened Common
  import opened WorkflowGraph
  import opened WorkflowTick
  import opened WorkflowWorld

  // A store call may get lost, or take effect and still be reported as failed. A crash of the
  // coordinator is the same to the store: the calls after it are not made.
  datatype Fate = Answered | Lost | Unacknowledged

  // What happens at one store call: first the outside world acts, then the call meets its fate.
  datatype Turn = Turn(env: seq<EnvAction>, fate: Fate)

  // A cursor write, or one that accepts a receipt: as it was read, and for a retry with the jobs listed.
  datatype Write = Plain | Take(id: JobId, payload: Payload, listed: seq<JobId>)

  ghost predicate Held(c: Config, s: World, t: World) {
    Inv(c, t) && Grows(s, t) && t.cursor == s.cursor && t.accepted == s.accepted && t.dormant <= s.dormant
  }

  // Nothing the coordinator relies on between its own writes has changed: no receipt left pending either.
  ghost predicate Kept(c: Config, s: World, t: World) {
    Held(c, s, t) && forall id: JobId :: !id.NodeJob? && LeftPendingId(t, id) ==> LeftPendingId(s, id)
  }

  lemma KeptTrans(c: Config, s: World, t: World, u: World)
    requires Kept(c, s, t) && Kept(c, t, u)
    ensures Kept(c, s, u)
  {
  }

  ghost predicate AllKept(c: Config, s: World, seen: seq<World>) {
    forall t :: t in seen ==> Kept(c, s, t)
  }

  lemma EnvKeeps(c: Config, s: World, t: World, a: EnvAction)
    requires Kept(c, s, t) && Enabled(c, t, a)
    ensures Kept(c, s, Outcome(t, a))
  {
    EnvKeepsInv(c, t, a);
    assert Kept(c, t, Outcome(t, a));
    KeptTrans(c, s, t, Outcome(t, a));
  }

  lemma ReceiptKept(c: Config, s: World, t: World, p: Payload)
    requires Kept(c, s, t) && t.cursor.autoRetry && p.RetryArgs?
    ensures Kept(c, s, AddRetryReceipt(t, RetryReceipt(Normalize(t.cursor).revision + 1), p))
  {
    AutoRetryKeepsInv(c, t, p);
  }

  lemma ReleaseKept(c: Config, s: World, t: World, n: NodeSpec, to: JobState, due: Option<int>)
    requires Kept(c, s, t) && n in EffectiveWorkflow(c, s.cursor).nodes && NodeJob(n.jobId) in t.jobs
    requires DependenciesCompleted(n, s.cursor.completed)
    ensures Kept(c, s, Release(t, n, to, due)) && ReleasedAs(Release(t, n, to, due), n, to, due)
  {
    ReleaseKeepsInv(c, t, n, to, due);
    assert Kept(c, t, Release(t, n, to, due));
    KeptTrans(c, s, t, Release(t, n, to, due));
  }

  lemma PromotionHeld(c: Config, s: World, t: World, id: JobId)
    requires Kept(c, s, t) && id in t.jobs && !id.NodeJob?
    requires id.RetryReceipt? && t.cursor.pendingRetry == Some(id.revision) ==> t.dormant == {}
    ensures Held(c, s, PromoteReceipt(t, id))
  {
    PromoteReceiptKeepsInv(c, t, id);
  }

  // Which cursor writes the protocol makes.
  ghost predicate Allowed(c: Config, s: World, cur: Cursor, write: Write) {
    match write
    case Plain => PlainWrite(c, s.cursor, cur)
    case Take(id, p, listed) =>
      Legitimate(c, s.submitted, Normalize(s.cursor).revision, id, p)
      && if p.GraftArgs? then AllowedGraft(c, s, cur, p.nodes) else AllowedRetry(c, s, cur, id, listed)
  }

  ghost predicate AllowedGraft(c: Config, s: World, cur: Cursor, nodes: seq<NodeSpec>) {
    && cur == WithGraft(s.cursor, nodes) && !s.cursor.failed
    && ValidGraph(EffectiveWorkflow(c, s.cursor).(nodes := EffectiveWorkflow(c, s.cursor).nodes + nodes), c.compiles)
  }

  ghost predicate AllowedRetry(c: Config, s: World, cur: Cursor, id: JobId, listed: seq<JobId>) {
    && cur == WithRetry(s.cursor) && s.cursor.failed && !s.cursor.autoRetry && !LeftPendingId(s, id)
    && (forall x :: x in listed ==> exists n :: n in EffectiveWorkflow(c, s.cursor).nodes && x == NodeJob(n.jobId))
    && (c.automaticOnly && c.base.retryPolicy.Some? ==>
          Normalize(s.cursor).generation < c.base.retryPolicy.value.maxGenerations)
  }

  // Where each call can go through.
  predicate IsPending(s: World, id: JobId) {
    id in s.jobs && s.jobs[id].state == Pending
  }

  predicate Removable(s: World, id: JobId) {
    id in s.jobs && s.jobs[id].state != Running
  }

  predicate Reopenable(s: World, id: JobId) {
    id in s.jobs && s.jobs[id].state in {Archived, Cancelled, Undecodable}
  }

  // The job of the node is in this state, scheduled for that time, and on record as released.
  ghost predicate ReleasedAs(s: World, n: NodeSpec, to: JobState, due: Option<int>) {
    && NodeJob(n.jobId) in s.jobs && s.jobs[NodeJob(n.jobId)].state == to && s.jobs[NodeJob(n.jobId)].dueAtMs == due
    && n.name in s.released
  }

  // The store as the coordinator sees it. script fixes an arbitrary interleaving in advance.
  class Store {
    const c: Config
    var s: World
    var script: seq<Turn>
    // How many calls were not answered, and before how many somebody else acted.
    ghost var lost: nat
    ghost var stirred: nat

    constructor (c: Config, s: World, script: seq<Turn>)
      requires Initial(c, s)
      ensures this.c == c && this.s == s && this.script == script && Inv(c, s)
    {
      this.c, this.s, this.script := c, s, script;
      lost, stirred := 0, 0;
      new;
      InitialIsInv(c, s);
    }

    twostate predicate Later()
      reads this
    {
      lost >= old(lost) && stirred >= old(stirred)
    }

    // Every call since was answered.
    twostate predicate Heard()
      reads this
    {
      lost == old(lost)
    }

    // And nobody else acted.
    twostate predicate Alone()
      reads this
    {
      lost == old(lost) && stirred == old(stirred)
    }

    // Lets the outside world act as scripted and reports the fate of the call.
    method Elapse() returns (fate: Fate)
      requires Inv(c, s)
      modifies this
      ensures Kept(c, old(s), s)
      ensures Later() && (fate == Answered <==> Heard()) && (Alone() ==> s == old(s))
    {
      if |script| == 0 {
        return Answered;
      }
      var turn := script[0];
      script := script[1..];
      if turn.fate != Answered {
        lost := lost + 1;
      }
      if |turn.env| > 0 {
        stirred := stirred + 1;
      }
      ghost var calls, acts := lost, stirred;
      for i := 0 to |turn.env|
        invariant Kept(c, old(s), s) && lost == calls && stirred == acts
        invariant i == 0 ==> s == old(s)
      {
        if Enabled(c, s, turn.env[i]) {
          EnvKeeps(c, old(s), s, turn.env[i]);
          s := Outcome(s, turn.env[i]);
        }
      }
      return turn.fate;
    }

    method GetJob(id: JobId) returns (job: Option<Job>, err: bool)
      requires Inv(c, s)
      modifies this
      ensures Kept(c, old(s), s)
      ensures Later() && (err <==> !Heard()) && (Alone() ==> s == old(s))
      ensures !err ==> job == if id in s.jobs then Some(s.jobs[id]) else None
    {
      var fate := Elapse();
      if fate != Answered {
        return None, true;
      }
      return if id in s.jobs then Some(s.jobs[id]) else None, false;
    }

    // Releases a pending node job; anything else is refused.
    method ReleaseJob(n: NodeSpec, to: JobState, due: Option<int>) returns (err: bool)
      requires Inv(c, s) && n in EffectiveWorkflow(c, s.cursor).nodes
      requires DependenciesCompleted(n, s.cursor.completed) && to != Pending
      modifies this
      ensures Kept(c, old(s), s)
      ensures !err ==> ReleasedAs(s, n, to, due)
      ensures Later() && (err && Heard() ==> !IsPending(s, NodeJob(n.jobId)))
      ensures Alone() ==> err == !IsPending(old(s), NodeJob(n.jobId)) && s == if err then old(s) else Release(old(s), n, to, due)
    {
      var fate := Elapse();
      var id := NodeJob(n.jobId);
      if fate == Lost || !IsPending(s, id) {
        return true;
      }
      ReleaseKept(c, old(s), s, n, to, due);
      s := Release(s, n, to, due);
      return fate != Answered;
    }

    // The receipt of an accepted retry is promoted only when no job listed for it is dormant.
    method PromoteReceiptJob(id: JobId) returns (err: bool)
      requires Inv(c, s) && !id.NodeJob?
      requires id.RetryReceipt? && s.cursor.pendingRetry == Some(id.revision) ==> s.dormant == {}
      modifies this
      ensures Held(c, old(s), s)
      ensures !err ==> id in s.jobs && s.jobs[id].state == Available
      ensures Later() && (err && Heard() ==> !IsPending(s, id))
      ensures Alone() ==> err == !IsPending(old(s), id) && s == if err then old(s) else PromoteReceipt(old(s), id)
    {
      var fate := Elapse();
      if fate == Lost || !IsPending(s, id) {
        return true;
      }
      PromotionHeld(c, old(s), s, id);
      s := PromoteReceipt(s, id);
      return fate != Answered;
    }

    method DeleteJob(id: JobId) returns (err: bool)
      requires Inv(c, s)
      modifies this
      ensures Kept(c, old(s), s)
      ensures !err ==> id !in s.jobs
      ensures Later() && (err && Heard() ==> !Removable(s, id))
      ensures Alone() ==> err == !Removable(old(s), id) && s == if err then old(s) else WithoutJob(old(s), id)
    {
      var fate := Elapse();
      if fate == Lost || !Removable(s, id) {
        return true;
      }
      EnvKeeps(c, old(s), s, Remove(id));
      s := WithoutJob(s, id);
      return fate != Answered;
    }

    // operator_retry: a job that stopped for good becomes available again.
    method OperatorRetry(id: JobId) returns (err: bool)
      requires Inv(c, s)
      modifies this
      ensures Kept(c, old(s), s)
      ensures !err ==> id in s.jobs && s.jobs[id].state == Available
      ensures Later() && (err && Heard() ==> !Reopenable(s, id))
      ensures Alone() ==> err == !Reopenable(old(s), id) && s == if err then old(s) else Reopened(old(s), id)
    {
      var fate := Elapse();
      if fate == Lost || !Reopenable(s, id) {
        return true;
      }
      EnvKeeps(c, old(s), s, Work(id, Available, None));
      s := Reopened(s, id);
      return fate != Answered;
    }

    // Enqueueing the automatic retry receipt: an identical receipt that is already there is a success.
    method EnqueueRetry(p: Payload) returns (err: bool)
      requires Inv(c, s) && s.cursor.autoRetry && p.RetryArgs?
      modifies this
      ensures Kept(c, old(s), s)
      ensures !err ==> var id := RetryReceipt(Normalize(s.cursor).revision + 1); id in s.jobs && s.jobs[id].payload == p && (id, p) in s.submitted
      ensures Later()
      ensures var id := RetryReceipt(Normalize(old(s).cursor).revision + 1);
              && (err && Heard() ==> id in s.jobs && s.jobs[id].payload != p)
              && (Alone() && err ==> s == old(s)) && (Alone() && !err ==> s == AddRetryReceipt(old(s), id, p))
    {
      var fate := Elapse();
      var id := RetryReceipt(Normalize(s.cursor).revision + 1);
      if fate == Lost || (id in s.jobs && s.jobs[id].payload != p) {
        return true;
      }
      ReceiptKept(c, old(s), s, p);
      s := AddRetryReceipt(s, id, p);
      return fate != Answered;
    }

    // The fenced cursor write. Accepting a receipt is one such write and nothing else.
    method SetCursor(cur: Cursor, write: Write) returns (err: bool)
      requires Inv(c, s) && Allowed(c, s, cur, write)
      modifies this
      ensures Inv(c, s) && Grows(old(s), s)
      ensures s.cursor == cur || (err && s.cursor == old(s.cursor))
      ensures !err ==> s.cursor == cur
      ensures s.accepted == old(s.accepted) || (write.Take? && s.accepted == old(s.accepted) + [Entry(write)])
      ensures !err && write.Take? ==> s.accepted == old(s.accepted) + [Entry(write)] && s.dormant <= Dormant(write, old(s.dormant))
      ensures write == Plain ==> s.dormant <= old(s.dormant)
      ensures Later() && (err <==> !Heard()) && (Alone() ==> s.jobs == old(s.jobs))
    {
      var fate := Elapse();
      if fate == Lost {
        return true;
      }
      match write {
        case Plain =>
          PlainWriteKeepsInv(c, s, cur);
          s := s.(cursor := cur);
        case Take(id, p, listed) =>
          if p.GraftArgs? {
            AcceptGraftKeepsInv(c, s, id, p);
            s := AcceptGraft(s, id, p);
          } else {
            AcceptRetryKeepsInv(c, s, id, p, listed);
            s := AcceptRetry(s, id, p, listed);
          }
      }
      return fate != Answered;
    }

    // Cursor and operator-visible output are two calls; only the first carries the protocol.
    method Persist(cur: Cursor, write: Write) returns (err: bool)
      requires Inv(c, s) && Allowed(c, s, cur, write)
      modifies this
      ensures Inv(c, s) && Grows(old(s), s)
      ensures !err ==> s.cursor == cur
      ensures s.accepted == old(s.accepted) || (write.Take? && s.accepted == old(s.accepted) + [Entry(write)])
      ensures !err && write.Take? ==> s.accepted == old(s.accepted) + [Entry(write)] && s.dormant <= Dormant(write, old(s.dormant))
      ensures write == Plain ==> s.dormant <= old(s.dormant)
      ensures Later() && (err <==> !Heard()) && (Alone() ==> s.jobs == old(s.jobs))
    {
      err := SetCursor(cur, write);
      if !err {
        var fate := Elapse();
        err := fate != Answered;
      }
    }
  }

  function Reopened(s: World, id: JobId): World
    requires id in s.jobs
  {
    WithJob(s, id, s.jobs[id].(state := Available, finalizedAtMs := None))
  }

  function Entry(write: Write): Acceptance
    requires write.Take?
  {
    Acceptance(write.id, write.payload, if write.payload.GraftArgs? then [] else write.listed)
  }

  // A retry puts the jobs it listed to sleep, a graft leaves those of the last retry alone.
  ghost function Dormant(write: Write, before: set<JobId>): set<JobId>
    requires write.Take?
  {
    if write.payload.GraftArgs? then before else Elems(write.listed)
  }
}
