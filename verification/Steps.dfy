// Step replay on top of the fenced checkpoint (go/steps.go).
module Steps {
  import opened Common
  import opened StoreModel
  import opened Admission
  import opened StoreOps

  // What one attempt keeps in memory.
  datatype Local = Local(
    lease: LeaseRef, completed: seq<string>, position: nat, executed: set<string>, inProgress: string,
    cursorStep: string, cursor: Bytes, crashes: map<string, nat>, canceled: bool)

  function FromClaim(c: Claim): Local {
    Local(LeaseRef(c.env.id, c.leaseId, c.fence), c.checkpoint.completedSteps, 0, {}, "",
          c.checkpoint.cursorStep, c.checkpoint.cursor, c.checkpoint.crashesByStep, false)
  }

  function Snapshot(l: Local): Checkpoint {
    Checkpoint(l.completed, l.inProgress, l.cursorStep, l.cursor, l.crashes)
  }

  datatype Entry = Lost | Twice | Skipped | Stale(expected: string) | Proceed(cp: Checkpoint)

  function Entered(l: Local, name: string, isCursor: bool): (Local, Entry) {
    if l.canceled then (l, Lost)
    else if name in l.executed then (l, Twice)
    else
      var m := l.(executed := l.executed + {name});
      if l.position < |l.completed| then
        if l.completed[l.position] == name then (m.(position := l.position + 1), Skipped)
        else (m, Stale(l.completed[l.position]))
      else
        var n := m.(inProgress := name,
                    cursor := if isCursor && l.cursorStep != name then [] else l.cursor,
                    cursorStep := if isCursor then name else l.cursorStep);
        (n, Proceed(Snapshot(n)))
  }

  function Finished(l: Local, name: string, isCursor: bool): Local {
    var m := l.(completed := l.completed + [name], position := |l.completed| + 1, inProgress := "");
    if isCursor then m.(cursorStep := "", cursor := []) else m
  }

  function WithCursor(l: Local, bytes: Bytes): Local {
    l.(cursor := bytes)
  }

  // The attempt's state as the handler's goroutine updates it.
  class StepState {
    const lease: LeaseRef
    var completed: seq<string>
    var position: nat
    var executed: set<string>
    var inProgress: string
    var cursorStep: string
    var cursor: Bytes
    const crashes: map<string, nat>
    var canceled: bool

    function View(): Local
      reads this
    {
      Local(lease, completed, position, executed, inProgress, cursorStep, cursor, crashes, canceled)
    }

    constructor (c: Claim)
      ensures View() == FromClaim(c)
    {
      lease := LeaseRef(c.env.id, c.leaseId, c.fence);
      completed, position, executed, inProgress := c.checkpoint.completedSteps, 0, {}, "";
      cursorStep, cursor, crashes := c.checkpoint.cursorStep, c.checkpoint.cursor, c.checkpoint.crashesByStep;
      canceled := false;
    }

    method Enter(name: string, isCursor: bool) returns (e: Entry)
      modifies this
      ensures (View(), e) == Entered(old(View()), name, isCursor)
    {
      if canceled {
        return Lost;
      }
      if name in executed {
        return Twice;
      }
      executed := executed + {name};
      if position < |completed| {
        var expected := completed[position];
        if expected == name {
          position := position + 1;
          return Entry.Skipped;
        }
        return Stale(expected);
      }
      inProgress := name;
      if isCursor {
        if cursorStep != name {
          cursor := [];
        }
        cursorStep := name;
      }
      return Proceed(Snapshot(View()));
    }

    method Complete(name: string, isCursor: bool) returns (cp: Checkpoint)
      modifies this
      ensures View() == Finished(old(View()), name, isCursor) && cp == Snapshot(View())
    {
      completed := completed + [name];
      position := |completed|;
      inProgress := "";
      if isCursor {
        cursorStep, cursor := "", [];
      }
      cp := Snapshot(View());
    }

    method SetCursor(bytes: Bytes) returns (cp: Checkpoint)
      modifies this`cursor
      ensures View() == WithCursor(old(View()), bytes) && cp == Snapshot(View())
    {
      cursor := bytes;
      cp := Snapshot(View());
    }
  }

  // ---- Many attempts, one record ----

  // Where an attempt stands. Working means that the step's function has been started.
  datatype Phase =
    | Idle
    | Entering(name: string, isCursor: bool, cp: Checkpoint)
    | Working(name: string, isCursor: bool)
    | Noting(step: Option<(string, bool)>, cp: Checkpoint)
    | Saving(cp: Checkpoint)

  datatype Attempt = Attempt(local: Local, phase: Phase)

  // The store, the attempts on one job by fence, and the steps whose function has returned without error.
  datatype World = World(store: MemState, id: string, attempts: map<nat, Attempt>, returned: set<string>)

  // What became of a checkpoint write: answered, applied without an answer, or never applied.
  datatype Fate = Answered | Unanswered | Dropped

  datatype Action =
    | StoreAction(now: int, op: Op)
    | Begin(fence: nat, name: string, isCursor: bool)
    | Persist(fence: nat, now: int, fate: Fate)
    | GiveUp(fence: nat)
    | Note(fence: nat, bytes: Bytes)
    | Return(fence: nat, failed: bool)

  ghost predicate ClaimIn(op: Op, id: string, k: nat) {
    op.AdmitOp? && op.req.leaseMs > 0 && k < |op.adm.claims| && op.adm.claims[k].env.id == id
  }

  // An admission that claims the job starts a new attempt; no other store operation touches the attempts.
  ghost predicate AttemptsAfter(w: World, op: Op, attempts: map<nat, Attempt>) {
    if exists k: nat :: ClaimIn(op, w.id, k) then
      exists k: nat :: ClaimIn(op, w.id, k)
                  && attempts == w.attempts[op.adm.claims[k].fence := Attempt(FromClaim(op.adm.claims[k]), Idle)]
    else attempts == w.attempts
  }

  function Pending(p: Phase): Option<Checkpoint> {
    match p
    case Entering(_, _, cp) => Some(cp)
    case Noting(_, cp) => Some(cp)
    case Saving(cp) => Some(cp)
    case _ => None
  }

  // Where the attempt goes once its write is over.
  function Afterwards(p: Phase, ok: bool): Phase {
    match p
    case Entering(name, isCursor, _) => if ok then Working(name, isCursor) else Idle
    case Noting(step, _) => if step.Some? then Working(step.value.0, step.value.1) else Idle
    case _ => Idle
  }

  function Persisted(a: Attempt, held: bool, fate: Fate): Attempt {
    Attempt(if fate == Answered && !held then a.local.(canceled := true) else a.local,
            Afterwards(a.phase, fate == Answered && held))
  }

  ghost predicate Next(w: World, act: Action, v: World) {
    match act
    case StoreAction(now, op) =>
      && !(op.CheckpointOp? && op.lease.jobId == w.id)
      && StoreOps.Step(w.store, now, op, v.store)
      && AttemptsAfter(w, op, v.attempts) && v == w.(store := v.store, attempts := v.attempts)
    case Begin(f, name, isCursor) =>
      && f in w.attempts && w.attempts[f].phase == Idle
      && var r := Entered(w.attempts[f].local, name, isCursor);
         v == w.(attempts := w.attempts[f := Attempt(r.0, if r.1.Proceed? then Entering(name, isCursor, r.1.cp) else Idle)])
    case Persist(f, now, fate) =>
      && f in w.attempts && Pending(w.attempts[f].phase).Some?
      && var a := w.attempts[f];
         && (if fate == Dropped then v.store == w.store
             else StoreOps.Step(w.store, now, CheckpointOp(a.local.lease, Pending(a.phase).value), v.store))
         && v == w.(store := v.store, attempts := w.attempts[f := Persisted(a, Current(w.store, a.local.lease), fate)])
    case GiveUp(f) =>
      && f in w.attempts && w.attempts[f].phase.Entering?
      && v == w.(attempts := w.attempts[f := w.attempts[f].(phase := Idle)])
    case Note(f, bytes) =>
      && f in w.attempts && (w.attempts[f].phase == Idle || w.attempts[f].phase.Working?)
      && var p, l := w.attempts[f].phase, WithCursor(w.attempts[f].local, bytes);
         v == w.(attempts := w.attempts[f := Attempt(l,
                   Noting(if p.Working? then Some((p.name, p.isCursor)) else None, Snapshot(l)))])
    case Return(f, failed) =>
      && f in w.attempts && w.attempts[f].phase.Working?
      && var p, l := w.attempts[f].phase, w.attempts[f].local;
         if failed then v == w.(attempts := w.attempts[f := Attempt(l, Idle)])
         else
           var done := Finished(l, p.name, p.isCursor);
           v == w.(attempts := w.attempts[f := Attempt(done, Saving(Snapshot(done)))], returned := w.returned + {p.name})
  }

  // ---- What holds throughout ----

  // The step under way is new to this attempt, and everything before it is settled.
  ghost predicate OnStep(l: Local, name: string) {
    l.position == |l.completed| && name !in l.completed && name in l.executed && l.inProgress == name
  }

  ghost predicate PhaseOk(l: Local, p: Phase) {
    match p
    case Idle => true
    case Entering(name, _, cp) => OnStep(l, name) && cp == Snapshot(l)
    case Working(name, _) => OnStep(l, name)
    case Noting(step, cp) => cp == Snapshot(l) && (step.Some? ==> OnStep(l, step.value.0))
    case Saving(cp) => cp == Snapshot(l)
  }

  ghost predicate LocalOk(l: Local, returned: set<string>) {
    && l.position <= |l.completed| && Distinct(l.completed)
    && (forall k :: 0 <= k < l.position ==> l.completed[k] in l.executed)
    && (forall x :: x in l.completed ==> x in returned)
  }

  // The step whose function is running, if any.
  function Active(p: Phase): Option<string> {
    match p
    case Working(name, _) => Some(name)
    case Noting(step, _) => if step.Some? then Some(step.value.0) else None
    case _ => None
  }

  // While the attempt holds the job, the record lags behind its memory and names the running step.
  ghost predicate HeldOk(w: World, a: Attempt)
    requires w.id in w.store.jobs
  {
    Current(w.store, a.local.lease) ==>
      && w.store.jobs[w.id].checkpoint.completedSteps <= a.local.completed
      && (Active(a.phase).Some? ==> w.store.jobs[w.id].checkpoint.inProgressStep == Active(a.phase).value)
  }

  ghost predicate AttemptOk(w: World, f: nat, a: Attempt)
    requires w.id in w.store.jobs
  {
    && a.local.lease.jobId == w.id && a.local.lease.fence == f <= w.store.jobs[w.id].fence
    && LocalOk(a.local, w.returned) && PhaseOk(a.local, a.phase) && HeldOk(w, a)
  }

  ghost predicate Durable(w: World)
    requires w.id in w.store.jobs
  {
    var steps := w.store.jobs[w.id].checkpoint.completedSteps;
    Distinct(steps) && forall x :: x in steps ==> x in w.returned
  }

  ghost predicate Inv(w: World) {
    && RecordsOk(w.store) && w.id in w.store.jobs && Durable(w)
    && forall f :: f in w.attempts ==> AttemptOk(w, f, w.attempts[f])
  }

  function StepsOf(w: World): seq<string>
    requires w.id in w.store.jobs
  {
    w.store.jobs[w.id].checkpoint.completedSteps
  }

  // ---- Each action ----

  // A step that may run is not in the list it is replayed against.
  lemma EnterKeeps(l: Local, name: string, isCursor: bool, returned: set<string>)
    requires LocalOk(l, returned)
    ensures var r := Entered(l, name, isCursor);
            && LocalOk(r.0, returned) && r.0.lease == l.lease && r.0.completed == l.completed
            && (r.1.Proceed? ==> OnStep(r.0, name) && r.1.cp == Snapshot(r.0))
  {
  }

  lemma FinishKeeps(l: Local, name: string, isCursor: bool, returned: set<string>)
    requires LocalOk(l, returned) && OnStep(l, name)
    ensures LocalOk(Finished(l, name, isCursor), returned + {name})
    ensures l.completed <= Finished(l, name, isCursor).completed
  {
  }

  lemma LocalMoveKeeps(w: World, v: World, f: nat)
    requires Inv(w) && f in w.attempts && v.store == w.store && v.id == w.id && w.returned <= v.returned
    requires v.attempts.Keys == w.attempts.Keys && forall g :: g in w.attempts && g != f ==> v.attempts[g] == w.attempts[g]
    requires AttemptOk(v, f, v.attempts[f])
    ensures Inv(v) && StepsOf(v) == StepsOf(w)
  {
  }

  lemma BeginKeeps(w: World, f: nat, name: string, isCursor: bool, v: World)
    requires Inv(w) && Next(w, Begin(f, name, isCursor), v)
    ensures Inv(v) && StepsOf(v) == StepsOf(w)
  {
  }

  lemma ReturnKeeps(w: World, f: nat, failed: bool, v: World)
    requires Inv(w) && Next(w, Return(f, failed), v)
    ensures Inv(v) && StepsOf(v) == StepsOf(w)
  {
    assert AttemptOk(w, f, w.attempts[f]);
    if !failed {
      FinishKeeps(w.attempts[f].local, w.attempts[f].phase.name, w.attempts[f].phase.isCursor, w.returned);
    }
    LocalMoveKeeps(w, v, f);
  }

  lemma QuietKeeps(w: World, act: Action, v: World)
    requires Inv(w) && Next(w, act, v) && (act.GiveUp? || act.Note?)
    ensures Inv(v) && StepsOf(v) == StepsOf(w)
  {
  }

  // What a store operation other than this job's checkpoint does to it.
  lemma RecordMoves(w: World, now: int, op: Op, t: MemState)
    requires Inv(w) && StoreOps.Step(w.store, now, op, t) && !(op.CheckpointOp? && op.lease.jobId == w.id) && w.id in t.jobs
    ensures var a, b := w.store.jobs[w.id], t.jobs[w.id];
            && RecordsOk(t) && a.fence <= b.fence && Resume(b.checkpoint) == Resume(a.checkpoint)
            && (forall l: LeaseRef :: l.jobId == w.id && l.fence <= a.fence && Current(t, l) ==> Current(w.store, l))
  {
    StepKeepsRecords(w.store, now, op, t);
    StepEvolves(w.store, now, op, t, w.id);
  }

  lemma AttemptRides(w: World, v: World, f: nat)
    requires Inv(w) && f in w.attempts && v.id == w.id && v.returned == w.returned && v.id in v.store.jobs
    requires var a, b := w.store.jobs[w.id], v.store.jobs[w.id];
             && a.fence <= b.fence && Resume(b.checkpoint) == Resume(a.checkpoint)
             && (forall l: LeaseRef :: l.jobId == w.id && l.fence <= a.fence && Current(v.store, l) ==> Current(w.store, l))
    ensures AttemptOk(v, f, w.attempts[f])
  {
  }

  // A new attempt starts from the record as it is.
  lemma NewAttemptOk(w: World, now: int, op: Op, v: World, k: nat)
    requires Inv(w) && StoreOps.Step(w.store, now, op, v.store) && ClaimIn(op, w.id, k)
    requires v.id == w.id && v.returned == w.returned && v.id in v.store.jobs
    requires Resume(v.store.jobs[w.id].checkpoint) == Resume(w.store.jobs[w.id].checkpoint)
    ensures AttemptOk(v, op.adm.claims[k].fence, Attempt(FromClaim(op.adm.claims[k]), Idle))
  {
  }

  lemma StoreKeeps(w: World, now: int, op: Op, v: World)
    requires Inv(w) && Next(w, StoreAction(now, op), v) && w.id in v.store.jobs
    ensures Inv(v) && StepsOf(v) == StepsOf(w)
  {
    RecordMoves(w, now, op, v.store);
    var a, b := w.store.jobs[w.id], v.store.jobs[w.id];
    assert Resume(a.checkpoint).completedSteps == a.checkpoint.completedSteps && Resume(b.checkpoint).completedSteps == b.checkpoint.completedSteps;
    forall f | f in v.attempts
      ensures AttemptOk(v, f, v.attempts[f])
    {
      if f in w.attempts && v.attempts[f] == w.attempts[f] {
        AttemptRides(w, v, f);
      } else {
        var k: nat :| ClaimIn(op, w.id, k)
                 && v.attempts == w.attempts[op.adm.claims[k].fence := Attempt(FromClaim(op.adm.claims[k]), Idle)];
        NewAttemptOk(w, now, op, v, k);
      }
    }
  }

  // The write replaces the record's checkpoint exactly when the attempt still holds the job.
  lemma PersistWrites(w: World, f: nat, now: int, fate: Fate, v: World)
    requires Inv(w) && Next(w, Persist(f, now, fate), v)
    ensures var l, cp := w.attempts[f].local.lease, Pending(w.attempts[f].phase).value;
            && RecordsOk(v.store) && w.id in v.store.jobs
            && (forall m :: Current(v.store, m) <==> Current(w.store, m))
            && v.store.jobs[w.id].fence == w.store.jobs[w.id].fence
            && v.store.jobs[w.id].checkpoint ==
               if fate != Dropped && Current(w.store, l) then cp else w.store.jobs[w.id].checkpoint
  {
  }

  lemma PersistKeepsOther(w: World, f: nat, now: int, fate: Fate, v: World, g: nat)
    requires Inv(w) && Next(w, Persist(f, now, fate), v) && g in w.attempts && g != f && w.id in v.store.jobs
    ensures AttemptOk(v, g, w.attempts[g])
  {
  }

  lemma PersistKeepsOwn(w: World, f: nat, now: int, fate: Fate, v: World)
    requires Inv(w) && Next(w, Persist(f, now, fate), v) && w.id in v.store.jobs
    ensures AttemptOk(v, f, v.attempts[f])
  {
  }

  lemma PersistKeeps(w: World, f: nat, now: int, fate: Fate, v: World)
    requires Inv(w) && Next(w, Persist(f, now, fate), v)
    ensures Inv(v) && StepsOf(w) <= StepsOf(v)
  {
    PersistWrites(w, f, now, fate, v);
    assert AttemptOk(w, f, w.attempts[f]);
    forall g | g in v.attempts
      ensures AttemptOk(v, g, v.attempts[g])
    {
      if g == f {
        PersistKeepsOwn(w, f, now, fate, v);
      } else {
        PersistKeepsOther(w, f, now, fate, v, g);
      }
    }
  }

  // Every action keeps the invariant and at most extends the durable list.
  lemma NextKeeps(w: World, act: Action, v: World)
    requires Inv(w) && Next(w, act, v) && w.id in v.store.jobs
    ensures Inv(v) && v.id == w.id && StepsOf(w) <= StepsOf(v) && w.returned <= v.returned
  {
    match act
    case StoreAction(now, op) => StoreKeeps(w, now, op, v);
    case Begin(f, name, isCursor) => BeginKeeps(w, f, name, isCursor, v);
    case Persist(f, now, fate) => PersistKeeps(w, f, now, fate, v);
    case Return(f, failed) => ReturnKeeps(w, f, failed, v);
    case _ => QuietKeeps(w, act, v);
  }

  // ---- Over whole runs ----

  ghost predicate IsRun(worlds: seq<World>, acts: seq<Action>) {
    && |worlds| == |acts| + 1 && Inv(worlds[0])
    && (forall i :: 0 <= i < |acts| ==> NextAt(worlds, acts, i))
    && (forall i :: 0 <= i <= |acts| ==> worlds[0].id in worlds[i].store.jobs)
  }

  ghost predicate NextAt(worlds: seq<World>, acts: seq<Action>, i: nat)
    requires |worlds| == |acts| + 1 && i < |acts|
  {
    Next(worlds[i], acts[i], worlds[i + 1])
  }

  lemma {:induction false} RunKeeps(worlds: seq<World>, acts: seq<Action>, j: nat)
    requires IsRun(worlds, acts) && j <= |acts|
    ensures worlds[j].id == worlds[0].id && Inv(worlds[j])
  {
    if j > 0 {
      RunKeeps(worlds, acts, j - 1);
      assert NextAt(worlds, acts, j - 1);
      NextKeeps(worlds[j - 1], acts[j - 1], worlds[j]);
    }
  }

  // Durable progress only ever grows by extension.
  lemma {:induction false} ProgressIsMonotone(worlds: seq<World>, acts: seq<Action>, i: nat, j: nat)
    requires IsRun(worlds, acts) && i <= j <= |acts|
    ensures worlds[i].id == worlds[j].id == worlds[0].id && Inv(worlds[i]) && Inv(worlds[j])
    ensures StepsOf(worlds[i]) <= StepsOf(worlds[j])
    decreases j
  {
    RunKeeps(worlds, acts, i);
    RunKeeps(worlds, acts, j);
    if i < j {
      ProgressIsMonotone(worlds, acts, i, j - 1);
      assert NextAt(worlds, acts, j - 1);
      NextKeeps(worlds[j - 1], acts[j - 1], worlds[j]);
    }
  }

  // The action starts the function of a step.
  ghost predicate Starts(w: World, act: Action, name: string) {
    && act.Persist? && act.fate == Answered && act.fence in w.attempts && Current(w.store, w.attempts[act.fence].local.lease)
    && w.attempts[act.fence].phase.Entering? && w.attempts[act.fence].phase.name == name
  }

  lemma StartedIsNew(w: World, act: Action, v: World, name: string)
    requires Inv(w) && Next(w, act, v) && Starts(w, act, name)
    ensures name !in StepsOf(w) && act.fence in v.attempts && v.attempts[act.fence].phase.Working?
    ensures w.id in v.store.jobs && v.store.jobs[w.id].checkpoint.inProgressStep == name
  {
  }

  // Every durable step did return, and no attempt ever starts it again.
  lemma ListedStepsNeverRerun(worlds: seq<World>, acts: seq<Action>, i: nat, j: nat, name: string)
    requires IsRun(worlds, acts) && i <= j < |acts|
    requires worlds[i].id in worlds[i].store.jobs && name in StepsOf(worlds[i])
    ensures name in worlds[i].returned && !Starts(worlds[j], acts[j], name)
  {
    ProgressIsMonotone(worlds, acts, i, j);
    assert name in StepsOf(worlds[j]);
    if Starts(worlds[j], acts[j], name) {
      assert NextAt(worlds, acts, j);
      StartedIsNew(worlds[j], acts[j], worlds[j + 1], name);
    }
  }

  // A crash while a step's function is running is blamed on that step.
  lemma CrashBlamesTheRunningStep(w: World, f: nat, now: int)
    requires Inv(w) && f in w.attempts && Active(w.attempts[f].phase).Some? && Active(w.attempts[f].phase).value != ""
    requires Current(w.store, w.attempts[f].local.lease)
    ensures var name := Active(w.attempts[f].phase).value;
            var before, after := w.store.jobs[w.id].checkpoint, ReclaimRecord(w.store.conf, now, w.store.jobs[w.id]).checkpoint;
            && Crashes(after, name) == Crashes(before, name) + 1
            && (forall other :: other != name ==> Crashes(after, other) == Crashes(before, other))
            && Resume(after) == Resume(before)
  {
  }

  // A record that has not been claimed yet.
  lemma FreshJobOk(s: MemState, id: string)
    requires RecordsOk(s) && id in s.jobs && s.jobs[id].checkpoint == NO_CHECKPOINT
    ensures Inv(World(s, id, map[], {}))
  {
  }
}
