// What a later attempt finds: listed steps are skipped, and a cursor step resumes where it was durably left
// (go/steps.go).
module StepCursors {
  import opened Common
  import opened StoreModel
  import opened Admission
  import opened StoreOps
  import opened Steps

  // ---- Replay ----

  // The attempt after it has entered the first k listed steps in order.
  function Replayed(l: Local, k: nat): Local
    requires k <= |l.completed|
  {
    if k == 0 then l else Entered(Replayed(l, k - 1), l.completed[k - 1], false).0
  }

  lemma {:induction false} ReplayedIs(c: Claim, k: nat)
    requires Distinct(c.checkpoint.completedSteps) && k <= |c.checkpoint.completedSteps|
    ensures var l := FromClaim(c);
            Replayed(l, k) == l.(position := k, executed := Elems(l.completed[..k]))
  {
    var l := FromClaim(c);
    if k > 0 {
      ReplayedIs(c, k - 1);
      TakeSnoc(l.completed, k - 1);
      assert l.completed[k - 1] !in l.completed[..k - 1];
      assert Elems(l.completed[..k]) == Elems(l.completed[..k - 1]) + {l.completed[k - 1]};
    }
  }

  // A new attempt skips the listed steps in the order of the list, calls any other step in their place
  // stale, and runs a step only when the list is used up.
  lemma ReplayFollowsTheList(c: Claim, k: nat, name: string, isCursor: bool)
    requires Distinct(c.checkpoint.completedSteps) && k <= |c.checkpoint.completedSteps| && name !in c.checkpoint.completedSteps[..k]
    ensures var steps := c.checkpoint.completedSteps;
            var e := Entered(Replayed(FromClaim(c), k), name, isCursor).1;
            if k == |steps| then e.Proceed? else if steps[k] == name then e == Entry.Skipped else e == Stale(steps[k])
  {
    ReplayedIs(c, k);
  }

  // A step whose function has returned is listed once the write that says so is answered.
  lemma ReturnedStepIsListed(w: World, f: nat, v: World, now: int, u: World)
    requires Inv(w) && Next(w, Return(f, false), v) && Next(v, Persist(f, now, Answered), u)
    requires Current(w.store, w.attempts[f].local.lease)
    ensures w.id in u.store.jobs && StepsOf(u) == w.attempts[f].local.completed + [w.attempts[f].phase.name]
    ensures StepsOf(w) <= w.attempts[f].local.completed
  {
    ReturnKeeps(w, f, false, v);
    PersistWrites(v, f, now, Answered, u);
    assert AttemptOk(w, f, w.attempts[f]);
  }

  // ---- Cursors ----

  // No step under way in this attempt is a cursor step.
  predicate Plain(p: Phase) {
    match p
    case Entering(_, isCursor, _) => !isCursor
    case Working(_, isCursor) => !isCursor
    case Noting(step, _) => step.Some? ==> !step.value.1
    case _ => true
  }

  // The attempt notes a cursor, or enters a cursor step.
  predicate Moves(act: Action, f: nat) {
    (act.Note? && act.fence == f) || (act.Begin? && act.fence == f && act.isCursor)
  }

  lemma CursorStep(w: World, act: Action, v: World, f: nat)
    requires Inv(w) && Next(w, act, v) && f in w.attempts && Plain(w.attempts[f].phase) && !Moves(act, f)
    ensures f in v.attempts && Plain(v.attempts[f].phase)
    ensures v.attempts[f].local.cursorStep == w.attempts[f].local.cursorStep && v.attempts[f].local.cursor == w.attempts[f].local.cursor
  {
    if act.StoreAction? {
      AttemptUntouched(w, act.now, act.op, v, f);
    }
  }

  // Whatever the store does, an attempt under way stays as it is: new ones have new fences.
  lemma AttemptUntouched(w: World, now: int, op: Op, v: World, f: nat)
    requires Inv(w) && Next(w, StoreAction(now, op), v) && f in w.attempts
    ensures f in v.attempts && v.attempts[f] == w.attempts[f]
  {
    if k: nat :| ClaimIn(op, w.id, k) && v.attempts == w.attempts[op.adm.claims[k].fence := Attempt(FromClaim(op.adm.claims[k]), Idle)] {
      ClaimIsNewer(w, now, op, v.store, k);
      assert AttemptOk(w, f, w.attempts[f]);
    }
  }

  lemma ClaimIsNewer(w: World, now: int, op: Op, t: MemState, k: nat)
    requires Inv(w) && StoreOps.Step(w.store, now, op, t) && ClaimIn(op, w.id, k)
    ensures op.adm.claims[k].fence == w.store.jobs[w.id].fence + 1
    ensures op.adm.claims[k].checkpoint == w.store.jobs[w.id].checkpoint
  {
    AdmitStep(w.store, now, op.req, op.adm, t);
  }

  // The attempt that holds this fence was started by the action, from the record as it was.
  ghost predicate Began(w: World, act: Action, v: World, f: nat) {
    act.StoreAction? && exists k: nat :: ClaimIn(act.op, w.id, k) && act.op.adm.claims[k].fence == f
                                         && v.attempts == w.attempts[f := Attempt(FromClaim(act.op.adm.claims[k]), Idle)]
  }

  // The attempt in v still has the cursor that the record had in w.
  predicate Inherits(w: World, v: World, f: nat) {
    && w.id in w.store.jobs && f in v.attempts && Plain(v.attempts[f].phase)
    && v.attempts[f].local.cursorStep == w.store.jobs[w.id].checkpoint.cursorStep
    && v.attempts[f].local.cursor == w.store.jobs[w.id].checkpoint.cursor
  }

  lemma BeganFromRecord(w: World, act: Action, v: World, f: nat)
    requires Inv(w) && Next(w, act, v) && Began(w, act, v, f)
    ensures Inherits(w, v, f)
  {
    var k: nat :| ClaimIn(act.op, w.id, k) && act.op.adm.claims[k].fence == f
                  && v.attempts == w.attempts[f := Attempt(FromClaim(act.op.adm.claims[k]), Idle)];
    ClaimIsNewer(w, act.now, act.op, v.store, k);
  }

  lemma InheritsStep(w: World, v: World, act: Action, u: World, f: nat)
    requires Inherits(w, v, f) && Inv(v) && Next(v, act, u) && !Moves(act, f)
    ensures Inherits(w, u, f)
  {
    CursorStep(v, act, u, f);
  }

  lemma {:induction false} CursorIsInherited(worlds: seq<World>, acts: seq<Action>, i: nat, j: nat, f: nat)
    requires IsRun(worlds, acts) && i < j <= |acts| && Began(worlds[i], acts[i], worlds[i + 1], f)
    requires forall m :: i < m < j ==> !Moves(acts[m], f)
    ensures Inherits(worlds[i], worlds[j], f)
    decreases j
  {
    RunKeeps(worlds, acts, j - 1);
    assert NextAt(worlds, acts, j - 1);
    if i + 1 < j {
      CursorIsInherited(worlds, acts, i, j - 1, f);
      InheritsStep(worlds[i], worlds[j - 1], acts[j - 1], worlds[j], f);
    } else {
      BeganFromRecord(worlds[i], acts[i], worlds[j], f);
    }
  }

  // The action enters a cursor step that is to run, with this cursor to go on from.
  ghost predicate Resumes(w: World, act: Action, v: World, f: nat, name: string, cursor: Bytes) {
    && act == Begin(f, name, true) && f in v.attempts && v.attempts[f].phase.Entering?
    && v.attempts[f].phase.cp.cursor == cursor && v.attempts[f].phase.cp.cursorStep == name
  }

  lemma EnteredCursor(w: World, f: nat, name: string, v: World)
    requires Next(w, Begin(f, name, true), v) && f in v.attempts && v.attempts[f].phase.Entering?
    ensures var l := w.attempts[f].local;
            && name !in l.executed && v.attempts[f].local.executed == l.executed + {name} && v.attempts[f].local.cursorStep == name
            && Resumes(w, Begin(f, name, true), v, f, name, if l.cursorStep == name then l.cursor else [])
  {
  }

  // The first cursor step of an attempt goes on from the cursor that the record held for this step when the
  // attempt was claimed, and from none if the record's cursor was another step's.
  lemma ResumesFromTheDurableCursor(worlds: seq<World>, acts: seq<Action>, i: nat, j: nat, f: nat, name: string)
    requires IsRun(worlds, acts) && i < j < |acts| && Began(worlds[i], acts[i], worlds[i + 1], f)
    requires forall m :: i < m < j ==> !Moves(acts[m], f)
    requires acts[j] == Begin(f, name, true) && f in worlds[j + 1].attempts && worlds[j + 1].attempts[f].phase.Entering?
    ensures worlds[i].id in worlds[i].store.jobs
    ensures var cp := worlds[i].store.jobs[worlds[i].id].checkpoint;
            Resumes(worlds[j], acts[j], worlds[j + 1], f, name, if cp.cursorStep == name then cp.cursor else [])
  {
    CursorIsInherited(worlds, acts, i, j, f);
    assert NextAt(worlds, acts, j);
    EnteredCursor(worlds[j], f, name, worlds[j + 1]);
  }

  // The cursor belongs to a step this attempt has entered, or to none.
  lemma EnteredStep(w: World, act: Action, v: World, f: nat)
    requires Inv(w) && Next(w, act, v) && f in w.attempts && w.attempts[f].local.cursorStep in w.attempts[f].local.executed + {""}
    ensures f in v.attempts && v.attempts[f].local.cursorStep in v.attempts[f].local.executed + {""}
    ensures w.attempts[f].local.executed <= v.attempts[f].local.executed
  {
    if act.StoreAction? {
      AttemptUntouched(w, act.now, act.op, v, f);
    }
  }

  lemma {:induction false} StaysEntered(worlds: seq<World>, acts: seq<Action>, i: nat, j: nat, f: nat)
    requires IsRun(worlds, acts) && i <= j <= |acts| && f in worlds[i].attempts
    requires worlds[i].attempts[f].local.cursorStep in worlds[i].attempts[f].local.executed + {""}
    ensures f in worlds[j].attempts && worlds[j].attempts[f].local.cursorStep in worlds[j].attempts[f].local.executed + {""}
    decreases j
  {
    if i < j {
      StaysEntered(worlds, acts, i, j - 1, f);
      RunKeeps(worlds, acts, j - 1);
      assert NextAt(worlds, acts, j - 1);
      EnteredStep(worlds[j - 1], acts[j - 1], worlds[j], f);
    }
  }

  // Once an attempt has entered one cursor step, every other one starts from nothing.
  lemma LaterCursorStepsStartOver(worlds: seq<World>, acts: seq<Action>, i: nat, j: nat, f: nat, first: string, name: string)
    requires IsRun(worlds, acts) && i < j < |acts| && acts[i] == Begin(f, first, true) && acts[j] == Begin(f, name, true) && name != ""
    requires f in worlds[i + 1].attempts && worlds[i + 1].attempts[f].phase.Entering?
    requires f in worlds[j + 1].attempts && worlds[j + 1].attempts[f].phase.Entering?
    ensures Resumes(worlds[j], acts[j], worlds[j + 1], f, name, [])
  {
    assert NextAt(worlds, acts, i);
    EnteredCursor(worlds[i], f, first, worlds[i + 1]);
    StaysEntered(worlds, acts, i + 1, j, f);
    assert NextAt(worlds, acts, j);
    EnteredCursor(worlds[j], f, name, worlds[j + 1]);
  }

  // What was noted in a step is what the record holds once the write is answered, and only checkpoint
  // writes of the holder change what the record holds.
  lemma NotedCursorIsDurable(w: World, f: nat, bytes: Bytes, v: World, now: int, u: World)
    requires Inv(w) && Next(w, Note(f, bytes), v) && Next(v, Persist(f, now, Answered), u)
    requires Current(w.store, w.attempts[f].local.lease)
    ensures w.id in u.store.jobs && u.store.jobs[w.id].checkpoint.cursor == bytes
    ensures u.store.jobs[w.id].checkpoint.cursorStep == w.attempts[f].local.cursorStep
  {
    QuietKeeps(w, Note(f, bytes), v);
    PersistWrites(v, f, now, Answered, u);
  }

  lemma OnlyTheHolderMovesTheCursor(w: World, act: Action, v: World)
    requires Inv(w) && Next(w, act, v) && w.id in v.store.jobs
    requires var a, b := w.store.jobs[w.id].checkpoint, v.store.jobs[w.id].checkpoint; a.cursor != b.cursor || a.cursorStep != b.cursorStep
    ensures act.Persist? && act.fate != Dropped && act.fence in w.attempts && Current(w.store, w.attempts[act.fence].local.lease)
    ensures v.store.jobs[w.id].checkpoint == Snapshot(w.attempts[act.fence].local)
  {
    if act.StoreAction? {
      RecordMoves(w, act.now, act.op, v.store);
    } else if act.Persist? {
      PersistWrites(w, act.fence, act.now, act.fate, v);
      assert AttemptOk(w, act.fence, w.attempts[act.fence]);
    }
  }
}
