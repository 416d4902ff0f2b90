/**
 The shape of a session record and what its fence protects: an execution exists exactly in the
 active phases, the client is asked to act exactly while actions are outstanding, and once an
 execution is superseded nothing the reconciler still holds for it can change the session.
 */
module SessionShape {
  import opened Options
  import opened Tables
  import opened SessionStore
  import opened SessionEvents
  import opened SessionState
  import opened SessionRuns
  import J = JobStates

  /** What every write of the record is checked against. */
  predicate Valid(r: Record) {
    && (r.execution.Some? <==> r.phase == Starting || r.phase == Running || r.phase == Checkpointing)
    && (r.execution.Some? ==> r.execution.value.generation == r.generation)
  }

  predicate Shaped(r: Record) {
    && Valid(r) && (r.deleted ==> r.execution.None?)
    && if r.execution.Some? then r.status == if r.actions == [] then Working else RequiresAction
       else r.actions == [] && r.status == if r.phase == Broken then Faulted else Resting
  }

  /** The execution a reconciler would fence on. */
  function FenceOf(db: Db): Option<Fence> {
    if Present(db) && db.record.value.execution.Some? then
      Some(Fence(db.record.value.execution.value.turn, db.record.value.execution.value.generation))
    else None
  }

  predicate WellShaped(db: Db) { db.record.Some? ==> Shaped(db.record.value) }

  lemma EventKeepsShape(d: Draft, root: Id, event: RuntimeEvent)
    requires Shaped(d.record) && d.record.execution.Some? && Accept(d, root, event).Ok?
    ensures var next := Accept(d, root, event).value;
            Shaped(next.record) && next.record.execution == d.record.execution
            && next.record.generation == d.record.generation
  {
    if event.Output? && event.body.FunctionCall? {
      var next := Accept(d, root, event).value;
      var call := event.body.call;
      if Requested(d.record.actions, call) {
        assert exists a :: a in d.record.actions && a.call == call;
      }
    }
  }

  lemma {:induction false} EntriesKeepShape(d: Draft, root: Id, entries: seq<J.Stamped>)
    requires Shaped(d.record) && d.record.execution.Some? && AcceptEntries(d, root, entries).Ok?
    ensures var next := AcceptEntries(d, root, entries).value;
            Shaped(next.record) && next.record.execution == d.record.execution
            && next.record.generation == d.record.generation
    decreases |entries|
  {
    if entries != [] {
      if entries[0].at > d.record.cursor {
        EventKeepsShape(d, root, entries[0].event);
        var next := Accept(d, root, entries[0].event).value;
        EntriesKeepShape(next.(record := next.record.(cursor := entries[0].at)), root, entries[1..]);
      } else {
        EntriesKeepShape(d, root, entries[1..]);
      }
    }
  }

  lemma InputKeepsShape(d: Draft, driver: Driver, event: InputEvent)
    requires Shaped(d.record) && d.record.phase != Broken && !d.record.deleted && AcceptEvent(d, driver, event).Ok?
    ensures var next := AcceptEvent(d, driver, event).value;
            Shaped(next.record) && next.record.phase != Broken && !next.record.deleted && Onward(d.record, next.record)
  {
    if event.UserTool? {
      assert Without(d.record.actions, Action(event.turn, event.call)).Some? ==> d.record.actions != [];
    }
  }

  lemma {:induction false} InputsKeepShape(d: Draft, driver: Driver, events: seq<InputEvent>)
    requires Shaped(d.record) && d.record.phase != Broken && !d.record.deleted && AcceptAll(d, driver, events).Ok?
    ensures var next := AcceptAll(d, driver, events).value; Shaped(next.record) && Onward(d.record, next.record)
    decreases |events|
  {
    if events != [] {
      InputKeepsShape(d, driver, events[0]);
      InputsKeepShape(AcceptEvent(d, driver, events[0]).value, driver, events[1..]);
    }
  }

  /** A new execution takes a larger generation; at one generation an execution can only end. */
  predicate Onward(a: Record, b: Record) {
    || b.generation > a.generation
    || (b.generation == a.generation && (b.execution == a.execution || b.execution.None?))
  }

  /** What a seal leaves in hand is what it stored: the record without an execution. */
  lemma SealedIsSaved(db: Db, record: Record, outcome: TurnStatus, error: Option<string>)
    requires record.execution.Some? && Sealed(db, record, outcome, error).Ok?
    ensures var d := Sealed(db, record, outcome, error).value;
            d.record == SealedRecord(record, outcome, error) && d.db.record == Some(d.record)
  {
  }

  lemma CompleteKeepsShape(s: Setup, db: Db, record: Record, outcome: TurnStatus, error: Option<string>)
    requires Shaped(record) && record.execution.Some? && Complete(s, db, record, outcome, error).Ok?
    ensures var next := Complete(s, db, record, outcome, error).value;
            && WellShaped(next) && next.record.Some? && Onward(record, next.record.value)
            && next.record.value.execution != record.execution
  {
    SealedIsSaved(db, record, outcome, error);
    assert Shaped(Sealed(db, record, outcome, error).value.record);
  }

  /**
   Every step keeps the record well shaped, so no write of it is ever refused, and moves it onward.
   */
  lemma StepKeepsShape(s: Setup, db: Db, step: Step)
    requires WellShaped(db)
    ensures var next := After(s, db, step);
            && WellShaped(next)
            && (next.record.Some? && db.record.Some? ==> Onward(db.record.value, next.record.value))
            && (next.record.Some? ==> db.record.Some?)
  {
    if Transact(s, db, step).Ok? {
      match step
      case Submit(driver, events, key) =>
        if key !in db.accepted { InputsKeepShape(Draft(db, db.record.value), driver, events); }
      case Poll(_, entries, _, _) =>
        EntriesKeepShape(Draft(db, db.record.value), db.record.value.execution.value.turn, entries);
      case Commit(_, checkpoint) =>
        CompleteKeepsShape(s, db, db.record.value.(checkpoint := Some(checkpoint)), Completed, None);
      case Seal(_, outcome, error) => CompleteKeepsShape(s, db, db.record.value, outcome, error);
      case _ =>
    }
  }

  lemma {:induction false} RunKeepsShape(s: Setup, db: Db, steps: seq<Step>)
    requires WellShaped(db)
    ensures WellShaped(Run(s, db, steps))
    decreases |steps|
  {
    if steps != [] {
      StepKeepsShape(s, db, steps[0]);
      RunKeepsShape(s, After(s, db, steps[0]), steps[1..]);
    }
  }

  /** In every reachable session the record has its shape. */
  lemma ReachableSessionsAreShaped(s: Setup, driver: string, revision: string, sandboxed: bool,
                                   transcript: Option<string>, checkpoint: Option<Checkpoint>, steps: seq<Step>)
    ensures WellShaped(Run(s, Created(driver, revision, sandboxed, transcript, checkpoint), steps))
  {
    RunKeepsShape(s, Created(driver, revision, sandboxed, transcript, checkpoint), steps);
  }

  // --- The fence ----------------------------------------------------------------------------------------

  predicate IsFenced(step: Step) { !step.Submit? && !step.Report? && !step.Delete? && !step.Drop? }

  /** The execution this fence names has ended or given way, and its generation is spent. */
  predicate Spent(db: Db, fence: Fence) {
    db.record.None?
    || db.record.value.generation > fence.generation
    || (db.record.value.generation == fence.generation
        && (db.record.value.execution.None? || db.record.value.execution.value.turn != fence.turn))
  }

  lemma SpentIsSuperseded(s: Setup, db: Db, step: Step)
    requires WellShaped(db) && IsFenced(step) && Spent(db, step.fence)
    ensures Transact(s, db, step) == Err(Superseded) && After(s, db, step) == db
  {
  }

  lemma SpentStaysSpent(s: Setup, db: Db, fence: Fence, step: Step)
    requires WellShaped(db) && Spent(db, fence)
    ensures Spent(After(s, db, step), fence)
  {
    StepKeepsShape(s, db, step);
  }

  /** A seal spends the fence it was made under. */
  lemma SealsSpendTheirFence(s: Setup, db: Db, step: Step)
    requires WellShaped(db) && (step.Commit? || step.Seal?) && Transact(s, db, step).Ok?
    ensures Spent(After(s, db, step), step.fence)
  {
    if step.Commit? {
      CompleteKeepsShape(s, db, db.record.value.(checkpoint := Some(step.checkpoint)), Completed, None);
    } else {
      CompleteKeepsShape(s, db, db.record.value, step.outcome, step.error);
    }
    var next := After(s, db, step).record.value;
    assert next.generation == db.record.value.generation ==> next.execution.None?;
  }

  lemma {:induction false} RunKeepsSpent(s: Setup, db: Db, fence: Fence, steps: seq<Step>)
    requires WellShaped(db) && Spent(db, fence)
    ensures WellShaped(Run(s, db, steps)) && Spent(Run(s, db, steps), fence)
    decreases |steps|
  {
    if steps != [] {
      StepKeepsShape(s, db, steps[0]);
      SpentStaysSpent(s, db, fence, steps[0]);
      RunKeepsSpent(s, After(s, db, steps[0]), fence, steps[1..]);
    }
  }

  /** After a turn is sealed, whatever happens next, no step held for its execution does anything. */
  lemma SealedExecutionsAreInert(s: Setup, db: Db, seal: Step, steps: seq<Step>, late: Step)
    requires WellShaped(db) && (seal.Commit? || seal.Seal?) && Transact(s, db, seal).Ok?
    requires IsFenced(late) && late.fence == seal.fence
    ensures var later := Run(s, After(s, db, seal), steps);
            Transact(s, later, late) == Err(Superseded) && After(s, later, late) == later
  {
    StepKeepsShape(s, db, seal);
    SealsSpendTheirFence(s, db, seal);
    RunKeepsSpent(s, After(s, db, seal), seal.fence, steps);
    SpentIsSuperseded(s, Run(s, After(s, db, seal), steps), late);
  }
}
