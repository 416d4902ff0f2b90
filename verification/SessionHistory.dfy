/**
 What a session's record tells of its history: its checkpoint is the last one committed, its error the
 last one it was sealed with, and the transcript it was forked with stays until a turn completes.
 */
module SessionHistories {
  import opened Options
  import opened Tables
  import opened SessionStore
  import opened SessionEvents
  import opened SessionState
  import opened SessionRuns
  import opened SessionShape
  import J = JobStates

  /** What the steps that took effect say of the record. */
  datatype History = History(checkpoint: Option<Checkpoint>, transcript: Option<string>, error: Option<string>, deleted: bool)

  /** A failed setup reported while no turn runs. */
  predicate FailsSetup(db: Db, step: Step) {
    && step == Report(Failing) && db.record.Some? && db.record.value.sandboxed && db.environment != Some(Failing)
    && db.record.value.execution.None?
  }

  function Remembered(took: bool, db: Db, h: History, step: Step): History {
    if !took then h
    else
      match step
      case Commit(_, checkpoint) => History(Some(checkpoint), None, None, h.deleted)
      case Seal(_, outcome, error) => h.(error := error, transcript := if outcome == Completed then None else h.transcript)
      case Report(_) => if FailsSetup(db, step) then h.(error := Some("environment_setup_failed")) else h
      case Delete => h.(deleted := true)
      case _ => h
  }

  function Told(s: Setup, db: Db, h: History, steps: seq<Step>): History
    decreases |steps|
  {
    if steps == [] then h else Told(s, After(s, db, steps[0]), Remembered(Transact(s, db, steps[0]).Ok?, db, h, steps[0]), steps[1..])
  }

  /** The parts of the record that no turn changes, and those a running turn took over when it began. */
  predicate Tells(record: Record, h: History) {
    && record.checkpoint == h.checkpoint && record.transcript == h.transcript && record.error == h.error
    && record.deleted == h.deleted
    && (record.execution.Some? ==> record.execution.value.checkpoint == record.checkpoint)
  }

  predicate SameSession(a: Record, b: Record) {
    b.driver == a.driver && b.revision == a.revision && b.sandboxed == a.sandboxed
  }

  /** Only the turn itself moved. */
  predicate OnlyRan(a: Record, b: Record) {
    && SameSession(a, b) && b.checkpoint == a.checkpoint && b.transcript == a.transcript && b.error == a.error
    && b.deleted == a.deleted
    && (b.execution.Some? && b.execution != a.execution ==> b.execution.value.checkpoint == b.checkpoint)
  }

  lemma {:induction false} InputsOnlyRun(d: Draft, driver: Driver, events: seq<InputEvent>)
    requires AcceptAll(d, driver, events).Ok?
    ensures var next := AcceptAll(d, driver, events).value.record;
            OnlyRan(d.record, next) && next.usage == d.record.usage
    decreases |events|
  {
    if events != [] {
      InputOnlyRuns(d, driver, events[0]);
      InputsOnlyRun(AcceptEvent(d, driver, events[0]).value, driver, events[1..]);
    }
  }

  lemma InputOnlyRuns(d: Draft, driver: Driver, event: InputEvent)
    requires AcceptEvent(d, driver, event).Ok?
    ensures var next := AcceptEvent(d, driver, event).value.record;
            OnlyRan(d.record, next) && next.usage == d.record.usage
  {
  }

  lemma {:induction false} EntriesOnlyRun(d: Draft, root: Id, entries: seq<J.Stamped>)
    requires AcceptEntries(d, root, entries).Ok?
    ensures var next := AcceptEntries(d, root, entries).value.record;
            OnlyRan(d.record, next) && next.execution == d.record.execution
    decreases |entries|
  {
    if entries != [] {
      if entries[0].at > d.record.cursor {
        EventOnlyRuns(d, root, entries[0].event);
        var next := Accept(d, root, entries[0].event).value;
        EntriesOnlyRun(next.(record := next.record.(cursor := entries[0].at)), root, entries[1..]);
      } else {
        EntriesOnlyRun(d, root, entries[1..]);
      }
    }
  }

  lemma EventOnlyRuns(d: Draft, root: Id, event: RuntimeEvent)
    requires Accept(d, root, event).Ok?
    ensures var next := Accept(d, root, event).value.record;
            OnlyRan(d.record, next) && next.execution == d.record.execution
  {
  }

  /** What a seal leaves of the record, whether or not it starts the next turn. */
  ghost predicate Sealing(record: Record, next: Record, outcome: TurnStatus, error: Option<string>) {
    && SameSession(record, next) && next.checkpoint == record.checkpoint && next.usage == record.usage
    && next.error == error && next.deleted == record.deleted && next.actions == []
    && next.transcript == (if outcome == Completed then None else record.transcript)
    && (if next.execution.Some? then
          && next.generation == record.generation + 1 && next.execution.value.generation == next.generation
          && next.execution.value.checkpoint == record.checkpoint
          && next.cursor == 0 && next.phase == Phase.Starting && next.status == Working
        else
          var failed := outcome == Failed && error.Some?
                        && (error.value == "outcome_unknown" || EndsWith(error.value, "_uncertain"));
          && next.generation == record.generation
          && next.phase == (if failed then Broken else Idle) && next.status == (if failed then Faulted else Resting))
  }

  /** The record of a turn that begins on another. */
  predicate Begins(a: Record, b: Record) {
    && b == a.(generation := a.generation + 1, execution := b.execution, cursor := 0, phase := Starting, status := Working)
    && b.execution.Some? && b.execution.value.generation == b.generation && b.execution.value.checkpoint == a.checkpoint
  }

  lemma CompleteLeaves(s: Setup, db: Db, record: Record, outcome: TurnStatus, error: Option<string>)
    requires record.execution.Some? && Complete(s, db, record, outcome, error).Ok?
    ensures var next, ended := Complete(s, db, record, outcome, error).value.record, SealedRecord(record, outcome, error);
            next.Some? && (next.value == ended || Begins(ended, next.value))
  {
    SealedIsSaved(db, record, outcome, error);
  }

  lemma SealsTell(s: Setup, db: Db, record: Record, outcome: TurnStatus, error: Option<string>)
    requires record.execution.Some? && Complete(s, db, record, outcome, error).Ok?
    ensures var next := Complete(s, db, record, outcome, error).value.record;
            next.Some? && Sealing(record, next.value, outcome, error)
  {
    CompleteLeaves(s, db, record, outcome, error);
  }

  /** What one step makes of the record it finds. */
  predicate StepSays(step: Step, record: Record, next: Record, later: History) {
    Tells(next, later) && SameSession(record, next) && (!step.Poll? ==> next.usage == record.usage)
  }

  lemma PollTells(db: Db, record: Record, h: History, step: Step)
    requires step.Poll? && record.execution.Some? && Tells(record, h)
    requires AcceptBatch(db, record, step.entries, step.completed, step.cancel).Ok?
    ensures var next := AcceptBatch(db, record, step.entries, step.completed, step.cancel).value.record;
            next.Some? && StepSays(step, record, next.value, h)
  {
    EntriesOnlyRun(Draft(db, record), record.execution.value.turn, step.entries);
  }

  lemma FencedStepTells(s: Setup, db: Db, record: Record, h: History, step: Step)
    requires IsFenced(step) && record.execution.Some? && Reconcile(s, db, record, step).Ok?
    requires db.record == Some(record) && Tells(record, h)
    ensures var next := Reconcile(s, db, record, step).value.record;
            next.Some? && StepSays(step, record, next.value, Remembered(true, db, h, step))
  {
    match step
    case Poll(_, _, _, _) => PollTells(db, record, h, step);
    case Commit(_, checkpoint) => SealsTell(s, db, record.(checkpoint := Some(checkpoint)), Completed, None);
    case Seal(_, outcome, error) => SealsTell(s, db, record, outcome, error);
    case _ =>
  }

  lemma SubmissionTells(s: Setup, db: Db, h: History, step: Step)
    requires step.Submit? && AcceptInput(s, db, step.driver, step.events, step.key).Ok?
    requires db.record.Some? && Tells(db.record.value, h)
    ensures var next := AcceptInput(s, db, step.driver, step.events, step.key).value.record;
            next.Some? && StepSays(step, db.record.value, next.value, h)
  {
    if step.key !in db.accepted { InputsOnlyRun(Draft(db, db.record.value), step.driver, step.events); }
  }

  lemma ReportTells(db: Db, h: History, step: Step)
    requires step.Report? && ApplyEnvironment(db, step.environment).Ok? && db.record.Some? && Tells(db.record.value, h)
    ensures var next := ApplyEnvironment(db, step.environment).value.record;
            next.Some? && StepSays(step, db.record.value, next.value, Remembered(true, db, h, step))
  {
  }

  lemma FencesHold(s: Setup, db: Db, step: Step)
    requires IsFenced(step) && Transact(s, db, step).Ok?
    ensures db.record.Some? && db.record.value.execution.Some? && !db.record.value.deleted
    ensures Transact(s, db, step) == Reconcile(s, db, db.record.value, step)
  {
  }

  /** Each step leaves the record as it says, and only a poll moves the usage. */
  lemma StepTells(s: Setup, db: Db, h: History, step: Step)
    requires db.record.Some? && Tells(db.record.value, h) && After(s, db, step).record.Some?
    ensures StepSays(step, db.record.value, After(s, db, step).record.value,
                     Remembered(Transact(s, db, step).Ok?, db, h, step))
  {
    if Transact(s, db, step).Ok? {
      if IsFenced(step) {
        FencesHold(s, db, step);
        FencedStepTells(s, db, db.record.value, h, step);
      } else {
        ClientStepTells(s, db, h, step);
      }
    }
  }

  lemma ClientStepTells(s: Setup, db: Db, h: History, step: Step)
    requires !IsFenced(step) && Transact(s, db, step).Ok? && Transact(s, db, step).value.record.Some?
    requires db.record.Some? && Tells(db.record.value, h)
    ensures StepSays(step, db.record.value, Transact(s, db, step).value.record.value, Remembered(true, db, h, step))
  {
    match step
    case Submit(_, _, _) => SubmissionTells(s, db, h, step);
    case Report(_) => ReportTells(db, h, step);
    case Delete =>
    case Drop =>
  }

  lemma {:induction false} RunTells(s: Setup, db: Db, h: History, steps: seq<Step>)
    requires WellShaped(db) && db.record.Some? && Tells(db.record.value, h) && Run(s, db, steps).record.Some?
    ensures var next := Run(s, db, steps).record.value;
            Tells(next, Told(s, db, h, steps)) && SameSession(db.record.value, next)
    decreases |steps|
  {
    if steps != [] {
      StepKeepsShape(s, db, steps[0]);
      GoneStaysGone(s, After(s, db, steps[0]), steps[1..]);
      StepTells(s, db, h, steps[0]);
      RunTells(s, After(s, db, steps[0]), Remembered(Transact(s, db, steps[0]).Ok?, db, h, steps[0]), steps[1..]);
    }
  }

  lemma {:induction false} GoneStaysGone(s: Setup, db: Db, steps: seq<Step>)
    requires WellShaped(db)
    ensures Run(s, db, steps).record.Some? ==> db.record.Some?
    decreases |steps|
  {
    if steps != [] {
      StepKeepsShape(s, db, steps[0]);
      GoneStaysGone(s, After(s, db, steps[0]), steps[1..]);
    }
  }

  /**
   On every run, while the record is there: its checkpoint is that of the last commit that succeeded, or the
   one it was created with; its error is that of the last seal, none after a commit, or that of a setup that
   failed since; the transcript it was forked with is there until a turn completes; it is deleted exactly if
   a deletion succeeded; what it is a session of never changes; and a running turn has the record's checkpoint.
   */
  lemma RecordsTellTheirHistory(s: Setup, driver: string, revision: string, sandboxed: bool, transcript: Option<string>,
                                checkpoint: Option<Checkpoint>, steps: seq<Step>)
    requires Run(s, Created(driver, revision, sandboxed, transcript, checkpoint), steps).record.Some?
    ensures var db := Created(driver, revision, sandboxed, transcript, checkpoint);
            var record, h := Run(s, db, steps).record.value, Told(s, db, History(checkpoint, transcript, None, false), steps);
            && record.checkpoint == h.checkpoint && record.error == h.error && record.transcript == h.transcript
            && record.deleted == h.deleted
            && record.driver == driver && record.revision == revision && record.sandboxed == sandboxed
            && (record.execution.Some? ==> record.execution.value.checkpoint == h.checkpoint)
  {
    var db := Created(driver, revision, sandboxed, transcript, checkpoint);
    RunTells(s, db, History(checkpoint, transcript, None, false), steps);
  }

  /**
   A seal under a live fence keeps the session's checkpoint, or takes the one committed, keeps its usage, and
   records its error; it ends the transcript only by completing, asks nothing more of the client, and leaves
   the session broken exactly if it failed in a way nobody can confirm.
   */
  lemma SealsLeaveTheRecord(s: Setup, db: Db, step: Step)
    requires (step.Commit? || step.Seal?) && Transact(s, db, step).Ok?
    ensures db.record.Some? && After(s, db, step).record.Some?
    ensures var record, next := db.record.value, After(s, db, step).record.value;
            if step.Commit? then
              && step.checkpoint.driver == record.driver && step.checkpoint.revision == record.revision
              && Sealing(record.(checkpoint := Some(step.checkpoint)), next, Completed, None)
            else Sealing(record, next, step.outcome, step.error)
  {
    if step.Commit? {
      SealsTell(s, db, db.record.value.(checkpoint := Some(step.checkpoint)), Completed, None);
    } else {
      SealsTell(s, db, db.record.value, step.outcome, step.error);
    }
  }
}
