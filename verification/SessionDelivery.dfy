/**
 The session is a faithful reader of the runtime's log. Whatever else happens to it meanwhile, the
 events it has applied in the current execution are exactly the first `cursor` entries of that
 execution's log, each once and in order, and it decides to complete only at the end of the log.
 */
module SessionDelivery {
  import opened Options
  import opened Tables
  import opened SessionStore
  import opened SessionEvents
  import opened SessionState
  import opened SessionRuns
  import opened SessionShape
  import Delivery
  import J = JobStates

  // --- One batch ---------------------------------------------------------------------------------------

  /** The events applied one after another, each moving the cursor on by one. */
  function AcceptEach(d: Draft, root: Id, events: seq<RuntimeEvent>): Result<Draft>
    decreases |events|
  {
    if events == [] then Ok(d)
    else
      match SessionEvents.Accept(d, root, events[0])
      case Err(error) => Err(error)
      case Ok(next) => AcceptEach(next.(record := next.record.(cursor := d.record.cursor + 1)), root, events[1..])
  }

  lemma EventKeepsCursor(d: Draft, root: Id, event: RuntimeEvent)
    requires SessionEvents.Accept(d, root, event).Ok?
    ensures SessionEvents.Accept(d, root, event).value.record.cursor == d.record.cursor
    ensures SessionEvents.Accept(d, root, event).value.record.phase == d.record.phase
    ensures SessionEvents.Accept(d, root, event).value.record.generation == d.record.generation
  {
  }

  /** A batch is accepted exactly when it has no gap and its new events are; then only those count. */
  lemma {:induction false} BatchAppliesWhatIsFresh(d: Draft, root: Id, entries: seq<J.Stamped>)
    ensures var news := Delivery.Fresh(d.record.cursor, entries);
            && (AcceptEntries(d, root, entries).Ok? <==> news.Some? && AcceptEach(d, root, news.value).Ok?)
            && (AcceptEntries(d, root, entries).Ok? ==> AcceptEntries(d, root, entries) == AcceptEach(d, root, news.value))
    decreases |entries|
  {
    if entries != [] {
      if entries[0].at <= d.record.cursor {
        BatchAppliesWhatIsFresh(d, root, entries[1..]);
      } else if entries[0].at == d.record.cursor + 1 && SessionEvents.Accept(d, root, entries[0].event).Ok? {
        EventKeepsCursor(d, root, entries[0].event);
        var next := SessionEvents.Accept(d, root, entries[0].event).value;
        var moved := next.(record := next.record.(cursor := entries[0].at));
        BatchAppliesWhatIsFresh(moved, root, entries[1..]);
        var rest := Delivery.Fresh(entries[0].at, entries[1..]);
        if rest.Some? { assert ([entries[0].event] + rest.value)[1..] == rest.value; }
      } else {
        assert AcceptEntries(d, root, entries).Err?;
        var rest := Delivery.Fresh(d.record.cursor + 1, entries[1..]);
        if entries[0].at == d.record.cursor + 1 && rest.Some? {
          assert ([entries[0].event] + rest.value)[0] == entries[0].event;
        }
      }
    }
  }

  lemma {:induction false} EachMovesTheCursor(d: Draft, root: Id, events: seq<RuntimeEvent>)
    requires AcceptEach(d, root, events).Ok?
    ensures var next := AcceptEach(d, root, events).value;
            && next.record.cursor == d.record.cursor + |events|
            && next.record.phase == d.record.phase && next.record.generation == d.record.generation
    decreases |events|
  {
    if events != [] {
      EventKeepsCursor(d, root, events[0]);
      var next := SessionEvents.Accept(d, root, events[0]).value;
      EachMovesTheCursor(next.(record := next.record.(cursor := d.record.cursor + 1)), root, events[1..]);
    }
  }

  // --- Every run ---------------------------------------------------------------------------------------

  /** The whole log each execution's job will ever have, by generation. */
  type Logs = nat -> seq<RuntimeEvent>

  function Numbered(log: seq<RuntimeEvent>): seq<J.Stamped> {
    seq(|log|, i requires 0 <= i < |log| => J.Stamped(i + 1, log[i]))
  }

  /** A stretch of the log that began no later than the session has read; complete only at its end. */
  ghost predicate PageFrom(entries: seq<J.Stamped>, completed: bool, start: nat, log: seq<RuntimeEvent>, cursor: nat) {
    && start <= cursor && start + |entries| <= |log|
    && entries == Numbered(log)[start..start + |entries|]
    && (completed ==> start + |entries| == |log|)
  }

  ghost predicate Paged(db: Db, step: Step, logs: Logs) {
    step.Poll? && Fenced(db, step.fence).Ok? ==>
      exists start: nat :: PageFrom(step.entries, step.completed, start, logs(step.fence.generation), db.record.value.cursor)
  }

  /** The session, and what it has applied since its current execution began. */
  datatype Watched = Watched(db: Db, applied: seq<RuntimeEvent>)

  function GenerationOf(db: Db): nat { if db.record.Some? then db.record.value.generation else 0 }

  function Watch(s: Setup, w: Watched, step: Step): Watched {
    var next := After(s, w.db, step);
    if GenerationOf(next) != GenerationOf(w.db) then Watched(next, [])
    else if step.Poll? && Transact(s, w.db, step).Ok? && Delivery.Fresh(w.db.record.value.cursor, step.entries).Some? then
      Watched(next, w.applied + Delivery.Fresh(w.db.record.value.cursor, step.entries).value)
    else Watched(next, w.applied)
  }

  function WatchAll(s: Setup, w: Watched, steps: seq<Step>): Watched
    decreases |steps|
  {
    if steps == [] then w else WatchAll(s, Watch(s, w, steps[0]), steps[1..])
  }

  ghost predicate AllPaged(s: Setup, w: Watched, steps: seq<Step>, logs: Logs)
    decreases |steps|
  {
    steps == [] || (Paged(w.db, steps[0], logs) && AllPaged(s, Watch(s, w, steps[0]), steps[1..], logs))
  }

  ghost predicate Faithful(w: Watched, logs: Logs) {
    w.db.record.Some? && w.db.record.value.execution.Some? ==>
      var record, log := w.db.record.value, logs(w.db.record.value.generation);
      && record.cursor <= |log| && w.applied == log[..record.cursor]
      && (record.phase == Checkpointing ==> record.cursor == |log|)
  }

  lemma {:induction false} InputsKeepTheCursor(d: Draft, driver: Driver, events: seq<InputEvent>)
    requires AcceptAll(d, driver, events).Ok?
    ensures var next := AcceptAll(d, driver, events).value.record;
            || (next.generation == d.record.generation && next.cursor == d.record.cursor && next.phase == d.record.phase
                && next.execution == d.record.execution)
            || (next.generation > d.record.generation && next.cursor == 0 && next.phase == Starting)
    decreases |events|
  {
    if events != [] { InputsKeepTheCursor(AcceptEvent(d, driver, events[0]).value, driver, events[1..]); }
  }

  lemma PageAt(entries: seq<J.Stamped>, completed: bool, start: nat, log: seq<RuntimeEvent>, cursor: nat)
    requires PageFrom(entries, completed, start, log, cursor)
    ensures forall i | 0 <= i < |entries| :: entries[i] == J.Stamped(start + i + 1, log[start + i])
  {
    forall i | 0 <= i < |entries| ensures entries[i] == J.Stamped(start + i + 1, log[start + i]) {
      assert entries[i] == Numbered(log)[start + i];
    }
  }

  lemma StretchOfTheLog(entries: seq<J.Stamped>, start: nat, log: seq<RuntimeEvent>, cursor: nat)
    requires start <= cursor <= start + |entries| <= |log|
    requires forall i | 0 <= i < |entries| :: entries[i] == J.Stamped(start + i + 1, log[start + i])
    ensures Delivery.Events(entries[cursor - start..]) == log[cursor..start + |entries|]
  {
    var rest, stretch := Delivery.Events(entries[cursor - start..]), log[cursor..start + |entries|];
    forall i | 0 <= i < |rest| ensures rest[i] == stretch[i] {
      assert entries[cursor - start..][i] == entries[cursor - start + i];
    }
  }

  lemma PageIsFresh(entries: seq<J.Stamped>, completed: bool, start: nat, log: seq<RuntimeEvent>, cursor: nat)
    returns (end: nat)
    requires PageFrom(entries, completed, start, log, cursor) && cursor <= |log|
    ensures cursor <= end <= |log| && Delivery.Fresh(cursor, entries) == Some(log[cursor..end])
    ensures completed ==> end == |log|
  {
    PageAt(entries, completed, start, log, cursor);
    end := if cursor <= start + |entries| then start + |entries| else cursor;
    FreshOfPage(entries, start, log, cursor);
  }

  lemma FreshOfPage(entries: seq<J.Stamped>, start: nat, log: seq<RuntimeEvent>, cursor: nat)
    requires start <= cursor <= |log| && start + |entries| <= |log|
    requires forall i | 0 <= i < |entries| :: entries[i] == J.Stamped(start + i + 1, log[start + i])
    ensures Delivery.Fresh(cursor, entries)
            == Some(if cursor <= start + |entries| then log[cursor..start + |entries|] else log[cursor..cursor])
  {
    Delivery.FreshIsTheRest(entries, start, cursor);
    assert log[cursor..cursor] == [];
    if start + |entries| > cursor { StretchOfTheLog(entries, start, log, cursor); }
  }

  /** What an accepted batch leaves of the record the reader's claim is about. */
  lemma BatchMovesTheCursor(db: Db, record: Record, entries: seq<J.Stamped>, completed: bool, cancel: bool, news: seq<RuntimeEvent>)
    requires db.record == Some(record) && record.execution.Some? && Shaped(record)
    requires Delivery.Fresh(record.cursor, entries) == Some(news)
    requires AcceptBatch(db, record, entries, completed, cancel).Ok?
    ensures var next := AcceptBatch(db, record, entries, completed, cancel).value.record;
            && next.Some? && next.value.cursor == record.cursor + |news| && next.value.generation == record.generation
            && (next.value.phase == Checkpointing ==> completed || record.phase == Checkpointing)
  {
    var d, root := Draft(db, record), record.execution.value.turn;
    BatchAppliesWhatIsFresh(d, root, entries);
    EachMovesTheCursor(d, root, news);
  }

  lemma PollIsFaithful(s: Setup, w: Watched, step: Step, logs: Logs)
    requires step.Poll? && WellShaped(w.db) && Faithful(w, logs) && Paged(w.db, step, logs)
    requires Transact(s, w.db, step).Ok?
    ensures Faithful(Watch(s, w, step), logs)
  {
    var record := w.db.record.value;
    var log := logs(record.generation);
    var start: nat :| PageFrom(step.entries, step.completed, start, log, record.cursor);
    var end := PageIsFresh(step.entries, step.completed, start, log, record.cursor);
    PollCatchesUp(s, w, step, logs, end);
  }

  lemma PollCatchesUp(s: Setup, w: Watched, step: Step, logs: Logs, end: nat)
    requires step.Poll? && WellShaped(w.db) && Faithful(w, logs) && Transact(s, w.db, step).Ok?
    requires var record, log := w.db.record.value, logs(w.db.record.value.generation);
             && record.cursor <= end <= |log| && Delivery.Fresh(record.cursor, step.entries) == Some(log[record.cursor..end])
             && (step.completed ==> end == |log|)
    ensures Faithful(Watch(s, w, step), logs)
  {
    var record, log := w.db.record.value, logs(w.db.record.value.generation);
    var news := log[record.cursor..end];
    assert log[..record.cursor] + news == log[..end];
    BatchMovesTheCursor(w.db, record, step.entries, step.completed, step.cancel, news);
    assert Transact(s, w.db, step) == AcceptBatch(w.db, record, step.entries, step.completed, step.cancel);
  }

  lemma SealsAreFaithful(s: Setup, w: Watched, step: Step, logs: Logs)
    requires (step.Commit? || step.Seal?) && WellShaped(w.db) && Faithful(w, logs) && Transact(s, w.db, step).Ok?
    ensures Faithful(Watch(s, w, step), logs)
  {
    var db := w.db;
    if step.Commit? {
      SealedSessionsStartOver(s, db, db.record.value.(checkpoint := Some(step.checkpoint)), Completed, None);
    } else {
      SealedSessionsStartOver(s, db, db.record.value, step.outcome, step.error);
    }
  }

  lemma OtherStepsAreFaithful(s: Setup, w: Watched, step: Step, logs: Logs)
    requires !step.Poll? && WellShaped(w.db) && Faithful(w, logs) && Transact(s, w.db, step).Ok?
    ensures Faithful(Watch(s, w, step), logs)
  {
    match step
    case Submit(driver, events, key) =>
      if key !in w.db.accepted { InputsKeepTheCursor(Draft(w.db, w.db.record.value), driver, events); }
    case Commit(_, _) => SealsAreFaithful(s, w, step, logs);
    case Seal(_, _, _) => SealsAreFaithful(s, w, step, logs);
    case _ =>
  }

  /** After a seal either nothing runs, or a new generation starts at the beginning of its own log. */
  lemma SealedSessionsStartOver(s: Setup, db: Db, record: Record, outcome: TurnStatus, error: Option<string>)
    requires record.execution.Some? && Complete(s, db, record, outcome, error).Ok?
    ensures var next := Complete(s, db, record, outcome, error).value;
            next.record.Some? && next.record.value.execution.Some? ==>
              next.record.value.generation == record.generation + 1 && next.record.value.cursor == 0
              && next.record.value.phase == Starting
  {
    var d := Sealed(db, record, outcome, error).value;
    assert d.db.record == Some(d.record) && d.record == SealedRecord(record, outcome, error);
  }

  lemma {:induction false} RunIsFaithful(s: Setup, w: Watched, steps: seq<Step>, logs: Logs)
    requires WellShaped(w.db) && Faithful(w, logs) && AllPaged(s, w, steps, logs)
    ensures Faithful(WatchAll(s, w, steps), logs) && WatchAll(s, w, steps).db == Run(s, w.db, steps)
    decreases |steps|
  {
    if steps != [] {
      StepKeepsShape(s, w.db, steps[0]);
      if Transact(s, w.db, steps[0]).Ok? {
        if steps[0].Poll? { PollIsFaithful(s, w, steps[0], logs); } else { OtherStepsAreFaithful(s, w, steps[0], logs); }
      }
      RunIsFaithful(s, Watch(s, w, steps[0]), steps[1..], logs);
    }
  }

  /**
   On every run, with polls answered by any pages of the execution's log, repeated or stale: the
   events applied in the current execution are exactly the first `cursor` of its log, and it is
   about to complete only when that is the whole log.
   */
  lemma SessionReadsItsLogExactlyOnce(
      s: Setup, driver: string, revision: string, sandboxed: bool, transcript: Option<string>,
      checkpoint: Option<Checkpoint>, steps: seq<Step>, logs: Logs)
    requires AllPaged(s, Watched(Created(driver, revision, sandboxed, transcript, checkpoint), []), steps, logs)
    ensures var w := WatchAll(s, Watched(Created(driver, revision, sandboxed, transcript, checkpoint), []), steps);
            && w.db == Run(s, Created(driver, revision, sandboxed, transcript, checkpoint), steps)
            && (w.db.record.Some? && w.db.record.value.execution.Some? ==>
                && w.db.record.value.cursor <= |logs(w.db.record.value.generation)|
                && w.applied == logs(w.db.record.value.generation)[..w.db.record.value.cursor]
                && (w.db.record.value.phase == Checkpointing
                    ==> w.applied == logs(w.db.record.value.generation)))
  {
    var w := Watched(Created(driver, revision, sandboxed, transcript, checkpoint), []);
    RunIsFaithful(s, w, steps, logs);
  }

  /** The pages a job hands out are pages of the log it ends up with. */
  lemma JobPagesArePages(b: J.Batch, start: nat, job: J.Job, log: seq<RuntimeEvent>, cursor: nat)
    requires Delivery.PageOf(b, start, job, cursor)
    requires job.events <= Numbered(log) && (job.outcome.Completed? ==> |job.events| == |log|)
    ensures PageFrom(b.events, b.status.Completed?, start, log, cursor)
  {
    assert job.events == Numbered(log)[..|job.events|];
    assert job.events[start..start + |b.events|] == Numbered(log)[start..start + |b.events|];
  }
}
