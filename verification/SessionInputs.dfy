/**
 What a session accepts is not lost. A queued steer or tool result belongs to the active turn and
 holds completion back until the executor takes or refuses it; refused steers become the next
 turn's input in the order they were refused, as far as the one page read at the seal reaches.
 */
module SessionInputs {
  import opened Options
  import opened Tables
  import opened SessionStore
  import opened SessionEvents
  import opened SessionState
  import opened SessionFeeds
  import opened SessionRuns
  import opened SessionShape
  import opened Pages
  import J = JobStates

  // --- What the reconciler knows when it acts ---------------------------------------------------------

  /**
   A turn is marked running only while starting, a poll treats it as cancelled only after reading its
   cancellation, a checkpoint is committed only while checkpointing, and a command is answered only
   while it is queued.
   */
  ghost predicate Driven(db: Db, step: Step) {
    && (step.Start? && db.record.Some? ==> db.record.value.phase == Starting)
    && (step.Poll? && step.cancel ==> step.fence.turn in db.cancellations)
    && (step.Commit? && db.record.Some? ==> db.record.value.phase == Checkpointing)
    && (step.Deliver? || step.Refuse? ==> Row(step.operation.id, step.operation) in db.commands)
  }

  ghost predicate AllDriven(s: Setup, db: Db, steps: seq<Step>)
    decreases |steps|
  {
    steps == [] || (Driven(db, steps[0]) && AllDriven(s, After(s, db, steps[0]), steps[1..]))
  }

  // --- The queues ---------------------------------------------------------------------------------------

  ghost predicate Fresh<V>(t: Table<Id, V>, minted: nat) { forall r | r in t :: r.key.Minted? && r.key.n < minted }

  /** The queues of a session whose active turn, if any, is `active`. */
  ghost predicate Queues(db: Db, active: Option<Id>) {
    && Distinct(db.commands) && Distinct(db.refused)
    && Fresh(db.commands, db.feed.minted) && Fresh(db.refused, db.feed.minted)
    && (forall r | r in db.commands :: active == Some(r.value.turn) && r.value.id == r.key && !Has(db.refused, r.key))
    && (forall id | id in db.cancellations :: active == Some(id))
    && (active.None? ==> db.refused == [])
  }

  /** Nothing undelivered outlives the decision to complete, unless the turn was cancelled. */
  predicate Drained(db: Db, record: Record) {
    record.phase == Checkpointing && record.execution.Some?
    ==> db.commands == [] || record.execution.value.turn in db.cancellations
  }

  function ActiveOf(record: Record): Option<Id> {
    if record.execution.Some? then Some(record.execution.value.turn) else None
  }

  ghost predicate Mail(db: Db) {
    if db.record.Some? then Queues(db, ActiveOf(db.record.value)) && Drained(db, db.record.value)
    else Queues(db, None)
  }

  /** Everything but the queues may have moved, and identifiers were only minted. */
  ghost predicate SameQueues(a: Db, b: Db) {
    && b.commands == a.commands && b.cancellations == a.cancellations && b.refused == a.refused
    && b.accepted == a.accepted && b.environment == a.environment && b.feed.minted >= a.feed.minted
  }

  lemma ChildTurnKeepsQueues(db: Db, id: Id, subagent: Id, status: TurnStatus)
    requires AcceptSubagentTurn(db, id, subagent, status).Ok?
    ensures SameQueues(db, AcceptSubagentTurn(db, id, subagent, status).value)
  {
    FinishRowsMints(Emit(db, TurnCreated(Turn(id, Some(subagent), status, None, None))).feed,
                    OfTurn(db.feed.outputs, id), Some(subagent));
    var previous := Get(db.turns, id);
    var turn := Turn(id, Some(subagent), status, None, if previous.Some? then previous.value.usage else None);
    FinishRowsMints(Emit(PutTurn(db, turn), TurnCreated(turn)).feed, OfTurn(db.feed.outputs, id), Some(subagent));
    FinishRowsMints(db.feed, OfTurn(db.feed.outputs, id), Some(subagent));
  }

  lemma EventKeepsQueues(d: Draft, root: Id, event: RuntimeEvent)
    requires Accept(d, root, event).Ok?
    ensures SameQueues(d.db, Accept(d, root, event).value.db)
  {
    match event
    case SubagentTurn(id, subagent, status) => ChildTurnKeepsQueues(d.db, id, subagent, status);
    case Output(native, scope, body) =>
      BodyMints(d.db.feed, Resolve(d.db.feed, OutputKey(Named(scope.turn, root), native), scope.subagent), body);
    case _ =>
  }

  lemma {:induction false} EntriesKeepQueues(d: Draft, root: Id, entries: seq<J.Stamped>)
    requires AcceptEntries(d, root, entries).Ok?
    ensures SameQueues(d.db, AcceptEntries(d, root, entries).value.db)
    decreases |entries|
  {
    if entries != [] {
      if entries[0].at > d.record.cursor {
        EventKeepsQueues(d, root, entries[0].event);
        var next := Accept(d, root, entries[0].event).value;
        EntriesKeepQueues(next.(record := next.record.(cursor := entries[0].at)), root, entries[1..]);
      } else {
        EntriesKeepQueues(d, root, entries[1..]);
      }
    }
  }

  lemma {:induction false} ChildrenKeepQueues(db: Db, children: seq<Turn>, outcome: TurnStatus, error: Option<TurnError>)
    ensures SameQueues(db, CloseChildren(db, children, outcome, error))
    decreases |children|
  {
    if children != [] {
      FinishRowsMints(db.feed, OfTurn(db.feed.outputs, children[0].id), children[0].subagent);
      ChildrenKeepQueues(CloseChild(db, children[0], outcome, error), children[1..], outcome, error);
    }
  }

  // --- Queueing and answering -------------------------------------------------------------------------------

  /** A steer or tool result goes to the end of the queue under a new identifier. */
  lemma QueuedLast(db: Db, turn: Id, control: Control, items: seq<Id>)
    requires Queues(db, Some(turn))
    ensures var next := Enqueue(db, turn, control, items);
            && Queues(next, Some(turn))
            && (!control.Cancel? ==>
                var operation := Operation(Minted(db.feed.minted), turn, control, items);
                next.commands == db.commands + [Row(operation.id, operation)] && next.cancellations == db.cancellations)
            && (control.Cancel? ==> next.commands == db.commands && turn in next.cancellations)
  {
    var id := Minted(db.feed.minted);
    GetIn(db.commands, id);
    GetIn(db.refused, id);
    var operation := Operation(id, turn, control, items);
    PutStaysDistinct(db.commands, id, operation);
    PutNewAppends(db.commands, id, operation);
  }

  lemma DiscardKeepsQueues(db: Db, operation: Operation, active: Option<Id>)
    requires Queues(db, active)
    ensures Queues(Discard(db, operation), active)
    ensures forall r :: r in Discard(db, operation).commands <==> r in db.commands && r.key != operation.id
    ensures db.commands == [] ==> Discard(db, operation).commands == []
  {
    RemoveStaysDistinct(db.commands, operation.id);
    forall r ensures r in Discard(db, operation).commands <==> r in db.commands && r.key != operation.id {
      RemoveMember(db.commands, operation.id, r);
    }
  }

  /** A refused steer's input goes behind every input refused before it. */
  lemma RefusedLast(db: Db, operation: Operation, active: Option<Id>)
    requires Queues(db, active) && Row(operation.id, operation) in db.commands
    ensures Queues(Reject(db, operation), active)
    ensures forall r :: r in Reject(db, operation).commands <==> r in db.commands && r.key != operation.id
    ensures Reject(db, operation).refused
            == db.refused + if operation.control.Steer? then [Row(operation.id, operation.control.input)] else []
  {
    DiscardKeepsQueues(db, operation, active);
    if operation.control.Steer? {
      var input := operation.control.input;
      PutStaysDistinct(db.refused, operation.id, input);
      PutNewAppends(db.refused, operation.id, input);
      forall r | r in Reject(db, operation).commands ensures !Has(Reject(db, operation).refused, r.key) {
        PutGet(db.refused, operation.id, input, r.key);
      }
    }
  }

  // --- Every run keeps the queues ------------------------------------------------------------------------------

  lemma SealClearsQueues(db: Db, record: Record, outcome: TurnStatus, error: Option<string>)
    requires record.execution.Some? && Queues(db, ActiveOf(record)) && Sealed(db, record, outcome, error).Ok?
    ensures var d := Sealed(db, record, outcome, error).value;
            && d.db.commands == [] && d.db.cancellations == map[] && d.db.refused == db.refused
            && d.db.accepted == db.accepted && d.db.environment == db.environment && d.db.record == Some(d.record) && d.record == SealedRecord(record, outcome, error)
            && d.db.feed.minted >= db.feed.minted
  {
    var failure := TurnErrorOf(error);
    ChildrenKeepQueues(db, OpenChildren(db, outcome), outcome, failure);
    var closed := CloseChildren(db, OpenChildren(db, outcome), outcome, failure);
    var turn := Get(closed.turns, record.execution.value.turn).value.(status := outcome, error := failure);
    FinishRowsMints(closed.feed, OfTurn(closed.feed.outputs, turn.id), None);
  }

  lemma CompleteKeepsMail(s: Setup, db: Db, record: Record, outcome: TurnStatus, error: Option<string>)
    requires record.execution.Some? && Queues(db, ActiveOf(record)) && Complete(s, db, record, outcome, error).Ok?
    ensures var next := Complete(s, db, record, outcome, error).value;
            && Mail(next) && next.commands == [] && next.cancellations == map[] && next.refused == []
            && next.accepted == db.accepted && next.environment == db.environment
  {
    SealClearsQueues(db, record, outcome, error);
    var d := Sealed(db, record, outcome, error).value;
    var input := Joined(d.db.refused[..PageOfRefused(s, d.db.refused)]);
    var started := Begin(d.db.(refused := []), d.record, input);
    AddInputMints(started.db.feed, started.record.execution.value.turn, input);
  }

  lemma NoneQueued(db: Db)
    requires Queues(db, None)
    ensures db.commands == [] && db.cancellations == map[] && db.refused == []
  {
    FirstIsRow(db.commands);
  }

  lemma MessageKeepsQueues(d: Draft, driver: Driver, input: seq<Message>)
    requires Queues(d.db, ActiveOf(d.record)) && d.record.phase != Checkpointing && AcceptMessage(d, driver, input).Ok?
    ensures var next := AcceptMessage(d, driver, input).value;
            && Queues(next.db, ActiveOf(next.record)) && next.record.phase != Checkpointing
            && d.db.commands <= next.db.commands && next.db.accepted == d.db.accepted
            && next.db.environment == d.db.environment
  {
    if d.record.execution.Some? {
      var turn := d.record.execution.value.turn;
      var (feed, ids) := AddInput(d.db.feed, turn, input);
      AddInputMints(d.db.feed, turn, input);
      QueuedLast(d.db.(feed := feed), turn, Steer(input), ids);
    } else {
      NoneQueued(d.db);
      var started := Begin(d.db, d.record, input);
      AddInputMints(started.db.feed, started.record.execution.value.turn, input);
    }
  }

  /** Apart from what it queues, a tool result leaves the queues and the execution alone. */
  lemma AnsweringOnlyQueues(d: Draft, driver: Driver, event: InputEvent, queued: Db)
    requires event.UserTool? && AcceptTool(d, driver, event).Ok?
    requires var turn := Get(d.db.turns, event.turn).value;
             queued == Enqueue(d.db.(feed := AddItem(d.db.feed, turn.subagent, event.turn, if event.success then Done else Bad,
                                                     Answer(event.call, event.output))),
                               d.record.execution.value.turn, ToolResult(event.call, event.success, event.output), [])
    ensures var next := AcceptTool(d, driver, event).value;
            SameQueues(queued, next.db) && next.record.execution == d.record.execution && next.record.phase == d.record.phase
  {
  }

  lemma ToolKeepsQueues(d: Draft, driver: Driver, event: InputEvent)
    requires event.UserTool? && Queues(d.db, ActiveOf(d.record)) && AcceptTool(d, driver, event).Ok?
    ensures var next := AcceptTool(d, driver, event).value;
            && Queues(next.db, ActiveOf(next.record)) && next.record.phase == d.record.phase
            && d.db.commands <= next.db.commands && next.db.accepted == d.db.accepted
            && next.db.environment == d.db.environment
  {
    var turn := Get(d.db.turns, event.turn).value;
    var status := if event.success then Done else Bad;
    var root, control := d.record.execution.value.turn, ToolResult(event.call, event.success, event.output);
    var answered := d.db.(feed := AddItem(d.db.feed, turn.subagent, event.turn, status, Answer(event.call, event.output)));
    QueuedLast(answered, root, control, []);
    AnsweringOnlyQueues(d, driver, event, Enqueue(answered, root, control, []));
  }

  lemma InputKeepsQueues(d: Draft, driver: Driver, event: InputEvent)
    requires Queues(d.db, ActiveOf(d.record)) && d.record.phase != Checkpointing && AcceptEvent(d, driver, event).Ok?
    ensures var next := AcceptEvent(d, driver, event).value;
            && Queues(next.db, ActiveOf(next.record)) && next.record.phase != Checkpointing
            && d.db.commands <= next.db.commands && next.db.accepted == d.db.accepted
            && next.db.environment == d.db.environment
  {
    match event
    case UserMessage(input) => MessageKeepsQueues(d, driver, input);
    case UserCancel =>
      if d.record.execution.Some? { QueuedLast(d.db, d.record.execution.value.turn, Cancel, []); }
    case UserTool(_, _, _, _, _) => ToolKeepsQueues(d, driver, event);
  }

  lemma {:induction false} InputsKeepQueues(d: Draft, driver: Driver, events: seq<InputEvent>)
    requires Queues(d.db, ActiveOf(d.record)) && d.record.phase != Checkpointing && AcceptAll(d, driver, events).Ok?
    ensures var next := AcceptAll(d, driver, events).value;
            && Queues(next.db, ActiveOf(next.record)) && next.record.phase != Checkpointing
            && d.db.commands <= next.db.commands && next.db.accepted == d.db.accepted
            && next.db.environment == d.db.environment
    decreases |events|
  {
    if events != [] {
      InputKeepsQueues(d, driver, events[0]);
      InputsKeepQueues(AcceptEvent(d, driver, events[0]).value, driver, events[1..]);
    }
  }

  lemma SubmissionKeepsMail(s: Setup, db: Db, driver: Driver, events: seq<InputEvent>, key: string)
    requires WellShaped(db) && Mail(db) && AcceptInput(s, db, driver, events, key).Ok?
    ensures Mail(AcceptInput(s, db, driver, events, key).value)
    ensures db.commands <= AcceptInput(s, db, driver, events, key).value.commands
  {
    if key !in db.accepted { InputsKeepQueues(Draft(db, db.record.value), driver, events); }
  }

  lemma PollKeepsMail(db: Db, record: Record, step: Step)
    requires db.record == Some(record) && record.execution.Some? && WellShaped(db) && Mail(db)
    requires step.Poll? && Driven(db, step) && step.fence.turn == record.execution.value.turn
    requires AcceptBatch(db, record, step.entries, step.completed, step.cancel).Ok?
    ensures var next := AcceptBatch(db, record, step.entries, step.completed, step.cancel).value;
            Mail(next) && SameQueues(db, next)
  {
    var root := record.execution.value.turn;
    EntriesKeepQueues(Draft(db, record), root, step.entries);
    EntriesKeepShape(Draft(db, record), root, step.entries);
    EntriesKeepPhase(Draft(db, record), root, step.entries);
  }

  lemma {:induction false} EntriesKeepPhase(d: Draft, root: Id, entries: seq<J.Stamped>)
    requires AcceptEntries(d, root, entries).Ok?
    ensures AcceptEntries(d, root, entries).value.record.phase == d.record.phase
    decreases |entries|
  {
    if entries != [] {
      if entries[0].at > d.record.cursor {
        var next := Accept(d, root, entries[0].event).value;
        EntriesKeepPhase(next.(record := next.record.(cursor := entries[0].at)), root, entries[1..]);
      } else {
        EntriesKeepPhase(d, root, entries[1..]);
      }
    }
  }

  lemma AnswerKeepsMail(db: Db, record: Record, step: Step)
    requires (step.Deliver? || step.Refuse?) && Driven(db, step) && db.record == Some(record) && Mail(db)
    ensures Mail(if step.Deliver? then Discard(db, step.operation) else Reject(db, step.operation))
  {
    if step.Deliver? { DiscardKeepsQueues(db, step.operation, ActiveOf(record)); }
    else {
      RefusedLast(db, step.operation, ActiveOf(record));
      DiscardKeepsQueues(db, step.operation, ActiveOf(record));
    }
  }

  lemma FencedStepKeepsMail(s: Setup, db: Db, record: Record, step: Step)
    requires IsFenced(step) && WellShaped(db) && Mail(db) && Driven(db, step)
    requires Fenced(db, step.fence) == Ok(record) && Reconcile(s, db, record, step).Ok?
    ensures Mail(Reconcile(s, db, record, step).value)
  {
    match step
    case Start(_) =>
    case Poll(_, _, _, _) => PollKeepsMail(db, record, step);
    case Commit(_, checkpoint) => CompleteKeepsMail(s, db, record.(checkpoint := Some(checkpoint)), Completed, None);
    case Seal(_, outcome, error) => CompleteKeepsMail(s, db, record, outcome, error);
    case Deliver(_, _) => AnswerKeepsMail(db, record, step);
    case Refuse(_, _) => AnswerKeepsMail(db, record, step);
  }

  lemma ReportKeepsMail(db: Db, environment: EnvironmentStatus)
    requires WellShaped(db) && Mail(db) && ApplyEnvironment(db, environment).Ok?
    ensures Mail(ApplyEnvironment(db, environment).value)
  {
    var next := ApplyEnvironment(db, environment).value;
    assert next.commands == db.commands && next.cancellations == db.cancellations && next.refused == db.refused;
    assert ActiveOf(next.record.value) == ActiveOf(db.record.value);
  }

  lemma DeletionKeepsMail(db: Db)
    requires Mail(db) && MarkDeleted(db).Ok?
    ensures Mail(MarkDeleted(db).value)
  {
  }

  lemma ClientStepKeepsMail(s: Setup, db: Db, step: Step)
    requires WellShaped(db) && Mail(db) && !IsFenced(step) && Transact(s, db, step).Ok?
    ensures Mail(Transact(s, db, step).value)
  {
    match step
    case Submit(driver, events, key) => SubmissionKeepsMail(s, db, driver, events, key);
    case Report(environment) => ReportKeepsMail(db, environment);
    case Delete => DeletionKeepsMail(db);
    case Drop =>
  }

  lemma StepKeepsMail(s: Setup, db: Db, step: Step)
    requires WellShaped(db) && Mail(db) && Driven(db, step)
    ensures Mail(After(s, db, step))
  {
    if Transact(s, db, step).Ok? {
      if IsFenced(step) { FencedStepKeepsMail(s, db, db.record.value, step); } else { ClientStepKeepsMail(s, db, step); }
    }
  }

  // --- What completion waits for --------------------------------------------------------------------------------

  predicate Completing(db: Db) { db.record.Some? && db.record.value.phase == Checkpointing }

  /** The executions that a poll treated as cancelled. */
  function KnownCancelled(step: Step): set<Fence> { if step.Poll? && step.cancel then {step.fence} else {} }

  function AllKnownCancelled(steps: seq<Step>): set<Fence> {
    if steps == [] then {} else KnownCancelled(steps[0]) + AllKnownCancelled(steps[1..])
  }

  /** A turn about to complete has nothing queued, unless a poll of it knew of its cancellation. */
  predicate Settles(db: Db, known: set<Fence>) {
    Completing(db) && db.commands != [] ==> FenceOf(db).Some? && FenceOf(db).value in known
  }

  lemma PollSettles(db: Db, record: Record, step: Step, known: set<Fence>)
    requires db.record == Some(record) && record.execution.Some? && WellShaped(db) && Mail(db) && Settles(db, known)
    requires step.Poll? && Driven(db, step) && Fenced(db, step.fence) == Ok(record)
    requires AcceptBatch(db, record, step.entries, step.completed, step.cancel).Ok?
    ensures Settles(AcceptBatch(db, record, step.entries, step.completed, step.cancel).value, known + KnownCancelled(step))
  {
    var root := record.execution.value.turn;
    PollKeepsMail(db, record, step);
    EntriesKeepShape(Draft(db, record), root, step.entries);
    EntriesKeepPhase(Draft(db, record), root, step.entries);
  }

  lemma SubmissionSettles(s: Setup, db: Db, driver: Driver, events: seq<InputEvent>, key: string, known: set<Fence>)
    requires WellShaped(db) && Mail(db) && Settles(db, known) && AcceptInput(s, db, driver, events, key).Ok?
    ensures Settles(AcceptInput(s, db, driver, events, key).value, known)
    ensures Completing(db) ==> AcceptInput(s, db, driver, events, key).value == db
    ensures !Completing(db) ==> !Completing(AcceptInput(s, db, driver, events, key).value)
  {
    if key !in db.accepted { InputsKeepQueues(Draft(db, db.record.value), driver, events); }
  }

  lemma AnswerSettles(db: Db, record: Record, step: Step, known: set<Fence>)
    requires (step.Deliver? || step.Refuse?) && Driven(db, step) && db.record == Some(record) && Mail(db) && Settles(db, known)
    ensures Settles(if step.Deliver? then Discard(db, step.operation) else Reject(db, step.operation), known)
  {
    DiscardKeepsQueues(db, step.operation, ActiveOf(record));
  }

  lemma FencedStepSettles(s: Setup, db: Db, record: Record, step: Step, known: set<Fence>)
    requires IsFenced(step) && WellShaped(db) && Mail(db) && Driven(db, step) && Settles(db, known)
    requires Fenced(db, step.fence) == Ok(record) && Reconcile(s, db, record, step).Ok?
    ensures Settles(Reconcile(s, db, record, step).value, known + KnownCancelled(step))
  {
    match step
    case Start(_) =>
    case Poll(_, _, _, _) => PollSettles(db, record, step, known);
    case Commit(_, checkpoint) => CompleteKeepsMail(s, db, record.(checkpoint := Some(checkpoint)), Completed, None);
    case Seal(_, outcome, error) => CompleteKeepsMail(s, db, record, outcome, error);
    case Deliver(_, _) => AnswerSettles(db, record, step, known);
    case Refuse(_, _) => AnswerSettles(db, record, step, known);
  }

  lemma ClientStepSettles(s: Setup, db: Db, step: Step, known: set<Fence>)
    requires WellShaped(db) && Mail(db) && !IsFenced(step) && Settles(db, known) && Transact(s, db, step).Ok?
    ensures Settles(Transact(s, db, step).value, known)
  {
    match step
    case Submit(driver, events, key) => SubmissionSettles(s, db, driver, events, key, known);
    case Report(environment) => ReportSettles(db, environment, known);
    case Delete =>
    case Drop =>
  }

  lemma ReportSettles(db: Db, environment: EnvironmentStatus, known: set<Fence>)
    requires Settles(db, known) && ApplyEnvironment(db, environment).Ok?
    ensures Settles(ApplyEnvironment(db, environment).value, known)
  {
  }

  lemma StepSettles(s: Setup, db: Db, step: Step, known: set<Fence>)
    requires WellShaped(db) && Mail(db) && Driven(db, step) && Settles(db, known)
    ensures Settles(After(s, db, step), known + KnownCancelled(step))
  {
    if Transact(s, db, step).Ok? {
      if IsFenced(step) {
        FencedStepSettles(s, db, db.record.value, step, known);
      } else {
        ClientStepSettles(s, db, step, known);
      }
    }
  }

  lemma {:induction false} RunSettles(s: Setup, db: Db, steps: seq<Step>, known: set<Fence>)
    requires WellShaped(db) && Mail(db) && AllDriven(s, db, steps) && Settles(db, known)
    ensures Settles(Run(s, db, steps), known + AllKnownCancelled(steps))
    decreases |steps|
  {
    if steps != [] {
      StepKeepsShape(s, db, steps[0]);
      StepKeepsMail(s, db, steps[0]);
      StepSettles(s, db, steps[0], known);
      RunSettles(s, After(s, db, steps[0]), steps[1..], known + KnownCancelled(steps[0]));
      assert known + KnownCancelled(steps[0]) + AllKnownCancelled(steps[1..]) == known + AllKnownCancelled(steps);
    } else {
      assert known + {} == known;
    }
  }

  lemma {:induction false} RunKeepsMail(s: Setup, db: Db, steps: seq<Step>)
    requires WellShaped(db) && Mail(db) && AllDriven(s, db, steps)
    ensures WellShaped(Run(s, db, steps)) && Mail(Run(s, db, steps))
    decreases |steps|
  {
    if steps != [] {
      StepKeepsShape(s, db, steps[0]);
      StepKeepsMail(s, db, steps[0]);
      RunKeepsMail(s, After(s, db, steps[0]), steps[1..]);
    }
  }

  /**
   On every driven run: queued commands belong to the active turn, none waits while no turn is
   active, and none waits in a turn about to complete unless a poll of that very execution knew of
   its cancellation, which is then recorded.
   */
  lemma QueuesAreKept(s: Setup, driver: string, revision: string, sandboxed: bool, transcript: Option<string>,
                      checkpoint: Option<Checkpoint>, steps: seq<Step>)
    requires AllDriven(s, Created(driver, revision, sandboxed, transcript, checkpoint), steps)
    ensures var db := Run(s, Created(driver, revision, sandboxed, transcript, checkpoint), steps);
            && Mail(db)
            && (Completing(db) && db.commands != []
                ==> && FenceOf(db).Some? && FenceOf(db).value in AllKnownCancelled(steps)
                    && FenceOf(db).value.turn in db.cancellations)
  {
    RunSettles(s, Created(driver, revision, sandboxed, transcript, checkpoint), steps, {});
    RunKeepsMail(s, Created(driver, revision, sandboxed, transcript, checkpoint), steps);
    var db := Run(s, Created(driver, revision, sandboxed, transcript, checkpoint), steps);
    FirstIsRow(db.commands);
  }

  // --- A command waits until it is answered ----------------------------------------------------------------------

  predicate Answers(step: Step, id: Id) { (step.Deliver? || step.Refuse?) && step.operation.id == id }

  predicate Seals(step: Step) { step.Commit? || step.Seal? }

  lemma UnansweredCommandsStay(s: Setup, db: Db, r: Row<Id, Operation>, step: Step)
    requires WellShaped(db) && Mail(db) && Driven(db, step) && r in db.commands
    requires !Answers(step, r.key) && !Seals(step)
    ensures r in After(s, db, step).commands
  {
    if Transact(s, db, step).Ok? {
      match step
      case Submit(driver, events, key) =>
        SubmissionKeepsMail(s, db, driver, events, key);
        assert r in db.commands;
      case Poll(_, _, _, _) => PollKeepsMail(db, db.record.value, step);
      case Deliver(_, operation) => DiscardKeepsQueues(db, operation, ActiveOf(db.record.value));
      case Refuse(_, operation) => RefusedLast(db, operation, ActiveOf(db.record.value));
      case _ =>
    }
  }

  lemma {:induction false} UnansweredCommandsWait(s: Setup, db: Db, r: Row<Id, Operation>, steps: seq<Step>)
    requires WellShaped(db) && Mail(db) && AllDriven(s, db, steps) && r in db.commands
    requires forall step | step in steps :: !Answers(step, r.key) && !Seals(step)
    ensures var later := Run(s, db, steps);
            && WellShaped(later) && Mail(later) && r in later.commands
            && later.record.Some? && ActiveOf(later.record.value) == Some(r.value.turn)
    decreases |steps|
  {
    if steps != [] {
      var step := steps[0];
      assert step in steps;
      StepKeepsShape(s, db, step);
      StepKeepsMail(s, db, step);
      UnansweredCommandsStay(s, db, r, step);
      forall later | later in steps[1..] ensures !Answers(later, r.key) && !Seals(later) { assert later in steps; }
      UnansweredCommandsWait(s, After(s, db, step), r, steps[1..]);
    }
  }

  /**
   A turn with a command nobody has taken or refused cannot be about to complete, however long
   the run, unless a poll knew of its cancellation: completion waits for every accepted command.
   */
  lemma UnansweredCommandsHoldCompletionBack(s: Setup, db: Db, r: Row<Id, Operation>, steps: seq<Step>)
    requires WellShaped(db) && Mail(db) && AllDriven(s, db, steps) && r in db.commands
    requires forall step | step in steps :: !Answers(step, r.key) && !Seals(step)
    ensures var later := Run(s, db, steps);
            && r in later.commands && later.record.Some? && ActiveOf(later.record.value) == Some(r.value.turn)
            && (Completing(later) && !Completing(db) ==>
                  && r.value.turn in later.cancellations
                  && FenceOf(later).Some? && FenceOf(later).value in AllKnownCancelled(steps))
  {
    UnansweredCommandsWait(s, db, r, steps);
    if !Completing(db) { RunSettles(s, db, steps, {}); }
  }

  lemma DrainedStays(s: Setup, db: Db, step: Step)
    requires WellShaped(db) && Mail(db) && Driven(db, step) && !Seals(step)
    requires Completing(db) && db.commands == []
    ensures var next := After(s, db, step);
            Completing(next) && next.commands == [] && FenceOf(next) == FenceOf(db)
  {
    if Transact(s, db, step).Ok? {
      match step
      case Submit(driver, events, key) => SubmissionSettles(s, db, driver, events, key, {});
      case Poll(_, entries, _, _) =>
        PollKeepsMail(db, db.record.value, step);
        EntriesKeepShape(Draft(db, db.record.value), db.record.value.execution.value.turn, entries);
        EntriesKeepPhase(Draft(db, db.record.value), db.record.value.execution.value.turn, entries);
      case _ =>
    }
  }

  lemma {:induction false} DrainedStaysOn(s: Setup, db: Db, steps: seq<Step>)
    requires WellShaped(db) && Mail(db) && AllDriven(s, db, steps) && forall step | step in steps :: !Seals(step)
    requires Completing(db) && db.commands == []
    ensures var later := Run(s, db, steps);
            Completing(later) && later.commands == [] && FenceOf(later) == FenceOf(db)
    decreases |steps|
  {
    if steps != [] {
      assert steps[0] in steps;
      StepKeepsShape(s, db, steps[0]);
      StepKeepsMail(s, db, steps[0]);
      DrainedStays(s, db, steps[0]);
      forall later | later in steps[1..] ensures !Seals(later) { assert later in steps; }
      DrainedStaysOn(s, After(s, db, steps[0]), steps[1..]);
    }
  }

  /**
   A poll that knew of no cancellation and found the turn complete leaves nothing queued, and from then
   until the turn is sealed nothing is queued: every steer and tool result has been answered.
   */
  lemma CompletionLeavesNothingQueued(s: Setup, db: Db, poll: Step, steps: seq<Step>)
    requires WellShaped(db) && Mail(db) && poll.Poll? && !poll.cancel && Transact(s, db, poll).Ok?
    requires !Completing(db) && Completing(After(s, db, poll))
    requires AllDriven(s, After(s, db, poll), steps) && forall step | step in steps :: !Seals(step)
    ensures var later := Run(s, After(s, db, poll), steps);
            Completing(later) && later.commands == [] && FenceOf(later) == Some(poll.fence)
  {
    var record := db.record.value;
    EntriesKeepShape(Draft(db, record), record.execution.value.turn, poll.entries);
    EntriesKeepPhase(Draft(db, record), record.execution.value.turn, poll.entries);
    StepKeepsShape(s, db, poll);
    StepKeepsMail(s, db, poll);
    DrainedStaysOn(s, After(s, db, poll), steps);
  }

  // --- Refused steers become the next turn --------------------------------------------------------------------------

  /**
   A seal that is neither a cancellation nor indeterminate runs the refused input at once: the
   next turn starts with the inputs of the one page, joined in refusal order, behind the
   inherited transcript while no turn has completed. Otherwise no turn starts.
   */
  lemma RefusedInputRunsNext(s: Setup, db: Db, record: Record, outcome: TurnStatus, error: Option<string>)
    requires record.execution.Some? && Queues(db, ActiveOf(record)) && Complete(s, db, record, outcome, error).Ok?
    ensures var next := Complete(s, db, record, outcome, error).value;
            var page := db.refused[..PageOfRefused(s, db.refused)];
            && next.record.Some?
            && (next.record.value.execution.Some?
                <==> db.refused != [] && outcome != Cancelled && !(outcome == Failed && IsIndeterminate(error)))
            && (next.record.value.execution.Some? ==>
                && next.record.value.execution.value.generation == record.generation + 1
                && next.record.value.execution.value.input
                   == (if outcome != Completed && record.transcript.Some? then [Message(record.transcript.value, false)] else [])
                      + Joined(page))
  {
    SealClearsQueues(db, record, outcome, error);
    if db.refused != [] {
      assert Weights(s, db.refused) != [];
      assert PageOfRefused(s, db.refused) > 0;
    }
    var page := db.refused[..PageOfRefused(s, db.refused)];
    assert [] + Joined(page) == Joined(page);
  }

  function Sum(sizes: seq<nat>): nat { if sizes == [] then 0 else sizes[0] + Sum(sizes[1..]) }

  /** A page shows every row exactly when the rows fit the limit and, past the first, the budget. */
  lemma {:induction false} ShowsAllIff(sizes: seq<nat>, limit: nat, taken: nat, size: nat)
    requires taken > 0
    ensures Shown(sizes, limit, taken, size) == |sizes|
            <==> sizes == [] || (taken + |sizes| <= limit && size + Sum(sizes) <= MAX_PAGE_CHARS)
  {
    if sizes != [] {
      ShowsAllIff(sizes[1..], limit, taken + 1, size + sizes[0]);
      if taken < limit && size + sizes[0] <= MAX_PAGE_CHARS && sizes[1..] == [] { assert Sum(sizes) == sizes[0]; }
    }
  }

  /** One input, or at most 100 that fit the budget of a page together. */
  predicate FitsOnePage(s: Setup, refused: Table<Id, seq<Message>>) {
    |refused| <= 1 || (|refused| <= QUEUED_INPUT_PAGE && Sum(Weights(s, refused)) <= MAX_PAGE_CHARS)
  }

  lemma PageHoldsAllIff(s: Setup, refused: Table<Id, seq<Message>>)
    ensures PageOfRefused(s, refused) == |refused| <==> FitsOnePage(s, refused)
  {
    WeighsEach(s, refused);
    var sizes := Weights(s, refused);
    if refused != [] {
      ShowsAllIff(sizes[1..], QUEUED_INPUT_PAGE, 1, sizes[0]);
      assert |refused| == 1 ==> sizes[1..] == [];
      assert Sum(sizes) == sizes[0] + Sum(sizes[1..]);
    }
  }

  /** An outcome after which no refused input is run: a cancellation, or one nobody can confirm. */
  predicate Supersedes(outcome: TurnStatus, error: Option<string>) {
    outcome == Cancelled || (outcome == Failed && IsIndeterminate(error))
  }

  /** How many of the refused inputs the turn after a seal starts with. */
  function Carried(s: Setup, refused: Table<Id, seq<Message>>, outcome: TurnStatus, error: Option<string>): nat {
    if Supersedes(outcome, error) then 0 else PageOfRefused(s, refused)
  }

  /**
   A seal clears all refused input, and the next turn, if there is one, starts with what is carried over.
   That is all of it exactly if there is none, or the outcome lets refused input run and it fits one page.
   */
  lemma NothingRefusedIsLostIff(s: Setup, db: Db, record: Record, outcome: TurnStatus, error: Option<string>)
    requires record.execution.Some? && Queues(db, ActiveOf(record)) && Complete(s, db, record, outcome, error).Ok?
    ensures var next, n := Complete(s, db, record, outcome, error).value, Carried(s, db.refused, outcome, error);
            && n <= |db.refused| && next.refused == [] && next.record.Some?
            && (next.record.value.execution.Some? <==> n > 0)
            && (n > 0 ==> next.record.value.execution.value.input
                          == (if outcome != Completed && record.transcript.Some?
                              then [Message(record.transcript.value, false)] else []) + Joined(db.refused[..n]))
            && (n == |db.refused|
                <==> db.refused == [] || (!Supersedes(outcome, error) && FitsOnePage(s, db.refused)))
  {
    RefusedInputRunsNext(s, db, record, outcome, error);
    PageHoldsAllIff(s, db.refused);
    SealClearsQueues(db, record, outcome, error);
    WeighsEach(s, db.refused);
  }

  // --- At most one acceptance per key ----------------------------------------------------------------------------------

  lemma AcceptedKeysStay(s: Setup, db: Db, step: Step, key: string)
    requires WellShaped(db) && Mail(db) && Driven(db, step) && key in db.accepted && !step.Drop?
    ensures var next := After(s, db, step); key in next.accepted && next.accepted[key] == db.accepted[key]
  {
    if Transact(s, db, step).Ok? {
      match step
      case Submit(driver, events, other) =>
        if other !in db.accepted { InputsKeepQueues(Draft(db, db.record.value), driver, events); }
      case Poll(_, _, _, _) => PollKeepsMail(db, db.record.value, step);
      case Commit(_, checkpoint) =>
        CompleteKeepsMail(s, db, db.record.value.(checkpoint := Some(checkpoint)), Completed, None);
      case Seal(_, outcome, error) => CompleteKeepsMail(s, db, db.record.value, outcome, error);
      case _ =>
    }
  }

  lemma {:induction false} RunKeepsAcceptedKeys(s: Setup, db: Db, steps: seq<Step>, key: string)
    requires WellShaped(db) && Mail(db) && AllDriven(s, db, steps) && key in db.accepted
    requires forall step | step in steps :: !step.Drop?
    ensures var next := Run(s, db, steps); key in next.accepted && next.accepted[key] == db.accepted[key]
    decreases |steps|
  {
    if steps != [] {
      assert steps[0] in steps;
      StepKeepsShape(s, db, steps[0]);
      StepKeepsMail(s, db, steps[0]);
      AcceptedKeysStay(s, db, steps[0], key);
      forall step | step in steps[1..] ensures !step.Drop? { assert step in steps; }
      RunKeepsAcceptedKeys(s, After(s, db, steps[0]), steps[1..], key);
    }
  }

  /**
   Input once accepted under a key is never accepted again under it: at any later time the same
   input is acknowledged without effect, and other input conflicts, while the session is there.
   */
  lemma AcceptedOnce(s: Setup, db: Db, first: Step, steps: seq<Step>, again: Step)
    requires WellShaped(db) && Mail(db) && first.Submit? && again.Submit? && first.key == again.key
    requires Transact(s, db, first).Ok? && AllDriven(s, After(s, db, first), steps)
    requires forall step | step in steps :: !step.Drop?
    ensures var later := Run(s, After(s, db, first), steps);
            && After(s, later, again) == later
            && (Present(later) ==>
                (Transact(s, later, again).Ok? <==> s.fingerprint(again.events) == s.fingerprint(first.events)))
  {
    StepKeepsShape(s, db, first);
    StepKeepsMail(s, db, first);
    RunKeepsAcceptedKeys(s, After(s, db, first), steps, first.key);
  }

  // --- The environment ------------------------------------------------------------------------------------------------------

  /** Only a report moves the environment, and only where `Publishes` lets it. */
  lemma EnvironmentMovesByReports(s: Setup, db: Db, step: Step)
    requires WellShaped(db) && Mail(db) && Driven(db, step) && !step.Drop?
    ensures var next := After(s, db, step).environment;
            next == db.environment || (step.Report? && next == Some(step.environment) && Publishes(db.environment, step.environment))
  {
    if Transact(s, db, step).Ok? {
      match step
      case Submit(driver, events, key) =>
        if key !in db.accepted { InputsKeepQueues(Draft(db, db.record.value), driver, events); }
      case Poll(_, _, _, _) => PollKeepsMail(db, db.record.value, step);
      case Commit(_, checkpoint) =>
        CompleteKeepsMail(s, db, db.record.value.(checkpoint := Some(checkpoint)), Completed, None);
      case Seal(_, outcome, error) => CompleteKeepsMail(s, db, db.record.value, outcome, error);
      case _ =>
    }
  }

  /**
   A settled environment never regresses: once it left `pending` it never is pending again, and once
   its setup failed nothing it reports is ever published again, while the session is there.
   */
  lemma {:induction false} EnvironmentsNeverRegress(s: Setup, db: Db, steps: seq<Step>)
    requires WellShaped(db) && Mail(db) && AllDriven(s, db, steps) && forall step | step in steps :: !step.Drop?
    ensures var next := Run(s, db, steps).environment;
            && (db.environment == Some(Failing) ==> next == Some(Failing))
            && (db.environment.Some? && db.environment != Some(Pending) ==> next.Some? && next != Some(Pending))
            && (db.environment.Some? ==> next.Some?)
    decreases |steps|
  {
    if steps != [] {
      assert steps[0] in steps;
      StepKeepsShape(s, db, steps[0]);
      StepKeepsMail(s, db, steps[0]);
      EnvironmentMovesByReports(s, db, steps[0]);
      forall step | step in steps[1..] ensures !step.Drop? { assert step in steps; }
      EnvironmentsNeverRegress(s, After(s, db, steps[0]), steps[1..]);
    }
  }
}
