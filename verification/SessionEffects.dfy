/**
 What a step leaves of the turns, the queues and the log beside the record: how a turn starts, how a seal
 ends it and its children, what one reported event changes, and when a transaction under a live fence succeeds.
 */
module SessionEffects {
  import opened Options
  import opened Tables
  import opened SessionStore
  import opened SessionEvents
  import opened SessionState
  import opened SessionFeeds
  import opened SessionRuns
  import opened SessionShape
  import opened SessionTurns
  import I = SessionInputs
  import A = SessionActions
  import B = SessionSubmissions
  import H = SessionHistories
  import J = JobStates

  // --- Live fences ------------------------------------------------------------------------------------------

  /** The turn that runs has a row. */
  predicate Rooted(db: Db) {
    db.record.Some? && db.record.value.execution.Some? ==> Has(db.turns, db.record.value.execution.value.turn)
  }

  lemma EventStays(d: Draft, root: Id, event: RuntimeEvent)
    requires Accept(d, root, event).Ok?
    ensures A.TurnsStay(d.db.turns, Accept(d, root, event).value.db.turns)
    ensures Accept(d, root, event).value.record.execution == d.record.execution
  {
    match event
    case SubagentTurn(id, subagent, status) => A.ChildTurnStays(d.db, id, subagent, status);
    case UsageReported(turn, usage) =>
      var id := Named(turn, root);
      A.PutAtStays(d.db.turns, id, Get(d.db.turns, id).value.(usage := Some(usage)));
    case Output(native, scope, body) =>
      if body.FunctionCall? {
        var id := Named(scope.turn, root);
        A.PutAtStays(d.db.turns, id, Get(d.db.turns, id).value.(status := Waiting));
      }
    case _ =>
  }

  lemma {:induction false} EntriesStay(d: Draft, root: Id, entries: seq<J.Stamped>)
    requires AcceptEntries(d, root, entries).Ok?
    ensures A.TurnsStay(d.db.turns, AcceptEntries(d, root, entries).value.db.turns)
    ensures AcceptEntries(d, root, entries).value.record.execution == d.record.execution
    decreases |entries|
  {
    if entries != [] {
      if entries[0].at > d.record.cursor {
        EventStays(d, root, entries[0].event);
        var next := Accept(d, root, entries[0].event).value;
        EntriesStay(next.(record := next.record.(cursor := entries[0].at)), root, entries[1..]);
      } else {
        EntriesStay(d, root, entries[1..]);
      }
    }
  }

  /** A draft whose running turn has a row. */
  predicate DraftRooted(d: Draft) { d.record.execution.Some? ==> Has(d.db.turns, d.record.execution.value.turn) }

  lemma BeginIsRooted(db: Db, record: Record, input: seq<Message>)
    ensures DraftRooted(Begin(db, record, input))
  {
    var turn := Turn(Minted(db.feed.minted), None, Queued, None, None);
    PutGet(db.turns, turn.id, turn, turn.id);
  }

  lemma {:induction false} InputsStayRooted(d: Draft, driver: Driver, events: seq<InputEvent>)
    requires DraftRooted(d) && AcceptAll(d, driver, events).Ok?
    ensures DraftRooted(AcceptAll(d, driver, events).value)
    decreases |events|
  {
    if events != [] {
      match events[0] {
        case UserMessage(input) => if d.record.execution.None? { BeginIsRooted(d.db, d.record, input); }
        case UserCancel =>
        case UserTool(turn, _, _, _, _) =>
          if Get(d.db.turns, turn).Some? { A.PutStays(d.db.turns, Get(d.db.turns, turn).value.(status := InProgress)); }
      }
      InputsStayRooted(AcceptEvent(d, driver, events[0]).value, driver, events[1..]);
    }
  }

  lemma SubmissionsStayRooted(s: Setup, db: Db, driver: Driver, events: seq<InputEvent>, key: string)
    requires Rooted(db) && AcceptInput(s, db, driver, events, key).Ok?
    ensures Rooted(AcceptInput(s, db, driver, events, key).value)
  {
    if key !in db.accepted { InputsStayRooted(Draft(db, db.record.value), driver, events); }
  }

  /** A seal leaves no turn running, or the row of the one it started. */
  lemma CompleteIsRooted(s: Setup, db: Db, record: Record, outcome: TurnStatus, error: Option<string>)
    requires record.execution.Some? && Complete(s, db, record, outcome, error).Ok?
    ensures Rooted(Complete(s, db, record, outcome, error).value)
  {
    SealedIsSaved(db, record, outcome, error);
    var d := Sealed(db, record, outcome, error).value;
    BeginIsRooted(d.db.(refused := []), d.record, Joined(d.db.refused[..PageOfRefused(s, d.db.refused)]));
  }

  lemma FencedStepIsRooted(s: Setup, db: Db, record: Record, step: Step)
    requires IsFenced(step) && db.record == Some(record) && record.execution.Some? && Rooted(db)
    requires Reconcile(s, db, record, step).Ok?
    ensures Rooted(Reconcile(s, db, record, step).value)
  {
    match step
    case Start(_) =>
      var turn := Get(db.turns, record.execution.value.turn).value.(status := InProgress);
      A.PutStays(db.turns, turn);
    case Poll(_, entries, _, _) => EntriesStay(Draft(db, record), record.execution.value.turn, entries);
    case Commit(_, checkpoint) => CompleteIsRooted(s, db, record.(checkpoint := Some(checkpoint)), Completed, None);
    case Seal(_, outcome, error) => CompleteIsRooted(s, db, record, outcome, error);
    case _ =>
  }

  lemma StepIsRooted(s: Setup, db: Db, step: Step)
    requires Rooted(db)
    ensures Rooted(After(s, db, step))
  {
    if Transact(s, db, step).Ok? {
      if IsFenced(step) {
        H.FencesHold(s, db, step);
        FencedStepIsRooted(s, db, db.record.value, step);
      } else if step.Submit? {
        SubmissionsStayRooted(s, db, step.driver, step.events, step.key);
      }
    }
  }

  lemma {:induction false} RunsAreRooted(s: Setup, db: Db, steps: seq<Step>)
    requires Rooted(db)
    ensures Rooted(Run(s, db, steps))
    decreases |steps|
  {
    if steps != [] {
      StepIsRooted(s, db, steps[0]);
      RunsAreRooted(s, After(s, db, steps[0]), steps[1..]);
    }
  }

  lemma {:induction false} ClosingStays(db: Db, children: seq<Turn>, outcome: TurnStatus, error: Option<TurnError>)
    ensures A.TurnsStay(db.turns, CloseChildren(db, children, outcome, error).turns)
    decreases |children|
  {
    if children != [] {
      var c := children[0];
      A.PutStays(db.turns, if outcome == Completed then c else c.(status := outcome, error := error));
      ClosingStays(CloseChild(db, c, outcome, error), children[1..], outcome, error);
    }
  }

  lemma SealsSucceed(s: Setup, db: Db, record: Record, outcome: TurnStatus, error: Option<string>)
    requires record.execution.Some? && Has(db.turns, record.execution.value.turn)
    ensures Complete(s, db, record, outcome, error).Ok?
  {
    ClosingStays(db, OpenChildren(db, outcome), outcome, TurnErrorOf(error));
  }

  /**
   In every session there can be, a start, a delivery, a refusal and a seal succeed if and only if they are made
   under the fence of the turn that runs, and a commit if and only if, besides, its checkpoint is of the
   session's driver and revision; a commit of another is refused as incompatible.
   */
  lemma LiveFencesAreObeyed(s: Setup, driver: string, revision: string, sandboxed: bool, transcript: Option<string>,
                            checkpoint: Option<Checkpoint>, steps: seq<Step>, step: Step)
    requires IsFenced(step) && !step.Poll?
    ensures var db := Run(s, Created(driver, revision, sandboxed, transcript, checkpoint), steps);
            && (Transact(s, db, step).Ok?
                <==> Present(db) && db.record.value.execution.Some?
                     && db.record.value.execution.value.turn == step.fence.turn
                     && db.record.value.execution.value.generation == step.fence.generation
                     && (step.Commit? ==> step.checkpoint.driver == driver && step.checkpoint.revision == revision))
            && (Transact(s, db, step).Err? ==> Transact(s, db, step).error in {Superseded, CheckpointIncompatible})
            && (Transact(s, db, step) == Err(CheckpointIncompatible) ==> step.Commit?)
  {
    var start := Created(driver, revision, sandboxed, transcript, checkpoint);
    var db := Run(s, start, steps);
    RunsAreRooted(s, start, steps);
    if db.record.Some? { H.RecordsTellTheirHistory(s, driver, revision, sandboxed, transcript, checkpoint, steps); }
    if Fenced(db, step.fence).Ok? { FencedStepsSucceed(s, db, step); }
  }

  lemma FencedStepsSucceed(s: Setup, db: Db, step: Step)
    requires IsFenced(step) && !step.Poll? && Rooted(db) && Fenced(db, step.fence).Ok?
    ensures var record := db.record.value;
            if step.Commit? && !(step.checkpoint.driver == record.driver && step.checkpoint.revision == record.revision) then
              Transact(s, db, step) == Err(CheckpointIncompatible)
            else Transact(s, db, step).Ok?
  {
    var record := db.record.value;
    match step
    case Commit(_, checkpoint) => SealsSucceed(s, db, record.(checkpoint := Some(checkpoint)), Completed, None);
    case Seal(_, outcome, error) => SealsSucceed(s, db, record, outcome, error);
    case _ =>
  }

  // --- What a seal leaves of the turns ------------------------------------------------------------------------

  /** The turn ended so: with its error's category if it is a known one, and the error's own words. */
  predicate EndedAs(turn: Turn, outcome: TurnStatus, error: Option<string>) {
    && turn.status == outcome && (turn.error.None? <==> error.None? || error.value == "")
    && (turn.error.Some? ==>
          && turn.error.value.message == error.value
          && turn.error.value.code == if error.value in TURN_ERROR_CODES then error.value else "internal_error")
  }

  function ClosedChild(c: Turn, outcome: TurnStatus, error: Option<TurnError>): Turn {
    if outcome == Completed then c else c.(status := outcome, error := error)
  }

  /** Closing ends each child it lists, in the table and in the log, and leaves the other turns alone. */
  lemma {:induction false} ClosingEnds(db: Db, children: seq<Turn>, outcome: TurnStatus, error: Option<TurnError>, t: Turn)
    requires forall c | c in children && c.id == t.id :: c == t
    ensures var next := CloseChildren(db, children, outcome, error);
            && db.feed.log <= next.feed.log
            && (if t in children then Get(next.turns, t.id) == Some(ClosedChild(t, outcome, error))
                                      && TurnEnded(outcome, ClosedChild(t, outcome, error)) in next.feed.log
                else Get(next.turns, t.id) == Get(db.turns, t.id))
    decreases |children|
  {
    if children != [] {
      var c := children[0];
      var closed, next := ClosedChild(c, outcome, error), CloseChild(db, c, outcome, error);
      assert c in children && children == [c] + children[1..];
      PutGet(db.turns, closed.id, closed, t.id);
      FinishingKeepsTheLog(db.feed, OfTurn(db.feed.outputs, c.id), c.subagent);
      forall k | k in children[1..] && k.id == t.id ensures k == t { assert k in children; }
      ClosingEnds(next, children[1..], outcome, error, t);
      if c == t { assert TurnEnded(outcome, closed) in next.feed.log; }
    }
  }

  /** An open child a failed or cancelled seal lists is the row stored under its identifier. */
  lemma ListedAreRows(db: Db, outcome: TurnStatus, c: Turn)
    requires Keyed(db) && outcome != Completed && c in OpenChildren(db, outcome)
    ensures Get(db.turns, c.id) == Some(c) && IsOpen(c)
  {
    if c in ChildrenAt(db.turns, InProgress) { ListedAreOpen(db.turns, InProgress, c); } else { ListedAreOpen(db.turns, Waiting, c); }
    var r :| r in db.turns && r.value == c;
    InGet(db.turns, r);
  }

  /** What a seal makes of a turn that is not the root: ended with it if it lists it as open, and else as it was. */
  ghost predicate SealsChild(db: Db, turns: Table<Id, Turn>, log: seq<Event>, outcome: TurnStatus, error: Option<string>, id: Id) {
    if outcome == Completed then !Has(db.pending, id) ==> Get(turns, id) == Get(db.turns, id)
    else if Has(db.turns, id) && IsOpen(Get(db.turns, id).value) then
      var before, after := Get(db.turns, id).value, Get(turns, id);
      && after.Some? && EndedAs(after.value, outcome, error) && TurnEnded(outcome, after.value) in log
      && after.value.subagent == before.subagent && after.value.usage == before.usage && after.value.id == id
    else Get(turns, id) == Get(db.turns, id)
  }

  lemma ClosingSealsChild(db: Db, outcome: TurnStatus, error: Option<string>, id: Id)
    requires Keyed(db)
    ensures var next := CloseChildren(db, OpenChildren(db, outcome), outcome, TurnErrorOf(error));
            db.feed.log <= next.feed.log && SealsChild(db, next.turns, next.feed.log, outcome, error, id)
  {
    var children, failure := OpenChildren(db, outcome), TurnErrorOf(error);
    ListedIff(db, outcome, id);
    IdsAreListed(children, id);
    GetIn(db.turns, id);
    if outcome != Completed {
      forall c | c in children && c.id == id ensures Get(db.turns, id) == Some(c) { ListedAreRows(db, outcome, c); }
      if Has(db.turns, id) { ClosingEnds(db, children, outcome, failure, Get(db.turns, id).value); }
      else { ClosingEnds(db, children, outcome, failure, Turn(id, None, Queued, None, None)); }
    } else if !Has(db.pending, id) {
      ClosingEnds(db, children, outcome, failure, Turn(id, None, Queued, None, None));
    } else {
      ClosingGrows(db, children, outcome, failure);
    }
  }

  lemma {:induction false} ClosingGrows(db: Db, children: seq<Turn>, outcome: TurnStatus, error: Option<TurnError>)
    ensures db.feed.log <= CloseChildren(db, children, outcome, error).feed.log
    decreases |children|
  {
    if children != [] {
      FinishingKeepsTheLog(db.feed, OfTurn(db.feed.outputs, children[0].id), children[0].subagent);
      ClosingGrows(CloseChild(db, children[0], outcome, error), children[1..], outcome, error);
    }
  }

  /** What a seal makes of the root turn and, for any other turn, of that. */
  ghost predicate Seals(db: Db, turns: Table<Id, Turn>, log: seq<Event>, root: Id, outcome: TurnStatus, error: Option<string>, id: Id) {
    && db.feed.log <= log
    && Get(turns, root).Some? && EndedAs(Get(turns, root).value, outcome, error)
    && TurnEnded(outcome, Get(turns, root).value) in log
    && (id != root ==> SealsChild(db, turns, log, outcome, error, id))
  }

  lemma SealedTurns(db: Db, record: Record, outcome: TurnStatus, error: Option<string>, id: Id)
    requires Keyed(db) && record.execution.Some? && Sealed(db, record, outcome, error).Ok?
    ensures var d := Sealed(db, record, outcome, error).value;
            && Seals(db, d.db.turns, d.db.feed.log, record.execution.value.turn, outcome, error, id)
            && d.db.pending == [] && SessionLogged(d.record.status) in d.db.feed.log
  {
    var children, failure, root := OpenChildren(db, outcome), TurnErrorOf(error), record.execution.value.turn;
    var closed := CloseChildren(db, children, outcome, failure);
    ClosingSealsChild(db, outcome, error, id);
    ChildrenStayKeyed(db, children, outcome, failure);
    GetIn(closed.turns, root);
    var turn := Get(closed.turns, root).value.(status := outcome, error := failure);
    RootIsSealed(closed.(pending := []), turn, SealedRecord(record, outcome, error), outcome, id);
  }

  lemma RootIsSealed(db: Db, turn: Turn, next: Record, outcome: TurnStatus, id: Id)
    ensures var after := SealRoot(db, turn, next, outcome);
            && Get(after.turns, id) == (if id == turn.id then Some(turn) else Get(db.turns, id))
            && db.feed.log <= after.feed.log && after.pending == db.pending
            && TurnEnded(outcome, turn) in after.feed.log && SessionLogged(next.status) in after.feed.log
            && Get(after.turns, turn.id) == Some(turn)
  {
    PutGet(db.turns, turn.id, turn, id);
    PutGet(db.turns, turn.id, turn, turn.id);
    FinishingKeepsTheLog(db.feed, OfTurn(db.feed.outputs, turn.id), None);
    var log := FinishItems(db.feed, turn.id, None).log;
    var after := SealRoot(db, turn, next, outcome).feed.log;
    assert after == log + [TurnEnded(outcome, turn)] + [SessionLogged(next.status)];
    assert after[|log|] == TurnEnded(outcome, turn) && after[|log| + 1] == SessionLogged(next.status);
  }

  /** A turn that begins takes a new row, queued, and is announced; nothing else of the turns changes. */
  lemma BeginningTells(db: Db, record: Record, input: seq<Message>, id: Id)
    ensures var d, turn := Begin(db, record, input), Turn(Minted(db.feed.minted), None, Queued, None, None);
            && Get(d.db.turns, id) == (if id == turn.id then Some(turn) else Get(db.turns, id))
            && d.db.feed.log == db.feed.log + [TurnCreated(turn), SessionLogged(Working)]
  {
    var turn := Turn(Minted(db.feed.minted), None, Queued, None, None);
    PutGet(db.turns, turn.id, turn, id);
    assert db.feed.log + [TurnCreated(turn)] + [SessionLogged(Working)] == db.feed.log + [TurnCreated(turn), SessionLogged(Working)];
  }

  lemma {:induction false} AddInputGrows(feed: Feed, turn: Id, input: seq<Message>)
    ensures feed.log <= AddInput(feed, turn, input).0.log
    decreases |input|
  {
    if input != [] { AddInputGrows(AddItem(feed, None, turn, Done, Input(input[0])), turn, input[1..]); }
  }

  lemma RestartingTells(db: Db, record: Record, input: seq<Message>, id: Id)
    ensures var next, turn := Restarted(db, record, input), Minted(db.feed.minted);
            && Get(next.turns, id) == (if id == turn then Some(Turn(turn, None, Queued, None, None)) else Get(db.turns, id))
            && db.feed.log <= next.feed.log && next.pending == db.pending
            && B.Listed(next.feed.log) == B.Listed(db.feed.log) + B.Messages(turn, input)
  {
    var started := Begin(db, record, input);
    BeginningTells(db, record, input, id);
    B.BeginningListsNothing(db, record, input);
    B.AddInputLists(started.db.feed, started.record.execution.value.turn, input);
    AddInputGrows(started.db.feed, started.record.execution.value.turn, input);
  }

  lemma CompletedTurns(s: Setup, db: Db, record: Record, outcome: TurnStatus, error: Option<string>, id: Id)
    requires Keyed(db) && record.execution.Some? && Complete(s, db, record, outcome, error).Ok?
    requires Below(record.execution.value.turn, db.feed.minted) && Below(id, db.feed.minted)
    requires I.Queues(db, I.ActiveOf(record))
    ensures var next := Complete(s, db, record, outcome, error).value;
            && Seals(db, next.turns, next.feed.log, record.execution.value.turn, outcome, error, id) && next.pending == []
  {
    var root := record.execution.value.turn;
    SealedTurns(db, record, outcome, error, id);
    I.SealClearsQueues(db, record, outcome, error);
    var d := Sealed(db, record, outcome, error).value;
    var cleared, input := d.db.(refused := []), Joined(d.db.refused[..PageOfRefused(s, d.db.refused)]);
    RestartingTells(cleared, d.record, input, id);
    RestartingTells(cleared, d.record, input, root);
    SealsOnward(db, d.db.turns, d.db.feed.log, Restarted(cleared, d.record, input).turns,
                Restarted(cleared, d.record, input).feed.log, root, outcome, error, id);
  }

  lemma SealsOnward(db: Db, turns: Table<Id, Turn>, log: seq<Event>, next: Table<Id, Turn>, later: seq<Event>, root: Id,
                    outcome: TurnStatus, error: Option<string>, id: Id)
    requires Seals(db, turns, log, root, outcome, error, id) && log <= later
    requires Get(next, root) == Get(turns, root) && Get(next, id) == Get(turns, id)
    ensures Seals(db, next, later, root, outcome, error, id)
  {
  }

  /**
   A seal or commit that succeeds ends its turn with its outcome and error, in the table and in the log; a failed
   or cancelled one ends every open child turn alike, keeping its subagent and usage; and it leaves every other
   turn as it was, except that a commit publishes the held children.
   */
  lemma SealsEndTheirTurns(s: Setup, db: Db, step: Step, extra: multiset<Id>, id: Id)
    requires WellShaped(db) && I.Mail(db) && Accounted(db, ActiveIn(db), extra) && Below(id, db.feed.minted)
    requires (step.Commit? || step.Seal?) && Transact(s, db, step).Ok?
    ensures var next := After(s, db, step);
            && next.pending == []
            && Seals(db, next.turns, next.feed.log, step.fence.turn, if step.Commit? then Completed else step.outcome,
                     if step.Commit? then None else step.error, id)
  {
    H.FencesHold(s, db, step);
    var record := db.record.value;
    assert step.fence.turn in ActiveIn(db);
    if step.Commit? { CompletedTurns(s, db, record.(checkpoint := Some(step.checkpoint)), Completed, None, id); }
    else { CompletedTurns(s, db, record, step.outcome, step.error, id); }
  }

  // --- Starting and polling -------------------------------------------------------------------------------------

  /** The runtime's word that it started: the turn is running and in progress, and is announced so. */
  lemma StartsTell(s: Setup, db: Db, step: Step, id: Id)
    requires Keyed(db) && step.Start? && Transact(s, db, step).Ok?
    ensures var next, turn := After(s, db, step), step.fence.turn; var before := Get(db.turns, turn);
            && before.Some? && next.record == Some(db.record.value.(phase := Running))
            && Get(next.turns, id) == (if id == turn then Some(before.value.(status := InProgress)) else Get(db.turns, id))
            && next.feed == db.feed.(log := db.feed.log + [TurnStarted(before.value.(status := InProgress))])
            && next.commands == db.commands && next.pending == db.pending
  {
    var turn := step.fence.turn;
    GetIn(db.turns, turn);
    PutGet(db.turns, turn, Get(db.turns, turn).value.(status := InProgress), id);
  }

  /** A polled turn is about to complete if and only if it was, or its job completed and nothing waits for delivery. */
  lemma PollsCompleteIff(s: Setup, db: Db, step: Step)
    requires step.Poll? && Transact(s, db, step).Ok?
    ensures var next := After(s, db, step);
            && next.record.Some? && next.commands == db.commands && next.refused == db.refused && next.accepted == db.accepted
            && next.cancellations == db.cancellations
            && (next.record.value.phase == Checkpointing
                <==> db.record.value.phase == Checkpointing || (step.completed && (step.cancel || db.commands == [])))
  {
    H.FencesHold(s, db, step);
    var record := db.record.value;
    I.EntriesKeepQueues(Draft(db, record), record.execution.value.turn, step.entries);
    I.EntriesKeepPhase(Draft(db, record), record.execution.value.turn, step.entries);
  }

  // --- One reported event ---------------------------------------------------------------------------------------

  /** A usage report replaces what its turn used, in the table and where it is held, and touches no other turn. */
  lemma UsageIsKept(d: Draft, root: Id, turn: Option<Id>, usage: Usage, id: Id)
    requires Accept(d, root, UsageReported(turn, usage)).Ok?
    ensures var next, own := Accept(d, root, UsageReported(turn, usage)).value, if turn.Some? then turn.value else root;
            && Get(d.db.turns, own).Some?
            && Get(next.db.turns, id) == (if id == own then Some(Get(d.db.turns, own).value.(usage := Some(usage)))
                                          else Get(d.db.turns, id))
            && Get(next.db.pending, id) == (if id == own && Has(d.db.pending, own)
                                            then Some(Get(d.db.pending, own).value.(usage := Some(usage)))
                                            else Get(d.db.pending, id))
            && next.db.feed == d.db.feed && next.record == d.record.(usage := next.record.usage)
  {
    var own := Named(turn, root);
    PutGet(d.db.turns, own, Get(d.db.turns, own).value.(usage := Some(usage)), id);
    if Has(d.db.pending, own) { PutGet(d.db.pending, own, Get(d.db.pending, own).value.(usage := Some(usage)), id); }
  }

  /** A usage report is accepted exactly for a turn there is; one for another refuses the batch. */
  lemma UsageIsTakenIff(d: Draft, root: Id, turn: Option<Id>, usage: Usage)
    ensures Accept(d, root, UsageReported(turn, usage)).Ok?
            <==> Has(d.db.turns, if turn.Some? then turn.value else root)
  {
  }

  /** The child turn a report names, as it says it is, with the usage it had. */
  function Reported(db: Db, id: Id, subagent: Id, status: TurnStatus): Turn {
    Turn(id, Some(subagent), status, None, if Has(db.turns, id) then Get(db.turns, id).value.usage else None)
  }

  /**
   A child turn's report: a finished one is held until the root commits, and its row, if new, is in progress; any
   other is its row at once, and its creation, start or end is in the log. It needs a subagent that was reported.
   */
  lemma ChildReportsTell(d: Draft, root: Id, id: Id, subagent: Id, status: TurnStatus, other: Id)
    ensures Accept(d, root, SubagentTurn(id, subagent, status)).Ok? <==> subagent in d.db.subagents
    ensures subagent in d.db.subagents ==> ChildReported(d.db, Accept(d, root, SubagentTurn(id, subagent, status)).value.db,
                                                         Reported(d.db, id, subagent, status), other)
    ensures subagent in d.db.subagents ==> Accept(d, root, SubagentTurn(id, subagent, status)).value.record == d.record
  {
    if subagent in d.db.subagents {
      ChildReportsRows(d.db, id, subagent, status, Reported(d.db, id, subagent, status), other);
      ChildReportsLog(d.db, id, subagent, status, Reported(d.db, id, subagent, status));
    }
  }

  lemma ChildReportsRows(db: Db, id: Id, subagent: Id, status: TurnStatus, turn: Turn, other: Id)
    requires subagent in db.subagents && turn == Reported(db, id, subagent, status)
    ensures var next, held := AcceptSubagentTurn(db, id, subagent, status).value, status == Completed;
            && Get(next.pending, other) == (if other == id && held then Some(turn) else Get(db.pending, other))
            && Get(next.turns, other) == (if other != id || (held && Has(db.turns, id)) then Get(db.turns, other)
                                          else Some(if held then turn.(status := InProgress) else turn))
  {
    PutGet(db.turns, id, turn, other);
    PutGet(db.turns, id, turn.(status := InProgress), other);
    PutGet(db.pending, id, turn, other);
  }

  ghost predicate ChildReported(db: Db, next: Db, turn: Turn, other: Id) {
    var known, held := Has(db.turns, turn.id), turn.status == Completed;
    && Get(next.pending, other) == (if other == turn.id && held then Some(turn) else Get(db.pending, other))
    && Get(next.turns, other) == (if other != turn.id || (held && known) then Get(db.turns, other)
                                  else Some(if held then turn.(status := InProgress) else turn))
    && db.feed.log <= next.feed.log
    && (held ==> next.feed == db.feed)
    && (!held && !known ==> TurnCreated(turn) in next.feed.log[|db.feed.log|..])
    && (turn.status == InProgress ==> next.feed.log != [] && next.feed.log[|next.feed.log| - 1] == TurnStarted(turn))
    && (Ending(turn.status) ==> next.feed.log != [] && next.feed.log[|next.feed.log| - 1] == TurnEnded(turn.status, turn))
  }

  lemma ChildReportsLog(db: Db, id: Id, subagent: Id, status: TurnStatus, turn: Turn)
    requires subagent in db.subagents && turn == Reported(db, id, subagent, status)
    ensures var next := AcceptSubagentTurn(db, id, subagent, status).value.feed;
            && db.feed.log <= next.log && (status == Completed ==> next == db.feed)
            && (status != Completed && !Has(db.turns, id) ==> TurnCreated(turn) in next.log[|db.feed.log|..])
            && (status == InProgress ==> next.log != [] && next.log[|next.log| - 1] == TurnStarted(turn))
            && (Ending(status) ==> next.log != [] && next.log[|next.log| - 1] == TurnEnded(status, turn))
  {
    if status != Completed {
      var created := if Has(db.turns, id) then PutTurn(db, turn) else Emit(PutTurn(db, turn), TurnCreated(turn));
      FinishingKeepsTheLog(created.feed, OfTurn(created.feed.outputs, id), Some(subagent));
      var next := AcceptSubagentTurn(db, id, subagent, status).value.feed;
      assert created.feed.log <= next.log;
      if !Has(db.turns, id) { assert next.log[|db.feed.log|..][0] == TurnCreated(turn); }
    }
  }

  /** A subagent's report is kept, and logged exactly if it is new or its status is; it opens as created. */
  lemma SubagentReportsTell(d: Draft, root: Id, id: Id, closed: bool)
    ensures Accept(d, root, SubagentReported(id, closed)).Ok?
    ensures var next := Accept(d, root, SubagentReported(id, closed)).value;
            && next.db.subagents == d.db.subagents[id := closed] && next.record == d.record && next.db.turns == d.db.turns
            && next.db.feed.log == d.db.feed.log
                                   + if id !in d.db.subagents then [SubagentLogged(id, false)]
                                     else if d.db.subagents[id] != closed then [SubagentLogged(id, closed)] else []
  {
    assert d.db.feed.log + [] == d.db.feed.log;
  }

  /** An accepted function call leaves its turn waiting, tells the client so, and publishes the call as done. */
  lemma CallsTell(d: Draft, root: Id, event: RuntimeEvent, other: Id)
    requires event.Output? && event.body.FunctionCall? && Accept(d, root, event).Ok?
    ensures var next, own := Accept(d, root, event).value, if event.scope.turn.Some? then event.scope.turn.value else root;
            && Has(d.db.turns, own)
            && Get(next.db.turns, other) == (if other == own then Some(Get(d.db.turns, own).value.(status := Waiting))
                                             else Get(d.db.turns, other))
            && next.record.status == RequiresAction
            && next.db.feed.log != [] && next.db.feed.log[|next.db.feed.log| - 1] == SessionLogged(RequiresAction)
  {
    var own := Named(event.scope.turn, root);
    PutGet(d.db.turns, own, Get(d.db.turns, own).value.(status := Waiting), other);
  }

  // --- The environment and deletion ---------------------------------------------------------------------------------

  /**
   An environment report to a session that has one is published exactly if it is news: not the status it has, not
   pending once it settled, not disconnected unless it was connected, and not connected after a failure. A failed
   setup fails a session in which no turn runs.
   */
  lemma ReportsTell(s: Setup, db: Db, status: EnvironmentStatus)
    requires Present(db)
    ensures var step, was := Report(status), db.environment; var next := After(s, db, step);
            var news := db.record.value.sandboxed && was != Some(status) && (status == Pending ==> was.None?)
                        && (status == Disconnected ==> was == Some(Connected)) && (status == Connected ==> was != Some(Failing));
            var fails := news && status == Failing && db.record.value.execution.None?;
            && Transact(s, db, step).Ok?
            && next.environment == (if news then Some(status) else was)
            && next.feed.log == db.feed.log + (if news then [EnvironmentLogged(status)] else [])
                                + (if fails then [SessionLogged(Faulted)] else [])
            && next.record == Some(if fails then db.record.value.(phase := Broken, status := Faulted,
                                                                  error := Some("environment_setup_failed"))
                                   else db.record.value)
  {
    assert db.feed.log + [] + [] == db.feed.log;
    assert db.feed.log + [EnvironmentLogged(status)] + [] == db.feed.log + [EnvironmentLogged(status)];
  }

  /** A session is deleted only while no turn runs; then nothing is accepted of it, and only then can it be purged. */
  lemma DeletionsTell(s: Setup, db: Db)
    requires WellShaped(db)
    ensures Transact(s, db, Delete).Ok? <==> (db.record.Some? && db.record.value.execution.None?) || (db.record.None? && db.tombstone)
    ensures db.record.Some? && Transact(s, db, Delete).Ok? ==>
              After(s, db, Delete) == db.(record := Some(db.record.value.(deleted := true)))
    ensures Transact(s, db, Drop).Ok? <==> db.record.None? || db.record.value.deleted
    ensures db.record.Some? && Transact(s, db, Drop).Ok? ==> Purged(After(s, db, Drop))
  {
  }

  /** Nothing is left but the mark that there was a session. */
  predicate Purged(db: Db) {
    && db.record.None? && db.tombstone && db.turns == [] && db.pending == [] && db.subagents == map[]
    && db.commands == [] && db.cancellations == map[] && db.refused == [] && db.accepted == map[] && db.environment.None?
    && db.feed.items == [] && db.feed.outputs == [] && db.feed.counts == map[] && db.feed.log == []
  }

  /** A deleted session takes nothing and no step of its reconciler. */
  lemma DeletedSessionsAreGone(s: Setup, db: Db, step: Step)
    requires WellShaped(db) && (db.record.None? || db.record.value.deleted) && !step.Delete? && !step.Drop?
    ensures Transact(s, db, step) == Err(if IsFenced(step) then Superseded else SessionNotFound)
    ensures After(s, db, step) == db
  {
  }

  // --- Refused steers ---------------------------------------------------------------------------------------------

  lemma {:induction false} UnlistedIff(items: Table<ItemKey, Item>, ids: seq<Id>, key: ItemKey)
    ensures Get(Unlisted(items, ids), key) == if key.owner.None? && key.id in ids then None else Get(items, key)
    decreases |ids|
  {
    if ids != [] {
      RemoveGet(items, ItemKey(None, ids[0]), key);
      UnlistedIff(Remove(items, ItemKey(None, ids[0])), ids[1..], key);
      assert ids == [ids[0]] + ids[1..];
    }
  }

  /** A refused steer's items are taken off the listing again, and no others; a refused result leaves it alone. */
  lemma RefusedSteersAreUnlisted(s: Setup, db: Db, step: Step, key: ItemKey)
    requires step.Refuse? && Transact(s, db, step).Ok?
    ensures Get(After(s, db, step).feed.items, key)
            == if step.operation.control.Steer? && key.owner.None? && key.id in step.operation.items then None
               else Get(db.feed.items, key)
    ensures After(s, db, step).record == db.record && After(s, db, step).feed.log == db.feed.log
  {
    if step.operation.control.Steer? { UnlistedIff(db.feed.items, step.operation.items, key); }
  }
}
