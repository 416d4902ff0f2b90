/**
 What the session asks of its client: the function calls a runtime made, in the order it made them, until a
 tool result answers them or the turn is sealed.
 */
module SessionActions {
  import opened Options
  import opened Tables
  import opened SessionStore
  import opened SessionEvents
  import opened SessionState
  import opened SessionRuns
  import opened SessionShape
  import opened SessionInputs
  import opened SessionTurns
  import H = SessionHistories
  import J = JobStates

  // --- Asking and answering -----------------------------------------------------------------------------

  /** No two actions are for one call. */
  ghost predicate OneEach(actions: seq<Action>) {
    forall i, j | 0 <= i < j < |actions| :: actions[i].call != actions[j].call
  }

  predicate IsAsked(actions: seq<Action>, call: string) { exists i :: 0 <= i < |actions| && actions[i].call == call }

  /** A function call asks for an answer, unless one for that call is outstanding. */
  function Asked(actions: seq<Action>, root: Id, event: RuntimeEvent): seq<Action> {
    if event.Output? && event.body.FunctionCall? && !IsAsked(actions, event.body.call) then
      actions + [Action(if event.scope.turn.Some? then event.scope.turn.value else root, event.body.call)]
    else actions
  }

  function AllAsked(actions: seq<Action>, root: Id, cursor: nat, entries: seq<J.Stamped>): seq<Action>
    decreases |entries|
  {
    if entries == [] then actions
    else if entries[0].at <= cursor then AllAsked(actions, root, cursor, entries[1..])
    else AllAsked(Asked(actions, root, entries[0].event), root, entries[0].at, entries[1..])
  }

  /** The actions but this one, in order. */
  function Dropped(actions: seq<Action>, action: Action): seq<Action> {
    if actions == [] then []
    else (if actions[0] == action then [] else [actions[0]]) + Dropped(actions[1..], action)
  }

  function Answered(actions: seq<Action>, event: InputEvent): seq<Action> {
    if event.UserTool? then Dropped(actions, Action(event.turn, event.call)) else actions
  }

  function AllAnswered(actions: seq<Action>, events: seq<InputEvent>): seq<Action>
    decreases |events|
  {
    if events == [] then actions else AllAnswered(Answered(actions, events[0]), events[1..])
  }

  lemma {:induction false} DroppedNone(actions: seq<Action>, action: Action)
    requires action !in actions
    ensures Dropped(actions, action) == actions && Without(actions, action).None?
  {
    if actions != [] {
      assert actions == [actions[0]] + actions[1..];
      DroppedNone(actions[1..], action);
    }
  }

  lemma {:induction false} DroppedMembers(actions: seq<Action>, action: Action, a: Action)
    ensures a in Dropped(actions, action) <==> a in actions && a != action
  {
    if actions != [] {
      assert actions == [actions[0]] + actions[1..];
      DroppedMembers(actions[1..], action, a);
    }
  }

  lemma RestIsOneEach(actions: seq<Action>)
    requires OneEach(actions) && actions != []
    ensures OneEach(actions[1..]) && forall a | a in actions[1..] :: a.call != actions[0].call
  {
    forall i, j | 0 <= i < j < |actions[1..]| ensures actions[1..][i].call != actions[1..][j].call {
      assert actions[1..][i] == actions[i + 1] && actions[1..][j] == actions[j + 1];
    }
    forall a | a in actions[1..] ensures a.call != actions[0].call {
      var j :| 0 <= j < |actions[1..]| && actions[1..][j] == a;
      assert actions[j + 1] == a;
    }
  }

  lemma FirstIsOneEach(a: Action, rest: seq<Action>)
    requires OneEach(rest) && forall b | b in rest :: b.call != a.call
    ensures OneEach([a] + rest)
  {
    var all := [a] + rest;
    forall i, j | 0 <= i < j < |all| ensures all[i].call != all[j].call {
      assert all[j] == rest[j - 1] && rest[j - 1] in rest;
      if i > 0 { assert all[i] == rest[i - 1]; }
    }
  }

  /** With one action for each call, the first that matches is the only one. */
  lemma {:induction false} WithoutDrops(actions: seq<Action>, action: Action)
    requires OneEach(actions)
    ensures OneEach(Dropped(actions, action))
    ensures Without(actions, action) == if action in actions then Some(Dropped(actions, action)) else None
  {
    if actions != [] {
      RestIsOneEach(actions);
      WithoutDrops(actions[1..], action);
      assert actions == [actions[0]] + actions[1..];
      var rest := Dropped(actions[1..], action);
      if actions[0] == action {
        DroppedNone(actions[1..], action);
        assert Dropped(actions, action) == [] + rest == rest;
      } else {
        forall b | b in rest ensures b.call != actions[0].call { DroppedMembers(actions[1..], action, b); }
        FirstIsOneEach(actions[0], rest);
      }
    }
  }

  lemma AskingIsOneEach(actions: seq<Action>, root: Id, event: RuntimeEvent)
    requires OneEach(actions)
    ensures OneEach(Asked(actions, root, event))
  {
  }

  // --- What every step makes of the actions ---------------------------------------------------------------

  /** Each action is of a turn there is. */
  ghost predicate Grounded(actions: seq<Action>, turns: Table<Id, Turn>) {
    OneEach(actions) && forall a | a in actions :: Has(turns, a.turn)
  }

  ghost predicate TurnsStay(a: Table<Id, Turn>, b: Table<Id, Turn>) { forall id: Id :: Has(a, id) ==> Has(b, id) }

  lemma PutStays(turns: Table<Id, Turn>, turn: Turn)
    ensures TurnsStay(turns, Put(turns, turn.id, turn))
  {
    forall id: Id ensures Has(turns, id) ==> Has(Put(turns, turn.id, turn), id) { PutGet(turns, turn.id, turn, id); }
  }

  lemma PutAtStays(turns: Table<Id, Turn>, id: Id, turn: Turn)
    ensures TurnsStay(turns, Put(turns, id, turn))
  {
    forall other: Id ensures Has(turns, other) ==> Has(Put(turns, id, turn), other) { PutGet(turns, id, turn, other); }
  }

  lemma ChildTurnStays(db: Db, id: Id, subagent: Id, status: TurnStatus)
    requires AcceptSubagentTurn(db, id, subagent, status).Ok?
    ensures TurnsStay(db.turns, AcceptSubagentTurn(db, id, subagent, status).value.turns)
  {
    var previous := Get(db.turns, id);
    var turn := Turn(id, Some(subagent), status, None, if previous.Some? then previous.value.usage else None);
    PutStays(db.turns, turn);
    PutStays(db.turns, turn.(status := InProgress));
  }

  lemma AskedIff(actions: seq<Action>, call: string)
    ensures Requested(actions, call) <==> IsAsked(actions, call)
  {
    if Requested(actions, call) {
      var a :| a in actions && a.call == call;
      var i :| 0 <= i < |actions| && actions[i] == a;
    }
    if IsAsked(actions, call) {
      var i :| 0 <= i < |actions| && actions[i].call == call;
      assert actions[i] in actions;
    }
  }

  /** An accepted call asks exactly for itself; no other event changes what is asked. */
  lemma EventsAsk(d: Draft, root: Id, event: RuntimeEvent)
    requires Accept(d, root, event).Ok? && Grounded(d.record.actions, d.db.turns)
    ensures var next := Accept(d, root, event).value;
            next.record.actions == Asked(d.record.actions, root, event) && Grounded(next.record.actions, next.db.turns)
  {
    match event
    case SubagentTurn(id, subagent, status) => ChildTurnStays(d.db, id, subagent, status);
    case UsageReported(turn, usage) =>
      var id := Named(turn, root);
      PutAtStays(d.db.turns, id, Get(d.db.turns, id).value.(usage := Some(usage)));
    case Output(native, scope, body) => if body.FunctionCall? { CallsAsk(d, root, event); }
    case _ =>
  }

  lemma CallsAsk(d: Draft, root: Id, event: RuntimeEvent)
    requires event.Output? && event.body.FunctionCall?
    requires Accept(d, root, event).Ok? && Grounded(d.record.actions, d.db.turns)
    ensures var next := Accept(d, root, event).value;
            next.record.actions == Asked(d.record.actions, root, event) && Grounded(next.record.actions, next.db.turns)
  {
    var id, actions := Named(event.scope.turn, root), d.record.actions;
    var waiting := Get(d.db.turns, id).value.(status := Waiting);
    PutAtStays(d.db.turns, id, waiting);
    AskedIff(actions, event.body.call);
    AskingIsOneEach(actions, root, event);
    var next := Accept(d, root, event).value;
    assert next.db.turns == Put(d.db.turns, id, waiting);
    forall a | a in next.record.actions ensures Has(next.db.turns, a.turn) {
      if a !in actions { assert a == Action(id, event.body.call); }
    }
  }

  lemma {:induction false} EntriesAsk(d: Draft, root: Id, entries: seq<J.Stamped>)
    requires AcceptEntries(d, root, entries).Ok? && Grounded(d.record.actions, d.db.turns)
    ensures var next := AcceptEntries(d, root, entries).value;
            && next.record.actions == AllAsked(d.record.actions, root, d.record.cursor, entries)
            && Grounded(next.record.actions, next.db.turns)
    decreases |entries|
  {
    if entries != [] {
      if entries[0].at > d.record.cursor {
        EventsAsk(d, root, entries[0].event);
        var next := Accept(d, root, entries[0].event).value;
        EntriesAsk(next.(record := next.record.(cursor := entries[0].at)), root, entries[1..]);
      } else {
        EntriesAsk(d, root, entries[1..]);
      }
    }
  }

  lemma InputAnswers(d: Draft, driver: Driver, event: InputEvent)
    requires AcceptEvent(d, driver, event).Ok? && Grounded(d.record.actions, d.db.turns)
    ensures var next := AcceptEvent(d, driver, event).value;
            next.record.actions == Answered(d.record.actions, event) && Grounded(next.record.actions, next.db.turns)
  {
    match event
    case UserMessage(input) => PutStays(d.db.turns, Turn(Minted(d.db.feed.minted), None, Queued, None, None));
    case UserCancel =>
    case UserTool(_, _, _, _, _) => ToolAnswers(d, driver, event);
  }

  lemma ToolAnswers(d: Draft, driver: Driver, event: InputEvent)
    requires event.UserTool? && AcceptTool(d, driver, event).Ok? && Grounded(d.record.actions, d.db.turns)
    ensures var next := AcceptTool(d, driver, event).value;
            next.record.actions == Answered(d.record.actions, event) && Grounded(next.record.actions, next.db.turns)
  {
    var action, turn := Action(event.turn, event.call), Get(d.db.turns, event.turn).value;
    WithoutDrops(d.record.actions, action);
    GetIn(d.db.turns, event.turn);
    PutStays(d.db.turns, turn.(status := InProgress));
    var next := AcceptTool(d, driver, event).value;
    forall a | a in next.record.actions ensures Has(next.db.turns, a.turn) { DroppedMembers(d.record.actions, action, a); }
  }

  lemma {:induction false} InputsAnswer(d: Draft, driver: Driver, events: seq<InputEvent>)
    requires AcceptAll(d, driver, events).Ok? && Grounded(d.record.actions, d.db.turns)
    ensures var next := AcceptAll(d, driver, events).value;
            next.record.actions == AllAnswered(d.record.actions, events) && Grounded(next.record.actions, next.db.turns)
    decreases |events|
  {
    if events != [] {
      InputAnswers(d, driver, events[0]);
      InputsAnswer(AcceptEvent(d, driver, events[0]).value, driver, events[1..]);
    }
  }

  // --- Every run -------------------------------------------------------------------------------------------

  /** What is outstanding after a step that took effect: calls are asked, results answer, and a seal asks nothing more. */
  function Remaining(took: bool, db: Db, actions: seq<Action>, step: Step): seq<Action> {
    if !took then actions
    else
      match step
      case Submit(_, events, key) => if key in db.accepted then actions else AllAnswered(actions, events)
      case Poll(fence, entries, _, _) =>
        AllAsked(actions, fence.turn, if db.record.Some? then db.record.value.cursor else 0, entries)
      case Commit(_, _) => []
      case Seal(_, _, _) => []
      case _ => actions
  }

  function Outstanding(s: Setup, db: Db, actions: seq<Action>, steps: seq<Step>): seq<Action>
    decreases |steps|
  {
    if steps == [] then actions
    else Outstanding(s, After(s, db, steps[0]), Remaining(Transact(s, db, steps[0]).Ok?, db, actions, steps[0]), steps[1..])
  }

  ghost predicate Tracks(db: Db, actions: seq<Action>) {
    db.record.Some? ==> db.record.value.actions == actions && Grounded(actions, db.turns)
  }

  lemma StartTracks(db: Db, record: Record, actions: seq<Action>)
    requires db.record == Some(record) && Tracks(db, actions) && record.execution.Some? && MarkRunning(db, record).Ok?
    ensures Tracks(MarkRunning(db, record).value, actions)
  {
    var turn := Get(db.turns, record.execution.value.turn).value.(status := InProgress);
    PutStays(db.turns, turn);
  }

  lemma PollTracks(db: Db, record: Record, actions: seq<Action>, step: Step)
    requires step.Poll? && db.record == Some(record) && Tracks(db, actions) && record.execution.Some?
    requires record.execution.value.turn == step.fence.turn
    requires AcceptBatch(db, record, step.entries, step.completed, step.cancel).Ok?
    ensures Tracks(AcceptBatch(db, record, step.entries, step.completed, step.cancel).value,
                   AllAsked(actions, step.fence.turn, record.cursor, step.entries))
  {
    EntriesAsk(Draft(db, record), step.fence.turn, step.entries);
  }

  lemma FencedStepTracks(s: Setup, db: Db, record: Record, actions: seq<Action>, step: Step)
    requires IsFenced(step) && db.record == Some(record) && record.execution.Some? && Tracks(db, actions)
    requires record.execution.value.turn == step.fence.turn && Reconcile(s, db, record, step).Ok?
    ensures Tracks(Reconcile(s, db, record, step).value, Remaining(true, db, actions, step))
  {
    match step
    case Start(_) => StartTracks(db, record, actions);
    case Poll(_, _, _, _) => PollTracks(db, record, actions, step);
    case Commit(_, checkpoint) => H.SealsTell(s, db, record.(checkpoint := Some(checkpoint)), Completed, None);
    case Seal(_, outcome, error) => H.SealsTell(s, db, record, outcome, error);
    case _ =>
  }

  lemma SubmissionTracks(s: Setup, db: Db, actions: seq<Action>, step: Step)
    requires step.Submit? && Tracks(db, actions) && AcceptInput(s, db, step.driver, step.events, step.key).Ok?
    ensures Tracks(AcceptInput(s, db, step.driver, step.events, step.key).value, Remaining(true, db, actions, step))
  {
    if step.key !in db.accepted { InputsAnswer(Draft(db, db.record.value), step.driver, step.events); }
  }

  lemma ReportTracks(db: Db, actions: seq<Action>, status: EnvironmentStatus)
    requires Tracks(db, actions) && ApplyEnvironment(db, status).Ok?
    ensures Tracks(ApplyEnvironment(db, status).value, actions)
  {
  }

  lemma FenceNames(db: Db, fence: Fence)
    requires Fenced(db, fence).Ok?
    ensures db.record == Some(Fenced(db, fence).value) && db.record.value.execution.Some?
    ensures db.record.value.execution.value.turn == fence.turn
  {
  }

  lemma StepTracks(s: Setup, db: Db, actions: seq<Action>, step: Step)
    requires Tracks(db, actions)
    ensures Tracks(After(s, db, step), Remaining(Transact(s, db, step).Ok?, db, actions, step))
  {
    if Transact(s, db, step).Ok? {
      if IsFenced(step) {
        FenceNames(db, step.fence);
        FencedStepTracks(s, db, db.record.value, actions, step);
      } else {
        match step
        case Submit(_, _, _) => SubmissionTracks(s, db, actions, step);
        case Report(status) => ReportTracks(db, actions, status);
        case Delete =>
        case Drop =>
      }
    }
  }

  lemma {:induction false} RunTracks(s: Setup, db: Db, actions: seq<Action>, steps: seq<Step>)
    requires Tracks(db, actions)
    ensures Tracks(Run(s, db, steps), Outstanding(s, db, actions, steps))
    decreases |steps|
  {
    if steps != [] {
      StepTracks(s, db, actions, steps[0]);
      RunTracks(s, After(s, db, steps[0]), Remaining(Transact(s, db, steps[0]).Ok?, db, actions, steps[0]), steps[1..]);
    }
  }

  /**
   On every run the actions the client is asked for are the calls that were accepted and not yet answered, in
   the order they were made and each with its turn, since the last seal: one for each call identifier, and of a
   turn there is.
   */
  lemma ActionsAreTheOpenCalls(s: Setup, driver: string, revision: string, sandboxed: bool, transcript: Option<string>,
                               checkpoint: Option<Checkpoint>, steps: seq<Step>)
    ensures var start := Created(driver, revision, sandboxed, transcript, checkpoint); var db := Run(s, start, steps);
            db.record.Some? ==>
              db.record.value.actions == Outstanding(s, start, [], steps) && Grounded(db.record.value.actions, db.turns)
  {
    RunTracks(s, Created(driver, revision, sandboxed, transcript, checkpoint), [], steps);
  }

  // --- Answers ------------------------------------------------------------------------------------------------

  /** The client's result of a call. */
  function ResultOf(a: Action, success: bool, image: bool, output: string): InputEvent {
    UserTool(a.turn, a.call, success, image, output)
  }

  /** What an accepted result leaves: that action is answered, its command is queued last, and the rest stays. */
  ghost predicate AnswersOne(record: Record, db: Db, next: Db, a: Action, success: bool, output: string)
    requires record.execution.Some?
  {
    var left, id := Dropped(record.actions, a), Minted(db.feed.minted + 1);
    var control := ToolResult(a.call, success, output);
    && next.record == Some(record.(actions := left, status := if left == [] then Working else RequiresAction))
    && next.commands == db.commands + [Row(id, Operation(id, record.execution.value.turn, control, []))]
    && Has(db.turns, a.turn)
    && (forall other: Id :: Get(next.turns, other) == if left == [] && other == a.turn
                                                      then Some(Get(db.turns, a.turn).value.(status := InProgress))
                                                      else Get(db.turns, other))
  }

  lemma ResultAlone(d: Draft, driver: Driver, event: InputEvent)
    ensures AcceptAll(d, driver, [event]) == AcceptEvent(d, driver, event)
  {
    assert [event][1..] == [];
    if AcceptEvent(d, driver, event).Ok? { assert AcceptAll(AcceptEvent(d, driver, event).value, driver, []) == AcceptEvent(d, driver, event); }
  }

  lemma ResultsAreTakenIff(d: Draft, driver: Driver, a: Action, success: bool, image: bool, output: string)
    requires Grounded(d.record.actions, d.db.turns) && d.record.execution.Some?
    ensures AcceptTool(d, driver, ResultOf(a, success, image, output)).Ok?
            <==> a in d.record.actions && (driver.images || !image)
  {
    WithoutDrops(d.record.actions, a);
    GetIn(d.db.turns, a.turn);
  }

  lemma ResultsLeave(d: Draft, driver: Driver, a: Action, success: bool, image: bool, output: string, queued: Db)
    requires Grounded(d.record.actions, d.db.turns) && d.record.execution.Some?
    requires AcceptTool(d, driver, ResultOf(a, success, image, output)).Ok?
    requires Get(d.db.turns, a.turn).Some?
    requires queued == Enqueue(d.db.(feed := AddItem(d.db.feed, Get(d.db.turns, a.turn).value.subagent, a.turn,
                                                     if success then Done else Bad, Answer(a.call, output))),
                               d.record.execution.value.turn, ToolResult(a.call, success, output), [])
    ensures var next, left := AcceptTool(d, driver, ResultOf(a, success, image, output)).value, Dropped(d.record.actions, a);
            && next.record == d.record.(actions := left, status := if left == [] then Working else RequiresAction)
            && next.db.commands == queued.commands
            && next.db.turns == (if left == [] then
                                   PutTurn(d.db, Get(d.db.turns, a.turn).value.(status := InProgress)).turns
                                 else d.db.turns)
  {
    WithoutDrops(d.record.actions, a);
  }

  lemma ResultsAnswer(d: Draft, driver: Driver, a: Action, success: bool, image: bool, output: string)
    requires Grounded(d.record.actions, d.db.turns) && d.record.execution.Some?
    requires Queues(d.db, SessionInputs.ActiveOf(d.record)) && forall r | r in d.db.turns :: r.value.id == r.key
    requires AcceptTool(d, driver, ResultOf(a, success, image, output)).Ok?
    ensures var next := AcceptTool(d, driver, ResultOf(a, success, image, output)).value;
            AnswersOne(d.record, d.db, Saved(next), a, success, output)
  {
    ResultsAreTakenIff(d, driver, a, success, image, output);
    GetIn(d.db.turns, a.turn);
    var turn, root := Get(d.db.turns, a.turn).value, d.record.execution.value.turn;
    var listed := d.db.(feed := AddItem(d.db.feed, turn.subagent, a.turn, if success then Done else Bad, Answer(a.call, output)));
    var queued := Enqueue(listed, root, ToolResult(a.call, success, output), []);
    ResultIsQueued(d.db, listed, root, ToolResult(a.call, success, output));
    ResultsLeave(d, driver, a, success, image, output, queued);
    ResumingLeavesTheRest(d.db, turn);
  }

  lemma ResultIsQueued(db: Db, listed: Db, turn: Id, control: Control)
    requires Queues(db, Some(turn)) && !control.Cancel? && listed == db.(feed := listed.feed)
    requires listed.feed.minted == db.feed.minted + 1
    ensures var id := Minted(db.feed.minted + 1);
            Enqueue(listed, turn, control, []).commands == db.commands + [Row(id, Operation(id, turn, control, []))]
  {
    QueuedLast(listed, turn, control, []);
  }

  lemma ResumingLeavesTheRest(db: Db, turn: Turn)
    ensures forall other: Id :: Get(PutTurn(db, turn.(status := InProgress)).turns, other)
                                == if other == turn.id then Some(turn.(status := InProgress)) else Get(db.turns, other)
  {
    forall other: Id
      ensures Get(PutTurn(db, turn.(status := InProgress)).turns, other)
              == if other == turn.id then Some(turn.(status := InProgress)) else Get(db.turns, other)
    {
      PutGet(db.turns, turn.id, turn.(status := InProgress), other);
    }
  }

  /** A session and its actions as they are on every run. */
  ghost predicate Regular(db: Db) {
    WellShaped(db) && Mail(db) && Keyed(db) && (db.record.Some? ==> Grounded(db.record.value.actions, db.turns))
  }

  lemma DrivenRunsAreRegular(s: Setup, driver: string, revision: string, sandboxed: bool, transcript: Option<string>,
                             checkpoint: Option<Checkpoint>, steps: seq<Step>)
    requires AllDriven(s, Created(driver, revision, sandboxed, transcript, checkpoint), steps)
    ensures Regular(Run(s, Created(driver, revision, sandboxed, transcript, checkpoint), steps))
  {
    var db := Created(driver, revision, sandboxed, transcript, checkpoint);
    CreatedIsAccounted(driver, revision, sandboxed, transcript, checkpoint);
    RunKeepsMail(s, db, steps);
    RunIsAccounted(s, db, steps, multiset{});
    RunTracks(s, db, [], steps);
  }

  /**
   A result submitted under a new key while a turn runs and is not about to complete is accepted if and only if
   it is for an outstanding action, of that call and that turn, and its driver takes what it holds. Then that
   action alone is answered, its result is queued last for the executor, and the turn goes on if it was the last.
   */
  lemma ResultsAnswerExactlyTheirAction(s: Setup, db: Db, driver: Driver, a: Action, success: bool, image: bool,
                                        output: string, key: string)
    requires Regular(db) && FenceOf(db).Some? && db.record.value.phase != Checkpointing && key !in db.accepted
    ensures var step := Submit(driver, [ResultOf(a, success, image, output)], key);
            && (Transact(s, db, step).Ok? <==> a in db.record.value.actions && (driver.images || !image))
            && (Transact(s, db, step).Ok? ==> AnswersOne(db.record.value, db, After(s, db, step), a, success, output))
  {
    var d, event := Draft(db, db.record.value), ResultOf(a, success, image, output);
    ResultAlone(d, driver, event);
    ResultsAreTakenIff(d, driver, a, success, image, output);
    if AcceptTool(d, driver, event).Ok? {
      ResultsAnswer(d, driver, a, success, image, output);
    }
  }

  /** A turn about to complete takes no result. */
  lemma CompletingTurnsTakeNoResult(s: Setup, db: Db, driver: Driver, events: seq<InputEvent>, key: string)
    requires Present(db) && db.record.value.phase == Checkpointing && key !in db.accepted
    ensures Transact(s, db, Submit(driver, events, key)) == Err(TurnCheckpointing)
  {
  }

  // --- Actions wait -----------------------------------------------------------------------------------------------

  /** The step ends the turn, or answers this action. */
  predicate Resolves(step: Step, a: Action) {
    step.Commit? || step.Seal?
    || (step.Submit? && exists i :: 0 <= i < |step.events| && IsResult(step.events[i], a))
  }

  predicate IsResult(event: InputEvent, a: Action) { event.UserTool? && event.turn == a.turn && event.call == a.call }

  lemma {:induction false} AskingKeeps(actions: seq<Action>, root: Id, cursor: nat, entries: seq<J.Stamped>, a: Action)
    requires a in actions
    ensures a in AllAsked(actions, root, cursor, entries)
    decreases |entries|
  {
    if entries != [] {
      if entries[0].at <= cursor { AskingKeeps(actions, root, cursor, entries[1..], a); }
      else { AskingKeeps(Asked(actions, root, entries[0].event), root, entries[0].at, entries[1..], a); }
    }
  }

  lemma {:induction false} OtherAnswersKeep(actions: seq<Action>, events: seq<InputEvent>, a: Action)
    requires a in actions && forall i | 0 <= i < |events| :: !IsResult(events[i], a)
    ensures a in AllAnswered(actions, events)
    decreases |events|
  {
    if events != [] {
      assert !IsResult(events[0], a);
      if events[0].UserTool? { DroppedMembers(actions, Action(events[0].turn, events[0].call), a); }
      OtherAnswersKeep(Answered(actions, events[0]), events[1..], a);
    }
  }

  /** An action waits, however long the run, until its result comes or the turn is sealed. */
  lemma {:induction false} ActionsWait(s: Setup, db: Db, steps: seq<Step>, a: Action)
    requires db.record.Some? && Tracks(db, db.record.value.actions) && a in db.record.value.actions && WellShaped(db)
    requires forall step | step in steps :: !Resolves(step, a)
    ensures var later := Run(s, db, steps); later.record.Some? && a in later.record.value.actions
    decreases |steps|
  {
    if steps != [] {
      var step, actions := steps[0], db.record.value.actions;
      assert step in steps;
      StepTracks(s, db, actions, step);
      StepKeepsShape(s, db, step);
      if step.Poll? { AskingKeeps(actions, step.fence.turn, db.record.value.cursor, step.entries, a); }
      else if step.Submit? { OtherAnswersKeep(actions, step.events, a); }
      RunningSessionsStay(s, db, step);
      forall later | later in steps[1..] ensures !Resolves(later, a) { assert later in steps; }
      ActionsWait(s, After(s, db, step), steps[1..], a);
    }
  }

  /** A session that asks something of its client is not purged. */
  lemma RunningSessionsStay(s: Setup, db: Db, step: Step)
    requires WellShaped(db) && db.record.Some? && db.record.value.actions != []
    ensures After(s, db, step).record.Some?
  {
    if Transact(s, db, step).Ok? && IsFenced(step) {
      H.FencesHold(s, db, step);
      match step
      case Commit(_, checkpoint) => H.SealsTell(s, db, db.record.value.(checkpoint := Some(checkpoint)), Completed, None);
      case Seal(_, outcome, error) => H.SealsTell(s, db, db.record.value, outcome, error);
      case _ =>
    }
  }
}
