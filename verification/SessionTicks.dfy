/**
 What whole ticks do: a round delivers the queue from its head and in order, whatever interleaves, and with a
 runtime that does its part a tick takes a turn from its start to its checkpoint.
 */
module SessionTicks {
  import opened Options
  import opened Tables
  import opened SessionStore
  import opened SessionState
  import opened SessionRuns
  import opened SessionShape
  import opened SessionInputs
  import opened SessionReconcile
  import E = SessionEffects
  import H = SessionHistories
  import J = JobStates

  // --- A round ----------------------------------------------------------------------------------------------

  lemma AdvanceIsNext(s: Setup, w: World, wait: Wait)
    ensures Advance(s, w, wait).stage
            == Next(w, wait, if Writes(w, wait).Some? then Transact(s, w.db, Writes(w, wait).value) else Ok(w.db))
  {
  }

  lemma LooksTakeUp(w: World, result: Result<Db>)
    requires w.stage.Round? && Fenced(w.db, w.stage.fence).Ok? && result.Ok?
    ensures var fence := w.stage.fence;
            && Writes(w, Look(false)).None?
            && Next(w, Look(false), result) == Delivering(fence, fence.turn in w.db.cancellations, PendingCommands(w.db, fence.turn))
  {
  }

  lemma {:induction false} LeadingInOrder(commands: Table<Id, Operation>, most: nat)
    ensures var todo := Leading(commands, most);
            && |todo| == (if |commands| <= most then |commands| else most)
            && forall i | 0 <= i < |todo| :: todo[i] == commands[i].value
    decreases most
  {
    if commands != [] && most > 0 { LeadingInOrder(commands[1..], most - 1); }
  }

  /**
   A round under a live fence and before the deadline takes up the cancellation alone if there is one, and else
   the first hundred commands in the order they were queued.
   */
  lemma RoundsDeliverTheQueue(s: Setup, w: World)
    requires w.stage.Round? && Fenced(w.db, w.stage.fence).Ok?
    ensures var turn := w.stage.fence.turn; var next := Advance(s, w, Look(false)).stage;
            && next.Delivering? && next.fence == w.stage.fence && (next.cancel <==> turn in w.db.cancellations)
            && (if turn in w.db.cancellations then next.todo == [w.db.cancellations[turn]]
                else |next.todo| == (if |w.db.commands| <= COMMANDS_PAGE then |w.db.commands| else COMMANDS_PAGE)
                     && forall i | 0 <= i < |next.todo| :: next.todo[i] == w.db.commands[i].value)
  {
    AdvanceIsNext(s, w, Look(false));
    LooksTakeUp(w, Ok(w.db));
    LeadingInOrder(w.db.commands, COMMANDS_PAGE);
  }

  /** These are the first of the queue. */
  ghost predicate Heads(commands: Table<Id, Operation>, todo: seq<Operation>) {
    && |todo| <= |commands| && Distinct(commands)
    && forall i | 0 <= i < |todo| :: commands[i] == Row(todo[i].id, todo[i])
  }

  /** The commands at hand are the first of the queue, and the tick may deliver them. */
  ghost predicate Hands(w: World) {
    w.stage.Delivering? && !w.stage.cancel && Fenced(w.db, w.stage.fence).Ok? && Heads(w.db.commands, w.stage.todo)
  }

  lemma HeadsGo(commands: Table<Id, Operation>, todo: seq<Operation>)
    requires Heads(commands, todo) && todo != []
    ensures commands[0] == Row(todo[0].id, todo[0]) && Remove(commands, todo[0].id) == commands[1..]
    ensures Heads(commands[1..], todo[1..])
  {
    assert commands[0] == Row(todo[0].id, todo[0]);
    RemoveOther(commands[1..], todo[0].id);
    forall i | 0 <= i < |todo[1..]| ensures commands[1..][i] == Row(todo[1..][i].id, todo[1..][i]) {
      assert commands[1..][i] == commands[i + 1] && todo[1..][i] == todo[i + 1];
    }
  }

  lemma {:induction false} RemoveOther(commands: Table<Id, Operation>, key: Id)
    requires forall r | r in commands :: r.key != key
    ensures Remove(commands, key) == commands
  {
    if commands != [] {
      assert commands[0] in commands && commands == [commands[0]] + commands[1..];
      RemoveOther(commands[1..], key);
    }
  }

  lemma CommandsAreAnswered(s: Setup, db: Db, fence: Fence, operation: Operation)
    requires Fenced(db, fence).Ok?
    ensures Transact(s, db, Deliver(fence, operation)) == Ok(db.(commands := Remove(db.commands, operation.id)))
  {
  }

  lemma CommandsAreRefused(s: Setup, db: Db, fence: Fence, operation: Operation)
    requires Fenced(db, fence).Ok?
    ensures var next := Transact(s, db, Refuse(fence, operation));
            next.Ok? && next.value.record == db.record && next.value.commands == Remove(db.commands, operation.id)
  {
  }

  lemma HandsOneOver(s: Setup, w: World)
    requires Hands(w) && w.stage.todo != []
    ensures var next := Advance(s, w, Controlled(Taken));
            && next.stage == w.stage.(todo := w.stage.todo[1..]) && next.db == w.db.(commands := w.db.commands[1..])
            && Hands(next)
  {
    HeadsGo(w.db.commands, w.stage.todo);
    CommandsAreAnswered(s, w.db, w.stage.fence, w.stage.todo[0]);
    WritingAdvances(s, w, Controlled(Taken), Deliver(w.stage.fence, w.stage.todo[0]));
  }

  /** The tick after so many commands were taken, one after the other. */
  function Taking(s: Setup, w: World, count: nat): World
    decreases count
  {
    if count == 0 then w else Taking(s, Advance(s, w, Controlled(Taken)), count - 1)
  }

  lemma EmptyHandsPoll(s: Setup, w: World)
    requires w.stage.Delivering? && w.stage.todo == []
    ensures Advance(s, w, Controlled(Taken)) == World(w.db, Polling(w.stage.fence, w.stage.cancel, false))
  {
  }

  lemma {:induction false} TakingEmptiesHands(s: Setup, w: World)
    requires Hands(w)
    ensures Taking(s, w, |w.stage.todo|)
            == World(w.db.(commands := w.db.commands[|w.stage.todo|..]), w.stage.(todo := []))
    decreases |w.stage.todo|
  {
    if w.stage.todo == [] {
      assert w.db.commands[0..] == w.db.commands;
    } else {
      HandsOneOver(s, w);
      TakingEmptiesHands(s, World(w.db.(commands := w.db.commands[1..]), w.stage.(todo := w.stage.todo[1..])));
      assert w.db.commands[1..][|w.stage.todo| - 1..] == w.db.commands[|w.stage.todo|..];
    }
  }

  /**
   An executor that takes each command it is given is given all of them, once each and in order: after a round,
   just they have left the queue, nothing else of the session has changed, and the tick goes on to poll.
   */
  lemma RoundsEmptyTheirPage(s: Setup, w: World)
    requires Hands(w)
    ensures var after := Taking(s, w, |w.stage.todo|); var polling := Advance(s, after, Controlled(Taken));
            && after.db == w.db.(commands := w.db.commands[|w.stage.todo|..])
            && polling == World(after.db, Polling(w.stage.fence, false, false))
  {
    TakingEmptiesHands(s, w);
    EmptyHandsPoll(s, World(w.db.(commands := w.db.commands[|w.stage.todo|..]), w.stage.(todo := [])));
  }

  // --- In order, whatever interleaves --------------------------------------------------------------------------

  /** What a tick has at hand it takes from the head of the queue. */
  ghost predicate InOrder(w: World) {
    w.stage.Delivering? && !w.stage.cancel && Fenced(w.db, w.stage.fence).Ok? ==> Hands(w)
  }

  lemma LookingIsInOrder(s: Setup, w: World, expired: bool)
    requires Steady(w) && w.stage.Round?
    ensures InOrder(Advance(s, w, Look(expired)))
  {
    var next := Advance(s, w, Look(expired));
    if next.stage.Delivering? && !next.stage.cancel && Fenced(w.db, w.stage.fence).Ok? {
      RoundsDeliverTheQueue(s, w);
      forall i | 0 <= i < |next.stage.todo| ensures w.db.commands[i] == Row(next.stage.todo[i].id, next.stage.todo[i]) {
        assert w.db.commands[i] in w.db.commands;
      }
    }
  }

  /** An answer that lets the tick go on takes the first command off the queue. */
  lemma AnswersTakeTheFirst(w: World, control: SessionReconcile.Control, result: Result<Db>)
    requires w.stage.Delivering? && !w.stage.cancel && Fenced(w.db, w.stage.fence).Ok?
    requires Next(w, Controlled(control), result).Delivering?
    ensures w.stage.todo != [] && Next(w, Controlled(control), result) == w.stage.(todo := w.stage.todo[1..])
    ensures Writes(w, Controlled(control)) in {Some(Deliver(w.stage.fence, w.stage.todo[0])),
                                               Some(Refuse(w.stage.fence, w.stage.todo[0]))}
  {
  }

  /** A command that was refused leaves the queue as one that was taken does. */
  lemma HandsOneBack(s: Setup, w: World, control: SessionReconcile.Control)
    requires Hands(w) && Advance(s, w, Controlled(control)).stage.Delivering?
    ensures Hands(Advance(s, w, Controlled(control)))
  {
    var write, fence := Writes(w, Controlled(control)), w.stage.fence;
    AdvanceIsNext(s, w, Controlled(control));
    AnswersTakeTheFirst(w, control, if write.Some? then Transact(s, w.db, write.value) else Ok(w.db));
    HeadsGo(w.db.commands, w.stage.todo);
    WritingAdvances(s, w, Controlled(control), write.value);
    if write == Some(Deliver(fence, w.stage.todo[0])) { CommandsAreAnswered(s, w.db, fence, w.stage.todo[0]); }
    else { CommandsAreRefused(s, w.db, fence, w.stage.todo[0]); }
  }

  /** A tick delivers after a look, or after an answer, or as it did when the wait was none of its own. */
  lemma DeliveringStays(w: World, wait: Wait, result: Result<Db>)
    requires Next(w, wait, result).Delivering?
    ensures (w.stage.Round? && wait.Look?) || w.stage.Delivering?
    ensures w.stage.Delivering? && !wait.Controlled? ==> Next(w, wait, result) == w.stage && Writes(w, wait).None?
  {
  }

  lemma TickKeepsOrder(s: Setup, w: World, wait: Wait)
    requires Steady(w) && InOrder(w)
    ensures InOrder(Advance(s, w, wait))
  {
    var next, write := Advance(s, w, wait), Writes(w, wait);
    AdvanceIsNext(s, w, wait);
    if next.stage.Delivering? {
      DeliveringStays(w, wait, if write.Some? then Transact(s, w.db, write.value) else Ok(w.db));
      if w.stage.Round? {
        LookingIsInOrder(s, w, wait.expired);
      } else if wait.Controlled? {
        AnswerKeepsOrder(s, w, wait.control);
      }
    }
  }

  lemma AnswerKeepsOrder(s: Setup, w: World, control: SessionReconcile.Control)
    requires InOrder(w) && w.stage.Delivering? && Advance(s, w, Controlled(control)).stage.Delivering?
    ensures InOrder(Advance(s, w, Controlled(control)))
  {
    if !w.stage.cancel && Fenced(w.db, w.stage.fence).Ok? { HandsOneBack(s, w, control); }
  }

  lemma ClientKeepsOrder(s: Setup, w: World, step: Step)
    requires Steady(w) && InOrder(w) && FromOutside(step)
    ensures InOrder(MoveOn(s, w, Client(step)))
  {
    var next := After(s, w.db, step);
    if w.stage.Delivering? && !w.stage.cancel && Fenced(next, w.stage.fence).Ok? {
      if Fenced(w.db, w.stage.fence).Err? { SupersededStays(s, w, step); }
      ClientKeepsSteady(s, w, step);
      ClientsQueueBehind(s, w.db, step);
    }
  }

  lemma ClientsQueueBehind(s: Setup, db: Db, step: Step)
    requires WellShaped(db) && Mail(db) && Present(db) && FromOutside(step)
    ensures db.commands <= After(s, db, step).commands
  {
    if step.Submit? && Transact(s, db, step).Ok? { SubmissionKeepsMail(s, db, step.driver, step.events, step.key); }
  }

  lemma {:induction false} RunKeepsOrder(s: Setup, w: World, moves: seq<Move>)
    requires Steady(w) && InOrder(w)
    ensures Steady(Moved(s, w, moves)) && InOrder(Moved(s, w, moves))
    decreases |moves|
  {
    if moves != [] {
      match moves[0] {
        case Client(step) => if FromOutside(step) { ClientKeepsSteady(s, w, step); ClientKeepsOrder(s, w, step); }
        case Tick(wait) => TickKeepsSteady(s, w, wait); TickKeepsOrder(s, w, wait);
        case Crash =>
      }
      RunKeepsOrder(s, MoveOn(s, w, moves[0]), moves[1..]);
    }
  }

  lemma AnswersTheFirst(w: World, wait: Wait)
    requires Writes(w, wait).Some? && (Writes(w, wait).value.Deliver? || Writes(w, wait).value.Refuse?)
    ensures w.stage.Delivering? && !w.stage.cancel && w.stage.todo != [] && Writes(w, wait).value.fence == w.stage.fence
    ensures Writes(w, wait).value.operation == w.stage.todo[0]
  {
  }

  /**
   Whatever clients, crashes and the executor's answers do between the waits: a tick under a live fence hands
   over, drops or refuses only the command at the head of the queue, so commands leave it in the order they
   were accepted, and none while one before it waits for an answer.
   */
  lemma CommandsLeaveInOrder(s: Setup, w: World, moves: seq<Move>, wait: Wait)
    requires Steady(w) && w.stage.Asleep?
    requires var now := Moved(s, w, moves);
             var step := Writes(now, wait);
             step.Some? && (step.value.Deliver? || step.value.Refuse?) && Fenced(now.db, step.value.fence).Ok?
    ensures var now := Moved(s, w, moves); var step := Writes(now, wait).value;
            && now.db.commands != [] && now.db.commands[0] == Row(step.operation.id, step.operation)
            && After(s, now.db, step).commands == now.db.commands[1..]
  {
    RunKeepsOrder(s, w, moves);
    var now := Moved(s, w, moves);
    var step := Writes(now, wait).value;
    AnswersTheFirst(now, wait);
    HeadsGo(now.db.commands, now.stage.todo);
    if step.Deliver? { CommandsAreAnswered(s, now.db, step.fence, step.operation); }
    else { CommandsAreRefused(s, now.db, step.fence, step.operation); }
  }

  // --- After a poll ----------------------------------------------------------------------------------------------

  /** The job goes on, waits or completed. */
  predicate Goes(status: BatchStatus) { status.StillRunning? || status.WaitingForInput? || status.Finished? }

  /**
   What a poll that was taken leads to: the checkpoint exactly if the turn is about to complete and nothing waits,
   and another round exactly if a command waits that the last round did not leave unanswered, or the tick polls on.
   */
  lemma PollsLeadOn(w: World, wait: Wait, db: Db)
    requires w.stage.Polling? && wait.Answered?
    ensures var next := Next(w, wait, Ok(db));
            var waits, completing := !w.stage.cancel && db.commands != [], db.record.Some? && db.record.value.phase == Checkpointing;
            && (next == Recovering(w.stage.fence) <==> completing && !waits)
            && (next == Round(w.stage.fence)
                <==> (waits || !completing) && Goes(wait.status)
                     && ((waits && !w.stage.retry) || (wait.again && wait.status.StillRunning?)))
  {
  }

  /** A command accepted while the tick polled is at hand in its next round, at the head of the queue. */
  lemma LateCommandsAreTakenUp(s: Setup, w: World, wait: Wait, poll: Step)
    requires w.stage.Polling? && !w.stage.cancel && !w.stage.retry && wait.Answered? && Goes(wait.status)
    requires Writes(w, wait) == Some(poll) && Transact(s, w.db, poll).Ok?
    requires var db := After(s, w.db, poll);
             db.commands != [] && Fenced(db, w.stage.fence).Ok? && w.stage.fence.turn !in db.cancellations
    ensures var next := Advance(s, Advance(s, w, wait), Look(false));
            && next.db == After(s, w.db, poll) && next.stage.Delivering? && !next.stage.cancel
            && next.stage.todo != [] && next.stage.todo[0] == next.db.commands[0].value
  {
    WritingAdvances(s, w, wait, poll);
    PollsLeadOn(w, wait, After(s, w.db, poll));
    RoundTakesTheHead(s, World(After(s, w.db, poll), Round(w.stage.fence)));
  }

  lemma RoundTakesTheHead(s: Setup, w: World)
    requires w.stage.Round? && Fenced(w.db, w.stage.fence).Ok? && w.stage.fence.turn !in w.db.cancellations
    requires w.db.commands != []
    ensures var next := Advance(s, w, Look(false));
            && next.db == w.db && next.stage.Delivering? && !next.stage.cancel
            && next.stage.todo != [] && next.stage.todo[0] == w.db.commands[0].value
  {
    RoundsDeliverTheQueue(s, w);
    LooksTakeUp(w, Ok(w.db));
  }

  // --- A turn, from its start to its checkpoint -------------------------------------------------------------------

  /** The waits of a tick whose runtime starts, takes every command, and finishes with these events. */
  function Started(s: Setup, w: World): World {
    Advance(s, Advance(s, w, Alarm(true, true, false)), Launched(None, false))
  }

  function Delivered(s: Setup, w: World): World {
    var round := Advance(s, w, Look(false));
    if round.stage.Delivering? then Advance(s, Taking(s, round, |round.stage.todo|), Controlled(Taken)) else round
  }

  function Polled(s: Setup, w: World, entries: seq<J.Stamped>, code: string, again: bool): World {
    Advance(s, w, Answered(entries, Finished, code, again))
  }

  /** A reachable session, between ticks, whose turn is about to start, with no more queued than one page. */
  ghost predicate Startable(w: World) {
    && w.stage.Asleep? && FenceOf(w.db).Some? && w.db.record.value.phase == Phase.Starting
    && FenceOf(w.db).value.turn !in w.db.cancellations && |w.db.commands| <= COMMANDS_PAGE
  }

  lemma StartsAndDelivers(s: Setup, w: World, fence: Fence)
    requires Steady(w) && Startable(w) && FenceOf(w.db) == Some(fence) && Transact(s, w.db, Step.Start(fence)).Ok?
    ensures Started(s, w) == World(After(s, w.db, Step.Start(fence)), Round(fence))
    ensures Delivered(s, Started(s, w)) == World(After(s, w.db, Step.Start(fence)).(commands := []), Polling(fence, false, false))
  {
    var started := Started(s, w);
    TickKeepsSteady(s, w, Alarm(true, true, false));
    TickKeepsSteady(s, Advance(s, w, Alarm(true, true, false)), Launched(None, false));
    RoundsDeliverTheQueue(s, started);
    LookingIsInOrder(s, started, false);
    var round := Advance(s, started, Look(false));
    RoundsEmptyTheirPage(s, round);
    assert round.db.commands[|round.stage.todo|..] == [];
  }

  lemma CompletedPollsRecover(w: World, wait: Wait, db: Db)
    requires w.stage.Polling? && !w.stage.cancel && wait.Answered?
    requires db.commands == [] && db.record.Some? && db.record.value.phase == Checkpointing
    ensures Next(w, wait, Ok(db)) == Recovering(w.stage.fence)
  {
  }

  lemma PollingGoesOn(s: Setup, w: World, wait: Wait, poll: Step)
    requires w.stage.Polling? && !w.stage.cancel && wait.Answered? && Writes(w, wait) == Some(poll)
    requires Transact(s, w.db, poll).Ok?
    requires var db := After(s, w.db, poll); db.commands == [] && db.record.Some? && db.record.value.phase == Checkpointing
    ensures Advance(s, w, wait) == World(After(s, w.db, poll), Recovering(w.stage.fence))
  {
    WritingAdvances(s, w, wait, poll);
    CompletedPollsRecover(w, wait, After(s, w.db, poll));
  }

  /** The poll that finds the job finished with nothing queued. */
  lemma FinishingPollsRecover(s: Setup, w: World, wait: Wait, poll: Step)
    requires w.stage.Polling? && !w.stage.cancel && w.db.commands == [] && wait.Answered? && Writes(w, wait) == Some(poll)
    requires poll.Poll? && poll.completed && Transact(s, w.db, poll).Ok?
    ensures Advance(s, w, wait) == World(After(s, w.db, poll), Recovering(w.stage.fence))
  {
    E.PollsCompleteIff(s, w.db, poll);
    PollingGoesOn(s, w, wait, poll);
  }

  lemma CommittingEnds(s: Setup, w: World, wait: Wait, commit: Step)
    requires w.stage.Recovering? && wait.CheckpointAnswered? && wait.answer.Recovered? && Writes(w, wait) == Some(commit)
    requires Transact(s, w.db, commit).Ok?
    ensures Advance(s, w, wait) == World(After(s, w.db, commit), Asleep)
  {
    WritingAdvances(s, w, wait, commit);
  }

  lemma CommitsMoveOn(s: Setup, db: Db, fence: Fence, c: Checkpoint)
    requires WellShaped(db) && Transact(s, db, Commit(fence, c)).Ok?
    ensures var next := After(s, db, Commit(fence, c));
            && next.record.Some? && next.record.value.checkpoint == Some(c) && next.record.value.error.None?
            && FenceOf(next) != Some(fence)
  {
    H.SealsLeaveTheRecord(s, db, Commit(fence, c));
  }

  /** A session whose turn runs as the record says, for a checkpoint of its driver. */
  ghost predicate Ready(db: Db, c: Checkpoint) {
    && WellShaped(db) && E.Rooted(db) && db.record.Some? && db.record.value.execution.Some?
    && db.record.value.execution.value.checkpoint == db.record.value.checkpoint
    && db.record.value.driver == c.driver && db.record.value.revision == c.revision
  }

  lemma DeliveredIsReady(s: Setup, w: World, fence: Fence, c: Checkpoint)
    requires Steady(w) && Startable(w) && FenceOf(w.db) == Some(fence) && Ready(w.db, c)
    ensures var delivered := Delivered(s, Started(s, w));
            delivered.stage == Polling(fence, false, false) && delivered.db.commands == [] && Ready(delivered.db, c)
  {
    E.FencedStepsSucceed(s, w.db, Step.Start(fence));
    StartsAndDelivers(s, w, fence);
    E.StepIsRooted(s, w.db, Step.Start(fence));
    StepKeepsShape(s, w.db, Step.Start(fence));
  }

  /** A poll leaves the turn running under its fence, with its row, and the session's driver as it was. */
  lemma PolledTurnsGoOn(s: Setup, db: Db, fence: Fence, entries: seq<J.Stamped>, c: Checkpoint)
    requires Ready(db, c) && Transact(s, db, Poll(fence, entries, true, false)).Ok?
    ensures var next := After(s, db, Poll(fence, entries, true, false)); Ready(next, c) && Fenced(next, fence).Ok?
  {
    var record := db.record.value;
    var h := H.History(record.checkpoint, record.transcript, record.error, record.deleted);
    H.FencesHold(s, db, Poll(fence, entries, true, false));
    E.StepIsRooted(s, db, Poll(fence, entries, true, false));
    StepKeepsShape(s, db, Poll(fence, entries, true, false));
    H.PollTells(db, record, h, Poll(fence, entries, true, false));
    EntriesKeepShape(Draft(db, record), record.execution.value.turn, entries);
  }

  /** From there the end of the job leads to its checkpoint. */
  lemma FinishedJobsRecover(s: Setup, w: World, entries: seq<J.Stamped>, answered: Wait, c: Checkpoint)
    requires w.stage.Polling? && !w.stage.cancel && w.db.commands == [] && Ready(w.db, c)
    requires Transact(s, w.db, Poll(w.stage.fence, entries, true, false)).Ok?
    requires answered.Answered? && Writes(w, answered) == Some(Poll(w.stage.fence, entries, true, false))
    ensures var next := Advance(s, w, answered);
            next.stage == Recovering(w.stage.fence) && Ready(next.db, c) && Fenced(next.db, w.stage.fence).Ok?
  {
    PolledTurnsGoOn(s, w.db, w.stage.fence, entries, c);
    FinishingPollsRecover(s, w, answered, Poll(w.stage.fence, entries, true, false));
  }

  /** And the checkpoint ends the turn. */
  lemma CheckpointsEndTheTurn(s: Setup, w: World, recovered: Wait, c: Checkpoint)
    requires w.stage.Recovering? && Ready(w.db, c) && Fenced(w.db, w.stage.fence).Ok?
    requires recovered.CheckpointAnswered? && recovered.answer == Recovered(c)
    ensures var last := Advance(s, w, recovered);
            && last.stage.Asleep? && last.db.record.Some? && last.db.record.value.checkpoint == Some(c)
            && last.db.record.value.error.None? && FenceOf(last.db) != Some(w.stage.fence)
  {
    var commit := Commit(w.stage.fence, c);
    E.FencedStepsSucceed(s, w.db, commit);
    CommittingEnds(s, w, recovered, commit);
    CommitsMoveOn(s, w.db, w.stage.fence, c);
  }

  lemma FinishedJobsEndTheTurn(s: Setup, w: World, fence: Fence, entries: seq<J.Stamped>, code: string, again: bool, c: Checkpoint)
    requires w.stage == Polling(fence, false, false) && w.db.commands == [] && Ready(w.db, c)
    requires Transact(s, w.db, Poll(fence, entries, true, false)).Ok?
    ensures var last := Advance(s, Polled(s, w, entries, code, again), CheckpointAnswered(Recovered(c), code));
            && last.stage.Asleep? && last.db.record.Some? && last.db.record.value.checkpoint == Some(c)
            && last.db.record.value.error.None? && FenceOf(last.db) != Some(fence)
  {
    FinishedJobsRecover(s, w, entries, Answered(entries, Finished, code, again), c);
    CheckpointsEndTheTurn(s, Polled(s, w, entries, code, again), CheckpointAnswered(Recovered(c), code), c);
  }

  lemma ReachedSessions(s: Setup, driver: string, revision: string, sandboxed: bool, transcript: Option<string>,
                        checkpoint: Option<Checkpoint>, moves: seq<Move>, w: World)
    requires w == Moved(s, World(Created(driver, revision, sandboxed, transcript, checkpoint), Asleep), moves)
    ensures Steady(w) && E.Rooted(w.db)
    ensures w.db.record.Some? ==>
              var record := w.db.record.value;
              && record.driver == driver && record.revision == revision
              && (record.execution.Some? ==> record.execution.value.checkpoint == record.checkpoint)
  {
    var start := World(Created(driver, revision, sandboxed, transcript, checkpoint), Asleep);
    var steps := StepsOf(s, start, moves);
    RunsAreDriven(s, start, moves);
    E.RunsAreRooted(s, start.db, steps);
    if Run(s, start.db, steps).record.Some? {
      H.RecordsTellTheirHistory(s, driver, revision, sandboxed, transcript, checkpoint, steps);
    }
  }

  /**
   In any reachable session whose turn is about to start, with no cancellation and one page of commands at most:
   a runtime that starts, takes every command and finishes with events the session can accept takes the turn
   all the way in one tick, and the checkpoint it returns is the session's.
   */
  lemma CooperativeRuntimesCompleteTheTurn(
      s: Setup, driver: string, revision: string, sandboxed: bool, transcript: Option<string>, checkpoint: Option<Checkpoint>,
      moves: seq<Move>, w: World, entries: seq<J.Stamped>, code: string, again: bool, c: Checkpoint)
    requires w == Moved(s, World(Created(driver, revision, sandboxed, transcript, checkpoint), Asleep), moves)
    requires Startable(w) && c.driver == driver && c.revision == revision
    requires Transact(s, Delivered(s, Started(s, w)).db, Poll(FenceOf(w.db).value, entries, true, false)).Ok?
    ensures var polled := Polled(s, Delivered(s, Started(s, w)), entries, code, again);
            var last := Advance(s, polled, CheckpointAnswered(Recovered(c), code));
            && last.stage.Asleep? && last.db.record.Some? && last.db.record.value.checkpoint == Some(c)
            && last.db.record.value.error.None? && FenceOf(last.db) != FenceOf(w.db)
  {
    ReachedSessions(s, driver, revision, sandboxed, transcript, checkpoint, moves, w);
    var fence := FenceOf(w.db).value;
    DeliveredIsReady(s, w, fence, c);
    FinishedJobsEndTheTurn(s, Delivered(s, Started(s, w)), fence, entries, code, again, c);
  }
}
