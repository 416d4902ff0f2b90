/**
 The reconciler's tick, cut where it waits: between two waits it makes one read or one fenced
 transaction, and clients act in between. Whatever they do and whatever the runtime answers, each
 transaction it makes is one the session's guarantees rely on.
 */
module SessionReconcile {
  import opened Options
  import opened Tables
  import opened SessionStore
  import opened SessionEvents
  import opened SessionState
  import opened SessionRuns
  import opened SessionShape
  import opened SessionInputs
  import opened SessionObjects
  import H = SessionHistories
  import J = JobStates

  const COMMANDS_PAGE: nat := 100

  datatype Stage =
    | Asleep
    | Launching(fence: Fence)
    | Round(fence: Fence)
    | Delivering(fence: Fence, cancel: bool, todo: seq<Operation>)
    | Polling(fence: Fence, cancel: bool, retry: bool)
    | Recovering(fence: Fence)
    | Stopping(fence: Fence, outcome: TurnStatus, code: Option<string>)

  datatype BatchStatus = StillRunning | WaitingForInput | Finished | WasCancelled | HasFailed(error: Option<string>) | Missing
  datatype Control = Taken | Declined | Unanswered | Broke
  datatype StopAnswer = Stopped | Unconfirmed(late: bool)
  datatype CheckpointAnswer = Recovered(checkpoint: Checkpoint) | Rejected(code: string) | Unavailable(late: bool)

  /** What ends one of the tick's waits: the alarm, the clock and the runtime's answers. */
  datatype Wait =
    | Alarm(driver: bool, revision: bool, expired: bool)
    | Launched(rejected: Option<string>, lost: bool)
    | Look(expired: bool)
    | Controlled(control: Control)
    | Answered(entries: seq<J.Stamped>, status: BatchStatus, code: string, again: bool)
    | PollFailed(rejected: Option<string>)
    | CheckpointAnswered(answer: CheckpointAnswer, code: string)
    | StopAnswered(stop: StopAnswer)

  /** The session and the tick under way. */
  datatype World = World(db: Db, stage: Stage)

  function Fail(fence: Fence, code: string): Stage { Stopping(fence, Failed, Some(code)) }

  /** What the commands page holds, as read at the top of a round; a cancellation comes first. */
  function PendingCommands(db: Db, turn: Id): seq<Operation> {
    if turn in db.cancellations then [db.cancellations[turn]]
    else Leading(db.commands, COMMANDS_PAGE)
  }

  function Leading(commands: Table<Id, Operation>, most: nat): seq<Operation>
    decreases most
  {
    if commands == [] || most == 0 then [] else [commands[0].value] + Leading(commands[1..], most - 1)
  }

  /** The transaction a wait leads to, if any. */
  function Writes(w: World, wait: Wait): Option<Step> {
    match (w.stage, wait)
    case (Asleep, Alarm(driver, _, _)) =>
      if FenceOf(w.db).Some? && !driver then Some(Seal(FenceOf(w.db).value, Failed, Some("executor_unavailable"))) else None
    case (Launching(fence), Launched(None, false)) => Some(Step.Start(fence))
    case (Delivering(fence, cancel, todo), Controlled(control)) =>
      if todo == [] || cancel || Fenced(w.db, fence).Err? then None
      else if todo[0].turn != fence.turn || control.Taken? then Some(Deliver(fence, todo[0]))
      else if control.Declined? then Some(Refuse(fence, todo[0]))
      else None
    case (Polling(fence, cancel, _), Answered(entries, status, _, _)) => Some(Poll(fence, entries, status.Finished?, cancel))
    case (Recovering(fence), CheckpointAnswered(Recovered(checkpoint), _)) => Some(Commit(fence, checkpoint))
    case (Stopping(fence, outcome, code), StopAnswered(answer)) =>
      if answer == Unconfirmed(false) then None
      else if outcome == Cancelled then Some(Seal(fence, Cancelled, None))
      else Some(Seal(fence, Failed, if answer.Stopped? then code else Some("outcome_unknown")))
    case _ => None
  }

  /** Where the tick goes next, given how its transaction ended. */
  function Next(w: World, wait: Wait, result: Result<Db>): Stage {
    if result == Err(Superseded) then Asleep
    else
      match (w.stage, wait)
      case (Asleep, Alarm(driver, revision, expired)) =>
        (match FenceOf(w.db)
         case None => Asleep
         case Some(fence) =>
           var phase := w.db.record.value.phase;
           if !driver then Asleep
           else if !revision then Fail(fence, "executor_version_incompatible")
           else if phase == Checkpointing then Recovering(fence)
           else if expired then Fail(fence, "request_timeout")
           else if phase == Phase.Starting then Launching(fence)
           else Round(fence))
      case (Launching(fence), Launched(rejected, lost)) =>
        if rejected.Some? then Fail(fence, rejected.value) else if lost || result.Err? then Asleep else Round(fence)
      case (Round(fence), Look(expired)) =>
        if Fenced(w.db, fence).Err? then Asleep
        else if expired then Fail(fence, "request_timeout")
        else Delivering(fence, fence.turn in w.db.cancellations, PendingCommands(w.db, fence.turn))
      case (Delivering(fence, cancel, todo), Controlled(control)) =>
        if todo == [] then Polling(fence, cancel, false)
        else if Fenced(w.db, fence).Err? then Asleep
        else if todo[0].turn != fence.turn then Delivering(fence, cancel, todo[1..])
        else if control.Broke? then Asleep
        else if control.Unanswered? && !cancel then Polling(fence, cancel, true)
        else Delivering(fence, cancel, todo[1..])
      case (Polling(fence, cancel, retry), Answered(entries, status, code, again)) =>
        if result.Err? then Fail(fence, code)
        else
          var waiting := !cancel && result.value.commands != [];
          if !waiting && result.value.record.Some? && result.value.record.value.phase == Checkpointing then Recovering(fence)
          else if status.Missing? then Fail(fence, "outcome_unknown")
          else if status.HasFailed? then Fail(fence, if status.error.Some? then status.error.value else "executor_failed")
          else if status.WasCancelled? then Stopping(fence, Cancelled, None)
          else if (waiting && !retry) || (again && status.StillRunning?) then Round(fence)
          else Asleep
      case (Polling(fence, _, _), PollFailed(rejected)) => if rejected.Some? then Fail(fence, rejected.value) else Asleep
      case (Recovering(fence), CheckpointAnswered(answer, code)) =>
        (match answer
         case Recovered(_) => if result.Err? then Fail(fence, code) else Asleep
         case Rejected(why) => Fail(fence, why)
         case Unavailable(late) => if late then Fail(fence, "checkpoint_unavailable") else Asleep)
      case (Stopping(_, _, _), StopAnswered(_)) => Asleep
      case _ => w.stage
  }

  /** One wait ends: at most one transaction, and the next stage. */
  function Advance(s: Setup, w: World, wait: Wait): World {
    match Writes(w, wait)
    case None => World(w.db, Next(w, wait, Ok(w.db)))
    case Some(step) => World(After(s, w.db, step), Next(w, wait, Transact(s, w.db, step)))
  }

  /** Clients and the environment act between waits; a crash forgets the tick. */
  datatype Move = Client(step: Step) | Tick(wait: Wait) | Crash

  predicate FromOutside(step: Step) { step.Submit? || step.Report? || step.Delete? || step.Drop? }

  function MoveOn(s: Setup, w: World, move: Move): World {
    match move
    case Client(step) => if FromOutside(step) then w.(db := After(s, w.db, step)) else w
    case Tick(wait) => Advance(s, w, wait)
    case Crash => w.(stage := Asleep)
  }

  /** The transactions of a run, in order. */
  function StepsOf(s: Setup, w: World, moves: seq<Move>): seq<Step>
    decreases |moves|
  {
    if moves == [] then []
    else
      (match moves[0]
       case Client(step) => if FromOutside(step) then [step] else []
       case Tick(wait) => if Writes(w, wait).Some? then [Writes(w, wait).value] else []
       case Crash => [])
      + StepsOf(s, MoveOn(s, w, moves[0]), moves[1..])
  }

  function Moved(s: Setup, w: World, moves: seq<Move>): World
    decreases |moves|
  {
    if moves == [] then w else Moved(s, MoveOn(s, w, moves[0]), moves[1..])
  }

  // --- What a stage has read is still so -------------------------------------------------------------------

  ghost predicate Unlike(todo: seq<Operation>) {
    todo == [] || ((forall o | o in todo[1..] :: o.id != todo[0].id) && Unlike(todo[1..]))
  }

  ghost predicate AllQueued(db: Db, todo: seq<Operation>) {
    Unlike(todo) && forall o | o in todo :: Row(o.id, o) in db.commands
  }

  /** Unless its execution was superseded, what the tick read still holds. */
  ghost predicate Current(w: World) {
    match w.stage
    case Launching(fence) => Fenced(w.db, fence).Ok? ==> w.db.record.value.phase == Phase.Starting
    case Round(fence) => Fenced(w.db, fence).Ok? ==> !Completing(w.db)
    case Delivering(fence, cancel, todo) =>
      Fenced(w.db, fence).Ok? ==>
        !Completing(w.db) && if cancel then fence.turn in w.db.cancellations else AllQueued(w.db, todo)
    case Polling(fence, cancel, _) =>
      Fenced(w.db, fence).Ok? ==> !Completing(w.db) && (cancel ==> fence.turn in w.db.cancellations)
    case Recovering(fence) => Fenced(w.db, fence).Ok? ==> w.db.record.value.phase == Checkpointing
    case Stopping(_, outcome, _) => outcome == Failed || outcome == Cancelled
    case _ => true
  }

  lemma {:induction false} LeadingAreRows(commands: Table<Id, Operation>, most: nat)
    requires Distinct(commands) && forall r | r in commands :: r.value.id == r.key
    ensures Unlike(Leading(commands, most)) && forall o | o in Leading(commands, most) :: Row(o.id, o) in commands
    decreases most
  {
    if commands != [] && most > 0 {
      FirstIsRow(commands);
      forall r | r in commands[1..] ensures r.value.id == r.key { assert r in commands; }
      LeadingAreRows(commands[1..], most - 1);
      var rest := Leading(commands[1..], most - 1);
      forall o | o in rest ensures Row(o.id, o) in commands && o.id != commands[0].key {
        assert Row(o.id, o) in commands[1..];
      }
      assert Leading(commands, most)[1..] == rest;
    }
  }

  /** Everything a tick writes is what the session's guarantees ask of it. */
  lemma WritesAreDriven(w: World, wait: Wait)
    requires Current(w) && Writes(w, wait).Some?
    requires Fenced(w.db, Writes(w, wait).value.fence).Ok?
    ensures Driven(w.db, Writes(w, wait).value)
  {
    var step := Writes(w, wait).value;
    match (w.stage, wait)
    case (Delivering(fence, cancel, todo), Controlled(control)) => assert todo[0] in todo;
    case _ =>
  }

  // --- Clients do not unsettle a tick -------------------------------------------------------------------------

  lemma {:induction false} InputsKeepCancellations(d: Draft, driver: Driver, events: seq<InputEvent>)
    requires AcceptAll(d, driver, events).Ok?
    ensures var next := AcceptAll(d, driver, events).value;
            && (forall id | id in d.db.cancellations :: id in next.db.cancellations)
            && (d.record.execution.Some? ==> next.record.phase == d.record.phase && next.record.execution == d.record.execution)
    decreases |events|
  {
    if events != [] {
      InputKeepsCancellations(d, driver, events[0]);
      InputsKeepCancellations(AcceptEvent(d, driver, events[0]).value, driver, events[1..]);
    }
  }

  lemma InputKeepsCancellations(d: Draft, driver: Driver, event: InputEvent)
    requires AcceptEvent(d, driver, event).Ok?
    ensures var next := AcceptEvent(d, driver, event).value;
            && (forall id | id in d.db.cancellations :: id in next.db.cancellations)
            && (d.record.execution.Some? ==> next.record.phase == d.record.phase && next.record.execution == d.record.execution)
  {
  }

  /** A client's step under a running execution only adds commands and cancellations. */
  lemma ClientsOnlyAdd(s: Setup, db: Db, step: Step, fence: Fence)
    requires WellShaped(db) && Mail(db) && FromOutside(step)
    requires Fenced(After(s, db, step), fence).Ok? && Fenced(db, fence).Ok?
    ensures var next := After(s, db, step);
            && db.commands <= next.commands
            && (forall id | id in db.cancellations :: id in next.cancellations)
            && next.record.value.phase == db.record.value.phase
  {
    if Transact(s, db, step).Ok? {
      match step
      case Submit(driver, events, key) =>
        SubmissionKeepsMail(s, db, driver, events, key);
        if key !in db.accepted { InputsKeepCancellations(Draft(db, db.record.value), driver, events); }
      case _ =>
    }
  }

  lemma ClientsKeepCurrent(s: Setup, w: World, step: Step)
    requires WellShaped(w.db) && Mail(w.db) && FromOutside(step) && Current(w) && Reached(w)
    ensures Current(MoveOn(s, w, Client(step)))
  {
    var next := After(s, w.db, step);
    if !w.stage.Asleep? && !w.stage.Stopping? {
      var fence := w.stage.fence;
      if Fenced(w.db, fence).Err? { SupersededStays(s, w, step); }
      else if Fenced(next, fence).Ok? { ClientsOnlyAdd(s, w.db, step, fence); }
    }
  }

  /** The fence a tick holds was once the session's, so its generation has been reached. */
  ghost predicate Reached(w: World) {
    !w.stage.Asleep? && w.db.record.Some? ==>
      w.db.record.value.generation >= w.stage.fence.generation
  }

  lemma SupersededStays(s: Setup, w: World, step: Step)
    requires WellShaped(w.db) && !w.stage.Asleep? && Reached(w) && Fenced(w.db, w.stage.fence).Err?
    ensures Fenced(After(s, w.db, step), w.stage.fence).Err?
  {
    StepKeepsShape(s, w.db, step);
    assert Spent(w.db, w.stage.fence);
    SpentStaysSpent(s, w.db, w.stage.fence, step);
  }

  // --- Nor does the tick itself ------------------------------------------------------------------------------

  lemma AnsweringLeavesTheRest(s: Setup, db: Db, fence: Fence, todo: seq<Operation>, step: Step)
    requires Mail(db) && todo != [] && AllQueued(db, todo) && Fenced(db, fence).Ok?
    requires step == Deliver(fence, todo[0]) || step == Refuse(fence, todo[0])
    ensures Transact(s, db, step).Ok? && After(s, db, step).record == db.record
    ensures AllQueued(After(s, db, step), todo[1..])
  {
    var next := After(s, db, step);
    assert todo[0] in todo;
    if step.Deliver? { DiscardKeepsQueues(db, todo[0], ActiveOf(db.record.value)); }
    else { RefusedLast(db, todo[0], ActiveOf(db.record.value)); }
    forall o | o in todo[1..] ensures Row(o.id, o) in next.commands { assert o in todo; }
  }

  lemma SkippingLeavesTheRest(db: Db, todo: seq<Operation>)
    requires todo != [] && AllQueued(db, todo)
    ensures AllQueued(db, todo[1..])
  {
    forall o | o in todo[1..] ensures Row(o.id, o) in db.commands { assert o in todo; }
  }

  lemma PendingIsQueued(db: Db, turn: Id)
    requires Queues(db, Some(turn)) && turn !in db.cancellations
    ensures AllQueued(db, PendingCommands(db, turn))
  {
    LeadingAreRows(db.commands, COMMANDS_PAGE);
  }

  lemma LookIsCurrent(w: World, expired: bool)
    requires w.stage.Round? && Mail(w.db) && Current(w)
    ensures Current(World(w.db, Next(w, Look(expired), Ok(w.db))))
  {
    var fence := w.stage.fence;
    if Fenced(w.db, fence).Ok? && fence.turn !in w.db.cancellations { PendingIsQueued(w.db, fence.turn); }
  }

  lemma DeliveryKeepsCurrent(s: Setup, w: World, control: Control)
    requires w.stage.Delivering? && WellShaped(w.db) && Mail(w.db) && Current(w)
    ensures Current(Advance(s, w, Controlled(control)))
  {
    var fence, cancel, todo := w.stage.fence, w.stage.cancel, w.stage.todo;
    if Fenced(w.db, fence).Ok? && todo != [] && !cancel {
      match Writes(w, Controlled(control))
      case None => SkippingLeavesTheRest(w.db, todo);
      case Some(step) => AnsweringLeavesTheRest(s, w.db, fence, todo, step);
    }
  }

  lemma PollKeepsCurrent(s: Setup, w: World, wait: Wait)
    requires w.stage.Polling? && wait.Answered? && WellShaped(w.db) && Current(w)
    ensures Current(Advance(s, w, wait))
  {
    var step := Poll(w.stage.fence, wait.entries, wait.status.Finished?, w.stage.cancel);
    assert Writes(w, wait) == Some(step);
    if Transact(s, w.db, step).Ok? {
      EntriesKeepPhase(Draft(w.db, w.db.record.value), w.stage.fence.turn, wait.entries);
    }
  }

  lemma PausesKeepCurrent(s: Setup, w: World, wait: Wait)
    requires Current(w) && !(w.stage.Delivering? && wait.Controlled?) && !(w.stage.Polling? && wait.Answered?)
    requires !(w.stage.Round? && wait.Look?)
    ensures Current(Advance(s, w, wait))
  {
  }

  lemma TickKeepsCurrent(s: Setup, w: World, wait: Wait)
    requires WellShaped(w.db) && Mail(w.db) && Current(w)
    ensures Current(Advance(s, w, wait))
  {
    match (w.stage, wait)
    case (Round(_), Look(expired)) => LookIsCurrent(w, expired);
    case (Delivering(_, _, _), Controlled(control)) => DeliveryKeepsCurrent(s, w, control);
    case (Polling(_, _, _), Answered(entries, status, code, again)) => PollKeepsCurrent(s, w, wait);
    case _ => PausesKeepCurrent(s, w, wait);
  }

  ghost predicate Steady(w: World) {
    WellShaped(w.db) && Mail(w.db) && Current(w) && Reached(w)
  }

  lemma TickKeepsReached(s: Setup, w: World, wait: Wait)
    requires WellShaped(w.db) && Reached(w)
    ensures Reached(Advance(s, w, wait)) && WellShaped(Advance(s, w, wait).db)
  {
    if Writes(w, wait).Some? { StepKeepsShape(s, w.db, Writes(w, wait).value); }
  }

  lemma WritesKeepMail(s: Setup, w: World, wait: Wait)
    requires WellShaped(w.db) && Mail(w.db) && Current(w) && Writes(w, wait).Some?
    ensures var step := Writes(w, wait).value;
            Mail(After(s, w.db, step)) && (Driven(w.db, step) || After(s, w.db, step) == w.db)
  {
    var step := Writes(w, wait).value;
    if Fenced(w.db, step.fence).Ok? {
      WritesAreDriven(w, wait);
      StepKeepsMail(s, w.db, step);
    }
  }

  lemma TickKeepsSteady(s: Setup, w: World, wait: Wait)
    requires Steady(w)
    ensures Steady(Advance(s, w, wait))
    ensures Writes(w, wait).Some? ==> Driven(w.db, Writes(w, wait).value) || After(s, w.db, Writes(w, wait).value) == w.db
  {
    TickKeepsCurrent(s, w, wait);
    TickKeepsReached(s, w, wait);
    if Writes(w, wait).Some? { WritesKeepMail(s, w, wait); }
  }

  lemma ClientKeepsSteady(s: Setup, w: World, step: Step)
    requires Steady(w) && FromOutside(step)
    ensures Steady(MoveOn(s, w, Client(step))) && Driven(w.db, step)
  {
    StepKeepsShape(s, w.db, step);
    StepKeepsMail(s, w.db, step);
    ClientsKeepCurrent(s, w, step);
  }

  // --- Every run ----------------------------------------------------------------------------------------------

  /** The steps that still meet a live fence are the driven ones; the others do nothing. */
  ghost predicate AllDrivenOrInert(s: Setup, db: Db, steps: seq<Step>)
    decreases |steps|
  {
    steps == [] ||
    ((Driven(db, steps[0]) || After(s, db, steps[0]) == db) && AllDrivenOrInert(s, After(s, db, steps[0]), steps[1..]))
  }

  lemma {:induction false} RunsAreDriven(s: Setup, w: World, moves: seq<Move>)
    requires Steady(w)
    ensures Steady(Moved(s, w, moves))
    ensures Run(s, w.db, StepsOf(s, w, moves)) == Moved(s, w, moves).db
    ensures AllDrivenOrInert(s, w.db, StepsOf(s, w, moves))
    decreases |moves|
  {
    if moves != [] {
      var next := MoveOn(s, w, moves[0]);
      var rest := StepsOf(s, next, moves[1..]);
      match moves[0] {
        case Client(step) =>
          if FromOutside(step) {
            ClientKeepsSteady(s, w, step);
            assert StepsOf(s, w, moves) == [step] + rest && ([step] + rest)[1..] == rest;
          } else {
            assert StepsOf(s, w, moves) == [] + rest == rest;
          }
        case Tick(wait) =>
          TickKeepsSteady(s, w, wait);
          if Writes(w, wait).Some? {
            var step := Writes(w, wait).value;
            assert StepsOf(s, w, moves) == [step] + rest && ([step] + rest)[1..] == rest;
          } else {
            assert StepsOf(s, w, moves) == [] + rest == rest;
          }
        case Crash =>
          assert StepsOf(s, w, moves) == [] + rest == rest;
      }
      RunsAreDriven(s, next, moves[1..]);
    }
  }

  /** The steps that changed something. */
  ghost function Effective(s: Setup, db: Db, steps: seq<Step>): seq<Step>
    decreases |steps|
  {
    if steps == [] then []
    else (if After(s, db, steps[0]) == db then [] else [steps[0]]) + Effective(s, After(s, db, steps[0]), steps[1..])
  }

  lemma {:induction false} EffectiveStepsAreDriven(s: Setup, db: Db, steps: seq<Step>)
    requires AllDrivenOrInert(s, db, steps)
    ensures AllDriven(s, db, Effective(s, db, steps))
    ensures Run(s, db, Effective(s, db, steps)) == Run(s, db, steps)
    decreases |steps|
  {
    if steps != [] {
      var next := After(s, db, steps[0]);
      var rest := Effective(s, next, steps[1..]);
      EffectiveStepsAreDriven(s, next, steps[1..]);
      if next == db {
        assert Effective(s, db, steps) == [] + rest == rest;
      } else {
        assert Effective(s, db, steps) == [steps[0]] + rest && ([steps[0]] + rest)[1..] == rest;
      }
    }
  }

  /**
   Whatever clients submit, however the runtime answers and wherever the process crashes: what the
   ticks and clients did to the session is a run of driven transactions, the runs its guarantees
   are about, and its queues are as those guarantees promise.
   */
  lemma TicksDriveTheSession(s: Setup, driver: string, revision: string, sandboxed: bool, transcript: Option<string>,
                             checkpoint: Option<Checkpoint>, moves: seq<Move>)
    ensures var w := World(Created(driver, revision, sandboxed, transcript, checkpoint), Asleep);
            var steps := Effective(s, w.db, StepsOf(s, w, moves));
            && AllDriven(s, w.db, steps) && Run(s, w.db, steps) == Moved(s, w, moves).db
            && WellShaped(Moved(s, w, moves).db) && Mail(Moved(s, w, moves).db)
  {
    var w := World(Created(driver, revision, sandboxed, transcript, checkpoint), Asleep);
    RunsAreDriven(s, w, moves);
    EffectiveStepsAreDriven(s, w.db, StepsOf(s, w, moves));
  }

  // --- What a tick decides --------------------------------------------------------------------------------------

  lemma {:induction false} MovedSplits(s: Setup, w: World, first: seq<Move>, second: seq<Move>)
    ensures Moved(s, w, first + second) == Moved(s, Moved(s, w, first), second)
    decreases |first|
  {
    if first == [] {
      assert first + second == second;
    } else {
      assert (first + second)[1..] == first[1..] + second;
      MovedSplits(s, MoveOn(s, w, first[0]), first[1..], second);
    }
  }

  /** The world before move `k` of a run. */
  function At(s: Setup, w: World, moves: seq<Move>, k: nat): World
    requires k <= |moves|
  {
    Moved(s, w, moves[..k])
  }

  lemma NextMove(s: Setup, w: World, moves: seq<Move>, k: nat)
    requires k < |moves|
    ensures At(s, w, moves, k + 1) == MoveOn(s, At(s, w, moves, k), moves[k])
  {
    assert moves[..k + 1] == moves[..k] + [moves[k]];
    MovedSplits(s, w, moves[..k], [moves[k]]);
  }

  /** The transaction of this wait was refused, under a fence that still held. */
  predicate Refuses(s: Setup, w: World, wait: Wait) {
    Writes(w, wait).Some? && Transact(s, w.db, Writes(w, wait).value).Err?
    && Transact(s, w.db, Writes(w, wait).value).error != Superseded
  }

  /** Why a turn has to fail after what this wait saw: the deadline, the revision, or what the runtime said. */
  function Because(wait: Wait, refused: bool): Option<string> {
    match wait
    case Alarm(_, revision, expired) =>
      if !revision then Some("executor_version_incompatible") else if expired then Some("request_timeout") else None
    case Launched(rejected, _) => rejected
    case Look(expired) => if expired then Some("request_timeout") else None
    case Answered(_, status, code, _) =>
      if refused then Some(code)
      else if status.Missing? then Some("outcome_unknown")
      else if status.HasFailed? then Some(if status.error.Some? then status.error.value else "executor_failed")
      else None
    case PollFailed(rejected) => rejected
    case CheckpointAnswered(answer, code) =>
      if refused then Some(code)
      else if answer.Rejected? then Some(answer.code)
      else if answer.Unavailable? && answer.late then Some("checkpoint_unavailable")
      else None
    case _ => None
  }

  /** With this move a tick decides to stop its turn: as cancelled when the runtime says it is, or as failed, and why. */
  predicate Decides(s: Setup, w: World, move: Move, fence: Fence, outcome: TurnStatus, code: Option<string>) {
    && move.Tick? && !w.stage.Stopping? && Advance(s, w, move.wait).stage == Stopping(fence, outcome, code)
    && (|| (outcome == Failed && code.Some? && code == Because(move.wait, Refuses(s, w, move.wait)))
        || (outcome == Cancelled && code.None? && move.wait.Answered? && move.wait.status.WasCancelled?))
  }

  lemma StoppingIsDecided(s: Setup, w: World, wait: Wait)
    requires !w.stage.Stopping? && Advance(s, w, wait).stage.Stopping?
    ensures var next := Advance(s, w, wait).stage; Decides(s, w, Tick(wait), next.fence, next.outcome, next.code)
  {
  }

  /** The tick waits for just this, and still holds its fence or takes the one there is. */
  predicate Expects(w: World, wait: Wait) {
    match wait
    case Alarm(driver, _, _) => w.stage.Asleep? && FenceOf(w.db).Some? && driver
    case Launched(_, _) => w.stage.Launching?
    case Look(_) => w.stage.Round? && Fenced(w.db, w.stage.fence).Ok?
    case Answered(_, _, _, _) => w.stage.Polling? && Fenced(w.db, w.stage.fence).Ok?
    case PollFailed(_) => w.stage.Polling?
    case CheckpointAnswered(answer, _) => w.stage.Recovering? && (answer.Recovered? ==> Fenced(w.db, w.stage.fence).Ok?)
    case _ => false
  }

  /** The passed deadline does not count for a turn about to complete. */
  predicate Counts(w: World, wait: Wait) {
    wait.Alarm? && wait.revision && w.db.record.Some? ==> w.db.record.value.phase != Checkpointing
  }

  /** What completes with this answer is recovered, whatever else it says. */
  predicate Completes(s: Setup, w: World, wait: Wait) {
    wait.Answered? && Completing(Advance(s, w, wait).db)
  }

  /** A tick decides that its turn has failed if and only if a wait it expected shows why. */
  lemma TicksFailTurnsIff(s: Setup, w: World, wait: Wait)
    requires Current(w) && !w.stage.Stopping? && wait != StopAnswered(Stopped)
    ensures (Advance(s, w, wait).stage.Stopping? && Advance(s, w, wait).stage.outcome == Failed)
            <==> Expects(w, wait) && Counts(w, wait) && !Completes(s, w, wait) && Because(wait, Refuses(s, w, wait)).Some?
  {
    match wait
    case Answered(entries, status, code, again) => if w.stage.Polling? { AnswersFailTurnsIff(s, w, wait); }
    case CheckpointAnswered(_, _) => if w.stage.Recovering? { RecoveriesFailTurnsIff(s, w, wait); }
    case Launched(_, _) =>
    case _ =>
  }

  lemma AnswersFailTurnsIff(s: Setup, w: World, wait: Wait)
    requires Current(w) && w.stage.Polling? && wait.Answered?
    ensures (Advance(s, w, wait).stage.Stopping? && Advance(s, w, wait).stage.outcome == Failed)
            <==> Fenced(w.db, w.stage.fence).Ok? && !Completes(s, w, wait) && Because(wait, Refuses(s, w, wait)).Some?
  {
    if Fenced(w.db, w.stage.fence).Ok? {
      var d, root := Draft(w.db, w.db.record.value), w.stage.fence.turn;
      if AcceptEntries(d, root, wait.entries).Ok? { EntriesKeepPhase(d, root, wait.entries); }
      else { RuntimesDoNotSupersede(d, root, wait.entries); }
    }
  }

  lemma {:induction false} RuntimesDoNotSupersede(d: Draft, root: Id, entries: seq<J.Stamped>)
    requires AcceptEntries(d, root, entries).Err?
    ensures AcceptEntries(d, root, entries).error != Superseded
    decreases |entries|
  {
    if entries[0].at <= d.record.cursor {
      RuntimesDoNotSupersede(d, root, entries[1..]);
    } else if entries[0].at == d.record.cursor + 1 && Accept(d, root, entries[0].event).Ok? {
      var next := Accept(d, root, entries[0].event).value;
      RuntimesDoNotSupersede(next.(record := next.record.(cursor := entries[0].at)), root, entries[1..]);
    }
  }

  lemma RecoveriesFailTurnsIff(s: Setup, w: World, wait: Wait)
    requires w.stage.Recovering? && wait.CheckpointAnswered?
    ensures (Advance(s, w, wait).stage.Stopping? && Advance(s, w, wait).stage.outcome == Failed)
            <==> Expects(w, wait) && Because(wait, Refuses(s, w, wait)).Some?
  {
  }

  lemma {:induction false} StoppingWasDecided(s: Setup, w: World, moves: seq<Move>, k: nat) returns (j: nat)
    requires k <= |moves| && w.stage.Asleep? && At(s, w, moves, k).stage.Stopping?
    ensures var stage := At(s, w, moves, k).stage;
            j < k && Decides(s, At(s, w, moves, j), moves[j], stage.fence, stage.outcome, stage.code)
  {
    assert k > 0;
    NextMove(s, w, moves, k - 1);
    var before := At(s, w, moves, k - 1);
    if before.stage.Stopping? {
      StoppingGoesOn(s, before, moves[k - 1]);
      j := StoppingWasDecided(s, w, moves, k - 1);
    } else {
      j := k - 1;
      StoppingIsDecided(s, before, moves[j].wait);
    }
  }

  lemma StoppingGoesOn(s: Setup, w: World, move: Move)
    requires w.stage.Stopping? && MoveOn(s, w, move).stage.Stopping?
    ensures MoveOn(s, w, move).stage == w.stage
  {
  }

  /** The error a stop's answer seals a turn with: why it was decided if the stop is confirmed, else that nobody knows. */
  predicate SealsWith(error: Option<string>, outcome: TurnStatus, code: Option<string>, stop: StopAnswer) {
    error == if outcome == Cancelled then None else if stop.Stopped? then code else Some("outcome_unknown")
  }

  /**
   Whatever happens between the waits: a tick seals a turn as failed or cancelled only on the answer of a stop that
   an earlier wait of its decided: as cancelled, without an error, only after the runtime reported that the turn
   was cancelled; as failed, with what that wait saw if the stop was confirmed, and else as of unknown outcome. Or it
   seals it as failed on an alarm that finds no executor.
   */
  lemma SealsFollowAStop(s: Setup, w: World, moves: seq<Move>, k: nat)
    requires w.stage.Asleep? && k < |moves| && moves[k].Tick?
    requires Writes(At(s, w, moves, k), moves[k].wait).Some? && Writes(At(s, w, moves, k), moves[k].wait).value.Seal?
    ensures var seal, wait := Writes(At(s, w, moves, k), moves[k].wait).value, moves[k].wait;
            if wait.StopAnswered? then
              && wait.stop != Unconfirmed(false)
              && exists j, code :: 0 <= j < k && Decides(s, At(s, w, moves, j), moves[j], seal.fence, seal.outcome, code)
                                   && SealsWith(seal.error, seal.outcome, code, wait.stop)
            else wait.Alarm? && !wait.driver && seal.outcome == Failed && seal.error == Some("executor_unavailable")
  {
    var now, wait := At(s, w, moves, k), moves[k].wait;
    if wait.StopAnswered? {
      var j := StoppingWasDecided(s, w, moves, k);
      var code, seal := now.stage.code, Writes(now, wait).value;
      assert Decides(s, At(s, w, moves, j), moves[j], now.stage.fence, now.stage.outcome, code);
      assert SealsWith(seal.error, seal.outcome, code, wait.stop);
    }
  }

  /** A failure whose stop nobody confirmed leaves the session failed, and starts no other turn. */
  lemma UnconfirmedStopsFailTheSession(s: Setup, w: World)
    requires Steady(w) && w.stage.Stopping? && w.stage.outcome == Failed && Fenced(w.db, w.stage.fence).Ok?
    requires Transact(s, w.db, Seal(w.stage.fence, Failed, Some("outcome_unknown"))).Ok?
    ensures var next := Advance(s, w, StopAnswered(Unconfirmed(true))).db;
            && next.record.Some? && next.record.value.phase == Broken && next.record.value.execution.None?
            && next.record.value.error == Some("outcome_unknown")
  {
    StopsSealWith(s, w, Unconfirmed(true), "outcome_unknown");
  }

  /** What a seal that failed with this error leaves: broken if nobody can confirm it, and else its refused input runs. */
  ghost predicate FailedWith(db: Db, next: Db, error: string) {
    && next.record.Some? && next.record.value.error == Some(error)
    && if error == "outcome_unknown" || EndsWith(error, "_uncertain") then
         next.record.value.phase == Broken && next.record.value.status == Faulted && next.record.value.execution.None?
       else
         && next.record.value.phase != Broken && next.record.value.status != Faulted
         && (next.record.value.execution.Some? <==> db.refused != [])
         && (next.record.value.execution.None? ==> next.record.value.phase == Idle && next.record.value.status == Resting)
  }

  lemma SealsFailWith(s: Setup, db: Db, fence: Fence, error: string)
    requires WellShaped(db) && Mail(db) && Transact(s, db, Seal(fence, Failed, Some(error))).Ok?
    ensures FailedWith(db, After(s, db, Seal(fence, Failed, Some(error))), error)
  {
    var step := Seal(fence, Failed, Some(error));
    H.FencesHold(s, db, step);
    H.SealsLeaveTheRecord(s, db, step);
    RefusedInputRunsNext(s, db, db.record.value, Failed, Some(error));
  }

  /** A wait that leads to a transaction, with the transaction left to itself. */
  lemma WritingAdvances(s: Setup, w: World, wait: Wait, step: Step)
    requires Writes(w, wait) == Some(step)
    ensures Advance(s, w, wait) == World(After(s, w.db, step), Next(w, wait, Transact(s, w.db, step)))
  {
  }

  lemma StopsSealWith(s: Setup, w: World, stop: StopAnswer, error: string)
    requires Steady(w) && w.stage.Stopping? && w.stage.outcome == Failed && stop != Unconfirmed(false)
    requires Some(error) == if stop.Stopped? then w.stage.code else Some("outcome_unknown")
    requires Transact(s, w.db, Seal(w.stage.fence, Failed, Some(error))).Ok?
    ensures FailedWith(w.db, Advance(s, w, StopAnswered(stop)).db, error)
  {
    SealsFailWith(s, w.db, w.stage.fence, error);
    WritingAdvances(s, w, StopAnswered(stop), Seal(w.stage.fence, Failed, Some(error)));
  }

  /**
   A failure whose stop was confirmed is recorded with the error that decided it. Unless that is one nobody can
   confirm, the session is not failed: it runs its refused input next, or rests if there is none.
   */
  lemma ConfirmedStopsKeepTheSession(s: Setup, w: World, error: string)
    requires Steady(w) && w.stage.Stopping? && w.stage.outcome == Failed && w.stage.code == Some(error)
    requires Transact(s, w.db, Seal(w.stage.fence, Failed, Some(error))).Ok?
    ensures FailedWith(w.db, Advance(s, w, StopAnswered(Stopped)).db, error)
  {
    StopsSealWith(s, w, Stopped, error);
  }

  // --- What a tick does for what it is told --------------------------------------------------------------------

  /**
   A wait's answer calls for this transaction: a start that was acknowledged, what a poll answered, the checkpoint
   that was recovered, the command at hand if the executor took it or it outlived its turn, its refusal if the
   executor refused it, or the seal a stop was for.
   */
  predicate Calls(w: World, wait: Wait, step: Step) {
    match step
    case Start(fence) => w.stage == Launching(fence) && wait == Launched(None, false)
    case Poll(fence, entries, completed, cancel) =>
      && w.stage.Polling? && w.stage.fence == fence && w.stage.cancel == cancel
      && wait.Answered? && wait.entries == entries && (completed <==> wait.status.Finished?)
    case Commit(fence, checkpoint) =>
      w.stage == Recovering(fence) && wait.CheckpointAnswered? && wait.answer == Recovered(checkpoint)
    case Deliver(fence, operation) => AtHand(w, wait, fence, operation) && (operation.turn != fence.turn || wait.control.Taken?)
    case Refuse(fence, operation) => AtHand(w, wait, fence, operation) && operation.turn == fence.turn && wait.control.Declined?
    case Seal(fence, outcome, error) =>
      || (&& w.stage.Stopping? && w.stage.fence == fence && w.stage.outcome == outcome
          && wait.StopAnswered? && wait.stop != Unconfirmed(false) && SealsWith(error, outcome, w.stage.code, wait.stop))
      || (&& w.stage.Asleep? && FenceOf(w.db) == Some(fence) && wait.Alarm? && !wait.driver
          && outcome == Failed && error == Some("executor_unavailable"))
    case _ => false
  }

  /** The first command still to deliver in a round that knows of no cancellation. */
  predicate AtHand(w: World, wait: Wait, fence: Fence, operation: Operation) {
    && w.stage.Delivering? && w.stage.fence == fence && !w.stage.cancel && w.stage.todo != [] && w.stage.todo[0] == operation
    && Fenced(w.db, fence).Ok? && wait.Controlled?
  }

  /** A tick makes exactly the transaction its wait's answer calls for. */
  lemma WritesAreCalledFor(w: World, wait: Wait)
    requires Current(w)
    ensures forall step :: Writes(w, wait) == Some(step) <==> Calls(w, wait, step)
  {
    forall step ensures Writes(w, wait) == Some(step) <==> Calls(w, wait, step) { WriteIsCalledFor(w, wait, step); }
  }

  lemma WriteIsCalledFor(w: World, wait: Wait, step: Step)
    requires Current(w)
    ensures Writes(w, wait) == Some(step) <==> Calls(w, wait, step)
  {
  }

  lemma DeadlineSparesCompletion(w: World)
    requires Current(w) && Completing(w.db)
    ensures Next(w, Look(true), Ok(w.db)) == Next(w, Look(false), Ok(w.db))
    ensures Next(w, Alarm(true, true, true), Ok(w.db)) == Next(w, Alarm(true, true, false), Ok(w.db))
    ensures w.stage.Asleep? && FenceOf(w.db).Some? ==>
              Next(w, Alarm(true, true, true), Ok(w.db)) == Recovering(FenceOf(w.db).value)
  {
  }

  /**
   In every reachable world the deadline spares a turn that is about to complete: seeing it passed makes
   no difference to what the tick does next, and a tick that wakes up recovers the result.
   */
  lemma CompletionSurvivesTheDeadline(s: Setup, driver: string, revision: string, sandboxed: bool, transcript: Option<string>,
                                      checkpoint: Option<Checkpoint>, moves: seq<Move>)
    requires Completing(Moved(s, World(Created(driver, revision, sandboxed, transcript, checkpoint), Asleep), moves).db)
    ensures var w := Moved(s, World(Created(driver, revision, sandboxed, transcript, checkpoint), Asleep), moves);
            && Next(w, Look(true), Ok(w.db)) == Next(w, Look(false), Ok(w.db))
            && Next(w, Alarm(true, true, true), Ok(w.db)) == Next(w, Alarm(true, true, false), Ok(w.db))
            && (w.stage.Asleep? && FenceOf(w.db).Some? ==>
                  Next(w, Alarm(true, true, true), Ok(w.db)) == Recovering(FenceOf(w.db).value))
  {
    RunsAreDriven(s, World(Created(driver, revision, sandboxed, transcript, checkpoint), Asleep), moves);
    DeadlineSparesCompletion(Moved(s, World(Created(driver, revision, sandboxed, transcript, checkpoint), Asleep), moves));
  }

  // --- The tick in place ------------------------------------------------------------------------------------------

  /** The alarm's handler: between waits it keeps its stage, and works on the session object. */
  class Reconciler {
    const session: SessionObject
    var stage: Stage

    constructor (session: SessionObject)
      ensures this.session == session && stage == Asleep
    {
      this.session := session;
      stage := Asleep;
    }

    function Now(): World reads this, session { World(session.State(), stage) }

    /**
     One wait of the tick: at most one transaction, driven as the session's guarantees ask, and what the
     tick then believes of the session is so.
     */
    method Proceed(wait: Wait)
      requires Steady(Now())
      modifies this, session
      ensures Now() == Advance(session.setup, old(Now()), wait) && Steady(Now())
      ensures forall step :: Calls(old(Now()), wait, step) ==> session.State() == After(session.setup, old(session.State()), step)
      ensures session.State() == old(session.State())
              || exists step :: Calls(old(Now()), wait, step) && Driven(old(session.State()), step)
                                && Transact(session.setup, old(session.State()), step) == Ok(session.State())
    {
      var before := Now();
      TickKeepsSteady(session.setup, before, wait);
      WritesAreCalledFor(before, wait);
      var write := Writes(before, wait);
      if write.None? {
        stage := Next(before, wait, Ok(before.db));
      } else {
        var error := session.Transaction(write.value);
        stage := Next(before, wait, if error.None? then Ok(session.State()) else Err(error.value));
      }
    }
  }
}
