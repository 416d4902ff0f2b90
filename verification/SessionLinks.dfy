/**
 A session and the jobs of its executions, together: the logs grow, the session asks with the cursor
 it has, answers arrive late, repeatedly or never, and clients act in between. What a session takes
 for the log of its execution is the log of that execution's job, and it completes only with the job.
 */
module SessionLinks {
  import opened Options
  import opened Tables
  import opened SessionStore
  import opened SessionEvents
  import opened SessionState
  import opened SessionRuns
  import opened SessionShape
  import opened SessionDelivery
  import opened JobHistories
  import Delivery
  import J = JobStates

  // --- The jobs ------------------------------------------------------------------------------------------

  lemma WorkGrows(j: J.Job, work: Work)
    requires J.Numbered(j)
    ensures J.Numbered(Worked(j, work)) && J.Grows(j, Worked(j, work))
  {
  }

  // --- The session and its jobs -----------------------------------------------------------------------------

  /** A poll under way: the execution it belongs to, and the cursor it asked with. */
  datatype Question = Question(fence: Fence, after: nat)
  datatype Reply = Reply(fence: Fence, after: nat, batch: J.Batch)

  /** Questions and replies stay deliverable for ever. */
  datatype System = System(session: Watched, jobs: Jobs, asked: seq<Question>, replies: seq<Reply>)

  datatype Move =
    | Work(generation: nat, work: Work)
    | Ask(fence: Fence)
    | Answer(question: nat)
    | Deliver(reply: nat, cancel: bool)
    | Act(step: Step)

  type Jobs = map<nat, J.Job>

  function JobOf(jobs: Jobs, generation: nat): J.Job {
    if generation in jobs then jobs[generation] else J.Opened
  }

  /** The transaction of the session a move makes, if any. */
  function StepOf(y: System, move: Move): Option<Step> {
    match move
    case Deliver(reply, cancel) =>
      if reply >= |y.replies| then None
      else
        var r := y.replies[reply];
        Some(Poll(r.fence, r.batch.events, r.batch.status.Completed?, cancel))
    case Act(step) => if step.Poll? then None else Some(step)
    case _ => None
  }

  function Advance(s: Setup, y: System, move: Move): System {
    match move
    case Work(generation, work) => y.(jobs := y.jobs[generation := Worked(JobOf(y.jobs, generation), work)])
    case Ask(fence) =>
      (match Fenced(y.session.db, fence)
       case Err(_) => y
       case Ok(record) => y.(asked := y.asked + [Question(fence, record.cursor)]))
    case Answer(question) =>
      if question >= |y.asked| then y
      else
        var q := y.asked[question];
        var job := JobOf(y.jobs, q.fence.generation);
        if q.after > |job.events| then y
        else y.(replies := y.replies + [Reply(q.fence, q.after, J.Page(job, q.after))])
    case _ => if StepOf(y, move).Some? then y.(session := Watch(s, y.session, StepOf(y, move).value)) else y
  }

  function AdvanceAll(s: Setup, y: System, moves: seq<Move>): System
    decreases |moves|
  {
    if moves == [] then y else AdvanceAll(s, Advance(s, y, moves[0]), moves[1..])
  }

  function StepsOf(s: Setup, y: System, moves: seq<Move>): seq<Step>
    decreases |moves|
  {
    if moves == [] then []
    else (if StepOf(y, moves[0]).Some? then [StepOf(y, moves[0]).value] else []) + StepsOf(s, Advance(s, y, moves[0]), moves[1..])
  }

  // --- What every move keeps ------------------------------------------------------------------------------------

  /** The logs as they are now. */
  function LogsOf(jobs: Jobs): Logs { (generation: nat) => Delivery.Events(JobOf(jobs, generation).events) }

  /** The execution is over, or it has read at least this far. */
  predicate Behind(db: Db, fence: Fence, after: nat) {
    Spent(db, fence)
    || (db.record.Some? && db.record.value.execution.Some? && db.record.value.generation == fence.generation
        && db.record.value.execution.value.turn == fence.turn && after <= db.record.value.cursor)
  }

  /** The reply is a page of its job's log, from where it was asked. */
  ghost predicate Answers(jobs: Jobs, r: Reply) {
    Delivery.PageOf(r.batch, r.after, JobOf(jobs, r.fence.generation), r.after)
  }

  /** A session about to complete has a job that did. */
  predicate Earned(db: Db, jobs: Jobs) {
    db.record.Some? && db.record.value.phase == Checkpointing ==>
      JobOf(jobs, db.record.value.generation).outcome.Completed?
  }

  ghost predicate AllNumbered(jobs: Jobs) { forall g: nat :: J.Numbered(JobOf(jobs, g)) }

  /** What is under way was asked with a cursor the session has reached, and answered from the log. */
  ghost predicate UnderWay(db: Db, jobs: Jobs, asked: seq<Question>, replies: seq<Reply>) {
    && (forall q | q in asked :: Behind(db, q.fence, q.after))
    && (forall r | r in replies :: Behind(db, r.fence, r.after) && Answers(jobs, r))
  }

  ghost predicate Linked(y: System) {
    && WellShaped(y.session.db) && Faithful(y.session, LogsOf(y.jobs)) && Earned(y.session.db, y.jobs)
    && AllNumbered(y.jobs) && UnderWay(y.session.db, y.jobs, y.asked, y.replies)
  }

  lemma EventsGrow(a: seq<J.Stamped>, b: seq<J.Stamped>, n: nat)
    requires a <= b && n <= |a|
    ensures Delivery.Events(b)[..n] == Delivery.Events(a)[..n]
  {
  }

  lemma GrowthKeepsFaith(w: Watched, before: Logs, now: Logs, a: J.Job, b: J.Job)
    requires Faithful(w, before) && J.Grows(a, b)
    requires w.db.record.Some? && w.db.record.value.execution.Some? ==>
               var g := w.db.record.value.generation;
               && before(g) == Delivery.Events(a.events) && now(g) == Delivery.Events(b.events)
               && (w.db.record.value.phase == Checkpointing ==> a.outcome.Completed?)
    ensures Faithful(w, now)
  {
    if w.db.record.Some? && w.db.record.value.execution.Some? {
      EventsGrow(a.events, b.events, w.db.record.value.cursor);
    }
  }

  lemma GrowthKeepsPages(b: J.Batch, start: nat, j: J.Job, next: J.Job)
    requires Delivery.PageOf(b, start, j, start) && J.Grows(j, next)
    ensures Delivery.PageOf(b, start, next, start)
  {
    assert next.events[start..start + |b.events|] == j.events[start..start + |b.events|];
  }

  lemma WorkKeepsLinks(s: Setup, y: System, generation: nat, work: Work)
    requires Linked(y)
    ensures Linked(Advance(s, y, Move.Work(generation, work)))
  {
    var next := Advance(s, y, Move.Work(generation, work));
    WorkGrows(JobOf(y.jobs, generation), work);
    forall g: nat ensures J.Numbered(JobOf(next.jobs, g)) && J.Grows(JobOf(y.jobs, g), JobOf(next.jobs, g)) {
      if g != generation { assert JobOf(next.jobs, g) == JobOf(y.jobs, g); }
    }
    var record := y.session.db.record;
    if record.Some? {
      var g := record.value.generation;
      GrowthKeepsFaith(y.session, LogsOf(y.jobs), LogsOf(next.jobs), JobOf(y.jobs, g), JobOf(next.jobs, g));
    }
    forall r | r in next.replies ensures Answers(next.jobs, r) {
      var g := r.fence.generation;
      GrowthKeepsPages(r.batch, r.after, JobOf(y.jobs, g), JobOf(next.jobs, g));
    }
  }

  lemma AskingKeepsLinks(s: Setup, y: System, fence: Fence)
    requires Linked(y)
    ensures Linked(Advance(s, y, Ask(fence)))
  {
    var record := Fenced(y.session.db, fence);
    if record.Ok? { assert Behind(y.session.db, fence, record.value.cursor); }
  }

  lemma AnsweringKeepsLinks(s: Setup, y: System, question: nat)
    requires Linked(y)
    ensures Linked(Advance(s, y, Move.Answer(question)))
  {
    var next := Advance(s, y, Move.Answer(question));
    if question < |y.asked| && y.asked[question].after <= |JobOf(y.jobs, y.asked[question].fence.generation).events| {
      var q := y.asked[question];
      var b := J.Page(JobOf(y.jobs, q.fence.generation), q.after);
      assert q in y.asked;
      assert b.events == JobOf(y.jobs, q.fence.generation).events[q.after..q.after + |b.events|];
      assert Answers(y.jobs, Reply(q.fence, q.after, b));
    }
  }

  // --- The session's own steps ----------------------------------------------------------------------------------

  lemma PollsMoveOn(s: Setup, db: Db, step: Step)
    requires step.Poll? && WellShaped(db) && Transact(s, db, step).Ok?
    ensures After(s, db, step).record.Some? && After(s, db, step).record.value.cursor >= db.record.value.cursor
  {
    var record := db.record.value;
    var d, root := Draft(db, record), record.execution.value.turn;
    BatchAppliesWhatIsFresh(d, root, step.entries);
    EachMovesTheCursor(d, root, Delivery.Fresh(record.cursor, step.entries).value);
  }

  /** Within a generation the cursor does not go back. */
  lemma CursorsMoveOn(s: Setup, db: Db, step: Step)
    requires WellShaped(db)
    ensures var next := After(s, db, step).record;
            next.Some? ==> db.record.Some? && (next.value.generation == db.record.value.generation && next.value.execution.Some?
                                               ==> next.value.cursor >= db.record.value.cursor)
  {
    if Transact(s, db, step).Ok? {
      match step
      case Submit(driver, events, key) =>
        if key !in db.accepted { InputsKeepTheCursor(Draft(db, db.record.value), driver, events); }
      case Poll(_, _, _, _) => PollsMoveOn(s, db, step);
      case Commit(_, checkpoint) =>
        SealedSessionsStartOver(s, db, db.record.value.(checkpoint := Some(checkpoint)), Completed, None);
      case Seal(_, outcome, error) => SealedSessionsStartOver(s, db, db.record.value, outcome, error);
      case _ =>
    }
  }

  lemma StepsKeepBehind(s: Setup, db: Db, step: Step, fence: Fence, after: nat)
    requires WellShaped(db) && Behind(db, fence, after)
    ensures Behind(After(s, db, step), fence, after)
  {
    if Spent(db, fence) {
      SpentStaysSpent(s, db, fence, step);
    } else {
      StepKeepsShape(s, db, step);
      CursorsMoveOn(s, db, step);
    }
  }

  /** A delivered reply is a page of the log as it is, begun no later than the session has read. */
  lemma RepliesArePaged(y: System, r: Reply, cancel: bool)
    requires Linked(y) && r in y.replies
    ensures Paged(y.session.db, Poll(r.fence, r.batch.events, r.batch.status.Completed?, cancel), LogsOf(y.jobs))
  {
    var db, g := y.session.db, r.fence.generation;
    if Fenced(db, r.fence).Ok? {
      var cursor, log := db.record.value.cursor, LogsOf(y.jobs)(g);
      assert Numbered(log) == JobOf(y.jobs, g).events;
      JobPagesArePages(r.batch, r.after, JobOf(y.jobs, g), log, cursor);
    }
  }

  /** Only a reply that says the job completed makes the session complete. */
  lemma PollsEarnCompletion(s: Setup, db: Db, step: Step)
    requires step.Poll? && WellShaped(db) && Transact(s, db, step).Ok?
    ensures var next := After(s, db, step).record;
            && next.Some? && next.value.generation == db.record.value.generation == step.fence.generation
            && (next.value.phase == Checkpointing ==> step.completed || db.record.value.phase == Checkpointing)
  {
    var record := db.record.value;
    var d, root := Draft(db, record), record.execution.value.turn;
    BatchAppliesWhatIsFresh(d, root, step.entries);
    BatchMovesTheCursor(db, record, step.entries, step.completed, step.cancel,
                        Delivery.Fresh(record.cursor, step.entries).value);
  }

  lemma OthersEarnNothing(s: Setup, db: Db, step: Step)
    requires !step.Poll? && WellShaped(db) && Transact(s, db, step).Ok?
    ensures var next := After(s, db, step).record;
            next.Some? && next.value.phase == Checkpointing ==>
              db.record.Some? && db.record.value.phase == Checkpointing && next.value.generation == db.record.value.generation
  {
    StepKeepsShape(s, db, step);
    match step
    case Submit(driver, events, key) =>
      if key !in db.accepted { InputsKeepTheCursor(Draft(db, db.record.value), driver, events); }
    case Commit(_, checkpoint) =>
      SealedSessionsStartOver(s, db, db.record.value.(checkpoint := Some(checkpoint)), Completed, None);
    case Seal(_, outcome, error) => SealedSessionsStartOver(s, db, db.record.value, outcome, error);
    case _ =>
  }

  lemma StepsStayFaithful(s: Setup, y: System, step: Step)
    requires Linked(y) && Paged(y.session.db, step, LogsOf(y.jobs))
    requires step.Poll? && Transact(s, y.session.db, step).Ok? && step.completed ==>
               JobOf(y.jobs, step.fence.generation).outcome.Completed?
    ensures Faithful(Watch(s, y.session, step), LogsOf(y.jobs)) && Earned(Watch(s, y.session, step).db, y.jobs)
  {
    if Transact(s, y.session.db, step).Ok? {
      if step.Poll? {
        PollIsFaithful(s, y.session, step, LogsOf(y.jobs));
        PollsEarnCompletion(s, y.session.db, step);
      } else {
        OtherStepsAreFaithful(s, y.session, step, LogsOf(y.jobs));
        OthersEarnNothing(s, y.session.db, step);
      }
    }
  }

  lemma WatchingSteps(s: Setup, w: Watched, step: Step)
    ensures Watch(s, w, step).db == After(s, w.db, step)
  {
  }

  lemma StepsKeepUnderWay(s: Setup, y: System, step: Step)
    requires WellShaped(y.session.db) && UnderWay(y.session.db, y.jobs, y.asked, y.replies)
    ensures UnderWay(After(s, y.session.db, step), y.jobs, y.asked, y.replies)
  {
    forall q | q in y.asked ensures Behind(After(s, y.session.db, step), q.fence, q.after) {
      StepsKeepBehind(s, y.session.db, step, q.fence, q.after);
    }
    forall r | r in y.replies ensures Behind(After(s, y.session.db, step), r.fence, r.after) {
      StepsKeepBehind(s, y.session.db, step, r.fence, r.after);
    }
  }

  lemma ActingKeepsLinks(s: Setup, y: System, move: Move)
    requires Linked(y) && StepOf(y, move).Some?
    ensures Linked(Advance(s, y, move))
  {
    var step := StepOf(y, move).value;
    if move.Deliver? {
      assert y.replies[move.reply] in y.replies;
      RepliesArePaged(y, y.replies[move.reply], move.cancel);
    }
    StepsStayFaithful(s, y, step);
    StepKeepsShape(s, y.session.db, step);
    WatchingSteps(s, y.session, step);
    StepsKeepUnderWay(s, y, step);
  }

  lemma {:induction false} MovesKeepLinks(s: Setup, y: System, moves: seq<Move>)
    requires Linked(y)
    ensures Linked(AdvanceAll(s, y, moves))
    ensures AdvanceAll(s, y, moves).session == WatchAll(s, y.session, StepsOf(s, y, moves))
    ensures AdvanceAll(s, y, moves).session.db == Run(s, y.session.db, StepsOf(s, y, moves))
    decreases |moves|
  {
    if moves != [] {
      var move, next := moves[0], Advance(s, y, moves[0]);
      MoveKeepsLinks(s, y, move);
      MovesKeepLinks(s, next, moves[1..]);
      var rest := StepsOf(s, next, moves[1..]);
      if StepOf(y, move).Some? {
        var step := StepOf(y, move).value;
        assert ([step] + rest)[0] == step && ([step] + rest)[1..] == rest;
        WatchingSteps(s, y.session, step);
      } else {
        assert [] + rest == rest && next.session == y.session;
      }
    }
  }

  lemma MoveKeepsLinks(s: Setup, y: System, move: Move)
    requires Linked(y)
    ensures Linked(Advance(s, y, move))
  {
    match move
    case Work(generation, work) => WorkKeepsLinks(s, y, generation, work);
    case Ask(fence) => AskingKeepsLinks(s, y, fence);
    case Answer(question) => AnsweringKeepsLinks(s, y, question);
    case _ => if StepOf(y, move).Some? { ActingKeepsLinks(s, y, move); }
  }

  /**
   However the logs grow, and whenever and however often polls are asked, answered and delivered: what the
   session does is a run of the session, the events it has applied in its execution are the first `cursor` of
   that execution's log, and when it is about to complete they are the whole log of a job that completed.
   */
  lemma SessionFollowsItsJob(
      s: Setup, driver: string, revision: string, sandboxed: bool, transcript: Option<string>,
      checkpoint: Option<Checkpoint>, moves: seq<Move>)
    ensures var start := System(Watched(Created(driver, revision, sandboxed, transcript, checkpoint), []), map[], [], []);
            var y := AdvanceAll(s, start, moves);
            && y.session == WatchAll(s, start.session, StepsOf(s, start, moves))
            && y.session.db == Run(s, Created(driver, revision, sandboxed, transcript, checkpoint), StepsOf(s, start, moves))
            && (y.session.db.record.Some? && y.session.db.record.value.execution.Some? ==>
                  var record, job := y.session.db.record.value, JobOf(y.jobs, y.session.db.record.value.generation);
                  && record.cursor <= |job.events|
                  && y.session.applied == Delivery.Events(job.events)[..record.cursor]
                  && (record.phase == Checkpointing ==>
                        y.session.applied == Delivery.Events(job.events) && job.outcome.Completed?))
  {
    var start := System(Watched(Created(driver, revision, sandboxed, transcript, checkpoint), []), map[], [], []);
    MovesKeepLinks(s, start, moves);
  }
}
