/**
 Runs of one session: clients, the environment and the reconciler act on it in any order, one
 transaction at a time, and a transaction that fails leaves no trace.
 */
module SessionRuns {
  import opened Options
  import opened Tables
  import opened SessionStore
  import opened SessionEvents
  import opened SessionState
  import J = JobStates

  datatype Step =
    | Submit(driver: Driver, events: seq<InputEvent>, key: string)
    | Start(fence: Fence)
    | Poll(fence: Fence, entries: seq<J.Stamped>, completed: bool, cancel: bool)
    | Commit(fence: Fence, checkpoint: Checkpoint)
    | Seal(fence: Fence, outcome: TurnStatus, error: Option<string>)
    | Deliver(fence: Fence, operation: Operation)
    | Refuse(fence: Fence, operation: Operation)
    | Report(environment: EnvironmentStatus)
    | Delete
    | Drop

  /** A step the reconciler takes on the record its fence re-read. */
  function Reconcile(s: Setup, db: Db, record: Record, step: Step): Result<Db>
    requires record.execution.Some?
    requires !step.Submit? && !step.Report? && !step.Delete? && !step.Drop?
  {
    match step
    case Start(_) => MarkRunning(db, record)
    case Poll(_, entries, completed, cancel) => AcceptBatch(db, record, entries, completed, cancel)
    case Commit(_, checkpoint) => CommitCheckpoint(s, db, record, checkpoint)
    case Seal(_, outcome, error) => Complete(s, db, record, outcome, error)
    case Deliver(_, operation) => Ok(Discard(db, operation))
    case Refuse(_, operation) => Ok(Reject(db, operation))
  }

  function Transact(s: Setup, db: Db, step: Step): Result<Db> {
    match step
    case Submit(driver, events, key) => AcceptInput(s, db, driver, events, key)
    case Report(environment) => ApplyEnvironment(db, environment)
    case Delete => MarkDeleted(db)
    case Drop => Purge(db)
    case _ =>
      match Fenced(db, step.fence)
      case Err(error) => Err(error)
      case Ok(record) => Reconcile(s, db, record, step)
  }

  /** A throw rolls back. */
  function After(s: Setup, db: Db, step: Step): Db {
    var result := Transact(s, db, step);
    if result.Ok? then result.value else db
  }

  function Run(s: Setup, db: Db, steps: seq<Step>): Db
    decreases |steps|
  {
    if steps == [] then db else Run(s, After(s, db, steps[0]), steps[1..])
  }

  /** A session as it is created: idle, without turns, usage or history of its own. */
  function Created(driver: string, revision: string, sandboxed: bool, transcript: Option<string>,
                   checkpoint: Option<Checkpoint>): Db {
    Db(Some(Record(driver, revision, sandboxed, 0, None, Idle, 0, Resting, [], None, None, transcript, checkpoint, false)),
       [], [], map[], [], map[], [], map[], None, false, Feed(0, [], [], map[], []))
  }

  predicate Below(id: Id, minted: nat) { id.Minted? ==> id.n < minted }

  /** Identifiers are random: the runtime cannot name one the session has yet to mint. */
  predicate Knows(event: RuntimeEvent, minted: nat) { event.SubagentTurn? ==> Below(event.id, minted) }

  /** What a step may be: the runtime knows only minted identifiers, and a seal names an outcome. */
  ghost predicate Possible(db: Db, step: Step) {
    && (step.Poll? ==> forall e | e in step.entries :: Knows(e.event, db.feed.minted))
    && (step.Seal? ==> step.outcome == Cancelled || step.outcome == Failed)
  }

  ghost predicate AllPossible(s: Setup, db: Db, steps: seq<Step>)
    decreases |steps|
  {
    steps == [] || (Possible(db, steps[0]) && AllPossible(s, After(s, db, steps[0]), steps[1..]))
  }
}
