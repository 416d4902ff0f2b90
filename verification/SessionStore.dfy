/**
 The records of one session object and the log of its public events.

 Identifiers the session mints are numbered; the runtime names everything else. A transition
 runs in one transaction: it ends with the records it leaves, or with the error that undid it.
 */
module SessionStore {
  import opened Options
  import opened Tables

  datatype Id = Minted(n: nat) | Native(name: string)

  datatype Usage = Usage(input: nat, output: nat, total: nat, cached: nat, reasoning: nat)

  // --- Turns and the session record -------------------------------------------------------------

  datatype TurnStatus = Queued | InProgress | Waiting | Completed | Cancelled | Failed
  datatype TurnError = TurnError(code: string, message: string)
  datatype Turn = Turn(id: Id, subagent: Option<Id>, status: TurnStatus, error: Option<TurnError>, usage: Option<Usage>)

  datatype Message = Message(text: string, image: bool)
  datatype Execution = Execution(turn: Id, generation: nat, input: seq<Message>, checkpoint: Option<Checkpoint>)
  datatype Phase = Idle | Broken | Starting | Running | Checkpointing
  datatype Status = Resting | Working | RequiresAction | Faulted
  datatype Action = Action(turn: Id, call: string)
  datatype Checkpoint = Checkpoint(driver: string, revision: string, history: string)

  datatype Record = Record(
    driver: string,
    revision: string,
    sandboxed: bool,
    generation: nat,
    execution: Option<Execution>,
    phase: Phase,
    cursor: nat,
    status: Status,
    actions: seq<Action>,
    usage: Option<Usage>,
    error: Option<string>,
    transcript: Option<string>,
    checkpoint: Option<Checkpoint>,
    deleted: bool)

  // --- Output items --------------------------------------------------------------------------------

  datatype ItemStatus = Open | Done | Bad | Incomplete
  datatype Content =
    | Text(text: string, phase: Option<string>)
    | Summary(parts: seq<string>)
    | Command(command: string, output: string)
    | Call(call: string)
    /** What the client sent: an input message, or the answer to a call. */
    | Input(message: Message)
    | Answer(call: string, result: string)
    | Plain(shape: string)
  datatype Item = Item(id: Id, turn: Id, status: ItemStatus, content: Content)
  /** A streamed native item's public index and current shape. */
  datatype Position = Position(index: nat, item: Item)
  datatype OutputKey = OutputKey(turn: Id, native: string)
  /** Items of a subagent are kept in that subagent's partition. */
  datatype ItemKey = ItemKey(owner: Option<Id>, id: Id)

  // --- Queued deliveries -------------------------------------------------------------------------------

  datatype Control = Cancel | Steer(input: seq<Message>) | ToolResult(call: string, success: bool, output: string)
  datatype Operation = Operation(id: Id, turn: Id, control: Control, items: seq<Id>)

  // --- The public event log -------------------------------------------------------------------------------

  datatype EnvironmentStatus = Pending | Connected | Disconnected | Failing
  datatype Event =
    | TurnCreated(turn: Turn)
    | TurnStarted(turn: Turn)
    | TurnEnded(outcome: TurnStatus, turn: Turn)
    | SessionLogged(status: Status)
    | SubagentLogged(subagent: Id, closed: bool)
    | EnvironmentLogged(environment: EnvironmentStatus)
    | ItemAdded(owner: Id, position: Option<nat>, item: Item)
    | ItemDone(owner: Id, index: nat, item: Item)
    | TextDelta(owner: Id, id: Id, index: nat, text: string)
    /** The notifications no reader here folds into an item: parts opened, text and parts finished. */
    | Notice(kind: string, owner: Id, id: Id, index: nat, part: nat, text: string)

  /** What a client reads of the session: its items, their positions and the event log. */
  datatype Feed = Feed(
    minted: nat,
    items: Table<ItemKey, Item>,
    outputs: Table<OutputKey, Position>,
    counts: map<Id, nat>,
    log: seq<Event>)

  datatype Db = Db(
    record: Option<Record>,
    turns: Table<Id, Turn>,
    /** Child turns that finished and are published with the root's checkpoint. */
    pending: Table<Id, Turn>,
    subagents: map<Id, bool>,
    commands: Table<Id, Operation>,
    cancellations: map<Id, Operation>,
    refused: Table<Id, seq<Message>>,
    accepted: map<string, string>,
    environment: Option<EnvironmentStatus>,
    tombstone: bool,
    feed: Feed)

  datatype Error =
    | SessionNotFound | SessionFailed | TurnCheckpointing | TurnActive | Superseded | SessionNotDeleted
    | IdempotencyConflict | CapabilityUnsupported | SteeringUnsupported | UnknownToolCall
    | RecordNotFound | InvalidRuntimeEvent | InvalidRuntimeCursor | CheckpointIncompatible
  datatype Result<+T> = Ok(value: T) | Err(error: Error)

  /** The records so far in a transaction, and the session record in hand, not yet saved. */
  datatype Draft = Draft(db: Db, record: Record)

  function Logged(feed: Feed, event: Event): Feed { feed.(log := feed.log + [event]) }

  function Emit(db: Db, event: Event): Db { db.(feed := Logged(db.feed, event)) }

  function PutTurn(db: Db, turn: Turn): Db { db.(turns := Put(db.turns, turn.id, turn)) }

  function Saved(d: Draft): Db { d.db.(record := Some(d.record)) }
}
