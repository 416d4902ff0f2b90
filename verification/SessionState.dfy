/**
 The transitions of a session: input, environment and deletion act on the record they read;
 the reconciler's act on a record fenced to the execution they started from.
 */
module SessionState {
  import opened Options
  import opened Tables
  import opened SessionStore
  import opened SessionEvents
  import opened Pages
  import J = JobStates

  /** What the deployment fixes: how an input fingerprints, and the stored size of refused input. */
  datatype Setup = Setup(fingerprint: seq<InputEvent> -> string, weight: seq<Message> -> nat)
  datatype Driver = Driver(images: bool, steer: bool)
  datatype InputEvent =
    | UserMessage(input: seq<Message>)
    | UserCancel
    | UserTool(turn: Id, call: string, success: bool, image: bool, output: string)
  /** The execution a reconciler tick belongs to. */
  datatype Fence = Fence(turn: Id, generation: nat)

  const QUEUED_INPUT_PAGE: nat := 100

  const TURN_ERROR_CODES: set<string> := {
    "context_length_exceeded", "session_budget_exceeded", "usage_limit_exceeded", "rate_limit_exceeded",
    "server_overloaded", "cyber_policy", "connection_failed", "server_error", "authentication_error",
    "invalid_request", "resource_not_found", "sandbox_error", "executor_version_incompatible",
    "active_turn_not_steerable", "request_timeout", "internal_error"}

  predicate EndsWith(s: string, end: string) { |s| >= |end| && s[|s| - |end|..] == end }

  /** Only an outcome nobody can confirm leaves the session failed. */
  predicate IsIndeterminate(error: Option<string>) {
    error.Some? && (error.value == "outcome_unknown" || EndsWith(error.value, "_uncertain"))
  }

  function TurnErrorOf(error: Option<string>): Option<TurnError> {
    if error.None? || error.value == "" then None
    else Some(TurnError(if error.value in TURN_ERROR_CODES then error.value else "internal_error", error.value))
  }

  // --- Starting a turn and queueing commands -----------------------------------------------------

  function Inherited(record: Record, input: seq<Message>): seq<Message> {
    if record.transcript.Some? then [Message(record.transcript.value, false)] + input else input
  }

  function Begin(db: Db, record: Record, input: seq<Message>): Draft {
    var id := Minted(db.feed.minted);
    var turn := Turn(id, None, Queued, None, None);
    var next := record.(generation := record.generation + 1,
                        execution := Some(Execution(id, record.generation + 1, Inherited(record, input), record.checkpoint)),
                        cursor := 0, phase := Starting, status := Working);
    var stored := PutTurn(db.(feed := db.feed.(minted := db.feed.minted + 1)), turn);
    Draft(Emit(Emit(stored, TurnCreated(turn)), SessionLogged(Working)), next)
  }

  function AddItem(feed: Feed, owner: Option<Id>, turn: Id, status: ItemStatus, content: Content): Feed {
    var item := Item(Minted(feed.minted), turn, status, content);
    Logged(feed.(minted := feed.minted + 1, items := Put(feed.items, ItemKey(owner, item.id), item)),
           ItemAdded(turn, None, item))
  }

  function AddInput(feed: Feed, turn: Id, input: seq<Message>): (Feed, seq<Id>)
    decreases |input|
  {
    if input == [] then (feed, [])
    else
      var (rest, ids) := AddInput(AddItem(feed, None, turn, Done, Input(input[0])), turn, input[1..]);
      (rest, [Minted(feed.minted)] + ids)
  }

  function Enqueue(db: Db, turn: Id, control: Control, items: seq<Id>): Db {
    if control.Cancel? && turn in db.cancellations then db
    else
      var operation := Operation(Minted(db.feed.minted), turn, control, items);
      var minted := db.(feed := db.feed.(minted := db.feed.minted + 1));
      if control.Cancel? then minted.(cancellations := db.cancellations[turn := operation])
      else minted.(commands := Put(db.commands, operation.id, operation))
  }

  // --- Transitions of the reconciler ----------------------------------------------------------------

  /** The record as re-read, if it is still the execution the caller started from. */
  function Fenced(db: Db, fence: Fence): Result<Record> {
    if db.record.None? || db.record.value.deleted || db.record.value.execution.None?
       || db.record.value.execution.value.generation != fence.generation
       || db.record.value.execution.value.turn != fence.turn
    then Err(Superseded)
    else Ok(db.record.value)
  }

  /** The executor took a queued command, or the command outlived its turn. */
  function Discard(db: Db, operation: Operation): Db {
    db.(commands := Remove(db.commands, operation.id))
  }

  function Unlisted(items: Table<ItemKey, Item>, ids: seq<Id>): Table<ItemKey, Item>
    decreases |ids|
  {
    if ids == [] then items else Unlisted(Remove(items, ItemKey(None, ids[0])), ids[1..])
  }

  /** The executor refused a queued command for good. A steer's input becomes the next turn. */
  function Reject(db: Db, operation: Operation): Db {
    var dropped := Discard(db, operation);
    if !operation.control.Steer? then dropped
    else dropped.(feed := db.feed.(items := Unlisted(db.feed.items, operation.items)),
                  refused := Put(db.refused, operation.id, operation.control.input))
  }

  /** The runtime acknowledged the start. */
  function MarkRunning(db: Db, record: Record): Result<Db>
    requires record.execution.Some?
  {
    match Get(db.turns, record.execution.value.turn)
    case None => Err(RecordNotFound)
    case Some(turn) =>
      var running := turn.(status := InProgress);
      Ok(Emit(PutTurn(db.(record := Some(record.(phase := Running))), running), TurnStarted(running)))
  }

  /** The events of a batch beyond the cursor, in turn; a gap or a refused event undoes them all. */
  function AcceptEntries(d: Draft, root: Id, entries: seq<J.Stamped>): Result<Draft>
    decreases |entries|
  {
    if entries == [] then Ok(d)
    else if entries[0].at <= d.record.cursor then AcceptEntries(d, root, entries[1..])
    else if entries[0].at != d.record.cursor + 1 then Err(InvalidRuntimeCursor)
    else
      match Accept(d, root, entries[0].event)
      case Err(error) => Err(error)
      case Ok(next) => AcceptEntries(next.(record := next.record.(cursor := entries[0].at)), root, entries[1..])
  }

  /** One polled batch; completion waits for commands accepted meanwhile, unless cancelling. */
  function AcceptBatch(db: Db, record: Record, entries: seq<J.Stamped>, completed: bool, cancel: bool): Result<Db>
    requires record.execution.Some?
  {
    match AcceptEntries(Draft(db, record), record.execution.value.turn, entries)
    case Err(error) => Err(error)
    case Ok(next) =>
      var waiting := !cancel && next.db.commands != [];
      Ok(Saved(if completed && !waiting then next.(record := next.record.(phase := Checkpointing)) else next))
  }

  // --- Sealing a turn ---------------------------------------------------------------------------------

  function RowsOf<K, V>(t: Table<K, V>): seq<V> {
    if t == [] then [] else [t[0].value] + RowsOf(t[1..])
  }

  function ChildrenAt(turns: Table<Id, Turn>, status: TurnStatus): seq<Turn> {
    if turns == [] then []
    else
      (if turns[0].value.status == status && turns[0].value.subagent.Some? then [turns[0].value] else [])
      + ChildrenAt(turns[1..], status)
  }

  /** A completed root publishes the children that finished; any other closes those still open. */
  function OpenChildren(db: Db, outcome: TurnStatus): seq<Turn> {
    if outcome == Completed then RowsOf(db.pending)
    else ChildrenAt(db.turns, InProgress) + ChildrenAt(db.turns, Waiting)
  }

  function CloseChild(db: Db, child: Turn, outcome: TurnStatus, error: Option<TurnError>): Db {
    var closed := if outcome == Completed then child else child.(status := outcome, error := error);
    var stored := PutTurn(db, closed);
    Emit(stored.(feed := FinishItems(stored.feed, closed.id, closed.subagent)), TurnEnded(outcome, closed))
  }

  function CloseChildren(db: Db, children: seq<Turn>, outcome: TurnStatus, error: Option<TurnError>): Db
    decreases |children|
  {
    if children == [] then db
    else CloseChildren(CloseChild(db, children[0], outcome, error), children[1..], outcome, error)
  }

  function Weights(s: Setup, refused: Table<Id, seq<Message>>): seq<nat> {
    if refused == [] then [] else [s.weight(refused[0].value)] + Weights(s, refused[1..])
  }

  function Joined(inputs: Table<Id, seq<Message>>): seq<Message> {
    if inputs == [] then [] else inputs[0].value + Joined(inputs[1..])
  }

  lemma {:induction false} WeighsEach(s: Setup, refused: Table<Id, seq<Message>>)
    ensures |Weights(s, refused)| == |refused|
  {
    if refused != [] { WeighsEach(s, refused[1..]); }
  }

  /** How many refused inputs the one page read at a seal holds. */
  function PageOfRefused(s: Setup, refused: Table<Id, seq<Message>>): (n: nat)
    ensures n <= |refused|
  {
    WeighsEach(s, refused);
    Shown(Weights(s, refused), QUEUED_INPUT_PAGE, 0, 0)
  }

  function SealedRecord(record: Record, outcome: TurnStatus, error: Option<string>): Record {
    var broken := outcome == Failed && IsIndeterminate(error);
    record.(transcript := if outcome == Completed then None else record.transcript,
            execution := None, phase := if broken then Broken else Idle,
            status := if broken then Faulted else Resting, error := error, actions := [])
  }

  /** The root turn stored with its outcome, its items closed and its queues cleared. */
  function SealRoot(db: Db, turn: Turn, next: Record, outcome: TurnStatus): Db {
    var stored := PutTurn(db, turn);
    var finished := stored.(feed := FinishItems(stored.feed, turn.id, None), commands := [], cancellations := map[]);
    Emit(Emit(finished.(record := Some(next)), TurnEnded(outcome, turn)), SessionLogged(next.status))
  }

  /** The turn and everything it left open, sealed: what a seal does before refused input is read. */
  function Sealed(db: Db, record: Record, outcome: TurnStatus, error: Option<string>): Result<Draft>
    requires record.execution.Some?
  {
    var failure := TurnErrorOf(error);
    var closed := CloseChildren(db, OpenChildren(db, outcome), outcome, failure).(pending := []);
    match Get(closed.turns, record.execution.value.turn)
    case None => Err(RecordNotFound)
    case Some(row) =>
      var next := SealedRecord(record, outcome, error);
      Ok(Draft(SealRoot(closed, row.(status := outcome, error := failure), next, outcome), next))
  }

  /** A new turn on `input`, with its items, saved. */
  function Restarted(db: Db, record: Record, input: seq<Message>): Db {
    var started := Begin(db, record, input);
    var (feed, _) := AddInput(started.db.feed, started.record.execution.value.turn, input);
    Saved(started.(db := started.db.(feed := feed)))
  }

  /** Seals the turn in one transaction, and starts the next one from refused steer input. */
  function Complete(s: Setup, db: Db, record: Record, outcome: TurnStatus, error: Option<string>): Result<Db>
    requires record.execution.Some?
  {
    match Sealed(db, record, outcome, error)
    case Err(e) => Err(e)
    case Ok(d) =>
      var shown := d.db.refused[..PageOfRefused(s, d.db.refused)];
      var cleared := d.db.(refused := []);
      if shown == [] || outcome == Cancelled || d.record.phase == Broken then Ok(cleared)
      else Ok(Restarted(cleared, d.record, Joined(shown)))
  }

  /** The checkpoint becomes durable together with the terminal turn events. */
  function CommitCheckpoint(s: Setup, db: Db, record: Record, checkpoint: Checkpoint): Result<Db>
    requires record.execution.Some?
  {
    if checkpoint.driver != record.driver || checkpoint.revision != record.revision then Err(CheckpointIncompatible)
    else Complete(s, db, record.(checkpoint := Some(checkpoint)), Completed, None)
  }

  // --- Input ----------------------------------------------------------------------------------------------

  predicate HasImage(input: seq<Message>) { exists m :: m in input && m.image }

  function AcceptMessage(d: Draft, driver: Driver, input: seq<Message>): Result<Draft> {
    if !driver.images && HasImage(input) then Err(CapabilityUnsupported)
    else if d.record.execution.Some? then
      if !driver.steer then Err(SteeringUnsupported)
      else
        var turn := d.record.execution.value.turn;
        var (feed, ids) := AddInput(d.db.feed, turn, input);
        Ok(d.(db := Enqueue(d.db.(feed := feed), turn, Steer(input), ids)))
    else
      var started := Begin(d.db, d.record, input);
      var (feed, _) := AddInput(started.db.feed, started.record.execution.value.turn, input);
      Ok(started.(db := started.db.(feed := feed)))
  }

  /** Drops the first action that waits for this call of this turn, if there is one. */
  function Without(actions: seq<Action>, action: Action): Option<seq<Action>> {
    if actions == [] then None
    else if actions[0] == action then Some(actions[1..])
    else
      match Without(actions[1..], action)
      case None => None
      case Some(rest) => Some([actions[0]] + rest)
  }

  function AcceptTool(d: Draft, driver: Driver, event: InputEvent): Result<Draft>
    requires event.UserTool?
  {
    if !driver.images && event.image then Err(CapabilityUnsupported)
    else
      var left := Without(d.record.actions, Action(event.turn, event.call));
      if left.None? || d.record.execution.None? then Err(UnknownToolCall)
      else
        match Get(d.db.turns, event.turn)
        case None => Err(RecordNotFound)
        case Some(turn) =>
          var status := if event.success then Done else Bad;
          var feed := AddItem(d.db.feed, turn.subagent, event.turn, status, Answer(event.call, event.output));
          var queued := Enqueue(d.db.(feed := feed), d.record.execution.value.turn,
                                ToolResult(event.call, event.success, event.output), []);
          var record := d.record.(actions := left.value,
                                  status := if left.value == [] then Working else RequiresAction);
          Ok(Draft(if left.value == [] then
                     Emit(PutTurn(queued, turn.(status := InProgress)), SessionLogged(Working))
                   else queued, record))
  }

  function AcceptEvent(d: Draft, driver: Driver, event: InputEvent): Result<Draft> {
    match event
    case UserMessage(input) => AcceptMessage(d, driver, input)
    case UserCancel =>
      Ok(if d.record.execution.None? then d
         else d.(db := Enqueue(d.db, d.record.execution.value.turn, Cancel, [])))
    case UserTool(_, _, _, _, _) => AcceptTool(d, driver, event)
  }

  function AcceptAll(d: Draft, driver: Driver, events: seq<InputEvent>): Result<Draft>
    decreases |events|
  {
    if events == [] then Ok(d)
    else
      match AcceptEvent(d, driver, events[0])
      case Err(error) => Err(error)
      case Ok(next) => AcceptAll(next, driver, events[1..])
  }

  predicate Present(db: Db) { db.record.Some? && !db.record.value.deleted }

  /** Submitted input under its idempotency key: at most one acceptance per key. */
  function AcceptInput(s: Setup, db: Db, driver: Driver, events: seq<InputEvent>, key: string): Result<Db> {
    if !Present(db) then Err(SessionNotFound)
    else if key in db.accepted then
      if db.accepted[key] != s.fingerprint(events) then Err(IdempotencyConflict) else Ok(db)
    else if db.record.value.phase == Broken then Err(SessionFailed)
    else if db.record.value.phase == Checkpointing then Err(TurnCheckpointing)
    else
      match AcceptAll(Draft(db, db.record.value), driver, events)
      case Err(error) => Err(error)
      case Ok(d) => Ok(Saved(d.(db := d.db.(accepted := d.db.accepted[key := s.fingerprint(events)]))))
  }

  // --- Environment and deletion ---------------------------------------------------------------------------

  /** Whether a reported environment status is news: it is published once and never regresses. */
  predicate Publishes(current: Option<EnvironmentStatus>, status: EnvironmentStatus) {
    && current != Some(status)
    && (status == Pending ==> current.None?)
    && (status == Disconnected ==> current == Some(Connected))
    && (status == Connected ==> current != Some(Failing))
  }

  function ApplyEnvironment(db: Db, status: EnvironmentStatus): Result<Db> {
    if !Present(db) then Err(SessionNotFound)
    else if !db.record.value.sandboxed || !Publishes(db.environment, status) then Ok(db)
    else
      var published := Emit(db.(environment := Some(status)), EnvironmentLogged(status));
      if status != Failing || db.record.value.execution.Some? then Ok(published)
      else
        var record := db.record.value.(phase := Broken, status := Faulted, error := Some("environment_setup_failed"));
        Ok(Emit(published.(record := Some(record)), SessionLogged(Faulted)))
  }

  function MarkDeleted(db: Db): Result<Db> {
    if db.record.None? then if db.tombstone then Ok(db) else Err(SessionNotFound)
    else if db.record.value.execution.Some? then Err(TurnActive)
    else Ok(db.(record := Some(db.record.value.(deleted := true))))
  }

  /** Drops every record once the catalog no longer discovers the session. */
  function Purge(db: Db): Result<Db> {
    if db.record.Some? && !db.record.value.deleted then Err(SessionNotDeleted)
    else if db.record.None? && !db.tombstone then Ok(db)
    else Ok(Db(None, [], [], map[], [], map[], [], map[], None, true, Feed(db.feed.minted, [], [], map[], [])))
  }
}
