/**
 What becomes of submitted input: the first message of an idle session starts a turn with it, every other
 message is a steer and every tool result a command for the running turn, in the order they were submitted,
 and each message and result is listed for the client as it was sent.
 */
module SessionSubmissions {
  import opened Options
  import opened Tables
  import opened SessionStore
  import opened SessionEvents
  import opened SessionState
  import opened SessionFeeds
  import opened SessionRuns
  import opened SessionShape
  import opened SessionInputs
  import A = SessionActions

  // --- What a client sends, as it is listed and as it is queued -------------------------------------------

  /** An item the client sent: whose turn it is in, how it is marked and what it holds. */
  datatype Listing = Listing(turn: Id, status: ItemStatus, content: Content)

  function Lists(turn: Id, event: InputEvent): seq<Listing> {
    match event
    case UserMessage(input) => Messages(turn, input)
    case UserCancel => []
    case UserTool(own, call, success, _, output) => [Listing(own, if success then Done else Bad, Answer(call, output))]
  }

  function Messages(turn: Id, input: seq<Message>): seq<Listing> {
    if input == [] then [] else [Listing(turn, Done, Input(input[0]))] + Messages(turn, input[1..])
  }

  function AllLists(turn: Id, events: seq<InputEvent>): seq<Listing> {
    if events == [] then [] else Lists(turn, events[0]) + AllLists(turn, events[1..])
  }

  /** What of an event the executor has to be told. */
  function Asks(event: InputEvent): seq<Control> {
    match event
    case UserMessage(input) => [Steer(input)]
    case UserCancel => []
    case UserTool(_, call, success, _, output) => [ToolResult(call, success, output)]
  }

  function AllAsks(events: seq<InputEvent>): seq<Control> {
    if events == [] then [] else Asks(events[0]) + AllAsks(events[1..])
  }

  /** The client's items in a log: those at no output position. */
  function Listed(log: seq<Event>): seq<Listing>
    decreases |log|
  {
    if log == [] then []
    else
      var e := log[|log| - 1];
      Listed(log[..|log| - 1])
      + if e.ItemAdded? && e.position.None? then [Listing(e.owner, e.item.status, e.item.content)] else []
  }

  function Controls(commands: Table<Id, Operation>): seq<Control> {
    if commands == [] then [] else [commands[0].value.control] + Controls(commands[1..])
  }

  lemma ListedOne(log: seq<Event>, e: Event)
    ensures Listed(log + [e])
            == Listed(log) + if e.ItemAdded? && e.position.None? then [Listing(e.owner, e.item.status, e.item.content)] else []
  {
    assert (log + [e])[..|log|] == log;
  }

  lemma {:induction false} ControlsAdd(commands: Table<Id, Operation>, row: Row<Id, Operation>)
    ensures Controls(commands + [row]) == Controls(commands) + [row.value.control]
  {
    if commands != [] {
      ControlsAdd(commands[1..], row);
      assert (commands + [row])[1..] == commands[1..] + [row];
    } else {
      assert [row][1..] == [] && [] + [row] == [row];
    }
  }

  // --- Input items ------------------------------------------------------------------------------------------

  /** Each message is listed, in order, and stored under an identifier of its own. */
  ghost predicate Kept(feed: Feed, turn: Id, input: seq<Message>, ids: seq<Id>) {
    && |ids| == |input|
    && forall j | 0 <= j < |ids| :: Get(feed.items, ItemKey(None, ids[j])) == Some(Item(ids[j], turn, Done, Input(input[j])))
  }

  lemma {:induction false} AddInputKeepsOthers(feed: Feed, turn: Id, input: seq<Message>, key: ItemKey)
    requires key.id.Minted? ==> key.id.n < feed.minted
    ensures Get(AddInput(feed, turn, input).0.items, key) == Get(feed.items, key)
    decreases |input|
  {
    if input != [] {
      var item := Item(Minted(feed.minted), turn, Done, Input(input[0]));
      PutGet(feed.items, ItemKey(None, item.id), item, key);
      AddInputKeepsOthers(AddItem(feed, None, turn, Done, Input(input[0])), turn, input[1..], key);
    }
  }

  lemma {:induction false} AddInputStores(feed: Feed, turn: Id, input: seq<Message>)
    ensures Kept(AddInput(feed, turn, input).0, turn, input, AddInput(feed, turn, input).1)
    decreases |input|
  {
    if input != [] {
      var added := AddItem(feed, None, turn, Done, Input(input[0]));
      AddInputStores(added, turn, input[1..]);
      FirstIsStored(feed, turn, input);
      var (next, ids) := AddInput(added, turn, input[1..]);
      var all := [Minted(feed.minted)] + ids;
      forall j | 0 <= j < |all|
        ensures Get(next.items, ItemKey(None, all[j])) == Some(Item(all[j], turn, Done, Input(input[j])))
      {
        if j > 0 { assert all[j] == ids[j - 1] && input[j] == input[1..][j - 1]; }
      }
    }
  }

  lemma FirstIsStored(feed: Feed, turn: Id, input: seq<Message>)
    requires input != []
    ensures var item := Item(Minted(feed.minted), turn, Done, Input(input[0]));
            Get(AddInput(feed, turn, input).0.items, ItemKey(None, item.id)) == Some(item)
  {
    var item := Item(Minted(feed.minted), turn, Done, Input(input[0]));
    PutGet(feed.items, ItemKey(None, item.id), item, ItemKey(None, item.id));
    AddInputKeepsOthers(AddItem(feed, None, turn, Done, Input(input[0])), turn, input[1..], ItemKey(None, item.id));
  }

  lemma {:induction false} AddInputLists(feed: Feed, turn: Id, input: seq<Message>)
    ensures Listed(AddInput(feed, turn, input).0.log) == Listed(feed.log) + Messages(turn, input)
    decreases |input|
  {
    if input == [] {
      assert Listed(feed.log) + [] == Listed(feed.log);
    } else {
      AddInputLists(AddItem(feed, None, turn, Done, Input(input[0])), turn, input[1..]);
      ListedOne(feed.log, ItemAdded(turn, None, Item(Minted(feed.minted), turn, Done, Input(input[0]))));
      var head := [Listing(turn, Done, Input(input[0]))];
      assert Listed(feed.log) + head + Messages(turn, input[1..]) == Listed(feed.log) + (head + Messages(turn, input[1..]));
    }
  }

  // --- A running turn ---------------------------------------------------------------------------------------

  /** What these events add to a running turn. */
  ghost predicate Joins(d: Draft, next: Draft, turn: Id, events: seq<InputEvent>) {
    && next.record.execution == d.record.execution && next.record.phase == d.record.phase
    && Listed(next.db.feed.log) == Listed(d.db.feed.log) + AllLists(turn, events)
    && Controls(next.db.commands) == Controls(d.db.commands) + AllAsks(events)
    && d.db.commands <= next.db.commands
    && (turn in next.db.cancellations <==> turn in d.db.cancellations || UserCancel in events)
  }

  lemma MessageJoins(d: Draft, driver: Driver, input: seq<Message>)
    requires d.record.execution.Some? && Queues(d.db, ActiveOf(d.record)) && AcceptMessage(d, driver, input).Ok?
    ensures var next, turn := AcceptMessage(d, driver, input).value, d.record.execution.value.turn;
            && next.record == d.record
            && Listed(next.db.feed.log) == Listed(d.db.feed.log) + Messages(turn, input)
            && Controls(next.db.commands) == Controls(d.db.commands) + [Steer(input)]
            && next.db.commands != [] && next.db.commands[..|next.db.commands| - 1] == d.db.commands
            && (var last := next.db.commands[|next.db.commands| - 1].value;
                last.turn == turn && last.control == Steer(input) && Kept(next.db.feed, turn, input, last.items))
            && next.db.cancellations == d.db.cancellations
  {
    var turn := d.record.execution.value.turn;
    var (feed, ids) := AddInput(d.db.feed, turn, input);
    AddInputMints(d.db.feed, turn, input);
    AddInputLists(d.db.feed, turn, input);
    AddInputStores(d.db.feed, turn, input);
    QueuedLast(d.db.(feed := feed), turn, Steer(input), ids);
    ControlsAdd(d.db.commands, Row(Minted(feed.minted), Operation(Minted(feed.minted), turn, Steer(input), ids)));
  }

  lemma ToolJoins(d: Draft, driver: Driver, event: InputEvent)
    requires event.UserTool? && d.record.execution.Some? && Queues(d.db, ActiveOf(d.record))
    requires AcceptTool(d, driver, event).Ok?
    ensures var next, turn := AcceptTool(d, driver, event).value, d.record.execution.value.turn;
            && next.record.execution == d.record.execution && next.record.phase == d.record.phase
            && Listed(next.db.feed.log) == Listed(d.db.feed.log) + Lists(turn, event)
            && Controls(next.db.commands) == Controls(d.db.commands) + Asks(event)
            && d.db.commands <= next.db.commands && next.db.cancellations == d.db.cancellations
  {
    var turn, root := Get(d.db.turns, event.turn).value, d.record.execution.value.turn;
    var status, control := if event.success then Done else Bad, ToolResult(event.call, event.success, event.output);
    var listed := d.db.(feed := AddItem(d.db.feed, turn.subagent, event.turn, status, Answer(event.call, event.output)));
    ListedOne(d.db.feed.log,
              ItemAdded(event.turn, None, Item(Minted(d.db.feed.minted), event.turn, status, Answer(event.call, event.output))));
    var queued := Enqueue(listed, root, control, []);
    QueuedLast(listed, root, control, []);
    ControlsAdd(listed.commands, Row(Minted(listed.feed.minted), Operation(Minted(listed.feed.minted), root, control, [])));
    AnsweringOnlyQueues(d, driver, event, queued);
    AnsweringLogs(d, driver, event, queued);
  }

  lemma AnsweringLogs(d: Draft, driver: Driver, event: InputEvent, queued: Db)
    requires event.UserTool? && AcceptTool(d, driver, event).Ok?
    requires var turn := Get(d.db.turns, event.turn).value;
             queued == Enqueue(d.db.(feed := AddItem(d.db.feed, turn.subagent, event.turn, if event.success then Done else Bad,
                                                     Answer(event.call, event.output))),
                               d.record.execution.value.turn, ToolResult(event.call, event.success, event.output), [])
    ensures Listed(AcceptTool(d, driver, event).value.db.feed.log) == Listed(queued.feed.log)
  {
    ListedOne(queued.feed.log, SessionLogged(Working));
  }

  lemma InputJoins(d: Draft, driver: Driver, event: InputEvent)
    requires d.record.execution.Some? && Queues(d.db, ActiveOf(d.record)) && AcceptEvent(d, driver, event).Ok?
    ensures Joins(d, AcceptEvent(d, driver, event).value, d.record.execution.value.turn, [event])
  {
    var turn := d.record.execution.value.turn;
    assert [event][1..] == [] && Lists(turn, event) + [] == Lists(turn, event) && Asks(event) + [] == Asks(event);
    assert AllLists(turn, [event]) == Lists(turn, event) + AllLists(turn, []);
    assert AllAsks([event]) == Asks(event) + AllAsks([]);
    match event
    case UserMessage(input) => MessageJoins(d, driver, input);
    case UserCancel =>
      QueuedLast(d.db, turn, Cancel, []);
      assert Listed(d.db.feed.log) + [] == Listed(d.db.feed.log) && Controls(d.db.commands) + [] == Controls(d.db.commands);
    case UserTool(_, _, _, _, _) => ToolJoins(d, driver, event);
  }

  lemma Grouped<T>(x: seq<T>, a: seq<T>, b: seq<T>)
    ensures x + a + b == x + (a + b)
  {
  }

  lemma HeadFirst(turn: Id, event: InputEvent, events: seq<InputEvent>)
    ensures AllLists(turn, [event] + events) == AllLists(turn, [event]) + AllLists(turn, events)
    ensures AllAsks([event] + events) == AllAsks([event]) + AllAsks(events)
  {
    assert ([event] + events)[1..] == events && [event][1..] == [];
    assert AllLists(turn, [event]) == Lists(turn, event) + [] == Lists(turn, event);
    assert AllAsks([event]) == Asks(event) + [] == Asks(event);
  }

  lemma JoiningOnward(a: Draft, b: Draft, c: Draft, turn: Id, event: InputEvent, events: seq<InputEvent>)
    requires Joins(a, b, turn, [event]) && Joins(b, c, turn, events)
    ensures Joins(a, c, turn, [event] + events)
  {
    HeadFirst(turn, event, events);
    Grouped(Listed(a.db.feed.log), AllLists(turn, [event]), AllLists(turn, events));
    Grouped(Controls(a.db.commands), AllAsks([event]), AllAsks(events));
    assert UserCancel in [event] + events <==> UserCancel in [event] || UserCancel in events;
  }

  lemma {:induction false} InputsJoin(d: Draft, driver: Driver, events: seq<InputEvent>)
    requires d.record.execution.Some? && Queues(d.db, ActiveOf(d.record)) && d.record.phase != Checkpointing
    requires AcceptAll(d, driver, events).Ok?
    ensures Joins(d, AcceptAll(d, driver, events).value, d.record.execution.value.turn, events)
    decreases |events|
  {
    var turn := d.record.execution.value.turn;
    if events == [] {
      assert Listed(d.db.feed.log) + [] == Listed(d.db.feed.log) && Controls(d.db.commands) + [] == Controls(d.db.commands);
    } else {
      var next := AcceptEvent(d, driver, events[0]).value;
      InputJoins(d, driver, events[0]);
      InputKeepsQueues(d, driver, events[0]);
      InputsJoin(next, driver, events[1..]);
      JoiningOnward(d, next, AcceptAll(next, driver, events[1..]).value, turn, events[0], events[1..]);
      assert events == [events[0]] + events[1..];
    }
  }

  // --- An idle session --------------------------------------------------------------------------------------

  /** The place of the first message. */
  function Opener(events: seq<InputEvent>): Option<nat> {
    if events == [] then None
    else if events[0].UserMessage? then Some(0)
    else
      match Opener(events[1..])
      case None => None
      case Some(i) => Some(i + 1)
  }

  lemma {:induction false} OpenerIsFirst(events: seq<InputEvent>)
    ensures Opener(events).None? ==> forall i | 0 <= i < |events| :: !events[i].UserMessage?
    ensures Opener(events).Some? ==>
              && Opener(events).value < |events| && events[Opener(events).value].UserMessage?
              && forall i | 0 <= i < Opener(events).value :: !events[i].UserMessage?
  {
    if events != [] && !events[0].UserMessage? {
      OpenerIsFirst(events[1..]);
      var rest := events[1..];
      forall i | 0 <= i < |events| && (Opener(rest).None? || i < Opener(rest).value + 1) ensures !events[i].UserMessage? {
        if i > 0 { assert events[i] == rest[i - 1]; }
      }
    }
  }

  /** A turn that has begun on this input, behind the transcript the session was forked with. */
  ghost predicate Opens(d: Draft, next: Draft, input: seq<Message>, rest: seq<InputEvent>) {
    var turn, inherited := Minted(d.db.feed.minted), d.record.transcript;
    && next.record.execution.Some? && next.record.execution.value.turn == turn
    && next.record.execution.value.input == (if inherited.Some? then [Message(inherited.value, false)] else []) + input
    && next.record.execution.value.checkpoint == d.record.checkpoint
    && next.record.generation == d.record.generation + 1 && next.record.phase == Phase.Starting && next.record.cursor == 0
    && Listed(next.db.feed.log) == Listed(d.db.feed.log) + (Messages(turn, input) + AllLists(turn, rest))
    && Controls(next.db.commands) == AllAsks(rest)
    && (turn in next.db.cancellations <==> UserCancel in rest)
  }

  lemma BeginningListsNothing(db: Db, record: Record, input: seq<Message>)
    ensures Listed(Begin(db, record, input).db.feed.log) == Listed(db.feed.log)
  {
    var row := Turn(Minted(db.feed.minted), None, Queued, None, None);
    ListedOne(db.feed.log, TurnCreated(row));
    ListedOne(db.feed.log + [TurnCreated(row)], SessionLogged(Working));
    assert Listed(db.feed.log) + [] + [] == Listed(db.feed.log);
  }

  lemma MessageOpens(d: Draft, driver: Driver, input: seq<Message>)
    requires d.record.execution.None? && Queues(d.db, None) && AcceptMessage(d, driver, input).Ok?
    ensures Opens(d, AcceptMessage(d, driver, input).value, input, [])
    ensures AcceptMessage(d, driver, input).value.record.cursor == 0
  {
    NoneQueued(d.db);
    var started := Begin(d.db, d.record, input);
    var turn := Minted(d.db.feed.minted);
    BeginningListsNothing(d.db, d.record, input);
    AddInputLists(started.db.feed, turn, input);
    assert Messages(turn, input) + AllLists(turn, []) == Messages(turn, input);
    if d.record.transcript.None? { assert [] + input == input; }
  }

  /** The generation and the cursor belong to the turn that runs. */
  lemma {:induction false} RunningTurnsGoOn(d: Draft, driver: Driver, events: seq<InputEvent>)
    requires d.record.execution.Some? && AcceptAll(d, driver, events).Ok?
    ensures var next := AcceptAll(d, driver, events).value.record;
            next.generation == d.record.generation && next.cursor == d.record.cursor
    decreases |events|
  {
    if events != [] { RunningTurnsGoOn(AcceptEvent(d, driver, events[0]).value, driver, events[1..]); }
  }

  lemma OpeningOnward(a: Draft, b: Draft, c: Draft, input: seq<Message>, rest: seq<InputEvent>)
    requires Opens(a, b, input, []) && Joins(b, c, Minted(a.db.feed.minted), rest)
    requires c.record.generation == b.record.generation && c.record.cursor == b.record.cursor
    ensures Opens(a, c, input, rest)
  {
    var turn := Minted(a.db.feed.minted);
    assert Messages(turn, input) + AllLists(turn, []) == Messages(turn, input);
    assert Listed(a.db.feed.log) + Messages(turn, input) + AllLists(turn, rest)
           == Listed(a.db.feed.log) + (Messages(turn, input) + AllLists(turn, rest));
    assert [] + AllAsks(rest) == AllAsks(rest);
  }

  lemma {:induction false} IdleInputsOpen(d: Draft, driver: Driver, events: seq<InputEvent>)
    requires d.record.execution.None? && Queues(d.db, None) && d.record.phase != Checkpointing
    requires AcceptAll(d, driver, events).Ok?
    ensures var next := AcceptAll(d, driver, events).value;
            && (Opener(events).None? ==> next == d)
            && (Opener(events).Some? ==>
                  var i := Opener(events).value;
                  i < |events| && events[i].UserMessage? && Opens(d, next, events[i].input, events[i + 1..]))
    decreases |events|
  {
    if events != [] {
      var next := AcceptEvent(d, driver, events[0]).value;
      if events[0].UserMessage? {
        MessageOpens(d, driver, events[0].input);
        InputKeepsQueues(d, driver, events[0]);
        InputsJoin(next, driver, events[1..]);
        RunningTurnsGoOn(next, driver, events[1..]);
        OpeningOnward(d, next, AcceptAll(next, driver, events[1..]).value, events[0].input, events[1..]);
      } else {
        assert next == d;
        IdleInputsOpen(d, driver, events[1..]);
        if Opener(events).Some? { assert events[Opener(events).value + 1..] == events[1..][Opener(events).value..]; }
      }
    }
  }

  // --- Submissions ------------------------------------------------------------------------------------------

  /**
   New input accepted by an idle session: it starts a turn exactly if it has a message, with the first one as
   the turn's input; what follows that one is queued for the turn and listed, all of it in order.
   */
  lemma IdleSessionsTakeInput(s: Setup, db: Db, driver: Driver, events: seq<InputEvent>, key: string)
    requires WellShaped(db) && Mail(db) && key !in db.accepted && db.record.Some? && db.record.value.execution.None?
    requires Transact(s, db, Submit(driver, events, key)).Ok?
    ensures var next := After(s, db, Submit(driver, events, key));
            next.accepted == db.accepted[key := s.fingerprint(events)] && StartsWith(Draft(db, db.record.value), next, events)
  {
    AcceptedInputIsSaved(s, db, driver, events, key);
    NewKeysAreKept(s, db, driver, events, key);
    IdleDraftsTakeInput(Draft(db, db.record.value), driver, events, After(s, db, Submit(driver, events, key)));
  }

  /** A turn has begun with the first message, if there is one, and otherwise nothing happened. */
  ghost predicate StartsWith(d: Draft, next: Db, events: seq<InputEvent>) {
    && next.record.Some?
    && (Opener(events).None? ==> next.record == Some(d.record) && next.feed == d.db.feed && next.commands == [])
    && (Opener(events).Some? ==>
          var i := Opener(events).value;
          i < |events| && events[i].UserMessage?
          && Opens(d, Draft(next, next.record.value), events[i].input, events[i + 1..]))
  }

  lemma IdleDraftsTakeInput(d: Draft, driver: Driver, events: seq<InputEvent>, next: Db)
    requires d.record.execution.None? && Queues(d.db, None) && d.record.phase != Checkpointing
    requires AcceptAll(d, driver, events).Ok?
    requires var last := AcceptAll(d, driver, events).value;
             && next.record == Some(last.record) && next.feed == last.db.feed && next.commands == last.db.commands
             && next.cancellations == last.db.cancellations
    ensures StartsWith(d, next, events)
  {
    NoneQueued(d.db);
    OpenerIsFirst(events);
    IdleInputsOpen(d, driver, events);
    if Opener(events).Some? {
      var i := Opener(events).value;
      OpeningIsSaved(d, AcceptAll(d, driver, events).value, Draft(next, next.record.value), events[i].input, events[i + 1..]);
    }
  }

  /** Apart from the key, a submission leaves what its events left. */
  lemma AcceptedInputIsSaved(s: Setup, db: Db, driver: Driver, events: seq<InputEvent>, key: string)
    requires key !in db.accepted && Transact(s, db, Submit(driver, events, key)).Ok?
    ensures db.record.Some? && db.record.value.phase != Checkpointing
    ensures AcceptAll(Draft(db, db.record.value), driver, events).Ok?
    ensures var d, next := AcceptAll(Draft(db, db.record.value), driver, events).value, After(s, db, Submit(driver, events, key));
            && next.record == Some(d.record) && next.feed == d.db.feed && next.commands == d.db.commands
            && next.cancellations == d.db.cancellations
            && next.accepted == d.db.accepted[key := s.fingerprint(events)]
  {
  }

  lemma OpeningIsSaved(d: Draft, next: Draft, saved: Draft, input: seq<Message>, rest: seq<InputEvent>)
    requires Opens(d, next, input, rest) && saved.record == next.record && saved.db.feed == next.db.feed
    requires saved.db.commands == next.db.commands && saved.db.cancellations == next.db.cancellations
    ensures Opens(d, saved, input, rest)
  {
  }

  lemma NewKeysAreKept(s: Setup, db: Db, driver: Driver, events: seq<InputEvent>, key: string)
    requires WellShaped(db) && Mail(db) && key !in db.accepted && Transact(s, db, Submit(driver, events, key)).Ok?
    ensures After(s, db, Submit(driver, events, key)).accepted == db.accepted[key := s.fingerprint(events)]
  {
    AcceptedInputIsSaved(s, db, driver, events, key);
    InputsKeepQueues(Draft(db, db.record.value), driver, events);
  }

  /**
   New input accepted while a turn runs: each message is a steer of exactly that input and each tool result a
   command, behind all that was queued and in order, and all of it is listed; the turn itself goes on.
   */
  lemma RunningSessionsTakeInput(s: Setup, db: Db, driver: Driver, events: seq<InputEvent>, key: string)
    requires WellShaped(db) && Mail(db) && key !in db.accepted && FenceOf(db).Some?
    requires Transact(s, db, Submit(driver, events, key)).Ok?
    ensures var next := After(s, db, Submit(driver, events, key));
            && next.record.Some? && next.accepted == db.accepted[key := s.fingerprint(events)]
            && Joins(Draft(db, db.record.value), Draft(next, next.record.value), db.record.value.execution.value.turn, events)
  {
    var d := Draft(db, db.record.value);
    AcceptedInputIsSaved(s, db, driver, events, key);
    NewKeysAreKept(s, db, driver, events, key);
    InputsJoin(d, driver, events);
  }

  /** A message to a running turn is queued as a steer that knows the items it was listed as. */
  lemma SteersAreQueuedLast(s: Setup, db: Db, driver: Driver, input: seq<Message>, key: string)
    requires WellShaped(db) && Mail(db) && key !in db.accepted && FenceOf(db).Some?
    requires Transact(s, db, Submit(driver, [UserMessage(input)], key)).Ok?
    ensures var next, turn := After(s, db, Submit(driver, [UserMessage(input)], key)), FenceOf(db).value.turn;
            && next.commands != [] && next.commands[..|next.commands| - 1] == db.commands
            && (var last := next.commands[|next.commands| - 1].value;
                last.turn == turn && last.control == Steer(input) && Kept(next.feed, turn, input, last.items))
            && next.record == db.record
  {
    var d := Draft(db, db.record.value);
    AcceptedInputIsSaved(s, db, driver, [UserMessage(input)], key);
    A.ResultAlone(d, driver, UserMessage(input));
    MessageJoins(d, driver, input);
  }

  // --- What is accepted ---------------------------------------------------------------------------------------

  /** Whether a driver takes this event, given whether a turn runs and what it asks for. */
  ghost predicate TakesOne(driver: Driver, running: bool, actions: seq<Action>, event: InputEvent) {
    match event
    case UserMessage(input) => (driver.images || forall m | m in input :: !m.image) && (running ==> driver.steer)
    case UserCancel => true
    case UserTool(turn, call, _, image, _) => (driver.images || !image) && running && Action(turn, call) in actions
  }

  ghost predicate Takes(driver: Driver, running: bool, actions: seq<Action>, events: seq<InputEvent>)
    decreases |events|
  {
    events == [] ||
    (TakesOne(driver, running, actions, events[0])
     && Takes(driver, running || events[0].UserMessage?, A.Answered(actions, events[0]), events[1..]))
  }

  lemma {:induction false} TakenIff(d: Draft, driver: Driver, events: seq<InputEvent>)
    requires A.Grounded(d.record.actions, d.db.turns) && (d.record.actions != [] ==> d.record.execution.Some?)
    ensures AcceptAll(d, driver, events).Ok? <==> Takes(driver, d.record.execution.Some?, d.record.actions, events)
    decreases |events|
  {
    if events != [] {
      EventTakenIff(d, driver, events[0]);
      if AcceptEvent(d, driver, events[0]).Ok? {
        A.InputAnswers(d, driver, events[0]);
        TakenIff(AcceptEvent(d, driver, events[0]).value, driver, events[1..]);
      }
    }
  }

  lemma EventTakenIff(d: Draft, driver: Driver, event: InputEvent)
    requires A.Grounded(d.record.actions, d.db.turns)
    ensures AcceptEvent(d, driver, event).Ok? <==> TakesOne(driver, d.record.execution.Some?, d.record.actions, event)
    ensures AcceptEvent(d, driver, event).Ok? ==>
              (AcceptEvent(d, driver, event).value.record.execution.Some? <==> d.record.execution.Some? || event.UserMessage?)
  {
    if event.UserTool? { A.WithoutDrops(d.record.actions, Action(event.turn, event.call)); }
  }

  /**
   A session that is there takes submitted input if and only if it has taken the same input under that key, or
   the key is new, the session has not failed and is not about to complete, and its driver takes the events: no
   image it cannot see, no message to a running turn it cannot steer, and no result nobody asked for.
   */
  lemma InputIsTakenIff(s: Setup, db: Db, driver: Driver, events: seq<InputEvent>, key: string)
    requires A.Regular(db) && Present(db)
    ensures Transact(s, db, Submit(driver, events, key)).Ok?
            <==> if key in db.accepted then db.accepted[key] == s.fingerprint(events)
                 else db.record.value.phase != Broken && db.record.value.phase != Checkpointing
                      && Takes(driver, db.record.value.execution.Some?, db.record.value.actions, events)
  {
    TakenIff(Draft(db, db.record.value), driver, events);
  }
}
