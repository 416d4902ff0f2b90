/**
 The listing shows what was streamed: every item is stored in the partition of its turn exactly as
 at its output position, as long as the runtime attributes each turn's items to the turn's own
 subagent. An item attributed elsewhere is closed in a different partition from the one it was
 stored in, and stays in progress in the listing for ever.
 */
module SessionItems {
  import opened Options
  import opened Tables
  import opened SessionStore
  import opened SessionEvents
  import opened SessionState
  import opened SessionFeeds
  import opened SessionRuns
  import opened SessionShape
  import opened SessionInputs
  import opened SessionOutputs
  import J = JobStates
  import SessionTurns
  import SessionUsage

  /** Whose each turn is; the session's own turns are nobody's. */
  type Owners = Id -> Option<Id>

  ghost predicate OwnRoots(owner: Owners) { forall n: nat :: owner(Minted(n)) == None }

  predicate Attributed(event: RuntimeEvent, root: Id, owner: Owners) {
    match event
    case SubagentTurn(id, subagent, _) => owner(id) == Some(subagent)
    case Output(_, scope, _) => scope.subagent == owner(Named(scope.turn, root))
    case _ => true
  }

  ghost predicate AttributedStep(step: Step, owner: Owners) {
    step.Poll? ==> forall e | e in step.entries :: Attributed(e.event, step.fence.turn, owner)
  }

  function StoredCopy(feed: Feed, owner: Option<Id>, id: Id): Option<Item> { Get(feed.items, ItemKey(owner, id)) }

  ghost predicate Mirrored(feed: Feed, owner: Owners) {
    forall r | r in feed.outputs :: StoredCopy(feed, owner(r.key.turn), r.value.item.id) == Some(r.value.item)
  }

  ghost predicate Owned(t: Table<Id, Turn>, owner: Owners) {
    forall r | r in t :: r.value.id == r.key && r.value.subagent == owner(r.key)
  }

  function IdsIn(outputs: Table<OutputKey, Position>): set<Id> { set r | r in outputs :: r.value.item.id }

  /** The input items of queued steers are not output items. */
  ghost predicate Apart(db: Db) {
    forall r | r in db.commands :: forall id | id in r.value.items ::
      id.Minted? && id.n < db.feed.minted && id !in IdsIn(db.feed.outputs)
  }

  ghost predicate Itemized(db: Db, owner: Owners) {
    Placed(db.feed) && Mirrored(db.feed, owner) && Owned(db.turns, owner) && Owned(db.pending, owner) && Apart(db)
  }

  /** Output items of the later feed are those of the earlier one, or newly minted. */
  ghost predicate Extends(a: Feed, b: Feed) {
    b.minted >= a.minted && forall id | id in IdsIn(b.outputs) :: id in IdsIn(a.outputs) || (id.Minted? && id.n >= a.minted)
  }

  lemma FeedMoves(db: Db, next: Feed, owner: Owners)
    requires Itemized(db, owner) && Placed(next) && Mirrored(next, owner) && Extends(db.feed, next)
    ensures Itemized(db.(feed := next), owner)
  {
  }

  // --- The feed --------------------------------------------------------------------------------------------

  lemma StoringMirrors(feed: Feed, slot: Slot, item: Item, owner: Owners)
    requires Proper(feed) && Mirrored(feed, owner) && slot.owner == owner(slot.key.turn)
    requires Consistent(slot) && item.id == slot.id && item.turn == slot.key.turn
    requires slot.previous == Get(feed.outputs, slot.key)
    requires slot.previous.None? ==> slot.id == Minted(feed.minted)
    ensures Mirrored(Stored(feed, slot, item), owner)
    ensures forall id | id in IdsIn(Stored(feed, slot, item).outputs) :: id in IdsIn(feed.outputs) || id == item.id
    ensures slot.previous.Some? ==> item.id in IdsIn(feed.outputs)
  {
    var next, position := Stored(feed, slot, item), Position(slot.index, item);
    GetIn(feed.outputs, slot.key);
    forall r | r in next.outputs
      ensures StoredCopy(next, owner(r.key.turn), r.value.item.id) == Some(r.value.item)
      ensures r.value.item.id in IdsIn(feed.outputs) || r.value.item.id == item.id
    {
      PutMember(feed.outputs, slot.key, position, r);
      PutGet(feed.items, ItemKey(slot.owner, item.id), item, ItemKey(owner(r.key.turn), r.value.item.id));
    }
  }

  lemma WritingMirrors(feed: Feed, slot: Slot, next: Feed, first: Item, item: Item, more: seq<Event>, owner: Owners)
    requires Proper(feed) && Mirrored(feed, owner) && slot.owner == owner(slot.key.turn)
    requires Consistent(slot) && slot.previous == Get(feed.outputs, slot.key)
    requires slot.previous.None? ==> slot.id == Minted(feed.minted)
    requires Wrote(feed, slot, next, first, item, more)
    ensures Mirrored(next, owner) && Extends(feed, next)
  {
    StoringMirrors(feed, slot, item, owner);
    var stored := Stored(feed, slot, item);
    assert next.items == stored.items && next.outputs == stored.outputs;
  }

  lemma BodyMirrors(feed: Feed, key: OutputKey, body: Body, owner: Owners)
    requires Proper(feed) && Mirrored(feed, owner)
    ensures var next := AcceptBody(feed, Resolve(feed, key, owner(key.turn)), body);
            Mirrored(next, owner) && Extends(feed, next)
  {
    var slot := Resolve(feed, key, owner(key.turn));
    ResolvedSlot(feed, key, owner(key.turn));
    var first, item, more := BodyWrites(feed, slot, body);
    WritingMirrors(feed, slot, AcceptBody(feed, slot, body), first, item, more, owner);
  }

  lemma FinishItemMirrors(feed: Feed, row: Row<OutputKey, Position>, owner: Owners)
    requires Placed(feed) && Mirrored(feed, owner) && row in feed.outputs
    ensures var next := FinishItem(feed, row, owner(row.key.turn)); Mirrored(next, owner) && Extends(feed, next)
  {
    if row.value.item.status == Open {
      var more := FinishItemWrites(feed, row, owner(row.key.turn));
      InGet(feed.outputs, row);
      StoringMirrors(feed, ClosingSlot(row, owner(row.key.turn)), row.value.item.(status := Incomplete), owner);
    }
  }

  lemma {:induction false} FinishRowsMirrors(feed: Feed, rows: Table<OutputKey, Position>, turn: Id, owner: Owners)
    requires Placed(feed) && Mirrored(feed, owner) && StillThere(rows, feed)
    requires forall r | r in rows :: r.key.turn == turn
    ensures var next := FinishRows(feed, rows, owner(turn)); Mirrored(next, owner) && Extends(feed, next)
    decreases |rows|
  {
    if rows != [] {
      assert rows[0] in rows;
      VisitingLeavesTheRest(feed, rows, owner(turn));
      FinishItemKeepsPlaces(feed, rows[0], owner(turn));
      FinishItemMirrors(feed, rows[0], owner);
      FinishRowsMirrors(FinishItem(feed, rows[0], owner(turn)), rows[1..], turn, owner);
    }
  }

  lemma FinishItemsMirrors(feed: Feed, turn: Id, owner: Owners)
    requires Placed(feed) && Mirrored(feed, owner)
    ensures var next := FinishItems(feed, turn, owner(turn));
            Placed(next) && Mirrored(next, owner) && Extends(feed, next)
  {
    var rows := OfTurn(feed.outputs, turn);
    TurnRowsAreThere(feed, turn);
    forall r | r in rows ensures r.key.turn == turn { TurnRows(feed.outputs, turn, r); }
    FinishRowsMirrors(feed, rows, turn, owner);
    FinishItemsCloses(feed, turn, owner(turn), OutputKey(turn, ""));
  }

  /** An item added outside the positions takes a new identifier, so it replaces no stored copy. */
  lemma AddItemMirrors(feed: Feed, partition: Option<Id>, turn: Id, status: ItemStatus, content: Content, owner: Owners)
    requires Placed(feed) && Mirrored(feed, owner)
    ensures var next := AddItem(feed, partition, turn, status, content);
            Placed(next) && Mirrored(next, owner) && Extends(feed, next)
  {
    AddItemKeepsPlaces(feed, partition, turn, status, content);
    var next := AddItem(feed, partition, turn, status, content);
    var item := Item(Minted(feed.minted), turn, status, content);
    forall r | r in next.outputs ensures StoredCopy(next, owner(r.key.turn), r.value.item.id) == Some(r.value.item) {
      PutGet(feed.items, ItemKey(partition, item.id), item, ItemKey(owner(r.key.turn), r.value.item.id));
    }
  }

  lemma {:induction false} AddInputMirrors(feed: Feed, turn: Id, input: seq<Message>, owner: Owners)
    requires Placed(feed) && Mirrored(feed, owner)
    ensures var (next, ids) := AddInput(feed, turn, input);
            && Placed(next) && Mirrored(next, owner) && Extends(feed, next) && next.outputs == feed.outputs
            && forall id | id in ids :: id.Minted? && feed.minted <= id.n < next.minted
    decreases |input|
  {
    if input != [] {
      AddItemMirrors(feed, None, turn, Done, Input(input[0]), owner);
      var added := AddItem(feed, None, turn, Done, Input(input[0]));
      AddInputMirrors(added, turn, input[1..], owner);
      AddInputMints(added, turn, input[1..]);
    }
  }

  lemma {:induction false} UnlistedKeepsOthers(items: Table<ItemKey, Item>, ids: seq<Id>, key: ItemKey)
    requires key.id !in ids
    ensures Get(Unlisted(items, ids), key) == Get(items, key)
    decreases |ids|
  {
    if ids != [] {
      RemoveGet(items, ItemKey(None, ids[0]), key);
      UnlistedKeepsOthers(Remove(items, ItemKey(None, ids[0])), ids[1..], key);
    }
  }

  // --- Transitions ----------------------------------------------------------------------------------------

  lemma PutKeepsOwned(t: Table<Id, Turn>, turn: Turn, owner: Owners)
    requires Owned(t, owner) && turn.subagent == owner(turn.id)
    ensures Owned(Put(t, turn.id, turn), owner)
  {
    forall r | r in Put(t, turn.id, turn) ensures r.value.id == r.key && r.value.subagent == owner(r.key) {
      PutFrom(t, turn.id, turn, r);
    }
  }

  lemma EmittingKeepsItems(db: Db, e: Event, owner: Owners)
    requires Itemized(db, owner) && !e.ItemAdded?
    ensures Itemized(Emit(db, e), owner)
  {
    EmittingKeepsPlaces(db.feed, e);
    FeedMoves(db, Logged(db.feed, e), owner);
  }

  lemma FinishingKeepsItems(db: Db, turn: Id, owner: Owners)
    requires Itemized(db, owner)
    ensures Itemized(db.(feed := FinishItems(db.feed, turn, owner(turn))), owner)
  {
    FinishItemsMirrors(db.feed, turn, owner);
    FeedMoves(db, FinishItems(db.feed, turn, owner(turn)), owner);
  }

  lemma ChildTurnKeepsItems(db: Db, id: Id, subagent: Id, status: TurnStatus, owner: Owners)
    requires Itemized(db, owner) && owner(id) == Some(subagent) && AcceptSubagentTurn(db, id, subagent, status).Ok?
    ensures Itemized(AcceptSubagentTurn(db, id, subagent, status).value, owner)
  {
    var previous := Get(db.turns, id);
    var turn := Turn(id, Some(subagent), status, None, if previous.Some? then previous.value.usage else None);
    if status == Completed {
      PutKeepsOwned(db.pending, turn, owner);
      PutKeepsOwned(db.turns, turn.(status := InProgress), owner);
    } else {
      PutKeepsOwned(db.turns, turn, owner);
      var stored := PutTurn(db, turn);
      EmittingKeepsItems(stored, TurnCreated(turn), owner);
      var created := if previous.None? then Emit(stored, TurnCreated(turn)) else stored;
      EmittingKeepsItems(created, TurnStarted(turn), owner);
      FinishingKeepsItems(created, id, owner);
      EmittingKeepsItems(created.(feed := FinishItems(created.feed, id, Some(subagent))), TurnEnded(status, turn), owner);
    }
  }

  lemma UsageKeepsItems(d: Draft, id: Id, usage: Usage, owner: Owners)
    requires Itemized(d.db, owner) && AcceptUsage(d, id, usage).Ok?
    ensures Itemized(AcceptUsage(d, id, usage).value.db, owner)
  {
    GetIn(d.db.turns, id);
    GetIn(d.db.pending, id);
    PutKeepsOwned(d.db.turns, Get(d.db.turns, id).value.(usage := Some(usage)), owner);
    if Has(d.db.pending, id) {
      PutKeepsOwned(d.db.pending, Get(d.db.pending, id).value.(usage := Some(usage)), owner);
    }
  }

  lemma CallKeepsItems(d: Draft, id: Id, call: string, owner: Owners)
    requires Itemized(d.db, owner) && AcceptCall(d, id, call).Ok?
    ensures Itemized(AcceptCall(d, id, call).value.db, owner)
  {
    GetIn(d.db.turns, id);
    var turn := Get(d.db.turns, id).value.(status := Waiting);
    PutKeepsOwned(d.db.turns, turn, owner);
    EmittingKeepsItems(d.db.(turns := Put(d.db.turns, id, turn)), SessionLogged(RequiresAction), owner);
  }

  lemma OutputKeepsItems(d: Draft, key: OutputKey, body: Body, owner: Owners)
    requires Itemized(d.db, owner) && AcceptOutput(d, key, owner(key.turn), body).Ok?
    ensures Itemized(AcceptOutput(d, key, owner(key.turn), body).value.db, owner)
  {
    var next := AcceptBody(d.db.feed, Resolve(d.db.feed, key, owner(key.turn)), body);
    BodyKeepsPlaces(d.db.feed, key, owner(key.turn), body);
    BodyMirrors(d.db.feed, key, body, owner);
    FeedMoves(d.db, next, owner);
    if body.FunctionCall? { CallKeepsItems(d.(db := d.db.(feed := next)), key.turn, body.call, owner); }
  }

  lemma EventKeepsItems(d: Draft, root: Id, event: RuntimeEvent, owner: Owners)
    requires Itemized(d.db, owner) && Attributed(event, root, owner) && Accept(d, root, event).Ok?
    ensures Itemized(Accept(d, root, event).value.db, owner)
  {
    match event
    case SubagentReported(id, closed) =>
      EmittingKeepsItems(d.db.(subagents := d.db.subagents[id := closed]),
                         SubagentLogged(id, id in d.db.subagents && closed), owner);
    case SubagentTurn(id, subagent, status) => ChildTurnKeepsItems(d.db, id, subagent, status, owner);
    case UsageReported(turn, usage) => UsageKeepsItems(d, Named(turn, root), usage, owner);
    case Output(native, scope, body) => OutputKeepsItems(d, OutputKey(Named(scope.turn, root), native), body, owner);
  }

  lemma {:induction false} EntriesKeepItems(d: Draft, root: Id, entries: seq<J.Stamped>, owner: Owners)
    requires Itemized(d.db, owner) && AcceptEntries(d, root, entries).Ok?
    requires forall e | e in entries :: Attributed(e.event, root, owner)
    ensures Itemized(AcceptEntries(d, root, entries).value.db, owner)
    decreases |entries|
  {
    if entries != [] {
      assert entries[0] in entries;
      forall e | e in entries[1..] ensures Attributed(e.event, root, owner) { assert e in entries; }
      if entries[0].at > d.record.cursor {
        EventKeepsItems(d, root, entries[0].event, owner);
        var next := Accept(d, root, entries[0].event).value;
        EntriesKeepItems(next.(record := next.record.(cursor := entries[0].at)), root, entries[1..], owner);
      } else {
        EntriesKeepItems(d, root, entries[1..], owner);
      }
    }
  }

  ghost predicate ChildrenOwned(children: seq<Turn>, owner: Owners) {
    forall c | c in children :: c.subagent == owner(c.id)
  }

  lemma OpenChildrenAreOwned(db: Db, outcome: TurnStatus, owner: Owners)
    requires Owned(db.turns, owner) && Owned(db.pending, owner)
    ensures ChildrenOwned(OpenChildren(db, outcome), owner)
  {
    if outcome == Completed {
      forall c | c in RowsOf(db.pending) ensures c.subagent == owner(c.id) {
        SessionTurns.RowsOfHasNoOther(db.pending, c);
      }
    } else {
      forall c | c in OpenChildren(db, outcome) ensures c.subagent == owner(c.id) {
        SessionUsage.ChildrenAreRows(db.turns, if c in ChildrenAt(db.turns, InProgress) then InProgress else Waiting, c);
      }
    }
  }

  lemma {:induction false} ChildrenKeepItems(
      db: Db, children: seq<Turn>, outcome: TurnStatus, error: Option<TurnError>, owner: Owners)
    requires Itemized(db, owner) && ChildrenOwned(children, owner)
    ensures Itemized(CloseChildren(db, children, outcome, error), owner)
    decreases |children|
  {
    if children != [] {
      var c := children[0];
      assert c in children;
      var closed := if outcome == Completed then c else c.(status := outcome, error := error);
      PutKeepsOwned(db.turns, closed, owner);
      var stored := PutTurn(db, closed);
      FinishingKeepsItems(stored, c.id, owner);
      var finished := stored.(feed := FinishItems(stored.feed, c.id, c.subagent));
      EmittingKeepsItems(finished, TurnEnded(outcome, closed), owner);
      forall k | k in children[1..] ensures k.subagent == owner(k.id) { assert k in children; }
      ChildrenKeepItems(CloseChild(db, c, outcome, error), children[1..], outcome, error, owner);
    }
  }

  lemma SealKeepsItems(db: Db, record: Record, outcome: TurnStatus, error: Option<string>, owner: Owners)
    requires Itemized(db, owner) && record.execution.Some? && owner(record.execution.value.turn) == None
    requires Sealed(db, record, outcome, error).Ok?
    ensures Itemized(Sealed(db, record, outcome, error).value.db, owner)
  {
    var children, failure := OpenChildren(db, outcome), TurnErrorOf(error);
    OpenChildrenAreOwned(db, outcome, owner);
    ChildrenKeepItems(db, children, outcome, failure, owner);
    var closed := CloseChildren(db, children, outcome, failure).(pending := []);
    var root := record.execution.value.turn;
    GetIn(closed.turns, root);
    var turn := Get(closed.turns, root).value.(status := outcome, error := failure);
    PutKeepsOwned(closed.turns, turn, owner);
    var stored := PutTurn(closed, turn);
    FinishingKeepsItems(stored, root, owner);
    var finished := stored.(feed := FinishItems(stored.feed, root, None), commands := [], cancellations := map[]);
    var next := SealedRecord(record, outcome, error);
    EmittingKeepsItems(finished.(record := Some(next)), TurnEnded(outcome, turn), owner);
    EmittingKeepsItems(Emit(finished.(record := Some(next)), TurnEnded(outcome, turn)), SessionLogged(next.status), owner);
  }

  lemma BeginKeepsItems(db: Db, record: Record, input: seq<Message>, owner: Owners)
    requires Itemized(db, owner) && OwnRoots(owner)
    ensures Itemized(Begin(db, record, input).db, owner)
  {
    var turn := Turn(Minted(db.feed.minted), None, Queued, None, None);
    var feed := db.feed.(minted := db.feed.minted + 1);
    MovedOnStaysPlaced(db.feed, feed);
    FeedMoves(db, feed, owner);
    PutKeepsOwned(db.turns, turn, owner);
    var stored := PutTurn(db.(feed := feed), turn);
    EmittingKeepsItems(stored, TurnCreated(turn), owner);
    EmittingKeepsItems(Emit(stored, TurnCreated(turn)), SessionLogged(Working), owner);
  }

  lemma CompleteKeepsItems(s: Setup, db: Db, record: Record, outcome: TurnStatus, error: Option<string>, owner: Owners)
    requires Itemized(db, owner) && OwnRoots(owner)
    requires record.execution.Some? && owner(record.execution.value.turn) == None
    requires Complete(s, db, record, outcome, error).Ok?
    ensures Itemized(Complete(s, db, record, outcome, error).value, owner)
  {
    SealKeepsItems(db, record, outcome, error, owner);
    var d := Sealed(db, record, outcome, error).value;
    var cleared := d.db.(refused := []);
    var input := Joined(d.db.refused[..PageOfRefused(s, d.db.refused)]);
    BeginKeepsItems(cleared, d.record, input, owner);
    var started := Begin(cleared, d.record, input);
    AddInputMirrors(started.db.feed, started.record.execution.value.turn, input, owner);
    FeedMoves(started.db, AddInput(started.db.feed, started.record.execution.value.turn, input).0, owner);
  }

  lemma QueueingKeepsItems(db: Db, turn: Id, control: Control, items: seq<Id>, owner: Owners)
    requires Itemized(db, owner)
    requires forall id | id in items :: id.Minted? && id.n < db.feed.minted && id !in IdsIn(db.feed.outputs)
    ensures Itemized(Enqueue(db, turn, control, items), owner)
  {
    var next := Enqueue(db, turn, control, items);
    MovedOnStaysPlaced(db.feed, next.feed);
    var operation := Operation(Minted(db.feed.minted), turn, control, items);
    forall r | r in next.commands
      ensures forall id | id in r.value.items :: id.Minted? && id.n < next.feed.minted && id !in IdsIn(next.feed.outputs)
    {
      if next.commands != db.commands { PutFrom(db.commands, operation.id, operation, r); }
    }
  }

  lemma OutputIdsAreMinted(feed: Feed, id: Id)
    requires Proper(feed) && id in IdsIn(feed.outputs)
    ensures id.Minted? && id.n < feed.minted
  {
  }

  lemma MessageKeepsItems(d: Draft, driver: Driver, input: seq<Message>, owner: Owners)
    requires Itemized(d.db, owner) && OwnRoots(owner) && AcceptMessage(d, driver, input).Ok?
    ensures Itemized(AcceptMessage(d, driver, input).value.db, owner)
  {
    if d.record.execution.Some? {
      var turn := d.record.execution.value.turn;
      var (feed, ids) := AddInput(d.db.feed, turn, input);
      AddInputMirrors(d.db.feed, turn, input, owner);
      FeedMoves(d.db, feed, owner);
      forall id | id in ids ensures id !in IdsIn(feed.outputs) {
        if id in IdsIn(d.db.feed.outputs) { OutputIdsAreMinted(d.db.feed, id); }
      }
      QueueingKeepsItems(d.db.(feed := feed), turn, Steer(input), ids, owner);
    } else {
      BeginKeepsItems(d.db, d.record, input, owner);
      var started := Begin(d.db, d.record, input);
      AddInputMirrors(started.db.feed, started.record.execution.value.turn, input, owner);
      FeedMoves(started.db, AddInput(started.db.feed, started.record.execution.value.turn, input).0, owner);
    }
  }

  lemma ToolKeepsItems(d: Draft, driver: Driver, event: InputEvent, owner: Owners)
    requires event.UserTool? && Itemized(d.db, owner) && AcceptTool(d, driver, event).Ok?
    ensures Itemized(AcceptTool(d, driver, event).value.db, owner)
  {
    GetIn(d.db.turns, event.turn);
    var turn := Get(d.db.turns, event.turn).value;
    var status := if event.success then Done else Bad;
    var feed := AddItem(d.db.feed, turn.subagent, event.turn, status, Answer(event.call, event.output));
    AddItemMirrors(d.db.feed, turn.subagent, event.turn, status, Answer(event.call, event.output), owner);
    FeedMoves(d.db, feed, owner);
    var control := ToolResult(event.call, event.success, event.output);
    QueueingKeepsItems(d.db.(feed := feed), d.record.execution.value.turn, control, [], owner);
    var queued := Enqueue(d.db.(feed := feed), d.record.execution.value.turn, control, []);
    PutKeepsOwned(queued.turns, turn.(status := InProgress), owner);
    EmittingKeepsItems(PutTurn(queued, turn.(status := InProgress)), SessionLogged(Working), owner);
  }

  lemma {:induction false} InputsKeepItems(d: Draft, driver: Driver, events: seq<InputEvent>, owner: Owners)
    requires Itemized(d.db, owner) && OwnRoots(owner) && AcceptAll(d, driver, events).Ok?
    ensures Itemized(AcceptAll(d, driver, events).value.db, owner)
    decreases |events|
  {
    if events != [] {
      match events[0] {
        case UserMessage(input) => MessageKeepsItems(d, driver, input, owner);
        case UserCancel =>
          if d.record.execution.Some? { QueueingKeepsItems(d.db, d.record.execution.value.turn, Cancel, [], owner); }
        case UserTool(_, _, _, _, _) => ToolKeepsItems(d, driver, events[0], owner);
      }
      InputsKeepItems(AcceptEvent(d, driver, events[0]).value, driver, events[1..], owner);
    }
  }

  lemma DiscardingKeepsItems(db: Db, operation: Operation, owner: Owners)
    requires Itemized(db, owner)
    ensures Itemized(Discard(db, operation), owner)
  {
    forall r | r in Discard(db, operation).commands ensures r in db.commands {
      RemoveMember(db.commands, operation.id, r);
    }
  }

  lemma RejectingKeepsItems(db: Db, operation: Operation, owner: Owners)
    requires Itemized(db, owner) && Row(operation.id, operation) in db.commands
    ensures Itemized(Reject(db, operation), owner)
  {
    DiscardingKeepsItems(db, operation, owner);
    if operation.control.Steer? {
      var next := db.feed.(items := Unlisted(db.feed.items, operation.items));
      MovedOnStaysPlaced(db.feed, next);
      forall r | r in next.outputs ensures StoredCopy(next, owner(r.key.turn), r.value.item.id) == Some(r.value.item) {
        assert r.value.item.id in IdsIn(db.feed.outputs);
        UnlistedKeepsOthers(db.feed.items, operation.items, ItemKey(owner(r.key.turn), r.value.item.id));
      }
      FeedMoves(Discard(db, operation), next, owner);
    }
  }

  lemma StartKeepsItems(db: Db, record: Record, owner: Owners)
    requires Itemized(db, owner) && record.execution.Some? && MarkRunning(db, record).Ok?
    ensures Itemized(MarkRunning(db, record).value, owner)
  {
    var id := record.execution.value.turn;
    GetIn(db.turns, id);
    var turn := Get(db.turns, id).value.(status := InProgress);
    PutKeepsOwned(db.turns, turn, owner);
    EmittingKeepsItems(PutTurn(db.(record := Some(record.(phase := Running))), turn), TurnStarted(turn), owner);
  }

  /** The turns a session runs are its own. */
  ghost predicate RootsRun(db: Db, owner: Owners) {
    db.record.Some? && db.record.value.execution.Some? ==> owner(db.record.value.execution.value.turn) == None
  }

  lemma FencedStepKeepsItems(s: Setup, db: Db, record: Record, step: Step, owner: Owners)
    requires IsFenced(step) && Itemized(db, owner) && OwnRoots(owner) && RootsRun(db, owner)
    requires Driven(db, step) && AttributedStep(step, owner)
    requires Fenced(db, step.fence) == Ok(record) && Reconcile(s, db, record, step).Ok?
    ensures Itemized(Reconcile(s, db, record, step).value, owner)
  {
    match step
    case Start(_) => StartKeepsItems(db, record, owner);
    case Poll(fence, entries, _, _) => EntriesKeepItems(Draft(db, record), fence.turn, entries, owner);
    case Commit(_, checkpoint) =>
      CompleteKeepsItems(s, db, record.(checkpoint := Some(checkpoint)), Completed, None, owner);
    case Seal(_, outcome, error) => CompleteKeepsItems(s, db, record, outcome, error, owner);
    case Deliver(_, operation) => DiscardingKeepsItems(db, operation, owner);
    case Refuse(_, operation) => RejectingKeepsItems(db, operation, owner);
  }

  lemma SubmissionKeepsItems(s: Setup, db: Db, driver: Driver, events: seq<InputEvent>, key: string, owner: Owners)
    requires Itemized(db, owner) && OwnRoots(owner) && RootsRun(db, owner) && AcceptInput(s, db, driver, events, key).Ok?
    ensures Itemized(AcceptInput(s, db, driver, events, key).value, owner)
  {
    if key !in db.accepted { InputsKeepItems(Draft(db, db.record.value), driver, events, owner); }
  }

  lemma ClientStepKeepsItems(s: Setup, db: Db, step: Step, owner: Owners)
    requires Itemized(db, owner) && OwnRoots(owner) && RootsRun(db, owner)
    requires !IsFenced(step) && Transact(s, db, step).Ok?
    ensures Itemized(Transact(s, db, step).value, owner)
  {
    match step
    case Submit(driver, events, key) => SubmissionKeepsItems(s, db, driver, events, key, owner);
    case Report(status) =>
      EmittingKeepsItems(db.(environment := Some(status)), EnvironmentLogged(status), owner);
      EmittingKeepsItems(Emit(db.(environment := Some(status)), EnvironmentLogged(status)), SessionLogged(Faulted), owner);
    case Delete =>
    case Drop => EmptyIsPlaced(db.feed.minted);
  }

  lemma StepKeepsItems(s: Setup, db: Db, step: Step, owner: Owners)
    requires Itemized(db, owner) && OwnRoots(owner) && RootsRun(db, owner)
    requires Driven(db, step) && AttributedStep(step, owner)
    ensures Itemized(After(s, db, step), owner)
  {
    if Transact(s, db, step).Ok? {
      if IsFenced(step) {
        FencedStepKeepsItems(s, db, db.record.value, step, owner);
      } else {
        ClientStepKeepsItems(s, db, step, owner);
      }
    }
  }

  // --- The session's turns are its own ---------------------------------------------------------------------

  predicate RunsOwn(record: Record, owner: Owners) {
    record.execution.Some? ==> owner(record.execution.value.turn) == None
  }

  lemma {:induction false} InputsRunOwn(d: Draft, driver: Driver, events: seq<InputEvent>, owner: Owners)
    requires OwnRoots(owner) && RunsOwn(d.record, owner) && AcceptAll(d, driver, events).Ok?
    ensures RunsOwn(AcceptAll(d, driver, events).value.record, owner)
    decreases |events|
  {
    if events != [] { InputsRunOwn(AcceptEvent(d, driver, events[0]).value, driver, events[1..], owner); }
  }

  lemma RestartRunsOwn(db: Db, record: Record, input: seq<Message>, owner: Owners)
    requires OwnRoots(owner)
    ensures RootsRun(Restarted(db, record, input), owner)
  {
  }

  lemma CompleteRunsOwn(s: Setup, db: Db, record: Record, outcome: TurnStatus, error: Option<string>, owner: Owners)
    requires OwnRoots(owner) && record.execution.Some? && Complete(s, db, record, outcome, error).Ok?
    ensures RootsRun(Complete(s, db, record, outcome, error).value, owner)
  {
    SealedIsSaved(db, record, outcome, error);
    var d := Sealed(db, record, outcome, error).value;
    RestartRunsOwn(d.db.(refused := []), d.record, Joined(d.db.refused[..PageOfRefused(s, d.db.refused)]), owner);
  }

  lemma StepRunsOwn(s: Setup, db: Db, step: Step, owner: Owners)
    requires WellShaped(db) && OwnRoots(owner) && RootsRun(db, owner)
    ensures RootsRun(After(s, db, step), owner)
  {
    if Transact(s, db, step).Ok? {
      match step
      case Submit(driver, events, key) =>
        if key !in db.accepted { InputsRunOwn(Draft(db, db.record.value), driver, events, owner); }
      case Poll(_, entries, _, _) =>
        EntriesKeepShape(Draft(db, db.record.value), db.record.value.execution.value.turn, entries);
      case Commit(_, checkpoint) =>
        CompleteRunsOwn(s, db, db.record.value.(checkpoint := Some(checkpoint)), Completed, None, owner);
      case Seal(_, outcome, error) => CompleteRunsOwn(s, db, db.record.value, outcome, error, owner);
      case _ =>
    }
  }

  // --- Every run ---------------------------------------------------------------------------------------------

  lemma {:induction false} RunKeepsItems(s: Setup, db: Db, steps: seq<Step>, owner: Owners)
    requires WellShaped(db) && Itemized(db, owner) && OwnRoots(owner) && RootsRun(db, owner)
    requires AllDriven(s, db, steps) && forall step | step in steps :: AttributedStep(step, owner)
    ensures Itemized(Run(s, db, steps), owner)
    decreases |steps|
  {
    if steps != [] {
      assert steps[0] in steps;
      StepKeepsShape(s, db, steps[0]);
      StepKeepsItems(s, db, steps[0], owner);
      StepRunsOwn(s, db, steps[0], owner);
      forall step | step in steps[1..] ensures AttributedStep(step, owner) { assert step in steps; }
      RunKeepsItems(s, After(s, db, steps[0]), steps[1..], owner);
    }
  }

  /**
   On every driven run in which the runtime attributes each turn to one owner: the stored copy of
   every output item is the item at its position, so the listing shows what was streamed.
   */
  lemma ListingShowsWhatWasStreamed(s: Setup, driver: string, revision: string, sandboxed: bool, transcript: Option<string>,
                                    checkpoint: Option<Checkpoint>, steps: seq<Step>, owner: Owners,
                                    r: Row<OutputKey, Position>)
    requires OwnRoots(owner) && forall step | step in steps :: AttributedStep(step, owner)
    requires AllDriven(s, Created(driver, revision, sandboxed, transcript, checkpoint), steps)
    requires r in Run(s, Created(driver, revision, sandboxed, transcript, checkpoint), steps).feed.outputs
    ensures var feed := Run(s, Created(driver, revision, sandboxed, transcript, checkpoint), steps).feed;
            StoredCopy(feed, owner(r.key.turn), r.value.item.id) == Some(r.value.item)
  {
    EmptyIsPlaced(0);
    RunKeepsItems(s, Created(driver, revision, sandboxed, transcript, checkpoint), steps, owner);
  }

  /** Closing an item reaches the copy it was stored as exactly when it closes it in the same partition. */
  lemma CloseReachesTheCopyIff(feed: Feed, row: Row<OutputKey, Position>, kept: Option<Id>, closing: Option<Id>)
    requires row.value.item.status == Open && StoredCopy(feed, kept, row.value.item.id) == Some(row.value.item)
    ensures var next := FinishItem(feed, row, closing); var copy := StoredCopy(next, kept, row.value.item.id);
            && copy == Some(if closing == kept then row.value.item.(status := Incomplete) else row.value.item)
            && (copy.value.status == Incomplete <==> closing == kept)
  {
    var more := FinishItemWrites(feed, row, closing);
    var closed := row.value.item.(status := Incomplete);
    PutGet(feed.items, ItemKey(closing, closed.id), closed, ItemKey(kept, closed.id));
  }
}
