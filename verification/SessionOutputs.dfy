/**
 Output positions. For each turn the positions handed out are exactly 0, 1, 2, ... in order, each
 announced by one event and held by one item; and a sealed turn leaves none of its items open.
 */
module SessionOutputs {
  import opened Options
  import opened Tables
  import opened SessionStore
  import opened SessionEvents
  import opened SessionState
  import opened SessionFeeds
  import opened SessionRuns
  import opened SessionShape
  import J = JobStates
  import SessionTurns

  /** An output position and the item that holds it. */
  datatype Place = Place(index: nat, id: Id)

  /** The positions of one turn's items, in stored order. */
  function Places(outputs: Table<OutputKey, Position>, turn: Id): seq<Place> {
    if outputs == [] then []
    else
      (if outputs[0].key.turn == turn then [Place(outputs[0].value.index, outputs[0].value.item.id)] else [])
      + Places(outputs[1..], turn)
  }

  predicate Announces(e: Event, turn: Id) { e.ItemAdded? && e.owner == turn && e.position.Some? }

  /** The positions announced for one turn, in log order. */
  function Announced(log: seq<Event>, turn: Id): seq<Place>
    decreases |log|
  {
    if log == [] then []
    else
      var e := log[|log| - 1];
      Announced(log[..|log| - 1], turn) + if Announces(e, turn) then [Place(e.position.value, e.item.id)] else []
  }

  function CountOf(feed: Feed, turn: Id): nat { if turn in feed.counts then feed.counts[turn] else 0 }

  ghost predicate Numbered(places: seq<Place>, count: nat) {
    |places| == count && forall k | 0 <= k < count :: places[k].index == k
  }

  ghost predicate Proper(feed: Feed) {
    && Distinct(feed.outputs)
    && (forall r | r in feed.outputs :: r.value.item.turn == r.key.turn
                                        && r.value.item.id.Minted? && r.value.item.id.n < feed.minted)
    && (forall r, q | r in feed.outputs && q in feed.outputs && r.value.item.id == q.value.item.id :: r == q)
  }

  /** The announced positions of a turn are its items' positions, numbered from zero. */
  ghost predicate PlacedAt(feed: Feed, turn: Id) {
    && Announced(feed.log, turn) == Places(feed.outputs, turn)
    && Numbered(Places(feed.outputs, turn), CountOf(feed, turn))
  }

  ghost predicate Placed(feed: Feed) { Proper(feed) && forall turn: Id :: PlacedAt(feed, turn) }

  // --- How tables and logs of positions grow ------------------------------------------------------------

  lemma AnnouncedLogged(log: seq<Event>, e: Event, turn: Id)
    ensures Announced(log + [e], turn)
            == Announced(log, turn) + if Announces(e, turn) then [Place(e.position.value, e.item.id)] else []
  {
    assert (log + [e])[..|log|] == log;
  }

  lemma {:induction false} SilentEvents(log: seq<Event>, more: seq<Event>, turn: Id)
    requires forall e | e in more :: !Announces(e, turn)
    ensures Announced(log + more, turn) == Announced(log, turn)
    decreases |more|
  {
    if more == [] {
      assert log + more == log;
    } else {
      var init, last := more[..|more| - 1], more[|more| - 1];
      assert log + more == (log + init) + [last] && last in more;
      forall e | e in init ensures !Announces(e, turn) { assert e in more; }
      AnnouncedLogged(log + init, last, turn);
      SilentEvents(log, init, turn);
    }
  }

  lemma {:induction false} PlacesAppend(outputs: Table<OutputKey, Position>, row: Row<OutputKey, Position>, turn: Id)
    ensures Places(outputs + [row], turn)
            == Places(outputs, turn) + if row.key.turn == turn then [Place(row.value.index, row.value.item.id)] else []
  {
    if outputs == [] {
      assert outputs + [row] == [row];
    } else {
      var all, rest := outputs + [row], outputs[1..];
      assert all[0] == outputs[0] && all[1..] == rest + [row];
      PlacesAppend(rest, row, turn);
      var head := if all[0].key.turn == turn then [Place(all[0].value.index, all[0].value.item.id)] else [];
      var last := if row.key.turn == turn then [Place(row.value.index, row.value.item.id)] else [];
      assert head + (Places(rest, turn) + last) == (head + Places(rest, turn)) + last;
    }
  }

  lemma {:induction false} PlacesRewrite(outputs: Table<OutputKey, Position>, key: OutputKey, position: Position, turn: Id)
    requires Has(outputs, key) && Get(outputs, key).value.index == position.index
    requires Get(outputs, key).value.item.id == position.item.id
    ensures Places(Put(outputs, key, position), turn) == Places(outputs, turn)
  {
    if outputs[0].key != key {
      PlacesRewrite(outputs[1..], key, position, turn);
      assert Put(outputs, key, position)[1..] == Put(outputs[1..], key, position);
    } else {
      assert Put(outputs, key, position)[1..] == outputs[1..];
    }
  }

  // --- One accepted event ----------------------------------------------------------------------------------

  lemma ResolvedSlot(feed: Feed, key: OutputKey, owner: Option<Id>)
    requires Proper(feed)
    ensures var slot := Resolve(feed, key, owner);
            && Consistent(slot) && slot.key == key && slot.previous == Get(feed.outputs, key)
            && (slot.previous.Some? ==> Row(key, slot.previous.value) in feed.outputs && slot.index == slot.previous.value.index)
            && (slot.previous.None? ==> slot.id == Minted(feed.minted) && slot.index == CountOf(feed, key.turn))
  {
    GetIn(feed.outputs, key);
  }

  lemma {:induction false} RowHasPlace(outputs: Table<OutputKey, Position>, r: Row<OutputKey, Position>)
    requires r in outputs
    ensures Place(r.value.index, r.value.item.id) in Places(outputs, r.key.turn)
  {
    if r != outputs[0] { RowHasPlace(outputs[1..], r); }
  }

  /**
   An event finds the place its native item already has, or the one behind all places of its turn, with an
   identifier no other item has.
   */
  lemma ResolvedPlace(feed: Feed, key: OutputKey, owner: Option<Id>)
    requires Placed(feed)
    ensures var slot := Resolve(feed, key, owner);
            if Has(feed.outputs, key) then Place(slot.index, slot.id) in Places(feed.outputs, key.turn)
            else slot.index == |Places(feed.outputs, key.turn)| && forall r | r in feed.outputs :: r.value.item.id != slot.id
  {
    GetIn(feed.outputs, key);
    assert PlacedAt(feed, key.turn);
    if Has(feed.outputs, key) { RowHasPlace(feed.outputs, Row(key, Get(feed.outputs, key).value)); }
  }

  lemma StoringStaysProper(feed: Feed, slot: Slot, item: Item)
    requires Proper(feed) && Consistent(slot) && item.id == slot.id && item.turn == slot.key.turn
    requires slot.previous == Get(feed.outputs, slot.key)
    requires slot.previous.None? ==> slot.id == Minted(feed.minted)
    ensures Proper(Stored(Claimed(feed, slot, item), slot, item))
  {
    var position := Position(slot.index, item);
    var next := Stored(Claimed(feed, slot, item), slot, item);
    PutStaysDistinct(feed.outputs, slot.key, position);
    GetIn(feed.outputs, slot.key);
    forall r | r in next.outputs
      ensures r == Row(slot.key, position) || (r in feed.outputs && r.key != slot.key)
    {
      PutMember(feed.outputs, slot.key, position, r);
    }
  }

  lemma BodyStaysProper(feed: Feed, key: OutputKey, owner: Option<Id>, body: Body)
    requires Proper(feed)
    ensures Proper(AcceptBody(feed, Resolve(feed, key, owner), body))
  {
    var slot := Resolve(feed, key, owner);
    ResolvedSlot(feed, key, owner);
    var first, item, more := BodyWrites(feed, slot, body);
    StoringStaysProper(feed, slot, item);
  }

  lemma RevisitingKeepsPlace(feed: Feed, slot: Slot, next: Feed, first: Item, item: Item, more: seq<Event>, turn: Id)
    requires PlacedAt(feed, turn) && slot.previous.Some? && slot.previous == Get(feed.outputs, slot.key)
    requires Consistent(slot) && slot.index == slot.previous.value.index && Wrote(feed, slot, next, first, item, more)
    ensures PlacedAt(next, turn)
  {
    SilentEvents(feed.log, more, turn);
    PlacesRewrite(feed.outputs, slot.key, Position(slot.index, item), turn);
  }

  lemma NumberedOn(places: seq<Place>, count: nat, id: Id)
    requires Numbered(places, count)
    ensures Numbered(places + [Place(count, id)], count + 1)
  {
  }

  lemma ClaimingKeepsPlace(feed: Feed, slot: Slot, next: Feed, first: Item, item: Item, more: seq<Event>, turn: Id)
    requires PlacedAt(feed, turn) && slot.previous.None? && slot.previous == Get(feed.outputs, slot.key)
    requires Consistent(slot) && slot.index == CountOf(feed, slot.key.turn) && Wrote(feed, slot, next, first, item, more)
    ensures PlacedAt(next, turn)
  {
    var row := Row(slot.key, Position(slot.index, item));
    var added := ItemAdded(slot.key.turn, Some(slot.index), first);
    AnnouncedLogged(feed.log, added, turn);
    SilentEvents(feed.log + [added], more, turn);
    PutNewAppends(feed.outputs, row.key, row.value);
    PlacesAppend(feed.outputs, row, turn);
    assert next.outputs == feed.outputs + [row] && next.log == feed.log + [added] + more;
    if turn == slot.key.turn { NumberedOn(Places(feed.outputs, turn), slot.index, slot.id); }
  }

  lemma BodyKeepsPlaces(feed: Feed, key: OutputKey, owner: Option<Id>, body: Body)
    requires Placed(feed)
    ensures Placed(AcceptBody(feed, Resolve(feed, key, owner), body))
  {
    BodyStaysProper(feed, key, owner, body);
    var slot := Resolve(feed, key, owner);
    ResolvedSlot(feed, key, owner);
    var first, item, more := BodyWrites(feed, slot, body);
    var next := AcceptBody(feed, slot, body);
    forall turn: Id ensures PlacedAt(next, turn) {
      assert PlacedAt(feed, turn);
      if slot.previous.Some? { RevisitingKeepsPlace(feed, slot, next, first, item, more, turn); }
      else { ClaimingKeepsPlace(feed, slot, next, first, item, more, turn); }
    }
  }

  /** An event that announces no position changes no place. */
  lemma EmittingKeepsPlaces(feed: Feed, e: Event)
    requires Placed(feed) && !(e.ItemAdded? && e.position.Some?)
    ensures Placed(Logged(feed, e))
  {
    forall turn: Id ensures PlacedAt(Logged(feed, e), turn) {
      assert PlacedAt(feed, turn);
      AnnouncedLogged(feed.log, e, turn);
    }
  }

  lemma {:induction false} AddInputKeepsPlaces(feed: Feed, turn: Id, input: seq<Message>)
    requires Placed(feed)
    ensures Placed(AddInput(feed, turn, input).0)
    ensures AddInput(feed, turn, input).0.outputs == feed.outputs
    decreases |input|
  {
    if input != [] {
      AddItemKeepsPlaces(feed, None, turn, Done, Input(input[0]));
      AddInputKeepsPlaces(AddItem(feed, None, turn, Done, Input(input[0])), turn, input[1..]);
    }
  }

  lemma MovedOnStaysPlaced(a: Feed, b: Feed)
    requires Placed(a) && b.outputs == a.outputs && b.counts == a.counts && b.log == a.log && b.minted >= a.minted
    ensures Placed(b)
  {
    forall turn: Id ensures PlacedAt(b, turn) { assert PlacedAt(a, turn); }
  }

  lemma AddItemKeepsPlaces(feed: Feed, owner: Option<Id>, turn: Id, status: ItemStatus, content: Content)
    requires Placed(feed)
    ensures Placed(AddItem(feed, owner, turn, status, content))
  {
    var item := Item(Minted(feed.minted), turn, status, content);
    EmittingKeepsPlaces(feed, ItemAdded(turn, None, item));
    MovedOnStaysPlaced(Logged(feed, ItemAdded(turn, None, item)), AddItem(feed, owner, turn, status, content));
  }

  // --- Closing a turn's items ---------------------------------------------------------------------------------

  function ClosedAt(p: Position): Position {
    if p.item.status == Open then p.(item := p.item.(status := Incomplete)) else p
  }

  lemma FinishItemKeepsPlaces(feed: Feed, row: Row<OutputKey, Position>, owner: Option<Id>)
    requires Placed(feed) && row in feed.outputs
    ensures Placed(FinishItem(feed, row, owner))
    ensures FinishItem(feed, row, owner).outputs
            == if row.value.item.status == Open then Put(feed.outputs, row.key, ClosedAt(row.value)) else feed.outputs
  {
    if row.value.item.status == Open {
      var more := FinishItemWrites(feed, row, owner);
      var next := FinishItem(feed, row, owner);
      InGet(feed.outputs, row);
      StoringStaysProper(feed, ClosingSlot(row, owner), row.value.item.(status := Incomplete));
      forall turn: Id ensures PlacedAt(next, turn) {
        assert PlacedAt(feed, turn);
        SilentEvents(feed.log, more, turn);
        PlacesRewrite(feed.outputs, row.key, ClosedAt(row.value), turn);
      }
    }
  }

  /** The rows still to visit are rows of the table as it is. */
  ghost predicate StillThere(rows: Table<OutputKey, Position>, feed: Feed) {
    Distinct(rows) && forall r | r in rows :: r in feed.outputs
  }

  lemma VisitingLeavesTheRest(feed: Feed, rows: Table<OutputKey, Position>, owner: Option<Id>)
    requires Placed(feed) && rows != [] && StillThere(rows, feed)
    ensures rows[0] in feed.outputs && StillThere(rows[1..], FinishItem(feed, rows[0], owner))
  {
    assert rows[0] in rows;
    FinishItemKeepsPlaces(feed, rows[0], owner);
    forall r | r in rows[1..] ensures r in FinishItem(feed, rows[0], owner).outputs {
      assert r in rows;
      PutMember(feed.outputs, rows[0].key, ClosedAt(rows[0].value), r);
    }
  }

  /** A walk closes each row it visits that is open, and touches no other. */
  lemma {:induction false} FinishRowsCloses(feed: Feed, rows: Table<OutputKey, Position>, owner: Option<Id>, key: OutputKey)
    requires Placed(feed) && StillThere(rows, feed)
    ensures var next := FinishRows(feed, rows, owner);
            && Placed(next)
            && Get(next.outputs, key)
               == if Has(rows, key) then Some(ClosedAt(Get(rows, key).value)) else Get(feed.outputs, key)
    decreases |rows|
  {
    if rows != [] {
      VisitingLeavesTheRest(feed, rows, owner);
      FinishItemKeepsPlaces(feed, rows[0], owner);
      var next := FinishItem(feed, rows[0], owner);
      FinishRowsCloses(next, rows[1..], owner, key);
      InGet(feed.outputs, rows[0]);
      PutGet(feed.outputs, rows[0].key, ClosedAt(rows[0].value), key);
      if key == rows[0].key { GetIn(rows[1..], key); }
    }
  }

  lemma {:induction false} TurnRows(outputs: Table<OutputKey, Position>, turn: Id, r: Row<OutputKey, Position>)
    ensures r in OfTurn(outputs, turn) <==> r in outputs && r.value.item.turn == turn
    ensures Distinct(outputs) ==> Distinct(OfTurn(outputs, turn))
  {
    if outputs != [] {
      assert outputs == [outputs[0]] + outputs[1..];
      TurnRows(outputs[1..], turn, r);
      var rest := OfTurn(outputs[1..], turn);
      if outputs[0].value.item.turn != turn {
        assert OfTurn(outputs, turn) == rest;
      } else if Distinct(outputs) {
        forall q | q in rest ensures q.key != outputs[0].key { TurnRows(outputs[1..], turn, q); }
        assert OfTurn(outputs, turn)[1..] == rest;
      }
    }
  }

  lemma TurnRowsAreThere(feed: Feed, turn: Id)
    requires Placed(feed)
    ensures StillThere(OfTurn(feed.outputs, turn), feed)
  {
    var rows := OfTurn(feed.outputs, turn);
    assert Distinct(rows) by { if rows == [] {} else { TurnRows(feed.outputs, turn, rows[0]); } }
    forall r | r in rows ensures r in feed.outputs { TurnRows(feed.outputs, turn, r); }
  }

  /** Closing a turn's items closes those of the turn and leaves every other position as it was. */
  lemma FinishItemsCloses(feed: Feed, turn: Id, owner: Option<Id>, key: OutputKey)
    requires Placed(feed)
    ensures var next := FinishItems(feed, turn, owner); var before := Get(feed.outputs, key);
            && Placed(next)
            && Get(next.outputs, key)
               == if before.Some? && key.turn == turn then Some(ClosedAt(before.value)) else before
  {
    var rows := OfTurn(feed.outputs, turn);
    TurnRowsAreThere(feed, turn);
    FinishRowsCloses(feed, rows, owner, key);
    GetIn(feed.outputs, key);
    GetIn(rows, key);
    if Has(rows, key) {
      var r := Row(key, Get(rows, key).value);
      TurnRows(feed.outputs, turn, r);
      InGet(feed.outputs, r);
    } else if Has(feed.outputs, key) {
      TurnRows(feed.outputs, turn, Row(key, Get(feed.outputs, key).value));
    }
  }

  // --- Every run -----------------------------------------------------------------------------------------------

  lemma ChildTurnKeepsPlaces(db: Db, id: Id, subagent: Id, status: TurnStatus)
    requires Placed(db.feed) && AcceptSubagentTurn(db, id, subagent, status).Ok?
    ensures Placed(AcceptSubagentTurn(db, id, subagent, status).value.feed)
  {
    var previous := Get(db.turns, id);
    var turn := Turn(id, Some(subagent), status, None, if previous.Some? then previous.value.usage else None);
    if status != Completed {
      EmittingKeepsPlaces(db.feed, TurnCreated(turn));
      var created := if previous.None? then Emit(PutTurn(db, turn), TurnCreated(turn)) else PutTurn(db, turn);
      EmittingKeepsPlaces(created.feed, TurnStarted(turn));
      FinishItemsCloses(created.feed, id, Some(subagent), OutputKey(id, ""));
      EmittingKeepsPlaces(FinishItems(created.feed, id, Some(subagent)), TurnEnded(status, turn));
    }
  }

  lemma EventKeepsPlaces(d: Draft, root: Id, event: RuntimeEvent)
    requires Placed(d.db.feed) && Accept(d, root, event).Ok?
    ensures Placed(Accept(d, root, event).value.db.feed)
  {
    match event
    case SubagentReported(id, closed) =>
      EmittingKeepsPlaces(d.db.feed, SubagentLogged(id, id in d.db.subagents && closed));
    case SubagentTurn(id, subagent, status) => ChildTurnKeepsPlaces(d.db, id, subagent, status);
    case UsageReported(_, _) =>
    case Output(native, scope, body) =>
      var key := OutputKey(Named(scope.turn, root), native);
      BodyKeepsPlaces(d.db.feed, key, scope.subagent, body);
      EmittingKeepsPlaces(AcceptBody(d.db.feed, Resolve(d.db.feed, key, scope.subagent), body), SessionLogged(RequiresAction));
  }

  lemma {:induction false} EntriesKeepPlaces(d: Draft, root: Id, entries: seq<J.Stamped>)
    requires Placed(d.db.feed) && AcceptEntries(d, root, entries).Ok?
    ensures Placed(AcceptEntries(d, root, entries).value.db.feed)
    decreases |entries|
  {
    if entries != [] {
      if entries[0].at > d.record.cursor {
        EventKeepsPlaces(d, root, entries[0].event);
        var next := Accept(d, root, entries[0].event).value;
        EntriesKeepPlaces(next.(record := next.record.(cursor := entries[0].at)), root, entries[1..]);
      } else {
        EntriesKeepPlaces(d, root, entries[1..]);
      }
    }
  }

  /** No item of this turn is open. */
  ghost predicate NoneOpen(feed: Feed, turn: Id) {
    forall key: OutputKey | key.turn == turn && Has(feed.outputs, key) ::
      Get(feed.outputs, key).value.item.status != Open
  }

  lemma FinishingClosesTheTurn(feed: Feed, turn: Id, owner: Option<Id>)
    requires Placed(feed)
    ensures var next := FinishItems(feed, turn, owner);
            && Placed(next) && NoneOpen(next, turn)
            && forall other: Id :: NoneOpen(feed, other) ==> NoneOpen(next, other)
  {
    var next := FinishItems(feed, turn, owner);
    FinishItemsCloses(feed, turn, owner, OutputKey(turn, ""));
    forall key: OutputKey | Has(next.outputs, key)
      ensures Has(feed.outputs, key)
      ensures key.turn == turn ==> Get(next.outputs, key).value.item.status != Open
      ensures Get(feed.outputs, key).value.item.status != Open ==> Get(next.outputs, key).value.item.status != Open
    {
      FinishItemsCloses(feed, turn, owner, key);
    }
  }

  lemma {:induction false} ChildrenAreFinished(db: Db, children: seq<Turn>, outcome: TurnStatus, error: Option<TurnError>)
    requires Placed(db.feed)
    ensures var next := CloseChildren(db, children, outcome, error);
            && Placed(next.feed)
            && (forall c | c in children :: NoneOpen(next.feed, c.id))
            && forall other: Id :: NoneOpen(db.feed, other) ==> NoneOpen(next.feed, other)
    decreases |children|
  {
    if children != [] {
      var c := children[0];
      var closed := if outcome == Completed then c else c.(status := outcome, error := error);
      FinishingClosesTheTurn(db.feed, c.id, c.subagent);
      var finished := FinishItems(db.feed, c.id, c.subagent);
      EmittingKeepsPlaces(finished, TurnEnded(outcome, closed));
      var next := CloseChild(db, c, outcome, error);
      assert forall other: Id :: NoneOpen(finished, other) ==> NoneOpen(next.feed, other);
      ChildrenAreFinished(next, children[1..], outcome, error);
      assert children == [c] + children[1..];
    }
  }

  /** A seal leaves open no item of the root turn, nor of any child turn it closes. */
  lemma SealsLeaveNoItemOpen(db: Db, record: Record, outcome: TurnStatus, error: Option<string>)
    requires Placed(db.feed) && record.execution.Some? && Sealed(db, record, outcome, error).Ok?
    requires forall r | r in db.turns :: r.value.id == r.key
    ensures var d := Sealed(db, record, outcome, error).value;
            && Placed(d.db.feed) && NoneOpen(d.db.feed, record.execution.value.turn)
            && forall c | c in OpenChildren(db, outcome) :: NoneOpen(d.db.feed, c.id)
  {
    var children, failure := OpenChildren(db, outcome), TurnErrorOf(error);
    ChildrenAreFinished(db, children, outcome, failure);
    SessionTurns.ChildrenStayKeyed(db, children, outcome, failure);
    var closed := CloseChildren(db, children, outcome, failure);
    var root := record.execution.value.turn;
    GetIn(closed.turns, root);
    var turn := Get(closed.turns, root).value.(status := outcome, error := failure);
    FinishingClosesTheTurn(closed.feed, root, None);
    var finished := FinishItems(closed.feed, root, None);
    EmittingKeepsPlaces(finished, TurnEnded(outcome, turn));
    EmittingKeepsPlaces(Logged(finished, TurnEnded(outcome, turn)), SessionLogged(SealedRecord(record, outcome, error).status));
    var d := Sealed(db, record, outcome, error).value;
    assert d.db.feed.outputs == finished.outputs;
    assert forall other: Id :: NoneOpen(finished, other) ==> NoneOpen(d.db.feed, other);
  }

  lemma SealKeepsPlaces(db: Db, record: Record, outcome: TurnStatus, error: Option<string>)
    requires Placed(db.feed) && record.execution.Some? && Sealed(db, record, outcome, error).Ok?
    ensures Placed(Sealed(db, record, outcome, error).value.db.feed)
  {
    var children, failure := OpenChildren(db, outcome), TurnErrorOf(error);
    ChildrenAreFinished(db, children, outcome, failure);
    var closed := CloseChildren(db, children, outcome, failure);
    var turn := Get(closed.turns, record.execution.value.turn).value.(status := outcome, error := failure);
    FinishingClosesTheTurn(closed.feed, turn.id, None);
    var finished := FinishItems(closed.feed, turn.id, None);
    EmittingKeepsPlaces(finished, TurnEnded(outcome, turn));
    EmittingKeepsPlaces(Logged(finished, TurnEnded(outcome, turn)), SessionLogged(SealedRecord(record, outcome, error).status));
  }

  lemma BeginKeepsPlaces(db: Db, record: Record, input: seq<Message>)
    requires Placed(db.feed)
    ensures Placed(Begin(db, record, input).db.feed)
  {
    var turn := Turn(Minted(db.feed.minted), None, Queued, None, None);
    var minted := db.feed.(minted := db.feed.minted + 1);
    MovedOnStaysPlaced(db.feed, minted);
    EmittingKeepsPlaces(minted, TurnCreated(turn));
    EmittingKeepsPlaces(Logged(minted, TurnCreated(turn)), SessionLogged(Working));
  }

  lemma CompleteKeepsPlaces(s: Setup, db: Db, record: Record, outcome: TurnStatus, error: Option<string>)
    requires Placed(db.feed) && record.execution.Some? && Complete(s, db, record, outcome, error).Ok?
    ensures Placed(Complete(s, db, record, outcome, error).value.feed)
  {
    SealKeepsPlaces(db, record, outcome, error);
    var d := Sealed(db, record, outcome, error).value;
    var input := Joined(d.db.refused[..PageOfRefused(s, d.db.refused)]);
    BeginKeepsPlaces(d.db.(refused := []), d.record, input);
    var started := Begin(d.db.(refused := []), d.record, input);
    AddInputKeepsPlaces(started.db.feed, started.record.execution.value.turn, input);
  }

  lemma QueueingKeepsPlaces(db: Db, turn: Id, control: Control, items: seq<Id>)
    requires Placed(db.feed)
    ensures Placed(Enqueue(db, turn, control, items).feed)
  {
    MovedOnStaysPlaced(db.feed, Enqueue(db, turn, control, items).feed);
  }

  lemma InputKeepsPlaces(d: Draft, driver: Driver, event: InputEvent)
    requires Placed(d.db.feed) && AcceptEvent(d, driver, event).Ok?
    ensures Placed(AcceptEvent(d, driver, event).value.db.feed)
  {
    match event
    case UserMessage(input) =>
      if d.record.execution.Some? {
        var turn := d.record.execution.value.turn;
        var (feed, ids) := AddInput(d.db.feed, turn, input);
        AddInputKeepsPlaces(d.db.feed, turn, input);
        QueueingKeepsPlaces(d.db.(feed := feed), turn, Steer(input), ids);
      } else {
        BeginKeepsPlaces(d.db, d.record, input);
        var started := Begin(d.db, d.record, input);
        AddInputKeepsPlaces(started.db.feed, started.record.execution.value.turn, input);
      }
    case UserCancel =>
      if d.record.execution.Some? { QueueingKeepsPlaces(d.db, d.record.execution.value.turn, Cancel, []); }
    case UserTool(_, _, _, _, _) => ToolKeepsPlaces(d, driver, event);
  }

  lemma ToolKeepsPlaces(d: Draft, driver: Driver, event: InputEvent)
    requires event.UserTool? && Placed(d.db.feed) && AcceptTool(d, driver, event).Ok?
    ensures Placed(AcceptTool(d, driver, event).value.db.feed)
  {
    var turn := Get(d.db.turns, event.turn).value;
    var status := if event.success then Done else Bad;
    var answer := Answer(event.call, event.output);
    AddItemKeepsPlaces(d.db.feed, turn.subagent, event.turn, status, answer);
    var answered := d.db.(feed := AddItem(d.db.feed, turn.subagent, event.turn, status, answer));
    var control := ToolResult(event.call, event.success, event.output);
    QueueingKeepsPlaces(answered, d.record.execution.value.turn, control, []);
    var queued := Enqueue(answered, d.record.execution.value.turn, control, []);
    EmittingKeepsPlaces(queued.feed, SessionLogged(Working));
  }

  lemma {:induction false} InputsKeepPlaces(d: Draft, driver: Driver, events: seq<InputEvent>)
    requires Placed(d.db.feed) && AcceptAll(d, driver, events).Ok?
    ensures Placed(AcceptAll(d, driver, events).value.db.feed)
    decreases |events|
  {
    if events != [] {
      InputKeepsPlaces(d, driver, events[0]);
      InputsKeepPlaces(AcceptEvent(d, driver, events[0]).value, driver, events[1..]);
    }
  }

  lemma FencedStepKeepsPlaces(s: Setup, db: Db, record: Record, step: Step)
    requires IsFenced(step) && Placed(db.feed) && record.execution.Some? && Reconcile(s, db, record, step).Ok?
    ensures Placed(Reconcile(s, db, record, step).value.feed)
  {
    match step
    case Start(_) =>
      EmittingKeepsPlaces(db.feed, TurnStarted(Get(db.turns, record.execution.value.turn).value.(status := InProgress)));
    case Poll(_, entries, _, _) => EntriesKeepPlaces(Draft(db, record), record.execution.value.turn, entries);
    case Commit(_, checkpoint) => CompleteKeepsPlaces(s, db, record.(checkpoint := Some(checkpoint)), Completed, None);
    case Seal(_, outcome, error) => CompleteKeepsPlaces(s, db, record, outcome, error);
    case Deliver(_, operation) =>
    case Refuse(_, operation) => MovedOnStaysPlaced(db.feed, Reject(db, operation).feed);
  }

  const EMPTY: Feed := Feed(0, [], [], map[], [])

  lemma EmptyIsPlaced(minted: nat)
    ensures Placed(EMPTY.(minted := minted))
  {
    forall turn: Id ensures PlacedAt(EMPTY.(minted := minted), turn) {}
  }

  lemma SubmissionKeepsPlaces(s: Setup, db: Db, driver: Driver, events: seq<InputEvent>, key: string)
    requires Placed(db.feed) && AcceptInput(s, db, driver, events, key).Ok?
    ensures Placed(AcceptInput(s, db, driver, events, key).value.feed)
  {
    if key !in db.accepted { InputsKeepPlaces(Draft(db, db.record.value), driver, events); }
  }

  lemma StepKeepsPlaces(s: Setup, db: Db, step: Step)
    requires Placed(db.feed)
    ensures Placed(After(s, db, step).feed)
  {
    if Transact(s, db, step).Ok? {
      match step
      case Submit(driver, events, key) => SubmissionKeepsPlaces(s, db, driver, events, key);
      case Report(status) =>
        EmittingKeepsPlaces(db.feed, EnvironmentLogged(status));
        EmittingKeepsPlaces(Logged(db.feed, EnvironmentLogged(status)), SessionLogged(Faulted));
      case Delete =>
      case Drop => EmptyIsPlaced(db.feed.minted);
      case _ => FencedStepKeepsPlaces(s, db, db.record.value, step);
    }
  }

  lemma {:induction false} RunKeepsPlaces(s: Setup, db: Db, steps: seq<Step>)
    requires Placed(db.feed)
    ensures Placed(Run(s, db, steps).feed)
    decreases |steps|
  {
    if steps != [] {
      StepKeepsPlaces(s, db, steps[0]);
      RunKeepsPlaces(s, After(s, db, steps[0]), steps[1..]);
    }
  }

  /**
   On every run, for every turn: the positions announced in the log are the positions its items
   hold, in the same order and under the same identifiers, and they are 0, 1, 2, ... up to the
   number assigned. So no position repeats, none is skipped, and each is announced once.
   */
  lemma PositionsAreExact(s: Setup, driver: string, revision: string, sandboxed: bool, transcript: Option<string>,
                          checkpoint: Option<Checkpoint>, steps: seq<Step>, turn: Id)
    ensures var feed := Run(s, Created(driver, revision, sandboxed, transcript, checkpoint), steps).feed;
            && Announced(feed.log, turn) == Places(feed.outputs, turn)
            && |Places(feed.outputs, turn)| == CountOf(feed, turn)
            && forall k | 0 <= k < CountOf(feed, turn) :: Places(feed.outputs, turn)[k].index == k
  {
    EmptyIsPlaced(0);
    RunKeepsPlaces(s, Created(driver, revision, sandboxed, transcript, checkpoint), steps);
    assert PlacedAt(Run(s, Created(driver, revision, sandboxed, transcript, checkpoint), steps).feed, turn);
  }
}
