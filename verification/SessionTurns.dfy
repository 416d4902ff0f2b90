/**
 How turns end. The terminal events in the log are counted exactly: a root turn gets one when it is
 sealed, and any other is due to a runtime that reported a child turn under the root's identifier.
 A turn that fails or is cancelled leaves no child turn open behind it.
 */
module SessionTurns {
  import opened Options
  import opened Tables
  import opened SessionStore
  import opened SessionEvents
  import opened SessionState
  import opened SessionFeeds
  import opened SessionRuns
  import opened SessionShape
  import J = JobStates

  // --- What the log says of turns --------------------------------------------------------------------

  function EndedBy(e: Event): multiset<Id> { if e.TurnEnded? then multiset{e.turn.id} else multiset{} }

  /** Every terminal event in the log, by the turn it names. */
  function Ended(log: seq<Event>): multiset<Id>
    decreases |log|
  {
    if log == [] then multiset{} else Ended(log[..|log| - 1]) + EndedBy(log[|log| - 1])
  }

  function BornBy(e: Event): set<Id> { if e.TurnCreated? && e.turn.subagent.None? then {e.turn.id} else {} }

  /** The root turns the log created. */
  function Born(log: seq<Event>): set<Id>
    decreases |log|
  {
    if log == [] then {} else Born(log[..|log| - 1]) + BornBy(log[|log| - 1])
  }

  lemma OneMoreEvent(log: seq<Event>, e: Event)
    ensures Ended(log + [e]) == Ended(log) + EndedBy(e) && Born(log + [e]) == Born(log) + BornBy(e)
  {
    assert (log + [e])[..|log|] == log;
  }

  /** Nothing after `a` creates a root turn or ends any. */
  ghost predicate Quiet(a: seq<Event>, b: seq<Event>) { Ended(b) == Ended(a) && Born(b) == Born(a) }

  lemma {:induction false} QuietEvents(log: seq<Event>, more: seq<Event>)
    requires forall e | e in more :: !e.TurnEnded? && !e.TurnCreated?
    ensures Quiet(log, log + more)
    decreases |more|
  {
    if more == [] {
      assert log + more == log;
    } else {
      var init, last := more[..|more| - 1], more[|more| - 1];
      assert log + more == (log + init) + [last] && last in more;
      forall e | e in init ensures !e.TurnEnded? && !e.TurnCreated? { assert e in more; }
      OneMoreEvent(log + init, last);
      QuietEvents(log, init);
    }
  }

  lemma WritingIsQuiet(feed: Feed, slot: Slot, next: Feed, first: Item, item: Item, more: seq<Event>)
    requires Wrote(feed, slot, next, first, item, more)
    ensures Quiet(feed.log, next.log)
  {
    OneMoreEvent(feed.log, ItemAdded(slot.key.turn, Some(slot.index), first));
    QuietEvents(Claimed(feed, slot, first).log, more);
  }

  lemma OutputIsQuiet(feed: Feed, slot: Slot, body: Body)
    ensures Quiet(feed.log, AcceptBody(feed, slot, body).log)
  {
    var first, item, more := BodyWrites(feed, slot, body);
    WritingIsQuiet(feed, slot, AcceptBody(feed, slot, body), first, item, more);
  }

  lemma FinishItemIsQuiet(feed: Feed, row: Row<OutputKey, Position>, owner: Option<Id>)
    ensures Quiet(feed.log, FinishItem(feed, row, owner).log)
  {
    if row.value.item.status == Open {
      var more := FinishItemWrites(feed, row, owner);
      QuietEvents(feed.log, more);
    }
  }

  lemma {:induction false} FinishingIsQuiet(feed: Feed, rows: Table<OutputKey, Position>, owner: Option<Id>)
    ensures Quiet(feed.log, FinishRows(feed, rows, owner).log)
    decreases |rows|
  {
    if rows != [] {
      FinishItemIsQuiet(feed, rows[0], owner);
      FinishingIsQuiet(FinishItem(feed, rows[0], owner), rows[1..], owner);
    }
  }

  lemma {:induction false} AddInputIsQuiet(feed: Feed, turn: Id, input: seq<Message>)
    ensures Quiet(feed.log, AddInput(feed, turn, input).0.log)
    decreases |input|
  {
    if input != [] {
      OneMoreEvent(feed.log, ItemAdded(turn, None, Item(Minted(feed.minted), turn, Done, Input(input[0]))));
      AddInputIsQuiet(AddItem(feed, None, turn, Done, Input(input[0])), turn, input[1..]);
    }
  }

  // --- What a transition does to turns --------------------------------------------------------------------

  /** The runtime names its child turns itself, never by an identifier the session minted. */
  predicate Courteous(event: RuntimeEvent) { event.SubagentTurn? ==> event.id.Native? }

  ghost predicate CourteousStep(step: Step) {
    step.Poll? ==> forall e | e in step.entries :: Courteous(e.event)
  }

  ghost predicate AllCourteous(steps: seq<Step>) { forall step | step in steps :: CourteousStep(step) }

  /** Rows are kept under the identifier of their turn. */
  ghost predicate Keyed(db: Db) {
    && Distinct(db.turns)
    && (forall r | r in db.turns :: r.value.id == r.key)
    && (forall r | r in db.pending :: r.value.id == r.key)
  }

  /** Root turns are the minted ones, child turns the named ones, in both tables. */
  ghost predicate Sorted(db: Db) {
    && (forall r | r in db.turns :: r.value.id == r.key && Below(r.key, db.feed.minted)
                                    && (r.key.Native? <==> r.value.subagent.Some?))
    && (forall r | r in db.pending :: r.value.id == r.key && r.key.Native? && r.value.subagent.Some?)
  }

  /** From `a` to `b` exactly `ends` were ended; a courteous runtime leaves the tables sorted. */
  ghost predicate Kept(a: Db, b: Db, ends: multiset<Id>, courteous: bool) {
    && Keyed(b) && (courteous && Sorted(a) ==> Sorted(b))
    && b.feed.minted >= a.feed.minted
    && Ended(b.feed.log) == Ended(a.feed.log) + ends && Born(b.feed.log) == Born(a.feed.log)
  }

  lemma KeptOnward(a: Db, b: Db, c: Db, first: multiset<Id>, second: multiset<Id>, courteous: bool)
    requires Kept(a, b, first, courteous) && Kept(b, c, second, courteous)
    ensures Kept(a, c, first + second, courteous)
  {
  }

  /** Only the feed moved on, quietly. */
  lemma QuietIsKept(a: Db, b: Db, courteous: bool)
    requires Keyed(a) && b.turns == a.turns && (b.pending == a.pending || b.pending == [])
    requires Quiet(a.feed.log, b.feed.log) && b.feed.minted >= a.feed.minted
    ensures Kept(a, b, multiset{}, courteous)
  {
  }

  /** Whether this turn may be stored while the tables stay sorted. */
  predicate Fits(db: Db, turn: Turn) { Below(turn.id, db.feed.minted) && (turn.id.Native? <==> turn.subagent.Some?) }

  lemma PutIsKept(db: Db, turn: Turn, courteous: bool)
    requires Keyed(db) && (courteous && Sorted(db) ==> Fits(db, turn))
    ensures Kept(db, PutTurn(db, turn), multiset{}, courteous)
  {
    var next := PutTurn(db, turn);
    PutStaysDistinct(db.turns, turn.id, turn);
    forall r | r in next.turns ensures r == Row(turn.id, turn) || r in db.turns { PutFrom(db.turns, turn.id, turn, r); }
  }

  lemma HoldIsKept(db: Db, turn: Turn, courteous: bool)
    requires Keyed(db) && (courteous && Sorted(db) ==> turn.id.Native? && turn.subagent.Some?)
    ensures Kept(db, db.(pending := Put(db.pending, turn.id, turn)), multiset{}, courteous)
  {
    var next := db.(pending := Put(db.pending, turn.id, turn));
    forall r | r in next.pending ensures r == Row(turn.id, turn) || r in db.pending { PutFrom(db.pending, turn.id, turn, r); }
  }

  lemma EmitIsKept(db: Db, e: Event, courteous: bool)
    requires Keyed(db) && BornBy(e) == {}
    ensures Kept(db, Emit(db, e), EndedBy(e), courteous)
  {
    OneMoreEvent(db.feed.log, e);
  }

  lemma FinishIsKept(db: Db, turn: Id, owner: Option<Id>, courteous: bool)
    requires Keyed(db)
    ensures Kept(db, db.(feed := FinishItems(db.feed, turn, owner)), multiset{}, courteous)
  {
    var rows := OfTurn(db.feed.outputs, turn);
    FinishingIsQuiet(db.feed, rows, owner);
    FinishRowsMints(db.feed, rows, owner);
    QuietIsKept(db, db.(feed := FinishItems(db.feed, turn, owner)), courteous);
  }

  // --- One runtime event -------------------------------------------------------------------------------------

  predicate Ending(status: TurnStatus) { status != Completed && status != InProgress && status != Waiting }

  /** The turn a runtime event ends: one it reports as failed or cancelled. */
  function NamedBy(event: RuntimeEvent): multiset<Id> {
    if event.SubagentTurn? && Ending(event.status) then multiset{event.id} else multiset{}
  }

  lemma FollowedIsKept(db: Db, turn: Turn, courteous: bool)
    requires Keyed(db) && turn.status != Completed
    ensures Kept(db, ChildTurnFollowed(db, turn), if Ending(turn.status) then multiset{turn.id} else multiset{}, courteous)
  {
    if turn.status == InProgress {
      EmitIsKept(db, TurnStarted(turn), courteous);
    } else if Ending(turn.status) {
      FinishIsKept(db, turn.id, turn.subagent, courteous);
      var finished := db.(feed := FinishItems(db.feed, turn.id, turn.subagent));
      EmitIsKept(finished, TurnEnded(turn.status, turn), courteous);
      KeptOnward(db, finished, ChildTurnFollowed(db, turn), multiset{}, multiset{turn.id}, courteous);
    }
  }

  lemma ReportedIsKept(db: Db, turn: Turn, created: bool, courteous: bool)
    requires Keyed(db) && turn.subagent.Some? && turn.status != Completed && (courteous ==> turn.id.Native?)
    ensures var stored := PutTurn(db, turn);
            Kept(db, ChildTurnFollowed(if created then Emit(stored, TurnCreated(turn)) else stored, turn),
                 if Ending(turn.status) then multiset{turn.id} else multiset{}, courteous)
  {
    PutIsKept(db, turn, courteous);
    var stored := PutTurn(db, turn);
    EmitIsKept(stored, TurnCreated(turn), courteous);
    var announced := if created then Emit(stored, TurnCreated(turn)) else stored;
    KeptOnward(db, stored, Emit(stored, TurnCreated(turn)), multiset{}, multiset{}, courteous);
    FollowedIsKept(announced, turn, courteous);
    KeptOnward(db, announced, ChildTurnFollowed(announced, turn), multiset{},
               if Ending(turn.status) then multiset{turn.id} else multiset{}, courteous);
  }

  lemma ChildTurnIsKept(db: Db, id: Id, subagent: Id, status: TurnStatus, courteous: bool)
    requires Keyed(db) && (courteous ==> id.Native?) && AcceptSubagentTurn(db, id, subagent, status).Ok?
    ensures Kept(db, AcceptSubagentTurn(db, id, subagent, status).value,
                 NamedBy(SubagentTurn(id, subagent, status)), courteous)
  {
    var previous := Get(db.turns, id);
    var turn := Turn(id, Some(subagent), status, None, if previous.Some? then previous.value.usage else None);
    if status == Completed {
      HoldIsKept(db, turn, courteous);
      var held := db.(pending := Put(db.pending, id, turn));
      PutIsKept(held, turn.(status := InProgress), courteous);
      KeptOnward(db, held, PutTurn(held, turn.(status := InProgress)), multiset{}, multiset{}, courteous);
    } else {
      ReportedIsKept(db, turn, previous.None?, courteous);
    }
  }

  lemma CallIsKept(d: Draft, id: Id, call: string, courteous: bool)
    requires Keyed(d.db) && AcceptCall(d, id, call).Ok?
    ensures Kept(d.db, AcceptCall(d, id, call).value.db, multiset{}, courteous)
  {
    GetIn(d.db.turns, id);
    var turn := Get(d.db.turns, id).value.(status := Waiting);
    PutIsKept(d.db, turn, courteous);
    EmitIsKept(PutTurn(d.db, turn), SessionLogged(RequiresAction), courteous);
    KeptOnward(d.db, PutTurn(d.db, turn), Emit(PutTurn(d.db, turn), SessionLogged(RequiresAction)),
               multiset{}, multiset{}, courteous);
  }

  lemma OutputIsKept(d: Draft, key: OutputKey, owner: Option<Id>, body: Body, courteous: bool)
    requires Keyed(d.db) && AcceptOutput(d, key, owner, body).Ok?
    ensures Kept(d.db, AcceptOutput(d, key, owner, body).value.db, multiset{}, courteous)
  {
    var slot := Resolve(d.db.feed, key, owner);
    BodyMints(d.db.feed, slot, body);
    OutputIsQuiet(d.db.feed, slot, body);
    var next := d.(db := d.db.(feed := AcceptBody(d.db.feed, slot, body)));
    QuietIsKept(d.db, next.db, courteous);
    if body.FunctionCall? {
      CallIsKept(next, key.turn, body.call, courteous);
      KeptOnward(d.db, next.db, AcceptCall(next, key.turn, body.call).value.db, multiset{}, multiset{}, courteous);
    }
  }

  lemma UsageIsKept(d: Draft, id: Id, usage: Usage, courteous: bool)
    requires Keyed(d.db) && AcceptUsage(d, id, usage).Ok?
    ensures Kept(d.db, AcceptUsage(d, id, usage).value.db, multiset{}, courteous)
  {
    GetIn(d.db.turns, id);
    GetIn(d.db.pending, id);
    var turn := Get(d.db.turns, id).value.(usage := Some(usage));
    PutIsKept(d.db, turn, courteous);
    var stored, held := PutTurn(d.db, turn), Get(d.db.pending, id);
    if held.Some? {
      HoldIsKept(stored, held.value.(usage := Some(usage)), courteous);
      KeptOnward(d.db, stored, stored.(pending := Put(stored.pending, id, held.value.(usage := Some(usage)))),
                 multiset{}, multiset{}, courteous);
    }
  }

  /** An accepted event ends the turn it reports as failed or cancelled, and no other. */
  lemma EventEndsWhatItNames(d: Draft, root: Id, event: RuntimeEvent, courteous: bool)
    requires Keyed(d.db) && (courteous ==> Courteous(event)) && Accept(d, root, event).Ok?
    ensures Kept(d.db, Accept(d, root, event).value.db, NamedBy(event), courteous)
  {
    match event
    case SubagentReported(id, closed) =>
      var marked := d.db.(subagents := d.db.subagents[id := closed]);
      QuietIsKept(d.db, marked, courteous);
      EmitIsKept(marked, SubagentLogged(id, id in d.db.subagents && closed), courteous);
      KeptOnward(d.db, marked, Emit(marked, SubagentLogged(id, id in d.db.subagents && closed)),
                 multiset{}, multiset{}, courteous);
    case SubagentTurn(id, subagent, status) => ChildTurnIsKept(d.db, id, subagent, status, courteous);
    case UsageReported(turn, usage) => UsageIsKept(d, Named(turn, root), usage, courteous);
    case Output(native, scope, body) =>
      OutputIsKept(d, OutputKey(Named(scope.turn, root), native), scope.subagent, body, courteous);
  }

  /** What the new entries of a batch end. */
  function NamedIn(cursor: nat, entries: seq<J.Stamped>): multiset<Id>
    decreases |entries|
  {
    if entries == [] then multiset{}
    else if entries[0].at <= cursor then NamedIn(cursor, entries[1..])
    else NamedBy(entries[0].event) + NamedIn(entries[0].at, entries[1..])
  }

  lemma {:induction false} EntriesEndWhatTheyName(d: Draft, root: Id, entries: seq<J.Stamped>, courteous: bool)
    requires Keyed(d.db) && AcceptEntries(d, root, entries).Ok?
    requires courteous ==> forall e | e in entries :: Courteous(e.event)
    ensures Kept(d.db, AcceptEntries(d, root, entries).value.db, NamedIn(d.record.cursor, entries), courteous)
    decreases |entries|
  {
    if entries != [] {
      assert entries[0] in entries;
      assert forall e | e in entries[1..] :: e in entries;
      if entries[0].at > d.record.cursor {
        EventEndsWhatItNames(d, root, entries[0].event, courteous);
        var next := Accept(d, root, entries[0].event).value;
        var onward := next.(record := next.record.(cursor := entries[0].at));
        EntriesEndWhatTheyName(onward, root, entries[1..], courteous);
        KeptOnward(d.db, next.db, AcceptEntries(onward, root, entries[1..]).value.db,
                   NamedBy(entries[0].event), NamedIn(entries[0].at, entries[1..]), courteous);
      } else {
        EntriesEndWhatTheyName(d, root, entries[1..], courteous);
      }
    }
  }

  // --- Sealing ------------------------------------------------------------------------------------------------

  function IdsIn(children: seq<Turn>): multiset<Id> {
    if children == [] then multiset{} else multiset{children[0].id} + IdsIn(children[1..])
  }

  ghost predicate Children(children: seq<Turn>) { forall c | c in children :: c.id.Native? && c.subagent.Some? }

  lemma {:induction false} RowsAreChildren(rows: Table<Id, Turn>)
    requires forall r | r in rows :: r.value.id.Native? && r.value.subagent.Some?
    ensures Children(RowsOf(rows))
  {
    if rows != [] {
      assert rows[0] in rows;
      forall r | r in rows[1..] ensures r.value.id.Native? && r.value.subagent.Some? { assert r in rows; }
      RowsAreChildren(rows[1..]);
    }
  }

  lemma {:induction false} OpenRowsAreChildren(turns: Table<Id, Turn>, status: TurnStatus)
    requires forall r | r in turns :: r.value.id == r.key && (r.key.Native? <==> r.value.subagent.Some?)
    ensures Children(ChildrenAt(turns, status))
  {
    if turns != [] {
      assert turns[0] in turns;
      forall r | r in turns[1..] ensures r.value.id == r.key && (r.key.Native? <==> r.value.subagent.Some?) {
        assert r in turns;
      }
      OpenRowsAreChildren(turns[1..], status);
    }
  }

  /** In sorted tables what a seal closes are child turns. */
  lemma ListedAreChildren(db: Db, outcome: TurnStatus)
    requires Sorted(db)
    ensures Children(OpenChildren(db, outcome))
  {
    if outcome == Completed {
      RowsAreChildren(db.pending);
    } else {
      OpenRowsAreChildren(db.turns, InProgress);
      OpenRowsAreChildren(db.turns, Waiting);
    }
  }

  lemma ChildIsKept(db: Db, child: Turn, outcome: TurnStatus, error: Option<TurnError>, courteous: bool)
    requires Keyed(db) && (courteous ==> child.id.Native? && child.subagent.Some?)
    ensures Kept(db, CloseChild(db, child, outcome, error), multiset{child.id}, courteous)
  {
    var closed := if outcome == Completed then child else child.(status := outcome, error := error);
    var stored := PutTurn(db, closed);
    PutIsKept(db, closed, courteous);
    FinishIsKept(stored, closed.id, closed.subagent, courteous);
    var finished := stored.(feed := FinishItems(stored.feed, closed.id, closed.subagent));
    EmitIsKept(finished, TurnEnded(outcome, closed), courteous);
    KeptOnward(db, stored, finished, multiset{}, multiset{}, courteous);
    KeptOnward(db, finished, Emit(finished, TurnEnded(outcome, closed)), multiset{}, multiset{child.id}, courteous);
  }

  lemma {:induction false} ChildrenAreKept(
      db: Db, children: seq<Turn>, outcome: TurnStatus, error: Option<TurnError>, courteous: bool)
    requires Keyed(db) && (courteous ==> Children(children))
    ensures Kept(db, CloseChildren(db, children, outcome, error), IdsIn(children), courteous)
    decreases |children|
  {
    if children != [] {
      var c := children[0];
      assert c in children;
      ChildIsKept(db, c, outcome, error, courteous);
      var next := CloseChild(db, c, outcome, error);
      assert forall k | k in children[1..] :: k in children;
      ChildrenAreKept(next, children[1..], outcome, error, courteous);
      KeptOnward(db, next, CloseChildren(db, children, outcome, error), multiset{c.id}, IdsIn(children[1..]), courteous);
    }
  }

  lemma RootIsKept(db: Db, turn: Turn, next: Record, outcome: TurnStatus, courteous: bool)
    requires Keyed(db) && (courteous && Sorted(db) ==> Fits(db, turn))
    ensures Kept(db, SealRoot(db, turn, next, outcome), multiset{turn.id}, courteous)
  {
    PutIsKept(db, turn, courteous);
    var stored := PutTurn(db, turn);
    FinishIsKept(stored, turn.id, None, courteous);
    var finished := stored.(feed := FinishItems(stored.feed, turn.id, None));
    KeptOnward(db, stored, finished, multiset{}, multiset{}, courteous);
    var cleared := finished.(commands := [], cancellations := map[], record := Some(next));
    QuietIsKept(finished, cleared, courteous);
    KeptOnward(db, finished, cleared, multiset{}, multiset{}, courteous);
    EmitIsKept(cleared, TurnEnded(outcome, turn), courteous);
    var ended := Emit(cleared, TurnEnded(outcome, turn));
    KeptOnward(db, cleared, ended, multiset{}, multiset{turn.id}, courteous);
    EmitIsKept(ended, SessionLogged(next.status), courteous);
    KeptOnward(db, ended, Emit(ended, SessionLogged(next.status)), multiset{turn.id}, multiset{}, courteous);
  }

  /** A seal ends its root turn once and each child it lists once, and nothing else. */
  lemma SealEndsWhatItLists(db: Db, record: Record, outcome: TurnStatus, error: Option<string>)
    requires record.execution.Some? && Keyed(db) && Sealed(db, record, outcome, error).Ok?
    ensures var d := Sealed(db, record, outcome, error).value;
            Kept(db, d.db, IdsIn(OpenChildren(db, outcome)) + multiset{record.execution.value.turn}, Sorted(db))
  {
    var children, failure, root := OpenChildren(db, outcome), TurnErrorOf(error), record.execution.value.turn;
    if Sorted(db) { ListedAreChildren(db, outcome); }
    ChildrenAreKept(db, children, outcome, failure, Sorted(db));
    var closed := CloseChildren(db, children, outcome, failure);
    QuietIsKept(closed, closed.(pending := []), Sorted(db));
    KeptOnward(db, closed, closed.(pending := []), IdsIn(children), multiset{}, Sorted(db));
    GetIn(closed.turns, root);
    var turn := Get(closed.turns, root).value.(status := outcome, error := failure);
    RootIsKept(closed.(pending := []), turn, SealedRecord(record, outcome, error), outcome, Sorted(db));
    KeptOnward(db, closed.(pending := []), Sealed(db, record, outcome, error).value.db,
               IdsIn(children), multiset{root}, Sorted(db));
  }

  // --- The account over runs ----------------------------------------------------------------------------------

  function ActiveOf(record: Record): set<Id> {
    if record.execution.Some? then {record.execution.value.turn} else {}
  }

  function ActiveIn(db: Db): set<Id> { if db.record.Some? then ActiveOf(db.record.value) else {} }

  /** Each root turn the log created has ended once, unless it is active; and `extra` ended besides. */
  ghost predicate Accounted(db: Db, active: set<Id>, extra: multiset<Id>) {
    && Keyed(db) && active <= Born(db.feed.log)
    && (forall id | id in Born(db.feed.log) :: id.Minted? && id.n < db.feed.minted)
    && Ended(db.feed.log) == multiset(Born(db.feed.log) - active) + extra
  }

  lemma KeptIsAccounted(a: Db, b: Db, active: set<Id>, extra: multiset<Id>, ends: multiset<Id>, courteous: bool)
    requires Accounted(a, active, extra) && Kept(a, b, ends, courteous)
    ensures Accounted(b, active, extra + ends)
  {
  }

  /** What differs is not about turns. */
  lemma SameIsAccounted(a: Db, b: Db, active: set<Id>, extra: multiset<Id>)
    requires Accounted(a, active, extra) && b.turns == a.turns && b.pending == a.pending && b.feed == a.feed
    ensures Accounted(b, active, extra)
  {
  }

  lemma BirthIsAccounted(db: Db, turn: Turn, extra: multiset<Id>)
    requires Accounted(db, {}, extra) && turn.subagent.None?
    requires turn.id.Minted? && turn.id.n < db.feed.minted && turn.id !in Born(db.feed.log)
    ensures var next := Emit(db, TurnCreated(turn));
            Accounted(next, {turn.id}, extra) && (Sorted(db) ==> Sorted(next))
  {
    OneMoreEvent(db.feed.log, TurnCreated(turn));
    assert Born(db.feed.log) + {turn.id} - {turn.id} == Born(db.feed.log) - {};
  }

  lemma MintingIsAccounted(db: Db, turn: Turn, extra: multiset<Id>)
    requires Accounted(db, {}, extra) && turn.id == Minted(db.feed.minted) && turn.subagent.None?
    ensures var stored := PutTurn(db.(feed := db.feed.(minted := db.feed.minted + 1)), turn);
            Accounted(stored, {}, extra) && (Sorted(db) ==> Sorted(stored))
  {
    var minted := db.(feed := db.feed.(minted := db.feed.minted + 1));
    QuietIsKept(db, minted, true);
    KeptIsAccounted(db, minted, {}, extra, multiset{}, true);
    PutIsKept(minted, turn, true);
    KeptIsAccounted(minted, PutTurn(minted, turn), {}, extra, multiset{}, true);
  }

  lemma BeginIsAccounted(db: Db, record: Record, input: seq<Message>, extra: multiset<Id>)
    requires Accounted(db, {}, extra)
    ensures var d := Begin(db, record, input);
            && Accounted(d.db, ActiveOf(d.record), extra) && (Sorted(db) ==> Sorted(d.db))
  {
    var turn := Turn(Minted(db.feed.minted), None, Queued, None, None);
    var minted := db.(feed := db.feed.(minted := db.feed.minted + 1));
    assert turn.id !in Born(db.feed.log);
    MintingIsAccounted(db, turn, extra);
    var stored := PutTurn(minted, turn);
    BirthIsAccounted(stored, turn, extra);
    EmitIsKept(Emit(stored, TurnCreated(turn)), SessionLogged(Working), true);
    KeptIsAccounted(Emit(stored, TurnCreated(turn)), Begin(db, record, input).db, {turn.id}, extra, multiset{}, true);
  }

  lemma InputIsAccounted(db: Db, turn: Id, input: seq<Message>, active: set<Id>, extra: multiset<Id>)
    requires Accounted(db, active, extra)
    ensures var next := db.(feed := AddInput(db.feed, turn, input).0);
            Accounted(next, active, extra) && (Sorted(db) ==> Sorted(next))
  {
    AddInputMints(db.feed, turn, input);
    AddInputIsQuiet(db.feed, turn, input);
    var next := db.(feed := AddInput(db.feed, turn, input).0);
    QuietIsKept(db, next, true);
    KeptIsAccounted(db, next, active, extra, multiset{}, true);
  }

  lemma SealIsAccounted(db: Db, record: Record, outcome: TurnStatus, error: Option<string>, extra: multiset<Id>)
    requires record.execution.Some? && Accounted(db, ActiveOf(record), extra) && Sealed(db, record, outcome, error).Ok?
    ensures var d := Sealed(db, record, outcome, error).value;
            && Accounted(d.db, {}, extra + IdsIn(OpenChildren(db, outcome))) && (Sorted(db) ==> Sorted(d.db))
  {
    SealEndsWhatItLists(db, record, outcome, error);
    var born, root := Born(db.feed.log), record.execution.value.turn;
    assert born == (born - {root}) + {root};
    assert multiset(born) == multiset(born - {root}) + multiset{root};
    assert born - {} == born;
  }

  lemma CompleteIsAccounted(s: Setup, db: Db, record: Record, outcome: TurnStatus, error: Option<string>, extra: multiset<Id>)
    requires record.execution.Some? && Accounted(db, ActiveOf(record), extra)
    requires Complete(s, db, record, outcome, error).Ok?
    ensures var next := Complete(s, db, record, outcome, error).value;
            && Accounted(next, ActiveIn(next), extra + IdsIn(OpenChildren(db, outcome)))
            && (Sorted(db) ==> Sorted(next))
  {
    SealIsAccounted(db, record, outcome, error, extra);
    SealedIsSaved(db, record, outcome, error);
    var d, after := Sealed(db, record, outcome, error).value, extra + IdsIn(OpenChildren(db, outcome));
    var cleared := d.db.(refused := []);
    SameIsAccounted(d.db, cleared, {}, after);
    RestartIsAccounted(cleared, d.record, Joined(d.db.refused[..PageOfRefused(s, d.db.refused)]), after);
  }

  lemma RestartIsAccounted(db: Db, record: Record, input: seq<Message>, extra: multiset<Id>)
    requires Accounted(db, {}, extra)
    ensures var next := Restarted(db, record, input);
            Accounted(next, ActiveIn(next), extra) && (Sorted(db) ==> Sorted(next))
  {
    BeginIsAccounted(db, record, input, extra);
    var started := Begin(db, record, input);
    InputIsAccounted(started.db, started.record.execution.value.turn, input, ActiveOf(started.record), extra);
    var added := started.db.(feed := AddInput(started.db.feed, started.record.execution.value.turn, input).0);
    SameIsAccounted(added, Saved(started.(db := added)), ActiveOf(started.record), extra);
  }

  // --- Client and environment steps ----------------------------------------------------------------------------

  lemma QueueingIsAccounted(db: Db, turn: Id, control: Control, items: seq<Id>, active: set<Id>, extra: multiset<Id>)
    requires Accounted(db, active, extra)
    ensures var next := Enqueue(db, turn, control, items); Accounted(next, active, extra) && (Sorted(db) ==> Sorted(next))
  {
    var next := Enqueue(db, turn, control, items);
    QuietIsKept(db, next, true);
    KeptIsAccounted(db, next, active, extra, multiset{}, true);
  }

  lemma AnsweringIsAccounted(db: Db, turn: Turn, item: Item, active: set<Id>, extra: multiset<Id>)
    requires Accounted(db, active, extra) && item.id == Minted(db.feed.minted)
    ensures var next := db.(feed := AddItem(db.feed, turn.subagent, item.turn, item.status, item.content));
            Accounted(next, active, extra) && (Sorted(db) ==> Sorted(next))
  {
    var next := db.(feed := AddItem(db.feed, turn.subagent, item.turn, item.status, item.content));
    OneMoreEvent(db.feed.log, ItemAdded(item.turn, None, item));
    QuietIsKept(db, next, true);
    KeptIsAccounted(db, next, active, extra, multiset{}, true);
  }

  lemma ResumingIsAccounted(db: Db, turn: Turn, active: set<Id>, extra: multiset<Id>)
    requires Accounted(db, active, extra) && (Sorted(db) ==> Fits(db, turn))
    ensures var next := Emit(PutTurn(db, turn), SessionLogged(Working));
            Accounted(next, active, extra) && (Sorted(db) ==> Sorted(next))
  {
    PutIsKept(db, turn, true);
    EmitIsKept(PutTurn(db, turn), SessionLogged(Working), true);
    KeptOnward(db, PutTurn(db, turn), Emit(PutTurn(db, turn), SessionLogged(Working)), multiset{}, multiset{}, true);
    KeptIsAccounted(db, Emit(PutTurn(db, turn), SessionLogged(Working)), active, extra, multiset{}, true);
  }

  lemma AnswersEndAs(d: Draft, driver: Driver, event: InputEvent, turn: Turn, queued: Db)
    requires event.UserTool? && AcceptTool(d, driver, event).Ok? && Get(d.db.turns, event.turn) == Some(turn)
    requires queued == Enqueue(d.db.(feed := AddItem(d.db.feed, turn.subagent, event.turn, if event.success then Done else Bad,
                                                     Answer(event.call, event.output))),
                               d.record.execution.value.turn, ToolResult(event.call, event.success, event.output), [])
    ensures var next := AcceptTool(d, driver, event).value;
            && (next.db == queued || next.db == Emit(PutTurn(queued, turn.(status := InProgress)), SessionLogged(Working)))
            && next.record.execution == d.record.execution
  {
  }

  lemma ToolIsAccounted(d: Draft, driver: Driver, event: InputEvent, extra: multiset<Id>)
    requires event.UserTool? && Accounted(d.db, ActiveOf(d.record), extra) && AcceptTool(d, driver, event).Ok?
    ensures var next := AcceptTool(d, driver, event).value;
            Accounted(next.db, ActiveOf(next.record), extra) && (Sorted(d.db) ==> Sorted(next.db))
  {
    var active, root := ActiveOf(d.record), d.record.execution.value.turn;
    var turn := Get(d.db.turns, event.turn).value;
    var item := Item(Minted(d.db.feed.minted), event.turn, if event.success then Done else Bad, Answer(event.call, event.output));
    AnsweringIsAccounted(d.db, turn, item, active, extra);
    var answered := d.db.(feed := AddItem(d.db.feed, turn.subagent, event.turn, item.status, item.content));
    var control := ToolResult(event.call, event.success, event.output);
    QueueingIsAccounted(answered, root, control, [], active, extra);
    var queued := Enqueue(answered, root, control, []);
    GetIn(queued.turns, event.turn);
    ResumingIsAccounted(queued, turn.(status := InProgress), active, extra);
    AnswersEndAs(d, driver, event, turn, queued);
  }

  lemma MessageIsAccounted(d: Draft, driver: Driver, input: seq<Message>, extra: multiset<Id>)
    requires Accounted(d.db, ActiveOf(d.record), extra) && AcceptMessage(d, driver, input).Ok?
    ensures var next := AcceptMessage(d, driver, input).value;
            Accounted(next.db, ActiveOf(next.record), extra) && (Sorted(d.db) ==> Sorted(next.db))
  {
    if d.record.execution.Some? {
      var turn := d.record.execution.value.turn;
      InputIsAccounted(d.db, turn, input, {turn}, extra);
      var (feed, ids) := AddInput(d.db.feed, turn, input);
      QueueingIsAccounted(d.db.(feed := feed), turn, Steer(input), ids, {turn}, extra);
    } else {
      BeginIsAccounted(d.db, d.record, input, extra);
      var started := Begin(d.db, d.record, input);
      InputIsAccounted(started.db, started.record.execution.value.turn, input, ActiveOf(started.record), extra);
    }
  }

  lemma {:induction false} InputsAreAccounted(d: Draft, driver: Driver, events: seq<InputEvent>, extra: multiset<Id>)
    requires Accounted(d.db, ActiveOf(d.record), extra) && AcceptAll(d, driver, events).Ok?
    ensures var next := AcceptAll(d, driver, events).value;
            Accounted(next.db, ActiveOf(next.record), extra) && (Sorted(d.db) ==> Sorted(next.db))
    decreases |events|
  {
    if events != [] {
      match events[0] {
        case UserMessage(input) => MessageIsAccounted(d, driver, input, extra);
        case UserCancel =>
          if d.record.execution.Some? {
            QueueingIsAccounted(d.db, d.record.execution.value.turn, Cancel, [], ActiveOf(d.record), extra);
          }
        case UserTool(_, _, _, _, _) => ToolIsAccounted(d, driver, events[0], extra);
      }
      InputsAreAccounted(AcceptEvent(d, driver, events[0]).value, driver, events[1..], extra);
    }
  }

  lemma SubmissionIsAccounted(s: Setup, db: Db, driver: Driver, events: seq<InputEvent>, key: string, extra: multiset<Id>)
    requires Accounted(db, ActiveIn(db), extra) && AcceptInput(s, db, driver, events, key).Ok?
    ensures var next := AcceptInput(s, db, driver, events, key).value;
            Accounted(next, ActiveIn(next), extra) && (Sorted(db) ==> Sorted(next))
  {
    if key !in db.accepted {
      var d := Draft(db, db.record.value);
      InputsAreAccounted(d, driver, events, extra);
      var next := AcceptAll(d, driver, events).value;
      SameIsAccounted(next.db, AcceptInput(s, db, driver, events, key).value, ActiveOf(next.record), extra);
    }
  }

  lemma ReportsFeed(db: Db, status: EnvironmentStatus, once: Feed)
    requires ApplyEnvironment(db, status).Ok? && once == Logged(db.feed, EnvironmentLogged(status))
    ensures var next := ApplyEnvironment(db, status).value;
            && next.turns == db.turns && next.pending == db.pending && ActiveIn(next) == ActiveIn(db)
            && (next.feed == db.feed || next.feed == once || next.feed == Logged(once, SessionLogged(Faulted)))
  {
  }

  lemma ReportsAreQuiet(db: Db, status: EnvironmentStatus)
    requires ApplyEnvironment(db, status).Ok?
    ensures var next := ApplyEnvironment(db, status).value;
            && next.turns == db.turns && next.pending == db.pending && next.feed.minted == db.feed.minted
            && Quiet(db.feed.log, next.feed.log) && ActiveIn(next) == ActiveIn(db)
  {
    var once := Logged(db.feed, EnvironmentLogged(status));
    OneMoreEvent(db.feed.log, EnvironmentLogged(status));
    OneMoreEvent(once.log, SessionLogged(Faulted));
    ReportsFeed(db, status, once);
  }

  lemma EnvironmentIsAccounted(db: Db, status: EnvironmentStatus, extra: multiset<Id>)
    requires Accounted(db, ActiveIn(db), extra) && ApplyEnvironment(db, status).Ok?
    ensures var next := ApplyEnvironment(db, status).value;
            Accounted(next, ActiveIn(next), extra) && (Sorted(db) ==> Sorted(next))
  {
    var next := ApplyEnvironment(db, status).value;
    ReportsAreQuiet(db, status);
    QuietIsKept(db, next, true);
    KeptIsAccounted(db, next, ActiveIn(db), extra, multiset{}, true);
  }

  lemma StartIsAccounted(db: Db, record: Record, extra: multiset<Id>)
    requires db.record == Some(record) && record.execution.Some? && Accounted(db, ActiveOf(record), extra)
    requires MarkRunning(db, record).Ok?
    ensures var next := MarkRunning(db, record).value;
            Accounted(next, ActiveIn(next), extra) && (Sorted(db) ==> Sorted(next))
  {
    var id := record.execution.value.turn;
    GetIn(db.turns, id);
    var turn := Get(db.turns, id).value.(status := InProgress);
    var running := db.(record := Some(record.(phase := Running)));
    PutIsKept(running, turn, true);
    EmitIsKept(PutTurn(running, turn), TurnStarted(turn), true);
    KeptOnward(running, PutTurn(running, turn), MarkRunning(db, record).value, multiset{}, multiset{}, true);
    SameIsAccounted(db, running, ActiveOf(record), extra);
    KeptIsAccounted(running, MarkRunning(db, record).value, ActiveOf(record), extra, multiset{}, true);
  }

  lemma PollIsAccounted(db: Db, record: Record, step: Step, extra: multiset<Id>, courteous: bool)
    requires step.Poll? && (courteous ==> CourteousStep(step)) && WellShaped(db)
    requires db.record == Some(record) && record.execution.Some? && Accounted(db, ActiveOf(record), extra)
    requires AcceptBatch(db, record, step.entries, step.completed, step.cancel).Ok?
    ensures var next := AcceptBatch(db, record, step.entries, step.completed, step.cancel).value;
            && Accounted(next, ActiveIn(next), extra + NamedIn(record.cursor, step.entries))
            && (courteous && Sorted(db) ==> Sorted(next))
  {
    var root := record.execution.value.turn;
    EntriesEndWhatTheyName(Draft(db, record), root, step.entries, courteous);
    EntriesKeepShape(Draft(db, record), root, step.entries);
    var d := AcceptEntries(Draft(db, record), root, step.entries).value;
    var ends := NamedIn(record.cursor, step.entries);
    KeptIsAccounted(db, d.db, ActiveOf(record), extra, ends, courteous);
    SameIsAccounted(d.db, AcceptBatch(db, record, step.entries, step.completed, step.cancel).value, ActiveOf(record), extra + ends);
  }

  // --- Every run ------------------------------------------------------------------------------------------------

  /** What an accepted step ends beyond the root turn it may seal. */
  function Extra(db: Db, step: Step): multiset<Id> {
    match step
    case Poll(_, entries, _, _) => if db.record.Some? then NamedIn(db.record.value.cursor, entries) else multiset{}
    case Commit(_, _) => IdsIn(OpenChildren(db, Completed))
    case Seal(_, outcome, _) => IdsIn(OpenChildren(db, outcome))
    case _ => multiset{}
  }

  /** The step drops the session's records, its log among them. */
  predicate Purges(s: Setup, db: Db, step: Step) {
    step.Drop? && Transact(s, db, step).Ok? && (db.record.Some? || db.tombstone)
  }

  function Extras(s: Setup, db: Db, steps: seq<Step>, before: multiset<Id>): multiset<Id>
    decreases |steps|
  {
    if steps == [] then before
    else
      Extras(s, After(s, db, steps[0]), steps[1..], ExtraSince(s, db, steps[0], before))
  }

  /** What the log then holds of them, having held `before`. */
  function ExtraSince(s: Setup, db: Db, step: Step, before: multiset<Id>): multiset<Id> {
    if Purges(s, db, step) then multiset{}
    else if Transact(s, db, step).Ok? then before + Extra(db, step)
    else before
  }

  lemma RefusalIsAccounted(db: Db, operation: Operation, extra: multiset<Id>)
    requires Accounted(db, ActiveIn(db), extra)
    ensures var next := Reject(db, operation); Accounted(next, ActiveIn(next), extra) && (Sorted(db) ==> Sorted(next))
  {
    RefusalLeavesTurns(db, operation);
    QuietIsKept(db, Reject(db, operation), true);
    KeptIsAccounted(db, Reject(db, operation), ActiveIn(db), extra, multiset{}, true);
  }

  lemma RefusalLeavesTurns(db: Db, operation: Operation)
    ensures var next := Reject(db, operation);
            && next.record == db.record && next.turns == db.turns && next.pending == db.pending
            && next.feed.log == db.feed.log && next.feed.minted == db.feed.minted
  {
  }

  lemma FencedStepIsAccounted(s: Setup, db: Db, record: Record, step: Step, extra: multiset<Id>)
    requires WellShaped(db) && Accounted(db, ActiveIn(db), extra) && IsFenced(step)
    requires db.record == Some(record) && record.execution.Some? && Reconcile(s, db, record, step).Ok?
    ensures var next := Reconcile(s, db, record, step).value;
            && Accounted(next, ActiveIn(next), extra + Extra(db, step))
            && (Sorted(db) && CourteousStep(step) ==> Sorted(next))
  {
    match step
    case Start(_) => StartIsAccounted(db, record, extra);
    case Poll(_, _, _, _) => PollIsAccounted(db, record, step, extra, CourteousStep(step));
    case Commit(_, checkpoint) =>
      CompleteIsAccounted(s, db, record.(checkpoint := Some(checkpoint)), Completed, None, extra);
    case Seal(_, outcome, error) => CompleteIsAccounted(s, db, record, outcome, error, extra);
    case Deliver(_, operation) => SameIsAccounted(db, Discard(db, operation), ActiveIn(db), extra);
    case Refuse(_, operation) => RefusalIsAccounted(db, operation, extra);
  }

  lemma ClientStepIsAccounted(s: Setup, db: Db, step: Step, extra: multiset<Id>)
    requires WellShaped(db) && Accounted(db, ActiveIn(db), extra) && !IsFenced(step) && Transact(s, db, step).Ok?
    ensures var next := Transact(s, db, step).value;
            && Accounted(next, ActiveIn(next), if Purges(s, db, step) then multiset{} else extra)
            && (Sorted(db) ==> Sorted(next))
  {
    match step
    case Submit(driver, events, key) => SubmissionIsAccounted(s, db, driver, events, key, extra);
    case Report(status) => EnvironmentIsAccounted(db, status, extra);
    case Delete => SameIsAccounted(db, MarkDeleted(db).value, ActiveIn(db), extra);
    case Drop =>
  }

  lemma StepIsAccounted(s: Setup, db: Db, step: Step, extra: multiset<Id>)
    requires WellShaped(db) && Accounted(db, ActiveIn(db), extra)
    ensures var next := After(s, db, step);
            && Accounted(next, ActiveIn(next), ExtraSince(s, db, step, extra))
            && (Sorted(db) && CourteousStep(step) ==> Sorted(next))
  {
    if Transact(s, db, step).Ok? {
      if IsFenced(step) {
        FencedStepIsAccounted(s, db, db.record.value, step, extra);
      } else {
        ClientStepIsAccounted(s, db, step, extra);
      }
    }
  }

  lemma {:induction false} RunIsAccounted(s: Setup, db: Db, steps: seq<Step>, extra: multiset<Id>)
    requires WellShaped(db) && Accounted(db, ActiveIn(db), extra)
    ensures Accounted(Run(s, db, steps), ActiveIn(Run(s, db, steps)), Extras(s, db, steps, extra))
    decreases |steps|
  {
    if steps != [] {
      StepKeepsShape(s, db, steps[0]);
      StepIsAccounted(s, db, steps[0], extra);
      RunIsAccounted(s, After(s, db, steps[0]), steps[1..], ExtraSince(s, db, steps[0], extra));
    }
  }

  lemma CreatedIsAccounted(driver: string, revision: string, sandboxed: bool, transcript: Option<string>,
                           checkpoint: Option<Checkpoint>)
    ensures var db := Created(driver, revision, sandboxed, transcript, checkpoint);
            WellShaped(db) && Sorted(db) && Accounted(db, ActiveIn(db), multiset{})
  {
  }

  /**
   The whole account, on every run: the terminal events in the log are one for each root turn that
   is no longer active, and what the runtime's reports added.
   */
  lemma EndingsAreAccounted(s: Setup, driver: string, revision: string, sandboxed: bool, transcript: Option<string>,
                            checkpoint: Option<Checkpoint>, steps: seq<Step>)
    ensures var created := Created(driver, revision, sandboxed, transcript, checkpoint);
            var db := Run(s, created, steps);
            && ActiveIn(db) <= Born(db.feed.log)
            && Ended(db.feed.log) == multiset(Born(db.feed.log) - ActiveIn(db)) + Extras(s, created, steps, multiset{})
  {
    CreatedIsAccounted(driver, revision, sandboxed, transcript, checkpoint);
    RunIsAccounted(s, Created(driver, revision, sandboxed, transcript, checkpoint), steps, multiset{});
  }

  // --- When a turn ends otherwise than it should -------------------------------------------------------------------

  /**
   The step ends this turn beside the seal of a root: a new event reports it as failed or cancelled,
   or a seal finds it held for the checkpoint, or stored as an open child.
   */
  predicate Meddles(s: Setup, db: Db, step: Step, id: Id) {
    Transact(s, db, step).Ok? &&
    match step
    case Poll(_, entries, _, _) => id in NamedIn(db.record.value.cursor, entries)
    case Commit(_, _) => Has(db.pending, id)
    case Seal(_, outcome, _) =>
      if outcome == Completed then Has(db.pending, id) else Has(db.turns, id) && IsOpen(Get(db.turns, id).value)
    case _ => false
  }

  /** Some step since the log began did. */
  predicate Meddled(s: Setup, db: Db, steps: seq<Step>, id: Id, before: bool)
    decreases |steps|
  {
    if steps == [] then before
    else
      Meddled(s, After(s, db, steps[0]), steps[1..], id,
              !Purges(s, db, steps[0]) && (before || Meddles(s, db, steps[0], id)))
  }

  lemma {:induction false} IdsAreListed(children: seq<Turn>, id: Id)
    ensures id in IdsIn(children) <==> exists c :: c in children && c.id == id
  {
    if children != [] {
      assert children == [children[0]] + children[1..];
      IdsAreListed(children[1..], id);
    }
  }

  lemma {:induction false} RowIsFound(t: Table<Id, Turn>, r: Row<Id, Turn>)
    requires r in t
    ensures Has(t, r.key)
  {
    if r != t[0] { RowIsFound(t[1..], r); }
  }

  lemma {:induction false} ListedAreOpen(turns: Table<Id, Turn>, status: TurnStatus, c: Turn)
    requires c in ChildrenAt(turns, status)
    ensures c.status == status && c.subagent.Some? && exists r :: r in turns && r.value == c
  {
    assert turns[0] in turns;
    if c in ChildrenAt(turns[1..], status) {
      ListedAreOpen(turns[1..], status, c);
      var r :| r in turns[1..] && r.value == c;
      assert r in turns;
    }
  }

  /** A completed seal lists exactly the held turns, any other exactly the stored open children. */
  lemma ListedIff(db: Db, outcome: TurnStatus, id: Id)
    requires Keyed(db)
    ensures id in IdsIn(OpenChildren(db, outcome))
            <==> if outcome == Completed then Has(db.pending, id) else Has(db.turns, id) && IsOpen(Get(db.turns, id).value)
  {
    IdsAreListed(OpenChildren(db, outcome), id);
    if outcome == Completed { HeldListedIff(db, id); } else { OpenListedIff(db, outcome, id); }
  }

  lemma HeldListedIff(db: Db, id: Id)
    requires Keyed(db)
    ensures (exists c :: c in OpenChildren(db, Completed) && c.id == id) <==> Has(db.pending, id)
  {
    GetIn(db.pending, id);
    if Has(db.pending, id) { RowsOfHasRow(db.pending, Row(id, Get(db.pending, id).value)); }
    if c :| c in OpenChildren(db, Completed) && c.id == id {
      RowsOfHasNoOther(db.pending, c);
      var r :| r in db.pending && r.value == c;
      RowIsFound(db.pending, r);
    }
  }

  lemma OpenListedIff(db: Db, outcome: TurnStatus, id: Id)
    requires Keyed(db) && outcome != Completed
    ensures (exists c :: c in OpenChildren(db, outcome) && c.id == id)
            <==> Has(db.turns, id) && IsOpen(Get(db.turns, id).value)
  {
    if Has(db.turns, id) && IsOpen(Get(db.turns, id).value) {
      OpenChildIsListed(db, outcome, id);
      assert id in IdsOf(OpenChildren(db, outcome));
    }
    if c :| c in OpenChildren(db, outcome) && c.id == id {
      if c in ChildrenAt(db.turns, InProgress) {
        ListedAreOpen(db.turns, InProgress, c);
      } else {
        ListedAreOpen(db.turns, Waiting, c);
      }
      var r :| r in db.turns && r.value == c;
      InGet(db.turns, r);
    }
  }

  lemma MeddlesIff(s: Setup, db: Db, step: Step, id: Id)
    requires Keyed(db)
    ensures Meddles(s, db, step, id) <==> Transact(s, db, step).Ok? && id in Extra(db, step)
  {
    match step
    case Commit(_, _) => ListedIff(db, Completed, id);
    case Seal(_, outcome, _) => ListedIff(db, outcome, id);
    case _ =>
  }

  lemma {:induction false} MeddledIff(s: Setup, db: Db, steps: seq<Step>, id: Id, before: multiset<Id>)
    requires WellShaped(db) && Accounted(db, ActiveIn(db), before)
    ensures Meddled(s, db, steps, id, id in before) <==> id in Extras(s, db, steps, before)
    decreases |steps|
  {
    if steps != [] {
      StepKeepsShape(s, db, steps[0]);
      StepIsAccounted(s, db, steps[0], before);
      MeddlesIff(s, db, steps[0], id);
      MeddledIff(s, After(s, db, steps[0]), steps[1..], id,
                 ExtraSince(s, db, steps[0], before));
    }
  }

  /**
   On every run, whatever the runtime reports: a root turn has one terminal event once it is no longer
   active and none before, and any other identifier has none, if and only if no step meddled with it.
   A step that does is recognised before it is taken.
   */
  lemma RootTurnsEndOnceIff(s: Setup, driver: string, revision: string, sandboxed: bool, transcript: Option<string>,
                            checkpoint: Option<Checkpoint>, steps: seq<Step>, id: Id)
    ensures var created := Created(driver, revision, sandboxed, transcript, checkpoint);
            var db := Run(s, created, steps);
            Ended(db.feed.log)[id] == (if id in Born(db.feed.log) && id !in ActiveIn(db) then 1 else 0)
            <==> !Meddled(s, created, steps, id, false)
  {
    var created := Created(driver, revision, sandboxed, transcript, checkpoint);
    CreatedIsAccounted(driver, revision, sandboxed, transcript, checkpoint);
    EndingsAreAccounted(s, driver, revision, sandboxed, transcript, checkpoint, steps);
    MeddledIff(s, created, steps, id, multiset{});
  }

  // --- A courteous runtime --------------------------------------------------------------------------------------

  lemma {:induction false} CourteousEntriesNameNoRoot(cursor: nat, entries: seq<J.Stamped>, n: nat)
    requires forall e | e in entries :: Courteous(e.event)
    ensures Minted(n) !in NamedIn(cursor, entries)
    decreases |entries|
  {
    if entries != [] {
      assert entries[0] in entries;
      assert forall e | e in entries[1..] :: e in entries;
      CourteousEntriesNameNoRoot(if entries[0].at <= cursor then cursor else entries[0].at, entries[1..], n);
    }
  }

  lemma CourtesyDoesNotMeddle(s: Setup, db: Db, step: Step, n: nat)
    requires Sorted(db) && CourteousStep(step)
    ensures !Meddles(s, db, step, Minted(n))
  {
    GetIn(db.turns, Minted(n));
    GetIn(db.pending, Minted(n));
    if step.Poll? && Transact(s, db, step).Ok? { CourteousEntriesNameNoRoot(db.record.value.cursor, step.entries, n); }
  }

  lemma {:induction false} CourteousRunsAreUnmeddled(s: Setup, db: Db, steps: seq<Step>, n: nat, extra: multiset<Id>)
    requires WellShaped(db) && Sorted(db) && Accounted(db, ActiveIn(db), extra) && AllCourteous(steps)
    ensures !Meddled(s, db, steps, Minted(n), false)
    decreases |steps|
  {
    if steps != [] {
      assert steps[0] in steps;
      assert forall step | step in steps[1..] :: step in steps;
      StepKeepsShape(s, db, steps[0]);
      StepIsAccounted(s, db, steps[0], extra);
      CourtesyDoesNotMeddle(s, db, steps[0], n);
      CourteousRunsAreUnmeddled(s, After(s, db, steps[0]), steps[1..], n,
                                ExtraSince(s, db, steps[0], extra));
    }
  }

  /** A runtime that names its child turns itself never meddles with a root turn, so each ends once. */
  lemma EachRootTurnEndsOnce(s: Setup, driver: string, revision: string, sandboxed: bool, transcript: Option<string>,
                             checkpoint: Option<Checkpoint>, steps: seq<Step>, n: nat)
    requires AllCourteous(steps)
    ensures var db := Run(s, Created(driver, revision, sandboxed, transcript, checkpoint), steps);
            Ended(db.feed.log)[Minted(n)]
            == if Minted(n) in Born(db.feed.log) && Minted(n) !in ActiveIn(db) then 1 else 0
  {
    CreatedIsAccounted(driver, revision, sandboxed, transcript, checkpoint);
    CourteousRunsAreUnmeddled(s, Created(driver, revision, sandboxed, transcript, checkpoint), steps, n, multiset{});
    RootTurnsEndOnceIff(s, driver, revision, sandboxed, transcript, checkpoint, steps, Minted(n));
  }

  // --- What a seal closes -----------------------------------------------------------------------------------

  predicate IsOpen(turn: Turn) { turn.subagent.Some? && (turn.status == InProgress || turn.status == Waiting) }

  function IdsOf(children: seq<Turn>): set<Id> { set c | c in children :: c.id }

  /** Closing leaves each turn it names with the outcome, and every other as it was. */
  lemma {:induction false} ClosedOrAsBefore(
      db: Db, children: seq<Turn>, outcome: TurnStatus, error: Option<TurnError>, id: Id)
    requires outcome == Cancelled || outcome == Failed
    ensures var next := CloseChildren(db, children, outcome, error);
            if id in IdsOf(children) then Get(next.turns, id).Some? && Get(next.turns, id).value.status == outcome
            else Get(next.turns, id) == Get(db.turns, id)
    decreases |children|
  {
    if children != [] {
      var c := children[0];
      assert c in children;
      var closed := c.(status := outcome, error := error);
      var next := CloseChild(db, c, outcome, error);
      PutGet(db.turns, c.id, closed, id);
      ClosedOrAsBefore(next, children[1..], outcome, error, id);
      assert children == [c] + children[1..];
      assert IdsOf(children) == {c.id} + IdsOf(children[1..]);
    }
  }

  lemma {:induction false} OpenRowsAreListed(turns: Table<Id, Turn>, status: TurnStatus, r: Row<Id, Turn>)
    requires r in turns && r.value.status == status && r.value.subagent.Some?
    ensures r.value in ChildrenAt(turns, status)
  {
    if r != turns[0] { OpenRowsAreListed(turns[1..], status, r); }
  }

  lemma OpenChildIsListed(db: Db, outcome: TurnStatus, id: Id)
    requires Has(db.turns, id) && IsOpen(Get(db.turns, id).value) && outcome != Completed
    requires forall r | r in db.turns :: r.value.id == r.key
    ensures id in IdsOf(OpenChildren(db, outcome))
  {
    GetIn(db.turns, id);
    var r := Row(id, Get(db.turns, id).value);
    OpenRowsAreListed(db.turns, r.value.status, r);
    assert r.value in OpenChildren(db, outcome) && r.value.id == id;
  }

  /** A turn that fails or is cancelled leaves no child turn open, whatever the runtime reported. */
  lemma SealsLeaveNoChildOpen(db: Db, record: Record, outcome: TurnStatus, error: Option<string>, id: Id)
    requires record.execution.Some? && Sealed(db, record, outcome, error).Ok?
    requires outcome == Cancelled || outcome == Failed
    requires forall r | r in db.turns :: r.value.id == r.key
    ensures var d := Sealed(db, record, outcome, error).value;
            Get(d.db.turns, id).Some? ==> !IsOpen(Get(d.db.turns, id).value)
    ensures Sealed(db, record, outcome, error).value.db.pending == []
  {
    var children, failure := OpenChildren(db, outcome), TurnErrorOf(error);
    var closed := CloseChildren(db, children, outcome, failure);
    ClosedOrAsBefore(db, children, outcome, failure, id);
    if Get(db.turns, id).Some? && IsOpen(Get(db.turns, id).value) { OpenChildIsListed(db, outcome, id); }
    var root := record.execution.value.turn;
    var turn := Get(closed.turns, root).value.(status := outcome, error := failure);
    PutGet(closed.turns, turn.id, turn, id);
  }

  lemma {:induction false} CompletedChildrenArePublished(db: Db, children: seq<Turn>, error: Option<TurnError>, c: Turn)
    requires c in children
    requires forall a, b | a in children && b in children && a.id == b.id :: a == b
    ensures var next := CloseChildren(db, children, Completed, error);
            Get(next.turns, c.id) == Some(c) && TurnEnded(Completed, c) in next.feed.log
    decreases |children|
  {
    var next := CloseChild(db, children[0], Completed, error);
    PutGet(db.turns, children[0].id, children[0], c.id);
    if c in children[1..] {
      forall a, b | a in children[1..] && b in children[1..] && a.id == b.id ensures a == b {
        assert a in children && b in children;
      }
      CompletedChildrenArePublished(next, children[1..], error, c);
    } else {
      ClosingKeepsOthers(next, children[1..], error, c);
    }
  }

  /** Publishing other children leaves this one stored and its terminal event in the log. */
  lemma {:induction false} ClosingKeepsOthers(db: Db, children: seq<Turn>, error: Option<TurnError>, c: Turn)
    requires Get(db.turns, c.id) == Some(c) && TurnEnded(Completed, c) in db.feed.log
    requires forall a | a in children :: a.id != c.id
    ensures var next := CloseChildren(db, children, Completed, error);
            Get(next.turns, c.id) == Some(c) && TurnEnded(Completed, c) in next.feed.log
    decreases |children|
  {
    if children != [] {
      var a := children[0];
      assert a in children;
      PutGet(db.turns, a.id, a, c.id);
      FinishingKeepsTheLog(db.feed, OfTurn(db.feed.outputs, a.id), a.subagent);
      ClosingKeepsOthers(CloseChild(db, a, Completed, error), children[1..], error, c);
    }
  }

  /** Finishing items only appends to the log. */
  lemma {:induction false} FinishingKeepsTheLog(feed: Feed, rows: Table<OutputKey, Position>, owner: Option<Id>)
    ensures feed.log <= FinishRows(feed, rows, owner).log
    decreases |rows|
  {
    if rows != [] {
      if rows[0].value.item.status == Open { var more := FinishItemWrites(feed, rows[0], owner); }
      FinishingKeepsTheLog(FinishItem(feed, rows[0], owner), rows[1..], owner);
    }
  }

  lemma {:induction false} RowsOfHasRow(t: Table<Id, Turn>, r: Row<Id, Turn>)
    requires r in t
    ensures r.value in RowsOf(t)
  {
    if r != t[0] { RowsOfHasRow(t[1..], r); }
  }

  lemma {:induction false} RowsOfHasNoOther(t: Table<Id, Turn>, c: Turn)
    requires c in RowsOf(t)
    ensures exists r :: r in t && r.value == c
  {
    assert t[0] in t;
    if c != t[0].value {
      RowsOfHasNoOther(t[1..], c);
      var r :| r in t[1..] && r.value == c;
      assert r in t;
    }
  }

  /** The seal of a completed turn publishes every child that finished, just as it was held. */
  lemma CompletedTurnsPublishTheirChildren(db: Db, record: Record, error: Option<string>, r: Row<Id, Turn>)
    requires record.execution.Some? && Sealed(db, record, Completed, error).Ok?
    requires Distinct(db.pending) && forall k | k in db.pending :: k.value.id == k.key
    requires r in db.pending && r.key != record.execution.value.turn
    requires forall k | k in db.turns :: k.value.id == k.key
    ensures var d := Sealed(db, record, Completed, error).value;
            Get(d.db.turns, r.key) == Some(r.value) && TurnEnded(Completed, r.value) in d.db.feed.log && d.db.pending == []
  {
    var children, failure := RowsOf(db.pending), TurnErrorOf(error);
    forall a, b | a in children && b in children && a.id == b.id ensures a == b {
      RowsOfHasNoOther(db.pending, a);
      RowsOfHasNoOther(db.pending, b);
      var x :| x in db.pending && x.value == a;
      var y :| y in db.pending && y.value == b;
      InGet(db.pending, x);
      InGet(db.pending, y);
    }
    RowsOfHasRow(db.pending, r);
    CompletedChildrenArePublished(db, children, failure, r.value);
    ChildrenStayKeyed(db, children, Completed, failure);
    var closed := CloseChildren(db, children, Completed, failure);
    var root := record.execution.value.turn;
    GetIn(closed.turns, root);
    var turn := Get(closed.turns, root).value.(status := Completed, error := failure);
    PutGet(closed.turns, turn.id, turn, r.key);
    FinishingKeepsTheLog(closed.feed, OfTurn(closed.feed.outputs, turn.id), None);
  }

  lemma {:induction false} ChildrenStayKeyed(db: Db, children: seq<Turn>, outcome: TurnStatus, error: Option<TurnError>)
    requires forall k | k in db.turns :: k.value.id == k.key
    ensures forall k | k in CloseChildren(db, children, outcome, error).turns :: k.value.id == k.key
    decreases |children|
  {
    if children != [] {
      var c := children[0];
      var closed := if outcome == Completed then c else c.(status := outcome, error := error);
      var next := CloseChild(db, c, outcome, error);
      forall k | k in next.turns ensures k.value.id == k.key { PutFrom(db.turns, closed.id, closed, k); }
      ChildrenStayKeyed(next, children[1..], outcome, error);
    }
  }
}
