/**
 The session object itself: its records in place, its transitions as the steps that rewrite them,
 and each transaction either done whole or rolled back. Every method is proved to have exactly the
 effect the transition functions give it.
 */
module SessionObjects {
  import opened Options
  import opened Tables
  import opened SessionStore
  import opened SessionEvents
  import opened SessionState
  import opened SessionRuns
  import J = JobStates

  /** What listing the rest of the input after `ids` comes to. */
  ghost predicate Adds(all: (Feed, seq<Id>), ids: seq<Id>, feed: Feed, turn: Id, rest: seq<Message>) {
    all.0 == AddInput(feed, turn, rest).0 && all.1 == ids + AddInput(feed, turn, rest).1
  }

  lemma AddsOne(all: (Feed, seq<Id>), ids: seq<Id>, feed: Feed, turn: Id, rest: seq<Message>)
    requires rest != [] && Adds(all, ids, feed, turn, rest)
    ensures Adds(all, ids + [Minted(feed.minted)], AddItem(feed, None, turn, Done, Input(rest[0])), turn, rest[1..])
  {
    var after := AddInput(AddItem(feed, None, turn, Done, Input(rest[0])), turn, rest[1..]).1;
    assert ids + ([Minted(feed.minted)] + after) == (ids + [Minted(feed.minted)]) + after;
  }

  /** Closing the rest is closing the next child and then the others. */
  lemma ClosingOneMore(db: Db, open: seq<Turn>, i: nat, outcome: TurnStatus, failure: Option<TurnError>)
    requires i < |open|
    ensures CloseChildren(db, open[i..], outcome, failure)
            == CloseChildren(CloseChild(db, open[i], outcome, failure), open[i + 1..], outcome, failure)
  {
    assert open[i..][1..] == open[i + 1..];
  }

  class SessionObject {
    const setup: Setup
    var record: Option<Record>
    var turns: Table<Id, Turn>
    var pending: Table<Id, Turn>
    var subagents: map<Id, bool>
    var commands: Table<Id, Operation>
    var cancellations: map<Id, Operation>
    var refused: Table<Id, seq<Message>>
    var accepted: map<string, string>
    var environment: Option<EnvironmentStatus>
    var tombstone: bool
    var minted: nat
    var items: Table<ItemKey, Item>
    var outputs: Table<OutputKey, Position>
    var counts: map<Id, nat>
    var log: seq<Event>

    function Public(): Feed
      reads this
    {
      Feed(minted, items, outputs, counts, log)
    }

    /** Everything the object stores. */
    function State(): Db
      reads this
    {
      Db(record, turns, pending, subagents, commands, cancellations, refused, accepted, environment, tombstone, Public())
    }

    constructor (setup: Setup, db: Db)
      ensures State() == db && this.setup == setup
    {
      this.setup := setup;
      record, turns, pending, subagents := db.record, db.turns, db.pending, db.subagents;
      commands, cancellations, refused, accepted := db.commands, db.cancellations, db.refused, db.accepted;
      environment, tombstone := db.environment, db.tombstone;
      minted, items, outputs, counts, log := db.feed.minted, db.feed.items, db.feed.outputs, db.feed.counts, db.feed.log;
    }

    method RestoreFeed(feed: Feed)
      modifies `minted, `items, `outputs, `counts, `log
      ensures Public() == feed
    {
      minted := feed.minted;
      items := feed.items;
      outputs := feed.outputs;
      counts := feed.counts;
      log := feed.log;
    }

    method RestoreQueues(db: Db)
      modifies `commands, `cancellations, `refused, `accepted
      ensures commands == db.commands && cancellations == db.cancellations && refused == db.refused && accepted == db.accepted
    {
      commands, cancellations, refused, accepted := db.commands, db.cancellations, db.refused, db.accepted;
    }

    method RestoreTurns(db: Db)
      modifies `turns, `pending, `subagents
      ensures turns == db.turns && pending == db.pending && subagents == db.subagents
    {
      turns, pending, subagents := db.turns, db.pending, db.subagents;
    }

    /** Puts every record back as it was when the transaction began. */
    method Restore(db: Db)
      modifies this
      ensures State() == db
    {
      RestoreFeed(db.feed);
      RestoreQueues(db);
      RestoreTurns(db);
      record, environment, tombstone := db.record, db.environment, db.tombstone;
    }

    method Append(event: Event)
      modifies `log
      ensures Public() == Logged(old(Public()), event)
    {
      log := log + [event];
    }

    method Mint() returns (id: Id)
      modifies `minted
      ensures id == Minted(old(minted)) && minted == old(minted) + 1
    {
      id := Minted(minted);
      minted := minted + 1;
    }

    method StoreTurn(turn: Turn)
      modifies `turns
      ensures State() == PutTurn(old(State()), turn)
    {
      turns := Put(turns, turn.id, turn);
    }

    // --- Output items ------------------------------------------------------------------------------------

    method Locate(key: OutputKey, owner: Option<Id>) returns (slot: Slot)
      ensures slot == Resolve(Public(), key, owner)
    {
      var previous := Get(outputs, key);
      if previous.Some? {
        slot := Slot(key, owner, previous, previous.value.item.id, previous.value.index);
      } else {
        slot := Slot(key, owner, None, Minted(minted), if key.turn in counts then counts[key.turn] else 0);
      }
    }

    method Claim(slot: Slot, item: Item)
      modifies `minted, `counts, `log
      ensures Public() == Claimed(old(Public()), slot, item)
    {
      if slot.previous.None? {
        minted := minted + 1;
        counts := counts[slot.key.turn := slot.index + 1];
        Append(ItemAdded(slot.key.turn, Some(slot.index), item));
      }
    }

    method Store(slot: Slot, item: Item)
      modifies `items, `outputs
      ensures Public() == Stored(old(Public()), slot, item)
    {
      items := Put(items, ItemKey(slot.owner, item.id), item);
      outputs := Put(outputs, slot.key, Position(slot.index, item));
    }

    method Publish(slot: Slot, item: Item)
      modifies `log
      ensures Public() == Published(old(Public()), slot, item)
    {
      Append(ItemDone(slot.key.turn, slot.index, item));
    }

    method Notify(slot: Slot, kind: string, part: nat, text: string)
      modifies `log
      ensures Public() == Noticed(old(Public()), slot, kind, part, text)
    {
      Append(Notice(kind, slot.key.turn, slot.id, slot.index, part, text));
    }

    method Stream(slot: Slot, text: string)
      modifies `log
      ensures Public() == Streamed(old(Public()), slot, text)
    {
      Append(TextDelta(slot.key.turn, slot.id, slot.index, text));
    }

    /** A text delta or a finished text of an assistant message. */
    method Speak(slot: Slot, text: string, phase: Option<string>)
      modifies `minted, `items, `outputs, `counts, `log
      ensures Public() == if phase.Some? then AcceptText(old(Public()), slot, text, phase.value)
                          else AcceptDelta(old(Public()), slot, text)
    {
      var item := MessageOf(slot, phase);
      if slot.previous.None? {
        Claim(slot, item);
        Notify(slot, "content_part.added", 0, "");
      }
      if phase.None? {
        item := item.(content := Text(item.content.text + text, item.content.phase));
        Stream(slot, text);
      } else {
        if slot.previous.None? { Stream(slot, text); }
        item := item.(content := Text(text, phase), status := Done);
        Notify(slot, "output_text.done", 0, text);
        Notify(slot, "content_part.done", 0, text);
        Publish(slot, item);
      }
      Store(slot, item);
    }

    method Widen(slot: Slot, parts: seq<string>, part: nat) returns (widened: seq<string>)
      modifies `log
      ensures (Public(), widened) == EnsurePart(old(Public()), slot, parts, part) && |widened| > part
    {
      widened := parts;
      while |widened| <= part
        invariant EnsurePart(old(Public()), slot, parts, part) == EnsurePart(Public(), slot, widened, part)
        invariant Public() == old(Public()).(log := log)
        decreases part + 1 - |widened|
      {
        Notify(slot, "reasoning_summary_part.added", |widened|, "");
        widened := widened + [""];
      }
    }

    method NotifyParts(slot: Slot, parts: seq<string>)
      modifies `log
      ensures Public() == NoticeParts(old(Public()), slot, parts, 0)
    {
      var at := 0;
      while at < |parts|
        invariant 0 <= at <= |parts|
        invariant NoticeParts(old(Public()), slot, parts, 0) == NoticeParts(Public(), slot, parts, at)
        invariant Public() == old(Public()).(log := log)
      {
        Notify(slot, "reasoning_summary_text.done", at, parts[at]);
        Notify(slot, "reasoning_summary_part.done", at, parts[at]);
        at := at + 1;
      }
    }

    /** One part of a reasoning summary opened, or extended by a delta. */
    method Think(slot: Slot, part: nat, text: Option<string>)
      modifies `minted, `items, `outputs, `counts, `log
      ensures Public() == AcceptPart(old(Public()), slot, part, text)
    {
      var item := ReasoningOf(slot);
      Claim(slot, item);
      var parts := Widen(slot, item.content.parts, part);
      if text.Some? {
        parts := parts[part := parts[part] + text.value];
        Notify(slot, "reasoning_summary_text.delta", part, text.value);
      }
      Store(slot, item.(content := Summary(parts)));
    }

    /** A whole reasoning summary, written over the parts streamed so far. */
    method Conclude(slot: Slot, summary: seq<string>, completed: bool)
      modifies `minted, `items, `outputs, `counts, `log
      ensures Public() == AcceptReasoning(old(Public()), slot, summary, completed)
    {
      var item := ReasoningOf(slot);
      Claim(slot, item);
      ghost var claimed := Public();
      var parts := item.content.parts;
      var at := 0;
      while at < |summary|
        invariant 0 <= at <= |summary|
        invariant Rewrite(claimed, slot, item.content.parts, summary, 0) == Rewrite(Public(), slot, parts, summary, at)
        invariant Public() == claimed.(log := log)
      {
        parts := Widen(slot, parts, at);
        var text, before := summary[at], parts[at];
        if Prefix(before, text) && |text| > |before| {
          Notify(slot, "reasoning_summary_text.delta", at, text[|before|..]);
        }
        parts := parts[at := text];
        at := at + 1;
      }
      item := item.(content := Summary(parts), status := if completed then Done else Open);
      if completed {
        NotifyParts(slot, parts);
        Publish(slot, item);
      }
      Store(slot, item);
    }

    method RunCommand(slot: Slot, command: string, delta: Option<string>)
      modifies `minted, `items, `outputs, `counts, `log
      ensures Public() == if delta.Some? then AcceptCommandDelta(old(Public()), slot, delta.value)
                          else AcceptCommandStart(old(Public()), slot, command)
    {
      var item := CommandOf(slot, if delta.Some? then "" else command);
      Claim(slot, item);
      if delta.Some? {
        item := item.(content := Command(item.content.command, item.content.output + delta.value));
        Notify(slot, "command_execution_output.delta", 0, delta.value);
      }
      Store(slot, item);
    }

    method Finish(slot: Slot, content: Content, status: ItemStatus)
      modifies `minted, `items, `outputs, `counts, `log
      ensures Public() == AcceptFinished(old(Public()), slot, content, status)
    {
      var item := Item(slot.id, slot.key.turn, status, content);
      Claim(slot, item);
      Store(slot, item);
      if status != Open { Publish(slot, item); }
    }

    method TakeItem(key: OutputKey, owner: Option<Id>, body: Body)
      modifies `minted, `items, `outputs, `counts, `log
      ensures Public() == AcceptBody(old(Public()), Resolve(old(Public()), key, owner), body)
    {
      var slot := Locate(key, owner);
      match body {
        case Delta(text) => Speak(slot, text, None);
        case Whole(text, phase) => Speak(slot, text, Some(phase));
        case ReasoningDelta(part, text) => Think(slot, part, Some(text));
        case ReasoningPart(part) => Think(slot, part, None);
        case Reasoning(summary, completed) => Conclude(slot, summary, completed);
        case CommandStart(command) => RunCommand(slot, command, None);
        case CommandDelta(text) => RunCommand(slot, "", Some(text));
        case WebSearch(status) => Finish(slot, Plain("web_search_call"), status);
        case FunctionCall(call) => Finish(slot, Call(call), Done);
        case Finished(content, status) => Finish(slot, content, status);
      }
    }

    method CloseItem(row: Row<OutputKey, Position>, owner: Option<Id>)
      modifies `items, `outputs, `log
      ensures Public() == FinishItem(old(Public()), row, owner)
    {
      var item := row.value.item;
      if item.status == Open {
        item := item.(status := Incomplete);
        var slot := Slot(row.key, owner, Some(row.value), item.id, row.value.index);
        Store(slot, item);
        match item.content {
          case Summary(parts) => NotifyParts(slot, parts);
          case Text(text, _) =>
            Notify(slot, "output_text.done", 0, text);
            Notify(slot, "content_part.done", 0, text);
          case _ =>
        }
        Publish(slot, item);
      }
    }

    /** Closes partial streamed output before a terminal turn is published. */
    method FinishOutputItems(turn: Id, owner: Option<Id>)
      modifies `items, `outputs, `log
      ensures Public() == FinishItems(old(Public()), turn, owner)
    {
      var rows, i := outputs, 0;
      assert rows[0..] == rows;
      while i < |rows|
        invariant 0 <= i <= |rows|
        invariant FinishItems(old(Public()), turn, owner) == FinishRows(Public(), OfTurn(rows[i..], turn), owner)
      {
        assert rows[i..][1..] == rows[i + 1..];
        var rest := OfTurn(rows[i + 1..], turn);
        if rows[i].value.item.turn == turn {
          assert OfTurn(rows[i..], turn)[1..] == rest;
          CloseItem(rows[i], owner);
        } else {
          assert OfTurn(rows[i..], turn) == rest;
        }
        i := i + 1;
      }
    }

    // --- Runtime events --------------------------------------------------------------------------------------

    method TakeSubagent(id: Id, closed: bool)
      modifies `subagents, `log
      ensures State() == AcceptSubagent(old(State()), id, closed)
    {
      var known := id in subagents;
      var changed := !known || subagents[id] != closed;
      subagents := subagents[id := closed];
      if changed { Append(SubagentLogged(id, known && closed)); }
    }

    method TakeChildTurn(id: Id, subagent: Id, status: TurnStatus) returns (error: Option<Error>)
      modifies this
      ensures match error
              case None => AcceptSubagentTurn(old(State()), id, subagent, status) == Ok(State())
              case Some(e) => AcceptSubagentTurn(old(State()), id, subagent, status) == Err(e)
    {
      if subagent !in subagents { return Some(InvalidRuntimeEvent); }
      var previous := Get(turns, id);
      var turn := Turn(id, Some(subagent), status, None, if previous.Some? then previous.value.usage else None);
      if status == Completed {
        pending := Put(pending, id, turn);
        if previous.None? { StoreTurn(turn.(status := InProgress)); }
        return None;
      }
      StoreTurn(turn);
      if previous.None? { Append(TurnCreated(turn)); }
      FollowChildTurn(turn);
      return None;
    }

    /** A child turn that goes on, or that ended and is not held for the checkpoint. */
    method FollowChildTurn(turn: Turn)
      requires turn.subagent.Some? && turn.status != Completed
      modifies `items, `outputs, `log
      ensures State() == ChildTurnFollowed(old(State()), turn)
    {
      if turn.status == InProgress {
        Append(TurnStarted(turn));
      } else if turn.status != Waiting {
        FinishOutputItems(turn.id, turn.subagent);
        Append(TurnEnded(turn.status, turn));
      }
    }

    method TakeUsage(record: Record, id: Id, usage: Usage) returns (error: Option<Error>, next: Record)
      modifies `turns, `pending
      ensures match error
              case None => AcceptUsage(Draft(old(State()), record), id, usage) == Ok(Draft(State(), next))
              case Some(e) => AcceptUsage(Draft(old(State()), record), id, usage) == Err(e)
    {
      var turn := Get(turns, id);
      if turn.None? { return Some(InvalidRuntimeEvent), record; }
      var sum := Summed(Or(record.usage), usage, Or(turn.value.usage));
      turns := Put(turns, id, turn.value.(usage := Some(usage)));
      var held := Get(pending, id);
      if held.Some? { pending := Put(pending, id, held.value.(usage := Some(usage))); }
      return None, record.(usage := Some(sum));
    }

    method TakeCall(record: Record, id: Id, call: string) returns (error: Option<Error>, next: Record)
      modifies `turns, `log
      ensures match error
              case None => AcceptCall(Draft(old(State()), record), id, call) == Ok(Draft(State(), next))
              case Some(e) => AcceptCall(Draft(old(State()), record), id, call) == Err(e)
    {
      var actions := record.actions;
      if !Requested(actions, call) { actions := actions + [Action(id, call)]; }
      next := record.(actions := actions, status := RequiresAction);
      var turn := Get(turns, id);
      if turn.None? { return Some(InvalidRuntimeEvent), record; }
      turns := Put(turns, id, turn.value.(status := Waiting));
      Append(SessionLogged(RequiresAction));
      return None, next;
    }

    method TakeEvent(record: Record, root: Id, event: RuntimeEvent) returns (error: Option<Error>, next: Record)
      modifies this
      ensures match error
              case None => Accept(Draft(old(State()), record), root, event) == Ok(Draft(State(), next))
              case Some(e) => Accept(Draft(old(State()), record), root, event) == Err(e)
    {
      error, next := None, record;
      match event {
        case SubagentReported(id, closed) => TakeSubagent(id, closed);
        case SubagentTurn(id, subagent, status) => error := TakeChildTurn(id, subagent, status);
        case UsageReported(turn, usage) => error, next := TakeUsage(record, Named(turn, root), usage);
        case Output(native, scope, body) =>
          var key := OutputKey(Named(scope.turn, root), native);
          TakeItem(key, scope.subagent, body);
          if body.FunctionCall? { error, next := TakeCall(record, key.turn, body.call); }
      }
    }

    // --- Transitions of the reconciler ---------------------------------------------------------------------------

    method CheckFence(fence: Fence) returns (error: Option<Error>, current: Record)
      ensures match error
              case None => Fenced(State(), fence) == Ok(current)
              case Some(e) => Fenced(State(), fence) == Err(e)
    {
      var spare := Record("", "", false, 0, None, Idle, 0, Resting, [], None, None, None, None, false);
      if record.None? { return Some(Superseded), spare; }
      current := record.value;
      if current.deleted || current.execution.None? || current.execution.value.generation != fence.generation
         || current.execution.value.turn != fence.turn
      {
        return Some(Superseded), spare;
      }
      return None, current;
    }

    method Start(current: Record) returns (error: Option<Error>)
      requires current.execution.Some?
      modifies this
      ensures match error
              case None => MarkRunning(old(State()), current) == Ok(State())
              case Some(e) => MarkRunning(old(State()), current) == Err(e)
    {
      record := Some(current.(phase := Running));
      var turn := Get(turns, current.execution.value.turn);
      if turn.None? { return Some(RecordNotFound); }
      StoreTurn(turn.value.(status := InProgress));
      Append(TurnStarted(turn.value.(status := InProgress)));
      return None;
    }

    method TakeBatch(current: Record, entries: seq<J.Stamped>, completed: bool, cancel: bool) returns (error: Option<Error>)
      requires current.execution.Some?
      modifies this
      ensures match error
              case None => AcceptBatch(old(State()), current, entries, completed, cancel) == Ok(State())
              case Some(e) => AcceptBatch(old(State()), current, entries, completed, cancel) == Err(e)
    {
      ghost var before := Draft(State(), current);
      var root, next, i := current.execution.value.turn, current, 0;
      assert entries[0..] == entries;
      while i < |entries|
        invariant 0 <= i <= |entries|
        invariant AcceptEntries(before, root, entries) == AcceptEntries(Draft(State(), next), root, entries[i..])
      {
        assert entries[i..][1..] == entries[i + 1..];
        if entries[i].at > next.cursor {
          if entries[i].at != next.cursor + 1 { return Some(InvalidRuntimeCursor); }
          error, next := TakeEvent(next, root, entries[i].event);
          if error.Some? { return error; }
          next := next.(cursor := entries[i].at);
        }
        i := i + 1;
      }
      var waiting := !cancel && commands != [];
      if completed && !waiting { next := next.(phase := Checkpointing); }
      record := Some(next);
      return None;
    }

    method CloseChildTurn(open: Turn, outcome: TurnStatus, failure: Option<TurnError>)
      modifies `turns, `items, `outputs, `log
      ensures State() == CloseChild(old(State()), open, outcome, failure)
    {
      var child := if outcome == Completed then open else open.(status := outcome, error := failure);
      StoreTurn(child);
      ghost var stored := State();
      FinishOutputItems(child.id, child.subagent);
      ghost var finished := State();
      assert finished == stored.(feed := FinishItems(stored.feed, child.id, child.subagent));
      Append(TurnEnded(outcome, child));
      assert State() == Emit(finished, TurnEnded(outcome, child));
    }

    method CloseEach(open: seq<Turn>, outcome: TurnStatus, failure: Option<TurnError>)
      modifies `turns, `items, `outputs, `log
      ensures State() == CloseChildren(old(State()), open, outcome, failure)
    {
      var i := 0;
      assert open[0..] == open;
      ghost var closed := CloseChildren(State(), open, outcome, failure);
      while i < |open|
        invariant 0 <= i <= |open|
        invariant closed == CloseChildren(State(), open[i..], outcome, failure)
      {
        ClosingOneMore(State(), open, i, outcome, failure);
        CloseChildTurn(open[i], outcome, failure);
        i := i + 1;
      }
    }

    method OpenChildTurns(outcome: TurnStatus) returns (open: seq<Turn>)
      ensures open == OpenChildren(State(), outcome)
    {
      if outcome == Completed { return RowsOf(pending); }
      return ChildrenAt(turns, InProgress) + ChildrenAt(turns, Waiting);
    }

    method CloseRoot(turn: Turn)
      modifies `turns, `items, `outputs, `log, `commands, `cancellations
      ensures var stored := PutTurn(old(State()), turn);
              State() == stored.(feed := FinishItems(stored.feed, turn.id, None), commands := [], cancellations := map[])
    {
      StoreTurn(turn);
      ghost var stored := State();
      FinishOutputItems(turn.id, None);
      assert State() == stored.(feed := FinishItems(stored.feed, turn.id, None));
      commands := [];
      cancellations := map[];
    }

    /** Stores the root turn's outcome, closes its items, clears its queues and publishes the end. */
    method EndRoot(turn: Turn, next: Record, outcome: TurnStatus)
      modifies this
      ensures State() == SealRoot(old(State()), turn, next, outcome)
    {
      CloseRoot(turn);
      ghost var finished := State();
      record := Some(next);
      assert State() == finished.(record := Some(next));
      Append(TurnEnded(outcome, turn));
      assert State() == Emit(finished.(record := Some(next)), TurnEnded(outcome, turn));
      Append(SessionLogged(next.status));
    }

    /** The part of a seal that precedes reading refused input. */
    method EndTurn(current: Record, outcome: TurnStatus, error: Option<string>) returns (failed: Option<Error>, next: Record)
      requires current.execution.Some?
      modifies this
      ensures match failed
              case None => Sealed(old(State()), current, outcome, error) == Ok(Draft(State(), next))
              case Some(e) => Sealed(old(State()), current, outcome, error) == Err(e)
    {
      var failure := TurnErrorOf(error);
      var open := OpenChildTurns(outcome);
      CloseEach(open, outcome, failure);
      ghost var closed := State();
      pending := [];
      assert State() == closed.(pending := []);
      var row := Get(turns, current.execution.value.turn);
      if row.None? { return Some(RecordNotFound), current; }
      next := SealedRecord(current, outcome, error);
      EndRoot(row.value.(status := outcome, error := failure), next, outcome);
      failed := None;
    }

    method BeginTurn(current: Record, input: seq<Message>) returns (next: Record)
      modifies `minted, `turns, `log
      ensures Begin(old(State()), current, input) == Draft(State(), next)
    {
      var id := Mint();
      next := current.(generation := current.generation + 1,
                       execution := Some(Execution(id, current.generation + 1, Inherited(current, input), current.checkpoint)),
                       cursor := 0, phase := Starting, status := Working);
      var turn := Turn(id, None, Queued, None, None);
      StoreTurn(turn);
      Append(TurnCreated(turn));
      Append(SessionLogged(Working));
    }

    method ListItem(owner: Option<Id>, turn: Id, status: ItemStatus, content: Content) returns (id: Id)
      modifies `minted, `items, `log
      ensures Public() == AddItem(old(Public()), owner, turn, status, content) && id == Minted(old(minted))
    {
      id := Mint();
      var item := Item(id, turn, status, content);
      items := Put(items, ItemKey(owner, id), item);
      Append(ItemAdded(turn, None, item));
    }

    method ListInput(turn: Id, input: seq<Message>) returns (ids: seq<Id>)
      modifies `minted, `items, `log
      ensures AddInput(old(Public()), turn, input) == (Public(), ids)
    {
      ids := [];
      var i := 0;
      ghost var before, all := Public(), AddInput(Public(), turn, input);
      assert input[0..] == input && [] + all.1 == all.1;
      while i < |input|
        invariant 0 <= i <= |input|
        invariant Adds(all, ids, Public(), turn, input[i..])
        invariant Public() == before.(minted := minted, items := items, log := log)
      {
        AddsOne(all, ids, Public(), turn, input[i..]);
        assert input[i..][1..] == input[i + 1..];
        var id := ListItem(None, turn, Done, Input(input[i]));
        ids := ids + [id];
        i := i + 1;
      }
      assert input[|input|..] == [] && ids + [] == ids;
    }

    method Restart(current: Record, input: seq<Message>)
      modifies this
      ensures State() == Restarted(old(State()), current, input)
    {
      var started := BeginTurn(current, input);
      ghost var begun := State();
      var ids := ListInput(started.execution.value.turn, input);
      assert State() == begun.(feed := AddInput(begun.feed, started.execution.value.turn, input).0);
      record := Some(started);
    }

    /** Seals the turn, and starts the next one from the refused input that one page holds. */
    method Seal(current: Record, outcome: TurnStatus, error: Option<string>) returns (failed: Option<Error>)
      requires current.execution.Some?
      modifies this
      ensures match failed
              case None => Complete(setup, old(State()), current, outcome, error) == Ok(State())
              case Some(e) => Complete(setup, old(State()), current, outcome, error) == Err(e)
    {
      var next: Record;
      failed, next := EndTurn(current, outcome, error);
      if failed.Some? { return; }
      var queued := refused[..PageOfRefused(setup, refused)];
      ForgetRefused();
      if queued == [] || outcome == Cancelled || next.phase == Broken { return; }
      Restart(next, Joined(queued));
    }

    method ForgetRefused()
      modifies `refused
      ensures State() == old(State()).(refused := [])
    {
      refused := [];
    }

    method Refuse(operation: Operation)
      modifies `commands, `items, `refused
      ensures State() == Reject(old(State()), operation)
    {
      commands := Remove(commands, operation.id);
      if operation.control.Steer? {
        var i := 0;
        assert operation.items[0..] == operation.items;
        while i < |operation.items|
          invariant 0 <= i <= |operation.items|
          invariant Unlisted(old(items), operation.items) == Unlisted(items, operation.items[i..])
          invariant refused == old(refused) && commands == Remove(old(commands), operation.id)
        {
          assert operation.items[i..][1..] == operation.items[i + 1..];
          items := Remove(items, ItemKey(None, operation.items[i]));
          i := i + 1;
        }
        refused := Put(refused, operation.id, operation.control.input);
      }
    }

    // --- Input ------------------------------------------------------------------------------------------------------

    method Queue(turn: Id, control: Control, ids: seq<Id>)
      modifies `minted, `commands, `cancellations
      ensures State() == Enqueue(old(State()), turn, control, ids)
    {
      if control.Cancel? {
        if turn !in cancellations {
          var id := Mint();
          cancellations := cancellations[turn := Operation(id, turn, control, ids)];
        }
      } else {
        var id := Mint();
        commands := Put(commands, id, Operation(id, turn, control, ids));
      }
    }

    method TakeMessage(current: Record, driver: Driver, input: seq<Message>) returns (error: Option<Error>, next: Record)
      modifies this
      ensures match error
              case None => AcceptMessage(Draft(old(State()), current), driver, input) == Ok(Draft(State(), next))
              case Some(e) => AcceptMessage(Draft(old(State()), current), driver, input) == Err(e)
    {
      next := current;
      if !driver.images && HasImage(input) { return Some(CapabilityUnsupported), current; }
      if current.execution.Some? {
        if !driver.steer { return Some(SteeringUnsupported), current; }
        var turn := current.execution.value.turn;
        var ids := ListInput(turn, input);
        Queue(turn, Steer(input), ids);
        return None, current;
      }
      next := BeginTurn(current, input);
      var ids := ListInput(next.execution.value.turn, input);
      return None, next;
    }

    method TakeTool(current: Record, driver: Driver, event: InputEvent) returns (error: Option<Error>, next: Record)
      requires event.UserTool?
      modifies this
      ensures match error
              case None => AcceptTool(Draft(old(State()), current), driver, event) == Ok(Draft(State(), next))
              case Some(e) => AcceptTool(Draft(old(State()), current), driver, event) == Err(e)
    {
      next := current;
      if !driver.images && event.image { return Some(CapabilityUnsupported), current; }
      var left := Without(current.actions, Action(event.turn, event.call));
      if left.None? || current.execution.None? { return Some(UnknownToolCall), current; }
      var turn := Get(turns, event.turn);
      if turn.None? { return Some(RecordNotFound), current; }
      var id := ListItem(turn.value.subagent, event.turn, if event.success then Done else Bad, Answer(event.call, event.output));
      Queue(current.execution.value.turn, ToolResult(event.call, event.success, event.output), []);
      next := current.(actions := left.value, status := if left.value == [] then Working else RequiresAction);
      if left.value == [] { Resume(turn.value); }
      return None, next;
    }

    method Resume(turn: Turn)
      modifies `turns, `log
      ensures State() == Emit(PutTurn(old(State()), turn.(status := InProgress)), SessionLogged(Working))
    {
      StoreTurn(turn.(status := InProgress));
      Append(SessionLogged(Working));
    }

    method TakeInput(driver: Driver, events: seq<InputEvent>, key: string) returns (error: Option<Error>)
      modifies this
      ensures match error
              case None => AcceptInput(setup, old(State()), driver, events, key) == Ok(State())
              case Some(e) => AcceptInput(setup, old(State()), driver, events, key) == Err(e)
    {
      if record.None? || record.value.deleted { return Some(SessionNotFound); }
      var fingerprint := setup.fingerprint(events);
      if key in accepted {
        if accepted[key] != fingerprint { return Some(IdempotencyConflict); }
        return None;
      }
      if record.value.phase == Broken { return Some(SessionFailed); }
      if record.value.phase == Checkpointing { return Some(TurnCheckpointing); }
      ghost var before := Draft(State(), record.value);
      var next, i := record.value, 0;
      assert events[0..] == events;
      while i < |events|
        invariant 0 <= i <= |events|
        invariant AcceptAll(before, driver, events) == AcceptAll(Draft(State(), next), driver, events[i..])
      {
        assert events[i..][1..] == events[i + 1..];
        error := None;
        match events[i] {
          case UserMessage(input) => error, next := TakeMessage(next, driver, input);
          case UserCancel => if next.execution.Some? { Queue(next.execution.value.turn, Cancel, []); }
          case UserTool(_, _, _, _, _) => error, next := TakeTool(next, driver, events[i]);
        }
        if error.Some? { return error; }
        i := i + 1;
      }
      ghost var through := State();
      accepted := accepted[key := fingerprint];
      record := Some(next);
      assert AcceptAll(before, driver, events) == Ok(Draft(through, next));
      return None;
    }

    // --- Environment, deletion and the transaction -----------------------------------------------------------------

    method Report(status: EnvironmentStatus) returns (error: Option<Error>)
      modifies this
      ensures match error
              case None => ApplyEnvironment(old(State()), status) == Ok(State())
              case Some(e) => ApplyEnvironment(old(State()), status) == Err(e)
    {
      if record.None? || record.value.deleted { return Some(SessionNotFound); }
      if !record.value.sandboxed || !Publishes(environment, status) { return None; }
      environment := Some(status);
      Append(EnvironmentLogged(status));
      if status == Failing && record.value.execution.None? {
        record := Some(record.value.(phase := Broken, status := Faulted, error := Some("environment_setup_failed")));
        Append(SessionLogged(Faulted));
      }
      return None;
    }

    method Delete() returns (error: Option<Error>)
      modifies `record
      ensures match error
              case None => MarkDeleted(old(State())) == Ok(State())
              case Some(e) => MarkDeleted(old(State())) == Err(e)
    {
      if record.None? {
        if !tombstone { return Some(SessionNotFound); }
        return None;
      }
      if record.value.execution.Some? { return Some(TurnActive); }
      record := Some(record.value.(deleted := true));
      return None;
    }

    method PurgeRecords() returns (error: Option<Error>)
      modifies this
      ensures match error
              case None => Purge(old(State())) == Ok(State())
              case Some(e) => Purge(old(State())) == Err(e)
    {
      if record.Some? && !record.value.deleted { return Some(SessionNotDeleted); }
      if record.None? && !tombstone { return None; }
      Restore(Db(None, [], [], map[], [], map[], [], map[], None, true, Feed(minted, [], [], map[], [])));
      return None;
    }

    method PerformFenced(step: Step) returns (error: Option<Error>)
      requires !step.Submit? && !step.Report? && !step.Delete? && !step.Drop?
      modifies this
      ensures match error
              case None => Transact(setup, old(State()), step) == Ok(State())
              case Some(e) => Transact(setup, old(State()), step) == Err(e)
    {
      var current: Record;
      error, current := CheckFence(step.fence);
      if error.Some? { return; }
      match step {
        case Start(_) => error := Start(current);
        case Poll(_, entries, completed, cancel) => error := TakeBatch(current, entries, completed, cancel);
        case Commit(_, checkpoint) =>
          if checkpoint.driver != current.driver || checkpoint.revision != current.revision {
            return Some(CheckpointIncompatible);
          }
          error := Seal(current.(checkpoint := Some(checkpoint)), Completed, None);
        case Seal(_, outcome, cause) => error := Seal(current, outcome, cause);
        case Deliver(_, operation) => commands := Remove(commands, operation.id);
        case Refuse(_, operation) => Refuse(operation);
      }
    }

    method Perform(step: Step) returns (error: Option<Error>)
      modifies this
      ensures match error
              case None => Transact(setup, old(State()), step) == Ok(State())
              case Some(e) => Transact(setup, old(State()), step) == Err(e)
    {
      match step
      case Submit(driver, events, key) => error := TakeInput(driver, events, key);
      case Report(environment) => error := Report(environment);
      case Delete => error := Delete();
      case Drop => error := PurgeRecords();
      case _ => error := PerformFenced(step);
    }

    /** One transaction: whatever a throw had already written is put back. */
    method Transaction(step: Step) returns (error: Option<Error>)
      modifies this
      ensures State() == After(setup, old(State()), step)
      ensures Transact(setup, old(State()), step) == if error.None? then Ok(State()) else Err(error.value)
    {
      var saved := State();
      error := Perform(step);
      if error.Some? { Restore(saved); }
    }
  }
}
