/**
 What each output item holds and how it stands: the outcome of the events its runtime sent for it, one after
 another, and incomplete if its turn ended while it was open.
 */
module SessionContents {
  import opened Options
  import opened Tables
  import opened SessionStore
  import opened SessionEvents
  import opened SessionState
  import opened SessionFeeds
  import opened SessionRuns
  import opened SessionShape
  import opened SessionTurns
  import opened SessionOutputs
  import J = JobStates

  // --- One event ------------------------------------------------------------------------------------------

  datatype Shape = Shape(status: ItemStatus, content: Content)
  type Shapes = map<OutputKey, Shape>

  /** At least `count` parts: what is missing is empty. */
  function Padded(parts: seq<string>, count: nat): seq<string> {
    seq(if count > |parts| then count else |parts|, i requires i >= 0 => if i < |parts| then parts[i] else "")
  }

  function PartsOf(before: Option<Shape>): seq<string> {
    if before.Some? && before.value.content.Summary? then before.value.content.parts else []
  }

  /** An item of another kind, or none, is begun anew. */
  function Or(before: Option<Shape>, same: bool, content: Content): Shape {
    if before.Some? && same then before.value else Shape(Open, content)
  }

  /** What an event makes of an item: text, parts and output are extended, and what is finished is replaced. */
  function Shaped(before: Option<Shape>, body: Body): Shape {
    match body
    case Delta(text) =>
      var was := Or(before, before.Some? && before.value.content.Text?, Text("", None));
      was.(content := Text(was.content.text + text, was.content.phase))
    case Whole(text, phase) => Shape(Done, Text(text, Some(phase)))
    case ReasoningDelta(part, text) =>
      var was := Or(before, before.Some? && before.value.content.Summary?, Summary([]));
      var parts := Padded(was.content.parts, part + 1);
      was.(content := Summary(parts[part := parts[part] + text]))
    case ReasoningPart(part) =>
      var was := Or(before, before.Some? && before.value.content.Summary?, Summary([]));
      was.(content := Summary(Padded(was.content.parts, part + 1)))
    case Reasoning(summary, completed) =>
      var parts := PartsOf(before);
      Shape(if completed then Done else Open, Summary(summary + if |parts| > |summary| then parts[|summary|..] else []))
    case CommandStart(command) => Or(before, before.Some? && before.value.content.Command?, Command(command, ""))
    case CommandDelta(text) =>
      var was := Or(before, before.Some? && before.value.content.Command?, Command("", ""));
      was.(content := Command(was.content.command, was.content.output + text))
    case WebSearch(status) => Shape(status, Plain("web_search_call"))
    case FunctionCall(call) => Shape(Done, Call(call))
    case Finished(content, status) => Shape(status, content)
  }

  function ShapeOf(position: Option<Position>): Option<Shape> {
    if position.Some? then Some(Shape(position.value.item.status, position.value.item.content)) else None
  }

  lemma {:induction false} EnsuringPads(feed: Feed, slot: Slot, parts: seq<string>, part: nat)
    ensures EnsurePart(feed, slot, parts, part).1 == Padded(parts, part + 1)
    decreases part + 1 - |parts|
  {
    if |parts| > part {
      assert Padded(parts, part + 1) == parts;
    } else {
      EnsuringPads(Noticed(feed, slot, "reasoning_summary_part.added", |parts|, ""), slot, parts + [""], part);
      assert Padded(parts + [""], part + 1) == Padded(parts, part + 1);
    }
  }

  /** A finished summary replaces the first parts and leaves the others. */
  lemma {:induction false} RewritingReplaces(feed: Feed, slot: Slot, parts: seq<string>, summary: seq<string>, at: nat)
    requires at <= |summary| && at <= |parts| && parts[..at] == summary[..at]
    ensures Rewrite(feed, slot, parts, summary, at).1
            == summary + if |parts| > |summary| then parts[|summary|..] else []
    decreases |summary| - at
  {
    if at < |summary| {
      var (widened, padded) := EnsurePart(feed, slot, parts, at);
      EnsuringPads(feed, slot, parts, at);
      var text, before := summary[at], padded[at];
      var streamed :=
        if Prefix(before, text) && |text| > |before| then
          Noticed(widened, slot, "reasoning_summary_text.delta", at, text[|before|..])
        else widened;
      var next := padded[at := text];
      assert next[..at + 1] == summary[..at + 1];
      RewritingReplaces(streamed, slot, next, summary, at + 1);
      assert |parts| > |summary| ==> next[|summary|..] == parts[|summary|..];
    } else {
      assert parts == parts[..at] + parts[at..];
    }
  }

  /** The item an event leaves at its position. */
  ghost predicate Leaves(slot: Slot, next: Feed, shape: Shape) {
    exists item: Item ::
      && item.id == slot.id && item.status == shape.status && item.content == shape.content
      && Get(next.outputs, slot.key) == Some(Position(slot.index, item))
      && Get(next.items, ItemKey(slot.owner, item.id)) == Some(item)
  }

  lemma StoredLeaves(feed: Feed, slot: Slot, item: Item)
    requires item.id == slot.id
    ensures Leaves(slot, Stored(feed, slot, item), Shape(item.status, item.content))
  {
    PutGet(feed.outputs, slot.key, Position(slot.index, item), slot.key);
    PutGet(feed.items, ItemKey(slot.owner, item.id), item, ItemKey(slot.owner, item.id));
  }

  lemma PartLeaves(feed: Feed, slot: Slot, part: nat, text: Option<string>)
    requires Consistent(slot)
    ensures Leaves(slot, AcceptPart(feed, slot, part, text),
                   Shaped(ShapeOf(slot.previous), if text.Some? then ReasoningDelta(part, text.value) else ReasoningPart(part)))
  {
    var item := ReasoningOf(slot);
    var claimed := Claimed(feed, slot, item);
    var (widened, parts) := EnsurePart(claimed, slot, item.content.parts, part);
    EnsuringPads(claimed, slot, item.content.parts, part);
    if text.Some? {
      StoredLeaves(Noticed(widened, slot, "reasoning_summary_text.delta", part, text.value), slot,
                   item.(content := Summary(parts[part := parts[part] + text.value])));
    } else {
      StoredLeaves(widened, slot, item.(content := Summary(parts)));
    }
  }

  lemma SummaryLeaves(feed: Feed, slot: Slot, summary: seq<string>, completed: bool)
    requires Consistent(slot)
    ensures Leaves(slot, AcceptReasoning(feed, slot, summary, completed),
                   Shaped(ShapeOf(slot.previous), Reasoning(summary, completed)))
  {
    var item := ReasoningOf(slot);
    var claimed := Claimed(feed, slot, item);
    var (written, parts) := Rewrite(claimed, slot, item.content.parts, summary, 0);
    RewritingReplaces(claimed, slot, item.content.parts, summary, 0);
    var after := item.(content := Summary(parts), status := if completed then Done else Open);
    StoredLeaves(if completed then Published(NoticeParts(written, slot, parts, 0), slot, after) else written, slot, after);
  }

  lemma CommandLeaves(feed: Feed, slot: Slot, body: Body)
    requires Consistent(slot) && (body.CommandStart? || body.CommandDelta?)
    ensures Leaves(slot, AcceptBody(feed, slot, body), Shaped(ShapeOf(slot.previous), body))
  {
    match body
    case CommandStart(command) =>
      var item := CommandOf(slot, command);
      StoredLeaves(Claimed(feed, slot, item), slot, item);
    case CommandDelta(text) =>
      var item := CommandOf(slot, "");
      StoredLeaves(Noticed(Claimed(feed, slot, item), slot, "command_execution_output.delta", 0, text), slot,
                   item.(content := Command(item.content.command, item.content.output + text)));
  }

  lemma FinishedLeaves(feed: Feed, slot: Slot, content: Content, status: ItemStatus)
    ensures Leaves(slot, AcceptFinished(feed, slot, content, status), Shape(status, content))
  {
    var item := Item(slot.id, slot.key.turn, status, content);
    StoredLeaves(Claimed(feed, slot, item), slot, item);
  }

  lemma TextLeaves(feed: Feed, slot: Slot, body: Body)
    requires Consistent(slot) && (body.Delta? || body.Whole?)
    ensures Leaves(slot, AcceptBody(feed, slot, body), Shaped(ShapeOf(slot.previous), body))
  {
    match body
    case Delta(text) =>
      var item := MessageOf(slot, None);
      StoredLeaves(Streamed(Begun(feed, slot, item), slot, text), slot,
                   item.(content := Text(item.content.text + text, item.content.phase)));
    case Whole(text, phase) =>
      var item := MessageOf(slot, Some(phase)).(content := Text(text, Some(phase)), status := Done);
      PutGet(feed.outputs, slot.key, Position(slot.index, item), slot.key);
      var begun := Begun(feed, slot, MessageOf(slot, Some(phase)));
      var streamed := if slot.previous.None? then Streamed(begun, slot, text) else begun;
      StoredLeaves(Published(Noticed(Noticed(streamed, slot, "output_text.done", 0, text), slot, "content_part.done", 0, text),
                             slot, item), slot, item);
  }

  /** An event leaves its item, at its position and stored, as it shapes it; and every other position alone. */
  lemma EventsShapeTheirItem(feed: Feed, key: OutputKey, owner: Option<Id>, body: Body, other: OutputKey)
    requires Placed(feed)
    ensures var slot := Resolve(feed, key, owner); var next := AcceptBody(feed, slot, body);
            && Leaves(slot, next, Shaped(ShapeOf(Get(feed.outputs, key)), body))
            && (other != key ==> Get(next.outputs, other) == Get(feed.outputs, other))
  {
    var slot := Resolve(feed, key, owner);
    ResolvedSlot(feed, key, owner);
    OthersAreLeft(feed, slot, body, other);
    match body
    case ReasoningDelta(part, text) => PartLeaves(feed, slot, part, Some(text));
    case ReasoningPart(part) => PartLeaves(feed, slot, part, None);
    case Reasoning(summary, completed) => SummaryLeaves(feed, slot, summary, completed);
    case CommandStart(_) => CommandLeaves(feed, slot, body);
    case CommandDelta(_) => CommandLeaves(feed, slot, body);
    case WebSearch(status) => FinishedLeaves(feed, slot, Plain("web_search_call"), status);
    case FunctionCall(call) => FinishedLeaves(feed, slot, Call(call), Done);
    case Finished(content, status) => FinishedLeaves(feed, slot, content, status);
    case _ => TextLeaves(feed, slot, body);
  }

  lemma OthersAreLeft(feed: Feed, slot: Slot, body: Body, other: OutputKey)
    ensures other != slot.key ==> Get(AcceptBody(feed, slot, body).outputs, other) == Get(feed.outputs, other)
  {
    var first, item, more := BodyWrites(feed, slot, body);
    PutGet(feed.outputs, slot.key, Position(slot.index, item), other);
  }

  // --- Every run ------------------------------------------------------------------------------------------------

  /** What is open in these turns is closed. */
  function ClosedIn(shapes: Shapes, turns: set<Id>): Shapes {
    map key | key in shapes ::
      if key.turn in turns && shapes[key].status == Open then shapes[key].(status := Incomplete) else shapes[key]
  }

  function EventShapes(shapes: Shapes, root: Id, event: RuntimeEvent): Shapes {
    match event
    case Output(native, scope, body) =>
      var key := OutputKey(if scope.turn.Some? then scope.turn.value else root, native);
      shapes[key := Shaped(if key in shapes then Some(shapes[key]) else None, body)]
    case SubagentTurn(id, _, status) => if Ending(status) then ClosedIn(shapes, {id}) else shapes
    case _ => shapes
  }

  function EntriesShape(shapes: Shapes, root: Id, cursor: nat, entries: seq<J.Stamped>): Shapes
    decreases |entries|
  {
    if entries == [] then shapes
    else if entries[0].at <= cursor then EntriesShape(shapes, root, cursor, entries[1..])
    else EntriesShape(EventShapes(shapes, root, entries[0].event), root, entries[0].at, entries[1..])
  }

  /** The turns a seal ends: the root's, and its held children or those still open. */
  ghost function Ends(db: Db, root: Id, outcome: TurnStatus): set<Id> {
    {root} + if outcome == Completed then set r | r in db.pending :: r.key
             else set r | r in db.turns && IsOpen(r.value) :: r.key
  }

  ghost function StepShapes(took: bool, db: Db, shapes: Shapes, step: Step): Shapes {
    if !took then shapes
    else
      match step
      case Poll(fence, entries, _, _) =>
        EntriesShape(shapes, fence.turn, if db.record.Some? then db.record.value.cursor else 0, entries)
      case Commit(fence, _) => ClosedIn(shapes, Ends(db, fence.turn, Completed))
      case Seal(fence, outcome, _) => ClosedIn(shapes, Ends(db, fence.turn, outcome))
      case Drop => if db.record.Some? || db.tombstone then map[] else shapes
      case _ => shapes
  }

  ghost function AllShapes(s: Setup, db: Db, shapes: Shapes, steps: seq<Step>): Shapes
    decreases |steps|
  {
    if steps == [] then shapes
    else AllShapes(s, After(s, db, steps[0]), StepShapes(Transact(s, db, steps[0]).Ok?, db, shapes, steps[0]), steps[1..])
  }

  /** These are the items there are, and so they stand. */
  ghost predicate Shows(outputs: Table<OutputKey, Position>, shapes: Shapes) {
    forall key: OutputKey :: ShapeOf(Get(outputs, key)) == if key in shapes then Some(shapes[key]) else None
  }

  lemma FinishingShows(feed: Feed, turn: Id, owner: Option<Id>, shapes: Shapes)
    requires Placed(feed) && Shows(feed.outputs, shapes)
    ensures Placed(FinishItems(feed, turn, owner))
    ensures Shows(FinishItems(feed, turn, owner).outputs, ClosedIn(shapes, {turn}))
  {
    var next, closed := FinishItems(feed, turn, owner), ClosedIn(shapes, {turn});
    FinishItemsCloses(feed, turn, owner, OutputKey(turn, ""));
    forall key: OutputKey ensures ShapeOf(Get(next.outputs, key)) == if key in closed then Some(closed[key]) else None {
      FinishItemsCloses(feed, turn, owner, key);
    }
  }

  lemma OutputShows(feed: Feed, key: OutputKey, owner: Option<Id>, body: Body, shapes: Shapes)
    requires Placed(feed) && Shows(feed.outputs, shapes)
    ensures var next := AcceptBody(feed, Resolve(feed, key, owner), body);
            Shows(next.outputs, shapes[key := Shaped(if key in shapes then Some(shapes[key]) else None, body)])
  {
    var slot := Resolve(feed, key, owner);
    var next := AcceptBody(feed, slot, body);
    var after := shapes[key := Shaped(if key in shapes then Some(shapes[key]) else None, body)];
    forall other: OutputKey ensures ShapeOf(Get(next.outputs, other)) == if other in after then Some(after[other]) else None {
      EventsShapeTheirItem(feed, key, owner, body, other);
    }
  }

  lemma ChildTurnShows(db: Db, id: Id, subagent: Id, status: TurnStatus, shapes: Shapes)
    requires Placed(db.feed) && Shows(db.feed.outputs, shapes) && AcceptSubagentTurn(db, id, subagent, status).Ok?
    ensures Shows(AcceptSubagentTurn(db, id, subagent, status).value.feed.outputs,
                  if Ending(status) then ClosedIn(shapes, {id}) else shapes)
  {
    var previous := Get(db.turns, id);
    var turn := Turn(id, Some(subagent), status, None, if previous.Some? then previous.value.usage else None);
    if Ending(status) {
      var created := if previous.None? then Emit(PutTurn(db, turn), TurnCreated(turn)) else PutTurn(db, turn);
      EmittingKeepsPlaces(db.feed, TurnCreated(turn));
      FinishingShows(created.feed, id, Some(subagent), shapes);
    }
  }

  lemma EventShows(d: Draft, root: Id, event: RuntimeEvent, shapes: Shapes)
    requires Placed(d.db.feed) && Shows(d.db.feed.outputs, shapes) && Accept(d, root, event).Ok?
    ensures Shows(Accept(d, root, event).value.db.feed.outputs, EventShapes(shapes, root, event))
  {
    match event
    case SubagentTurn(id, subagent, status) => ChildTurnShows(d.db, id, subagent, status, shapes);
    case Output(native, scope, body) =>
      OutputShows(d.db.feed, OutputKey(Named(scope.turn, root), native), scope.subagent, body, shapes);
    case _ =>
  }

  lemma {:induction false} EntriesShow(d: Draft, root: Id, entries: seq<J.Stamped>, shapes: Shapes)
    requires Placed(d.db.feed) && Shows(d.db.feed.outputs, shapes) && AcceptEntries(d, root, entries).Ok?
    ensures Shows(AcceptEntries(d, root, entries).value.db.feed.outputs, EntriesShape(shapes, root, d.record.cursor, entries))
    decreases |entries|
  {
    if entries != [] {
      if entries[0].at > d.record.cursor {
        EventShows(d, root, entries[0].event, shapes);
        EventKeepsPlaces(d, root, entries[0].event);
        var next := Accept(d, root, entries[0].event).value;
        EntriesShow(next.(record := next.record.(cursor := entries[0].at)), root, entries[1..],
                    EventShapes(shapes, root, entries[0].event));
      } else {
        EntriesShow(d, root, entries[1..], shapes);
      }
    }
  }

  lemma ClosingTwice(shapes: Shapes, a: set<Id>, b: set<Id>)
    ensures ClosedIn(ClosedIn(shapes, a), b) == ClosedIn(shapes, a + b)
  {
  }

  lemma {:induction false} ChildrenShow(db: Db, children: seq<Turn>, outcome: TurnStatus, error: Option<TurnError>, shapes: Shapes)
    requires Placed(db.feed) && Shows(db.feed.outputs, shapes)
    ensures var next := CloseChildren(db, children, outcome, error);
            Placed(next.feed) && Shows(next.feed.outputs, ClosedIn(shapes, IdsOf(children)))
    decreases |children|
  {
    if children == [] {
      assert ClosedIn(shapes, IdsOf(children)) == shapes;
    } else {
      var c := children[0];
      var closed := if outcome == Completed then c else c.(status := outcome, error := error);
      FinishingShows(db.feed, c.id, c.subagent, shapes);
      EmittingKeepsPlaces(FinishItems(db.feed, c.id, c.subagent), TurnEnded(outcome, closed));
      ChildrenShow(CloseChild(db, c, outcome, error), children[1..], outcome, error, ClosedIn(shapes, {c.id}));
      ClosingTwice(shapes, {c.id}, IdsOf(children[1..]));
      assert children == [c] + children[1..] && IdsOf(children) == {c.id} + IdsOf(children[1..]);
    }
  }

  /** The children a seal lists are the ones it ends. */
  lemma ListedEnd(db: Db, root: Id, outcome: TurnStatus)
    requires Keyed(db)
    ensures IdsOf(OpenChildren(db, outcome)) + {root} == Ends(db, root, outcome)
  {
    var listed, children := IdsOf(OpenChildren(db, outcome)), Ends(db, root, outcome);
    forall id: Id ensures id in listed || id == root <==> id in children {
      ListedEndsOne(db, root, outcome, id);
    }
  }

  lemma ListedEndsOne(db: Db, root: Id, outcome: TurnStatus, id: Id)
    requires Keyed(db)
    ensures id in IdsOf(OpenChildren(db, outcome)) || id == root <==> id in Ends(db, root, outcome)
  {
    ListedIff(db, outcome, id);
    IdsAreListed(OpenChildren(db, outcome), id);
    GetIn(db.pending, id);
    GetIn(db.turns, id);
    if outcome == Completed {
      if Has(db.pending, id) { assert Row(id, Get(db.pending, id).value) in db.pending; }
      if r :| r in db.pending && r.key == id { RowIsFound(db.pending, r); }
    } else {
      if Has(db.turns, id) { assert Row(id, Get(db.turns, id).value) in db.turns; }
      if r :| r in db.turns && IsOpen(r.value) && r.key == id { InGet(db.turns, r); }
    }
  }

  lemma SealShows(db: Db, record: Record, outcome: TurnStatus, error: Option<string>, shapes: Shapes)
    requires Keyed(db) && Placed(db.feed) && Shows(db.feed.outputs, shapes)
    requires record.execution.Some? && Sealed(db, record, outcome, error).Ok?
    ensures Shows(Sealed(db, record, outcome, error).value.db.feed.outputs,
                  ClosedIn(shapes, Ends(db, record.execution.value.turn, outcome)))
  {
    var children, failure, root := OpenChildren(db, outcome), TurnErrorOf(error), record.execution.value.turn;
    ChildrenShow(db, children, outcome, failure, shapes);
    ChildrenStayKeyed(db, children, outcome, failure);
    var closed := CloseChildren(db, children, outcome, failure);
    GetIn(closed.turns, root);
    FinishingShows(closed.feed, root, None, ClosedIn(shapes, IdsOf(children)));
    ClosingTwice(shapes, IdsOf(children), {root});
    ListedEnd(db, root, outcome);
  }

  lemma {:induction false} AddInputLeavesOutputs(feed: Feed, turn: Id, input: seq<Message>)
    ensures AddInput(feed, turn, input).0.outputs == feed.outputs
    decreases |input|
  {
    if input != [] { AddInputLeavesOutputs(AddItem(feed, None, turn, Done, Input(input[0])), turn, input[1..]); }
  }

  lemma CompleteShows(s: Setup, db: Db, record: Record, outcome: TurnStatus, error: Option<string>, shapes: Shapes)
    requires Keyed(db) && Placed(db.feed) && Shows(db.feed.outputs, shapes)
    requires record.execution.Some? && Complete(s, db, record, outcome, error).Ok?
    ensures Shows(Complete(s, db, record, outcome, error).value.feed.outputs,
                  ClosedIn(shapes, Ends(db, record.execution.value.turn, outcome)))
  {
    SealShows(db, record, outcome, error, shapes);
    var d := Sealed(db, record, outcome, error).value;
    var input := Joined(d.db.refused[..PageOfRefused(s, d.db.refused)]);
    var started := Begin(d.db.(refused := []), d.record, input);
    AddInputLeavesOutputs(started.db.feed, started.record.execution.value.turn, input);
  }

  lemma {:induction false} InputsLeaveOutputs(d: Draft, driver: Driver, events: seq<InputEvent>)
    requires AcceptAll(d, driver, events).Ok?
    ensures AcceptAll(d, driver, events).value.db.feed.outputs == d.db.feed.outputs
    decreases |events|
  {
    if events != [] {
      if events[0].UserMessage? {
        if d.record.execution.Some? { AddInputLeavesOutputs(d.db.feed, d.record.execution.value.turn, events[0].input); }
        else {
          var started := Begin(d.db, d.record, events[0].input);
          AddInputLeavesOutputs(started.db.feed, started.record.execution.value.turn, events[0].input);
        }
      }
      InputsLeaveOutputs(AcceptEvent(d, driver, events[0]).value, driver, events[1..]);
    }
  }

  lemma FencedStepShows(s: Setup, db: Db, record: Record, step: Step, shapes: Shapes)
    requires IsFenced(step) && db.record == Some(record) && record.execution.Some? && record.execution.value.turn == step.fence.turn
    requires Keyed(db) && Placed(db.feed) && Shows(db.feed.outputs, shapes) && Reconcile(s, db, record, step).Ok?
    ensures Shows(Reconcile(s, db, record, step).value.feed.outputs, StepShapes(true, db, shapes, step))
  {
    match step
    case Poll(_, entries, _, _) => EntriesShow(Draft(db, record), record.execution.value.turn, entries, shapes);
    case Commit(_, checkpoint) => CompleteShows(s, db, record.(checkpoint := Some(checkpoint)), Completed, None, shapes);
    case Seal(_, outcome, error) => CompleteShows(s, db, record, outcome, error, shapes);
    case _ =>
  }

  lemma ClientStepShows(s: Setup, db: Db, step: Step, shapes: Shapes)
    requires !IsFenced(step) && Shows(db.feed.outputs, shapes) && Transact(s, db, step).Ok?
    ensures Shows(Transact(s, db, step).value.feed.outputs, StepShapes(true, db, shapes, step))
  {
    if step.Submit? { SubmissionsLeaveOutputs(s, db, step.driver, step.events, step.key); }
  }

  lemma SubmissionsLeaveOutputs(s: Setup, db: Db, driver: Driver, events: seq<InputEvent>, key: string)
    requires AcceptInput(s, db, driver, events, key).Ok?
    ensures AcceptInput(s, db, driver, events, key).value.feed.outputs == db.feed.outputs
  {
    if key !in db.accepted { InputsLeaveOutputs(Draft(db, db.record.value), driver, events); }
  }

  lemma FenceNames(s: Setup, db: Db, step: Step)
    requires IsFenced(step) && Transact(s, db, step).Ok?
    ensures db.record.Some? && db.record.value.execution.Some? && db.record.value.execution.value.turn == step.fence.turn
    ensures Transact(s, db, step) == Reconcile(s, db, db.record.value, step)
  {
  }

  lemma StepShows(s: Setup, db: Db, step: Step, shapes: Shapes)
    requires Keyed(db) && Placed(db.feed) && Shows(db.feed.outputs, shapes)
    ensures Shows(After(s, db, step).feed.outputs, StepShapes(Transact(s, db, step).Ok?, db, shapes, step))
  {
    if Transact(s, db, step).Ok? {
      if IsFenced(step) {
        FenceNames(s, db, step);
        FencedStepShows(s, db, db.record.value, step, shapes);
      } else {
        ClientStepShows(s, db, step, shapes);
      }
    }
  }

  lemma {:induction false} RunShows(s: Setup, db: Db, steps: seq<Step>, shapes: Shapes, extra: multiset<Id>)
    requires WellShaped(db) && Accounted(db, ActiveIn(db), extra) && Placed(db.feed) && Shows(db.feed.outputs, shapes)
    ensures Shows(Run(s, db, steps).feed.outputs, AllShapes(s, db, shapes, steps))
    decreases |steps|
  {
    if steps != [] {
      StepShows(s, db, steps[0], shapes);
      StepKeepsPlaces(s, db, steps[0]);
      StepKeepsShape(s, db, steps[0]);
      StepIsAccounted(s, db, steps[0], extra);
      RunShows(s, After(s, db, steps[0]), steps[1..], StepShapes(Transact(s, db, steps[0]).Ok?, db, shapes, steps[0]),
               ExtraSince(s, db, steps[0], extra));
    }
  }

  /**
   On every run there is an output item exactly for each native item an accepted event named, and it holds what
   those events make of one another, in order: text and output appended, parts widened and extended, what was
   finished replaced. It is marked as the last of them left it, or incomplete if its turn ended while it was open.
   */
  lemma ItemsTellTheirHistory(s: Setup, driver: string, revision: string, sandboxed: bool, transcript: Option<string>,
                              checkpoint: Option<Checkpoint>, steps: seq<Step>, key: OutputKey)
    ensures var start := Created(driver, revision, sandboxed, transcript, checkpoint);
            var position, shapes := Get(Run(s, start, steps).feed.outputs, key), AllShapes(s, start, map[], steps);
            && (position.Some? <==> key in shapes)
            && (position.Some? ==> position.value.item.status == shapes[key].status
                                   && position.value.item.content == shapes[key].content)
  {
    var start := Created(driver, revision, sandboxed, transcript, checkpoint);
    EmptyIsPlaced(0);
    CreatedIsAccounted(driver, revision, sandboxed, transcript, checkpoint);
    RunShows(s, start, steps, map[], multiset{});
    assert ShapeOf(Get(Run(s, start, steps).feed.outputs, key))
           == var shapes := AllShapes(s, start, map[], steps); if key in shapes then Some(shapes[key]) else None;
  }
}
