/**
 What one runtime event does to the session: subagents and usage update their own records;
 every other event is one streamed output item, resolved to its public position once and
 then applied by kind.
 */
module SessionEvents {
  import opened Options
  import opened Tables
  import opened SessionStore

  /** What the runtime reports finished in one event is neither assistant text nor client input. */
  type NativeContent = c: Content | !c.Text? && !c.Input? && !c.Answer? witness Plain("")

  datatype Scope = Scope(subagent: Option<Id>, turn: Option<Id>)
  datatype Body =
    | Delta(text: string)
    | Whole(text: string, phase: string)
    | ReasoningDelta(part: nat, text: string)
    | ReasoningPart(part: nat)
    | Reasoning(summary: seq<string>, completed: bool)
    | CommandStart(command: string)
    | CommandDelta(text: string)
    | WebSearch(status: ItemStatus)
    | FunctionCall(call: string)
    /** An MCP call, a finished command or a collaboration: stored and published done in one step. */
    | Finished(content: NativeContent, status: ItemStatus)
  datatype RuntimeEvent =
    | SubagentReported(id: Id, closed: bool)
    | SubagentTurn(id: Id, subagent: Id, status: TurnStatus)
    | UsageReported(turn: Option<Id>, usage: Usage)
    | Output(native: string, scope: Scope, body: Body)

  // --- Output items ---------------------------------------------------------------------------------------

  datatype Slot = Slot(key: OutputKey, owner: Option<Id>, previous: Option<Position>, id: Id, index: nat)

  /** The position a native item has, or the next one of its turn under a fresh identifier. */
  function Resolve(feed: Feed, key: OutputKey, owner: Option<Id>): Slot {
    var previous := Get(feed.outputs, key);
    if previous.Some? then Slot(key, owner, previous, previous.value.item.id, previous.value.index)
    else Slot(key, owner, None, Minted(feed.minted), if key.turn in feed.counts then feed.counts[key.turn] else 0)
  }

  /** Claims the position of an item seen for the first time. */
  function Claimed(feed: Feed, slot: Slot, item: Item): Feed {
    if slot.previous.Some? then feed
    else
      Logged(feed.(minted := feed.minted + 1, counts := feed.counts[slot.key.turn := slot.index + 1]),
             ItemAdded(slot.key.turn, Some(slot.index), item))
  }

  function Stored(feed: Feed, slot: Slot, item: Item): Feed {
    feed.(items := Put(feed.items, ItemKey(slot.owner, item.id), item),
          outputs := Put(feed.outputs, slot.key, Position(slot.index, item)))
  }

  function Published(feed: Feed, slot: Slot, item: Item): Feed {
    Logged(feed, ItemDone(slot.key.turn, slot.index, item))
  }

  function Noticed(feed: Feed, slot: Slot, kind: string, part: nat, text: string): Feed {
    Logged(feed, Notice(kind, slot.key.turn, slot.id, slot.index, part, text))
  }

  function Streamed(feed: Feed, slot: Slot, text: string): Feed {
    Logged(feed, TextDelta(slot.key.turn, slot.id, slot.index, text))
  }

  /** The item an event continues: the stored one if it has the event's shape, else a new one. */
  function MessageOf(slot: Slot, phase: Option<string>): Item {
    if slot.previous.Some? && slot.previous.value.item.content.Text? then slot.previous.value.item
    else Item(slot.id, slot.key.turn, Open, Text("", phase))
  }

  function Begun(feed: Feed, slot: Slot, item: Item): Feed {
    if slot.previous.Some? then feed
    else Noticed(Claimed(feed, slot, item), slot, "content_part.added", 0, "")
  }

  function AcceptDelta(feed: Feed, slot: Slot, text: string): Feed {
    var item := MessageOf(slot, None);
    Stored(Streamed(Begun(feed, slot, item), slot, text), slot,
           item.(content := Text(item.content.text + text, item.content.phase)))
  }

  function AcceptText(feed: Feed, slot: Slot, text: string, phase: string): Feed {
    var item := MessageOf(slot, Some(phase));
    var finished := item.(content := Text(text, Some(phase)), status := Done);
    var begun := Begun(feed, slot, item);
    var streamed := if slot.previous.None? then Streamed(begun, slot, text) else begun;
    var noticed := Noticed(Noticed(streamed, slot, "output_text.done", 0, text),
                           slot, "content_part.done", 0, text);
    Stored(Published(noticed, slot, finished), slot, finished)
  }

  function ReasoningOf(slot: Slot): Item {
    if slot.previous.Some? && slot.previous.value.item.content.Summary? then slot.previous.value.item
    else Item(slot.id, slot.key.turn, Open, Summary([]))
  }

  /** Empty parts up to and including `part`, each announced. */
  function EnsurePart(feed: Feed, slot: Slot, parts: seq<string>, part: nat): (r: (Feed, seq<string>))
    ensures |r.1| > part
    decreases part + 1 - |parts|
  {
    if |parts| > part then (feed, parts)
    else EnsurePart(Noticed(feed, slot, "reasoning_summary_part.added", |parts|, ""), slot, parts + [""], part)
  }

  predicate Prefix(p: string, s: string) { |p| <= |s| && s[..|p|] == p }

  /** Rewrites the parts from `at` on with a finished summary, streaming what extends them. */
  function Rewrite(feed: Feed, slot: Slot, parts: seq<string>, summary: seq<string>, at: nat): (Feed, seq<string>)
    requires at <= |summary|
    decreases |summary| - at
  {
    if at == |summary| then (feed, parts)
    else
      var (widened, padded) := EnsurePart(feed, slot, parts, at);
      var text, before := summary[at], padded[at];
      var streamed :=
        if Prefix(before, text) && |text| > |before| then
          Noticed(widened, slot, "reasoning_summary_text.delta", at, text[|before|..])
        else widened;
      Rewrite(streamed, slot, padded[at := text], summary, at + 1)
  }

  function NoticeParts(feed: Feed, slot: Slot, parts: seq<string>, at: nat): Feed
    requires at <= |parts|
    decreases |parts| - at
  {
    if at == |parts| then feed
    else
      NoticeParts(
        Noticed(Noticed(feed, slot, "reasoning_summary_text.done", at, parts[at]),
                slot, "reasoning_summary_part.done", at, parts[at]),
        slot, parts, at + 1)
  }

  function AcceptPart(feed: Feed, slot: Slot, part: nat, text: Option<string>): Feed {
    var item := ReasoningOf(slot);
    var (widened, parts) := EnsurePart(Claimed(feed, slot, item), slot, item.content.parts, part);
    if text.Some? then
      Stored(Noticed(widened, slot, "reasoning_summary_text.delta", part, text.value), slot,
             item.(content := Summary(parts[part := parts[part] + text.value])))
    else Stored(widened, slot, item.(content := Summary(parts)))
  }

  function AcceptReasoning(feed: Feed, slot: Slot, summary: seq<string>, completed: bool): Feed {
    var item := ReasoningOf(slot);
    var (written, parts) := Rewrite(Claimed(feed, slot, item), slot, item.content.parts, summary, 0);
    var after := item.(content := Summary(parts), status := if completed then Done else Open);
    Stored(if completed then Published(NoticeParts(written, slot, parts, 0), slot, after) else written, slot, after)
  }

  function CommandOf(slot: Slot, command: string): Item {
    if slot.previous.Some? && slot.previous.value.item.content.Command? then slot.previous.value.item
    else Item(slot.id, slot.key.turn, Open, Command(command, ""))
  }

  function AcceptCommandStart(feed: Feed, slot: Slot, command: string): Feed {
    var item := CommandOf(slot, command);
    Stored(Claimed(feed, slot, item), slot, item)
  }

  function AcceptCommandDelta(feed: Feed, slot: Slot, text: string): Feed {
    var item := CommandOf(slot, "");
    Stored(Noticed(Claimed(feed, slot, item), slot, "command_execution_output.delta", 0, text), slot,
           item.(content := Command(item.content.command, item.content.output + text)))
  }

  /** A web search, an MCP call, a finished command or a collaboration. */
  function AcceptFinished(feed: Feed, slot: Slot, content: Content, status: ItemStatus): Feed {
    var item := Item(slot.id, slot.key.turn, status, content);
    var stored := Stored(Claimed(feed, slot, item), slot, item);
    if status == Open then stored else Published(stored, slot, item)
  }

  function AcceptBody(feed: Feed, slot: Slot, body: Body): Feed {
    match body
    case Delta(text) => AcceptDelta(feed, slot, text)
    case Whole(text, phase) => AcceptText(feed, slot, text, phase)
    case ReasoningDelta(part, text) => AcceptPart(feed, slot, part, Some(text))
    case ReasoningPart(part) => AcceptPart(feed, slot, part, None)
    case Reasoning(summary, completed) => AcceptReasoning(feed, slot, summary, completed)
    case CommandStart(command) => AcceptCommandStart(feed, slot, command)
    case CommandDelta(text) => AcceptCommandDelta(feed, slot, text)
    case WebSearch(status) => AcceptFinished(feed, slot, Plain("web_search_call"), status)
    case FunctionCall(call) => AcceptFinished(feed, slot, Call(call), Done)
    case Finished(content, status) => AcceptFinished(feed, slot, content, status)
  }

  // --- Closing streamed output --------------------------------------------------------------------------------

  /** The rows a walk over one turn's positions visits. */
  function OfTurn(outputs: Table<OutputKey, Position>, turn: Id): Table<OutputKey, Position> {
    if outputs == [] then []
    else (if outputs[0].value.item.turn == turn then [outputs[0]] else []) + OfTurn(outputs[1..], turn)
  }

  /** What closing an item announces before the item itself. */
  function ClosingNoticed(stored: Feed, slot: Slot, content: Content): Feed {
    match content
    case Summary(parts) => NoticeParts(stored, slot, parts, 0)
    case Text(text, _) =>
      Noticed(Noticed(stored, slot, "output_text.done", 0, text), slot, "content_part.done", 0, text)
    case _ => stored
  }

  /** Closes one position left open: stored as incomplete, its parts and then itself published. */
  function FinishItem(feed: Feed, row: Row<OutputKey, Position>, owner: Option<Id>): Feed {
    var item := row.value.item;
    if item.status != Open then feed
    else
      var closed := item.(status := Incomplete);
      var slot := Slot(row.key, owner, Some(row.value), item.id, row.value.index);
      var stored := Stored(feed, slot, closed);
      Published(ClosingNoticed(stored, slot, item.content), slot, closed)
  }

  function FinishRows(feed: Feed, rows: Table<OutputKey, Position>, owner: Option<Id>): Feed
    decreases |rows|
  {
    if rows == [] then feed else FinishRows(FinishItem(feed, rows[0], owner), rows[1..], owner)
  }

  function FinishItems(feed: Feed, turn: Id, owner: Option<Id>): Feed {
    FinishRows(feed, OfTurn(feed.outputs, turn), owner)
  }

  // --- Subagents, usage and calls ----------------------------------------------------------------------------

  function AcceptSubagent(db: Db, id: Id, closed: bool): Db {
    var next := db.(subagents := db.subagents[id := closed]);
    if id in db.subagents && db.subagents[id] == closed then next
    else Emit(next, SubagentLogged(id, id in db.subagents && closed))
  }

  /** What a child turn that is not held for the checkpoint publishes; when it ended, its items close first. */
  function ChildTurnFollowed(db: Db, turn: Turn): Db {
    if turn.status == InProgress then Emit(db, TurnStarted(turn))
    else if turn.status == Waiting then db
    else Emit(db.(feed := FinishItems(db.feed, turn.id, turn.subagent)), TurnEnded(turn.status, turn))
  }

  function AcceptSubagentTurn(db: Db, id: Id, subagent: Id, status: TurnStatus): Result<Db> {
    if subagent !in db.subagents then Err(InvalidRuntimeEvent)
    else
      var previous := Get(db.turns, id);
      var turn := Turn(id, Some(subagent), status, None, if previous.Some? then previous.value.usage else None);
      if status == Completed then
        // Published only once the root checkpoint commits.
        var held := db.(pending := Put(db.pending, id, turn));
        Ok(if previous.None? then PutTurn(held, turn.(status := InProgress)) else held)
      else
        var stored := PutTurn(db, turn);
        Ok(ChildTurnFollowed(if previous.None? then Emit(stored, TurnCreated(turn)) else stored, turn))
  }

  function Add(current: nat, next: nat, previous: nat): nat {
    if current + next >= previous then current + next - previous else 0
  }

  const NO_USAGE: Usage := Usage(0, 0, 0, 0, 0)

  function Or(usage: Option<Usage>): Usage { if usage.Some? then usage.value else NO_USAGE }

  function Summed(total: Usage, next: Usage, previous: Usage): Usage {
    Usage(Add(total.input, next.input, previous.input), Add(total.output, next.output, previous.output),
          Add(total.total, next.total, previous.total), Add(total.cached, next.cached, previous.cached),
          Add(total.reasoning, next.reasoning, previous.reasoning))
  }

  function AcceptUsage(d: Draft, id: Id, usage: Usage): Result<Draft> {
    match Get(d.db.turns, id)
    case None => Err(InvalidRuntimeEvent)
    case Some(turn) =>
      var stored := d.db.(turns := Put(d.db.turns, id, turn.(usage := Some(usage))));
      var held := Get(stored.pending, id);
      Ok(Draft(if held.None? then stored
               else stored.(pending := Put(stored.pending, id, held.value.(usage := Some(usage)))),
               d.record.(usage := Some(Summed(Or(d.record.usage), usage, Or(turn.usage))))))
  }

  predicate Requested(actions: seq<Action>, call: string) { exists a :: a in actions && a.call == call }

  /** A function call parks the session on the client's answer. */
  function AcceptCall(d: Draft, id: Id, call: string): Result<Draft> {
    match Get(d.db.turns, id)
    case None => Err(InvalidRuntimeEvent)
    case Some(turn) =>
      var db := d.db.(turns := Put(d.db.turns, id, turn.(status := Waiting)));
      Ok(Draft(Emit(db, SessionLogged(RequiresAction)),
               d.record.(actions := if Requested(d.record.actions, call) then d.record.actions
                                    else d.record.actions + [Action(id, call)],
                         status := RequiresAction)))
  }

  function AcceptOutput(d: Draft, key: OutputKey, owner: Option<Id>, body: Body): Result<Draft> {
    var next := d.(db := d.db.(feed := AcceptBody(d.db.feed, Resolve(d.db.feed, key, owner), body)));
    if body.FunctionCall? then AcceptCall(next, key.turn, body.call) else Ok(next)
  }

  function Named(turn: Option<Id>, root: Id): Id { if turn.Some? then turn.value else root }

  /** One runtime event of the turn `root`. */
  function Accept(d: Draft, root: Id, event: RuntimeEvent): Result<Draft> {
    match event
    case SubagentReported(id, closed) => Ok(d.(db := AcceptSubagent(d.db, id, closed)))
    case SubagentTurn(id, subagent, status) =>
      (match AcceptSubagentTurn(d.db, id, subagent, status)
       case Err(error) => Err(error)
       case Ok(db) => Ok(d.(db := db)))
    case UsageReported(turn, usage) => AcceptUsage(d, Named(turn, root), usage)
    case Output(native, scope, body) =>
      AcceptOutput(d, OutputKey(Named(scope.turn, root), native), scope.subagent, body)
  }
}
