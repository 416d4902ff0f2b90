/**
 What accepting or closing one output item writes: its position is claimed at most once, it is
 stored at that position, and everything else it logs is about that item.
 */
module SessionFeeds {
  import opened Options
  import opened Tables
  import opened SessionStore
  import opened SessionEvents
  import opened SessionState

  /** Events that stream, announce parts of or finish an item. */
  predicate Chatter(e: Event) { e.Notice? || e.TextDelta? || e.ItemDone? }

  predicate About(e: Event, turn: Id, id: Id) {
    Chatter(e) && e.owner == turn && if e.ItemDone? then e.item.id == id && e.item.turn == turn else e.id == id
  }

  /** Only notifications of the slot's item were added. */
  ghost predicate OnlyNotices(a: Feed, b: Feed, slot: Slot) {
    && b == a.(log := b.log) && a.log <= b.log
    && forall e | e in b.log[|a.log|..] :: e.Notice? && About(e, slot.key.turn, slot.id)
  }

  lemma NoticesOnward(a: Feed, b: Feed, c: Feed, slot: Slot)
    requires OnlyNotices(a, b, slot) && OnlyNotices(b, c, slot)
    ensures OnlyNotices(a, c, slot)
  {
    assert c.log[|a.log|..] == b.log[|a.log|..] + c.log[|b.log|..];
  }

  lemma {:induction false} EnsurePartNotifies(feed: Feed, slot: Slot, parts: seq<string>, part: nat)
    ensures OnlyNotices(feed, EnsurePart(feed, slot, parts, part).0, slot)
    decreases part + 1 - |parts|
  {
    if |parts| <= part {
      var next := Noticed(feed, slot, "reasoning_summary_part.added", |parts|, "");
      EnsurePartNotifies(next, slot, parts + [""], part);
      NoticesOnward(feed, next, EnsurePart(feed, slot, parts, part).0, slot);
    }
  }

  lemma {:induction false} RewriteNotifies(feed: Feed, slot: Slot, parts: seq<string>, summary: seq<string>, at: nat)
    requires at <= |summary|
    ensures OnlyNotices(feed, Rewrite(feed, slot, parts, summary, at).0, slot)
    decreases |summary| - at
  {
    if at < |summary| {
      var (widened, padded) := EnsurePart(feed, slot, parts, at);
      EnsurePartNotifies(feed, slot, parts, at);
      var text, before := summary[at], padded[at];
      var streamed :=
        if Prefix(before, text) && |text| > |before| then
          Noticed(widened, slot, "reasoning_summary_text.delta", at, text[|before|..])
        else widened;
      RewriteNotifies(streamed, slot, padded[at := text], summary, at + 1);
      NoticesOnward(feed, widened, streamed, slot);
      NoticesOnward(feed, streamed, Rewrite(feed, slot, parts, summary, at).0, slot);
    }
  }

  lemma {:induction false} PartsNotify(feed: Feed, slot: Slot, parts: seq<string>, at: nat)
    requires at <= |parts|
    ensures OnlyNotices(feed, NoticeParts(feed, slot, parts, at), slot)
    decreases |parts| - at
  {
    if at < |parts| {
      var next := Noticed(Noticed(feed, slot, "reasoning_summary_text.done", at, parts[at]),
                          slot, "reasoning_summary_part.done", at, parts[at]);
      PartsNotify(next, slot, parts, at + 1);
      NoticesOnward(feed, next, NoticeParts(feed, slot, parts, at), slot);
    }
  }

  // --- One accepted event ----------------------------------------------------------------------------------

  /** The previous item of a slot, if any, is the one its position is for. */
  predicate Consistent(slot: Slot) {
    slot.previous.Some? ==> slot.previous.value.item.id == slot.id && slot.previous.value.item.turn == slot.key.turn
  }

  /** The event stored `item` at its position, after claiming it for `first` if need be, and logged `more`. */
  ghost predicate Wrote(feed: Feed, slot: Slot, next: Feed, first: Item, item: Item, more: seq<Event>) {
    && (var claimed := Claimed(feed, slot, first); next == Stored(claimed.(log := claimed.log + more), slot, item))
    && (forall e | e in more :: Chatter(e))
    && (Consistent(slot) ==>
        && item.id == slot.id && item.turn == slot.key.turn && first.id == slot.id && first.turn == slot.key.turn
        && forall e | e in more :: About(e, slot.key.turn, slot.id))
  }

  /** The text events of a message item, in order. */
  function Opening(slot: Slot): seq<Event> {
    if slot.previous.Some? then []
    else [Notice("content_part.added", slot.key.turn, slot.id, slot.index, 0, "")]
  }

  lemma DeltaWrites(feed: Feed, slot: Slot, text: string)
    ensures var first := MessageOf(slot, None);
            Wrote(feed, slot, AcceptDelta(feed, slot, text), first,
                  first.(content := Text(first.content.text + text, first.content.phase)),
                  Opening(slot) + [TextDelta(slot.key.turn, slot.id, slot.index, text)])
  {
    var first := MessageOf(slot, None);
    var claimed := Claimed(feed, slot, first);
    var begun := Begun(feed, slot, first);
    var last := TextDelta(slot.key.turn, slot.id, slot.index, text);
    assert begun == claimed.(log := claimed.log + Opening(slot));
    assert (claimed.log + Opening(slot)) + [last] == claimed.log + (Opening(slot) + [last]);
  }

  function Closing(slot: Slot, text: string, finished: Item): seq<Event> {
    [Notice("output_text.done", slot.key.turn, slot.id, slot.index, 0, text),
     Notice("content_part.done", slot.key.turn, slot.id, slot.index, 0, text),
     ItemDone(slot.key.turn, slot.index, finished)]
  }

  function Streaming(slot: Slot, text: string): seq<Event> {
    if slot.previous.Some? then [] else [TextDelta(slot.key.turn, slot.id, slot.index, text)]
  }

  lemma TextWrites(feed: Feed, slot: Slot, text: string, phase: string)
    ensures var first := MessageOf(slot, Some(phase));
            var finished := first.(content := Text(text, Some(phase)), status := Done);
            Wrote(feed, slot, AcceptText(feed, slot, text, phase), first, finished,
                  Opening(slot) + Streaming(slot, text) + Closing(slot, text, finished))
  {
    var first := MessageOf(slot, Some(phase));
    var finished := first.(content := Text(text, Some(phase)), status := Done);
    var claimed := Claimed(feed, slot, first);
    var begun := Begun(feed, slot, first);
    assert begun == claimed.(log := claimed.log + Opening(slot));
    var streamed := if slot.previous.None? then Streamed(begun, slot, text) else begun;
    assert streamed.log == claimed.log + (Opening(slot) + Streaming(slot, text));
    var last := Published(Noticed(Noticed(streamed, slot, "output_text.done", 0, text),
                                  slot, "content_part.done", 0, text), slot, finished);
    assert last.log == streamed.log + Closing(slot, text, finished);
    assert last.log == claimed.log + (Opening(slot) + Streaming(slot, text) + Closing(slot, text, finished));
  }

  lemma PartWrites(feed: Feed, slot: Slot, part: nat, text: Option<string>) returns (item: Item, more: seq<Event>)
    ensures Wrote(feed, slot, AcceptPart(feed, slot, part, text), ReasoningOf(slot), item, more)
    ensures item.content.Summary?
  {
    var first := ReasoningOf(slot);
    var claimed := Claimed(feed, slot, first);
    var (widened, parts) := EnsurePart(claimed, slot, first.content.parts, part);
    EnsurePartNotifies(claimed, slot, first.content.parts, part);
    if text.Some? {
      var told := Noticed(widened, slot, "reasoning_summary_text.delta", part, text.value);
      NoticesOnward(claimed, widened, told, slot);
      item := first.(content := Summary(parts[part := parts[part] + text.value]));
      more := told.log[|claimed.log|..];
      assert told.log == claimed.log + more;
    } else {
      item := first.(content := Summary(parts));
      more := widened.log[|claimed.log|..];
      assert widened.log == claimed.log + more;
    }
  }

  lemma SummaryWrites(feed: Feed, slot: Slot, summary: seq<string>, completed: bool)
    returns (item: Item, more: seq<Event>)
    ensures Wrote(feed, slot, AcceptReasoning(feed, slot, summary, completed), ReasoningOf(slot), item, more)
    ensures item.content.Summary?
  {
    var first := ReasoningOf(slot);
    var claimed := Claimed(feed, slot, first);
    var (written, parts) := Rewrite(claimed, slot, first.content.parts, summary, 0);
    RewriteNotifies(claimed, slot, first.content.parts, summary, 0);
    item := first.(content := Summary(parts), status := if completed then Done else Open);
    if completed {
      var told := NoticeParts(written, slot, parts, 0);
      PartsNotify(written, slot, parts, 0);
      NoticesOnward(claimed, written, told, slot);
      more := told.log[|claimed.log|..] + [ItemDone(slot.key.turn, slot.index, item)];
      assert Published(told, slot, item).log == claimed.log + more;
    } else {
      more := written.log[|claimed.log|..];
      assert written.log == claimed.log + more;
    }
  }

  lemma CommandWrites(feed: Feed, slot: Slot, body: Body) returns (first: Item, item: Item, more: seq<Event>)
    requires body.CommandStart? || body.CommandDelta?
    ensures Wrote(feed, slot, AcceptBody(feed, slot, body), first, item, more)
    ensures first.content.Command? && item.content.Command?
  {
    if body.CommandStart? {
      first, more := CommandOf(slot, body.command), [];
      item := first;
      assert Claimed(feed, slot, first).log + [] == Claimed(feed, slot, first).log;
    } else {
      first := CommandOf(slot, "");
      item := first.(content := Command(first.content.command, first.content.output + body.text));
      more := [Notice("command_execution_output.delta", slot.key.turn, slot.id, slot.index, 0, body.text)];
    }
  }

  lemma FinishedWrites(feed: Feed, slot: Slot, content: Content, status: ItemStatus) returns (more: seq<Event>)
    ensures var item := Item(slot.id, slot.key.turn, status, content);
            Wrote(feed, slot, AcceptFinished(feed, slot, content, status), item, item, more)
  {
    var item := Item(slot.id, slot.key.turn, status, content);
    more := if status == Open then [] else [ItemDone(slot.key.turn, slot.index, item)];
    assert Claimed(feed, slot, item).log + [] == Claimed(feed, slot, item).log;
  }

  lemma BodyWrites(feed: Feed, slot: Slot, body: Body) returns (first: Item, item: Item, more: seq<Event>)
    ensures Wrote(feed, slot, AcceptBody(feed, slot, body), first, item, more)
  {
    match body
    case Delta(text) =>
      DeltaWrites(feed, slot, text);
      first := MessageOf(slot, None);
      item := first.(content := Text(first.content.text + text, first.content.phase));
      more := Opening(slot) + [TextDelta(slot.key.turn, slot.id, slot.index, text)];
    case Whole(text, phase) =>
      TextWrites(feed, slot, text, phase);
      first := MessageOf(slot, Some(phase));
      item := first.(content := Text(text, Some(phase)), status := Done);
      more := Opening(slot) + Streaming(slot, text) + Closing(slot, text, item);
    case ReasoningDelta(part, text) =>
      first := ReasoningOf(slot);
      item, more := PartWrites(feed, slot, part, Some(text));
    case ReasoningPart(part) =>
      first := ReasoningOf(slot);
      item, more := PartWrites(feed, slot, part, None);
    case Reasoning(summary, completed) =>
      first := ReasoningOf(slot);
      item, more := SummaryWrites(feed, slot, summary, completed);
    case CommandStart(_) => first, item, more := CommandWrites(feed, slot, body);
    case CommandDelta(_) => first, item, more := CommandWrites(feed, slot, body);
    case WebSearch(status) =>
      item := Item(slot.id, slot.key.turn, status, Plain("web_search_call"));
      first := item;
      more := FinishedWrites(feed, slot, Plain("web_search_call"), status);
    case FunctionCall(call) =>
      item := Item(slot.id, slot.key.turn, Done, Call(call));
      first := item;
      more := FinishedWrites(feed, slot, Call(call), Done);
    case Finished(content, status) =>
      item := Item(slot.id, slot.key.turn, status, content);
      first := item;
      more := FinishedWrites(feed, slot, content, status);
  }

  // --- Closing an item -----------------------------------------------------------------------------------------

  function ClosingSlot(row: Row<OutputKey, Position>, owner: Option<Id>): Slot {
    Slot(row.key, owner, Some(row.value), row.value.item.id, row.value.index)
  }

  /** It announces notices of the item's own. */
  lemma ClosingNotices(stored: Feed, slot: Slot, content: Content) returns (notices: seq<Event>)
    ensures ClosingNoticed(stored, slot, content) == stored.(log := stored.log + notices)
    ensures forall e | e in notices :: e.Notice? && About(e, slot.key.turn, slot.id)
  {
    match content {
      case Summary(parts) =>
        PartsNotify(stored, slot, parts, 0);
        notices := NoticeParts(stored, slot, parts, 0).log[|stored.log|..];
      case Text(text, _) =>
        notices := [Notice("output_text.done", slot.key.turn, slot.id, slot.index, 0, text),
                    Notice("content_part.done", slot.key.turn, slot.id, slot.index, 0, text)];
      case _ =>
        notices := [];
        assert stored.log + [] == stored.log;
    }
  }

  lemma FinishItemWrites(feed: Feed, row: Row<OutputKey, Position>, owner: Option<Id>) returns (more: seq<Event>)
    requires row.value.item.status == Open
    ensures var closed, slot := row.value.item.(status := Incomplete), ClosingSlot(row, owner);
            && FinishItem(feed, row, owner) == Stored(feed.(log := feed.log + more), slot, closed)
            && more != [] && more[|more| - 1] == ItemDone(row.key.turn, row.value.index, closed)
            && (forall e | e in more[..|more| - 1] :: e.Notice? && About(e, row.key.turn, row.value.item.id))
            && (forall e | e in more :: Chatter(e))
  {
    var closed, slot := row.value.item.(status := Incomplete), ClosingSlot(row, owner);
    var stored := Stored(feed, slot, closed);
    var notices := ClosingNotices(stored, slot, row.value.item.content);
    var last := ItemDone(row.key.turn, row.value.index, closed);
    more := notices + [last];
    assert more[..|more| - 1] == notices;
    assert (feed.log + notices) + [last] == feed.log + more;
  }

  // --- Minting ---------------------------------------------------------------------------------------------------

  /** An accepted event mints an identifier exactly when it is the first of its item. */
  lemma BodyMints(feed: Feed, slot: Slot, body: Body)
    ensures AcceptBody(feed, slot, body).minted == feed.minted + if slot.previous.None? then 1 else 0
  {
    var first, item, more := BodyWrites(feed, slot, body);
  }

  lemma {:induction false} FinishRowsMints(feed: Feed, rows: Table<OutputKey, Position>, owner: Option<Id>)
    ensures FinishRows(feed, rows, owner).minted == feed.minted
    ensures FinishRows(feed, rows, owner).counts == feed.counts
    decreases |rows|
  {
    if rows != [] {
      if rows[0].value.item.status == Open { var more := FinishItemWrites(feed, rows[0], owner); }
      FinishRowsMints(FinishItem(feed, rows[0], owner), rows[1..], owner);
    }
  }

  lemma {:induction false} AddInputMints(feed: Feed, turn: Id, input: seq<Message>)
    ensures AddInput(feed, turn, input).0.minted == feed.minted + |input|
    decreases |input|
  {
    if input != [] {
      AddInputMints(AddItem(feed, None, turn, Done, Input(input[0])), turn, input[1..]);
    }
  }
}
