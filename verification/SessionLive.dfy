/**
 A live reader of the event log and the stored items tell the same story: folding the log gives,
 after every commit, the text and status that are stored for each assistant message of a root turn.
 */
module LiveTranscripts {
  import opened Options
  import opened SessionStore

  /** What the reader keeps: whose each turn is, the subagents it heard of, and each owner's items. */
  datatype Live = Live(turns: map<Id, Option<Id>>, subagents: set<Id>, items: map<ItemKey, Item>)

  const BLANK: Live := Live(map[], {}, map[])

  /** The transcript an item of a turn belongs to: a known child's, or the root's. */
  function OwnerOf(l: Live, turn: Id): Option<Id> {
    if turn in l.turns && l.turns[turn].Some? && l.turns[turn].value in l.subagents then l.turns[turn] else None
  }

  function ApplyItem(l: Live, owner: Option<Id>, item: Item, done: bool): Live {
    var key := ItemKey(owner, item.id);
    if key in l.items && !done then l else l.(items := l.items[key := item])
  }

  function ApplyText(l: Live, owner: Option<Id>, id: Id, text: string): Live {
    var key := ItemKey(owner, id);
    if key !in l.items || !l.items[key].content.Text? then l
    else
      var item := l.items[key];
      l.(items := l.items[key := item.(content := Text(item.content.text + text, item.content.phase))])
  }

  function Apply(l: Live, e: Event): Live {
    match e
    case TurnCreated(turn) => l.(turns := l.turns[turn.id := turn.subagent])
    case TurnStarted(turn) => l.(turns := l.turns[turn.id := turn.subagent])
    case TurnEnded(_, turn) => l.(turns := l.turns[turn.id := turn.subagent])
    case SubagentLogged(id, _) => l.(subagents := l.subagents + {id})
    case ItemAdded(turn, _, item) => ApplyItem(l, OwnerOf(l, turn), item, false)
    case ItemDone(turn, _, item) => ApplyItem(l, OwnerOf(l, turn), item, true)
    case TextDelta(turn, id, _, text) => ApplyText(l, OwnerOf(l, turn), id, text)
    case _ => l
  }

  function Fold(log: seq<Event>): Live
    decreases |log|
  {
    if log == [] then BLANK else Apply(Fold(log[..|log| - 1]), log[|log| - 1])
  }

  function FoldFrom(l: Live, log: seq<Event>): Live
    decreases |log|
  {
    if log == [] then l else FoldFrom(Apply(l, log[0]), log[1..])
  }

  lemma FoldLogged(log: seq<Event>, e: Event)
    ensures Fold(log + [e]) == Apply(Fold(log), e)
  {
    assert (log + [e])[..|log|] == log;
  }

  /** Reading on from any point of the log gives what reading it all at once gives. */
  lemma {:induction false} FoldSplits(log: seq<Event>, more: seq<Event>)
    ensures Fold(log + more) == FoldFrom(Fold(log), more)
    decreases |more|
  {
    if more == [] {
      assert log + more == log;
    } else {
      FoldLogged(log, more[0]);
      FoldSplits(log + [more[0]], more[1..]);
      assert log + more == (log + [more[0]]) + more[1..];
    }
  }

  /** An event the reader files under the owner of its turn. */
  predicate OfItem(e: Event) { e.ItemAdded? || e.ItemDone? || e.TextDelta? }

  /** Every item event of the turn so far found the turn under this owner. */
  predicate Filed(log: seq<Event>, turn: Id, owner: Option<Id>)
    decreases |log|
  {
    log == [] ||
    (var init, last := log[..|log| - 1], log[|log| - 1];
     Filed(init, turn, owner) && (OfItem(last) && last.owner == turn ==> OwnerOf(Fold(init), turn) == owner))
  }

  lemma FiledLogged(log: seq<Event>, e: Event, turn: Id, owner: Option<Id>)
    ensures Filed(log + [e], turn, owner)
            <==> Filed(log, turn, owner) && (OfItem(e) && e.owner == turn ==> OwnerOf(Fold(log), turn) == owner)
  {
    assert (log + [e])[..|log|] == log;
  }

  lemma {:induction false} FiledEarlier(log: seq<Event>, more: seq<Event>, turn: Id, owner: Option<Id>)
    requires Filed(log + more, turn, owner)
    ensures Filed(log, turn, owner)
    decreases |more|
  {
    if more == [] {
      assert log + more == log;
    } else {
      var init := more[..|more| - 1];
      assert log + more == (log + init) + [more[|more| - 1]];
      FiledLogged(log + init, more[|more| - 1], turn, owner);
      FiledEarlier(log, init, turn, owner);
    }
  }

  /** The reader itself: its fields are replaced as events arrive. */
  class Transcript {
    var turns: map<Id, Option<Id>>
    var subagents: set<Id>
    var items: map<ItemKey, Item>
    /** The last sequence number applied; live frames at or below it are duplicates. */
    var at: nat

    ghost function State(): Live reads this { Live(turns, subagents, items) }

    constructor ()
      ensures State() == BLANK && at == 0
    {
      turns, subagents, items, at := map[], {}, map[], 0;
    }

    method Put(owner: Option<Id>, item: Item, done: bool)
      modifies `items
      ensures State() == ApplyItem(old(State()), owner, item, done)
    {
      var key := ItemKey(owner, item.id);
      if key !in items || done { items := items[key := item]; }
    }

    method Append(owner: Option<Id>, id: Id, text: string)
      modifies `items
      ensures State() == ApplyText(old(State()), owner, id, text)
    {
      var key := ItemKey(owner, id);
      if key in items && items[key].content.Text? {
        var content := items[key].content;
        items := items[key := items[key].(content := Text(content.text + text, content.phase))];
      }
    }

    method Owner(turn: Id) returns (owner: Option<Id>)
      ensures owner == OwnerOf(State(), turn)
    {
      owner := None;
      if turn in turns && turns[turn].Some? && turns[turn].value in subagents { owner := turns[turn]; }
    }

    method Read(e: Event)
      modifies this
      ensures State() == Apply(old(State()), e) && at == old(at)
    {
      match e {
        case TurnCreated(turn) => turns := turns[turn.id := turn.subagent];
        case TurnStarted(turn) => turns := turns[turn.id := turn.subagent];
        case TurnEnded(_, turn) => turns := turns[turn.id := turn.subagent];
        case SubagentLogged(id, _) => subagents := subagents + {id};
        case ItemAdded(turn, _, item) => var owner := Owner(turn); Put(owner, item, false);
        case ItemDone(turn, _, item) => var owner := Owner(turn); Put(owner, item, true);
        case TextDelta(turn, id, _, text) => var owner := Owner(turn); Append(owner, id, text);
        case _ =>
      }
    }

    /** Replays a page of the log from the cursor, then stands at its end. */
    method Replay(log: seq<Event>, limit: nat) returns (more: bool)
      requires at <= |log| && State() == Fold(log[..at])
      modifies this
      ensures old(at) <= at <= |log| && State() == Fold(log[..at])
      ensures at == if old(at) + limit < |log| then old(at) + limit else |log|
      ensures more <==> old(at) < at
    {
      var from := at;
      var end := if at + limit < |log| then at + limit else |log|;
      while at < end
        invariant from <= at <= end && State() == Fold(log[..at])
      {
        FoldLogged(log[..at], log[at]);
        assert log[..at + 1] == log[..at] + [log[at]];
        Read(log[at]);
        at := at + 1;
      }
      more := from < at;
    }

    /** A frame of the live stream; one the replay already covered is skipped. */
    method Frame(log: seq<Event>, sequence: nat)
      requires at <= |log| && State() == Fold(log[..at]) && 1 <= sequence <= |log|
      requires sequence <= at + 1
      modifies this
      ensures at == (if sequence <= old(at) then old(at) else sequence) && State() == Fold(log[..at])
    {
      if sequence > at {
        FoldLogged(log[..at], log[at]);
        assert log[..at + 1] == log[..at] + [log[at]];
        Read(log[at]);
        at := sequence;
      }
    }
  }
}

module SessionLive {
  import opened Options
  import opened Tables
  import opened SessionStore
  import opened SessionEvents
  import opened SessionState
  import opened SessionFeeds
  import opened SessionRuns
  import opened SessionShape
  import opened SessionTurns
  import opened SessionOutputs
  import opened LiveTranscripts
  import J = JobStates
  import SessionInputs
  import SessionItems

  /** Which native items are meant, as ones that are always assistant messages. */
  type Messages = OutputKey -> bool

  predicate IsText(body: Body) { body.Delta? || body.Whole? }

  /** The native items meant keep one type: they are messages in every event. */
  predicate Steady(event: RuntimeEvent, root: Id, messages: Messages) {
    event.Output? && messages(OutputKey(Named(event.scope.turn, root), event.native)) ==> IsText(event.body)
  }

  ghost predicate SteadyStep(step: Step, messages: Messages) {
    step.Poll? ==> forall e | e in step.entries :: Steady(e.event, step.fence.turn, messages)
  }

  /** What is followed: the messages filed under one owner, and whether root turns are kept from subagents. */
  datatype View = View(messages: Messages, owner: Option<Id>, courteous: bool)

  /** The reader shows this item, filed under this owner, as it is stored. */
  predicate Shows(l: Live, owner: Option<Id>, item: Item) {
    ItemKey(owner, item.id) in l.items && l.items[ItemKey(owner, item.id)] == item
  }

  /** The event gives a root turn to a subagent. */
  predicate GivesAway(e: Event) {
    (e.TurnCreated? || e.TurnStarted? || e.TurnEnded?) && e.turn.id.Minted? && e.turn.subagent.Some?
  }

  ghost predicate KeepsRoots(log: seq<Event>) { forall e | e in log :: !GivesAway(e) }

  ghost predicate Known(l: Live, minted: nat) { forall k | k in l.items :: k.id.Minted? && k.id.n < minted }

  /** A message whose turn was always filed under the owner is shown there as it is stored. */
  ghost predicate Follows(feed: Feed, view: View) {
    forall r | r in feed.outputs ::
      && (view.messages(r.key) ==> r.value.item.content.Text?)
      && (view.messages(r.key) && Filed(feed.log, r.key.turn, view.owner) ==>
            Shows(Fold(feed.log), view.owner, r.value.item))
  }

  ghost predicate Followed(feed: Feed, view: View) {
    && Placed(feed) && Known(Fold(feed.log), feed.minted) && Follows(feed, view)
    && (view.courteous ==> KeepsRoots(feed.log))
  }

  // --- What one event changes for the reader -------------------------------------------------------------

  /** The two readers differ at most in one item. */
  ghost predicate DifferAt(a: Live, b: Live, id: Id) {
    && b.turns == a.turns && b.subagents == a.subagents
    && (forall k | k in b.items :: k in a.items || k.id == id)
    && forall k | k in a.items :: k in b.items && (k.id == id || b.items[k] == a.items[k])
  }

  lemma AboutDiffersAt(l: Live, e: Event, turn: Id, id: Id)
    requires About(e, turn, id) || (e.ItemAdded? && e.item.id == id)
    ensures DifferAt(l, Apply(l, e), id)
  {
  }

  lemma {:induction false} ChatterDiffersAt(l: Live, more: seq<Event>, turn: Id, id: Id)
    requires forall e | e in more :: About(e, turn, id)
    ensures DifferAt(l, FoldFrom(l, more), id)
    decreases |more|
  {
    if more != [] {
      assert more[0] in more;
      AboutDiffersAt(l, more[0], turn, id);
      forall e | e in more[1..] ensures About(e, turn, id) { assert e in more; }
      ChatterDiffersAt(Apply(l, more[0]), more[1..], turn, id);
    }
  }

  lemma {:induction false} NoticesChangeNothing(l: Live, more: seq<Event>)
    requires forall e | e in more :: e.Notice?
    ensures FoldFrom(l, more) == l
    decreases |more|
  {
    if more != [] {
      assert more[0] in more;
      forall e | e in more[1..] ensures e.Notice? { assert e in more; }
      NoticesChangeNothing(l, more[1..]);
    }
  }

  lemma {:induction false} FoldFromSplits(l: Live, a: seq<Event>, b: seq<Event>)
    ensures FoldFrom(l, a + b) == FoldFrom(FoldFrom(l, a), b)
    decreases |a|
  {
    if a == [] {
      assert a + b == b;
    } else {
      assert (a + b)[1..] == a[1..] + b;
      FoldFromSplits(Apply(l, a[0]), a[1..], b);
    }
  }

  /** What is said of an item leaves every copy filed under another owner as it is. */
  lemma {:induction false} ChatterStaysWithItsOwner(l: Live, more: seq<Event>, turn: Id, id: Id, owner: Option<Id>, k: Id)
    requires OwnerOf(l, turn) != owner && forall e | e in more :: About(e, turn, id)
    ensures var m := FoldFrom(l, more);
            && (ItemKey(owner, k) in m.items <==> ItemKey(owner, k) in l.items)
            && (ItemKey(owner, k) in l.items ==> m.items[ItemKey(owner, k)] == l.items[ItemKey(owner, k)])
    decreases |more|
  {
    if more != [] {
      assert more[0] in more;
      AboutDiffersAt(l, more[0], turn, id);
      forall e | e in more[1..] ensures About(e, turn, id) { assert e in more; }
      ChatterStaysWithItsOwner(Apply(l, more[0]), more[1..], turn, id, owner, k);
    }
  }

  /** If what was said of an item ends in an item event, the reader files it as the turn was filed before. */
  lemma LastWasFiled(log: seq<Event>, more: seq<Event>, turn: Id, id: Id, owner: Option<Id>)
    requires more != [] && OfItem(more[|more| - 1]) && forall e | e in more :: About(e, turn, id)
    requires Filed(log + more, turn, owner)
    ensures Filed(log, turn, owner) && OwnerOf(Fold(log), turn) == owner
  {
    var init, last := more[..|more| - 1], more[|more| - 1];
    assert last in more && log + more == (log + init) + [last];
    FiledLogged(log + init, last, turn, owner);
    FiledEarlier(log, init, turn, owner);
    FoldSplits(log, init);
    forall e | e in init ensures About(e, turn, id) { assert e in more; }
    ChatterDiffersAt(Fold(log), init, turn, id);
  }

  // --- Messages ----------------------------------------------------------------------------------------------

  /** A message streamed to a turn: the reader that shows what it was under the turn's owner shows what it becomes. */
  lemma DeltaIsShown(l: Live, slot: Slot, text: string, owner: Option<Id>)
    requires OwnerOf(l, slot.key.turn) == owner
    requires var first := MessageOf(slot, None); first.id == slot.id && Shows(l, owner, first)
    ensures var first := MessageOf(slot, None);
            Shows(FoldFrom(l, Opening(slot) + [TextDelta(slot.key.turn, slot.id, slot.index, text)]), owner,
                  first.(content := Text(first.content.text + text, first.content.phase)))
  {
    var delta := TextDelta(slot.key.turn, slot.id, slot.index, text);
    FoldFromSplits(l, Opening(slot), [delta]);
    NoticesChangeNothing(l, Opening(slot));
    assert FoldFrom(l, [delta]) == FoldFrom(Apply(l, delta), []);
  }

  lemma TextIsShown(l: Live, slot: Slot, text: string, phase: string, more: seq<Event>, owner: Option<Id>)
    requires OwnerOf(l, slot.key.turn) == owner && MessageOf(slot, Some(phase)).id == slot.id
    requires var finished := MessageOf(slot, Some(phase)).(content := Text(text, Some(phase)), status := Done);
             more == Opening(slot) + Streaming(slot, text) + Closing(slot, text, finished)
    ensures var finished := MessageOf(slot, Some(phase)).(content := Text(text, Some(phase)), status := Done);
            Shows(FoldFrom(l, more), owner, finished)
  {
    var finished := MessageOf(slot, Some(phase)).(content := Text(text, Some(phase)), status := Done);
    var last := ItemDone(slot.key.turn, slot.index, finished);
    var init := Opening(slot) + Streaming(slot, text)
                + [Notice("output_text.done", slot.key.turn, slot.id, slot.index, 0, text),
                   Notice("content_part.done", slot.key.turn, slot.id, slot.index, 0, text)];
    assert more == init + [last];
    FoldFromSplits(l, init, [last]);
    ChatterDiffersAt(l, init, slot.key.turn, slot.id);
    var m := FoldFrom(l, init);
    assert FoldFrom(m, [last]) == FoldFrom(Apply(m, last), []);
  }

  // --- One accepted event ------------------------------------------------------------------------------------

  /** What an item write needs to be followed: every other item unmoved, and this one shown if it should be. */
  lemma WriteIsFollowed(feed: Feed, slot: Slot, next: Feed, item: Item, view: View)
    requires Followed(feed, view) && Placed(next) && feed.log <= next.log
    requires Consistent(slot) && item.id == slot.id && slot.previous == Get(feed.outputs, slot.key)
    requires slot.previous.None? ==> slot.id == Minted(feed.minted)
    requires next.minted >= feed.minted && (slot.previous.None? ==> next.minted == feed.minted + 1)
    requires next.outputs == Put(feed.outputs, slot.key, Position(slot.index, item))
    requires DifferAt(Fold(feed.log), Fold(next.log), slot.id)
    requires view.messages(slot.key) ==> item.content.Text?
    requires view.messages(slot.key) && Filed(next.log, slot.key.turn, view.owner) ==> Shows(Fold(next.log), view.owner, item)
    requires view.courteous ==> KeepsRoots(next.log)
    ensures Followed(next, view)
  {
    GetIn(feed.outputs, slot.key);
    assert next.log == feed.log + next.log[|feed.log|..];
    forall r | r in next.outputs
      ensures view.messages(r.key) ==> r.value.item.content.Text?
      ensures view.messages(r.key) && Filed(next.log, r.key.turn, view.owner) ==> Shows(Fold(next.log), view.owner, r.value.item)
    {
      PutMember(feed.outputs, slot.key, Position(slot.index, item), r);
      if Filed(next.log, r.key.turn, view.owner) {
        FiledEarlier(feed.log, next.log[|feed.log|..], r.key.turn, view.owner);
      }
    }
  }

  /** Claiming a position files the item where the turn is filed, and nowhere else. */
  lemma ClaimIsFiled(feed: Feed, slot: Slot, first: Item, owner: Option<Id>)
    requires Placed(feed) && Known(Fold(feed.log), feed.minted) && Consistent(slot) && first.id == slot.id
    requires slot.previous == Get(feed.outputs, slot.key)
    requires slot.previous.None? ==> slot.id == Minted(feed.minted)
    requires slot.previous.Some? ==> first == slot.previous.value.item && Shows(Fold(feed.log), owner, first)
    ensures var l, m := Fold(feed.log), Fold(Claimed(feed, slot, first).log);
            && OwnerOf(m, slot.key.turn) == OwnerOf(l, slot.key.turn)
            && (ItemKey(owner, slot.id) in m.items <==> slot.previous.Some? || OwnerOf(l, slot.key.turn) == owner)
            && (ItemKey(owner, slot.id) in m.items ==> Shows(m, owner, first))
  {
    if slot.previous.None? { FoldLogged(feed.log, ItemAdded(slot.key.turn, Some(slot.index), first)); }
  }

  lemma ClaimDiffersAt(feed: Feed, slot: Slot, first: Item, view: View)
    requires first.id == slot.id && (view.courteous ==> KeepsRoots(feed.log))
    ensures var claimed := Claimed(feed, slot, first);
            DifferAt(Fold(feed.log), Fold(claimed.log), slot.id) && (view.courteous ==> KeepsRoots(claimed.log))
  {
    if slot.previous.None? {
      var added := ItemAdded(slot.key.turn, Some(slot.index), first);
      FoldLogged(feed.log, added);
      AboutDiffersAt(Fold(feed.log), added, slot.key.turn, slot.id);
    }
  }

  lemma ClaimIsShown(feed: Feed, slot: Slot, first: Item, view: View)
    requires Followed(feed, view) && Consistent(slot) && first.id == slot.id
    requires slot.previous == Get(feed.outputs, slot.key)
    requires slot.previous.None? ==> slot.id == Minted(feed.minted)
    requires slot.previous.Some? ==> first == slot.previous.value.item
    requires view.messages(slot.key) && Filed(Claimed(feed, slot, first).log, slot.key.turn, view.owner)
    ensures Shows(Fold(Claimed(feed, slot, first).log), view.owner, first)
  {
    if slot.previous.None? {
      ClaimIsFiled(feed, slot, first, view.owner);
      FiledLogged(feed.log, ItemAdded(slot.key.turn, Some(slot.index), first), slot.key.turn, view.owner);
    } else {
      GetIn(feed.outputs, slot.key);
    }
  }

  /** The events end in one about the item, and a reader that shows it as claimed under its turn's owner shows it then. */
  ghost predicate Tells(l: Live, slot: Slot, first: Item, item: Item, more: seq<Event>, owner: Option<Id>) {
    && more != [] && OfItem(more[|more| - 1])
    && (OwnerOf(l, slot.key.turn) == owner && Shows(l, owner, first) ==> Shows(FoldFrom(l, more), owner, item))
  }

  lemma WroteIsShown(feed: Feed, slot: Slot, next: Feed, first: Item, item: Item, more: seq<Event>, view: View)
    requires Followed(feed, view) && Placed(next) && Consistent(slot) && Wrote(feed, slot, next, first, item, more)
    requires slot.previous == Get(feed.outputs, slot.key)
    requires slot.previous.None? ==> slot.id == Minted(feed.minted)
    requires slot.previous.Some? ==> first == slot.previous.value.item || !view.messages(slot.key)
    requires view.messages(slot.key) ==> item.content.Text?
    requires view.messages(slot.key) ==> Tells(Fold(Claimed(feed, slot, first).log), slot, first, item, more, view.owner)
    ensures Followed(next, view)
  {
    ClaimDiffersAt(feed, slot, first, view);
    var claimed := Claimed(feed, slot, first);
    FoldSplits(claimed.log, more);
    ChatterDiffersAt(Fold(claimed.log), more, slot.key.turn, slot.id);
    if view.messages(slot.key) && Filed(next.log, slot.key.turn, view.owner) {
      LastWasFiled(claimed.log, more, slot.key.turn, slot.id, view.owner);
      ClaimIsShown(feed, slot, first, view);
    }
    WriteIsFollowed(feed, slot, next, item, view);
  }

  /** What a text event writes: the item as first claimed, the item stored and the events about it. */
  lemma TextBodyWrites(feed: Feed, slot: Slot, body: Body, owner: Option<Id>)
      returns (first: Item, item: Item, more: seq<Event>)
    requires IsText(body) && Consistent(slot)
    ensures Wrote(feed, slot, AcceptBody(feed, slot, body), first, item, more) && item.content.Text?
    ensures slot.previous.Some? && slot.previous.value.item.content.Text? ==> first == slot.previous.value.item
    ensures Tells(Fold(Claimed(feed, slot, first).log), slot, first, item, more, owner)
    ensures body.Whole? && OwnerOf(Fold(Claimed(feed, slot, first).log), slot.key.turn) == owner ==>
              Shows(FoldFrom(Fold(Claimed(feed, slot, first).log), more), owner, item)
    ensures body.Delta? ==> more == Opening(slot) + [TextDelta(slot.key.turn, slot.id, slot.index, body.text)]
  {
    match body
    case Delta(text) =>
      DeltaWrites(feed, slot, text);
      first := MessageOf(slot, None);
      item := first.(content := Text(first.content.text + text, first.content.phase));
      more := Opening(slot) + [TextDelta(slot.key.turn, slot.id, slot.index, text)];
      var l := Fold(Claimed(feed, slot, first).log);
      if OwnerOf(l, slot.key.turn) == owner && Shows(l, owner, first) { DeltaIsShown(l, slot, text, owner); }
    case Whole(text, phase) =>
      TextWrites(feed, slot, text, phase);
      first := MessageOf(slot, Some(phase));
      item := first.(content := Text(text, Some(phase)), status := Done);
      more := Opening(slot) + Streaming(slot, text) + Closing(slot, text, item);
      var l := Fold(Claimed(feed, slot, first).log);
      if OwnerOf(l, slot.key.turn) == owner { TextIsShown(l, slot, text, phase, more, owner); }
  }

  lemma TextBodyIsFollowed(feed: Feed, key: OutputKey, owner: Option<Id>, body: Body, view: View)
    requires Followed(feed, view) && IsText(body)
    ensures Followed(AcceptBody(feed, Resolve(feed, key, owner), body), view)
  {
    var slot := Resolve(feed, key, owner);
    ResolvedSlot(feed, key, owner);
    BodyKeepsPlaces(feed, key, owner, body);
    var first, item, more := TextBodyWrites(feed, slot, body, view.owner);
    GetIn(feed.outputs, key);
    WroteIsShown(feed, slot, AcceptBody(feed, slot, body), first, item, more, view);
  }

  /** A delta finds nothing to extend in an item that is no message. */
  lemma DeltaSkipsOthers(l: Live, slot: Slot, text: string, owner: Option<Id>)
    requires slot.previous.Some? && !slot.previous.value.item.content.Text? && Consistent(slot)
    requires Shows(l, owner, slot.previous.value.item) && OwnerOf(l, slot.key.turn) == owner
    ensures FoldFrom(l, Opening(slot) + [TextDelta(slot.key.turn, slot.id, slot.index, text)]) == l
  {
    var delta := TextDelta(slot.key.turn, slot.id, slot.index, text);
    assert Opening(slot) + [delta] == [delta];
    assert FoldFrom(l, [delta]) == FoldFrom(Apply(l, delta), []);
  }

  /** The event goes on with the message, or replaces whatever the item was. */
  predicate Continues(feed: Feed, key: OutputKey, body: Body) {
    var previous := Get(feed.outputs, key);
    body.Whole? || previous.None? || previous.value.item.content.Text?
  }

  /**
   One accepted text event, in a reader that shows the item so far under an owner: it shows the item as it
   now is exactly if it files the turn under that owner and the event does not extend an item of another
   type, or the event left the item as it was.
   */
  lemma TextIsShownIff(feed: Feed, key: OutputKey, subagent: Option<Id>, body: Body, owner: Option<Id>)
    requires Placed(feed) && Known(Fold(feed.log), feed.minted) && IsText(body)
    requires var previous := Get(feed.outputs, key);
             previous.Some? ==> Shows(Fold(feed.log), owner, previous.value.item)
    ensures var previous, next := Get(feed.outputs, key), AcceptBody(feed, Resolve(feed, key, subagent), body);
            && Get(next.outputs, key).Some?
            && (Shows(Fold(next.log), owner, Get(next.outputs, key).value.item)
                <==> (OwnerOf(Fold(feed.log), key.turn) == owner && Continues(feed, key, body))
                     || (previous.Some? && Get(next.outputs, key).value.item == previous.value.item))
            && (previous.None? && OwnerOf(Fold(feed.log), key.turn) != owner
                ==> ItemKey(owner, Get(next.outputs, key).value.item.id) !in Fold(next.log).items)
  {
    var slot := Resolve(feed, key, subagent);
    ResolvedSlot(feed, key, subagent);
    var first, item, more := TextBodyWrites(feed, slot, body, owner);
    var claimed := Claimed(feed, slot, first);
    PutGet(feed.outputs, key, Position(slot.index, item), key);
    if slot.previous.None? { ClaimIsFiled(feed, slot, first, owner); }
    FoldSplits(claimed.log, more);
    if OwnerOf(Fold(feed.log), key.turn) != owner {
      ChatterStaysWithItsOwner(Fold(claimed.log), more, key.turn, slot.id, owner, slot.id);
    } else if !Continues(feed, key, body) {
      DeltaSkipsOthers(Fold(claimed.log), slot, body.text, owner);
    }
  }

  /** Items that are not messages, and their first shape, carry no text. */
  lemma OtherBodyWrites(feed: Feed, slot: Slot, body: Body) returns (first: Item, item: Item, more: seq<Event>)
    requires !IsText(body)
    ensures Wrote(feed, slot, AcceptBody(feed, slot, body), first, item, more) && !item.content.Text?
  {
    match body
    case ReasoningDelta(part, text) =>
      first := ReasoningOf(slot);
      item, more := PartWrites(feed, slot, part, Some(text));
    case ReasoningPart(part) =>
      first := ReasoningOf(slot);
      item, more := PartWrites(feed, slot, part, None);
    case Reasoning(summary, completed) =>
      first := ReasoningOf(slot);
      item, more := SummaryWrites(feed, slot, summary, completed);
    case CommandStart(_) => first, item, more := CommandWrites(feed, slot, body);
    case CommandDelta(_) => first, item, more := CommandWrites(feed, slot, body);
    case WebSearch(status) =>
      item := Item(slot.id, slot.key.turn, status, Plain("web_search_call"));
      first := item;
      more := FinishedWrites(feed, slot, Plain("web_search_call"), status);
    case FunctionCall(call) =>
      item := Item(slot.id, slot.key.turn, Done, Call(call));
      first := item;
      more := FinishedWrites(feed, slot, Call(call), Done);
    case Finished(content, status) =>
      item := Item(slot.id, slot.key.turn, status, content);
      first := item;
      more := FinishedWrites(feed, slot, content, status);
  }

  lemma BodyIsFollowed(feed: Feed, key: OutputKey, owner: Option<Id>, body: Body, view: View)
    requires Followed(feed, view) && (view.messages(key) ==> IsText(body))
    ensures Followed(AcceptBody(feed, Resolve(feed, key, owner), body), view)
  {
    if IsText(body) {
      TextBodyIsFollowed(feed, key, owner, body, view);
    } else {
      var slot := Resolve(feed, key, owner);
      ResolvedSlot(feed, key, owner);
      BodyKeepsPlaces(feed, key, owner, body);
      var first, item, more := OtherBodyWrites(feed, slot, body);
      WroteIsShown(feed, slot, AcceptBody(feed, slot, body), first, item, more, view);
    }
  }

  // --- Closing, input and other events ----------------------------------------------------------------------

  /** Closing an item shows the reader the item as it was closed, and nothing else. */
  lemma ClosingIsShown(log: seq<Event>, more: seq<Event>, turn: Id, index: nat, closed: Item, owner: Option<Id>)
    requires more != [] && more[|more| - 1] == ItemDone(turn, index, closed) && closed.turn == turn
    requires forall e | e in more[..|more| - 1] :: e.Notice?
    ensures DifferAt(Fold(log), Fold(log + more), closed.id)
    ensures Filed(log + more, turn, owner) ==> Shows(Fold(log + more), owner, closed)
  {
    var l, init, last := Fold(log), more[..|more| - 1], more[|more| - 1];
    assert log + more == (log + init) + [last];
    FoldSplits(log, init);
    NoticesChangeNothing(l, init);
    FoldLogged(log + init, last);
    FiledLogged(log + init, last, turn, owner);
    AboutDiffersAt(l, last, turn, closed.id);
  }

  lemma FinishItemIsFollowed(feed: Feed, row: Row<OutputKey, Position>, owner: Option<Id>, view: View)
    requires Followed(feed, view) && row in feed.outputs
    ensures Followed(FinishItem(feed, row, owner), view)
  {
    if row.value.item.status == Open {
      var more := FinishItemWrites(feed, row, owner);
      FinishItemKeepsPlaces(feed, row, owner);
      InGet(feed.outputs, row);
      var closed := row.value.item.(status := Incomplete);
      ClosingIsShown(feed.log, more, row.key.turn, row.value.index, closed, view.owner);
      WriteIsFollowed(feed, ClosingSlot(row, owner), FinishItem(feed, row, owner), closed, view);
    }
  }

  lemma {:induction false} FinishRowsIsFollowed(feed: Feed, rows: Table<OutputKey, Position>, owner: Option<Id>, view: View)
    requires Followed(feed, view) && StillThere(rows, feed)
    ensures Followed(FinishRows(feed, rows, owner), view)
    decreases |rows|
  {
    if rows != [] {
      VisitingLeavesTheRest(feed, rows, owner);
      FinishItemIsFollowed(feed, rows[0], owner, view);
      FinishRowsIsFollowed(FinishItem(feed, rows[0], owner), rows[1..], owner, view);
    }
  }

  lemma FinishItemsIsFollowed(feed: Feed, turn: Id, owner: Option<Id>, view: View)
    requires Followed(feed, view)
    ensures Followed(FinishItems(feed, turn, owner), view)
  {
    TurnRowsAreThere(feed, turn);
    FinishRowsIsFollowed(feed, OfTurn(feed.outputs, turn), owner, view);
  }

  /** Events about no item are followed. */
  lemma EmittingIsFollowed(feed: Feed, e: Event, view: View)
    requires Followed(feed, view) && !OfItem(e) && !e.Notice? && (view.courteous ==> !GivesAway(e))
    ensures Followed(Logged(feed, e), view)
  {
    EmittingKeepsPlaces(feed, e);
    FoldLogged(feed.log, e);
    assert Fold(Logged(feed, e).log).items == Fold(feed.log).items;
    forall r | r in feed.outputs && Filed(feed.log + [e], r.key.turn, view.owner)
      ensures Filed(feed.log, r.key.turn, view.owner)
    {
      FiledLogged(feed.log, e, r.key.turn, view.owner);
    }
  }

  lemma MovingOnIsFollowed(a: Feed, b: Feed, view: View)
    requires Followed(a, view) && b.outputs == a.outputs && b.counts == a.counts && b.log == a.log && b.minted >= a.minted
    ensures Followed(b, view)
  {
    MovedOnStaysPlaced(a, b);
  }

  lemma AddItemIsFollowed(feed: Feed, owner: Option<Id>, turn: Id, status: ItemStatus, content: Content, view: View)
    requires Followed(feed, view)
    ensures Followed(AddItem(feed, owner, turn, status, content), view)
  {
    AddItemKeepsPlaces(feed, owner, turn, status, content);
    var next := AddItem(feed, owner, turn, status, content);
    var added := ItemAdded(turn, None, Item(Minted(feed.minted), turn, status, content));
    FoldLogged(feed.log, added);
    AboutDiffersAt(Fold(feed.log), added, turn, Minted(feed.minted));
    assert forall r | r in feed.outputs :: r.value.item.id != Minted(feed.minted);
    forall r | r in feed.outputs && Filed(feed.log + [added], r.key.turn, view.owner)
      ensures Filed(feed.log, r.key.turn, view.owner)
    {
      FiledLogged(feed.log, added, r.key.turn, view.owner);
    }
  }

  lemma {:induction false} AddInputIsFollowed(feed: Feed, turn: Id, input: seq<Message>, view: View)
    requires Followed(feed, view)
    ensures Followed(AddInput(feed, turn, input).0, view)
    decreases |input|
  {
    if input != [] {
      AddItemIsFollowed(feed, None, turn, Done, Input(input[0]), view);
      AddInputIsFollowed(AddItem(feed, None, turn, Done, Input(input[0])), turn, input[1..], view);
    }
  }

  // --- Transitions -----------------------------------------------------------------------------------------

  /** What a child turn that is not held adds to the feed. */
  lemma ChildTurnFeeds(db: Db, id: Id, subagent: Id, status: TurnStatus, turn: Turn, feed: Feed)
    requires AcceptSubagentTurn(db, id, subagent, status).Ok? && status != Completed
    requires var previous := Get(db.turns, id);
             && turn == Turn(id, Some(subagent), status, None, if previous.Some? then previous.value.usage else None)
             && feed == if previous.None? then Logged(db.feed, TurnCreated(turn)) else db.feed
    ensures AcceptSubagentTurn(db, id, subagent, status).value.feed
            == if status == InProgress then Logged(feed, TurnStarted(turn))
               else if status == Waiting then feed
               else Logged(FinishItems(feed, id, Some(subagent)), TurnEnded(status, turn))
  {
  }

  lemma ChildEventsAreFollowed(feed: Feed, turn: Turn, unknown: bool, status: TurnStatus, view: View)
    requires Followed(feed, view) && (view.courteous ==> turn.id.Native?)
    ensures var told := if unknown then Logged(feed, TurnCreated(turn)) else feed;
            Followed(if status == InProgress then Logged(told, TurnStarted(turn))
                     else if status == Waiting then told
                     else Logged(FinishItems(told, turn.id, turn.subagent), TurnEnded(status, turn)), view)
  {
    EmittingIsFollowed(feed, TurnCreated(turn), view);
    var told := if unknown then Logged(feed, TurnCreated(turn)) else feed;
    EmittingIsFollowed(told, TurnStarted(turn), view);
    FinishItemsIsFollowed(told, turn.id, turn.subagent, view);
    EmittingIsFollowed(FinishItems(told, turn.id, turn.subagent), TurnEnded(status, turn), view);
  }

  lemma ChildTurnIsFollowed(db: Db, id: Id, subagent: Id, status: TurnStatus, view: View)
    requires Followed(db.feed, view) && (view.courteous ==> id.Native?) && AcceptSubagentTurn(db, id, subagent, status).Ok?
    ensures Followed(AcceptSubagentTurn(db, id, subagent, status).value.feed, view)
  {
    var previous := Get(db.turns, id);
    var turn := Turn(id, Some(subagent), status, None, if previous.Some? then previous.value.usage else None);
    if status != Completed {
      ChildEventsAreFollowed(db.feed, turn, previous.None?, status, view);
      ChildTurnFeeds(db, id, subagent, status, turn, if previous.None? then Logged(db.feed, TurnCreated(turn)) else db.feed);
    }
  }

  lemma OutputIsFollowed(d: Draft, root: Id, event: RuntimeEvent, view: View)
    requires event.Output? && Followed(d.db.feed, view) && Steady(event, root, view.messages) && Accept(d, root, event).Ok?
    ensures Followed(Accept(d, root, event).value.db.feed, view)
  {
    var key := OutputKey(Named(event.scope.turn, root), event.native);
    BodyIsFollowed(d.db.feed, key, event.scope.subagent, event.body, view);
    EmittingIsFollowed(AcceptBody(d.db.feed, Resolve(d.db.feed, key, event.scope.subagent), event.body),
                       SessionLogged(RequiresAction), view);
  }

  lemma EventIsFollowed(d: Draft, root: Id, event: RuntimeEvent, view: View)
    requires Followed(d.db.feed, view) && Steady(event, root, view.messages) && Accept(d, root, event).Ok?
    requires view.courteous ==> Courteous(event)
    ensures Followed(Accept(d, root, event).value.db.feed, view)
  {
    match event
    case SubagentReported(id, closed) =>
      EmittingIsFollowed(d.db.feed, SubagentLogged(id, id in d.db.subagents && closed), view);
    case SubagentTurn(id, subagent, status) => ChildTurnIsFollowed(d.db, id, subagent, status, view);
    case UsageReported(_, _) =>
    case Output(native, scope, body) => OutputIsFollowed(d, root, event, view);
  }

  lemma {:induction false} EntriesAreFollowed(d: Draft, root: Id, entries: seq<J.Stamped>, view: View)
    requires Followed(d.db.feed, view) && AcceptEntries(d, root, entries).Ok?
    requires forall e | e in entries :: (view.courteous ==> Courteous(e.event)) && Steady(e.event, root, view.messages)
    ensures Followed(AcceptEntries(d, root, entries).value.db.feed, view)
    decreases |entries|
  {
    if entries != [] {
      assert entries[0] in entries;
      forall e | e in entries[1..] ensures (view.courteous ==> Courteous(e.event)) && Steady(e.event, root, view.messages) {
        assert e in entries;
      }
      if entries[0].at > d.record.cursor {
        EventIsFollowed(d, root, entries[0].event, view);
        var next := Accept(d, root, entries[0].event).value;
        EntriesAreFollowed(next.(record := next.record.(cursor := entries[0].at)), root, entries[1..], view);
      } else {
        EntriesAreFollowed(d, root, entries[1..], view);
      }
    }
  }

  lemma {:induction false} ChildrenAreFollowed(
      db: Db, children: seq<Turn>, outcome: TurnStatus, error: Option<TurnError>, view: View)
    requires Followed(db.feed, view) && (view.courteous ==> Children(children))
    ensures Followed(CloseChildren(db, children, outcome, error).feed, view)
    decreases |children|
  {
    if children != [] {
      var c := children[0];
      assert c in children;
      var closed := if outcome == Completed then c else c.(status := outcome, error := error);
      FinishItemsIsFollowed(db.feed, c.id, c.subagent, view);
      EmittingIsFollowed(FinishItems(db.feed, c.id, c.subagent), TurnEnded(outcome, closed), view);
      assert view.courteous ==> Children(children[1..]);
      ChildrenAreFollowed(CloseChild(db, c, outcome, error), children[1..], outcome, error, view);
    }
  }

  /** With root turns kept from subagents, rows are kept under their turns, and only children have owners. */
  ghost predicate Tidy(db: Db, view: View) { view.courteous ==> Keyed(db) && Sorted(db) }

  ghost predicate Allowed(step: Step, view: View) {
    SteadyStep(step, view.messages) && (view.courteous ==> CourteousStep(step))
  }

  lemma SealingTheRootIsFollowed(db: Db, turn: Turn, next: Record, outcome: TurnStatus, view: View)
    requires Followed(db.feed, view) && (view.courteous && turn.id.Minted? ==> turn.subagent.None?)
    ensures Followed(SealRoot(db, turn, next, outcome).feed, view)
  {
    FinishItemsIsFollowed(db.feed, turn.id, None, view);
    var finished := FinishItems(db.feed, turn.id, None);
    EmittingIsFollowed(finished, TurnEnded(outcome, turn), view);
    EmittingIsFollowed(Logged(finished, TurnEnded(outcome, turn)), SessionLogged(next.status), view);
  }

  /** The root turn's own row, after its children were closed. */
  lemma RootsRowIsOwn(db: Db, outcome: TurnStatus, error: Option<TurnError>, root: Id)
    requires Keyed(db) && Sorted(db)
    ensures var row := Get(CloseChildren(db, OpenChildren(db, outcome), outcome, error).turns, root);
            row.Some? && row.value.id.Minted? ==> row.value.subagent.None?
  {
    ListedAreChildren(db, outcome);
    ChildrenAreKept(db, OpenChildren(db, outcome), outcome, error, true);
    GetIn(CloseChildren(db, OpenChildren(db, outcome), outcome, error).turns, root);
  }

  lemma SealIsFollowed(db: Db, record: Record, outcome: TurnStatus, error: Option<string>, view: View)
    requires Followed(db.feed, view) && Tidy(db, view)
    requires record.execution.Some? && Sealed(db, record, outcome, error).Ok?
    ensures Followed(Sealed(db, record, outcome, error).value.db.feed, view)
  {
    var children, failure, root := OpenChildren(db, outcome), TurnErrorOf(error), record.execution.value.turn;
    if view.courteous {
      ListedAreChildren(db, outcome);
      RootsRowIsOwn(db, outcome, failure, root);
    }
    ChildrenAreFollowed(db, children, outcome, failure, view);
    var closed := CloseChildren(db, children, outcome, failure).(pending := []);
    var turn := Get(closed.turns, root).value.(status := outcome, error := failure);
    SealingTheRootIsFollowed(closed, turn, SealedRecord(record, outcome, error), outcome, view);
  }

  lemma BeginIsFollowed(db: Db, record: Record, input: seq<Message>, view: View)
    requires Followed(db.feed, view)
    ensures Followed(Begin(db, record, input).db.feed, view)
  {
    var turn := Turn(Minted(db.feed.minted), None, Queued, None, None);
    var minted := db.feed.(minted := db.feed.minted + 1);
    MovingOnIsFollowed(db.feed, minted, view);
    EmittingIsFollowed(minted, TurnCreated(turn), view);
    EmittingIsFollowed(Logged(minted, TurnCreated(turn)), SessionLogged(Working), view);
  }

  lemma CompleteIsFollowed(s: Setup, db: Db, record: Record, outcome: TurnStatus, error: Option<string>, view: View)
    requires Followed(db.feed, view) && Tidy(db, view) && record.execution.Some?
    requires Complete(s, db, record, outcome, error).Ok?
    ensures Followed(Complete(s, db, record, outcome, error).value.feed, view)
  {
    SealIsFollowed(db, record, outcome, error, view);
    var d := Sealed(db, record, outcome, error).value;
    var input := Joined(d.db.refused[..PageOfRefused(s, d.db.refused)]);
    BeginIsFollowed(d.db.(refused := []), d.record, input, view);
    var started := Begin(d.db.(refused := []), d.record, input);
    AddInputIsFollowed(started.db.feed, started.record.execution.value.turn, input, view);
  }

  lemma QueueingIsFollowed(db: Db, turn: Id, control: Control, items: seq<Id>, view: View)
    requires Followed(db.feed, view)
    ensures Followed(Enqueue(db, turn, control, items).feed, view)
  {
    MovingOnIsFollowed(db.feed, Enqueue(db, turn, control, items).feed, view);
  }

  lemma ToolIsFollowed(d: Draft, driver: Driver, event: InputEvent, view: View)
    requires event.UserTool? && Followed(d.db.feed, view) && AcceptTool(d, driver, event).Ok?
    ensures Followed(AcceptTool(d, driver, event).value.db.feed, view)
  {
    var turn := Get(d.db.turns, event.turn).value;
    var status := if event.success then Done else Bad;
    var answer := Answer(event.call, event.output);
    AddItemIsFollowed(d.db.feed, turn.subagent, event.turn, status, answer, view);
    var answered := d.db.(feed := AddItem(d.db.feed, turn.subagent, event.turn, status, answer));
    var control := ToolResult(event.call, event.success, event.output);
    QueueingIsFollowed(answered, d.record.execution.value.turn, control, [], view);
    EmittingIsFollowed(Enqueue(answered, d.record.execution.value.turn, control, []).feed, SessionLogged(Working), view);
  }

  lemma {:induction false} InputsAreFollowed(d: Draft, driver: Driver, events: seq<InputEvent>, view: View)
    requires Followed(d.db.feed, view) && AcceptAll(d, driver, events).Ok?
    ensures Followed(AcceptAll(d, driver, events).value.db.feed, view)
    decreases |events|
  {
    if events != [] {
      match events[0] {
        case UserMessage(input) => MessageIsFollowed(d, driver, input, view);
        case UserCancel =>
          if d.record.execution.Some? { QueueingIsFollowed(d.db, d.record.execution.value.turn, Cancel, [], view); }
        case UserTool(_, _, _, _, _) => ToolIsFollowed(d, driver, events[0], view);
      }
      InputsAreFollowed(AcceptEvent(d, driver, events[0]).value, driver, events[1..], view);
    }
  }

  lemma MessageIsFollowed(d: Draft, driver: Driver, input: seq<Message>, view: View)
    requires Followed(d.db.feed, view) && AcceptMessage(d, driver, input).Ok?
    ensures Followed(AcceptMessage(d, driver, input).value.db.feed, view)
  {
    if d.record.execution.Some? {
      var turn := d.record.execution.value.turn;
      var (feed, ids) := AddInput(d.db.feed, turn, input);
      AddInputIsFollowed(d.db.feed, turn, input, view);
      QueueingIsFollowed(d.db.(feed := feed), turn, Steer(input), ids, view);
    } else {
      BeginIsFollowed(d.db, d.record, input, view);
      var started := Begin(d.db, d.record, input);
      AddInputIsFollowed(started.db.feed, started.record.execution.value.turn, input, view);
    }
  }

  lemma StartIsFollowed(db: Db, record: Record, view: View)
    requires Followed(db.feed, view) && Tidy(db, view) && record.execution.Some? && MarkRunning(db, record).Ok?
    ensures Followed(MarkRunning(db, record).value.feed, view)
  {
    var turn := record.execution.value.turn;
    GetIn(db.turns, turn);
    EmittingIsFollowed(db.feed, TurnStarted(Get(db.turns, turn).value.(status := InProgress)), view);
  }

  lemma FencedStepIsFollowed(s: Setup, db: Db, record: Record, step: Step, view: View)
    requires IsFenced(step) && Followed(db.feed, view) && Tidy(db, view) && Allowed(step, view)
    requires Fenced(db, step.fence) == Ok(record) && Reconcile(s, db, record, step).Ok?
    ensures Followed(Reconcile(s, db, record, step).value.feed, view)
  {
    match step
    case Start(fence) => StartIsFollowed(db, record, view);
    case Poll(fence, entries, _, _) => EntriesAreFollowed(Draft(db, record), fence.turn, entries, view);
    case Commit(_, checkpoint) =>
      CompleteIsFollowed(s, db, record.(checkpoint := Some(checkpoint)), Completed, None, view);
    case Seal(_, outcome, error) => CompleteIsFollowed(s, db, record, outcome, error, view);
    case Deliver(_, operation) =>
    case Refuse(_, operation) => MovingOnIsFollowed(db.feed, Reject(db, operation).feed, view);
  }

  lemma SubmissionIsFollowed(s: Setup, db: Db, driver: Driver, events: seq<InputEvent>, key: string, view: View)
    requires Followed(db.feed, view) && AcceptInput(s, db, driver, events, key).Ok?
    ensures Followed(AcceptInput(s, db, driver, events, key).value.feed, view)
  {
    if key !in db.accepted { InputsAreFollowed(Draft(db, db.record.value), driver, events, view); }
  }

  lemma ReportIsFollowed(db: Db, status: EnvironmentStatus, view: View)
    requires Followed(db.feed, view) && ApplyEnvironment(db, status).Ok?
    ensures Followed(ApplyEnvironment(db, status).value.feed, view)
  {
    var once := Logged(db.feed, EnvironmentLogged(status));
    EmittingIsFollowed(db.feed, EnvironmentLogged(status), view);
    EmittingIsFollowed(once, SessionLogged(Faulted), view);
    ReportsFeed(db, status, once);
  }

  lemma ClientStepIsFollowed(s: Setup, db: Db, step: Step, view: View)
    requires Followed(db.feed, view) && !IsFenced(step) && Transact(s, db, step).Ok?
    ensures Followed(Transact(s, db, step).value.feed, view)
  {
    match step
    case Submit(driver, events, key) => SubmissionIsFollowed(s, db, driver, events, key, view);
    case Report(status) => ReportIsFollowed(db, status, view);
    case Delete =>
    case Drop => EmptyIsPlaced(db.feed.minted);
  }

  lemma StepIsFollowed(s: Setup, db: Db, step: Step, view: View)
    requires Followed(db.feed, view) && Tidy(db, view) && Allowed(step, view)
    ensures Followed(After(s, db, step).feed, view)
  {
    if Transact(s, db, step).Ok? {
      if IsFenced(step) {
        FencedStepIsFollowed(s, db, db.record.value, step, view);
      } else {
        ClientStepIsFollowed(s, db, step, view);
      }
    }
  }

  lemma {:induction false} RunIsFollowed(s: Setup, db: Db, steps: seq<Step>, view: View, extra: multiset<Id>)
    requires WellShaped(db) && Accounted(db, ActiveIn(db), extra) && Tidy(db, view) && Followed(db.feed, view)
    requires forall step | step in steps :: Allowed(step, view)
    ensures Followed(Run(s, db, steps).feed, view)
    decreases |steps|
  {
    if steps != [] {
      assert steps[0] in steps;
      StepIsFollowed(s, db, steps[0], view);
      StepKeepsShape(s, db, steps[0]);
      StepIsAccounted(s, db, steps[0], extra);
      forall step | step in steps[1..] ensures Allowed(step, view) { assert step in steps; }
      RunIsFollowed(s, After(s, db, steps[0]), steps[1..], view, ExtraSince(s, db, steps[0], extra));
    }
  }

  lemma NewRunIsFollowed(s: Setup, driver: string, revision: string, sandboxed: bool, transcript: Option<string>,
                         checkpoint: Option<Checkpoint>, steps: seq<Step>, view: View)
    requires forall step | step in steps :: Allowed(step, view)
    ensures Followed(Run(s, Created(driver, revision, sandboxed, transcript, checkpoint), steps).feed, view)
  {
    EmptyIsPlaced(0);
    CreatedIsAccounted(driver, revision, sandboxed, transcript, checkpoint);
    RunIsFollowed(s, Created(driver, revision, sandboxed, transcript, checkpoint), steps, view, multiset{});
  }

  /**
   After every commit of every run: each native item whose events are all those of an assistant message, and
   whose turn, root or child, was filed under one owner by every item event, is shown by a reader that folded
   the log, under that owner, exactly as it is stored at its position: its text, its phase and its status.
   */
  lemma LiveReaderAgreesWithTheStore(
      s: Setup, driver: string, revision: string, sandboxed: bool, transcript: Option<string>,
      checkpoint: Option<Checkpoint>, steps: seq<Step>, messages: Messages, owner: Option<Id>, r: Row<OutputKey, Position>)
    requires forall step | step in steps :: SteadyStep(step, messages)
    requires var feed := Run(s, Created(driver, revision, sandboxed, transcript, checkpoint), steps).feed;
             r in feed.outputs && messages(r.key) && Filed(feed.log, r.key.turn, owner)
    ensures var l := Fold(Run(s, Created(driver, revision, sandboxed, transcript, checkpoint), steps).feed.log);
            r.value.item.content.Text? && Shows(l, owner, r.value.item)
  {
    NewRunIsFollowed(s, driver, revision, sandboxed, transcript, checkpoint, steps, View(messages, owner, false));
  }

  lemma {:induction false} KeptRootsAreTheRoots(log: seq<Event>, n: nat)
    requires KeepsRoots(log)
    ensures OwnerOf(Fold(log), Minted(n)) == None && Filed(log, Minted(n), None)
    decreases |log|
  {
    if log != [] {
      var init, last := log[..|log| - 1], log[|log| - 1];
      assert last in log && KeepsRoots(init);
      KeptRootsAreTheRoots(init, n);
      RootsStayFree(init, n);
    }
  }

  lemma {:induction false} RootsStayFree(log: seq<Event>, n: nat)
    requires KeepsRoots(log)
    ensures var l := Fold(log); Minted(n) in l.turns ==> l.turns[Minted(n)] == None
    decreases |log|
  {
    if log != [] {
      assert log[|log| - 1] in log && KeepsRoots(log[..|log| - 1]);
      RootsStayFree(log[..|log| - 1], n);
    }
  }

  /** A runtime that reports children only under its own identifiers leaves every root turn filed as the root's. */
  lemma CourteousRunsFileTheirRoots(
      s: Setup, driver: string, revision: string, sandboxed: bool, transcript: Option<string>,
      checkpoint: Option<Checkpoint>, steps: seq<Step>, n: nat)
    requires AllCourteous(steps)
    ensures Filed(Run(s, Created(driver, revision, sandboxed, transcript, checkpoint), steps).feed.log, Minted(n), None)
  {
    NewRunIsFollowed(s, driver, revision, sandboxed, transcript, checkpoint, steps, View(key => false, None, true));
    KeptRootsAreTheRoots(Run(s, Created(driver, revision, sandboxed, transcript, checkpoint), steps).feed.log, n);
  }

  /**
   So on driven runs in which the runtime attributes each turn to one owner, and the reader files it there,
   the listing agrees with the live reader too: the stored copy of each assistant message, of a root turn or
   of a child's, is what folding the log shows.
   */
  lemma LiveReaderAgreesWithTheListing(
      s: Setup, driver: string, revision: string, sandboxed: bool, transcript: Option<string>,
      checkpoint: Option<Checkpoint>, steps: seq<Step>, messages: Messages, owner: SessionItems.Owners,
      r: Row<OutputKey, Position>)
    requires forall step | step in steps :: SteadyStep(step, messages)
    requires SessionItems.OwnRoots(owner) && forall step | step in steps :: SessionItems.AttributedStep(step, owner)
    requires SessionInputs.AllDriven(s, Created(driver, revision, sandboxed, transcript, checkpoint), steps)
    requires var feed := Run(s, Created(driver, revision, sandboxed, transcript, checkpoint), steps).feed;
             r in feed.outputs && messages(r.key) && Filed(feed.log, r.key.turn, owner(r.key.turn))
    ensures var feed := Run(s, Created(driver, revision, sandboxed, transcript, checkpoint), steps).feed;
            var shown := ItemKey(owner(r.key.turn), r.value.item.id);
            && shown in Fold(feed.log).items
            && SessionItems.StoredCopy(feed, owner(r.key.turn), r.value.item.id) == Some(Fold(feed.log).items[shown])
  {
    LiveReaderAgreesWithTheStore(s, driver, revision, sandboxed, transcript, checkpoint, steps, messages, owner(r.key.turn), r);
    SessionItems.ListingShowsWhatWasStreamed(s, driver, revision, sandboxed, transcript, checkpoint, steps, owner, r);
  }
}
