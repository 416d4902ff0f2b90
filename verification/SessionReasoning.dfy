/**
 What a client that follows the announcements of a reasoning item shows: the parts of the item, except
 where an unfinished summary rewrites what was streamed, until the summary is finished.
 */
module SessionReasoning {
  import opened Options
  import opened Tables
  import opened SessionStore
  import opened SessionEvents
  import opened SessionContents

  /** One announcement: a part is added, extended or finished; any other event is about something else. */
  function HeardOne(parts: seq<string>, e: Event, id: Id): seq<string> {
    if !e.Notice? || e.id != id then parts
    else if e.kind == "reasoning_summary_part.added" then if e.part == |parts| then parts + [e.text] else parts
    else if e.part >= |parts| then parts
    else if e.kind == "reasoning_summary_text.delta" then parts[e.part := parts[e.part] + e.text]
    else if e.kind == "reasoning_summary_text.done" then parts[e.part := e.text]
    else parts
  }

  function Heard(parts: seq<string>, log: seq<Event>, id: Id): seq<string>
    decreases |log|
  {
    if log == [] then parts else HeardOne(Heard(parts, log[..|log| - 1], id), log[|log| - 1], id)
  }

  /** Between two feeds a client went from these parts to those. */
  ghost predicate Told(a: Feed, was: seq<string>, b: Feed, now: seq<string>, id: Id) {
    a.log <= b.log && Heard(was, b.log[|a.log|..], id) == now
  }

  lemma {:induction false} HeardInTwo(parts: seq<string>, x: seq<Event>, y: seq<Event>, id: Id)
    ensures Heard(parts, x + y, id) == Heard(Heard(parts, x, id), y, id)
    decreases |y|
  {
    if y == [] {
      assert x + y == x;
    } else {
      assert (x + y)[..|x + y| - 1] == x + y[..|y| - 1];
      HeardInTwo(parts, x, y[..|y| - 1], id);
    }
  }

  lemma ToldOn(a: Feed, p: seq<string>, b: Feed, q: seq<string>, c: Feed, r: seq<string>, id: Id)
    requires Told(a, p, b, q, id) && Told(b, q, c, r, id)
    ensures Told(a, p, c, r, id)
  {
    assert c.log[|a.log|..] == b.log[|a.log|..] + c.log[|b.log|..];
    HeardInTwo(p, b.log[|a.log|..], c.log[|b.log|..], id);
  }

  lemma OneIsTold(feed: Feed, parts: seq<string>, e: Event, id: Id)
    ensures Told(feed, parts, Logged(feed, e), HeardOne(parts, e, id), id)
  {
    var added := Logged(feed, e).log[|feed.log|..];
    assert added == [e] && added[..0] == [];
  }

  // --- Parts -------------------------------------------------------------------------------------------------

  /** Whatever a client shows, it hears of each part that is opened. */
  lemma {:induction false} EnsuringIsTold(feed: Feed, slot: Slot, parts: seq<string>, heard: seq<string>, part: nat)
    requires |heard| == |parts|
    ensures Told(feed, heard, EnsurePart(feed, slot, parts, part).0, Padded(heard, part + 1), slot.id)
    decreases part + 1 - |parts|
  {
    if |parts| > part {
      assert Padded(heard, part + 1) == heard && feed.log[|feed.log|..] == [];
    } else {
      var e := Notice("reasoning_summary_part.added", slot.key.turn, slot.id, slot.index, |parts|, "");
      var next := Noticed(feed, slot, "reasoning_summary_part.added", |parts|, "");
      OneIsTold(feed, heard, e, slot.id);
      EnsuringIsTold(next, slot, parts + [""], heard + [""], part);
      ToldOn(feed, heard, next, heard + [""], EnsurePart(feed, slot, parts, part).0, Padded(heard + [""], part + 1), slot.id);
      assert Padded(heard + [""], part + 1) == Padded(heard, part + 1);
    }
  }

  /** What a rewriting summary streams of a part: what extends it, and nothing of what replaces it. */
  function Streamable(before: string, text: string): string { if Prefix(before, text) then text else before }

  function Before(parts: seq<string>, i: nat): string { if i < |parts| then parts[i] else "" }

  /** The parts a client shows behind an unfinished summary. */
  function Extended(parts: seq<string>, summary: seq<string>): seq<string> {
    seq(|summary|, i requires 0 <= i < |summary| => Streamable(Before(parts, i), summary[i]))
    + if |parts| > |summary| then parts[|summary|..] else []
  }

  lemma StreamingIsTold(feed: Feed, slot: Slot, heard: seq<string>, at: nat, text: string)
    requires at < |heard|
    ensures var before := heard[at];
            var streamed := if Prefix(before, text) && |text| > |before| then
                              Noticed(feed, slot, "reasoning_summary_text.delta", at, text[|before|..])
                            else feed;
            Told(feed, heard, streamed, heard[at := Streamable(before, text)], slot.id)
  {
    var before := heard[at];
    if Prefix(before, text) && |text| > |before| {
      OneIsTold(feed, heard, Notice("reasoning_summary_text.delta", slot.key.turn, slot.id, slot.index, at, text[|before|..]),
                slot.id);
      assert before + text[|before|..] == text;
    } else {
      assert feed.log[|feed.log|..] == [];
      assert Prefix(before, text) ==> text == before;
      assert heard[at := before] == heard;
    }
  }

  /** Two lists of parts that agree from here on. */
  ghost predicate Agree(parts: seq<string>, heard: seq<string>, at: nat) {
    |heard| == |parts| && forall i | at <= i < |parts| :: heard[i] == parts[i]
  }

  /** One part of a summary, rewritten and told. */
  lemma PartIsTold(feed: Feed, slot: Slot, parts: seq<string>, heard: seq<string>, summary: seq<string>, at: nat)
    returns (streamed: Feed, left: seq<string>, next: seq<string>)
    requires at < |summary| && at <= |parts| && Agree(parts, heard, at)
    ensures Rewrite(feed, slot, parts, summary, at) == Rewrite(streamed, slot, left, summary, at + 1)
    ensures Told(feed, heard, streamed, next, slot.id)
    ensures left == Padded(parts, at + 1)[at := summary[at]]
    ensures next == Padded(heard, at + 1)[at := Streamable(Before(parts, at), summary[at])]
  {
    var (widened, padded) := EnsurePart(feed, slot, parts, at);
    EnsuringPads(feed, slot, parts, at);
    EnsuringIsTold(feed, slot, parts, heard, at);
    var shown := Padded(heard, at + 1);
    var text, before := summary[at], padded[at];
    assert shown[at] == before == Before(parts, at);
    streamed :=
      if Prefix(before, text) && |text| > |before| then
        Noticed(widened, slot, "reasoning_summary_text.delta", at, text[|before|..])
      else widened;
    left, next := padded[at := text], shown[at := Streamable(before, text)];
    StreamingIsTold(widened, slot, shown, at, text);
    ToldOn(feed, heard, widened, shown, streamed, next, slot.id);
  }

  /** What a client shows of `heard` behind a summary whose parts before `at` it has heard. */
  ghost predicate Rewritten(parts: seq<string>, heard: seq<string>, summary: seq<string>, at: nat, now: seq<string>)
    requires at <= |heard|
  {
    && |now| == (if |parts| > |summary| then |parts| else |summary|) && at <= |now|
    && (forall i | 0 <= i < at :: now[i] == heard[i])
    && (forall i | at <= i < |summary| :: now[i] == Streamable(Before(parts, i), summary[i]))
    && forall i | |summary| <= i < |now| :: now[i] == parts[i]
  }

  lemma RewrittenOnward(parts: seq<string>, heard: seq<string>, summary: seq<string>, at: nat, now: seq<string>)
    requires at < |summary| && at <= |parts| && Agree(parts, heard, at)
    ensures var left := Padded(parts, at + 1)[at := summary[at]];
            var next := Padded(heard, at + 1)[at := Streamable(Before(parts, at), summary[at])];
            Agree(left, next, at + 1)
            && (Rewritten(left, next, summary, at + 1, now) ==> Rewritten(parts, heard, summary, at, now))
  {
    var left := Padded(parts, at + 1)[at := summary[at]];
    var next := Padded(heard, at + 1)[at := Streamable(Before(parts, at), summary[at])];
    if Rewritten(left, next, summary, at + 1, now) {
      assert now[at] == next[at];
      forall i | 0 <= i < at ensures now[i] == heard[i] { assert now[i] == next[i]; }
      forall i | at + 1 <= i < |summary| ensures now[i] == Streamable(Before(parts, i), summary[i]) {
        assert Before(left, i) == Before(parts, i);
      }
    }
  }

  lemma {:induction false} RewritingIsTold(
      feed: Feed, slot: Slot, parts: seq<string>, heard: seq<string>, summary: seq<string>, at: nat)
    returns (now: seq<string>)
    requires at <= |summary| && at <= |parts| && Agree(parts, heard, at)
    ensures Told(feed, heard, Rewrite(feed, slot, parts, summary, at).0, now, slot.id)
    ensures Rewritten(parts, heard, summary, at, now)
    decreases |summary| - at
  {
    if at == |summary| {
      assert feed.log[|feed.log|..] == [];
      now := heard;
    } else {
      var streamed, left, next := PartIsTold(feed, slot, parts, heard, summary, at);
      RewrittenOnward(parts, heard, summary, at, heard);
      now := RewritingIsTold(streamed, slot, left, next, summary, at + 1);
      ToldOn(feed, heard, streamed, next, Rewrite(feed, slot, parts, summary, at).0, now, slot.id);
      RewrittenOnward(parts, heard, summary, at, now);
    }
  }

  /** A finished item tells every part in full. */
  lemma {:induction false} FinishingIsTold(feed: Feed, slot: Slot, parts: seq<string>, heard: seq<string>, at: nat)
    requires at <= |parts| == |heard| && heard[..at] == parts[..at]
    ensures Told(feed, heard, NoticeParts(feed, slot, parts, at), parts, slot.id)
    decreases |parts| - at
  {
    if at == |parts| {
      assert feed.log[|feed.log|..] == [] && heard == parts;
    } else {
      var done := Noticed(feed, slot, "reasoning_summary_text.done", at, parts[at]);
      var closed := Noticed(done, slot, "reasoning_summary_part.done", at, parts[at]);
      var next := heard[at := parts[at]];
      OneIsTold(feed, heard, Notice("reasoning_summary_text.done", slot.key.turn, slot.id, slot.index, at, parts[at]), slot.id);
      OneIsTold(done, next, Notice("reasoning_summary_part.done", slot.key.turn, slot.id, slot.index, at, parts[at]), slot.id);
      ToldOn(feed, heard, done, next, closed, next, slot.id);
      assert next[..at + 1] == parts[..at + 1];
      FinishingIsTold(closed, slot, parts, next, at + 1);
      ToldOn(feed, heard, closed, next, NoticeParts(feed, slot, parts, at), parts, slot.id);
    }
  }

  // --- One event -----------------------------------------------------------------------------------------------

  /** The parts a reasoning item has before an event, and after. */
  function PartsBefore(slot: Slot): seq<string> { ReasoningOf(slot).content.parts }

  lemma ClaimingTellsNothing(feed: Feed, slot: Slot, item: Item, parts: seq<string>)
    ensures Told(feed, parts, Claimed(feed, slot, item), parts, slot.id)
  {
    if slot.previous.None? {
      OneIsTold(feed.(minted := feed.minted + 1, counts := feed.counts[slot.key.turn := slot.index + 1]), parts,
                ItemAdded(slot.key.turn, Some(slot.index), item), slot.id);
    } else {
      assert feed.log[|feed.log|..] == [];
    }
  }

  /** A streamed part is told as it is stored: the client shows what the listing would. */
  lemma StreamedPartsAreTold(feed: Feed, slot: Slot, part: nat, text: Option<string>)
    ensures var was := PartsBefore(slot); var open := Padded(was, part + 1);
            Told(feed, was, AcceptPart(feed, slot, part, text),
                 if text.Some? then open[part := open[part] + text.value] else open, slot.id)
  {
    var item, was := ReasoningOf(slot), PartsBefore(slot);
    var claimed := Claimed(feed, slot, item);
    var (widened, parts) := EnsurePart(claimed, slot, was, part);
    ClaimingTellsNothing(feed, slot, item, was);
    EnsuringPads(claimed, slot, was, part);
    EnsuringIsTold(claimed, slot, was, was, part);
    ToldOn(feed, was, claimed, was, widened, parts, slot.id);
    if text.Some? {
      var e := Notice("reasoning_summary_text.delta", slot.key.turn, slot.id, slot.index, part, text.value);
      OneIsTold(widened, parts, e, slot.id);
      ToldOn(feed, was, widened, parts, Logged(widened, e), parts[part := parts[part] + text.value], slot.id);
    }
  }

  /** The parts a summary leaves: its own, and behind them those there were. */
  function Replaced(was: seq<string>, summary: seq<string>): seq<string> {
    summary + if |was| > |summary| then was[|summary|..] else []
  }

  lemma {:induction false} ExtendedIff(was: seq<string>, summary: seq<string>)
    ensures Extended(was, summary) == Replaced(was, summary)
            <==> forall i | 0 <= i < |summary| :: Prefix(Before(was, i), summary[i])
  {
    var x, y := Extended(was, summary), Replaced(was, summary);
    forall i | 0 <= i < |summary| ensures x[i] == y[i] <==> Prefix(Before(was, i), summary[i]) {
      assert x[i] == Streamable(Before(was, i), summary[i]) && y[i] == summary[i];
      assert Prefix(summary[i], summary[i]) by { assert summary[i][..|summary[i]|] == summary[i]; }
    }
    if forall i | 0 <= i < |summary| :: Prefix(Before(was, i), summary[i]) {
      assert |x| == |y| && forall i | 0 <= i < |x| :: x[i] == y[i];
    }
    if x == y {
      forall i | 0 <= i < |summary| ensures Prefix(Before(was, i), summary[i]) { assert x[i] == y[i]; }
    }
  }

  lemma UnfinishedSummariesAreTold(feed: Feed, slot: Slot, summary: seq<string>)
    ensures Told(feed, PartsBefore(slot), AcceptReasoning(feed, slot, summary, false), Extended(PartsBefore(slot), summary), slot.id)
  {
    var item, was := ReasoningOf(slot), PartsBefore(slot);
    var claimed := Claimed(feed, slot, item);
    ClaimingTellsNothing(feed, slot, item, was);
    var now := RewritingIsTold(claimed, slot, was, was, summary, 0);
    ToldOn(feed, was, claimed, was, Rewrite(claimed, slot, was, summary, 0).0, now, slot.id);
    assert now == Extended(was, summary);
  }

  lemma FinishedSummariesAreTold(feed: Feed, slot: Slot, summary: seq<string>)
    ensures Told(feed, PartsBefore(slot), AcceptReasoning(feed, slot, summary, true), Replaced(PartsBefore(slot), summary), slot.id)
  {
    var item, was := ReasoningOf(slot), PartsBefore(slot);
    var claimed := Claimed(feed, slot, item);
    ClaimingTellsNothing(feed, slot, item, was);
    var now := RewritingIsTold(claimed, slot, was, was, summary, 0);
    RewritingReplaces(claimed, slot, was, summary, 0);
    var (written, parts) := Rewrite(claimed, slot, was, summary, 0);
    ToldOn(feed, was, claimed, was, written, now, slot.id);
    FinishingIsTold(written, slot, parts, now, 0);
    var noticed := NoticeParts(written, slot, parts, 0);
    ToldOn(feed, was, written, now, noticed, parts, slot.id);
    var after := item.(content := Summary(parts), status := Done);
    OneIsTold(noticed, parts, ItemDone(slot.key.turn, slot.index, after), slot.id);
    ToldOn(feed, was, noticed, parts, Published(noticed, slot, after), parts, slot.id);
  }

  /**
   A client that shows the parts of a reasoning item and hears what a summary announces shows its parts again,
   if and only if the summary is finished or extends every part it names; otherwise it goes on showing what was
   streamed of the parts that were rewritten, until the item is finished.
   */
  lemma SummariesAreShownIff(feed: Feed, slot: Slot, summary: seq<string>, completed: bool)
    ensures Told(feed, PartsBefore(slot), AcceptReasoning(feed, slot, summary, completed),
                 Replaced(PartsBefore(slot), summary), slot.id)
            <==> completed || forall i | 0 <= i < |summary| :: Prefix(Before(PartsBefore(slot), i), summary[i])
  {
    if completed {
      FinishedSummariesAreTold(feed, slot, summary);
    } else {
      UnfinishedSummariesAreTold(feed, slot, summary);
      ExtendedIff(PartsBefore(slot), summary);
    }
  }

  /** The output of a command is told as it is stored. */
  lemma CommandOutputIsTold(feed: Feed, slot: Slot, text: string)
    ensures var next := AcceptCommandDelta(feed, slot, text);
            && next.log != []
            && next.log[|next.log| - 1] == Notice("command_execution_output.delta", slot.key.turn, slot.id, slot.index, 0, text)
            && next.log[..|next.log| - 1] == Claimed(feed, slot, CommandOf(slot, "")).log
  {
  }
}
