/**
 Delivery from a job's log to the session: pages may be asked for again, answered late and
 delivered in any order and any number of times, and still each event is accepted once, in
 order, and completion is believed only after the whole sealed log.
 */
module Delivery {
  import opened Options
  import opened JobStates

  /** What a reader at `cursor` takes from a batch, in order; nothing when an event is missing. */
  function Fresh(cursor: nat, entries: seq<Stamped>): Option<seq<Event>>
    decreases |entries|
  {
    if entries == [] then Some([])
    else if entries[0].at <= cursor then Fresh(cursor, entries[1..])
    else if entries[0].at != cursor + 1 then None
    else
      match Fresh(cursor + 1, entries[1..])
      case None => None
      case Some(rest) => Some([entries[0].event] + rest)
  }

  function Events(entries: seq<Stamped>): seq<Event> {
    seq(|entries|, i requires 0 <= i < |entries| => entries[i].event)
  }

  /** Consecutive events that start at or before the cursor yield exactly those beyond it. */
  lemma {:induction false} FreshIsTheRest(entries: seq<Stamped>, start: nat, cursor: nat)
    requires start <= cursor && forall i | 0 <= i < |entries| :: entries[i].at == start + i + 1
    ensures Fresh(cursor, entries)
            == Some(if start + |entries| <= cursor then [] else Events(entries[cursor - start..]))
    decreases |entries|
  {
    if entries != [] {
      assert entries[0].at == start + 1;
      if start < cursor {
        FreshIsTheRest(entries[1..], start + 1, cursor);
        assert start + |entries| > cursor ==> entries[1..][cursor - start - 1..] == entries[cursor - start..];
      } else {
        FreshIsTheRest(entries[1..], start + 1, cursor + 1);
        assert entries[1..][0..] == entries[1..] && entries[0..] == entries && Events([]) == [];
        assert Events(entries) == [entries[0].event] + Events(entries[1..]);
      }
    }
  }

  /** The session's side of one execution. */
  datatype Reader = Reader(cursor: nat, accepted: seq<Event>, checkpointing: bool)

  /** One batch in one transaction; a gap, or an event the session refuses, rolls it all back. */
  function Accept(r: Reader, batch: Batch, pending: bool, refused: bool): Option<Reader> {
    match Fresh(r.cursor, batch.events)
    case None => None
    case Some(events) =>
      if refused && events != [] then None
      else Some(Reader(r.cursor + |events|, r.accepted + events,
                       r.checkpointing || (batch.status.Completed? && !pending)))
  }

  /** Polls under way remember the cursor they asked with; answers stay deliverable for ever. */
  datatype Line = Line(job: Job, reader: Reader, asked: seq<nat>, answers: seq<Batch>)

  datatype Move =
    | StatusMove(status: Outcome)
    | CancelMove
    | FailMove(error: string)
    | CloseMove
    | EmitMove(event: Event, size: nat)
    | Ask
    | Answer(poll: nat)
    | Deliver(answer: nat, pending: bool, refused: bool)

  function Changed(l: Line, next: Option<Job>): Line {
    if next.Some? then l.(job := next.value) else l
  }

  function Step(l: Line, move: Move): Line {
    match move
    case StatusMove(status) => if status.Failed? then l else Changed(l, SetStatus(l.job, status))
    case CancelMove => Changed(l, RequestCancel(l.job))
    case FailMove(error) => Changed(l, Fail(l.job, error))
    case CloseMove => Changed(l, Close(l.job))
    case EmitMove(event, size) => Changed(l, Emit(l.job, event, size))
    case Ask => if l.reader.cursor <= |l.job.events| then l.(asked := l.asked + [l.reader.cursor]) else l
    case Answer(poll) =>
      if poll < |l.asked| && l.asked[poll] <= |l.job.events| then
        l.(answers := l.answers + [Page(l.job, l.asked[poll])])
      else l
    case Deliver(answer, pending, refused) =>
      if answer >= |l.answers| then l
      else
        match Accept(l.reader, l.answers[answer], pending, refused)
        case None => l
        case Some(reader) => l.(reader := reader)
  }

  function Run(l: Line, moves: seq<Move>): Line
    decreases |moves|
  {
    if moves == [] then l else Run(Step(l, moves[0]), moves[1..])
  }

  const Begun: Line := Line(Opened, Reader(0, [], false), [], [])

  /** A stretch of the log that started no later than the reader is now. */
  ghost predicate PageOf(b: Batch, start: nat, j: Job, cursor: nat) {
    && start <= cursor && start + |b.events| <= |j.events|
    && b.events == j.events[start..start + |b.events|]
    && (b.status.Completed? ==> start + |b.events| == |j.events| && j.outcome.Completed?)
  }

  ghost predicate Delivered(l: Line) {
    && Numbered(l.job)
    && l.reader.cursor <= |l.job.events|
    && l.reader.accepted == Events(l.job.events[..l.reader.cursor])
    && (l.reader.checkpointing ==> l.reader.cursor == |l.job.events| && l.job.outcome.Completed?)
    && (forall after | after in l.asked :: after <= l.reader.cursor)
    && (forall b | b in l.answers :: exists start: nat :: PageOf(b, start, l.job, l.reader.cursor))
  }

  lemma GrowthKeepsDelivery(l: Line, next: Job)
    requires Delivered(l) && Numbered(next) && Grows(l.job, next)
    ensures Delivered(l.(job := next))
  {
    assert next.events[..l.reader.cursor] == l.job.events[..l.reader.cursor];
    forall b | b in l.answers ensures exists start: nat :: PageOf(b, start, next, l.reader.cursor) {
      var start: nat :| PageOf(b, start, l.job, l.reader.cursor);
      assert next.events[start..start + |b.events|] == l.job.events[start..start + |b.events|];
      assert PageOf(b, start, next, l.reader.cursor);
    }
  }

  lemma AnswerKeepsDelivery(l: Line, poll: nat)
    requires Delivered(l)
    ensures Delivered(Step(l, Answer(poll)))
  {
    if poll >= |l.asked| { return; }
    assert l.asked[poll] in l.asked;
    var b := Page(l.job, l.asked[poll]);
    assert b.events == l.job.events[l.asked[poll]..l.asked[poll] + |b.events|];
    assert PageOf(b, l.asked[poll], l.job, l.reader.cursor);
  }

  /** What a page adds to the accepted events takes them to its end. */
  lemma PageTakesUpTheLog(events: seq<Stamped>, page: seq<Stamped>, start: nat, cursor: nat)
    requires start <= cursor <= start + |page| <= |events| && page == events[start..start + |page|]
    ensures Events(events[..start + |page|]) == Events(events[..cursor]) + Events(page[cursor - start..])
  {
    assert page[cursor - start..] == events[cursor..start + |page|];
  }

  lemma AcceptExtends(l: Line, b: Batch, start: nat, pending: bool, refused: bool)
    requires Delivered(l) && PageOf(b, start, l.job, l.reader.cursor)
    requires Accept(l.reader, b, pending, refused).Some?
    ensures var reader := Accept(l.reader, b, pending, refused).value;
            && reader.cursor == (if l.reader.cursor <= start + |b.events| then start + |b.events| else l.reader.cursor)
            && reader.accepted == Events(l.job.events[..reader.cursor])
            && reader.checkpointing == (l.reader.checkpointing || (b.status.Completed? && !pending))
  {
    PageIsNumbered(l.job, b, start);
    FreshIsTheRest(b.events, start, l.reader.cursor);
    var from, to := l.reader.cursor, start + |b.events|;
    if from < to {
      PageTakesUpTheLog(l.job.events, b.events, start, from);
      assert |Events(b.events[from - start..])| == to - from;
    }
  }

  lemma PageIsNumbered(j: Job, b: Batch, start: nat)
    requires Numbered(j) && start + |b.events| <= |j.events| && b.events == j.events[start..start + |b.events|]
    ensures forall i | 0 <= i < |b.events| :: b.events[i].at == start + i + 1
  {
  }

  lemma AcceptKeepsDelivery(l: Line, b: Batch, start: nat, pending: bool, refused: bool)
    requires Delivered(l) && PageOf(b, start, l.job, l.reader.cursor)
    requires Accept(l.reader, b, pending, refused).Some?
    ensures Delivered(l.(reader := Accept(l.reader, b, pending, refused).value))
  {
    AcceptExtends(l, b, start, pending, refused);
    var reader := Accept(l.reader, b, pending, refused).value;
    forall c | c in l.answers ensures exists from: nat :: PageOf(c, from, l.job, reader.cursor) {
      var from: nat :| PageOf(c, from, l.job, l.reader.cursor);
      assert PageOf(c, from, l.job, reader.cursor);
    }
  }

  lemma ChangeKeepsDelivery(l: Line, next: Option<Job>)
    requires Delivered(l) && (next.Some? ==> Numbered(next.value) && Grows(l.job, next.value))
    ensures Delivered(Changed(l, next)) && Grows(l.job, Changed(l, next).job)
  {
    if next.Some? { GrowthKeepsDelivery(l, next.value); }
  }

  lemma DeliverKeepsDelivery(l: Line, answer: nat, pending: bool, refused: bool)
    requires Delivered(l)
    ensures Delivered(Step(l, Deliver(answer, pending, refused)))
  {
    if answer < |l.answers| && Accept(l.reader, l.answers[answer], pending, refused).Some? {
      assert l.answers[answer] in l.answers;
      var start: nat :| PageOf(l.answers[answer], start, l.job, l.reader.cursor);
      AcceptKeepsDelivery(l, l.answers[answer], start, pending, refused);
    }
  }

  lemma AskKeepsDelivery(l: Line)
    requires Delivered(l)
    ensures Delivered(Step(l, Ask))
  {
  }

  lemma StepKeepsDelivery(l: Line, move: Move)
    requires Delivered(l)
    ensures Delivered(Step(l, move)) && Grows(l.job, Step(l, move).job)
  {
    match move
    case StatusMove(status) =>
      ChangeKeepsDelivery(l, if status.Failed? then None else SetStatus(l.job, status));
    case CancelMove => ChangeKeepsDelivery(l, RequestCancel(l.job));
    case FailMove(error) => ChangeKeepsDelivery(l, Fail(l.job, error));
    case CloseMove => ChangeKeepsDelivery(l, Close(l.job));
    case EmitMove(event, size) => ChangeKeepsDelivery(l, Emit(l.job, event, size));
    case Ask => AskKeepsDelivery(l);
    case Answer(poll) => AnswerKeepsDelivery(l, poll);
    case Deliver(answer, pending, refused) => DeliverKeepsDelivery(l, answer, pending, refused);
  }

  lemma {:induction false} RunKeepsDelivery(l: Line, moves: seq<Move>)
    requires Delivered(l)
    ensures Delivered(Run(l, moves)) && Grows(l.job, Run(l, moves).job)
    decreases |moves|
  {
    if moves == [] {
    } else {
      StepKeepsDelivery(l, moves[0]);
      RunKeepsDelivery(Step(l, moves[0]), moves[1..]);
      GrowsOnward(l.job, Step(l, moves[0]).job, Run(l, moves).job);
    }
  }

  /**
   However the log grows and whatever polls are repeated, late or delivered out of order: the
   accepted events are exactly the first `cursor` of the log, each once and in order, and
   `checkpointing` is entered only with all of a completed log accepted, for ever after.
   */
  lemma ExactlyOnce(moves: seq<Move>, later: seq<Move>)
    ensures var l := Run(Begun, moves);
            && l.reader.cursor <= |l.job.events|
            && l.reader.accepted == Events(l.job.events[..l.reader.cursor])
            && (l.reader.checkpointing ==>
                  && l.job.outcome.Completed?
                  && l.reader.accepted == Events(l.job.events)
                  && Run(l, later).job.events == l.job.events)
  {
    RunKeepsDelivery(Begun, moves);
    var l := Run(Begun, moves);
    RunKeepsDelivery(l, later);
    assert l.job.events[..|l.job.events|] == l.job.events;
  }

  /** One poll at the current cursor, answered and delivered at once. */
  function Round(l: Line): Line {
    Step(Step(Step(l, Ask), Answer(|l.asked|)), Deliver(|l.answers|, false, false))
  }

  function Rounds(l: Line, count: nat): Line
    decreases count
  {
    if count == 0 then l else Rounds(Round(l), count - 1)
  }

  lemma PageStartsAtTheCursor(j: Job, cursor: nat)
    requires Numbered(j) && cursor <= |j.events|
    ensures PageOf(Page(j, cursor), cursor, j, cursor)
    ensures Fresh(cursor, Page(j, cursor).events).Some?
    ensures |Page(j, cursor).events| == if cursor + PAGE <= |j.events| then PAGE else |j.events| - cursor
  {
    PageIsAStretch(j, cursor);
    PageIsNumbered(j, Page(j, cursor), cursor);
    FreshIsTheRest(Page(j, cursor).events, cursor, cursor);
  }

  lemma PageIsAStretch(j: Job, cursor: nat)
    requires Numbered(j) && cursor <= |j.events|
    ensures PageOf(Page(j, cursor), cursor, j, cursor)
    ensures |Page(j, cursor).events| == if cursor + PAGE <= |j.events| then PAGE else |j.events| - cursor
  {
    var b := Page(j, cursor);
    assert b.events == j.events[cursor..cursor + |b.events|];
  }

  lemma RoundIsOnePage(l: Line)
    requires Delivered(l)
    ensures Accept(l.reader, Page(l.job, l.reader.cursor), false, false).Some?
    ensures Round(l) == Line(l.job, Accept(l.reader, Page(l.job, l.reader.cursor), false, false).value,
                             l.asked + [l.reader.cursor], l.answers + [Page(l.job, l.reader.cursor)])
  {
    PageStartsAtTheCursor(l.job, l.reader.cursor);
    var b := Page(l.job, l.reader.cursor);
    var asked := Step(l, Ask);
    assert asked.asked[|l.asked|] == l.reader.cursor;
    var answered := Step(asked, Answer(|l.asked|));
    assert answered == Line(l.job, l.reader, l.asked + [l.reader.cursor], l.answers + [b]);
    assert answered.answers[|l.answers|] == b;
  }

  lemma RoundAdvances(l: Line)
    requires Delivered(l)
    ensures var next := Round(l);
            && Delivered(next) && next.job == l.job
            && next.reader.cursor == (if l.reader.cursor + PAGE <= |l.job.events| then l.reader.cursor + PAGE else |l.job.events|)
            && (next.reader.cursor == |l.job.events| && l.job.outcome.Completed? ==> next.reader.checkpointing)
  {
    var b := Page(l.job, l.reader.cursor);
    PageStartsAtTheCursor(l.job, l.reader.cursor);
    RoundIsOnePage(l);
    AcceptExtends(l, b, l.reader.cursor, false, false);
    var asked := Step(l, Ask);
    StepKeepsDelivery(l, Ask);
    StepKeepsDelivery(asked, Answer(|l.asked|));
    StepKeepsDelivery(Step(asked, Answer(|l.asked|)), Deliver(|l.answers|, false, false));
  }

  /** Lossless: once a job completed, one round per page and the session has all of it and knows. */
  lemma {:induction false} NothingIsLost(l: Line, count: nat)
    requires Delivered(l) && l.job.outcome.Completed?
    requires count > 0 && |l.job.events| <= l.reader.cursor + count * PAGE
    ensures var done := Rounds(l, count);
            done.reader.checkpointing && done.reader.accepted == Events(l.job.events)
    decreases count
  {
    RoundAdvances(l);
    if count > 1 {
      NothingIsLost(Round(l), count - 1);
    } else {
      assert l.job.events[..|l.job.events|] == l.job.events;
    }
  }
}
