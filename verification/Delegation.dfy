/**
 A delegated child's relay: it reads the child's log through polls and repeats it in the parent's
 stream under the child's identifiers, between one opening and at most one terminal and one closing
 record. A cancellation may record the end while a poll is still out.
 */
module Delegations {
  import opened Options
  import opened SessionStore
  import opened SessionEvents
  import J = JobStates

  datatype ChildStatus = Active | Ended(status: TurnStatus)
  /** One child, what it has emitted into the parent's stream, and whether a poll is out. */
  datatype Child = Child(subagent: Id, turn: Id, cursor: nat, status: ChildStatus, error: Option<string>, output: string,
                         closed: bool, pending: set<string>, polling: bool, emitted: seq<RuntimeEvent>,
                         failed: Option<string>)

  predicate Relayable(event: RuntimeEvent) { event.UsageReported? || event.Output? }

  /** The event as the parent's stream carries it: the child's, whoever it named. */
  function Scoped(subagent: Id, turn: Id, event: RuntimeEvent): RuntimeEvent {
    match event
    case UsageReported(_, usage) => UsageReported(Some(turn), usage)
    case Output(native, _, body) => Output(native, Scope(Some(subagent), Some(turn)), body)
    case _ => event
  }

  function Spawned(subagent: Id, turn: Id): Child {
    Child(subagent, turn, 0, Active, None, "", false, {}, false,
          [SubagentReported(subagent, false), SubagentTurn(turn, subagent, InProgress)], None)
  }

  predicate FinalAnswer(event: RuntimeEvent) { event.Output? && event.body.Whole? && event.body.phase == "final_answer" }

  predicate Calls(event: RuntimeEvent) { event.Output? && event.body.FunctionCall? }

  function Relay(c: Child, event: RuntimeEvent): Child {
    if !Relayable(event) then c
    else
      c.(pending := if Calls(event) then c.pending + {event.body.call} else c.pending,
         output := if FinalAnswer(event) then event.body.text else c.output,
         emitted := c.emitted + [Scoped(c.subagent, c.turn, event)])
  }

  /** Takes a batch up to its first gap; events already known are passed over. */
  function Take(c: Child, entries: seq<J.Stamped>): (Child, bool)
    decreases |entries|
  {
    if entries == [] then (c, true)
    else if entries[0].at <= c.cursor then Take(c, entries[1..])
    else if entries[0].at != c.cursor + 1 then (c, false)
    else Take(Relay(c.(cursor := entries[0].at), entries[0].event), entries[1..])
  }

  function Close(c: Child): Child {
    if c.closed then c else c.(closed := true, emitted := c.emitted + [SubagentReported(c.subagent, true)])
  }

  const UNCERTAIN: string := "programmatic_execution_uncertain"

  /** The one terminal record, and the closing record with it. */
  function Terminate(c: Child, status: TurnStatus, error: Option<string>): Child {
    if c.status.Ended? then c
    else
      var ended := c.(status := Ended(status), error := error, pending := {},
                      emitted := c.emitted + [SubagentTurn(c.turn, c.subagent, status)]);
      Close(ended).(failed := if error == Some(UNCERTAIN) then error else c.failed)
  }

  datatype ChildBatch = ChildBatch(entries: seq<J.Stamped>, status: BatchEnd)
  datatype BatchEnd = Continues | Finishes(status: TurnStatus, error: Option<string>) | Vanished

  /** A poll's answer: relayed at once, whatever happened to the child while the poll was out. */
  function Answered(c: Child, batch: ChildBatch, aborted: bool): Child {
    var (taken, whole) := Take(c.(polling := false), batch.entries);
    if !whole then Lost(taken, aborted)
    else
      match batch.status
      case Continues => taken
      case Finishes(status, error) => Terminate(taken, status, error)
      case Vanished => Terminate(taken, Failed, Some("outcome_unknown"))
  }

  /** The relay failed: the child ends with it, unless it had ended. */
  function Lost(c: Child, aborted: bool): Child {
    var idle := c.(polling := false);
    if aborted then Terminate(idle, Cancelled, None) else Terminate(idle, Failed, Some("subagent_relay_failed"))
  }

  datatype Move =
    | Poll(aborted: bool)
    | Hear(batch: ChildBatch, aborted: bool)
    | Fail(aborted: bool)
    | CancelAll
    | CloseRecord
    | ResultRouted(call: string)

  function Next(c: Child, move: Move): Child {
    match move
    case Poll(aborted) => if aborted || c.status.Ended? then c else c.(polling := true)
    case Hear(batch, aborted) => if c.polling then Answered(c, batch, aborted) else c
    case Fail(aborted) => if c.polling then Lost(c, aborted) else c
    case CancelAll => Close(Terminate(c, Cancelled, None))
    case CloseRecord => Close(c)
    case ResultRouted(call) => c.(pending := c.pending - {call})
  }

  function Run(c: Child, moves: seq<Move>): Child
    decreases |moves|
  {
    if moves == [] then c else Run(Next(c, moves[0]), moves[1..])
  }

  // --- What was emitted -------------------------------------------------------------------------------------

  /** What is not a child's own report about subagents. */
  predicate Content(e: RuntimeEvent) { !e.SubagentReported? && !e.SubagentTurn? }

  /** An event of the child's log under other names. */
  function Renamed(e: RuntimeEvent, subagent: Id, turn: Id): RuntimeEvent
    requires Content(e)
  {
    if e.UsageReported? then e.(turn := Some(turn)) else e.(scope := Scope(Some(subagent), Some(turn)))
  }

  function Relayed(log: seq<RuntimeEvent>, subagent: Id, turn: Id): seq<RuntimeEvent>
    decreases |log|
  {
    if log == [] then []
    else
      var last := log[|log| - 1];
      Relayed(log[..|log| - 1], subagent, turn) + if Content(last) then [Renamed(last, subagent, turn)] else []
  }

  function Repeats(emitted: seq<RuntimeEvent>): seq<RuntimeEvent>
    decreases |emitted|
  {
    if emitted == [] then []
    else
      var last := emitted[|emitted| - 1];
      Repeats(emitted[..|emitted| - 1]) + if Content(last) then [last] else []
  }

  predicate IsTerminal(e: RuntimeEvent) { e.SubagentTurn? && e.status != InProgress }

  predicate IsClosing(e: RuntimeEvent) { e.SubagentReported? && e.closed }

  function Terminals(emitted: seq<RuntimeEvent>): nat
    decreases |emitted|
  {
    if emitted == [] then 0
    else Terminals(emitted[..|emitted| - 1]) + if IsTerminal(emitted[|emitted| - 1]) then 1 else 0
  }

  function Closings(emitted: seq<RuntimeEvent>): nat
    decreases |emitted|
  {
    if emitted == [] then 0
    else Closings(emitted[..|emitted| - 1]) + if IsClosing(emitted[|emitted| - 1]) then 1 else 0
  }

  lemma EmittedOne(emitted: seq<RuntimeEvent>, e: RuntimeEvent)
    ensures Repeats(emitted + [e]) == Repeats(emitted) + if Content(e) then [e] else []
    ensures Terminals(emitted + [e]) == Terminals(emitted) + if IsTerminal(e) then 1 else 0
    ensures Closings(emitted + [e]) == Closings(emitted) + if IsClosing(e) then 1 else 0
  {
    assert (emitted + [e])[..|emitted|] == emitted;
  }

  lemma RelayedOne(log: seq<RuntimeEvent>, n: nat, subagent: Id, turn: Id)
    requires n < |log|
    ensures Relayed(log[..n + 1], subagent, turn)
            == Relayed(log[..n], subagent, turn) + if Content(log[n]) then [Renamed(log[n], subagent, turn)] else []
  {
    assert log[..n + 1][..n] == log[..n];
  }

  /** A page holds a stretch of the child's log; a finished status names an outcome. */
  ghost predicate FromLog(entries: seq<J.Stamped>, log: seq<RuntimeEvent>) {
    forall e | e in entries :: 1 <= e.at <= |log| && e.event == log[e.at - 1]
  }

  ghost predicate Reads(move: Move, log: seq<RuntimeEvent>) {
    move.Hear? ==>
      FromLog(move.batch.entries, log)
      && (move.batch.status.Finishes? ==> move.batch.status.status in {Completed, Cancelled, Failed})
  }

  ghost predicate AllRead(moves: seq<Move>, log: seq<RuntimeEvent>) { forall move | move in moves :: Reads(move, log) }

  /** The child's log so far, once; and its end and its closing recorded exactly as it ended and closed. */
  ghost predicate Faithful(c: Child, log: seq<RuntimeEvent>) {
    && c.cursor <= |log|
    && Repeats(c.emitted) == Relayed(log[..c.cursor], c.subagent, c.turn)
    && Terminals(c.emitted) == (if c.status.Ended? then 1 else 0)
    && Closings(c.emitted) == (if c.closed then 1 else 0)
    && (c.status.Ended? ==> c.closed && SubagentTurn(c.turn, c.subagent, c.status.status) in c.emitted)
  }

  lemma RelayingIsFaithful(c: Child, event: RuntimeEvent, log: seq<RuntimeEvent>)
    requires Faithful(c, log) && c.cursor < |log| && event == log[c.cursor]
    ensures Faithful(Relay(c.(cursor := c.cursor + 1), event), log)
  {
    RelayedOne(log, c.cursor, c.subagent, c.turn);
    EmittedOne(c.emitted, Scoped(c.subagent, c.turn, event));
  }

  lemma {:induction false} TakingIsFaithful(c: Child, entries: seq<J.Stamped>, log: seq<RuntimeEvent>)
    requires Faithful(c, log) && FromLog(entries, log)
    ensures var next := Take(c, entries).0;
            Faithful(next, log) && next.status == c.status && next.closed == c.closed && next.subagent == c.subagent
            && next.turn == c.turn && next.cursor >= c.cursor && next.polling == c.polling
    decreases |entries|
  {
    if entries != [] {
      var e := entries[0];
      assert e in entries;
      forall later | later in entries[1..] ensures 1 <= later.at <= |log| && later.event == log[later.at - 1] {
        assert later in entries;
      }
      if e.at <= c.cursor {
        TakingIsFaithful(c, entries[1..], log);
      } else if e.at == c.cursor + 1 {
        RelayingIsFaithful(c, e.event, log);
        TakingIsFaithful(Relay(c.(cursor := e.at), e.event), entries[1..], log);
      }
    }
  }

  lemma TerminatingIsFaithful(c: Child, status: TurnStatus, error: Option<string>, log: seq<RuntimeEvent>)
    requires Faithful(c, log) && status in {Completed, Cancelled, Failed}
    ensures var next := Terminate(c, status, error); Faithful(next, log) && next.status.Ended?
  {
    var terminal, closing := SubagentTurn(c.turn, c.subagent, status), SubagentReported(c.subagent, true);
    EmittedOne(c.emitted, terminal);
    EmittedOne(c.emitted + [terminal], closing);
  }

  lemma LosingIsFaithful(c: Child, aborted: bool, log: seq<RuntimeEvent>)
    requires Faithful(c, log)
    ensures Faithful(Lost(c, aborted), log)
  {
    var idle := c.(polling := false);
    if aborted { TerminatingIsFaithful(idle, Cancelled, None, log); }
    else { TerminatingIsFaithful(idle, Failed, Some("subagent_relay_failed"), log); }
  }

  lemma AnswerIsFaithful(c: Child, batch: ChildBatch, aborted: bool, log: seq<RuntimeEvent>)
    requires Faithful(c, log) && Reads(Hear(batch, aborted), log)
    ensures Faithful(Answered(c, batch, aborted), log)
  {
    var idle := c.(polling := false);
    TakingIsFaithful(idle, batch.entries, log);
    var (taken, whole) := Take(idle, batch.entries);
    if !whole { LosingIsFaithful(taken, aborted, log); }
    else if batch.status.Finishes? { TerminatingIsFaithful(taken, batch.status.status, batch.status.error, log); }
    else if batch.status.Vanished? { TerminatingIsFaithful(taken, Failed, Some("outcome_unknown"), log); }
  }

  lemma ClosingIsFaithful(c: Child, log: seq<RuntimeEvent>)
    requires Faithful(c, log)
    ensures Faithful(Close(c), log)
  {
    EmittedOne(c.emitted, SubagentReported(c.subagent, true));
  }

  lemma MoveIsFaithful(c: Child, move: Move, log: seq<RuntimeEvent>)
    requires Faithful(c, log) && Reads(move, log)
    ensures Faithful(Next(c, move), log)
  {
    match move
    case Hear(batch, aborted) => if c.polling { AnswerIsFaithful(c, batch, aborted, log); }
    case Fail(aborted) => LosingIsFaithful(c, aborted, log);
    case CancelAll =>
      TerminatingIsFaithful(c, Cancelled, None, log);
      ClosingIsFaithful(Terminate(c, Cancelled, None), log);
    case CloseRecord => ClosingIsFaithful(c, log);
    case _ =>
  }

  lemma {:induction false} RunIsFaithful(c: Child, moves: seq<Move>, log: seq<RuntimeEvent>)
    requires Faithful(c, log) && AllRead(moves, log)
    ensures Faithful(Run(c, moves), log)
    decreases |moves|
  {
    if moves != [] {
      assert moves[0] in moves;
      MoveIsFaithful(c, moves[0], log);
      forall move | move in moves[1..] ensures Reads(move, log) { assert move in moves; }
      RunIsFaithful(Next(c, moves[0]), moves[1..], log);
    }
  }

  /**
   However polls are repeated, late or lost, and whenever the parent cancels: what was relayed of the
   child is exactly the first `cursor` events of its log that can be relayed, each once and in order,
   with at most one terminal and one closing record, and the terminal one exactly when it ended.
   */
  lemma RelayIsExactlyOnce(subagent: Id, turn: Id, moves: seq<Move>, log: seq<RuntimeEvent>)
    requires AllRead(moves, log)
    ensures var c := Run(Spawned(subagent, turn), moves);
            && c.cursor <= |log| && Repeats(c.emitted) == Relayed(log[..c.cursor], c.subagent, c.turn)
            && Terminals(c.emitted) == (if c.status.Ended? then 1 else 0)
            && Closings(c.emitted) == (if c.closed then 1 else 0)
            && (c.status.Ended? ==> c.closed)
  {
    var opening := [SubagentReported(subagent, false)];
    EmittedOne([], SubagentReported(subagent, false));
    EmittedOne(opening, SubagentTurn(turn, subagent, InProgress));
    assert Spawned(subagent, turn).emitted == opening + [SubagentTurn(turn, subagent, InProgress)];
    assert [] + opening == opening;
    RunIsFaithful(Spawned(subagent, turn), moves, log);
  }

  // --- After the end -------------------------------------------------------------------------------------------

  predicate Done(c: Child) { c.status.Ended? && c.closed }

  /** What a child that ended still takes from a poll's answer: the events, and nothing else. */
  function Overheard(c: Child, moves: seq<Move>): seq<RuntimeEvent>
    decreases |moves|
  {
    if moves == [] || !c.polling then c.emitted
    else
      match moves[0]
      case Hear(batch, _) => Take(c, batch.entries).0.emitted
      case Fail(_) => c.emitted
      case _ => Overheard(c, moves[1..])
  }

  /** Calls waiting for results make no difference to what is relayed. */
  lemma {:induction false} CallsDoNotSpeak(c: Child, d: Child, entries: seq<J.Stamped>)
    requires d == c.(pending := d.pending, polling := d.polling)
    ensures Take(d, entries).0 == Take(c, entries).0.(pending := Take(d, entries).0.pending, polling := d.polling)
    ensures Take(c, entries).0.status == c.status && Take(c, entries).0.closed == c.closed
    ensures Take(c, entries).0.polling == c.polling && Take(d, entries).1 == Take(c, entries).1
    decreases |entries|
  {
    if entries != [] {
      if entries[0].at <= c.cursor {
        CallsDoNotSpeak(c, d, entries[1..]);
      } else if entries[0].at == c.cursor + 1 {
        CallsDoNotSpeak(Relay(c.(cursor := entries[0].at), entries[0].event),
                        Relay(d.(cursor := entries[0].at), entries[0].event), entries[1..]);
      }
    }
  }

  lemma AnswersAreOverheard(c: Child, batch: ChildBatch, aborted: bool)
    requires Done(c)
    ensures var next := Answered(c, batch, aborted);
            Done(next) && !next.polling && next.emitted == Take(c, batch.entries).0.emitted
  {
    CallsDoNotSpeak(c, c.(polling := false), batch.entries);
  }

  lemma {:induction false} OverheardIgnoresCalls(c: Child, d: Child, moves: seq<Move>)
    requires d == c.(pending := d.pending)
    ensures Overheard(d, moves) == Overheard(c, moves)
    decreases |moves|
  {
    if moves != [] && c.polling {
      if moves[0].Hear? { CallsDoNotSpeak(c, d, moves[0].batch.entries); }
      OverheardIgnoresCalls(c, d, moves[1..]);
    }
  }

  /**
   On every run after its end a child emits exactly what the poll that was out then still answers, and
   nothing at all if none was out: no later poll goes out, and no second answer is heard.
   */
  lemma {:induction false} EndedChildrenAreSilent(c: Child, moves: seq<Move>)
    requires Done(c)
    ensures Run(c, moves).emitted == Overheard(c, moves)
    ensures !c.polling ==> Run(c, moves).emitted == c.emitted
    decreases |moves|
  {
    if moves != [] {
      var next := Next(c, moves[0]);
      match moves[0] {
        case Hear(batch, aborted) => if c.polling { AnswersAreOverheard(c, batch, aborted); }
        case ResultRouted(_) => OverheardIgnoresCalls(c, next, moves[1..]);
        case _ =>
      }
      EndedChildrenAreSilent(next, moves[1..]);
    }
  }

  /**
   But a poll that is out when the parent cancels is still relayed when it answers: with a next event
   that can be relayed, that event follows the terminal record. So a child's events end at its terminal
   record exactly if no poll is out then.
   */
  lemma CancelledChildrenMaySpeakAgain(c: Child, event: RuntimeEvent, aborted: bool)
    requires c.status.Active? && Relayable(event)
    ensures var ended := Next(c, CancelAll);
            var batch := ChildBatch([J.Stamped(c.cursor + 1, event)], Continues);
            && ended.status == Ended(Cancelled) && ended.closed
            && Next(ended, Hear(batch, aborted)).emitted
               == ended.emitted + if c.polling then [Renamed(event, c.subagent, c.turn)] else []
  {
    var ended := Next(c, CancelAll);
    var entries := [J.Stamped(c.cursor + 1, event)];
    if c.polling {
      var idle := ended.(polling := false);
      var relayed := Relay(idle.(cursor := c.cursor + 1), event);
      assert entries[1..] == [];
      assert Take(relayed, []) == (relayed, true);
      assert Take(idle, entries) == (relayed, true);
    }
  }

  // --- What the parent's session makes of it ----------------------------------------------------------------------

  /**
   Everything a child emits names the child's own turn and subagent, so the parent's session files it
   under that subagent and never under one of its own turns.
   */
  lemma {:induction false} ChildrenSpeakForThemselves(c: Child, moves: seq<Move>)
    requires forall e | e in c.emitted :: Own(c, e)
    ensures var last := Run(c, moves);
            last.subagent == c.subagent && last.turn == c.turn && forall e | e in last.emitted :: Own(c, e)
    decreases |moves|
  {
    if moves != [] {
      NextSpeaksForItself(c, moves[0]);
      ChildrenSpeakForThemselves(Next(c, moves[0]), moves[1..]);
    }
  }

  predicate Own(c: Child, e: RuntimeEvent) {
    match e
    case SubagentReported(id, _) => id == c.subagent
    case SubagentTurn(id, subagent, _) => id == c.turn && subagent == c.subagent
    case UsageReported(turn, _) => turn == Some(c.turn)
    case Output(_, scope, _) => scope == Scope(Some(c.subagent), Some(c.turn))
  }

  lemma {:induction false} TakingSpeaksForItself(c: Child, entries: seq<J.Stamped>)
    requires forall e | e in c.emitted :: Own(c, e)
    ensures var next := Take(c, entries).0;
            next.subagent == c.subagent && next.turn == c.turn && forall e | e in next.emitted :: Own(c, e)
    decreases |entries|
  {
    if entries != [] {
      if entries[0].at <= c.cursor { TakingSpeaksForItself(c, entries[1..]); }
      else if entries[0].at == c.cursor + 1 {
        TakingSpeaksForItself(Relay(c.(cursor := entries[0].at), entries[0].event), entries[1..]);
      }
    }
  }

  lemma NextSpeaksForItself(c: Child, move: Move)
    requires forall e | e in c.emitted :: Own(c, e)
    ensures var next := Next(c, move);
            next.subagent == c.subagent && next.turn == c.turn && forall e | e in next.emitted :: Own(c, e)
  {
    if move.Hear? && c.polling { TakingSpeaksForItself(c.(polling := false), move.batch.entries); }
  }

  // --- The relay in place --------------------------------------------------------------------------------------------

  class ChildRelay {
    const subagent: Id
    const turn: Id
    var cursor: nat
    var status: ChildStatus
    var error: Option<string>
    var output: string
    var closed: bool
    var pending: set<string>
    var polling: bool
    /** The parent's stream, as far as this child wrote it, and whether the child failed the parent. */
    var emitted: seq<RuntimeEvent>
    var failed: Option<string>

    ghost function State(): Child
      reads this
    {
      Child(subagent, turn, cursor, status, error, output, closed, pending, polling, emitted, failed)
    }

    constructor (subagent: Id, turn: Id)
      ensures State() == Spawned(subagent, turn)
    {
      this.subagent, this.turn := subagent, turn;
      cursor, status, error, output := 0, Active, None, "";
      closed, pending, polling, failed := false, {}, false, None;
      emitted := [SubagentReported(subagent, false), SubagentTurn(turn, subagent, InProgress)];
    }

    method RelayEvent(event: RuntimeEvent)
      modifies `pending, `output, `emitted
      ensures State() == Relay(old(State()), event)
    {
      if event.SubagentReported? || event.SubagentTurn? { return; }
      if Calls(event) { pending := pending + {event.body.call}; }
      if FinalAnswer(event) { output := event.body.text; }
      emitted := emitted + [Scoped(subagent, turn, event)];
    }

    method RecordClosed()
      modifies `closed, `emitted
      ensures State() == Close(old(State()))
    {
      if !closed {
        closed := true;
        emitted := emitted + [SubagentReported(subagent, true)];
      }
    }

    method End(outcome: TurnStatus, cause: Option<string>)
      modifies this
      ensures State() == Terminate(old(State()), outcome, cause)
    {
      if status.Ended? { return; }
      status, error, pending := Ended(outcome), cause, {};
      emitted := emitted + [SubagentTurn(turn, subagent, outcome)];
      RecordClosed();
      if cause == Some(UNCERTAIN) { failed := cause; }
    }

    /** One answered poll: its new events up to a gap, then the end it reports. */
    method Follow(batch: ChildBatch, aborted: bool)
      modifies this
      ensures State() == Answered(old(State()), batch, aborted)
    {
      polling := false;
      ghost var before := State();
      var entries, i, whole := batch.entries, 0, true;
      assert entries[0..] == entries;
      while i < |entries| && whole
        invariant 0 <= i <= |entries|
        invariant Take(before, entries) == if whole then Take(State(), entries[i..]) else (State(), false)
        invariant !polling
        decreases |entries| - i, whole
      {
        assert entries[i..][1..] == entries[i + 1..];
        if entries[i].at > cursor {
          if entries[i].at != cursor + 1 {
            whole := false;
          } else {
            cursor := entries[i].at;
            RelayEvent(entries[i].event);
            i := i + 1;
          }
        } else {
          i := i + 1;
        }
      }
      if !whole {
        if aborted { End(Cancelled, None); } else { End(Failed, Some("subagent_relay_failed")); }
      } else {
        match batch.status {
          case Continues =>
          case Finishes(outcome, cause) => End(outcome, cause);
          case Vanished => End(Failed, Some("outcome_unknown"));
        }
      }
    }
  }
}
