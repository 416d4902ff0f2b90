/**
 What becomes of a delegated child, told from the moves alone: how far its log was followed, the first
 end anything brought, and the answer and the open calls that leaves.
 */
module DelegationHistories {
  import opened Options
  import opened SessionStore
  import opened SessionEvents
  import opened Delegations
  import J = JobStates

  datatype End = End(status: TurnStatus, error: Option<string>)
  datatype Story = Story(cursor: nat, end: Option<End>, closed: bool, polling: bool, pending: set<string>)

  const OPENING: Story := Story(0, None, false, false, {})

  /** How far a batch leads on from a cursor: up to its first gap, or to its last new event. */
  function Reach(cursor: nat, entries: seq<J.Stamped>): nat
    decreases |entries|
  {
    if entries == [] || entries[0].at > cursor + 1 then cursor
    else Reach(if entries[0].at > cursor then entries[0].at else cursor, entries[1..])
  }

  /** Each entry is known, or directly behind the cursor or behind an entry before it. */
  ghost predicate NoGap(cursor: nat, entries: seq<J.Stamped>) {
    forall i | 0 <= i < |entries| ::
      entries[i].at <= cursor + 1 || exists j | 0 <= j < i :: entries[i].at <= entries[j].at + 1
  }

  /** The end of a child whose relay broke off. */
  function Broken(aborted: bool): End {
    if aborted then End(Cancelled, None) else End(Failed, Some("subagent_relay_failed"))
  }

  /** The end a move brings, if it brings one: the batch's own, unless the batch has a gap. */
  ghost function Ending(s: Story, move: Move): Option<End> {
    match move
    case Hear(batch, aborted) =>
      if !s.polling then None
      else if !NoGap(s.cursor, batch.entries) then Some(Broken(aborted))
      else if batch.status.Continues? then None
      else if batch.status.Vanished? then Some(End(Failed, Some("outcome_unknown")))
      else Some(End(batch.status.status, batch.status.error))
    case Fail(aborted) => if s.polling then Some(Broken(aborted)) else None
    case CancelAll => Some(End(Cancelled, None))
    case _ => None
  }

  function CallsIn(log: seq<RuntimeEvent>, from: nat, to: nat): set<string>
    requires to <= |log|
  {
    set i | from <= i < to && Calls(log[i]) :: log[i].body.call
  }

  ghost predicate Behind(s: Story, move: Move, log: seq<RuntimeEvent>) {
    s.cursor <= |log| && (move.Hear? ==> FromLog(move.batch.entries, log))
  }

  ghost function Told(s: Story, move: Move, log: seq<RuntimeEvent>): Story
    requires Behind(s, move, log)
  {
    ReachesWithin(s, move, log);
    var cursor := if move.Hear? && s.polling then Reach(s.cursor, move.batch.entries) else s.cursor;
    var end := if s.end.Some? then s.end else Ending(s, move);
    var open := s.pending + CallsIn(log, s.cursor, cursor);
    Story(cursor, end, s.closed || end.Some? || move.CancelAll? || move.CloseRecord?,
          if move.Poll? then s.polling || (!move.aborted && s.end.None?) else s.polling && !move.Hear? && !move.Fail?,
          if s.end.None? && end.Some? then {} else if move.ResultRouted? then open - {move.call} else open)
  }

  lemma {:induction false} ReachIsRead(cursor: nat, entries: seq<J.Stamped>, log: seq<RuntimeEvent>)
    requires cursor <= |log| && FromLog(entries, log)
    ensures cursor <= Reach(cursor, entries) <= |log|
    decreases |entries|
  {
    if entries != [] && entries[0].at <= cursor + 1 {
      assert entries[0] in entries;
      forall e | e in entries[1..] ensures 1 <= e.at <= |log| && e.event == log[e.at - 1] { assert e in entries; }
      ReachIsRead(if entries[0].at > cursor then entries[0].at else cursor, entries[1..], log);
    }
  }

  lemma ReachesWithin(s: Story, move: Move, log: seq<RuntimeEvent>)
    requires Behind(s, move, log)
    ensures move.Hear? ==> s.cursor <= Reach(s.cursor, move.batch.entries) <= |log|
  {
    if move.Hear? { ReachIsRead(s.cursor, move.batch.entries, log); }
  }

  ghost function ToldAll(s: Story, moves: seq<Move>, log: seq<RuntimeEvent>): Story
    requires s.cursor <= |log| && AllRead(moves, log)
    decreases |moves|
  {
    if moves == [] then s
    else
      assert moves[0] in moves && Reads(moves[0], log);
      ReachesWithin(s, moves[0], log);
      TailIsRead(moves, log);
      ToldAll(Told(s, moves[0], log), moves[1..], log)
  }

  lemma TailIsRead(moves: seq<Move>, log: seq<RuntimeEvent>)
    requires moves != [] && AllRead(moves, log)
    ensures AllRead(moves[1..], log) && Reads(moves[0], log)
  {
    assert moves[0] in moves;
    forall move | move in moves[1..] ensures Reads(move, log) { assert move in moves; }
  }

  /** The text of the last final answer, if there was one. */
  function LastAnswer(log: seq<RuntimeEvent>): string
    decreases |log|
  {
    if log == [] then ""
    else if FinalAnswer(log[|log| - 1]) then log[|log| - 1].body.text
    else LastAnswer(log[..|log| - 1])
  }

  /** The child is what its story says, and its stream has the end as it was brought. */
  ghost predicate Tells(c: Child, s: Story, log: seq<RuntimeEvent>) {
    && c.cursor == s.cursor <= |log| && c.closed == s.closed && c.polling == s.polling && c.pending == s.pending
    && c.output == LastAnswer(log[..c.cursor])
    && (c.status.Active? <==> s.end.None?)
    && (s.end.None? ==> c.error.None? && c.failed.None?)
    && (s.end.Some? ==>
        && c.status == Ended(s.end.value.status) && c.error == s.end.value.error
        && SubagentTurn(c.turn, c.subagent, s.end.value.status) in c.emitted
        && (c.failed.Some? <==> s.end.value.error == Some(UNCERTAIN)) && (c.failed.Some? ==> c.failed == Some(UNCERTAIN)))
  }

  // --- One batch -------------------------------------------------------------------------------------------------

  lemma NoGapOnward(cursor: nat, entries: seq<J.Stamped>)
    requires entries != []
    ensures NoGap(cursor, entries)
            <==> entries[0].at <= cursor + 1
                 && NoGap(if entries[0].at > cursor then entries[0].at else cursor, entries[1..])
  {
    var first, rest := entries[0], entries[1..];
    var on := if first.at > cursor then first.at else cursor;
    if NoGap(cursor, entries) {
      assert first.at <= cursor + 1;
      forall i | 0 <= i < |rest|
        ensures rest[i].at <= on + 1 || exists j | 0 <= j < i :: rest[i].at <= rest[j].at + 1
      {
        assert rest[i] == entries[i + 1];
        if rest[i].at > on + 1 {
          var j :| 0 <= j < i + 1 && entries[i + 1].at <= entries[j].at + 1;
          assert j > 0 && entries[j] == rest[j - 1];
        }
      }
    }
    if first.at <= cursor + 1 && NoGap(on, rest) {
      forall i | 0 <= i < |entries|
        ensures entries[i].at <= cursor + 1 || exists j | 0 <= j < i :: entries[i].at <= entries[j].at + 1
      {
        if i > 0 && entries[i].at > cursor + 1 {
          assert entries[i] == rest[i - 1];
          if entries[i].at <= on + 1 {
            assert entries[i].at <= entries[0].at + 1;
          } else {
            var j :| 0 <= j < i - 1 && rest[i - 1].at <= rest[j].at + 1;
            assert rest[j] == entries[j + 1];
          }
        }
      }
    }
  }

  lemma NothingCalled(log: seq<RuntimeEvent>, n: nat)
    requires n <= |log|
    ensures CallsIn(log, n, n) == {}
  {
  }

  lemma AnswersGrow(log: seq<RuntimeEvent>, n: nat)
    requires n < |log|
    ensures LastAnswer(log[..n + 1]) == if FinalAnswer(log[n]) then log[n].body.text else LastAnswer(log[..n])
  {
    assert log[..n + 1][..n] == log[..n];
  }

  lemma CallsGrow(log: seq<RuntimeEvent>, n: nat, to: nat)
    requires n < to <= |log|
    ensures CallsIn(log, n, to) == (if Calls(log[n]) then {log[n].body.call} else {}) + CallsIn(log, n + 1, to)
  {
  }

  /** A batch is taken whole exactly if it has no gap. */
  lemma {:induction false} WholeIff(c: Child, entries: seq<J.Stamped>)
    ensures Take(c, entries).1 <==> NoGap(c.cursor, entries)
    decreases |entries|
  {
    if entries != [] {
      NoGapOnward(c.cursor, entries);
      if entries[0].at <= c.cursor { WholeIff(c, entries[1..]); }
      else if entries[0].at == c.cursor + 1 {
        WholeIff(Relay(c.(cursor := entries[0].at), entries[0].event), entries[1..]);
      }
    }
  }

  /** `next` is the child having followed its log up to `to`. */
  ghost predicate Followed(c: Child, next: Child, to: nat, log: seq<RuntimeEvent>) {
    && c.cursor <= to <= |log| && c.emitted <= next.emitted
    && next == c.(cursor := to, output := LastAnswer(log[..to]), pending := c.pending + CallsIn(log, c.cursor, to),
                  emitted := next.emitted)
  }

  lemma RelayFollows(c: Child, next: Child, to: nat, log: seq<RuntimeEvent>)
    requires c.cursor < |log| && c.output == LastAnswer(log[..c.cursor])
    ensures var relayed := Relay(c.(cursor := c.cursor + 1), log[c.cursor]);
            && relayed.cursor == c.cursor + 1 && relayed.output == LastAnswer(log[..c.cursor + 1])
            && (Followed(relayed, next, to, log) ==> Followed(c, next, to, log))
  {
    AnswersGrow(log, c.cursor);
    if c.cursor < to <= |log| { CallsGrow(log, c.cursor, to); }
  }

  /** Everything up to the reach of the batch is taken. */
  lemma {:induction false} TakingTells(c: Child, entries: seq<J.Stamped>, log: seq<RuntimeEvent>)
    requires c.cursor <= |log| && FromLog(entries, log) && c.output == LastAnswer(log[..c.cursor])
    ensures Followed(c, Take(c, entries).0, Reach(c.cursor, entries), log)
    decreases |entries|
  {
    NothingCalled(log, c.cursor);
    if entries != [] {
      var e := entries[0];
      assert e in entries;
      forall x | x in entries[1..] ensures 1 <= x.at <= |log| && x.event == log[x.at - 1] { assert x in entries; }
      if e.at <= c.cursor {
        TakingTells(c, entries[1..], log);
      } else if e.at == c.cursor + 1 {
        RelayFollows(c, Take(c, entries).0, Reach(c.cursor, entries), log);
        TakingTells(Relay(c.(cursor := e.at), e.event), entries[1..], log);
      }
    }
  }

  // --- One move --------------------------------------------------------------------------------------------------

  lemma TerminatingTells(c: Child, s: Story, end: End, log: seq<RuntimeEvent>)
    requires Tells(c, s, log) && s.end.None?
    ensures Tells(Terminate(c, end.status, end.error), s.(end := Some(end), closed := true, pending := {}), log)
  {
    assert SubagentTurn(c.turn, c.subagent, end.status) in (c.emitted + [SubagentTurn(c.turn, c.subagent, end.status)]);
  }

  lemma HearingTells(c: Child, s: Story, batch: ChildBatch, aborted: bool, log: seq<RuntimeEvent>)
    requires Tells(c, s, log) && FromLog(batch.entries, log) && c.polling
    requires c.status.Ended? ==> c.closed
    ensures Tells(Answered(c, batch, aborted), Told(s, Hear(batch, aborted), log), log)
  {
    var idle := c.(polling := false);
    TakingTells(idle, batch.entries, log);
    WholeIff(idle, batch.entries);
    var taken := Take(idle, batch.entries).0;
    var to := Reach(c.cursor, batch.entries);
    var on := s.(cursor := to, polling := false, pending := s.pending + CallsIn(log, s.cursor, to));
    assert Tells(taken, on, log);
    var ending := Ending(s, Hear(batch, aborted));
    if s.end.None? && ending.Some? { TerminatingTells(taken, on, ending.value, log); }
  }

  lemma MoveTells(c: Child, s: Story, move: Move, log: seq<RuntimeEvent>)
    requires Tells(c, s, log) && Behind(s, move, log) && (c.status.Ended? ==> c.closed)
    ensures Tells(Next(c, move), Told(s, move, log), log)
  {
    NothingCalled(log, s.cursor);
    assert s.pending + {} == s.pending;
    match move
    case Hear(batch, aborted) => if c.polling { HearingTells(c, s, batch, aborted, log); }
    case Fail(aborted) =>
      if c.polling && s.end.None? { TerminatingTells(c.(polling := false), s.(polling := false), Broken(aborted), log); }
    case CancelAll => if s.end.None? { TerminatingTells(c, s, End(Cancelled, None), log); }
    case _ =>
  }

  // --- Every run -------------------------------------------------------------------------------------------------

  lemma {:induction false} RunTells(c: Child, s: Story, moves: seq<Move>, log: seq<RuntimeEvent>)
    requires Tells(c, s, log) && Faithful(c, log) && AllRead(moves, log)
    ensures Tells(Run(c, moves), ToldAll(s, moves, log), log)
    decreases |moves|
  {
    if moves != [] {
      TailIsRead(moves, log);
      MoveTells(c, s, moves[0], log);
      MoveIsFaithful(c, moves[0], log);
      RunTells(Next(c, moves[0]), Told(s, moves[0], log), moves[1..], log);
    }
  }

  lemma SpawnedIsFaithful(subagent: Id, turn: Id, log: seq<RuntimeEvent>)
    ensures Faithful(Spawned(subagent, turn), log)
  {
    RelayIsExactlyOnce(subagent, turn, [], log);
    assert log[..0] == [];
  }

  /**
   On every run a child has followed its log exactly as far as the batches lead without a gap, and ends
   with the first end anything brought: the status and error of a finished batch, an unknown outcome of a
   vanished one, a lost or cancelled relay. Its terminal record is the only one and names that status; its
   output is the last final answer followed, and its open calls are those followed and not answered.
   */
  lemma ChildrenTellTheirHistory(subagent: Id, turn: Id, moves: seq<Move>, log: seq<RuntimeEvent>)
    requires AllRead(moves, log)
    ensures var c := Run(Spawned(subagent, turn), moves);
            Tells(c, ToldAll(OPENING, moves, log), log) && Terminals(c.emitted) == (if c.status.Ended? then 1 else 0)
  {
    SpawnedIsFaithful(subagent, turn, log);
    RunTells(Spawned(subagent, turn), OPENING, moves, log);
    RelayIsExactlyOnce(subagent, turn, moves, log);
  }
}
