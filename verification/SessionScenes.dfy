/**
 Sessions that go wrong in the ways the theorems leave open, each as a run from a new session: a
 runtime that reports a child turn under the root's own identifier, one that attributes an item to a
 subagent without naming its turn, and more refused input than one page holds.
 */
module SessionScenes {
  import opened Options
  import opened Tables
  import opened SessionStore
  import opened SessionEvents
  import opened SessionState
  import opened SessionFeeds
  import opened SessionRuns
  import opened SessionShape
  import opened SessionOutputs
  import opened SessionTurns
  import opened Pages
  import J = JobStates
  import I = SessionInputs
  import L = LiveTranscripts
  import V = SessionLive
  import SessionItems

  const NEW: Db := Created("driver", "revision", false, None, None)
  const ROOT: Id := Minted(0)
  const SUB: Id := Native("subagent")
  const FENCE: Fence := Fence(ROOT, 1)
  const FULL: Driver := Driver(true, true)

  const HELLO: Message := Message("hello", false)
  const QUEUED: Turn := Turn(ROOT, None, Queued, None, None)
  const STARTED: Turn := Turn(ROOT, None, InProgress, None, None)

  /** A first message, and the runtime's word that it started. */
  const OPENING: seq<Step> := [Submit(FULL, [UserMessage([HELLO])], "open"), Step.Start(FENCE)]

  /** A session in its first turn, with nothing reported, queued or refused yet. */
  ghost predicate Young(db: Db, turn: Turn, phase: Phase) {
    && db.record.Some? && !db.record.value.deleted && db.record.value.phase == phase
    && db.record.value.execution.Some? && db.record.value.execution.value.turn == ROOT
    && db.record.value.execution.value.generation == db.record.value.generation == 1 && db.record.value.cursor == 0
    && db.record.value.driver == "driver" && db.record.value.revision == "revision"
    && db.record.value.transcript.None? && db.record.value.actions == [] && db.record.value.status == Working
    && db.turns == [Row(ROOT, turn)] && db.pending == []
    && db.commands == [] && db.cancellations == map[] && db.refused == [] && db.subagents == map[]
    && db.accepted.Keys == {"open"}
    && db.feed.minted == 2 && db.feed.outputs == [] && db.feed.counts == map[]
    && (forall r | r in db.feed.items :: r.key == ItemKey(None, Minted(1)))
  }

  lemma OneInput(feed: Feed, turn: Id, m: Message)
    ensures AddInput(feed, turn, [m]) == (AddItem(feed, None, turn, Done, Input(m)), [Minted(feed.minted)])
  {
    var next := AddItem(feed, None, turn, Done, Input(m));
    assert [m][1..] == [] && AddInput(next, turn, []) == (next, []);
    assert [Minted(feed.minted)] + [] == [Minted(feed.minted)];
  }

  lemma OneEvent(s: Setup, db: Db, event: InputEvent, key: string, next: Draft)
    requires Present(db) && key !in db.accepted && db.record.value.phase != Broken && db.record.value.phase != Checkpointing
    requires AcceptEvent(Draft(db, db.record.value), FULL, event) == Ok(next)
    ensures AcceptInput(s, db, FULL, [event], key)
            == Ok(Saved(next.(db := next.db.(accepted := next.db.accepted[key := s.fingerprint([event])]))))
  {
    assert [event][1..] == [];
    assert AcceptAll(next, FULL, []) == Ok(next);
    assert AcceptAll(Draft(db, db.record.value), FULL, [event]) == Ok(next);
  }

  lemma Submitted(s: Setup)
    ensures Transact(s, NEW, OPENING[0]).Ok? && Young(After(s, NEW, OPENING[0]), QUEUED, Starting)
  {
    var d, started := Draft(NEW, NEW.record.value), Begin(NEW, NEW.record.value, [HELLO]);
    OneInput(started.db.feed, ROOT, HELLO);
    assert !HasImage([HELLO]);
    var next := started.(db := started.db.(feed := AddItem(started.db.feed, None, ROOT, Done, Input(HELLO))));
    assert AcceptMessage(d, FULL, [HELLO]) == Ok(next);
    OneEvent(s, NEW, UserMessage([HELLO]), "open", next);
  }

  lemma Acknowledged(s: Setup, db: Db)
    requires Young(db, QUEUED, Starting)
    ensures Transact(s, db, Step.Start(FENCE)).Ok? && Young(After(s, db, Step.Start(FENCE)), STARTED, Running)
  {
    assert Get(db.turns, ROOT) == Some(QUEUED);
    assert Transact(s, db, Step.Start(FENCE)) == MarkRunning(db, db.record.value);
  }

  /** The session as it runs its first turn. */
  ghost predicate Opened(db: Db) {
    Young(db, STARTED, Running) && WellShaped(db) && Accounted(db, {ROOT}, multiset{})
  }

  lemma Opens(s: Setup)
    ensures Opened(Run(s, NEW, OPENING))
  {
    Submitted(s);
    var first := After(s, NEW, OPENING[0]);
    Acknowledged(s, first);
    CreatedIsAccounted("driver", "revision", false, None, None);
    OpeningIsAccounted(s, NEW, OPENING[0]);
    OpeningIsAccounted(s, first, OPENING[1]);
    TwoSteps(s, NEW, OPENING);
  }

  lemma OpeningIsAccounted(s: Setup, db: Db, step: Step)
    requires WellShaped(db) && Accounted(db, ActiveIn(db), multiset{}) && (step.Submit? || step.Start?)
    ensures WellShaped(After(s, db, step)) && Accounted(After(s, db, step), ActiveIn(After(s, db, step)), multiset{})
  {
    StepKeepsShape(s, db, step);
    StepIsAccounted(s, db, step, multiset{});
  }

  lemma TwoSteps(s: Setup, db: Db, steps: seq<Step>)
    requires |steps| == 2
    ensures Run(s, db, steps) == After(s, After(s, db, steps[0]), steps[1])
  {
    assert steps[1..][0] == steps[1] && steps[1..][1..] == [];
    assert Run(s, db, steps) == Run(s, After(s, db, steps[0]), steps[1..]);
    assert Run(s, After(s, db, steps[0]), steps[1..]) == Run(s, After(s, After(s, db, steps[0]), steps[1]), []);
  }

  lemma {:induction false} RunSplits(s: Setup, db: Db, first: seq<Step>, second: seq<Step>)
    ensures Run(s, db, first + second) == Run(s, Run(s, db, first), second)
    decreases |first|
  {
    if first == [] {
      assert first + second == second;
    } else {
      assert (first + second)[1..] == first[1..] + second;
      RunSplits(s, After(s, db, first[0]), first[1..], second);
    }
  }

  // --- A child turn under the root's identifier ------------------------------------------------------------------

  function Misnamed(status: TurnStatus): seq<J.Stamped> {
    [J.Stamped(1, SubagentReported(SUB, false)), J.Stamped(2, SubagentTurn(ROOT, SUB, status))]
  }

  function Marked(db: Db): Db { AcceptSubagent(db, SUB, false) }

  lemma MisnamedEntries(d: Draft, status: TurnStatus)
    requires d.record.cursor == 0
    ensures AcceptSubagentTurn(Marked(d.db), ROOT, SUB, status).Ok?
    ensures AcceptEntries(d, ROOT, Misnamed(status))
            == Ok(Draft(AcceptSubagentTurn(Marked(d.db), ROOT, SUB, status).value, d.record.(cursor := 2)))
  {
    var entries := Misnamed(status);
    var first := Draft(Marked(d.db), d.record.(cursor := 1));
    var second := Draft(AcceptSubagentTurn(Marked(d.db), ROOT, SUB, status).value, d.record.(cursor := 2));
    assert entries[1..] == [entries[1]] && entries[1..][1..] == [];
    assert AcceptEntries(second, ROOT, []) == Ok(second);
    assert AcceptEntries(first, ROOT, [entries[1]]) == Ok(second);
  }

  lemma MisnamedNames(status: TurnStatus)
    ensures NamedIn(0, Misnamed(status)) == if Ending(status) then multiset{ROOT} else multiset{}
  {
    var entries := Misnamed(status);
    assert entries[1..] == [entries[1]] && entries[1..][1..] == [];
    assert NamedIn(2, []) == multiset{};
    assert NamedIn(1, [entries[1]]) == NamedBy(entries[1].event) + multiset{};
    assert NamedIn(0, entries) == multiset{} + NamedIn(1, [entries[1]]);
  }

  /** What such a report leaves: the root turn is still active, and its row is a child's or a child is held. */
  function Told(db: Db, status: TurnStatus, completed: bool): Db
    requires db.record.Some?
  {
    Saved(Draft(AcceptSubagentTurn(Marked(db), ROOT, SUB, status).value,
                db.record.value.(cursor := 2, phase := if completed then Checkpointing else Running)))
  }

  lemma MisnamedPoll(s: Setup, db: Db, status: TurnStatus, completed: bool)
    requires Young(db, STARTED, Running)
    ensures Transact(s, db, Poll(FENCE, Misnamed(status), completed, false)) == Ok(Told(db, status, completed))
  {
    MisnamedEntries(Draft(db, db.record.value), status);
    assert Fenced(db, FENCE) == Ok(db.record.value);
    TellingQueuesNothing(db, status);
  }

  lemma TellingQueuesNothing(db: Db, status: TurnStatus)
    ensures AcceptSubagentTurn(Marked(db), ROOT, SUB, status).value.commands == db.commands
  {
  }

  lemma MisnamedReport(s: Setup, db: Db, status: TurnStatus, completed: bool)
    requires Opened(db)
    ensures var next := Told(db, status, completed);
            && After(s, db, Poll(FENCE, Misnamed(status), completed, false)) == next
            && WellShaped(next) && ActiveIn(next) == {ROOT}
            && Accounted(next, {ROOT}, if Ending(status) then multiset{ROOT} else multiset{})
  {
    var poll := Poll(FENCE, Misnamed(status), completed, false);
    MisnamedPoll(s, db, status, completed);
    MisnamedNames(status);
    StepKeepsShape(s, db, poll);
    StepIsAccounted(s, db, poll, multiset{});
    assert ExtraSince(s, db, poll, multiset{}) == NamedIn(0, Misnamed(status));
  }

  lemma {:induction false} ClosingKeepsRows(db: Db, children: seq<Turn>, outcome: TurnStatus, error: Option<TurnError>, id: Id)
    requires Has(db.turns, id)
    ensures Has(CloseChildren(db, children, outcome, error).turns, id)
    decreases |children|
  {
    if children != [] {
      var c := children[0];
      var closed := if outcome == Completed then c else c.(status := outcome, error := error);
      PutGet(db.turns, closed.id, closed, id);
      ClosingKeepsRows(CloseChild(db, c, outcome, error), children[1..], outcome, error, id);
    }
  }

  lemma SealSucceeds(db: Db, record: Record, outcome: TurnStatus, error: Option<string>)
    requires record.execution.Some? && Has(db.turns, record.execution.value.turn)
    ensures Sealed(db, record, outcome, error).Ok?
    ensures var d := Sealed(db, record, outcome, error).value;
            d.db.refused == db.refused && d.db.record == Some(SealedRecord(record, outcome, error))
  {
    ClosingKeepsRows(db, OpenChildren(db, outcome), outcome, TurnErrorOf(error), record.execution.value.turn);
    I.ChildrenKeepQueues(db, OpenChildren(db, outcome), outcome, TurnErrorOf(error));
  }

  lemma NothingRestarts(s: Setup, db: Db, record: Record, outcome: TurnStatus, error: Option<string>)
    requires record.execution.Some? && Sealed(db, record, outcome, error).Ok?
    requires Sealed(db, record, outcome, error).value.db.refused == []
    ensures Complete(s, db, record, outcome, error) == Ok(Sealed(db, record, outcome, error).value.db)
  {
    var d := Sealed(db, record, outcome, error).value;
    assert d.db.(refused := []) == d.db;
  }

  /** With nothing refused, a seal ends the turn and what it lists, and starts no other turn. */
  lemma SealEnds(s: Setup, db: Db, record: Record, outcome: TurnStatus, error: Option<string>)
    requires Keyed(db) && record.execution.Some? && record.execution.value.turn == ROOT
    requires db.refused == [] && Has(db.turns, ROOT)
    ensures Complete(s, db, record, outcome, error).Ok?
    ensures var next := Complete(s, db, record, outcome, error).value;
            && ActiveIn(next) == {}
            && Ended(next.feed.log) == Ended(db.feed.log) + IdsIn(OpenChildren(db, outcome)) + multiset{ROOT}
  {
    SealSucceeds(db, record, outcome, error);
    NothingRestarts(s, db, record, outcome, error);
    SealEndsWhatItLists(db, record, outcome, error);
  }

  /** The root turn is still to be sealed, and a seal would list it among its children. */
  ghost predicate Twofold(db: Db, outcome: TurnStatus) {
    && Keyed(db) && FenceOf(db) == Some(FENCE)
    && db.record.value.driver == "driver" && db.record.value.revision == "revision"
    && db.refused == [] && Has(db.turns, ROOT)
    && Ended(db.feed.log)[ROOT] == 0 && IdsIn(OpenChildren(db, outcome)) == multiset{ROOT}
  }

  lemma SealEndsTwice(s: Setup, db: Db, error: string)
    requires Twofold(db, Failed)
    ensures var next := After(s, db, Seal(FENCE, Failed, Some(error)));
            Ended(next.feed.log)[ROOT] == 2 && ActiveIn(next) == {}
  {
    SealEnds(s, db, db.record.value, Failed, Some(error));
    SealCompletes(s, db, Failed, Some(error));
  }

  /** A fenced seal does what it does to the record as it is. */
  lemma SealCompletes(s: Setup, db: Db, outcome: TurnStatus, error: Option<string>)
    requires FenceOf(db) == Some(FENCE)
    ensures Transact(s, db, Seal(FENCE, outcome, error)) == Complete(s, db, db.record.value, outcome, error)
  {
  }

  lemma CommitCompletes(s: Setup, db: Db)
    requires FenceOf(db) == Some(FENCE) && db.record.value.driver == "driver" && db.record.value.revision == "revision"
    ensures Transact(s, db, Commit(FENCE, RESULT))
            == Complete(s, db, db.record.value.(checkpoint := Some(RESULT)), Completed, None)
  {
  }

  lemma CommitEndsTwice(s: Setup, db: Db)
    requires Twofold(db, Completed)
    ensures var next := After(s, db, Commit(FENCE, RESULT));
            Ended(next.feed.log)[ROOT] == 2 && ActiveIn(next) == {}
  {
    SealEnds(s, db, db.record.value.(checkpoint := Some(RESULT)), Completed, None);
    CommitCompletes(s, db);
  }

  lemma HeldIsListed(db: Db, turn: Turn)
    requires db.pending == [Row(turn.id, turn)]
    ensures IdsIn(OpenChildren(db, Completed)) == multiset{turn.id}
  {
    assert db.pending[1..] == [] && RowsOf(db.pending) == [turn] + [];
    assert RowsOf(db.pending)[1..] == [];
  }

  lemma OpenIsListed(db: Db, turn: Turn)
    requires db.turns == [Row(turn.id, turn)] && turn.subagent.Some? && turn.status == InProgress
    ensures IdsIn(OpenChildren(db, Failed)) == multiset{turn.id}
  {
    assert db.turns[1..] == [] && ChildrenAt([], InProgress) == [] && ChildrenAt([], Waiting) == [];
    assert ChildrenAt(db.turns, InProgress) == [turn] + [] && ChildrenAt(db.turns, Waiting) == [] + [];
    assert OpenChildren(db, Failed) == [turn] && [turn][1..] == [];
  }

  lemma ToldIsTwofold(s: Setup, db: Db, completed: bool)
    requires Opened(db)
    ensures Twofold(Told(db, if completed then Completed else InProgress, completed), if completed then Completed else Failed)
  {
    var status := if completed then Completed else InProgress;
    var told, turn := Told(db, status, completed), Turn(ROOT, Some(SUB), status, None, None);
    MisnamedReport(s, db, status, completed);
    ToldRows(db, completed);
    if completed { HeldIsListed(told, turn); } else { OpenIsListed(told, turn); }
  }

  lemma ToldRows(db: Db, completed: bool)
    requires Young(db, STARTED, Running)
    ensures var told := Told(db, if completed then Completed else InProgress, completed);
            && told.refused == [] && Has(told.turns, ROOT)
            && (completed ==> told.pending == [Row(ROOT, Turn(ROOT, Some(SUB), Completed, None, None))])
            && (!completed ==> told.turns == [Row(ROOT, Turn(ROOT, Some(SUB), InProgress, None, None))])
  {
    assert Get(Marked(db).turns, ROOT) == Some(STARTED);
  }

  /**
   A child turn reported as failed under the root's own identifier: the running root turn has a
   terminal event in the log, and goes on running.
   */
  lemma FailedReportEndsTheRootEarly(s: Setup)
    ensures var db := Run(s, NEW, OPENING + [Poll(FENCE, Misnamed(Failed), false, false)]);
            Ended(db.feed.log)[ROOT] == 1 && ActiveIn(db) == {ROOT} && db.record.value.phase == Running
  {
    var poll := Poll(FENCE, Misnamed(Failed), false, false);
    Opens(s);
    RunSplits(s, NEW, OPENING, [poll]);
    var db := Run(s, NEW, OPENING);
    assert [poll][1..] == [] && Run(s, db, [poll]) == After(s, db, poll);
    MisnamedReport(s, db, Failed, false);
  }

  const RESULT: Checkpoint := Checkpoint("driver", "revision", "history")

  /** One reported as completed is held, and published when the root turn is: the root ends twice. */
  lemma CompletedReportEndsTheRootTwice(s: Setup)
    ensures var db := Run(s, NEW, OPENING + [Poll(FENCE, Misnamed(Completed), true, false), Commit(FENCE, RESULT)]);
            Ended(db.feed.log)[ROOT] == 2 && ActiveIn(db) == {}
  {
    var steps := [Poll(FENCE, Misnamed(Completed), true, false), Commit(FENCE, RESULT)];
    Opens(s);
    RunSplits(s, NEW, OPENING, steps);
    TwoSteps(s, Run(s, NEW, OPENING), steps);
    MisnamedReport(s, Run(s, NEW, OPENING), Completed, true);
    ToldIsTwofold(s, Run(s, NEW, OPENING), true);
    CommitEndsTwice(s, Told(Run(s, NEW, OPENING), Completed, true));
  }

  /** One reported as running makes the root's row a child's, which a failed seal closes before the root. */
  lemma RunningReportEndsTheRootTwice(s: Setup)
    ensures var db := Run(s, NEW, OPENING + [Poll(FENCE, Misnamed(InProgress), false, false),
                                             Seal(FENCE, Failed, Some("executor_failed"))]);
            Ended(db.feed.log)[ROOT] == 2 && ActiveIn(db) == {}
  {
    var steps := [Poll(FENCE, Misnamed(InProgress), false, false), Seal(FENCE, Failed, Some("executor_failed"))];
    Opens(s);
    RunSplits(s, NEW, OPENING, steps);
    TwoSteps(s, Run(s, NEW, OPENING), steps);
    MisnamedReport(s, Run(s, NEW, OPENING), InProgress, false);
    ToldIsTwofold(s, Run(s, NEW, OPENING), false);
    SealEndsTwice(s, Told(Run(s, NEW, OPENING), InProgress, false), "executor_failed");
  }

  // --- An item of the root turn in a subagent's name -------------------------------------------------------------------

  const KEY: OutputKey := OutputKey(ROOT, "message")
  const STRAY: Item := Item(Minted(2), ROOT, Open, Text("hi", None))
  const STRAY_ROW: Row<OutputKey, Position> := Row(KEY, Position(0, STRAY))

  /** A message attributed to a subagent, with no turn named. */
  function Straying(): seq<J.Stamped> {
    [J.Stamped(1, SubagentReported(SUB, false)), J.Stamped(2, Output("message", Scope(Some(SUB), None), Delta("hi")))]
  }

  function Strayed(feed: Feed): Feed {
    AcceptBody(feed, Resolve(feed, KEY, Some(SUB)), Delta("hi"))
  }

  lemma StrayIsStored(feed: Feed)
    requires feed.outputs == [] && feed.counts == map[] && feed.minted == 2
    ensures Strayed(feed).outputs == [STRAY_ROW]
    ensures SessionItems.StoredCopy(Strayed(feed), Some(SUB), Minted(2)) == Some(STRAY)
  {
    var slot := Resolve(feed, KEY, Some(SUB));
    assert slot == Slot(KEY, Some(SUB), None, Minted(2), 0);
    assert "" + "hi" == "hi";
    PutGet(feed.items, ItemKey(Some(SUB), Minted(2)), STRAY, ItemKey(Some(SUB), Minted(2)));
  }

  lemma StrayEntries(d: Draft)
    requires d.record.cursor == 0
    ensures AcceptEntries(d, ROOT, Straying())
            == Ok(Draft(Marked(d.db).(feed := Strayed(Marked(d.db).feed)), d.record.(cursor := 2)))
  {
    var entries := Straying();
    var first := Draft(Marked(d.db), d.record.(cursor := 1));
    var second := Draft(Marked(d.db).(feed := Strayed(Marked(d.db).feed)), d.record.(cursor := 2));
    assert entries[1..] == [entries[1]] && entries[1..][1..] == [];
    assert AcceptEntries(second, ROOT, []) == Ok(second);
    assert Accept(first, ROOT, entries[1].event) == Ok(second.(record := first.record));
    assert AcceptEntries(first, ROOT, [entries[1]]) == Ok(second);
  }

  /** The session with the message streamed so far. */
  function Streaming(db: Db): Db
    requires db.record.Some?
  {
    Marked(db).(feed := Strayed(Marked(db).feed), record := Some(db.record.value.(cursor := 2)))
  }

  lemma StrayPoll(s: Setup, db: Db)
    requires Young(db, STARTED, Running)
    ensures Transact(s, db, Poll(FENCE, Straying(), false, false)) == Ok(Streaming(db))
  {
    StrayEntries(Draft(db, db.record.value));
    assert Fenced(db, FENCE) == Ok(db.record.value);
  }

  /** Sealing closes the position, and writes the closed item beside the copy. */
  lemma SealMissesTheCopy(db: Db, record: Record, error: string)
    requires record.execution.Some? && record.execution.value.turn == ROOT && db.turns == [Row(ROOT, STARTED)]
    requires db.feed.outputs == [STRAY_ROW]
    requires SessionItems.StoredCopy(db.feed, Some(SUB), Minted(2)) == Some(STRAY)
    ensures Sealed(db, record, Failed, Some(error)).Ok?
    ensures var feed := Sealed(db, record, Failed, Some(error)).value.db.feed;
            && SessionItems.StoredCopy(feed, Some(SUB), Minted(2)) == Some(STRAY)
            && Get(feed.outputs, KEY) == Some(Position(0, STRAY.(status := Incomplete)))
  {
    NoChildIsOpen(db);
    assert CloseChildren(db, [], Failed, TurnErrorOf(Some(error))) == db;
    assert Get(db.turns, ROOT) == Some(STARTED);
    SessionItems.CloseReachesTheCopyIff(db.feed, STRAY_ROW, Some(SUB), None);
    OnlyRow(db.feed);
  }

  lemma NoChildIsOpen(db: Db)
    requires db.turns == [Row(ROOT, STARTED)]
    ensures OpenChildren(db, Failed) == []
  {
    assert db.turns[1..] == [] && ChildrenAt([], InProgress) == [] && ChildrenAt([], Waiting) == [];
    assert ChildrenAt(db.turns, InProgress) == [] + [] && ChildrenAt(db.turns, Waiting) == [] + [];
  }

  lemma OnlyRow(feed: Feed)
    requires feed.outputs == [STRAY_ROW]
    ensures FinishItems(feed, ROOT, None) == FinishItem(feed, STRAY_ROW, None)
    ensures Get(FinishItems(feed, ROOT, None).outputs, KEY) == Some(Position(0, STRAY.(status := Incomplete)))
  {
    assert feed.outputs[1..] == [] && OfTurn([], ROOT) == [] && OfTurn(feed.outputs, ROOT) == [STRAY_ROW] + [];
    assert [STRAY_ROW][1..] == [];
    assert FinishRows(FinishItem(feed, STRAY_ROW, None), [], None) == FinishItem(feed, STRAY_ROW, None);
    PutGet(feed.outputs, KEY, Position(0, STRAY.(status := Incomplete)), KEY);
  }

  /**
   A message of the root turn in a subagent's name, and then the turn fails: the session has no turn any
   more, the log has the message closed, and its listed copy is in progress for ever.
   */
  lemma StrayItemsStayOpen(s: Setup)
    ensures var db := Run(s, NEW, OPENING + [Poll(FENCE, Straying(), false, false), Seal(FENCE, Failed, Some("executor_failed"))]);
            && ActiveIn(db) == {}
            && Get(db.feed.outputs, KEY).Some? && Get(db.feed.outputs, KEY).value.item.status == Incomplete
            && SessionItems.StoredCopy(db.feed, Some(SUB), Get(db.feed.outputs, KEY).value.item.id) == Some(STRAY)
            && STRAY.status == Open
  {
    var steps := [Poll(FENCE, Straying(), false, false), Seal(FENCE, Failed, Some("executor_failed"))];
    Opens(s);
    var db := Run(s, NEW, OPENING);
    RunSplits(s, NEW, OPENING, steps);
    TwoSteps(s, db, steps);
    StrayPoll(s, db);
    StrayIsStored(Marked(db).feed);
    StraySeal(s, Streaming(db));
  }

  lemma StraySeal(s: Setup, db: Db)
    requires FenceOf(db) == Some(FENCE) && db.turns == [Row(ROOT, STARTED)] && db.refused == []
    requires db.feed.outputs == [STRAY_ROW] && SessionItems.StoredCopy(db.feed, Some(SUB), Minted(2)) == Some(STRAY)
    ensures var next := After(s, db, Seal(FENCE, Failed, Some("executor_failed")));
            && ActiveIn(next) == {}
            && Get(next.feed.outputs, KEY) == Some(Position(0, STRAY.(status := Incomplete)))
            && SessionItems.StoredCopy(next.feed, Some(SUB), Minted(2)) == Some(STRAY)
  {
    SealCompletes(s, db, Failed, Some("executor_failed"));
    assert Has(db.turns, ROOT);
    SealSucceeds(db, db.record.value, Failed, Some("executor_failed"));
    NothingRestarts(s, db, db.record.value, Failed, Some("executor_failed"));
    SealMissesTheCopy(db, db.record.value, "executor_failed");
  }

  // --- A message of a root turn that was given to a subagent ------------------------------------------------------------

  /** The next event: a message of the root turn itself. */
  function Speaking(): seq<J.Stamped> { [J.Stamped(3, Output("message", Scope(None, None), Delta("hi")))] }

  function Spoken(feed: Feed): Feed { AcceptBody(feed, Resolve(feed, KEY, None), Delta("hi")) }

  lemma SpokenIsStored(feed: Feed)
    requires feed.outputs == [] && feed.counts == map[] && feed.minted == 2
    ensures Get(Spoken(feed).outputs, KEY) == Some(Position(0, STRAY))
    ensures SessionItems.StoredCopy(Spoken(feed), None, Minted(2)) == Some(STRAY)
  {
    var slot := Resolve(feed, KEY, None);
    assert slot == Slot(KEY, None, None, Minted(2), 0);
    assert "" + "hi" == "hi";
    PutGet(feed.items, ItemKey(None, Minted(2)), STRAY, ItemKey(None, Minted(2)));
    PutGet(feed.outputs, KEY, Position(0, STRAY), KEY);
  }

  lemma SpeakingEntries(d: Draft)
    requires d.record.cursor == 2
    ensures AcceptEntries(d, ROOT, Speaking()) == Ok(Draft(d.db.(feed := Spoken(d.db.feed)), d.record.(cursor := 3)))
  {
    var next := Draft(d.db.(feed := Spoken(d.db.feed)), d.record.(cursor := 3));
    assert Speaking()[1..] == [] && AcceptEntries(next, ROOT, []) == Ok(next);
    assert Accept(d, ROOT, Speaking()[0].event) == Ok(next.(record := d.record));
  }

  lemma SpeakingPoll(s: Setup, db: Db)
    requires FenceOf(db) == Some(FENCE) && db.record.value.cursor == 2
    ensures After(s, db, Poll(FENCE, Speaking(), false, false)).feed == Spoken(db.feed)
  {
    SpeakingEntries(Draft(db, db.record.value));
    assert Fenced(db, FENCE) == Ok(db.record.value);
  }

  /** The reader was told that the root turn is the subagent's. */
  lemma ToldIsGivenAway(db: Db)
    requires Young(db, STARTED, Running)
    ensures var told := Told(db, InProgress, false);
            && FenceOf(told) == Some(FENCE) && told.record.value.cursor == 2
            && told.feed.outputs == [] && told.feed.counts == map[] && told.feed.minted == 2
            && L.OwnerOf(L.Fold(told.feed.log), ROOT) == Some(SUB)
  {
    var turn := Turn(ROOT, Some(SUB), InProgress, None, None);
    assert Get(Marked(db).turns, ROOT) == Some(STARTED);
    var log := db.feed.log;
    assert Told(db, InProgress, false).feed.log == (log + [SubagentLogged(SUB, false)]) + [TurnStarted(turn)];
    L.FoldLogged(log, SubagentLogged(SUB, false));
    L.FoldLogged(log + [SubagentLogged(SUB, false)], TurnStarted(turn));
  }

  lemma ToldIsFollowed(s: Setup, polls: seq<Step>)
    requires polls == [Poll(FENCE, Misnamed(InProgress), false, false)]
    ensures var feed := Run(s, NEW, OPENING + polls).feed;
            Placed(feed) && V.Known(L.Fold(feed.log), feed.minted)
  {
    V.NewRunIsFollowed(s, "driver", "revision", false, None, None, OPENING + polls, V.View(key => false, None, false));
  }

  /**
   The root turn reported as a subagent's, and then a message of the root turn: the message is stored and
   listed as the root's, and a reader of the log shows it as the subagent's and nowhere in the root's transcript.
   */
  lemma GivenAwayTextIsLostToTheRoot(s: Setup)
    ensures var feed := Run(s, NEW, OPENING + [Poll(FENCE, Misnamed(InProgress), false, false),
                                              Poll(FENCE, Speaking(), false, false)]).feed;
            && Get(feed.outputs, KEY) == Some(Position(0, STRAY))
            && SessionItems.StoredCopy(feed, None, STRAY.id) == Some(STRAY)
            && ItemKey(None, STRAY.id) !in L.Fold(feed.log).items && V.Shows(L.Fold(feed.log), Some(SUB), STRAY)
  {
    var first := Poll(FENCE, Misnamed(InProgress), false, false);
    var steps := [first, Poll(FENCE, Speaking(), false, false)];
    Opens(s);
    RunSplits(s, NEW, OPENING, steps);
    TwoSteps(s, Run(s, NEW, OPENING), steps);
    RunSplits(s, NEW, OPENING, [first]);
    OneStep(s, Run(s, NEW, OPENING), first);
    ToldIsFollowed(s, [first]);
    MisnamedReport(s, Run(s, NEW, OPENING), InProgress, false);
    SpeakingIsLost(s, Run(s, NEW, OPENING));
  }

  lemma SpeakingIsLost(s: Setup, db: Db)
    requires Young(db, STARTED, Running)
    requires var feed := Told(db, InProgress, false).feed; Placed(feed) && V.Known(L.Fold(feed.log), feed.minted)
    ensures var feed := After(s, Told(db, InProgress, false), Poll(FENCE, Speaking(), false, false)).feed;
            && Get(feed.outputs, KEY) == Some(Position(0, STRAY))
            && SessionItems.StoredCopy(feed, None, STRAY.id) == Some(STRAY)
            && ItemKey(None, STRAY.id) !in L.Fold(feed.log).items && V.Shows(L.Fold(feed.log), Some(SUB), STRAY)
  {
    var told := Told(db, InProgress, false);
    ToldIsGivenAway(db);
    SpeakingPoll(s, told);
    SpokenIsStored(told.feed);
    V.TextIsShownIff(told.feed, KEY, None, Delta("hi"), None);
    V.TextIsShownIff(told.feed, KEY, None, Delta("hi"), Some(SUB));
  }

  // --- More refused input than one page holds -------------------------------------------------------------------------

  /** What a client steers with, one message after another, and the keys it submits them under. */
  datatype Steers = Steers(message: nat -> Message, key: nat -> string)

  ghost predicate Different(c: Steers) {
    && (forall i: nat, j: nat | i != j :: c.message(i) != c.message(j) && c.key(i) != c.key(j))
    && (forall i: nat :: !c.message(i).image) && (forall i: nat :: c.key(i) != "open")
  }

  /** The running session after `k` steers were refused, with nothing queued. */
  ghost predicate Refusing(c: Steers, db: Db, k: nat) {
    && FenceOf(db) == Some(FENCE) && db.record.value.phase == Running && db.record.value.transcript.None?
    && I.Queues(db, Some(ROOT)) && db.commands == [] && Has(db.turns, ROOT)
    && |db.refused| == k && (forall i | 0 <= i < k :: db.refused[i].value == [c.message(i)])
    && (forall j: nat | j >= k :: c.key(j) !in db.accepted)
  }

  function Asked(c: Steers, db: Db, k: nat): Operation {
    Operation(Minted(db.feed.minted + 1), ROOT, Steer([c.message(k)]), [Minted(db.feed.minted)])
  }

  /** A steer the client submits and the runtime refuses. */
  function Round(c: Steers, db: Db, k: nat): seq<Step> {
    [Submit(FULL, [UserMessage([c.message(k)])], c.key(k)), Refuse(FENCE, Asked(c, db, k))]
  }

  function Rounds(s: Setup, c: Steers, db: Db, k: nat, count: nat): seq<Step>
    decreases count
  {
    if count == 0 then []
    else Round(c, db, k) + Rounds(s, c, AfterRound(s, c, db, k), k + 1, count - 1)
  }

  function AfterRound(s: Setup, c: Steers, db: Db, k: nat): Db { Run(s, db, Round(c, db, k)) }

  function AfterRounds(s: Setup, c: Steers, db: Db, k: nat, count: nat): Db
    decreases count
  {
    if count == 0 then db else AfterRounds(s, c, AfterRound(s, c, db, k), k + 1, count - 1)
  }

  function Listed(db: Db, m: Message): Db { db.(feed := AddItem(db.feed, None, ROOT, Done, Input(m))) }

  lemma SteerIsTaken(d: Draft, m: Message)
    requires d.record.execution.Some? && d.record.execution.value.turn == ROOT && !m.image
    ensures AcceptEvent(d, FULL, UserMessage([m]))
            == Ok(d.(db := Enqueue(Listed(d.db, m), ROOT, Steer([m]), [Minted(d.db.feed.minted)])))
  {
    OneInput(d.db.feed, ROOT, m);
    assert !HasImage([m]);
  }

  lemma SteerIsAccepted(s: Setup, db: Db, m: Message, key: string)
    requires FenceOf(db) == Some(FENCE) && db.record.value.phase == Running && !m.image && key !in db.accepted
    ensures var queued := Enqueue(Listed(db, m), ROOT, Steer([m]), [Minted(db.feed.minted)]);
            AcceptInput(s, db, FULL, [UserMessage([m])], key)
            == Ok(queued.(accepted := queued.accepted[key := s.fingerprint([UserMessage([m])])]))
  {
    SteerIsTaken(Draft(db, db.record.value), m);
    var next := Enqueue(Listed(db, m), ROOT, Steer([m]), [Minted(db.feed.minted)]);
    OneEvent(s, db, UserMessage([m]), key, Draft(next, db.record.value));
  }

  lemma SteerGoesLast(db: Db, m: Message)
    requires I.Queues(db, Some(ROOT)) && db.commands == []
    ensures var operation := Operation(Minted(db.feed.minted + 1), ROOT, Steer([m]), [Minted(db.feed.minted)]);
            var queued := Enqueue(Listed(db, m), ROOT, Steer([m]), [Minted(db.feed.minted)]);
            I.Queues(queued, Some(ROOT)) && queued.commands == [Row(operation.id, operation)]
  {
    I.QueuedLast(Listed(db, m), ROOT, Steer([m]), [Minted(db.feed.minted)]);
  }

  lemma SteerIsQueued(s: Setup, c: Steers, db: Db, k: nat)
    requires Different(c) && Refusing(c, db, k)
    ensures var next := After(s, db, Round(c, db, k)[0]);
            && next.commands == [Row(Asked(c, db, k).id, Asked(c, db, k))] && I.Queues(next, Some(ROOT))
            && next.record == db.record && next.turns == db.turns && next.refused == db.refused
            && next.accepted.Keys == db.accepted.Keys + {c.key(k)}
  {
    var m, key := c.message(k), c.key(k);
    SteerGoesLast(db, m);
    SteerIsAccepted(s, db, m, key);
  }

  lemma AskedIsRefused(s: Setup, db: Db, operation: Operation)
    requires FenceOf(db) == Some(FENCE) && I.Queues(db, Some(ROOT))
    requires operation.control.Steer? && db.commands == [Row(operation.id, operation)]
    ensures var next := After(s, db, Refuse(FENCE, operation));
            && next == Reject(db, operation) && I.Queues(next, Some(ROOT)) && next.commands == []
            && next.refused == db.refused + [Row(operation.id, operation.control.input)]
            && next.record == db.record && next.turns == db.turns && next.accepted == db.accepted
  {
    I.RefusedLast(db, operation, Some(ROOT));
    FirstIsRow(Reject(db, operation).commands);
    assert Transact(s, db, Refuse(FENCE, operation)) == Ok(Reject(db, operation));
  }

  lemma RoundRefuses(s: Setup, c: Steers, db: Db, k: nat)
    requires Different(c) && Refusing(c, db, k)
    ensures Refusing(c, AfterRound(s, c, db, k), k + 1)
  {
    SteerIsQueued(s, c, db, k);
    var queued := After(s, db, Round(c, db, k)[0]);
    AskedIsRefused(s, queued, Asked(c, db, k));
    TwoSteps(s, db, Round(c, db, k));
  }

  lemma {:induction false} RoundsRun(s: Setup, c: Steers, db: Db, k: nat, count: nat)
    ensures Run(s, db, Rounds(s, c, db, k, count)) == AfterRounds(s, c, db, k, count)
    decreases count
  {
    if count > 0 {
      var next := AfterRound(s, c, db, k);
      RunSplits(s, db, Round(c, db, k), Rounds(s, c, next, k + 1, count - 1));
      RoundsRun(s, c, next, k + 1, count - 1);
    }
  }

  lemma {:induction false} RoundsRefuse(s: Setup, c: Steers, db: Db, k: nat, count: nat)
    requires Different(c) && Refusing(c, db, k)
    ensures Refusing(c, AfterRounds(s, c, db, k, count), k + count)
    decreases count
  {
    if count > 0 {
      RoundRefuses(s, c, db, k);
      RoundsRefuse(s, c, AfterRound(s, c, db, k), k + 1, count - 1);
    }
  }

  lemma {:induction false} PageIsBounded(sizes: seq<nat>, limit: nat, taken: nat, size: nat)
    ensures taken + Shown(sizes, limit, taken, size) <= if taken > limit then taken else limit
    decreases |sizes|
  {
    if sizes != [] && taken < limit { PageIsBounded(sizes[1..], limit, taken + 1, size + sizes[0]); }
  }

  lemma {:induction false} JoinedHasNone(inputs: Table<Id, seq<Message>>, m: Message)
    requires forall i | 0 <= i < |inputs| :: m !in inputs[i].value
    ensures m !in Joined(inputs)
  {
    if inputs != [] {
      forall i | 0 <= i < |inputs[1..]| ensures m !in inputs[1..][i].value { assert inputs[1..][i] == inputs[i + 1]; }
      JoinedHasNone(inputs[1..], m);
    }
  }

  lemma PageMissesTheLast(s: Setup, c: Steers, refused: Table<Id, seq<Message>>)
    requires Different(c) && |refused| == 101 && forall i | 0 <= i < 101 :: refused[i].value == [c.message(i)]
    ensures c.message(100) !in Joined(refused[..PageOfRefused(s, refused)])
  {
    var page := refused[..PageOfRefused(s, refused)];
    WeighsEach(s, refused);
    PageIsBounded(Weights(s, refused), QUEUED_INPUT_PAGE, 0, 0);
    forall i | 0 <= i < |page| ensures c.message(100) !in page[i].value { assert page[i] == refused[i]; }
    JoinedHasNone(page, c.message(100));
  }

  /** The next turn starts without the last refused steer, which is kept nowhere. */
  ghost predicate Lost(db: Db, m: Message) {
    && db.refused == [] && db.commands == [] && db.record.Some? && db.record.value.execution.Some?
    && m !in db.record.value.execution.value.input
  }

  lemma SealLosesTheLast(s: Setup, c: Steers, db: Db)
    requires Different(c) && Refusing(c, db, 101)
    ensures Lost(After(s, db, Seal(FENCE, Failed, Some("executor_failed"))), c.message(100))
  {
    var record, error := db.record.value, Some("executor_failed");
    SealSucceeds(db, record, Failed, error);
    SealCompletes(s, db, Failed, error);
    assert Complete(s, db, record, Failed, error).Ok?;
    I.CompleteKeepsMail(s, db, record, Failed, error);
    assert !IsIndeterminate(error);
    I.RefusedInputRunsNext(s, db, record, Failed, error);
    PageMissesTheLast(s, c, db.refused);
  }

  lemma RoundsAndASeal(s: Setup, c: Steers, db: Db)
    requires Different(c) && Refusing(c, db, 0)
    ensures var rounds, seal := Rounds(s, c, db, 0, 101), Seal(FENCE, Failed, Some("executor_failed"));
            && Refusing(c, Run(s, db, rounds), 101)
            && Lost(Run(s, db, rounds + [seal]), c.message(100))
  {
    var rounds, seal := Rounds(s, c, db, 0, 101), Seal(FENCE, Failed, Some("executor_failed"));
    RoundsRefuse(s, c, db, 0, 101);
    RoundsRun(s, c, db, 0, 101);
    RunSplits(s, db, rounds, [seal]);
    OneStep(s, AfterRounds(s, c, db, 0, 101), seal);
    SealLosesTheLast(s, c, AfterRounds(s, c, db, 0, 101));
  }

  /**
   101 different steers, each accepted and then refused by the runtime, and then the turn fails: the next
   turn starts without the last of them, and it is kept nowhere, however small the steers are.
   */
  lemma TheLastOf101SteersIsLost(s: Setup, c: Steers)
    requires Different(c)
    ensures var rounds, seal := Rounds(s, c, Run(s, NEW, OPENING), 0, 101), Seal(FENCE, Failed, Some("executor_failed"));
            && |Run(s, NEW, OPENING + rounds).refused| == 101
            && Run(s, NEW, OPENING + rounds).refused[100].value == [c.message(100)]
            && Lost(Run(s, NEW, OPENING + (rounds + [seal])), c.message(100))
  {
    Opens(s);
    LastIsLost(s, c, NEW, OPENING);
  }

  lemma LastIsLost(s: Setup, c: Steers, start: Db, opening: seq<Step>)
    requires Different(c) && Refusing(c, Run(s, start, opening), 0)
    ensures var rounds, seal := Rounds(s, c, Run(s, start, opening), 0, 101), Seal(FENCE, Failed, Some("executor_failed"));
            && |Run(s, start, opening + rounds).refused| == 101
            && Run(s, start, opening + rounds).refused[100].value == [c.message(100)]
            && Lost(Run(s, start, opening + (rounds + [seal])), c.message(100))
  {
    var begun, seal := Run(s, start, opening), Seal(FENCE, Failed, Some("executor_failed"));
    RoundsAndASeal(s, c, begun);
    RunSplits(s, start, opening, Rounds(s, c, begun, 0, 101));
    RunSplits(s, start, opening, Rounds(s, c, begun, 0, 101) + [seal]);
  }

  lemma OneStep(s: Setup, db: Db, step: Step)
    ensures Run(s, db, [step]) == After(s, db, step)
  {
    assert [step][1..] == [];
  }

  /** There are such steers: messages and keys of different lengths. */
  lemma SteersCanDiffer() returns (c: Steers)
    ensures Different(c)
  {
    var letters := (k: nat) => seq(k, _ => 'x');
    c := Steers((k: nat) => Message(letters(k), false), (k: nat) => letters(k + 5));
    forall i: nat, j: nat | i != j ensures c.message(i) != c.message(j) && c.key(i) != c.key(j) {
      assert |c.message(i).text| == i && |c.message(j).text| == j && |c.key(i)| == i + 5 && |c.key(j)| == j + 5;
    }
    forall i: nat ensures c.key(i) != "open" { assert |c.key(i)| == i + 5 && |"open"| == 4; }
  }
}
