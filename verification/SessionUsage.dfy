/**
 Usage is conserved: on every run each counter of the session is the sum of that counter over
 its turns, root and child, so the clamp at zero never takes effect, and a child turn held for
 the checkpoint carries the usage of its stored turn.
 */
module SessionUsage {
  import opened Options
  import opened Tables
  import opened SessionStore
  import opened SessionEvents
  import opened SessionState
  import opened SessionFeeds
  import opened SessionRuns
  import J = JobStates

  datatype Meter = InputTokens | OutputTokens | TotalTokens | CachedTokens | ReasoningTokens

  function Read(u: Usage, m: Meter): nat {
    match m
    case InputTokens => u.input
    case OutputTokens => u.output
    case TotalTokens => u.total
    case CachedTokens => u.cached
    case ReasoningTokens => u.reasoning
  }

  function Spent(turn: Turn, m: Meter): nat { Read(Or(turn.usage), m) }

  function Total(turns: Table<Id, Turn>, m: Meter): nat {
    if turns == [] then 0 else Spent(turns[0].value, m) + Total(turns[1..], m)
  }

  // --- The turn tables -----------------------------------------------------------------------------

  ghost predicate Keyed(t: Table<Id, Turn>) { forall r | r in t :: r.value.id == r.key }

  /** The stored turn of this id carries this usage. */
  predicate Carries(turns: Table<Id, Turn>, id: Id, usage: Option<Usage>) {
    Get(turns, id).Some? && Get(turns, id).value.usage == usage
  }

  ghost predicate Books(turns: Table<Id, Turn>, pending: Table<Id, Turn>) {
    && Distinct(turns) && Distinct(pending) && Keyed(turns) && Keyed(pending)
    && forall r | r in pending :: Carries(turns, r.key, r.value.usage)
  }

  ghost predicate Balanced(turns: Table<Id, Turn>, usage: Option<Usage>) {
    forall m: Meter :: Read(Or(usage), m) == Total(turns, m)
  }

  lemma {:induction false} TotalPut(turns: Table<Id, Turn>, key: Id, turn: Turn, m: Meter)
    ensures Total(Put(turns, key, turn), m)
            == Total(turns, m) + Spent(turn, m) - (if Has(turns, key) then Spent(Get(turns, key).value, m) else 0)
    ensures Has(turns, key) ==> Total(turns, m) >= Spent(Get(turns, key).value, m)
  {
    if turns != [] && turns[0].key != key {
      TotalPut(turns[1..], key, turn, m);
      assert Put(turns, key, turn)[1..] == Put(turns[1..], key, turn);
    }
  }

  lemma KeyedPut(t: Table<Id, Turn>, turn: Turn)
    requires Distinct(t) && Keyed(t)
    ensures Distinct(Put(t, turn.id, turn)) && Keyed(Put(t, turn.id, turn))
  {
    PutStaysDistinct(t, turn.id, turn);
    forall r | r in Put(t, turn.id, turn) ensures r.value.id == r.key { PutMember(t, turn.id, turn, r); }
  }

  /** A turn put with the usage it had, or a new turn without usage, changes no total. */
  lemma TurnPutBalances(turns: Table<Id, Turn>, pending: Table<Id, Turn>, turn: Turn, usage: Option<Usage>)
    requires Books(turns, pending) && Balanced(turns, usage)
    requires Get(turns, turn.id) == None ==> turn.usage.None?
    requires Has(turns, turn.id) ==> Carries(turns, turn.id, turn.usage)
    ensures Books(Put(turns, turn.id, turn), pending) && Balanced(Put(turns, turn.id, turn), usage)
  {
    KeyedPut(turns, turn);
    forall r | r in pending ensures Carries(Put(turns, turn.id, turn), r.key, r.value.usage) {
      PutGet(turns, turn.id, turn, r.key);
    }
    forall m: Meter ensures Read(Or(usage), m) == Total(Put(turns, turn.id, turn), m) {
      TotalPut(turns, turn.id, turn, m);
    }
  }

  lemma PendingPutKeepsBooks(turns: Table<Id, Turn>, pending: Table<Id, Turn>, turn: Turn)
    requires Books(turns, pending) && Carries(turns, turn.id, turn.usage)
    ensures Books(turns, Put(pending, turn.id, turn))
  {
    KeyedPut(pending, turn);
    forall r | r in Put(pending, turn.id, turn) ensures Carries(turns, r.key, r.value.usage) {
      PutMember(pending, turn.id, turn, r);
    }
  }

  /** Replacing a turn's usage moves the session's by the difference; nothing is clamped. */
  lemma SummedExactly(turns: Table<Id, Turn>, key: Id, usage: Usage, total: Option<Usage>)
    requires Balanced(turns, total) && Has(turns, key)
    ensures var turn := Get(turns, key).value;
            var sum := Summed(Or(total), usage, Or(turn.usage));
            && Balanced(Put(turns, key, turn.(usage := Some(usage))), Some(sum))
            && forall m: Meter :: Read(sum, m) == Read(Or(total), m) + Read(usage, m) - Spent(turn, m)
  {
    var turn := Get(turns, key).value;
    var next := turn.(usage := Some(usage));
    var sum := Summed(Or(total), usage, Or(turn.usage));
    forall m: Meter
      ensures Read(sum, m) == Total(Put(turns, key, next), m)
      ensures Read(sum, m) == Read(Or(total), m) + Read(usage, m) - Spent(turn, m)
    {
      TotalPut(turns, key, next, m);
      assert Read(Or(total), m) == Total(turns, m);
    }
  }

  // --- The invariant ----------------------------------------------------------------------------------

  ghost predicate Sound(db: Db, usage: Option<Usage>) {
    && Books(db.turns, db.pending) && Balanced(db.turns, usage)
    && forall r | r in db.turns :: Below(r.key, db.feed.minted)
  }

  function UsageOf(db: Db): Option<Usage> { if db.record.Some? then db.record.value.usage else None }

  lemma SoundPut(db: Db, turn: Turn, usage: Option<Usage>)
    requires Sound(db, usage) && Below(turn.id, db.feed.minted)
    requires Get(db.turns, turn.id) == None ==> turn.usage.None?
    requires Has(db.turns, turn.id) ==> Carries(db.turns, turn.id, turn.usage)
    ensures Sound(PutTurn(db, turn), usage)
  {
    TurnPutBalances(db.turns, db.pending, turn, usage);
    forall r | r in PutTurn(db, turn).turns ensures Below(r.key, db.feed.minted) {
      PutMember(db.turns, turn.id, turn, r);
    }
  }

  lemma UsageCounts(d: Draft, id: Id, usage: Usage)
    requires Sound(d.db, d.record.usage) && AcceptUsage(d, id, usage).Ok?
    ensures var next := AcceptUsage(d, id, usage).value; Sound(next.db, next.record.usage)
  {
    var turns, pending := d.db.turns, d.db.pending;
    var turn := Get(turns, id).value;
    GetIn(turns, id);
    var counted := turn.(usage := Some(usage));
    SummedExactly(turns, id, usage, d.record.usage);
    KeyedPut(turns, counted);
    var stored := Put(turns, id, counted);
    var held := Get(pending, id);
    forall r | r in stored ensures Below(r.key, d.db.feed.minted) { PutMember(turns, id, counted, r); }
    if held.None? {
      forall r | r in pending ensures Carries(stored, r.key, r.value.usage) {
        GetIn(pending, id);
        PutGet(turns, id, counted, r.key);
      }
    } else {
      GetIn(pending, id);
      var both := held.value.(usage := Some(usage));
      KeyedPut(pending, both);
      forall r | r in Put(pending, id, both) ensures Carries(stored, r.key, r.value.usage) {
        PutMember(pending, id, both, r);
        PutGet(turns, id, counted, r.key);
      }
    }
  }

  lemma ChildTurnKeepsUsage(db: Db, id: Id, subagent: Id, status: TurnStatus, usage: Option<Usage>)
    requires Sound(db, usage) && Below(id, db.feed.minted) && AcceptSubagentTurn(db, id, subagent, status).Ok?
    ensures Sound(AcceptSubagentTurn(db, id, subagent, status).value, usage)
    ensures AcceptSubagentTurn(db, id, subagent, status).value.feed.minted == db.feed.minted
  {
    var previous := Get(db.turns, id);
    var turn := Turn(id, Some(subagent), status, None, if previous.Some? then previous.value.usage else None);
    if status == Completed {
      var opening := turn.(status := InProgress);
      if previous.None? {
        SoundPut(db, opening, usage);
        PutGet(db.turns, id, opening, id);
        PendingPutKeepsBooks(PutTurn(db, opening).turns, db.pending, turn);
      } else {
        PendingPutKeepsBooks(db.turns, db.pending, turn);
      }
    } else {
      SoundPut(db, turn, usage);
      FinishRowsMints(Emit(PutTurn(db, turn), TurnCreated(turn)).feed, OfTurn(db.feed.outputs, id), Some(subagent));
      FinishRowsMints(PutTurn(db, turn).feed, OfTurn(db.feed.outputs, id), Some(subagent));
    }
  }

  lemma CallKeepsUsage(d: Draft, id: Id, call: string)
    requires Sound(d.db, d.record.usage) && AcceptCall(d, id, call).Ok?
    ensures var next := AcceptCall(d, id, call).value;
            Sound(next.db, next.record.usage) && next.db.feed.minted == d.db.feed.minted
  {
    GetIn(d.db.turns, id);
    SoundPut(d.db, Get(d.db.turns, id).value.(status := Waiting), d.record.usage);
  }

  lemma OutputKeepsUsage(d: Draft, key: OutputKey, owner: Option<Id>, body: Body)
    requires Sound(d.db, d.record.usage) && AcceptOutput(d, key, owner, body).Ok?
    ensures var next := AcceptOutput(d, key, owner, body).value;
            Sound(next.db, next.record.usage) && next.db.feed.minted >= d.db.feed.minted
  {
    var slot := Resolve(d.db.feed, key, owner);
    BodyMints(d.db.feed, slot, body);
    var next := d.(db := d.db.(feed := AcceptBody(d.db.feed, slot, body)));
    if body.FunctionCall? { CallKeepsUsage(next, key.turn, body.call); }
  }

  lemma EventKeepsUsage(d: Draft, root: Id, event: RuntimeEvent)
    requires Sound(d.db, d.record.usage) && Knows(event, d.db.feed.minted) && Accept(d, root, event).Ok?
    ensures var next := Accept(d, root, event).value;
            Sound(next.db, next.record.usage) && next.db.feed.minted >= d.db.feed.minted
  {
    match event
    case SubagentReported(id, closed) =>
    case SubagentTurn(id, subagent, status) => ChildTurnKeepsUsage(d.db, id, subagent, status, d.record.usage);
    case UsageReported(turn, usage) => UsageCounts(d, Named(turn, root), usage);
    case Output(native, scope, body) =>
      OutputKeepsUsage(d, OutputKey(Named(scope.turn, root), native), scope.subagent, body);
  }

  lemma {:induction false} EntriesKeepUsage(d: Draft, root: Id, entries: seq<J.Stamped>)
    requires Sound(d.db, d.record.usage) && AcceptEntries(d, root, entries).Ok?
    requires forall e | e in entries :: Knows(e.event, d.db.feed.minted)
    ensures var next := AcceptEntries(d, root, entries).value; Sound(next.db, next.record.usage)
    decreases |entries|
  {
    if entries != [] {
      assert entries[0] in entries;
      forall e | e in entries[1..] ensures Knows(e.event, d.db.feed.minted) { assert e in entries; }
      if entries[0].at > d.record.cursor {
        EventKeepsUsage(d, root, entries[0].event);
        var next := Accept(d, root, entries[0].event).value;
        EntriesKeepUsage(next.(record := next.record.(cursor := entries[0].at)), root, entries[1..]);
      } else {
        EntriesKeepUsage(d, root, entries[1..]);
      }
    }
  }

  // --- Sealing -------------------------------------------------------------------------------------------

  ghost predicate AllCarried(turns: Table<Id, Turn>, children: seq<Turn>) {
    forall c | c in children :: Carries(turns, c.id, c.usage)
  }

  lemma {:induction false} RowsAreCarried(turns: Table<Id, Turn>, rows: Table<Id, Turn>)
    requires forall r | r in rows :: Carries(turns, r.value.id, r.value.usage)
    ensures AllCarried(turns, RowsOf(rows))
  {
    if rows != [] {
      assert rows[0] in rows;
      forall r | r in rows[1..] ensures Carries(turns, r.value.id, r.value.usage) { assert r in rows; }
      RowsAreCarried(turns, rows[1..]);
    }
  }

  lemma {:induction false} ChildrenAreRows(turns: Table<Id, Turn>, status: TurnStatus, c: Turn)
    requires c in ChildrenAt(turns, status)
    ensures exists r :: r in turns && r.value == c
    ensures c.status == status && c.subagent.Some?
  {
    assert turns[0] in turns;
    if c in ChildrenAt(turns[1..], status) {
      ChildrenAreRows(turns[1..], status, c);
      var r :| r in turns[1..] && r.value == c;
      assert r in turns;
    }
  }

  lemma OpenChildrenAreCarried(db: Db, outcome: TurnStatus)
    requires Books(db.turns, db.pending)
    ensures AllCarried(db.turns, OpenChildren(db, outcome))
  {
    if outcome == Completed {
      RowsAreCarried(db.turns, db.pending);
    } else {
      forall c | c in OpenChildren(db, outcome) ensures Carries(db.turns, c.id, c.usage) {
        ChildrenAreRows(db.turns, if c in ChildrenAt(db.turns, InProgress) then InProgress else Waiting, c);
        var r :| r in db.turns && r.value == c;
        InGet(db.turns, r);
      }
    }
  }

  lemma {:induction false} ChildrenKeepUsage(
      db: Db, children: seq<Turn>, outcome: TurnStatus, error: Option<TurnError>, usage: Option<Usage>)
    requires Sound(db, usage) && AllCarried(db.turns, children)
    ensures Sound(CloseChildren(db, children, outcome, error), usage)
    ensures CloseChildren(db, children, outcome, error).feed.minted == db.feed.minted
    decreases |children|
  {
    if children != [] {
      var c := children[0];
      assert c in children;
      GetIn(db.turns, c.id);
      var closed := if outcome == Completed then c else c.(status := outcome, error := error);
      SoundPut(db, closed, usage);
      FinishRowsMints(db.feed, OfTurn(db.feed.outputs, c.id), c.subagent);
      var next := CloseChild(db, c, outcome, error);
      forall k | k in children[1..] ensures Carries(next.turns, k.id, k.usage) {
        assert k in children;
        PutGet(db.turns, c.id, closed, k.id);
      }
      ChildrenKeepUsage(next, children[1..], outcome, error, usage);
    }
  }

  lemma SealKeepsUsage(db: Db, record: Record, outcome: TurnStatus, error: Option<string>)
    requires Sound(db, record.usage) && record.execution.Some? && Sealed(db, record, outcome, error).Ok?
    ensures var d := Sealed(db, record, outcome, error).value;
            Sound(d.db, d.record.usage) && d.db.record == Some(d.record) && d.db.feed.minted == db.feed.minted
  {
    OpenChildrenAreCarried(db, outcome);
    var failure := TurnErrorOf(error);
    ChildrenKeepUsage(db, OpenChildren(db, outcome), outcome, failure, record.usage);
    var closed := CloseChildren(db, OpenChildren(db, outcome), outcome, failure).(pending := []);
    var row := Get(closed.turns, record.execution.value.turn).value;
    GetIn(closed.turns, record.execution.value.turn);
    var turn := row.(status := outcome, error := failure);
    SoundPut(closed, turn, record.usage);
    FinishRowsMints(closed.feed, OfTurn(closed.feed.outputs, turn.id), None);
  }

  lemma BeginKeepsUsage(db: Db, record: Record, input: seq<Message>)
    requires Sound(db, record.usage)
    ensures var d := Begin(db, record, input); Sound(d.db, d.record.usage)
  {
    var id := Minted(db.feed.minted);
    GetIn(db.turns, id);
    SoundPut(db.(feed := db.feed.(minted := db.feed.minted + 1)), Turn(id, None, Queued, None, None), record.usage);
  }

  lemma CompleteKeepsUsage(s: Setup, db: Db, record: Record, outcome: TurnStatus, error: Option<string>)
    requires Sound(db, record.usage) && record.execution.Some? && Complete(s, db, record, outcome, error).Ok?
    ensures Sound(Complete(s, db, record, outcome, error).value, UsageOf(Complete(s, db, record, outcome, error).value))
  {
    SealKeepsUsage(db, record, outcome, error);
    var d := Sealed(db, record, outcome, error).value;
    var input := Joined(d.db.refused[..PageOfRefused(s, d.db.refused)]);
    var cleared := d.db.(refused := []);
    BeginKeepsUsage(cleared, d.record, input);
    var started := Begin(cleared, d.record, input);
    AddInputMints(started.db.feed, started.record.execution.value.turn, input);
  }

  // --- Input -----------------------------------------------------------------------------------------------

  lemma MessageKeepsUsage(d: Draft, driver: Driver, input: seq<Message>)
    requires Sound(d.db, d.record.usage) && AcceptMessage(d, driver, input).Ok?
    ensures var next := AcceptMessage(d, driver, input).value; Sound(next.db, next.record.usage)
  {
    if d.record.execution.Some? {
      AddInputMints(d.db.feed, d.record.execution.value.turn, input);
    } else {
      BeginKeepsUsage(d.db, d.record, input);
      var started := Begin(d.db, d.record, input);
      AddInputMints(started.db.feed, started.record.execution.value.turn, input);
    }
  }

  lemma ToolKeepsUsage(d: Draft, driver: Driver, event: InputEvent)
    requires event.UserTool? && Sound(d.db, d.record.usage) && AcceptTool(d, driver, event).Ok?
    ensures var next := AcceptTool(d, driver, event).value; Sound(next.db, next.record.usage)
  {
    GetIn(d.db.turns, event.turn);
    var turn := Get(d.db.turns, event.turn).value;
    var next := AcceptTool(d, driver, event).value;
    SoundPut(d.db, turn.(status := InProgress), d.record.usage);
    assert next.db.turns == d.db.turns || next.db.turns == Put(d.db.turns, event.turn, turn.(status := InProgress));
    assert next.db.pending == d.db.pending && next.db.feed.minted >= d.db.feed.minted;
  }

  lemma InputKeepsUsage(d: Draft, driver: Driver, event: InputEvent)
    requires Sound(d.db, d.record.usage) && AcceptEvent(d, driver, event).Ok?
    ensures var next := AcceptEvent(d, driver, event).value; Sound(next.db, next.record.usage)
  {
    match event
    case UserMessage(input) => MessageKeepsUsage(d, driver, input);
    case UserCancel =>
    case UserTool(_, _, _, _, _) => ToolKeepsUsage(d, driver, event);
  }

  lemma {:induction false} InputsKeepUsage(d: Draft, driver: Driver, events: seq<InputEvent>)
    requires Sound(d.db, d.record.usage) && AcceptAll(d, driver, events).Ok?
    ensures var next := AcceptAll(d, driver, events).value; Sound(next.db, next.record.usage)
    decreases |events|
  {
    if events != [] {
      InputKeepsUsage(d, driver, events[0]);
      InputsKeepUsage(AcceptEvent(d, driver, events[0]).value, driver, events[1..]);
    }
  }

  // --- Every run ---------------------------------------------------------------------------------------------

  lemma StartKeepsUsage(db: Db, record: Record)
    requires Sound(db, record.usage) && record.execution.Some? && MarkRunning(db, record).Ok?
    ensures var next := MarkRunning(db, record).value; Sound(next, UsageOf(next))
  {
    var id := record.execution.value.turn;
    GetIn(db.turns, id);
    SoundPut(db, Get(db.turns, id).value.(status := InProgress), record.usage);
  }

  lemma SubmissionKeepsUsage(s: Setup, db: Db, driver: Driver, events: seq<InputEvent>, key: string)
    requires Sound(db, UsageOf(db)) && AcceptInput(s, db, driver, events, key).Ok?
    ensures var next := AcceptInput(s, db, driver, events, key).value; Sound(next, UsageOf(next))
  {
    if key !in db.accepted { InputsKeepUsage(Draft(db, db.record.value), driver, events); }
  }

  lemma FencedStepKeepsUsage(s: Setup, db: Db, record: Record, step: Step)
    requires !step.Submit? && !step.Report? && !step.Delete? && !step.Drop?
    requires Sound(db, record.usage) && db.record == Some(record) && record.execution.Some? && Possible(db, step)
    requires Reconcile(s, db, record, step).Ok?
    ensures var next := Reconcile(s, db, record, step).value; Sound(next, UsageOf(next))
  {
    match step
    case Start(_) => StartKeepsUsage(db, record);
    case Poll(_, entries, _, _) => EntriesKeepUsage(Draft(db, record), record.execution.value.turn, entries);
    case Commit(_, checkpoint) => CompleteKeepsUsage(s, db, record.(checkpoint := Some(checkpoint)), Completed, None);
    case Seal(_, outcome, error) => CompleteKeepsUsage(s, db, record, outcome, error);
    case Deliver(_, _) =>
    case Refuse(_, _) =>
  }

  lemma ReportKeepsUsage(db: Db, environment: EnvironmentStatus)
    requires Sound(db, UsageOf(db)) && ApplyEnvironment(db, environment).Ok?
    ensures Sound(ApplyEnvironment(db, environment).value, UsageOf(ApplyEnvironment(db, environment).value))
  {
    var next := ApplyEnvironment(db, environment).value;
    assert next.turns == db.turns && next.pending == db.pending && next.feed.minted == db.feed.minted;
    assert UsageOf(next) == UsageOf(db);
  }

  lemma ClientStepKeepsUsage(s: Setup, db: Db, step: Step)
    requires Sound(db, UsageOf(db)) && Transact(s, db, step).Ok?
    requires step.Submit? || step.Report? || step.Delete? || step.Drop?
    ensures Sound(Transact(s, db, step).value, UsageOf(Transact(s, db, step).value))
  {
    match step
    case Submit(driver, events, key) => SubmissionKeepsUsage(s, db, driver, events, key);
    case Report(environment) => ReportKeepsUsage(db, environment);
    case Delete =>
    case Drop =>
  }

  lemma StepKeepsUsage(s: Setup, db: Db, step: Step)
    requires Sound(db, UsageOf(db)) && Possible(db, step)
    ensures Sound(After(s, db, step), UsageOf(After(s, db, step)))
  {
    if Transact(s, db, step).Ok? {
      match step
      case Submit(_, _, _) => ClientStepKeepsUsage(s, db, step);
      case Report(_) => ClientStepKeepsUsage(s, db, step);
      case Delete => ClientStepKeepsUsage(s, db, step);
      case Drop => ClientStepKeepsUsage(s, db, step);
      case _ => FencedStepKeepsUsage(s, db, db.record.value, step);
    }
  }

  lemma {:induction false} RunKeepsUsage(s: Setup, db: Db, steps: seq<Step>)
    requires Sound(db, UsageOf(db)) && AllPossible(s, db, steps)
    ensures Sound(Run(s, db, steps), UsageOf(Run(s, db, steps)))
    decreases |steps|
  {
    if steps != [] {
      StepKeepsUsage(s, db, steps[0]);
      RunKeepsUsage(s, After(s, db, steps[0]), steps[1..]);
    }
  }

  /**
   Whatever a session goes through from its creation: its usage is the sum over its turns, and a
   child held for the checkpoint will be published with the usage its turn has now.
   */
  lemma UsageIsConserved(s: Setup, driver: string, revision: string, sandboxed: bool, transcript: Option<string>,
                         checkpoint: Option<Checkpoint>, steps: seq<Step>)
    requires AllPossible(s, Created(driver, revision, sandboxed, transcript, checkpoint), steps)
    ensures var db := Run(s, Created(driver, revision, sandboxed, transcript, checkpoint), steps);
            && (forall m: Meter :: Read(Or(UsageOf(db)), m) == Total(db.turns, m))
            && (forall r | r in db.pending :: Get(db.turns, r.key).Some? && Get(db.turns, r.key).value.usage == r.value.usage)
  {
    RunKeepsUsage(s, Created(driver, revision, sandboxed, transcript, checkpoint), steps);
  }
}
