/**
 What one commit of a durable machine does, said in terms of its table: which commands and releases a
 transition queues, which timer fires, what a handler's answer changes and when a command is handed out.
 */
module DurableMoves {
  import opened Options
  import opened Machines
  import opened MachineStores
  import opened Durables
  import opened DurableRuns

  // --- A transition -------------------------------------------------------------------------------------

  /** The table allows this move: a state of its own with valid data, and only valid commands and releases. */
  ghost predicate Allowed(m: Machine, state: State, next: Next) {
    && next.to in m.states && m.validData(next.to, next.data)
    && (forall command | command in next.commands :: m.validCommand(command))
    && (forall r | r in m.Freed(state.tag, next.to) :: m.validCommand(m.release(r, state)))
  }

  /**
   The move was made: the state is the one asked for, under a new epoch exactly if the tag changed, and the
   outbox is what it was, then the commands asked for in order, then a release for each resource freed.
   */
  ghost predicate Made(setup: Setup, n: Node, next: Next, now: int, after: Node) {
    var state := n.record.state;
    var freed, at, due := setup.machine.Freed(state.tag, next.to), |n.outbox|, now + setup.recoveryDelay;
    var entered := next.to != state.tag;
    && after.record == Stored(State(next.to, next.data), n.record.epoch + if entered then 1 else 0,
                              if entered then map[] else n.record.fired)
    && |after.outbox| == at + |next.commands| + |freed| && after.outbox[..at] == n.outbox
    && after.next == n.next + |next.commands| + |freed|
    && (forall i | 0 <= i < |next.commands| ::
          after.outbox[at + i] == Entry(n.next + i, next.commands[i], after.record.epoch, false, 0, due))
    && (forall j | 0 <= j < |freed| ::
          after.outbox[at + |next.commands| + j]
          == Entry(n.next + |next.commands| + j, setup.machine.release(freed[j], state), after.record.epoch, true, 0, due))
  }

  /** What came of an event: nothing if it threw, and otherwise the machine as its table answers. */
  ghost predicate AsTabled(setup: Setup, n: Node, event: Event, tick: Tick, result: Option<Node>) {
    var m, state := setup.machine, n.record.state;
    if state.tag !in m.states then result == None
    else if m.states[state.tag].terminal then result == Some(n)
    else if state.tag !in m.answers || event.tag !in m.answers[state.tag] then result == None
    else
      match m.answers[state.tag][event.tag]
      case Ignore => result == Some(n)
      case Reject => result == Some(n)
      case Go(run) =>
        var next := run(state.data, event, tick.facts);
        && (result.Some? <==> next.Some? && Allowed(m, state, next.value))
        && (result.Some? ==> Made(setup, n, next.value, tick.now, result.value))
  }

  lemma PlannedIff(m: Machine, state: State, next: Next)
    ensures (exists p | p in m.Planning(state, next) :: !m.validCommand(p.command))
            <==> !((forall command | command in next.commands :: m.validCommand(command))
                   && (forall r | r in m.Freed(state.tag, next.to) :: m.validCommand(m.release(r, state))))
  {
    var planned, freed := m.Planning(state, next), m.Freed(state.tag, next.to);
    forall i | 0 <= i < |next.commands| ensures planned[i].command == next.commands[i] && planned[i] in planned {}
    forall j | 0 <= j < |freed|
      ensures planned[|next.commands| + j].command == m.release(freed[j], state) && planned[|next.commands| + j] in planned
    {
    }
  }

  lemma PlansAreMade(setup: Setup, n: Node, next: Next, now: int, after: Node)
    requires var planned, entered := setup.machine.Planning(n.record.state, next), next.to != n.record.state.tag;
             var epoch := if entered then n.record.epoch + 1 else n.record.epoch;
             after == Node(Stored(State(next.to, next.data), epoch, if entered then map[] else n.record.fired),
                           n.outbox + Posted(planned, epoch, now + setup.recoveryDelay, n.next), n.next + |planned|)
    ensures Made(setup, n, next, now, after)
  {
  }

  /** An event does exactly what the table's answer says, with every command asked for and every release queued. */
  lemma TransitionsFollowTheTable(setup: Setup, n: Node, event: Event, tick: Tick)
    ensures AsTabled(setup, n, event, tick, Transition(setup, n, event, tick))
  {
    var m, state, result := setup.machine, n.record.state, Transition(setup, n, event, tick);
    if state.tag in m.states && !m.states[state.tag].terminal
       && state.tag in m.answers && event.tag in m.answers[state.tag] && m.answers[state.tag][event.tag].Go?
    {
      var next := m.answers[state.tag][event.tag].run(state.data, event, tick.facts);
      if next.Some? {
        PlannedIff(m, state, next.value);
        if result.Some? { PlansAreMade(setup, n, next.value, tick.now, result.value); }
      }
    }
  }

  /** Releases are queued in the order of the release keys. */
  lemma {:induction false} KeptInOrder(xs: seq<string>, s: set<string>, i: nat, j: nat) returns (a: nat, b: nat)
    requires i < j < |Keep(xs, s)|
    ensures a < b < |xs| && xs[a] == Keep(xs, s)[i] && xs[b] == Keep(xs, s)[j]
  {
    if xs[0] in s {
      assert Keep(xs, s) == [xs[0]] + Keep(xs[1..], s);
      if i == 0 {
        var at := KeptAt(xs[1..], s, j - 1);
        a, b := 0, at + 1;
      } else {
        a, b := KeptInOrder(xs[1..], s, i - 1, j - 1);
        a, b := a + 1, b + 1;
      }
    } else {
      assert Keep(xs, s) == [] + Keep(xs[1..], s);
      a, b := KeptInOrder(xs[1..], s, i, j);
      a, b := a + 1, b + 1;
    }
  }

  lemma {:induction false} KeptAt(xs: seq<string>, s: set<string>, i: nat) returns (a: nat)
    requires i < |Keep(xs, s)|
    ensures a < |xs| && xs[a] == Keep(xs, s)[i]
  {
    if xs[0] in s && i == 0 {
      a := 0;
    } else if xs[0] in s {
      assert Keep(xs, s) == [xs[0]] + Keep(xs[1..], s);
      a := KeptAt(xs[1..], s, i - 1);
      a := a + 1;
    } else {
      assert Keep(xs, s) == [] + Keep(xs[1..], s);
      a := KeptAt(xs[1..], s, i);
      a := a + 1;
    }
  }

  lemma FreedInTableOrder(m: Machine, from: string, to: string, i: nat, j: nat) returns (a: nat, b: nat)
    requires i < j < |m.Freed(from, to)|
    ensures a < b < |m.resources| && m.resources[a] == m.Freed(from, to)[i] && m.resources[b] == m.Freed(from, to)[j]
  {
    a, b := KeptInOrder(m.resources, (set r | r in m.Holds(from) && r !in m.Holds(to)), i, j);
  }

  // --- Timers -----------------------------------------------------------------------------------------------

  lemma {:induction false} UnfiredIff(dues: seq<Due>, fired: map<string, int>, due: Due)
    ensures due in Unfired(dues, fired) <==> due in dues && !(due.event in fired && fired[due.event] == due.at)
  {
    if dues != [] {
      UnfiredIff(dues[1..], fired, due);
      assert dues == [dues[0]] + dues[1..];
    }
  }

  /** A timer is pending exactly if the state has it and it has not fired at that deadline. */
  lemma PendingIff(m: Machine, record: Stored, due: Due)
    ensures due in PendingTimers(m, record)
            <==> record.state.tag in m.states && !m.states[record.state.tag].terminal && due in m.deadlines(record.state)
                 && !(due.event in record.fired && record.fired[due.event] == due.at)
  {
    UnfiredIff(m.Timers(record.state), record.fired, due);
    if record.state.tag in m.states && !m.states[record.state.tag].terminal {
      TimersSorted(m.deadlines(record.state));
      assert due in multiset(m.Timers(record.state)) <==> due in multiset(m.deadlines(record.state));
    }
  }

  lemma {:induction false} UnfiredAscend(dues: seq<Due>, fired: map<string, int>)
    requires Ascending(dues)
    ensures Ascending(Unfired(dues, fired))
  {
    if dues != [] {
      UnfiredAscend(dues[1..], fired);
      var rest := Unfired(dues[1..], fired);
      forall due | due in rest ensures dues[0].at <= due.at { UnfiredIff(dues[1..], fired, due); }
      if Pending(fired, dues[0]) { assert Unfired(dues, fired)[1..] == rest; } else { assert Unfired(dues, fired) == rest; }
    }
  }

  lemma {:induction false} FirstDueIsEarliest(dues: seq<Due>, now: int)
    requires Ascending(dues)
    ensures FirstDue(dues, now).None? <==> forall due | due in dues :: now < due.at
    ensures FirstDue(dues, now).Some? ==>
              && FirstDue(dues, now).value in dues && FirstDue(dues, now).value.at <= now
              && forall due | due in dues :: FirstDue(dues, now).value.at <= due.at
  {
    if dues != [] {
      FirstDueIsEarliest(dues[1..], now);
      assert dues == [dues[0]] + dues[1..];
    }
  }

  /** The firing of this timer: its deadline is marked, and then its event does what the table answers. */
  ghost predicate FiresAs(setup: Setup, n: Node, due: Due, tick: Tick, result: Option<Node>) {
    AsTabled(setup, n.(record := n.record.(fired := n.record.fired[due.event := due.at])), Event(due.event, None), tick, result)
  }

  /** This timer is pending and due, and no pending one is due earlier. */
  ghost predicate Earliest(m: Machine, record: Stored, now: int, due: Due) {
    && due in PendingTimers(m, record) && due.at <= now
    && forall other | other in PendingTimers(m, record) :: due.at <= other.at
  }

  /** A firing is of the earliest pending timer that is due, and there is none exactly if no pending timer is. */
  lemma TheEarliestTimerFires(setup: Setup, n: Node, tick: Tick)
    ensures var fire := Fire(setup, n, tick);
            && (fire.Quiet? <==> forall due | due in PendingTimers(setup.machine, n.record) :: tick.now < due.at)
            && (fire.Fired? ==> Earliest(setup.machine, n.record, tick.now, fire.due)
                                && FiresAs(setup, n, fire.due, tick, Some(fire.node)))
            && (fire.Burst? ==> exists due :: Earliest(setup.machine, n.record, tick.now, due) && FiresAs(setup, n, due, tick, None))
  {
    var m := setup.machine;
    var timers := PendingTimers(m, n.record);
    if n.record.state.tag in m.states && !m.states[n.record.state.tag].terminal { TimersSorted(m.deadlines(n.record.state)); }
    UnfiredAscend(m.Timers(n.record.state), n.record.fired);
    FirstDueIsEarliest(timers, tick.now);
    if FirstDue(timers, tick.now).Some? {
      var due := FirstDue(timers, tick.now).value;
      var marked := n.(record := n.record.(fired := n.record.fired[due.event := due.at]));
      TransitionsFollowTheTable(setup, marked, Event(due.event, None), tick);
      assert Earliest(m, n.record, tick.now, due);
    }
  }

  // --- Handlers ---------------------------------------------------------------------------------------------

  /**
   A handler that succeeded: its command leaves the outbox, and its answer, if it gave one and the state is
   still in the visit that queued the command, does what the table says; a throw keeps the command.
   */
  lemma AnswersAreApplied(setup: Setup, n: Node, entry: Entry, answer: Option<Event>, tick: Tick)
    requires n.outbox != []
    ensures var rest, after := n.(outbox := n.outbox[1..]), Settled(setup, n, entry, answer, tick);
            if answer.Some? && n.record.epoch == entry.epoch then AsTabled(setup, rest, answer.value, tick, after)
            else after == Some(rest)
  {
    if answer.Some? { TransitionsFollowTheTable(setup, n.(outbox := n.outbox[1..]), answer.value, tick); }
  }

  /** How often the handler of each command failed, and when it did last. */
  datatype Failures = Failures(count: nat, at: int)
  type Record = map<nat, Failures>

  function Failed(record: Record, id: nat): nat { if id in record then record[id].count else 0 }

  function Noted(s: System, a: Action, record: Record): Record {
    if s.waking == 0 && a.End? && a.ending.Broke? && s.inFlight.Some? && s.node.outbox != [] then
      var id := s.inFlight.value.id;
      record[id := Failures(Failed(record, id) + 1, a.ending.now)]
    else record
  }

  function Recorded(setup: Setup, s: System, record: Record, actions: seq<Action>): Record
    decreases |actions|
  {
    if actions == [] then record
    else Recorded(setup, Act(setup, s, actions[0]), Noted(s, actions[0], record), actions[1..])
  }

  /** Attempts are failures, and a command that failed is due when its delay is over. */
  predicate Counted(setup: Setup, e: Entry, record: Record) {
    && e.attempts == Failed(record, e.id)
    && (e.id in record ==> record[e.id].count > 0 && e.due == record[e.id].at + setup.retryDelay(record[e.id].count))
  }

  ghost predicate AllCounted(setup: Setup, n: Node, record: Record) {
    && (forall e | e in n.outbox :: Counted(setup, e, record))
    && (forall id | id in record :: id < n.next)
  }

  lemma AppendingCounts(setup: Setup, n: Node, after: Node, record: Record)
    requires AllCounted(setup, n, record) && n.outbox <= after.outbox && n.next <= after.next
    requires forall i | |n.outbox| <= i < |after.outbox| :: after.outbox[i].id >= n.next && after.outbox[i].attempts == 0
    ensures AllCounted(setup, after, record)
  {
    forall e | e in after.outbox ensures Counted(setup, e, record) {
      var i :| 0 <= i < |after.outbox| && after.outbox[i] == e;
      if i < |n.outbox| { assert n.outbox[i] == e; }
    }
  }

  lemma MovingCounts(setup: Setup, n: Node, event: Event, tick: Tick, record: Record)
    requires setup.machine.Accepted() && Sound(setup.machine, n) && AllCounted(setup, n, record)
    requires Transition(setup, n, event, tick).Some?
    ensures AllCounted(setup, Transition(setup, n, event, tick).value, record)
  {
    TransitionStaysSound(setup, n, event, tick);
    AppendingCounts(setup, n, Transition(setup, n, event, tick).value, record);
  }

  lemma DroppingCounts(setup: Setup, n: Node, record: Record)
    requires n.outbox != [] && AllCounted(setup, n, record)
    ensures AllCounted(setup, Behead(n), record)
  {
    forall e | e in Behead(n).outbox ensures Counted(setup, e, record) { assert e in n.outbox; }
  }

  lemma FailingCounts(setup: Setup, s: System, now: int, record: Record)
    requires Good(setup, s) && s.waking == 0 && s.inFlight.Some? && AllCounted(setup, s.node, record)
    ensures AllCounted(setup, Finish(setup, s, Broke(now)).node, Noted(s, End(Broke(now)), record))
  {
    var n, next := s.node, Noted(s, End(Broke(now)), record);
    var after := Retry(setup, n, s.inFlight.value, now);
    assert n.outbox[0] in n.outbox;
    var head := n.outbox[0];
    assert Counted(setup, head, record) && after.outbox[0].id == head.id && after.outbox[0].attempts == head.attempts + 1;
    forall e | e in after.outbox ensures Counted(setup, e, next) {
      var i :| 0 <= i < |after.outbox| && after.outbox[i] == e;
      if i > 0 {
        assert n.outbox[i] == e && head.id < e.id && e in n.outbox;
        assert Counted(setup, e, record);
      }
    }
  }

  lemma AnsweringCounts(setup: Setup, s: System, ending: Ending, record: Record)
    requires setup.machine.Accepted() && Good(setup, s) && ending.Answered? && s.inFlight.Some?
    requires AllCounted(setup, s.node, record)
    ensures AllCounted(setup, Finish(setup, s, ending).node, record)
  {
    DroppingCounts(setup, s.node, record);
    if ending.answer.Some? && s.node.record.epoch == s.inFlight.value.epoch
       && Transition(setup, Behead(s.node), ending.answer.value, ending.tick).Some?
    {
      MovingCounts(setup, Behead(s.node), ending.answer.value, ending.tick, record);
    }
  }

  lemma FiringCounts(setup: Setup, s: System, tick: Tick, record: Record)
    requires setup.machine.Accepted() && Good(setup, s) && AllCounted(setup, s.node, record)
    ensures AllCounted(setup, FireTimer(setup, s, tick).node, record)
  {
    if s.waking > 0 && Fire(setup, s.node, tick).Fired? {
      var due := Fire(setup, s.node, tick).due;
      var marked := s.node.(record := s.node.record.(fired := s.node.record.fired[due.event := due.at]));
      MovingCounts(setup, marked, Event(due.event, None), tick, record);
    }
  }

  lemma ActCounts(setup: Setup, s: System, a: Action, record: Record)
    requires setup.machine.Accepted() && Good(setup, s) && AllCounted(setup, s.node, record)
    ensures AllCounted(setup, Act(setup, s, a).node, Noted(s, a, record))
  {
    if s.waking > 0 {
      if a.Tock? { FiringCounts(setup, s, a.tick, record); }
    } else {
      match a
      case Arrive(arrival) =>
        if Transition(setup, s.node, arrival.event, arrival.tick).Some? {
          MovingCounts(setup, s.node, arrival.event, arrival.tick, record);
        }
      case Look(now) => if Looks(s.node, now).Skipped? { DroppingCounts(setup, s.node, record); }
      case End(ending) =>
        if s.inFlight.Some? && ending.Broke? { FailingCounts(setup, s, ending.now, record); }
        else if s.inFlight.Some? && ending.Answered? { AnsweringCounts(setup, s, ending, record); }
      case _ =>
    }
  }

  lemma {:induction false} RunCounts(setup: Setup, s: System, actions: seq<Action>, record: Record)
    requires setup.machine.Accepted() && Good(setup, s) && AllCounted(setup, s.node, record)
    ensures Good(setup, Run(setup, s, actions))
    ensures AllCounted(setup, Run(setup, s, actions).node, Recorded(setup, s, record, actions))
    decreases |actions|
  {
    if actions != [] {
      ActStaysGood(setup, s, actions[0]);
      ActCounts(setup, s, actions[0], record);
      RunCounts(setup, Act(setup, s, actions[0]), actions[1..], Noted(s, actions[0], record));
    }
  }

  /**
   On every run of a fresh machine: a free drain hands out the head of the outbox exactly if it is a release
   or of the current visit, and its handler never failed or the delay since its last failure is over. A first
   attempt waits for nothing.
   */
  lemma HandedOutIff(setup: Setup, next: nat, actions: seq<Action>, now: int)
    requires setup.machine.Accepted()
    requires var s := Run(setup, Start(setup, next), actions); s.waking == 0 && s.inFlight.None? && s.node.outbox != []
    ensures var s := Run(setup, Start(setup, next), actions);
            var head, failures := s.node.outbox[0], Recorded(setup, Start(setup, next), map[], actions);
            && head.attempts == Failed(failures, head.id)
            && (Act(setup, s, Look(now)).inFlight == Some(head)
                <==> (head.release || head.epoch == s.node.record.epoch)
                     && (head.id in failures ==>
                           failures[head.id].at + setup.retryDelay(failures[head.id].count) <= now))
            && (Act(setup, s, Look(now)).inFlight.None? || Act(setup, s, Look(now)).inFlight == Some(head))
  {
    RunCounts(setup, Start(setup, next), actions, map[]);
    var s := Run(setup, Start(setup, next), actions);
    assert s.node.outbox[0] in s.node.outbox;
  }
}
