/**
 What a run of the durable machine promises about time: epochs name visits to a state,
 commands leave in the order they came, a timer fires once per deadline, and the alarm is
 never later than the next thing to do.
 */
module DurableOrder {
  import opened Options
  import opened Machines
  import opened MachineStores
  import opened Durables
  import opened DurableRuns

  // --- Epochs -----------------------------------------------------------------------------------

  ghost predicate SameCommand(e: Entry, f: Entry) {
    e.id == f.id && e.epoch == f.epoch && e.command == f.command && e.release == f.release
  }

  ghost predicate Queued(outbox: seq<Entry>, f: Entry) { exists e :: e in outbox && SameCommand(e, f) }

  /** `after` may follow `n`: no epoch is reused for another tag, no identifier for another command. */
  ghost predicate Later(n: Node, after: Node) {
    && n.record.epoch <= after.record.epoch
    && (n.record.epoch == after.record.epoch ==> n.record.state.tag == after.record.state.tag)
    && n.next <= after.next
    && forall f | f in after.outbox :: n.next <= f.id || Queued(n.outbox, f)
  }

  lemma LaterTransitive(a: Node, b: Node, c: Node)
    requires Later(a, b) && Later(b, c)
    ensures Later(a, c)
  {
    forall f | f in c.outbox && f.id < a.next ensures Queued(a.outbox, f) {
      var e :| e in b.outbox && SameCommand(e, f);
      var d :| d in a.outbox && SameCommand(d, e);
      assert SameCommand(d, f);
    }
  }

  lemma LaterReflexive(n: Node)
    ensures Later(n, n)
  {
    forall f | f in n.outbox ensures Queued(n.outbox, f) {
      assert SameCommand(f, f);
    }
  }

  lemma AppendingAdvances(n: Node, after: Node)
    requires n.record.epoch <= after.record.epoch && n.next <= after.next && n.outbox <= after.outbox
    requires n.record.epoch == after.record.epoch ==> n.record.state.tag == after.record.state.tag
    requires forall i | |n.outbox| <= i < |after.outbox| :: after.outbox[i].id >= n.next
    ensures Later(n, after)
  {
    forall f | f in after.outbox && f.id < n.next ensures Queued(n.outbox, f) {
      var i :| 0 <= i < |after.outbox| && after.outbox[i] == f;
      assert n.outbox[i] == f && SameCommand(f, f);
    }
  }

  lemma MoveAdvances(setup: Setup, n: Node, event: Event, tick: Tick)
    requires setup.machine.Accepted() && Sound(setup.machine, n)
    requires Transition(setup, n, event, tick).Some?
    ensures Later(n, Transition(setup, n, event, tick).value)
  {
    TransitionStaysSound(setup, n, event, tick);
    AppendingAdvances(n, Transition(setup, n, event, tick).value);
  }

  lemma FireAdvances(setup: Setup, n: Node, tick: Tick)
    requires setup.machine.Accepted() && Sound(setup.machine, n) && Fire(setup, n, tick).Fired?
    ensures Later(n, Fire(setup, n, tick).node)
  {
    var due := Fire(setup, n, tick).due;
    var marked := n.(record := n.record.(fired := n.record.fired[due.event := due.at]));
    MoveAdvances(setup, marked, Event(due.event, None), tick);
  }

  lemma BeheadAdvances(n: Node)
    requires n.outbox != []
    ensures Later(n, Behead(n))
  {
    forall f | f in Behead(n).outbox ensures Queued(n.outbox, f) {
      assert f in n.outbox && SameCommand(f, f);
    }
  }

  lemma SettlingAdvances(setup: Setup, n: Node, entry: Entry, answer: Option<Event>, tick: Tick)
    requires setup.machine.Accepted() && Sound(setup.machine, n) && n.outbox != []
    requires Settled(setup, n, entry, answer, tick).Some?
    ensures Later(n, Settled(setup, n, entry, answer, tick).value)
  {
    var rest := Behead(n);
    BeheadAdvances(n);
    if answer.Some? && n.record.epoch == entry.epoch {
      MoveAdvances(setup, rest, answer.value, tick);
      LaterTransitive(n, rest, Transition(setup, rest, answer.value, tick).value);
    }
  }

  lemma RetryingAdvances(setup: Setup, n: Node, entry: Entry, now: int)
    requires n.outbox != []
    ensures Later(n, Retry(setup, n, entry, now))
  {
    LaterReflexive(n);
    var kept := Retry(setup, n, entry, now);
    assert SameCommand(n.outbox[0], kept.outbox[0]);
  }

  lemma AnswerAdvances(setup: Setup, s: System, answer: Option<Event>, tick: Tick)
    requires setup.machine.Accepted() && Good(setup, s) && s.inFlight.Some?
    ensures Later(s.node, Finish(setup, s, Answered(answer, tick)).node)
  {
    var settled := Settled(setup, s.node, s.inFlight.value, answer, tick);
    if settled.Some? { SettlingAdvances(setup, s.node, s.inFlight.value, answer, tick); }
    else { LaterReflexive(s.node); }
  }

  lemma FinishAdvances(setup: Setup, s: System, ending: Ending)
    requires setup.machine.Accepted() && Good(setup, s)
    ensures Later(s.node, Finish(setup, s, ending).node)
  {
    if s.inFlight.None? || ending.Interrupted? {
      LaterReflexive(s.node);
    } else if ending.Broke? {
      RetryingAdvances(setup, s.node, s.inFlight.value, ending.now);
    } else {
      AnswerAdvances(setup, s, ending.answer, ending.tick);
    }
  }

  lemma ArrivalAdvances(setup: Setup, s: System, arrival: Arrival)
    requires setup.machine.Accepted() && Good(setup, s)
    ensures Later(s.node, Apply(setup, s, arrival).node)
  {
    LaterReflexive(s.node);
    if Transition(setup, s.node, arrival.event, arrival.tick).Some? {
      MoveAdvances(setup, s.node, arrival.event, arrival.tick);
    }
  }

  lemma LookAdvances(setup: Setup, s: System, now: int)
    ensures Later(s.node, Take(setup, s, now).node)
  {
    LaterReflexive(s.node);
    if Looks(s.node, now).Skipped? { BeheadAdvances(s.node); }
  }

  lemma TockAdvances(setup: Setup, s: System, tick: Tick)
    requires setup.machine.Accepted() && Good(setup, s)
    ensures Later(s.node, FireTimer(setup, s, tick).node)
  {
    if Fire(setup, s.node, tick).Fired? { FireAdvances(setup, s.node, tick); } else { LaterReflexive(s.node); }
  }

  lemma ActAdvances(setup: Setup, s: System, a: Action)
    requires setup.machine.Accepted() && Good(setup, s)
    ensures Later(s.node, Act(setup, s, a).node)
  {
    match a
    case Arrive(arrival) => ArrivalAdvances(setup, s, arrival);
    case Look(now) => LookAdvances(setup, s, now);
    case End(ending) => FinishAdvances(setup, s, ending);
    case Tock(tick) => TockAdvances(setup, s, tick);
    case _ =>
    LaterReflexive(s.node);
  }

  /** Epochs never decrease along a run, and two moments with one epoch have one state tag. */
  lemma {:induction false} EpochsAdvance(setup: Setup, s: System, actions: seq<Action>)
    requires setup.machine.Accepted() && Good(setup, s)
    ensures Good(setup, Run(setup, s, actions)) && Later(s.node, Run(setup, s, actions).node)
    decreases |actions|
  {
    if actions == [] {
      LaterReflexive(s.node);
    } else {
      ActStaysGood(setup, s, actions[0]);
      ActAdvances(setup, s, actions[0]);
      EpochsAdvance(setup, Act(setup, s, actions[0]), actions[1..]);
      LaterTransitive(s.node, Act(setup, s, actions[0]).node, Run(setup, s, actions).node);
    }
  }

  lemma NewCommandsCarryTheEpoch(setup: Setup, s: System, a: Action, e: Entry)
    requires setup.machine.Accepted() && Good(setup, s)
    requires e in Act(setup, s, a).node.outbox && s.node.next <= e.id
    ensures e.epoch == Act(setup, s, a).node.record.epoch
  {
    if s.waking > 0 {
      if a.Tock? && Fire(setup, s.node, a.tick).Fired? {
        var due := Fire(setup, s.node, a.tick).due;
        var marked := s.node.(record := s.node.record.(fired := s.node.record.fired[due.event := due.at]));
        TransitionStaysSound(setup, marked, Event(due.event, None), a.tick);
      }
    } else {
      match a
      case Arrive(arrival) => TransitionStaysSound(setup, s.node, arrival.event, arrival.tick);
      case End(ending) =>
        if s.inFlight.Some? && ending.Answered? && ending.answer.Some? {
          TransitionStaysSound(setup, Behead(s.node), ending.answer.value, ending.tick);
        }
      case _ =>
    }
  }

  /** A command still queued is the one that was enqueued, with its epoch. */
  lemma StillTheSame(setup: Setup, s: System, a: Action, since: seq<Action>, e: Entry, f: Entry)
    requires setup.machine.Accepted() && Good(setup, s)
    requires e in Act(setup, s, a).node.outbox && s.node.next <= e.id
    requires f in Run(setup, Act(setup, s, a), since).node.outbox && f.id == e.id
    ensures f.command == e.command && f.epoch == Act(setup, s, a).node.record.epoch
    ensures Good(setup, Act(setup, s, a))
  {
    var start := Act(setup, s, a);
    ActStaysGood(setup, s, a);
    NewCommandsCarryTheEpoch(setup, s, a, e);
    EpochsAdvance(setup, start, since);
    assert f.id < start.node.next;
    var same :| same in start.node.outbox && SameCommand(same, f);
    assert same == e;
  }

  /** A moment of a run lies between its start and its end. */
  lemma MomentsAreBetween(setup: Setup, s: System, since: seq<Action>, moment: nat)
    requires setup.machine.Accepted() && Good(setup, s) && moment <= |since|
    ensures var between := Run(setup, s, since[..moment]).node;
            Later(s.node, between) && Later(between, Run(setup, s, since).node)
  {
    EpochsAdvance(setup, s, since[..moment]);
    RunSplits(setup, s, since[..moment], since[moment..]);
    assert since[..moment] + since[moment..] == since;
    EpochsAdvance(setup, Run(setup, s, since[..moment]), since[moment..]);
  }

  /**
   A command that is still queued with the current epoch was enqueued in this very visit: from
   the commit `a` that enqueued it, through every moment of the run since, the epoch and the
   tag have not changed. `take` hands a non-release command out, and a handler's answer is
   applied, only under that condition.
   */
  lemma SameVisit(setup: Setup, s: System, a: Action, since: seq<Action>, e: Entry, f: Entry, moment: nat)
    requires setup.machine.Accepted() && Good(setup, s) && moment <= |since|
    requires e in Act(setup, s, a).node.outbox && s.node.next <= e.id
    requires f in Run(setup, Act(setup, s, a), since).node.outbox && f.id == e.id
    requires f.epoch == Run(setup, Act(setup, s, a), since).node.record.epoch
    ensures f.command == e.command
    ensures var enqueued := Act(setup, s, a).node.record;
            var later := Run(setup, Act(setup, s, a), since[..moment]).node.record;
            && later.epoch == enqueued.epoch == f.epoch
            && later.state.tag == enqueued.state.tag
  {
    StillTheSame(setup, s, a, since, e, f);
    MomentsAreBetween(setup, Act(setup, s, a), since, moment);
  }

  /** A non-release command is handed out only in its own visit; a stale one is dropped. */
  lemma HandedOutInItsVisit(setup: Setup, s: System, a: Action, since: seq<Action>, now: int, e: Entry)
    requires setup.machine.Accepted() && Good(setup, s)
    requires e in Act(setup, s, a).node.outbox && s.node.next <= e.id
    requires var later := Run(setup, Act(setup, s, a), since).node;
             Looks(later, now).Handed? && Looks(later, now).entry.id == e.id && !Looks(later, now).entry.release
    ensures Run(setup, Act(setup, s, a), since).node.record.epoch == Act(setup, s, a).node.record.epoch
    ensures Run(setup, Act(setup, s, a), since).node.record.state.tag == Act(setup, s, a).node.record.state.tag
  {
    var later := Run(setup, Act(setup, s, a), since).node;
    SameVisit(setup, s, a, since, e, Looks(later, now).entry, |since|);
    assert since[..|since|] == since;
  }

  /** A handler's answer moves the state only in the visit that enqueued its command. */
  lemma AnswersLandInTheirVisit(setup: Setup, s: System, a: Action, since: seq<Action>, ending: Ending, e: Entry)
    requires setup.machine.Accepted() && Good(setup, s)
    requires e in Act(setup, s, a).node.outbox && s.node.next <= e.id
    requires var later := Run(setup, Act(setup, s, a), since);
             && later.inFlight.Some? && later.inFlight.value.id == e.id
             && Finish(setup, later, ending).node.record != later.node.record
    ensures Run(setup, Act(setup, s, a), since).node.record.epoch == Act(setup, s, a).node.record.epoch
    ensures Run(setup, Act(setup, s, a), since).node.record.state.tag == Act(setup, s, a).node.record.state.tag
  {
    var later := Run(setup, Act(setup, s, a), since);
    ActStaysGood(setup, s, a);
    EpochsAdvance(setup, Act(setup, s, a), since);
    SameVisit(setup, s, a, since, e, later.inFlight.value, |since|);
    assert since[..|since|] == since;
  }

  // --- Order ------------------------------------------------------------------------------------

  function Ids(queue: seq<Entry>): seq<nat> {
    seq(|queue|, i requires 0 <= i < |queue| => queue[i].id)
  }

  /** Every identifier handed to a command of this machine: those that left, then those still queued. */
  function Trail(n: Node, l: Ledger): seq<nat> { l.departed + Ids(n.outbox) }

  ghost predicate Rising(trail: seq<nat>, next: nat) {
    && (forall i, j | 0 <= i < j < |trail| :: trail[i] < trail[j])
    && (forall id | id in trail :: id < next)
  }

  ghost predicate Trailing(n: Node, l: Ledger) {
    |l.owed| == |n.outbox| && Rising(Trail(n, l), n.next)
  }

  lemma RisingExtends(trail: seq<nat>, more: seq<nat>, next: nat)
    requires Rising(trail, next)
    requires forall i | 0 <= i < |more| :: more[i] == next + i
    ensures Rising(trail + more, next + |more|)
  {
    var all := trail + more;
    forall i, j | 0 <= i < j < |all| ensures all[i] < all[j] {
      if i < |trail| <= j { assert trail[i] in trail; }
    }
  }

  lemma OwedGrowsWithOutbox(setup: Setup, n: Node, l: Ledger, event: Event, tick: Tick)
    requires setup.machine.Accepted() && Sound(setup.machine, n) && |l.owed| == |n.outbox|
    requires Transition(setup, n, event, tick).Some?
    ensures var after := Transition(setup, n, event, tick).value;
            var book := Books(setup.machine, l, n, after);
            |book.owed| == |after.outbox| && book.departed == l.departed
  {
    TransitionStaysSound(setup, n, event, tick);
  }

  /** Appending commands under the next identifiers extends the trail by them. */
  lemma TrailExtends(n: Node, l: Ledger, after: Node, book: Ledger)
    requires Trailing(n, l) && book.departed == l.departed && |book.owed| == |after.outbox|
    requires n.outbox <= after.outbox && after.next == n.next + |after.outbox| - |n.outbox|
    requires forall i | |n.outbox| <= i < |after.outbox| :: after.outbox[i].id == n.next + i - |n.outbox|
    ensures Trailing(after, book) && Trail(n, l) <= Trail(after, book)
  {
    var more := Ids(after.outbox[|n.outbox|..]);
    assert Ids(after.outbox) == Ids(n.outbox) + more;
    assert Trail(after, book) == Trail(n, l) + more;
    RisingExtends(Trail(n, l), more, n.next);
  }

  lemma MoveExtendsTrail(setup: Setup, n: Node, l: Ledger, event: Event, tick: Tick)
    requires setup.machine.Accepted() && Sound(setup.machine, n) && Trailing(n, l)
    requires Transition(setup, n, event, tick).Some?
    ensures var after := Transition(setup, n, event, tick).value;
            var book := Books(setup.machine, l, n, after);
            Trailing(after, book) && Trail(n, l) <= Trail(after, book)
  {
    TransitionStaysSound(setup, n, event, tick);
    OwedGrowsWithOutbox(setup, n, l, event, tick);
    var after := Transition(setup, n, event, tick).value;
    TrailExtends(n, l, after, Books(setup.machine, l, n, after));
  }

  lemma BeheadKeepsTrail(n: Node, l: Ledger, succeeded: bool)
    requires Trailing(n, l) && n.outbox != []
    ensures var left := Left(l, n.outbox[0].id, succeeded);
            Trailing(Behead(n), left) && Trail(Behead(n), left) == Trail(n, l)
  {
    assert Ids(n.outbox) == [n.outbox[0].id] + Ids(n.outbox[1..]);
    assert Trail(Behead(n), Left(l, n.outbox[0].id, succeeded)) == Trail(n, l);
  }

  lemma SettlingKeepsTrail(setup: Setup, n: Node, l: Ledger, entry: Entry, answer: Option<Event>, tick: Tick)
    requires setup.machine.Accepted() && Sound(setup.machine, n) && Trailing(n, l)
    requires n.outbox != [] && Settled(setup, n, entry, answer, tick).Some?
    ensures var after := Settled(setup, n, entry, answer, tick).value;
            var book := Books(setup.machine, Left(l, n.outbox[0].id, true), Behead(n), after);
            Trailing(after, book) && Trail(n, l) <= Trail(after, book)
  {
    BeheadKeepsTrail(n, l, true);
    var left := Left(l, n.outbox[0].id, true);
    if answer.Some? && n.record.epoch == entry.epoch {
      MoveExtendsTrail(setup, Behead(n), left, answer.value, tick);
    } else {
      StandingStill(setup.machine, Behead(n), left);
    }
  }

  lemma StandingStill(m: Machine, n: Node, l: Ledger)
    ensures Books(m, l, n, n) == l
  {
    var tag := n.record.state.tag;
    KeepNothing(m.resources, set r | r in m.Holds(tag) && r !in m.Holds(tag));
    assert Gained(m, tag, tag) == {};
    assert l.owed + Owing(0, []) == l.owed;
  }

  lemma EndingKeepsTrail(setup: Setup, s: System, l: Ledger, ending: Ending)
    requires setup.machine.Accepted() && Good(setup, s) && Trailing(s.node, l) && s.waking == 0
    ensures var after, book := Finish(setup, s, ending).node, Account(setup, s, l, End(ending));
            Trailing(after, book) && Trail(s.node, l) <= Trail(after, book)
  {
    if s.inFlight.Some? {
      match ending
      case Interrupted =>
      case Broke(now) => assert Ids(Retry(setup, s.node, s.inFlight.value, now).outbox) == Ids(s.node.outbox);
      case Answered(answer, tick) =>
        if Settled(setup, s.node, s.inFlight.value, answer, tick).Some? {
          SettlingKeepsTrail(setup, s.node, l, s.inFlight.value, answer, tick);
        }
    }
  }

  lemma TockKeepsTrail(setup: Setup, s: System, l: Ledger, tick: Tick)
    requires setup.machine.Accepted() && Good(setup, s) && Trailing(s.node, l) && s.waking > 0
    ensures var after, book := Act(setup, s, Tock(tick)).node, Account(setup, s, l, Tock(tick));
            Trailing(after, book) && Trail(s.node, l) <= Trail(after, book)
  {
    if Fire(setup, s.node, tick).Fired? {
      var due := Fire(setup, s.node, tick).due;
      var marked := s.node.(record := s.node.record.(fired := s.node.record.fired[due.event := due.at]));
      MoveExtendsTrail(setup, marked, l, Event(due.event, None), tick);
    }
  }

  lemma ArrivalKeepsTrail(setup: Setup, s: System, l: Ledger, arrival: Arrival)
    requires setup.machine.Accepted() && Good(setup, s) && Trailing(s.node, l)
    ensures var after := Apply(setup, s, arrival).node; var book := Books(setup.machine, l, s.node, after);
            Trailing(after, book) && Trail(s.node, l) <= Trail(after, book)
  {
    StandingStill(setup.machine, s.node, l);
    if Transition(setup, s.node, arrival.event, arrival.tick).Some? {
      MoveExtendsTrail(setup, s.node, l, arrival.event, arrival.tick);
    }
  }

  lemma ActKeepsTrail(setup: Setup, s: System, l: Ledger, a: Action)
    requires setup.machine.Accepted() && Good(setup, s) && Trailing(s.node, l)
    ensures var after, book := Act(setup, s, a).node, Account(setup, s, l, a);
            Trailing(after, book) && Trail(s.node, l) <= Trail(after, book)
  {
    if s.waking > 0 {
      if a.Tock? { TockKeepsTrail(setup, s, l, a.tick); }
    } else {
      match a
      case Arrive(arrival) => ArrivalKeepsTrail(setup, s, l, arrival);
      case Look(now) =>
        if s.node.outbox != [] { BeheadKeepsTrail(s.node, l, false); }
      case End(ending) => EndingKeepsTrail(setup, s, l, ending);
      case _ =>
    }
  }

  lemma {:induction false} TrailsGrow(setup: Setup, s: System, l: Ledger, actions: seq<Action>)
    requires setup.machine.Accepted() && Good(setup, s) && Trailing(s.node, l)
    ensures var end, book := Run(setup, s, actions).node, Ledgered(setup, s, l, actions);
            Good(setup, Run(setup, s, actions)) && Trailing(end, book) && Trail(s.node, l) <= Trail(end, book)
    decreases |actions|
  {
    if actions == [] {
    } else {
      ActStaysGood(setup, s, actions[0]);
      ActKeepsTrail(setup, s, l, actions[0]);
      TrailsGrow(setup, Act(setup, s, actions[0]), Account(setup, s, l, actions[0]), actions[1..]);
    }
  }

  lemma {:induction false} BooksSplit(setup: Setup, s: System, l: Ledger, first: seq<Action>, second: seq<Action>)
    ensures Ledgered(setup, s, l, first + second)
            == Ledgered(setup, Run(setup, s, first), Ledgered(setup, s, l, first), second)
    decreases |first|
  {
    if first == [] {
      assert first + second == second;
    } else {
      assert (first + second)[1..] == first[1..] + second;
      BooksSplit(setup, Act(setup, s, first[0]), Account(setup, s, l, first[0]), first[1..], second);
    }
  }

  /**
   On every run commands leave the outbox strictly in enqueue order: what has left, followed by what is
   queued, is a list of rising identifiers, and as the run goes on it only grows at its end.
   */
  lemma LeaveInEnqueueOrder(setup: Setup, next: nat, actions: seq<Action>, later: seq<Action>)
    requires setup.machine.Accepted()
    ensures var start, book := Start(setup, next), Opening(setup.machine);
            var now, end := Run(setup, start, actions).node, Run(setup, start, actions + later).node;
            var before, after := Ledgered(setup, start, book, actions), Ledgered(setup, start, book, actions + later);
            && Rising(Trail(now, before), now.next) && Trail(now, before) <= Trail(end, after)
            && before.departed <= after.departed
  {
    var start, book := Start(setup, next), Opening(setup.machine);
    assert Trail(start.node, book) == [];
    TrailsGrow(setup, start, book, actions);
    RunSplits(setup, start, actions, later);
    BooksSplit(setup, start, book, actions, later);
    var now, before := Run(setup, start, actions), Ledgered(setup, start, book, actions);
    TrailsGrow(setup, now, before, later);
    DepartedStay(setup, now, before, later);
  }

  lemma {:induction false} DepartedStay(setup: Setup, s: System, l: Ledger, actions: seq<Action>)
    ensures l.departed <= Ledgered(setup, s, l, actions).departed
    decreases |actions|
  {
    if actions != [] { DepartedStay(setup, Act(setup, s, actions[0]), Account(setup, s, l, actions[0]), actions[1..]); }
  }

  // --- Timers -----------------------------------------------------------------------------------

  ghost predicate SameTimer(f: Firing, g: Firing) { f.epoch == g.epoch && f.event == g.event }

  /** The deadline of the last firing of a timer in an epoch. */
  function LastAt(firings: seq<Firing>, epoch: nat, event: string): Option<int>
    decreases |firings|
  {
    if firings == [] then None
    else
      var last := firings[|firings| - 1];
      if last.epoch == epoch && last.event == event then Some(last.at) else LastAt(firings[..|firings| - 1], epoch, event)
  }

  /** Each firing is at another deadline than the one before it of the same timer and epoch. */
  ghost predicate Alternates(firings: seq<Firing>)
    decreases |firings|
  {
    firings == [] ||
    (var init, last := firings[..|firings| - 1], firings[|firings| - 1];
     Alternates(init) && LastAt(init, last.epoch, last.event) != Some(last.at))
  }

  /** The last firing of each timer in this epoch is the one the record remembers. */
  ghost predicate Remembered(n: Node, firings: seq<Firing>) {
    && (forall f | f in firings :: f.epoch <= n.record.epoch)
    && forall event: string :: Recalls(n.record.fired, LastAt(firings, n.record.epoch, event), event)
  }

  predicate Recalls(fired: map<string, int>, at: Option<int>, event: string) {
    at.Some? ==> event in fired && fired[event] == at.value
  }

  lemma {:induction false} LastFiring(firings: seq<Firing>, epoch: nat, event: string, i: nat) returns (last: nat)
    requires i < |firings| && firings[i].epoch == epoch && firings[i].event == event
    ensures i <= last < |firings| && firings[last].epoch == epoch && firings[last].event == event
    ensures LastAt(firings, epoch, event) == Some(firings[last].at)
    decreases |firings|
  {
    var end := |firings| - 1;
    if firings[end].epoch == epoch && firings[end].event == event {
      last := end;
    } else {
      last := LastFiring(firings[..end], epoch, event, i);
    }
  }

  lemma {:induction false} AlternatesBefore(firings: seq<Firing>, j: nat)
    requires Alternates(firings) && j < |firings|
    ensures LastAt(firings[..j], firings[j].epoch, firings[j].event) != Some(firings[j].at)
    decreases |firings|
  {
    var end := |firings| - 1;
    if j < end {
      assert firings[..end][..j] == firings[..j];
      AlternatesBefore(firings[..end], j);
    }
  }

  /** Between two firings of a timer at one deadline, in one epoch, it fired at another deadline. */
  lemma AlternationShows(firings: seq<Firing>, i: nat, j: nat) returns (k: nat)
    requires Alternates(firings) && i < j < |firings| && firings[i] == firings[j]
    ensures i < k < j && SameTimer(firings[k], firings[j]) && firings[k].at != firings[j].at
  {
    AlternatesBefore(firings, j);
    k := LastFiring(firings[..j], firings[j].epoch, firings[j].event, i);
  }

  lemma {:induction false} NewEpochIsBlank(firings: seq<Firing>, epoch: nat, event: string)
    requires forall f | f in firings :: f.epoch < epoch
    ensures LastAt(firings, epoch, event) == None
    decreases |firings|
  {
    if firings != [] {
      assert firings[|firings| - 1] in firings;
      forall f | f in firings[..|firings| - 1] ensures f.epoch < epoch { assert f in firings; }
      NewEpochIsBlank(firings[..|firings| - 1], epoch, event);
    }
  }

  lemma {:induction false} FirstDueIsPending(dues: seq<Due>, fired: map<string, int>, now: int)
    ensures var due := FirstDue(Unfired(dues, fired), now);
            due.Some? ==> Pending(fired, due.value) && due.value.at <= now && due.value in dues
  {
    if dues != [] {
      FirstDueIsPending(dues[1..], fired, now);
      assert Unfired(dues, fired)
          == (if Pending(fired, dues[0]) then [dues[0]] else []) + Unfired(dues[1..], fired);
      if Pending(fired, dues[0]) {
        assert Unfired(dues, fired)[1..] == Unfired(dues[1..], fired);
      } else {
        assert Unfired(dues, fired) == Unfired(dues[1..], fired);
      }
    }
  }

  lemma TransitionRemembers(setup: Setup, n: Node, firings: seq<Firing>, event: Event, tick: Tick)
    requires Remembered(n, firings) && Transition(setup, n, event, tick).Some?
    ensures Remembered(Transition(setup, n, event, tick).value, firings)
  {
    var after := Transition(setup, n, event, tick).value;
    if after.record.epoch > n.record.epoch {
      forall other: string ensures Recalls(after.record.fired, LastAt(firings, after.record.epoch, other), other) {
        NewEpochIsBlank(firings, after.record.epoch, other);
      }
    }
  }

  lemma LastAtAppended(firings: seq<Firing>, newest: Firing, epoch: nat, event: string)
    ensures LastAt(firings + [newest], epoch, event)
            == if newest.epoch == epoch && newest.event == event then Some(newest.at) else LastAt(firings, epoch, event)
  {
    assert (firings + [newest])[..|firings|] == firings;
  }

  /** A firing of a pending timer is at another deadline than the one the record remembers. */
  lemma AppendingAlternates(n: Node, firings: seq<Firing>, newest: Firing)
    requires Remembered(n, firings) && Alternates(firings) && newest.epoch == n.record.epoch
    requires Pending(n.record.fired, Due(newest.event, newest.at))
    ensures Alternates(firings + [newest])
  {
    assert (firings + [newest])[..|firings|] == firings;
    assert Recalls(n.record.fired, LastAt(firings, n.record.epoch, newest.event), newest.event);
  }

  lemma MarkingRemembers(n: Node, firings: seq<Firing>, due: Due)
    requires Remembered(n, firings)
    ensures Remembered(
              n.(record := n.record.(fired := n.record.fired[due.event := due.at])),
              firings + [Firing(n.record.epoch, due.event, due.at)])
  {
    var newest := Firing(n.record.epoch, due.event, due.at);
    var fired := n.record.fired[due.event := due.at];
    forall event: string ensures Recalls(fired, LastAt(firings + [newest], n.record.epoch, event), event) {
      LastAtAppended(firings, newest, n.record.epoch, event);
      assert Recalls(n.record.fired, LastAt(firings, n.record.epoch, event), event);
    }
  }

  lemma FiringAlternates(setup: Setup, n: Node, firings: seq<Firing>, tick: Tick)
    requires Remembered(n, firings) && Alternates(firings) && Fire(setup, n, tick).Fired?
    ensures var fire := Fire(setup, n, tick);
            var after := firings + [Firing(n.record.epoch, fire.due.event, fire.due.at)];
            Remembered(fire.node, after) && Alternates(after)
  {
    var due := Fire(setup, n, tick).due;
    var newest := Firing(n.record.epoch, due.event, due.at);
    FirstDueIsPending(setup.machine.Timers(n.record.state), n.record.fired, tick.now);
    AppendingAlternates(n, firings, newest);
    MarkingRemembers(n, firings, due);
    var marked := n.(record := n.record.(fired := n.record.fired[due.event := due.at]));
    TransitionRemembers(setup, marked, firings + [newest], Event(due.event, None), tick);
  }

  lemma FinishRemembers(setup: Setup, s: System, firings: seq<Firing>, ending: Ending)
    requires Remembered(s.node, firings)
    ensures Remembered(Finish(setup, s, ending).node, firings)
  {
    if s.inFlight.Some? && s.node.outbox != [] && ending.Answered? && ending.answer.Some?
       && Transition(setup, Behead(s.node), ending.answer.value, ending.tick).Some? {
      TransitionRemembers(setup, Behead(s.node), firings, ending.answer.value, ending.tick);
    }
  }

  lemma ArrivalRemembers(setup: Setup, s: System, firings: seq<Firing>, arrival: Arrival)
    requires Remembered(s.node, firings)
    ensures Remembered(Apply(setup, s, arrival).node, firings)
  {
    if Transition(setup, s.node, arrival.event, arrival.tick).Some? {
      TransitionRemembers(setup, s.node, firings, arrival.event, arrival.tick);
    }
  }

  lemma TockAlternates(setup: Setup, s: System, l: Ledger, tick: Tick)
    requires Remembered(s.node, l.firings) && Alternates(l.firings) && s.waking > 0
    ensures var book := Account(setup, s, l, Tock(tick));
            Remembered(Act(setup, s, Tock(tick)).node, book.firings) && Alternates(book.firings)
  {
    if Fire(setup, s.node, tick).Fired? { FiringAlternates(setup, s.node, l.firings, tick); }
  }

  /** Only a wake fires timers. */
  lemma OthersFireNothing(setup: Setup, s: System, l: Ledger, a: Action)
    requires s.waking == 0 || !a.Tock?
    ensures Account(setup, s, l, a).firings == l.firings
  {
  }

  lemma ActAlternates(setup: Setup, s: System, l: Ledger, a: Action)
    requires Remembered(s.node, l.firings) && Alternates(l.firings)
    ensures var book := Account(setup, s, l, a);
            Remembered(Act(setup, s, a).node, book.firings) && Alternates(book.firings)
  {
    if s.waking > 0 && a.Tock? {
      TockAlternates(setup, s, l, a.tick);
    } else {
      OthersFireNothing(setup, s, l, a);
      ActRemembers(setup, s, l.firings, a);
    }
  }

  lemma ActRemembers(setup: Setup, s: System, firings: seq<Firing>, a: Action)
    requires Remembered(s.node, firings) && (s.waking == 0 || !a.Tock?)
    ensures Remembered(Act(setup, s, a).node, firings)
  {
    match a
    case Arrive(arrival) => ArrivalRemembers(setup, s, firings, arrival);
    case End(ending) => FinishRemembers(setup, s, firings, ending);
    case _ =>
  }

  lemma {:induction false} FiringsAlternate(setup: Setup, s: System, l: Ledger, actions: seq<Action>)
    requires Remembered(s.node, l.firings) && Alternates(l.firings)
    ensures Remembered(Run(setup, s, actions).node, Ledgered(setup, s, l, actions).firings)
    ensures Alternates(Ledgered(setup, s, l, actions).firings)
    decreases |actions|
  {
    if actions == [] {
    } else {
      ActAlternates(setup, s, l, actions[0]);
      FiringsAlternate(setup, Act(setup, s, actions[0]), Account(setup, s, l, actions[0]), actions[1..]);
    }
  }

  /**
   On every run, within one visit, a timer never fires twice for one deadline without having fired for
   another one in between.
   */
  lemma TimersFireOncePerDeadline(setup: Setup, next: nat, actions: seq<Action>, i: nat, j: nat) returns (k: nat)
    requires var firings := Ledgered(setup, Start(setup, next), Opening(setup.machine), actions).firings;
             i < j < |firings| && firings[i] == firings[j]
    ensures var firings := Ledgered(setup, Start(setup, next), Opening(setup.machine), actions).firings;
            i < k < j && SameTimer(firings[k], firings[j]) && firings[k].at != firings[j].at
  {
    var start, book := Start(setup, next), Opening(setup.machine);
    FiringsAlternate(setup, start, book, actions);
    k := AlternationShows(Ledgered(setup, start, book, actions).firings, i, j);
  }
}
