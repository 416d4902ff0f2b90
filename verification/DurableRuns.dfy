/**
 Every run of a durable machine: what the environment may do between two commits, and what
 no order of it can break.

 The ledger is the observer's book. It records which resources were entered and finished,
 which resource each pending command still owes, the commands that left the outbox and the
 timers that fired; the runtime itself never reads it.
 */
module DurableRuns {
  import opened Options
  import opened Machines
  import opened MachineStores
  import opened Durables

  /** `Foreign` is another machine of the same store taking identifiers; `Crash` loses what only ran. */
  datatype Action =
    | Arrive(arrival: Arrival)
    | Look(now: int)
    | End(ending: Ending)
    | Alarm
    | Tock(tick: Tick)
    | Foreign(ids: nat)
    | Crash

  /** One commit. Nothing but a crash interrupts a wake's firings; only a free drain looks for work. */
  function Act(setup: Setup, s: System, a: Action): System {
    if s.waking > 0 then
      if a.Tock? then FireTimer(setup, s, a.tick) else if a.Crash? then s.(inFlight := None, waking := 0) else s
    else
      match a
      case Arrive(arrival) => Apply(setup, s, arrival)
      case Look(now) => if s.inFlight.Some? then s else Take(setup, s, now)
      case End(ending) => Finish(setup, s, ending)
      case Alarm => Ring(s)
      case Tock(_) => s
      case Foreign(ids) => s.(node := s.node.(next := s.node.next + ids))
      case Crash => s.(inFlight := None)
  }

  function Run(setup: Setup, s: System, actions: seq<Action>): System
    decreases |actions|
  {
    if actions == [] then s else Run(setup, Act(setup, s, actions[0]), actions[1..])
  }

  /** A fresh machine in a store that has already used some identifiers. */
  function Start(setup: Setup, next: nat): System {
    System(Node(Fresh(setup.machine), [], next), None, None, 0)
  }

  lemma {:induction false} RunSplits(setup: Setup, s: System, first: seq<Action>, second: seq<Action>)
    ensures Run(setup, s, first + second) == Run(setup, Run(setup, s, first), second)
    decreases |first|
  {
    if first == [] {
      assert first + second == second;
    } else {
      assert (first + second)[1..] == first[1..] + second;
      RunSplits(setup, Act(setup, s, first[0]), first[1..], second);
    }
  }

  /** The running command is the head of the outbox, and identifiers grow along it. */
  ghost predicate Good(setup: Setup, s: System) {
    && Sound(setup.machine, s.node)
    && (s.inFlight.Some? ==> s.node.outbox != [] && s.node.outbox[0] == s.inFlight.value)
    && s.waking <= MAX_FIRINGS
  }

  lemma TransitionStaysSound(setup: Setup, n: Node, event: Event, tick: Tick)
    requires setup.machine.Accepted() && Sound(setup.machine, n)
    ensures var after := Transition(setup, n, event, tick);
            after.Some? ==>
              && Sound(setup.machine, after.value)
              && n.outbox <= after.value.outbox
              && n.next + |after.value.outbox| - |n.outbox| == after.value.next
              && (forall i | |n.outbox| <= i < |after.value.outbox| ::
                    && after.value.outbox[i].id == n.next + i - |n.outbox|
                    && after.value.outbox[i].epoch == after.value.record.epoch
                    && after.value.outbox[i].attempts == 0)
  {
  }

  lemma ActStaysGood(setup: Setup, s: System, a: Action)
    requires setup.machine.Accepted() && Good(setup, s)
    ensures Good(setup, Act(setup, s, a))
  {
    if s.waking > 0 {
      if a.Tock? { FiringStaysGood(setup, s, a.tick); }
    } else {
      match a
      case Arrive(arrival) => TransitionStaysSound(setup, s.node, arrival.event, arrival.tick);
      case End(ending) => EndingStaysGood(setup, s, ending);
      case _ =>
    }
  }

  lemma FiringStaysGood(setup: Setup, s: System, tick: Tick)
    requires setup.machine.Accepted() && Good(setup, s) && s.waking > 0
    ensures Good(setup, FireTimer(setup, s, tick))
  {
    var due := FirstDue(PendingTimers(setup.machine, s.node.record), tick.now);
    if due.Some? {
      var marked := s.node.(record := s.node.record.(fired := s.node.record.fired[due.value.event := due.value.at]));
      TransitionStaysSound(setup, marked, Event(due.value.event, None), tick);
    }
  }

  lemma EndingStaysGood(setup: Setup, s: System, ending: Ending)
    requires setup.machine.Accepted() && Good(setup, s) && s.waking == 0
    ensures Good(setup, Finish(setup, s, ending))
  {
    if s.inFlight.Some? && ending.Answered? && ending.answer.Some? {
      TransitionStaysSound(setup, Behead(s.node), ending.answer.value, ending.tick);
    }
  }

  // --- The ledger -----------------------------------------------------------------------------

  datatype Firing = Firing(epoch: nat, event: string, at: int)
  datatype Ledger = Ledger(
    entered: multiset<string>,
    finished: multiset<string>,
    owed: seq<Option<string>>,
    departed: seq<nat>,
    firings: seq<Firing>)

  function Gained(m: Machine, from: string, to: string): set<string> {
    set r | r in m.Holds(to) && r !in m.Holds(from)
  }

  /** The new commands owe, from the last one back, the resources the move freed. */
  function Owing(posted: nat, freed: seq<string>): seq<Option<string>> {
    seq(posted, i requires 0 <= i < posted =>
      if posted - |freed| <= i && |freed| <= posted then Some(freed[i - (posted - |freed|)]) else None)
  }

  /** What a transition of `n` to `after` adds to the book. */
  function Books(m: Machine, l: Ledger, n: Node, after: Node): Ledger {
    var from, to := n.record.state.tag, after.record.state.tag;
    l.(entered := l.entered + multiset(Gained(m, from, to)),
       owed := l.owed + Owing(if |n.outbox| <= |after.outbox| then |after.outbox| - |n.outbox| else 0,
                              m.Freed(from, to)))
  }

  /** The head left the outbox; if its handler had succeeded, the resource it owed is finished. */
  function Left(l: Ledger, id: nat, succeeded: bool): Ledger {
    if l.owed == [] then l
    else l.(owed := l.owed[1..],
            departed := l.departed + [id],
            finished := l.finished + if succeeded && l.owed[0].Some? then multiset{l.owed[0].value} else multiset{})
  }

  function Account(setup: Setup, s: System, l: Ledger, a: Action): Ledger {
    var m := setup.machine;
    if s.waking > 0 then
      if a.Tock? then
        match Fire(setup, s.node, a.tick)
        case Fired(after, due) =>
          Books(m, l, s.node, after).(
            firings := l.firings + [Firing(s.node.record.epoch, due.event, due.at)])
        case _ => l
      else l
    else
      match a
      case Arrive(arrival) => Books(m, l, s.node, Apply(setup, s, arrival).node)
      case Look(now) =>
        if s.inFlight.None? && Looks(s.node, now).Skipped? then Left(l, s.node.outbox[0].id, false) else l
      case End(ending) =>
        if Continues(setup, s, ending) then
          Books(m, Left(l, s.node.outbox[0].id, true), Behead(s.node), Finish(setup, s, ending).node)
        else l
      case _ => l
  }

  function Ledgered(setup: Setup, s: System, l: Ledger, actions: seq<Action>): Ledger
    decreases |actions|
  {
    if actions == [] then l
    else Ledgered(setup, Act(setup, s, actions[0]), Account(setup, s, l, actions[0]), actions[1..])
  }

  /** The initial state counts as an entry into what it holds. */
  function Opening(m: Machine): Ledger {
    Ledger(multiset(set r | r in m.Holds(m.initial.tag)), multiset{}, [], [], [])
  }

  function Held(m: Machine, tag: string, r: string): nat { if r in m.Holds(tag) then 1 else 0 }

  // --- Release conservation ---------------------------------------------------------------------

  ghost predicate OwedAligned(n: Node, l: Ledger) {
    |l.owed| == |n.outbox| && forall i | 0 <= i < |l.owed| :: l.owed[i].Some? <==> n.outbox[i].release
  }

  /** Entered equals finished, plus still queued for release, plus held now. */
  predicate Balanced(m: Machine, tag: string, l: Ledger, r: string) {
    l.entered[r] == l.finished[r] + multiset(l.owed)[Some(r)] + Held(m, tag, r)
  }

  ghost predicate Conserved(m: Machine, n: Node, l: Ledger) {
    OwedAligned(n, l) && forall r: string :: Balanced(m, n.record.state.tag, l, r)
  }

  lemma {:induction false} OwingCounts(posted: nat, freed: seq<string>, r: string)
    requires |freed| <= posted
    ensures multiset(Owing(posted, freed))[Some(r)] == multiset(freed)[r]
  {
    var owing := Owing(posted, freed);
    if posted > |freed| {
      assert owing == [None] + Owing(posted - 1, freed);
      OwingCounts(posted - 1, freed, r);
    } else if freed != [] {
      assert owing == [Some(freed[0])] + Owing(posted - 1, freed[1..]);
      assert freed == [freed[0]] + freed[1..];
      OwingCounts(posted - 1, freed[1..], r);
    }
  }

  /** The book after a move balances for one resource: what was freed is owed, what was gained is entered. */
  lemma MoveBalances(m: Machine, from: string, to: string, l: Ledger, posted: nat, r: string)
    requires m.Accepted() && Balanced(m, from, l, r) && |m.Freed(from, to)| <= posted
    ensures Balanced(m, to, l.(entered := l.entered + multiset(Gained(m, from, to)),
                               owed := l.owed + Owing(posted, m.Freed(from, to))), r)
  {
    var freed := m.Freed(from, to);
    FreedExactlyOnce(m, from, to, r);
    OwingCounts(posted, freed, r);
    assert multiset(l.owed + Owing(posted, freed)) == multiset(l.owed) + multiset(Owing(posted, freed));
    assert multiset(Gained(m, from, to))[r] == if r in m.Holds(to) && r !in m.Holds(from) then 1 else 0;
  }

  lemma MoveAligns(setup: Setup, n: Node, l: Ledger, event: Event, tick: Tick)
    requires setup.machine.Accepted() && Sound(setup.machine, n) && OwedAligned(n, l)
    requires Transition(setup, n, event, tick).Some?
    ensures var after := Transition(setup, n, event, tick).value; OwedAligned(after, Books(setup.machine, l, n, after))
  {
    TransitionStaysSound(setup, n, event, tick);
    FreedAtMostPosted(setup, n, event, tick);
  }

  lemma BooksConserve(m: Machine, n: Node, after: Node, l: Ledger)
    requires m.Accepted() && Conserved(m, n, l) && OwedAligned(after, Books(m, l, n, after))
    requires |n.outbox| + |m.Freed(n.record.state.tag, after.record.state.tag)| <= |after.outbox|
    ensures Conserved(m, after, Books(m, l, n, after))
  {
    var from, to := n.record.state.tag, after.record.state.tag;
    forall r: string ensures Balanced(m, to, Books(m, l, n, after), r) {
      assert Balanced(m, from, l, r);
      MoveBalances(m, from, to, l, |after.outbox| - |n.outbox|, r);
    }
  }

  lemma MoveConserves(setup: Setup, n: Node, l: Ledger, event: Event, tick: Tick)
    requires setup.machine.Accepted() && Sound(setup.machine, n) && Conserved(setup.machine, n, l)
    requires Transition(setup, n, event, tick).Some?
    ensures var after := Transition(setup, n, event, tick).value;
            Conserved(setup.machine, after, Books(setup.machine, l, n, after))
  {
    MoveAligns(setup, n, l, event, tick);
    FreedAtMostPosted(setup, n, event, tick);
    BooksConserve(setup.machine, n, Transition(setup, n, event, tick).value, l);
  }

  lemma FreedAtMostPosted(setup: Setup, n: Node, event: Event, tick: Tick)
    requires setup.machine.Accepted() && Sound(setup.machine, n)
    requires Transition(setup, n, event, tick).Some?
    ensures var after := Transition(setup, n, event, tick).value;
            var freed := setup.machine.Freed(n.record.state.tag, after.record.state.tag);
            && |n.outbox| + |freed| <= |after.outbox|
            && (forall i | |n.outbox| <= i < |after.outbox| ::
                  after.outbox[i].release <==> |after.outbox| - |freed| <= i)
  {
    var m := setup.machine;
    var step := m.Answers(n.record.state, event, tick.facts);
    if !step.Moved? {
      KeepNothing(m.resources, set r | r in m.Holds(n.record.state.tag) && r !in m.Holds(n.record.state.tag));
    }
  }

  lemma {:induction false} KeepNothing(xs: seq<string>, s: set<string>)
    requires s == {}
    ensures Keep(xs, s) == []
  {
    if xs != [] {
      KeepNothing(xs[1..], s);
    }
  }

  lemma BeheadConserves(m: Machine, n: Node, l: Ledger, id: nat, succeeded: bool)
    requires Conserved(m, n, l) && n.outbox != []
    requires succeeded || !n.outbox[0].release
    ensures Conserved(m, Behead(n), Left(l, id, succeeded))
  {
    assert l.owed == [l.owed[0]] + l.owed[1..];
    assert multiset(l.owed) == multiset{l.owed[0]} + multiset(l.owed[1..]);
    forall r: string ensures Balanced(m, n.record.state.tag, Left(l, id, succeeded), r) {
      assert Balanced(m, n.record.state.tag, l, r);
    }
  }

  lemma FiringConserves(setup: Setup, n: Node, l: Ledger, tick: Tick)
    requires setup.machine.Accepted() && Sound(setup.machine, n) && Conserved(setup.machine, n, l)
    requires Fire(setup, n, tick).Fired?
    ensures var after := Fire(setup, n, tick).node;
            Conserved(setup.machine, after, Books(setup.machine, l, n, after))
  {
    var due := Fire(setup, n, tick).due;
    var marked := n.(record := n.record.(fired := n.record.fired[due.event := due.at]));
    MoveConserves(setup, marked, l, Event(due.event, None), tick);
  }

  lemma SettlingConserves(setup: Setup, n: Node, l: Ledger, entry: Entry, answer: Option<Event>, tick: Tick)
    requires setup.machine.Accepted() && Sound(setup.machine, n) && Conserved(setup.machine, n, l)
    requires n.outbox != [] && Settled(setup, n, entry, answer, tick).Some?
    ensures var left := Left(l, n.outbox[0].id, true);
            var after := Settled(setup, n, entry, answer, tick).value;
            Conserved(setup.machine, after, Books(setup.machine, left, Behead(n), after))
  {
    BeheadConserves(setup.machine, n, l, n.outbox[0].id, true);
    var left := Left(l, n.outbox[0].id, true);
    if answer.Some? && n.record.epoch == entry.epoch {
      MoveConserves(setup, Behead(n), left, answer.value, tick);
    } else {
      StandingStillConserves(setup.machine, Behead(n), left);
    }
  }

  lemma RetryConserves(setup: Setup, n: Node, l: Ledger, entry: Entry, now: int)
    requires Conserved(setup.machine, n, l) && n.outbox != []
    ensures Conserved(setup.machine, Retry(setup, n, entry, now), l)
  {
  }

  lemma AnswerConserves(setup: Setup, s: System, l: Ledger, answer: Option<Event>, tick: Tick)
    requires setup.machine.Accepted() && Good(setup, s) && Conserved(setup.machine, s.node, l)
    requires s.waking == 0 && s.inFlight.Some?
    ensures Conserved(setup.machine, Finish(setup, s, Answered(answer, tick)).node,
                      Account(setup, s, l, End(Answered(answer, tick))))
  {
    if Settled(setup, s.node, s.inFlight.value, answer, tick).Some? {
      SettlingConserves(setup, s.node, l, s.inFlight.value, answer, tick);
    }
  }

  lemma EndingConserves(setup: Setup, s: System, l: Ledger, ending: Ending)
    requires setup.machine.Accepted() && Good(setup, s) && Conserved(setup.machine, s.node, l)
    requires s.waking == 0
    ensures Conserved(setup.machine, Finish(setup, s, ending).node, Account(setup, s, l, End(ending)))
  {
    if s.inFlight.None? || ending.Interrupted? {
    } else if ending.Broke? {
      RetryConserves(setup, s.node, l, s.inFlight.value, ending.now);
    } else {
      AnswerConserves(setup, s, l, ending.answer, ending.tick);
    }
  }

  lemma ActConserves(setup: Setup, s: System, l: Ledger, a: Action)
    requires setup.machine.Accepted() && Good(setup, s) && Conserved(setup.machine, s.node, l)
    ensures Conserved(setup.machine, Act(setup, s, a).node, Account(setup, s, l, a))
  {
    if s.waking > 0 {
      if a.Tock? { TockConserves(setup, s, l, a.tick); }
    } else {
      match a
      case Arrive(arrival) => ArrivalConserves(setup, s, l, arrival);
      case Look(now) => LookConserves(setup, s, l, now);
      case End(ending) => EndingConserves(setup, s, l, ending);
      case _ => assert Account(setup, s, l, a) == l;
    }
  }

  /** What fired is not part of the balance. */
  lemma FiringsDoNotCount(m: Machine, n: Node, l: Ledger, firings: seq<Firing>)
    requires Conserved(m, n, l)
    ensures Conserved(m, n, l.(firings := firings))
  {
    forall r: string ensures Balanced(m, n.record.state.tag, l.(firings := firings), r) {
      assert Balanced(m, n.record.state.tag, l, r);
    }
  }

  lemma TockConserves(setup: Setup, s: System, l: Ledger, tick: Tick)
    requires setup.machine.Accepted() && Good(setup, s) && Conserved(setup.machine, s.node, l) && s.waking > 0
    ensures Conserved(setup.machine, FireTimer(setup, s, tick).node, Account(setup, s, l, Tock(tick)))
  {
    var fire := Fire(setup, s.node, tick);
    if fire.Fired? {
      FiringConserves(setup, s.node, l, tick);
      FiringsDoNotCount(setup.machine, fire.node, Books(setup.machine, l, s.node, fire.node),
                        l.firings + [Firing(s.node.record.epoch, fire.due.event, fire.due.at)]);
    }
  }

  lemma LookConserves(setup: Setup, s: System, l: Ledger, now: int)
    requires Good(setup, s) && Conserved(setup.machine, s.node, l) && s.waking == 0
    ensures Conserved(setup.machine, Act(setup, s, Look(now)).node, Account(setup, s, l, Look(now)))
  {
    if s.inFlight.None? && Looks(s.node, now).Skipped? {
      BeheadConserves(setup.machine, s.node, l, s.node.outbox[0].id, false);
    }
  }

  lemma ArrivalConserves(setup: Setup, s: System, l: Ledger, arrival: Arrival)
    requires setup.machine.Accepted() && Good(setup, s) && Conserved(setup.machine, s.node, l)
    ensures var after := Apply(setup, s, arrival).node;
            Conserved(setup.machine, after, Books(setup.machine, l, s.node, after))
  {
    if Transition(setup, s.node, arrival.event, arrival.tick).Some? && !arrival.hostThrows {
      MoveConserves(setup, s.node, l, arrival.event, arrival.tick);
    } else {
      StandingStillConserves(setup.machine, s.node, l);
    }
  }

  lemma StandingStillConserves(m: Machine, n: Node, l: Ledger)
    requires Conserved(m, n, l)
    ensures Books(m, l, n, n) == l
  {
    var tag := n.record.state.tag;
    KeepNothing(m.resources, set r | r in m.Holds(tag) && r !in m.Holds(tag));
    assert Gained(m, tag, tag) == {};
    assert l.owed + Owing(0, []) == l.owed;
  }

  lemma {:induction false} RunConserves(setup: Setup, s: System, l: Ledger, actions: seq<Action>)
    requires setup.machine.Accepted() && Good(setup, s) && Conserved(setup.machine, s.node, l)
    ensures Good(setup, Run(setup, s, actions))
    ensures Conserved(setup.machine, Run(setup, s, actions).node, Ledgered(setup, s, l, actions))
    decreases |actions|
  {
    if actions == [] {
    } else {
      ActStaysGood(setup, s, actions[0]);
      ActConserves(setup, s, l, actions[0]);
      RunConserves(setup, Act(setup, s, actions[0]), Account(setup, s, l, actions[0]), actions[1..]);
    }
  }

  // --- What is owed is what is queued ----------------------------------------------------------------------

  /** The command is the release of this resource, built from a state that held it. */
  ghost predicate Frees(m: Machine, command: Command, r: string) {
    exists from: State :: command == m.release(r, from) && r in m.Holds(from.tag)
  }

  /** Every resource owed is owed by a queued command that frees it. */
  ghost predicate OwedFrees(m: Machine, n: Node, l: Ledger) {
    |l.owed| == |n.outbox|
    && forall i | 0 <= i < |l.owed| && l.owed[i].Some? :: Frees(m, n.outbox[i].command, l.owed[i].value)
  }

  /** The move queues, last, one command for each resource it frees. */
  ghost predicate MoveFrees(m: Machine, n: Node, after: Node) {
    var freed := m.Freed(n.record.state.tag, after.record.state.tag);
    && n.outbox <= after.outbox && |freed| <= |after.outbox| - |n.outbox|
    && forall j | 0 <= j < |freed| :: Frees(m, after.outbox[|after.outbox| - |freed| + j].command, freed[j])
  }

  lemma {:induction false} KeepHasNoOther(xs: seq<string>, s: set<string>, r: string)
    requires r in Keep(xs, s)
    ensures r in s
  {
    if xs[0] !in s || r != xs[0] { KeepHasNoOther(xs[1..], s, r); }
  }

  lemma TransitionFrees(setup: Setup, n: Node, event: Event, tick: Tick)
    requires setup.machine.Accepted() && Sound(setup.machine, n) && Transition(setup, n, event, tick).Some?
    ensures MoveFrees(setup.machine, n, Transition(setup, n, event, tick).value)
  {
    var m, after := setup.machine, Transition(setup, n, event, tick).value;
    TransitionStaysSound(setup, n, event, tick);
    FreedAtMostPosted(setup, n, event, tick);
    var from, freed := n.record.state, m.Freed(n.record.state.tag, after.record.state.tag);
    forall j | 0 <= j < |freed| ensures Frees(m, after.outbox[|after.outbox| - |freed| + j].command, freed[j]) {
      KeepHasNoOther(m.resources, (set r | r in m.Holds(from.tag) && r !in m.Holds(after.record.state.tag)), freed[j]);
      FreedCommand(setup, n, event, tick, j);
      assert after.outbox[|after.outbox| - |freed| + j].command == m.release(freed[j], from);
    }
  }

  lemma FreedCommand(setup: Setup, n: Node, event: Event, tick: Tick, j: nat)
    requires setup.machine.Accepted() && Sound(setup.machine, n) && Transition(setup, n, event, tick).Some?
    requires var after := Transition(setup, n, event, tick).value;
             j < |setup.machine.Freed(n.record.state.tag, after.record.state.tag)|
    ensures var after := Transition(setup, n, event, tick).value;
            var freed := setup.machine.Freed(n.record.state.tag, after.record.state.tag);
            && |freed| <= |after.outbox|
            && after.outbox[|after.outbox| - |freed| + j].command == setup.machine.release(freed[j], n.record.state)
  {
    var m := setup.machine;
    FreedAtMostPosted(setup, n, event, tick);
    if !m.Answers(n.record.state, event, tick.facts).Moved? {
      KeepNothing(m.resources, set r | r in m.Holds(n.record.state.tag) && r !in m.Holds(n.record.state.tag));
    }
  }

  lemma BooksFree(m: Machine, n: Node, after: Node, l: Ledger)
    requires OwedFrees(m, n, l) && MoveFrees(m, n, after)
    ensures OwedFrees(m, after, Books(m, l, n, after))
  {
    var freed, book := m.Freed(n.record.state.tag, after.record.state.tag), Books(m, l, n, after);
    var posted := |after.outbox| - |n.outbox|;
    forall i | 0 <= i < |book.owed| && book.owed[i].Some? ensures Frees(m, after.outbox[i].command, book.owed[i].value) {
      if i < |n.outbox| {
        assert after.outbox[i] == n.outbox[i] && book.owed[i] == l.owed[i];
      } else {
        var j := i - |n.outbox| - (posted - |freed|);
        assert book.owed[i] == Owing(posted, freed)[i - |n.outbox|] == Some(freed[j]);
        assert i == |after.outbox| - |freed| + j;
      }
    }
  }

  lemma StillnessFrees(m: Machine, n: Node)
    ensures MoveFrees(m, n, n)
  {
    KeepNothing(m.resources, set r | r in m.Holds(n.record.state.tag) && r !in m.Holds(n.record.state.tag));
  }

  lemma SettlingFrees(setup: Setup, n: Node, entry: Entry, answer: Option<Event>, tick: Tick)
    requires setup.machine.Accepted() && Sound(setup.machine, n)
    requires n.outbox != [] && Settled(setup, n, entry, answer, tick).Some?
    ensures MoveFrees(setup.machine, Behead(n), Settled(setup, n, entry, answer, tick).value)
  {
    if answer.Some? && n.record.epoch == entry.epoch {
      TransitionFrees(setup, Behead(n), answer.value, tick);
    } else {
      StillnessFrees(setup.machine, Behead(n));
    }
  }

  lemma ArrivalFrees(setup: Setup, s: System, arrival: Arrival)
    requires setup.machine.Accepted() && Good(setup, s)
    ensures MoveFrees(setup.machine, s.node, Apply(setup, s, arrival).node)
  {
    if Transition(setup, s.node, arrival.event, arrival.tick).Some? && !arrival.hostThrows {
      TransitionFrees(setup, s.node, arrival.event, arrival.tick);
    } else {
      StillnessFrees(setup.machine, s.node);
    }
  }

  lemma FiringFrees(setup: Setup, n: Node, tick: Tick)
    requires setup.machine.Accepted() && Sound(setup.machine, n) && Fire(setup, n, tick).Fired?
    ensures MoveFrees(setup.machine, n, Fire(setup, n, tick).node)
  {
    var due := Fire(setup, n, tick).due;
    var marked := n.(record := n.record.(fired := n.record.fired[due.event := due.at]));
    TransitionFrees(setup, marked, Event(due.event, None), tick);
  }

  lemma EndFrees(setup: Setup, s: System, l: Ledger, ending: Ending)
    requires setup.machine.Accepted() && Good(setup, s) && OwedFrees(setup.machine, s.node, l) && s.waking == 0
    ensures OwedFrees(setup.machine, Finish(setup, s, ending).node, Account(setup, s, l, End(ending)))
  {
    if s.inFlight.Some? && ending.Answered? && Settled(setup, s.node, s.inFlight.value, ending.answer, ending.tick).Some? {
      SettlingFrees(setup, s.node, s.inFlight.value, ending.answer, ending.tick);
      BooksFree(setup.machine, Behead(s.node), Finish(setup, s, ending).node, Left(l, s.node.outbox[0].id, true));
    }
  }

  lemma ActFrees(setup: Setup, s: System, l: Ledger, a: Action)
    requires setup.machine.Accepted() && Good(setup, s) && OwedFrees(setup.machine, s.node, l)
    ensures OwedFrees(setup.machine, Act(setup, s, a).node, Account(setup, s, l, a))
  {
    if s.waking > 0 {
      if a.Tock? && Fire(setup, s.node, a.tick).Fired? {
        FiringFrees(setup, s.node, a.tick);
        BooksFree(setup.machine, s.node, Fire(setup, s.node, a.tick).node, l);
      }
    } else {
      match a
      case Arrive(arrival) =>
        ArrivalFrees(setup, s, arrival);
        BooksFree(setup.machine, s.node, Apply(setup, s, arrival).node, l);
      case End(ending) => EndFrees(setup, s, l, ending);
      case _ =>
    }
  }

  lemma {:induction false} RunFrees(setup: Setup, s: System, l: Ledger, actions: seq<Action>)
    requires setup.machine.Accepted() && Good(setup, s) && OwedFrees(setup.machine, s.node, l)
    ensures OwedFrees(setup.machine, Run(setup, s, actions).node, Ledgered(setup, s, l, actions))
    decreases |actions|
  {
    if actions != [] {
      ActStaysGood(setup, s, actions[0]);
      ActFrees(setup, s, l, actions[0]);
      RunFrees(setup, Act(setup, s, actions[0]), Account(setup, s, l, actions[0]), actions[1..]);
    }
  }

  /**
   On every run, through failures, throws and crashes: for each resource, the entries into
   holding it equal the releases whose handler succeeded, plus those still in the outbox, plus
   one if the current state holds it. And what the outbox is counted for is what it holds: a queued
   command is a release exactly if it owes a resource, and then it is the release of that resource.
   */
  lemma ReleaseConservation(setup: Setup, next: nat, actions: seq<Action>, r: string)
    requires setup.machine.Accepted()
    ensures var end := Run(setup, Start(setup, next), actions).node;
            var l := Ledgered(setup, Start(setup, next), Opening(setup.machine), actions);
            && OwedAligned(end, l) && OwedFrees(setup.machine, end, l)
            && l.entered[r]
               == l.finished[r] + multiset(l.owed)[Some(r)] + Held(setup.machine, end.record.state.tag, r)
  {
    OpeningConserves(setup, next);
    RunConserves(setup, Start(setup, next), Opening(setup.machine), actions);
    RunFrees(setup, Start(setup, next), Opening(setup.machine), actions);
    assert Balanced(setup.machine, Run(setup, Start(setup, next), actions).node.record.state.tag,
                    Ledgered(setup, Start(setup, next), Opening(setup.machine), actions), r);
  }

  lemma OpeningConserves(setup: Setup, next: nat)
    ensures Conserved(setup.machine, Start(setup, next).node, Opening(setup.machine))
  {
    var m := setup.machine;
    forall r: string ensures Balanced(m, m.initial.tag, Opening(m), r) {
      assert multiset(set x | x in m.Holds(m.initial.tag))[r] == if r in m.Holds(m.initial.tag) then 1 else 0;
    }
  }

  /** A drained machine whose state holds nothing has released everything it ever entered. */
  lemma NothingLeaks(setup: Setup, next: nat, actions: seq<Action>)
    requires setup.machine.Accepted()
    ensures var end := Run(setup, Start(setup, next), actions).node;
            var l := Ledgered(setup, Start(setup, next), Opening(setup.machine), actions);
            end.outbox == [] && setup.machine.Holds(end.record.state.tag) == [] ==> l.entered == l.finished
  {
    OpeningConserves(setup, next);
    RunConserves(setup, Start(setup, next), Opening(setup.machine), actions);
    var end := Run(setup, Start(setup, next), actions).node;
    var l := Ledgered(setup, Start(setup, next), Opening(setup.machine), actions);
    if end.outbox == [] && setup.machine.Holds(end.record.state.tag) == [] {
      forall r: string ensures l.entered[r] == l.finished[r] {
        assert Balanced(setup.machine, end.record.state.tag, l, r);
      }
    }
  }
}
