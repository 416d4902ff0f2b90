/**
 The durable runtime in place: a `Runtime` reads and rewrites one machine's rows of a shared
 store inside transactions, and keeps the alarm and the running command. Each method does
 what the function of the same name in `Durables` says, and leaves other machines alone.
 */
module DurableRuntime {
  import opened Options
  import opened Machines
  import opened MachineStores
  import D = Durables
  import DurableAlarm
  import DurableMoves
  import DurableRuns

  /** What another machine in the same store has: its rows, its state, and identifiers to come. */
  ghost predicate Keeps(key: string, before: Snapshot, after: Snapshot) {
    && before.next <= after.next
    && (forall k | k != key :: Queue(after.rows, k) == Queue(before.rows, k))
    && (forall k | k != key :: k in after.states <==> k in before.states)
    && (forall k | k != key && k in before.states :: k in after.states && after.states[k] == before.states[k])
  }

  lemma KeepsOn(key: string, a: Snapshot, b: Snapshot, c: Snapshot)
    requires Keeps(key, a, b) && Keeps(key, b, c)
    ensures Keeps(key, a, c)
  {
  }

  class Runtime {
    const setup: D.Setup
    const key: string
    const store: MemoryStore
    var armed: Option<int>
    var inFlight: Option<Entry>

    constructor (setup: D.Setup, key: string, store: MemoryStore)
      ensures this.setup == setup && this.key == key && this.store == store
      ensures armed == None && inFlight == None
    {
      this.setup, this.key, this.store := setup, key, store;
      armed, inFlight := None, None;
    }

    function Node(): D.Node reads store { D.NodeOf(store.Db(), key, setup.machine) }

    function View(): D.System reads this, store { D.System(Node(), inFlight, armed, 0) }

    ghost predicate Valid() reads this, store {
      && setup.machine.Accepted()
      && store.Valid() && store.depth == 0
      && DurableRuns.Good(setup, View())
    }

    ghost predicate OthersKeep(before: Snapshot) reads this, store { Keeps(key, before, store.Db()) }

    method Load() returns (record: Stored)
      ensures record == Node().record
    {
      record := if key in store.states then store.states[key] else D.Fresh(setup.machine);
    }

    /** One transition inside the caller's transaction, from the record it read. */
    method Transition(record: Stored, event: Event, tick: D.Tick) returns (step: Step)
      requires store.Valid() && record == Node().record
      modifies store`states, store`rows, store`next
      ensures store.Valid() && OthersKeep(old(store.Db()))
      ensures D.Transition(setup, old(Node()), event, tick) == if step.Threw? then None else Some(Node())
      ensures step.Threw? ==> store.Db() == old(store.Db())
      ensures DurableMoves.AsTabled(setup, old(Node()), event, tick, if step.Threw? then None else Some(Node()))
    {
      ghost var before := Node();
      step := Advance(record, event, tick);
      DurableMoves.TransitionsFollowTheTable(setup, before, event, tick);
    }

    /** The step the machine answers with, taken. */
    method Advance(record: Stored, event: Event, tick: D.Tick) returns (step: Step)
      requires store.Valid() && record == Node().record
      modifies store`states, store`rows, store`next
      ensures store.Valid() && OthersKeep(old(store.Db()))
      ensures D.Transition(setup, old(Node()), event, tick) == if step.Threw? then None else Some(Node())
      ensures step.Threw? ==> store.Db() == old(store.Db())
    {
      step := setup.machine.Answers(record.state, event, tick.facts);
      if step.Moved? { Move(record, step.to, step.planned, step.entered, tick.now); }
    }

    /** The move of a step: the state is saved, and what it planned joins the outbox. */
    method Move(record: Stored, to: State, planned: seq<Planned>, entered: bool, now: int)
      requires store.Valid() && record == Node().record
      modifies store`states, store`rows, store`next
      ensures store.Valid() && OthersKeep(old(store.Db()))
      ensures var epoch := if entered then record.epoch + 1 else record.epoch;
              Node() == D.Node(Stored(to, epoch, if entered then map[] else record.fired),
                               old(Node()).outbox + D.Posted(planned, epoch, now + setup.recoveryDelay, old(Node()).next),
                               old(Node()).next + |planned|)
    {
      var epoch := if entered then record.epoch + 1 else record.epoch;
      ghost var before := store.Db();
      Save(Stored(to, epoch, if entered then map[] else record.fired));
      ghost var saved := store.Db();
      Post(planned, epoch, now + setup.recoveryDelay);
      KeepsOn(key, before, saved, store.Db());
    }

    method Save(record: Stored)
      requires store.Valid()
      modifies store`states
      ensures store.Valid() && OthersKeep(old(store.Db())) && Node() == old(Node()).(record := record)
    {
      store.Save(key, record);
    }

    /** Enqueues what a step planned, in order. */
    method Post(planned: seq<Planned>, epoch: nat, due: int)
      requires store.Valid()
      modifies store`rows, store`next
      ensures store.Valid() && OthersKeep(old(store.Db()))
      ensures Node() == old(Node()).(outbox := old(Node()).outbox + D.Posted(planned, epoch, due, old(Node()).next),
                                     next := old(Node()).next + |planned|)
    {
      ghost var posted := D.Posted(planned, epoch, due, store.next);
      for i := 0 to |planned|
        invariant store.Valid() && store.next == old(store.next) + i
        invariant Queue(store.rows, key) == old(Queue(store.rows, key)) + posted[..i]
        invariant forall k | k != key :: Queue(store.rows, k) == old(Queue(store.rows, k))
      {
        var id := store.Enqueue(key, planned[i].command, epoch, planned[i].release, due);
        assert posted[..i + 1] == posted[..i] + [posted[i]];
      }
      assert posted[..|posted|] == posted;
    }

    /** No time exactly if no timer is pending and no command queued; else the first time of them all. */
    method NextWake() returns (at: Option<int>)
      ensures at.None? <==> D.PendingTimers(setup.machine, Node().record) == [] && Queue(store.rows, key) == []
      ensures at.Some? ==>
                && (forall due | due in D.PendingTimers(setup.machine, Node().record) :: at.value <= due.at)
                && (Queue(store.rows, key) != [] ==> at.value <= Queue(store.rows, key)[0].due)
                && ((Queue(store.rows, key) != [] && at.value == Queue(store.rows, key)[0].due)
                    || exists due :: due in D.PendingTimers(setup.machine, Node().record) && at.value == due.at)
      ensures at == D.NextWake(setup.machine, Node())
    {
      var record := Load();
      var timers := D.PendingTimers(setup.machine, record);
      var queue := Queue(store.rows, key);
      at := D.Least(seq(|timers|, i requires 0 <= i < |timers| => timers[i].at)
                    + if queue == [] then [] else [queue[0].due]);
      DurableAlarm.NextWakeIsEarliest(setup.machine, Node());
    }

    method Arm()
      modifies this`armed
      ensures armed == D.NextWake(setup.machine, Node())
    {
      armed := NextWake();
    }

    /** One event in one transaction; a throw of the step or of the host's writes undoes both. */
    method Apply(arrival: D.Arrival) returns (threw: bool)
      requires Valid()
      modifies this`armed, store
      ensures Valid() && OthersKeep(old(store.Db()))
      ensures View() == D.Apply(setup, old(View()), arrival)
      ensures threw <==> arrival.hostThrows || D.Transition(setup, old(Node()), arrival.event, arrival.tick).None?
      ensures threw ==> View() == old(View())
      ensures !arrival.hostThrows ==>
                DurableMoves.AsTabled(setup, old(Node()), arrival.event, arrival.tick, if threw then None else Some(Node()))
    {
      DurableRuns.ActStaysGood(setup, View(), DurableRuns.Arrive(arrival));
      threw := Commit(arrival);
    }

    /** The transaction, and the alarm if it committed. */
    method Commit(arrival: D.Arrival) returns (threw: bool)
      requires store.Valid() && store.depth == 0
      modifies this`armed, store
      ensures store.Valid() && store.depth == 0 && OthersKeep(old(store.Db()))
      ensures View() == D.Apply(setup, old(View()), arrival)
      ensures threw <==> arrival.hostThrows || D.Transition(setup, old(Node()), arrival.event, arrival.tick).None?
      ensures threw ==> View() == old(View())
      ensures !arrival.hostThrows ==>
                DurableMoves.AsTabled(setup, old(Node()), arrival.event, arrival.tick, if threw then None else Some(Node()))
    {
      threw := Attempt(arrival);
      if !threw { Arm(); }
    }

    /** The transaction of an arrival. */
    method Attempt(arrival: D.Arrival) returns (threw: bool)
      requires store.Valid() && store.depth == 0
      modifies store
      ensures store.Valid() && store.depth == 0 && OthersKeep(old(store.Db()))
      ensures var after := D.Transition(setup, old(Node()), arrival.event, arrival.tick);
              && (threw <==> arrival.hostThrows || after.None?)
              && Node() == if threw then old(Node()) else after.value
      ensures !arrival.hostThrows ==>
                DurableMoves.AsTabled(setup, old(Node()), arrival.event, arrival.tick, if threw then None else Some(Node()))
    {
      var saved := store.Begin();
      var record := Load();
      var step := Transition(record, arrival.event, arrival.tick);
      threw := step.Threw? || arrival.hostThrows;
      store.End(saved, threw);
    }

    /** The next command to run, dropping a stale one that is not a release. */
    method Take(now: int) returns (taken: D.Taken)
      requires Valid() && inFlight == None
      modifies this`armed, this`inFlight, store
      ensures Valid() && OthersKeep(old(store.Db()))
      ensures taken == D.Looks(old(Node()), now) && View() == D.Take(setup, old(View()), now)
      ensures var outbox := old(Node()).outbox;
              taken.Handed? <==> outbox != [] && (outbox[0].release || outbox[0].epoch == old(Node()).record.epoch)
                                 && (outbox[0].attempts == 0 || outbox[0].due <= now)
      ensures taken.Handed? ==> inFlight == Some(old(Node()).outbox[0]) && Node() == old(Node())
    {
      var saved := store.Begin();
      DurableRuns.ActStaysGood(setup, View(), DurableRuns.Look(now));
      var queue := Queue(store.rows, key);
      if queue == [] {
        taken := D.Idle;
      } else {
        var entry := queue[0];
        var record := Load();
        if !entry.release && entry.epoch != record.epoch {
          RemoveHead(entry.id);
          taken := D.Skipped;
        } else if entry.attempts > 0 && entry.due > now {
          taken := D.Idle;
        } else {
          taken := D.Handed(entry);
        }
      }
      store.End(saved, false);
      if taken.Skipped? { Arm(); }
      if taken.Handed? { inFlight := Some(taken.entry); }
    }

    method RemoveHead(id: nat)
      requires store.Valid() && Node().outbox != [] && Node().outbox[0].id == id
      modifies store`rows
      ensures store.Valid() && OthersKeep(old(store.Db())) && Node() == D.Behead(old(Node()))
    {
      forall k ensures Queue(Without(store.rows, id), k)
                       == if k == key then Queue(store.rows, key)[1..] else Queue(store.rows, k) {
        RemovingTheHead(store.rows, key, store.next, k);
      }
      store.Remove(id);
    }

    /** The transaction after a handler succeeded. */
    method Settle(entry: Entry, answer: Option<Event>, tick: D.Tick) returns (threw: bool)
      requires store.Valid() && store.depth == 0 && Node().outbox != [] && Node().outbox[0].id == entry.id
      modifies store
      ensures store.Valid() && store.depth == 0 && OthersKeep(old(store.Db()))
      ensures var after := D.Settled(setup, old(Node()), entry, answer, tick);
              && (threw <==> after.None?)
              && Node() == if after.Some? then after.value else old(Node())
    {
      var saved := store.Begin();
      RemoveHead(entry.id);
      var record := Load();
      threw := false;
      if answer.Some? && record.epoch == entry.epoch {
        var step := Transition(record, answer.value, tick);
        threw := step.Threw?;
      }
      store.End(saved, threw);
    }

    /** The transaction after it failed. */
    method Postpone(entry: Entry, now: int)
      requires store.Valid() && store.depth == 0 && Node().outbox != [] && Node().outbox[0].id == entry.id
      modifies store
      ensures store.Valid() && store.depth == 0 && OthersKeep(old(store.Db()))
      ensures Node() == D.Retry(setup, old(Node()), entry, now)
    {
      var attempt := entry.attempts + 1;
      var due := now + setup.retryDelay(attempt);
      OnlyTheHeadIsRescheduled(store.rows, key, store.next, attempt, due);
      var saved := store.Begin();
      store.Reschedule(entry.id, attempt, due);
      store.End(saved, false);
    }

    /** After the handler: remove the command and apply its answer, or schedule its retry. */
    method Finish(ending: D.Ending) returns (goesOn: bool)
      requires Valid() && inFlight.Some?
      modifies this`armed, this`inFlight, store
      ensures Valid() && OthersKeep(old(store.Db())) && inFlight == None
      ensures View() == D.Finish(setup, old(View()), ending)
      ensures goesOn <==> D.Continues(setup, old(View()), ending)
    {
      DurableRuns.ActStaysGood(setup, View(), DurableRuns.End(ending));
      goesOn := Record(ending);
    }

    method Record(ending: D.Ending) returns (goesOn: bool)
      requires store.Valid() && store.depth == 0
      requires inFlight.Some? && Node().outbox != [] && Node().outbox[0].id == inFlight.value.id
      modifies this`armed, this`inFlight, store
      ensures store.Valid() && store.depth == 0 && OthersKeep(old(store.Db())) && inFlight == None
      ensures View() == D.Finish(setup, old(View()), ending)
      ensures goesOn <==> D.Continues(setup, old(View()), ending)
    {
      var entry := inFlight.value;
      inFlight := None;
      goesOn := false;
      if ending.Broke? {
        Fail(entry, ending.now);
      } else if ending.Answered? {
        goesOn := Succeed(entry, ending.answer, ending.tick);
      }
    }

    method Fail(entry: Entry, now: int)
      requires store.Valid() && store.depth == 0 && Node().outbox != [] && Node().outbox[0].id == entry.id
      modifies this`armed, store
      ensures store.Valid() && store.depth == 0 && OthersKeep(old(store.Db()))
      ensures Node() == D.Retry(setup, old(Node()), entry, now) && armed == D.NextWake(setup.machine, Node())
    {
      Postpone(entry, now);
      Arm();
    }

    method Succeed(entry: Entry, answer: Option<Event>, tick: D.Tick) returns (goesOn: bool)
      requires store.Valid() && store.depth == 0 && Node().outbox != [] && Node().outbox[0].id == entry.id
      modifies this`armed, store
      ensures store.Valid() && store.depth == 0 && OthersKeep(old(store.Db()))
      ensures var after := D.Settled(setup, old(Node()), entry, answer, tick);
              && (goesOn <==> after.Some?)
              && Node() == (if after.Some? then after.value else old(Node()))
              && armed == (if after.Some? then D.NextWake(setup.machine, Node()) else old(armed))
    {
      var threw := Settle(entry, answer, tick);
      if !threw { Arm(); }
      goesOn := !threw;
    }

    /** Fires the due timers, at most `MAX_FIRINGS`; a throw leaves the alarm as it was. */
    method FireTimers(ticks: seq<D.Tick>) returns (threw: bool)
      requires Valid() && |ticks| == D.MAX_FIRINGS && inFlight == None
      modifies this`armed, store
      ensures Valid() && OthersKeep(old(store.Db()))
      ensures inFlight == None
      ensures var start := old(View()).(waking := D.MAX_FIRINGS);
              View() == D.FireTimers(setup, start, ticks) && (threw <==> DurableAlarm.Bursts(setup, start, ticks))
    {
      ghost var start := View().(waking := D.MAX_FIRINGS);
      FiringsStayGood(setup, start, ticks);
      threw := FireAll(ticks);
      if !threw { Arm(); }
    }

    method FireAll(ticks: seq<D.Tick>) returns (threw: bool)
      requires store.Valid() && store.depth == 0 && |ticks| == D.MAX_FIRINGS
      modifies store
      ensures store.Valid() && store.depth == 0 && OthersKeep(old(store.Db()))
      ensures var start := old(View()).(waking := D.MAX_FIRINGS);
              && (threw <==> DurableAlarm.Bursts(setup, start, ticks))
              && D.FireTimers(setup, start, ticks)
                 == View().(armed := if threw then armed else D.NextWake(setup.machine, Node()))
    {
      ghost var start := View().(waking := D.MAX_FIRINGS);
      ghost var s := start;
      threw := false;
      for i := 0 to D.MAX_FIRINGS
        invariant store.Valid() && store.depth == 0 && OthersKeep(old(store.Db()))
        invariant s.node == Node() && s.inFlight == inFlight && s.waking == D.MAX_FIRINGS - i && !threw
        invariant s.armed == if s.waking == 0 then D.NextWake(setup.machine, Node()) else armed
        invariant SameFirings(setup, start, ticks, s, ticks[i..])
        invariant s.waking == 0 ==> D.FireTimers(setup, start, ticks) == s && !DurableAlarm.Bursts(setup, start, ticks)
      {
        ghost var next := FiringUnfolds(setup, start, s, ticks, i);
        ghost var before := store.Db();
        var fired;
        fired, threw := FireOne(ticks[i]);
        KeepsOn(key, old(store.Db()), before, store.Db());
        s := next;
        if threw || !fired { break; }
      }
    }

    method FireOne(tick: D.Tick) returns (fired: bool, threw: bool)
      requires store.Valid() && store.depth == 0
      modifies store
      ensures store.Valid() && store.depth == 0 && OthersKeep(old(store.Db()))
      ensures var fire := D.Fire(setup, old(Node()), tick);
              && (threw <==> fire.Burst?) && (fired <==> fire.Fired?)
              && Node() == if fire.Fired? then fire.node else old(Node())
    {
      var saved := store.Begin();
      var record := Load();
      var due := D.FirstDue(D.PendingTimers(setup.machine, record), tick.now);
      fired, threw := false, false;
      if due.Some? {
        threw := MarkAndMove(record, due.value, tick);
        fired := !threw;
      }
      store.End(saved, threw);
    }

    /** Remembers a deadline as fired, then feeds its event to the machine. */
    method MarkAndMove(record: Stored, due: Due, tick: D.Tick) returns (threw: bool)
      requires store.Valid() && record == Node().record
      modifies store`states, store`rows, store`next
      ensures store.Valid() && OthersKeep(old(store.Db()))
      ensures var marked := old(Node()).(record := record.(fired := record.fired[due.event := due.at]));
              var after := D.Transition(setup, marked, Event(due.event, None), tick);
              (threw <==> after.None?) && (after.Some? ==> Node() == after.value)
    {
      var marked := record.(fired := record.fired[due.event := due.at]);
      ghost var before := store.Db();
      Save(marked);
      ghost var saved := store.Db();
      var step := Transition(marked, Event(due.event, None), tick);
      KeepsOn(key, before, saved, store.Db());
      threw := step.Threw?;
    }

    /** What lands while a handler runs. */
    method Admit(arrivals: seq<D.Arrival>)
      requires Valid()
      modifies this`armed, store
      ensures Valid() && OthersKeep(old(store.Db()))
      ensures View() == D.Arrivals(setup, old(View()), arrivals)
    {
      for i := 0 to |arrivals|
        invariant Valid() && OthersKeep(old(store.Db()))
        invariant D.Arrivals(setup, old(View()), arrivals) == D.Arrivals(setup, View(), arrivals[i..])
      {
        assert arrivals[i..][1..] == arrivals[i + 1..];
        var threw := Apply(arrivals[i]);
      }
    }

    /** Runs pending commands that are due, one at a time, until one fails or none is left. */
    method Drain(rounds: seq<D.Handling>)
      requires Valid() && inFlight == None
      modifies this`armed, this`inFlight, store
      ensures Valid() && OthersKeep(old(store.Db())) && inFlight == None
      ensures View() == D.Drain(setup, old(View()), rounds)
    {
      for i := 0 to |rounds|
        invariant Valid() && OthersKeep(old(store.Db())) && inFlight == None
        invariant D.Drain(setup, old(View()), rounds) == D.Drain(setup, View(), rounds[i..])
      {
        ghost var before := View();
        DrainUnfolds(setup, before, rounds, i);
        var taken := Take(rounds[i].now);
        if taken.Idle? { return; }
        if taken.Skipped? { continue; }
        Admit(rounds[i].arrivals);
        ArrivalsKeepRunning(setup, D.Take(setup, before, rounds[i].now), rounds[i].arrivals);
        var goesOn := Finish(rounds[i].ending);
        if !goesOn { return; }
      }
    }

    /** The alarm entry: the platform has cleared the alarm; fire due timers, then drain. */
    method Wake(ticks: seq<D.Tick>, rounds: seq<D.Handling>)
      requires Valid() && |ticks| == D.MAX_FIRINGS && inFlight == None
      modifies this`armed, this`inFlight, store
      ensures Valid() && OthersKeep(old(store.Db()))
      ensures var fired := D.FireTimers(setup, D.Ring(old(View())), ticks);
              View() == if DurableAlarm.Bursts(setup, D.Ring(old(View())), ticks) then fired else D.Drain(setup, fired, rounds)
    {
      armed := None;
      var threw := FireTimers(ticks);
      if !threw { Drain(rounds); }
    }
  }

  lemma OnlyTheHeadIsRescheduled(rows: seq<Row>, key: string, next: nat, attempts: nat, due: int)
    requires Ordered(rows, next) && Queue(rows, key) != []
    ensures var was := Queue(rows, key); var now := Rescheduled(rows, was[0].id, attempts, due);
            && Queue(now, key) == [was[0].(attempts := attempts, due := due)] + was[1..]
            && forall k | k != key :: Queue(now, k) == Queue(rows, k)
  {
    ReschedulingTheHead(rows, key, next, attempts, due, key);
    forall k | k != key
      ensures Queue(Rescheduled(rows, Queue(rows, key)[0].id, attempts, due), k) == Queue(rows, k)
    {
      ReschedulingTheHead(rows, key, next, attempts, due, k);
    }
  }

  /** Two points of a wake with the same outcome ahead of them. */
  ghost predicate SameFirings(setup: D.Setup, s: D.System, ticks: seq<D.Tick>, t: D.System, rest: seq<D.Tick>) {
    && D.FireTimers(setup, s, ticks) == D.FireTimers(setup, t, rest)
    && (DurableAlarm.Bursts(setup, s, ticks) <==> DurableAlarm.Bursts(setup, t, rest))
  }

  /** One firing, and what it leaves to come. */
  lemma FiringUnfolds(setup: D.Setup, start: D.System, s: D.System, ticks: seq<D.Tick>, i: nat) returns (next: D.System)
    requires i < |ticks| && s.waking > 0 && SameFirings(setup, start, ticks, s, ticks[i..])
    ensures var fire := D.Fire(setup, s.node, ticks[i]);
            && next.inFlight == s.inFlight && next.node == (if fire.Fired? then fire.node else s.node)
            && next.waking == (if fire.Fired? then s.waking - 1 else 0)
            && next.armed == (if fire.Burst? || next.waking > 0 then s.armed else D.NextWake(setup.machine, next.node))
            && (fire.Burst? ==> D.FireTimers(setup, start, ticks) == next && DurableAlarm.Bursts(setup, start, ticks))
            && (!fire.Burst? ==> SameFirings(setup, start, ticks, next, ticks[i + 1..]))
            && (!fire.Burst? && next.waking == 0 ==>
                  D.FireTimers(setup, start, ticks) == next && !DurableAlarm.Bursts(setup, start, ticks))
  {
    next := D.FireTimer(setup, s, ticks[i]);
    assert ticks[i..][1..] == ticks[i + 1..];
    assert D.FireTimers(setup, s, ticks[i..]) == D.FireTimers(setup, next, ticks[i + 1..]);
    assert next.waking == 0 ==> D.FireTimers(setup, next, ticks[i + 1..]) == next;
  }

  lemma {:induction false} FiringsStayGood(setup: D.Setup, s: D.System, ticks: seq<D.Tick>)
    requires setup.machine.Accepted() && DurableRuns.Good(setup, s)
    ensures DurableRuns.Good(setup, D.FireTimers(setup, s, ticks))
    decreases |ticks|
  {
    if s.waking > 0 && ticks != [] {
      DurableRuns.ActStaysGood(setup, s, DurableRuns.Tock(ticks[0]));
      FiringsStayGood(setup, D.FireTimer(setup, s, ticks[0]), ticks[1..]);
    }
  }

  lemma DrainUnfolds(setup: D.Setup, s: D.System, rounds: seq<D.Handling>, i: nat)
    requires i < |rounds|
    ensures D.Drain(setup, s, rounds[i..]) ==
              match D.Looks(s.node, rounds[i].now)
              case Idle => s
              case Skipped => D.Drain(setup, D.Take(setup, s, rounds[i].now), rounds[i + 1..])
              case Handed(_) =>
                var busy := D.Arrivals(setup, D.Take(setup, s, rounds[i].now), rounds[i].arrivals);
                var after := D.Finish(setup, busy, rounds[i].ending);
                if D.Continues(setup, busy, rounds[i].ending) then D.Drain(setup, after, rounds[i + 1..]) else after
  {
    assert rounds[i..][1..] == rounds[i + 1..];
  }

  lemma {:induction false} ArrivalsKeepRunning(setup: D.Setup, s: D.System, arrivals: seq<D.Arrival>)
    ensures D.Arrivals(setup, s, arrivals).inFlight == s.inFlight
    decreases |arrivals|
  {
    if arrivals != [] {
      ArrivalsKeepRunning(setup, D.Apply(setup, s, arrivals[0]), arrivals[1..]);
    }
  }
}
