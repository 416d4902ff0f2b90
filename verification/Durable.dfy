/**
 The durable runtime around a machine: epochs, fired deadlines, a FIFO outbox and one alarm.

 `System` is what survives or runs between two commits: the stored node, the command whose
 handler is running, the armed alarm and the firings a wake may still make. Time, facts and
 what a handler answers come from the environment. The functions say what each commit does;
 `Runtime` does it in place over a shared store.
 */
module Durables {
  import opened Options
  import opened Machines
  import opened MachineStores

  /** Bound on timer firings in one wake. */
  const MAX_FIRINGS: nat := 64

  datatype Setup = Setup(machine: Machine, recoveryDelay: int, retryDelay: nat -> int)
  datatype Node = Node(record: Stored, outbox: seq<Entry>, next: nat)
  datatype System = System(node: Node, inFlight: Option<Entry>, armed: Option<int>, waking: nat)

  /** What the clock and the host's facts read at one moment. */
  datatype Tick = Tick(now: int, facts: Facts)
  /** How a handler ends: it answers (perhaps with an event), fails, or is interrupted. */
  datatype Ending = Answered(answer: Option<Event>, tick: Tick) | Broke(now: int) | Interrupted
  datatype Arrival = Arrival(event: Event, tick: Tick, hostThrows: bool)
  /** One round of a drain: when it looks, what lands while the handler runs, how that ends. */
  datatype Handling = Handling(now: int, arrivals: seq<Arrival>, ending: Ending)

  function Fresh(m: Machine): Stored { Stored(m.initial, 0, map[]) }

  function NodeOf(db: Snapshot, key: string, m: Machine): Node {
    Node(if key in db.states then db.states[key] else Fresh(m), Queue(db.rows, key), db.next)
  }

  ghost predicate Sound(m: Machine, n: Node) {
    n.record.state.tag in m.states && OrderedQueue(n.outbox, n.next)
  }

  // --- Timers and the alarm ---------------------------------------------------------------

  predicate Pending(fired: map<string, int>, due: Due) {
    !(due.event in fired && fired[due.event] == due.at)
  }

  function Unfired(dues: seq<Due>, fired: map<string, int>): seq<Due> {
    if dues == [] then []
    else (if Pending(fired, dues[0]) then [dues[0]] else []) + Unfired(dues[1..], fired)
  }

  function PendingTimers(m: Machine, record: Stored): seq<Due> {
    Unfired(m.Timers(record.state), record.fired)
  }

  function FirstDue(dues: seq<Due>, now: int): Option<Due> {
    if dues == [] then None
    else if dues[0].at <= now then Some(dues[0])
    else FirstDue(dues[1..], now)
  }

  function Least(times: seq<int>): Option<int> {
    if times == [] then None
    else
      match Least(times[1..])
      case None => Some(times[0])
      case Some(t) => Some(if times[0] <= t then times[0] else t)
  }

  /** When the machine next has to run: a pending timer, or the head of the outbox. */
  function NextWake(m: Machine, n: Node): Option<int> {
    var timers := PendingTimers(m, n.record);
    Least(seq(|timers|, i requires 0 <= i < |timers| => timers[i].at)
          + if n.outbox == [] then [] else [n.outbox[0].due])
  }

  // --- Commits ------------------------------------------------------------------------------

  function Posted(planned: seq<Planned>, epoch: nat, due: int, next: nat): seq<Entry> {
    seq(|planned|, i requires 0 <= i < |planned| =>
      Entry(next + i, planned[i].command, epoch, planned[i].release, 0, due))
  }

  /** One transition inside a transaction; nothing when it throws. */
  function Transition(setup: Setup, n: Node, event: Event, tick: Tick): Option<Node> {
    match setup.machine.Answers(n.record.state, event, tick.facts)
    case Threw => None
    case Ignored => Some(n)
    case Rejected => Some(n)
    case Moved(to, planned, entered) =>
      var epoch := if entered then n.record.epoch + 1 else n.record.epoch;
      Some(Node(
        Stored(to, epoch, if entered then map[] else n.record.fired),
        n.outbox + Posted(planned, epoch, tick.now + setup.recoveryDelay, n.next),
        n.next + |planned|))
  }

  function Armed(setup: Setup, s: System): System {
    s.(armed := NextWake(setup.machine, s.node))
  }

  /** `apply`: a throw of the transition or of the host's own writes rolls both back. */
  function Apply(setup: Setup, s: System, a: Arrival): System {
    match Transition(setup, s.node, a.event, a.tick)
    case None => s
    case Some(n) => if a.hostThrows then s else Armed(setup, s.(node := n))
  }

  datatype Taken = Idle | Skipped | Handed(entry: Entry)

  function Looks(n: Node, now: int): Taken {
    if n.outbox == [] then Idle
    else if !n.outbox[0].release && n.outbox[0].epoch != n.record.epoch then Skipped
    else if n.outbox[0].attempts > 0 && n.outbox[0].due > now then Idle
    else Handed(n.outbox[0])
  }

  function Behead(n: Node): Node
    requires n.outbox != []
  {
    n.(outbox := n.outbox[1..])
  }

  /** `take`: hands out the head, or drops it when it is stale and not a release. */
  function Take(setup: Setup, s: System, now: int): System {
    match Looks(s.node, now)
    case Idle => s
    case Skipped => Armed(setup, s.(node := Behead(s.node)))
    case Handed(entry) => s.(inFlight := Some(entry))
  }

  /** The transaction after a handler succeeded; a throw inside it keeps the command queued. */
  function Settled(setup: Setup, n: Node, entry: Entry, answer: Option<Event>, tick: Tick): Option<Node>
    requires n.outbox != []
  {
    var rest := Behead(n);
    match answer
    case None => Some(rest)
    case Some(event) =>
      if rest.record.epoch != entry.epoch then Some(rest) else Transition(setup, rest, event, tick)
  }

  function Retry(setup: Setup, n: Node, entry: Entry, now: int): Node
    requires n.outbox != []
  {
    var attempt := entry.attempts + 1;
    n.(outbox := [n.outbox[0].(attempts := attempt, due := now + setup.retryDelay(attempt))] + n.outbox[1..])
  }

  /** How a handler's end is recorded. */
  function Finish(setup: Setup, s: System, ending: Ending): System {
    if s.inFlight.None? || s.node.outbox == [] then s
    else
      var entry := s.inFlight.value;
      var idle := s.(inFlight := None);
      match ending
      case Interrupted => idle
      case Broke(now) => Armed(setup, idle.(node := Retry(setup, s.node, entry, now)))
      case Answered(answer, tick) =>
        match Settled(setup, s.node, entry, answer, tick)
        case None => idle
        case Some(n) => Armed(setup, idle.(node := n))
  }

  datatype Fired = Quiet | Burst | Fired(node: Node, due: Due)

  /** One firing: the deadline is marked before its event is applied. */
  function Fire(setup: Setup, n: Node, tick: Tick): Fired {
    match FirstDue(PendingTimers(setup.machine, n.record), tick.now)
    case None => Quiet
    case Some(due) =>
      var marked := n.(record := n.record.(fired := n.record.fired[due.event := due.at]));
      match Transition(setup, marked, Event(due.event, None), tick)
      case None => Burst
      case Some(after) => Fired(after, due)
  }

  /** The platform clears a fired alarm, then runs the wake. */
  function Ring(s: System): System { s.(armed := None, waking := MAX_FIRINGS) }

  function FireTimer(setup: Setup, s: System, tick: Tick): System {
    if s.waking == 0 then s
    else
      match Fire(setup, s.node, tick)
      case Quiet => Armed(setup, s.(waking := 0))
      case Burst => s.(waking := 0)
      case Fired(n, _) =>
        var after := s.(node := n, waking := s.waking - 1);
        if after.waking == 0 then Armed(setup, after) else after
  }

  function FireTimers(setup: Setup, s: System, ticks: seq<Tick>): System
    decreases |ticks|
  {
    if s.waking == 0 || ticks == [] then s
    else FireTimers(setup, FireTimer(setup, s, ticks[0]), ticks[1..])
  }

  function Arrivals(setup: Setup, s: System, arrivals: seq<Arrival>): System
    decreases |arrivals|
  {
    if arrivals == [] then s else Arrivals(setup, Apply(setup, s, arrivals[0]), arrivals[1..])
  }

  /** Whether a drain goes on after this ending: a failure or a throw stops it. */
  predicate Continues(setup: Setup, s: System, ending: Ending) {
    && s.inFlight.Some? && s.node.outbox != [] && ending.Answered?
    && Settled(setup, s.node, s.inFlight.value, ending.answer, ending.tick).Some?
  }

  /** A whole drain, as far as the environment lets it run. */
  function Drain(setup: Setup, s: System, rounds: seq<Handling>): System
    decreases |rounds|
  {
    if rounds == [] then s
    else
      match Looks(s.node, rounds[0].now)
      case Idle => s
      case Skipped => Drain(setup, Take(setup, s, rounds[0].now), rounds[1..])
      case Handed(entry) =>
        var busy := Arrivals(setup, Take(setup, s, rounds[0].now), rounds[0].arrivals);
        var after := Finish(setup, busy, rounds[0].ending);
        if Continues(setup, busy, rounds[0].ending) then Drain(setup, after, rounds[1..]) else after
  }
}
