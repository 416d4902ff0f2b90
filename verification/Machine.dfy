/**
 The pure half of the durable machine: one step of a state table.

 A payload is the JSON text its schema stores, so the schemas are the two predicates
 `validData` and `validCommand`, and a transition that throws (or returns a promise) is
 one that has no `Next`.
 */
module Machines {
  import opened Options

  type Payload = string
  type Facts = string

  datatype State = State(tag: string, data: Payload)
  /** A timer fires an event without a payload. */
  datatype Event = Event(tag: string, payload: Option<Payload>)
  datatype Command = Command(tag: string, payload: Payload)
  datatype Next = Next(to: string, data: Payload, commands: seq<Command>)
  datatype Answer = Ignore | Reject | Go(run: (Payload, Event, Facts) -> Option<Next>)
  datatype StateSpec = StateSpec(holds: seq<string>, terminal: bool)
  datatype Due = Due(event: string, at: int)
  /** A command a step enqueues; a release also names the resource it frees. */
  datatype Planned = Planned(command: Command, release: bool, resource: Option<string>)
  datatype Step =
    | Threw
    | Ignored
    | Rejected
    | Moved(to: State, planned: seq<Planned>, entered: bool)

  datatype Machine = Machine(
    initial: State,
    states: map<string, StateSpec>,
    events: set<string>,
    answers: map<string, map<string, Answer>>,
    resources: seq<string>,
    release: (string, State) -> Command,
    validData: (string, Payload) -> bool,
    validCommand: Command -> bool,
    deadlines: State -> seq<Due>)
  {
    /** What `make` checks before it hands a machine out; the release keys are distinct. */
    ghost predicate Accepted() {
      && initial.tag in states && !states[initial.tag].terminal
      && validData(initial.tag, initial.data)
      && answers.Keys == (set tag | tag in states && !states[tag].terminal)
      && (forall tag | tag in answers :: answers[tag].Keys == events)
      && (forall tag | tag in states && states[tag].terminal :: states[tag].holds == [])
      && (forall tag, r | tag in states && r in states[tag].holds :: r in resources)
      && (forall i, j | 0 <= i < j < |resources| :: resources[i] != resources[j])
    }

    function Holds(tag: string): seq<string> {
      if tag in states then states[tag].holds else []
    }

    /** What leaving `from` for `to` must release, in the order of the release keys. */
    function Freed(from: string, to: string): seq<string> {
      Keep(resources, set r | r in Holds(from) && r !in Holds(to))
    }

    function Planning(current: State, next: Next): seq<Planned> {
      var freed := Freed(current.tag, next.to);
      seq(|next.commands|, i requires 0 <= i < |next.commands| => Planned(next.commands[i], false, None))
      + seq(|freed|, i requires 0 <= i < |freed| => Planned(release(freed[i], current), true, Some(freed[i])))
    }

    function Answers(current: State, event: Event, facts: Facts): Step {
      if current.tag !in states then Threw
      else if states[current.tag].terminal then Ignored
      else if current.tag !in answers || event.tag !in answers[current.tag] then Threw
      else
        match answers[current.tag][event.tag]
        case Ignore => Ignored
        case Reject => Rejected
        case Go(run) =>
          match run(current.data, event, facts)
          case None => Threw
          case Some(next) =>
            if next.to !in states || !validData(next.to, next.data) then Threw
            else
              var planned := Planning(current, next);
              if exists p | p in planned :: !validCommand(p.command) then Threw
              else Moved(State(next.to, next.data), planned, next.to != current.tag)
    }

    /** The state's timers, earliest first; equal deadlines keep their order. */
    function Timers(current: State): seq<Due> {
      if current.tag !in states || states[current.tag].terminal then []
      else SortByDeadline(deadlines(current))
    }
  }

  /** The elements of `xs` that are in `s`, in order. */
  function Keep(xs: seq<string>, s: set<string>): seq<string> {
    if xs == [] then []
    else (if xs[0] in s then [xs[0]] else []) + Keep(xs[1..], s)
  }

  function InsertByDeadline(due: Due, sorted: seq<Due>): seq<Due> {
    if sorted == [] || due.at <= sorted[0].at then [due] + sorted
    else [sorted[0]] + InsertByDeadline(due, sorted[1..])
  }

  function SortByDeadline(dues: seq<Due>): seq<Due> {
    if dues == [] then [] else InsertByDeadline(dues[0], SortByDeadline(dues[1..]))
  }

  ghost predicate Ascending(dues: seq<Due>) {
    dues == [] || ((forall due | due in dues[1..] :: dues[0].at <= due.at) && Ascending(dues[1..]))
  }

  lemma {:induction false} InsertKeepsOrder(due: Due, sorted: seq<Due>)
    requires Ascending(sorted)
    ensures Ascending(InsertByDeadline(due, sorted))
    ensures multiset(InsertByDeadline(due, sorted)) == multiset(sorted) + multiset{due}
  {
    var inserted := InsertByDeadline(due, sorted);
    if sorted == [] || due.at <= sorted[0].at {
      assert inserted[1..] == sorted && (sorted != [] ==> sorted == [sorted[0]] + sorted[1..]);
    } else {
      InsertKeepsOrder(due, sorted[1..]);
      assert sorted == [sorted[0]] + sorted[1..];
      var rest := InsertByDeadline(due, sorted[1..]);
      assert inserted[1..] == rest;
      forall d | d in rest ensures sorted[0].at <= d.at {
        assert d in multiset(rest);
        assert d == due || d in sorted[1..];
      }
    }
  }

  /** The timers a state derives are exactly those its table names, earliest first. */
  lemma {:induction false} TimersSorted(dues: seq<Due>)
    ensures Ascending(SortByDeadline(dues))
    ensures multiset(SortByDeadline(dues)) == multiset(dues)
  {
    if dues == [] {
    } else {
      TimersSorted(dues[1..]);
      InsertKeepsOrder(dues[0], SortByDeadline(dues[1..]));
      assert dues == [dues[0]] + dues[1..];
      assert multiset(dues) == multiset{dues[0]} + multiset(dues[1..]);
    }
  }

  lemma {:induction false} KeepSelects(xs: seq<string>, s: set<string>, r: string)
    requires forall i, j | 0 <= i < j < |xs| :: xs[i] != xs[j]
    ensures multiset(Keep(xs, s))[r] == if r in xs && r in s then 1 else 0
  {
    if xs == [] {
    } else {
      KeepSelects(xs[1..], s, r);
      assert xs == [xs[0]] + xs[1..];
      assert multiset(Keep(xs, s)) ==
             multiset(if xs[0] in s then [xs[0]] else []) + multiset(Keep(xs[1..], s));
    }
  }

  /** Every resource left behind is released once, and nothing else is. */
  lemma FreedExactlyOnce(m: Machine, from: string, to: string, r: string)
    requires m.Accepted()
    ensures multiset(m.Freed(from, to))[r] == if r in m.Holds(from) && r !in m.Holds(to) then 1 else 0
  {
    KeepSelects(m.resources, (set x | x in m.Holds(from) && x !in m.Holds(to)), r);
  }

  /** A step keeps the machine inside its state table, and says truthfully whether the tag changed. */
  lemma MovesStayInTable(m: Machine, current: State, event: Event, facts: Facts)
    requires m.Accepted() && m.Answers(current, event, facts).Moved?
    ensures var step := m.Answers(current, event, facts);
            && current.tag in m.states && !m.states[current.tag].terminal
            && step.to.tag in m.states && m.validData(step.to.tag, step.to.data)
            && (step.entered <==> step.to.tag != current.tag)
            && (forall p | p in step.planned :: m.validCommand(p.command))
            && (forall p | p in step.planned :: p.release <==> p.resource.Some?)
  {
  }
}
