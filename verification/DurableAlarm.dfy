/**
 The alarm of a durable machine. After every commit it is set for the next thing to do, and a
 wake at that time does it. The exceptions are a fresh machine, which has no alarm until something
 arms it, and a wake whose firings end early, by a transition that throws or by a crash: the
 platform has cleared the alarm by then and nothing armed it again.
 */
module DurableAlarm {
  import opened Options
  import opened Machines
  import opened MachineStores
  import opened Durables
  import opened DurableRuns

  ghost predicate OnTime(setup: Setup, s: System) { s.armed == NextWake(setup.machine, s.node) }

  function Times(dues: seq<Due>): seq<int> {
    seq(|dues|, i requires 0 <= i < |dues| => dues[i].at)
  }

  lemma {:induction false} LeastIsMinimum(times: seq<int>)
    ensures Least(times).None? <==> times == []
    ensures Least(times).Some? ==> Least(times).value in times && forall t | t in times :: Least(times).value <= t
  {
    if times != [] {
      LeastIsMinimum(times[1..]);
      assert times == [times[0]] + times[1..];
    }
  }

  /** No alarm exactly when no timer is pending and the outbox is empty; else the earliest of both. */
  lemma NextWakeIsEarliest(m: Machine, n: Node)
    ensures NextWake(m, n).None? <==> PendingTimers(m, n.record) == [] && n.outbox == []
    ensures NextWake(m, n).Some? ==>
              && (forall due | due in PendingTimers(m, n.record) :: NextWake(m, n).value <= due.at)
              && (n.outbox != [] ==> NextWake(m, n).value <= n.outbox[0].due)
              && ((n.outbox != [] && NextWake(m, n).value == n.outbox[0].due)
                  || exists due :: due in PendingTimers(m, n.record) && NextWake(m, n).value == due.at)
  {
    var timers := PendingTimers(m, n.record);
    var times := Times(timers) + if n.outbox == [] then [] else [n.outbox[0].due];
    LeastIsMinimum(times);
    forall due | due in timers ensures due.at in times {
      var i :| 0 <= i < |timers| && timers[i] == due;
      assert times[i] == due.at;
    }
    if n.outbox != [] { assert times[|timers|] in times; }
    if NextWake(m, n).Some? {
      var i :| 0 <= i < |times| && times[i] == NextWake(m, n).value;
      if i < |timers| { assert timers[i] in timers; }
    }
  }

  lemma {:induction false} FirstDueFinds(dues: seq<Due>, now: int)
    ensures FirstDue(dues, now).None? <==> forall due | due in dues :: now < due.at
  {
    if dues != [] {
      FirstDueFinds(dues[1..], now);
      assert dues == [dues[0]] + dues[1..];
    }
  }

  /**
   Whether an action reaches the arming at its end: an event whose step and host do not throw, a look
   that drops a stale command, a handler's end that is recorded, the firing a wake stops at.
   */
  predicate Arms(setup: Setup, s: System, a: Action) {
    if s.waking > 0 then
      a.Tock? && (Fire(setup, s.node, a.tick).Quiet? || (Fire(setup, s.node, a.tick).Fired? && s.waking == 1))
    else
      match a
      case Arrive(arrival) => Transition(setup, s.node, arrival.event, arrival.tick).Some? && !arrival.hostThrows
      case Look(now) => s.inFlight.None? && Looks(s.node, now).Skipped?
      case End(ending) =>
        s.inFlight.Some? && s.node.outbox != [] && !ending.Interrupted?
        && (ending.Answered? ==> Settled(setup, s.node, s.inFlight.value, ending.answer, ending.tick).Some?)
      case _ => false
  }

  /**
   Outside a wake an action that arms leaves the alarm on time, whatever it was before; any other but
   the alarm itself changes neither the alarm nor what it should be.
   */
  lemma CommitsSetTheAlarm(setup: Setup, s: System, a: Action)
    requires s.waking == 0 && !a.Alarm?
    ensures var after := Act(setup, s, a);
            && after.waking == 0
            && (Arms(setup, s, a) ==> OnTime(setup, after))
            && (!Arms(setup, s, a) ==>
                  after.armed == s.armed && NextWake(setup.machine, after.node) == NextWake(setup.machine, s.node))
  {
  }

  /** In a wake the alarm stays cleared until the firing it stops at, and that one sets it. */
  lemma FiringsSetTheAlarm(setup: Setup, s: System, a: Action)
    requires s.waking > 0
    ensures var after := Act(setup, s, a);
            && (Arms(setup, s, a) ==> OnTime(setup, after) && after.waking == 0)
            && (!Arms(setup, s, a) ==> after.armed == s.armed)
  {
  }

  /** Whether a transition throws before the wake's firings are over. */
  predicate Bursts(setup: Setup, s: System, ticks: seq<Tick>)
    decreases |ticks|
  {
    s.waking > 0 && ticks != [] &&
    (Fire(setup, s.node, ticks[0]).Burst? || Bursts(setup, FireTimer(setup, s, ticks[0]), ticks[1..]))
  }

  lemma BurstLeavesATimer(setup: Setup, n: Node, tick: Tick)
    requires Fire(setup, n, tick).Burst?
    ensures NextWake(setup.machine, n).Some?
  {
    NextWakeIsEarliest(setup.machine, n);
  }

  lemma {:induction false} FiringsSettle(setup: Setup, s: System, ticks: seq<Tick>)
    requires setup.machine.Accepted() && Good(setup, s)
    requires 0 < s.waking <= |ticks| && s.armed == None
    ensures var after := FireTimers(setup, s, ticks);
            && Good(setup, after) && after.waking == 0
            && (OnTime(setup, after) <==> !Bursts(setup, s, ticks))
            && (Bursts(setup, s, ticks) ==> after.armed == None)
    decreases |ticks|
  {
    ActStaysGood(setup, s, Tock(ticks[0]));
    var next := FireTimer(setup, s, ticks[0]);
    if next.waking > 0 {
      FiringsSettle(setup, next, ticks[1..]);
    } else if Fire(setup, s.node, ticks[0]).Burst? {
      BurstLeavesATimer(setup, s.node, ticks[0]);
    } else {
      assert FireTimers(setup, next, ticks[1..]) == next;
    }
  }

  /**
   After a wake the alarm is on time if and only if no transition threw; when one did, no
   alarm is armed although a timer is still pending.
   */
  lemma WakeArmsUnlessItThrows(setup: Setup, s: System, ticks: seq<Tick>)
    requires setup.machine.Accepted() && Good(setup, s) && |ticks| == MAX_FIRINGS
    ensures var after := FireTimers(setup, Ring(s), ticks);
            && after.waking == 0
            && (OnTime(setup, after) <==> !Bursts(setup, Ring(s), ticks))
            && (Bursts(setup, Ring(s), ticks) ==> after.armed == None && NextWake(setup.machine, after.node).Some?)
  {
    FiringsSettle(setup, Ring(s), ticks);
  }

  /** A run is smooth when no firing of a wake throws and no crash cuts a wake's firings short. */
  ghost predicate Smooth(setup: Setup, s: System, actions: seq<Action>)
    decreases |actions|
  {
    actions == [] ||
    (&& (s.waking > 0 && actions[0].Tock? ==> !Fire(setup, s.node, actions[0].tick).Burst?)
     && (s.waking > 0 ==> !actions[0].Crash?)
     && Smooth(setup, Act(setup, s, actions[0]), actions[1..]))
  }

  // --- The alarm over runs ----------------------------------------------------------------------------------

  /** What last happened to the alarm: nothing yet, it was set, or it went off and was cleared. */
  datatype Setting = Untouched | Current | Cleared

  function Touched(setup: Setup, s: System, a: Action, before: Setting): Setting {
    if Arms(setup, s, a) then Current else if s.waking == 0 && a.Alarm? then Cleared else before
  }

  function SettingAfter(setup: Setup, s: System, actions: seq<Action>, before: Setting): Setting
    decreases |actions|
  {
    if actions == [] then before
    else SettingAfter(setup, Act(setup, s, actions[0]), actions[1..], Touched(setup, s, actions[0], before))
  }

  /** What is so of the alarm of `s`, given what last happened to it since `start`. */
  predicate Explained(setup: Setup, start: System, s: System, setting: Setting) {
    && (s.waking > 0 ==> setting.Cleared?)
    && (setting.Untouched? ==>
          s.armed == start.armed && NextWake(setup.machine, s.node) == NextWake(setup.machine, start.node))
    && (setting.Current? ==> s.armed == NextWake(setup.machine, s.node))
    && (setting.Cleared? ==> s.armed == None)
  }

  lemma {:induction false} RunsExplainTheAlarm(setup: Setup, start: System, s: System, actions: seq<Action>, before: Setting)
    requires Explained(setup, start, s, before)
    ensures Explained(setup, start, Run(setup, s, actions), SettingAfter(setup, s, actions, before))
    decreases |actions|
  {
    if actions != [] {
      var a := actions[0];
      if s.waking > 0 { FiringsSetTheAlarm(setup, s, a); } else if !a.Alarm? { CommitsSetTheAlarm(setup, s, a); }
      RunsExplainTheAlarm(setup, start, Act(setup, s, a), actions[1..], Touched(setup, s, a, before));
    }
  }

  /** What decides whether the alarm is on time when a run has ended outside a wake. */
  predicate Expected(setup: Setup, start: System, after: System, setting: Setting) {
    match setting
    case Untouched => start.armed == NextWake(setup.machine, start.node)
    case Current => true
    case Cleared => NextWake(setup.machine, after.node).None?
  }

  /**
   On every run, of any machine: outside a wake the alarm is on time if and only if the last thing that
   happened to it was an arming, or nothing happened to it and it was on time, or it went off, its wake was
   cut short by a throw or a crash, and there is nothing left to wake for.
   */
  lemma AlarmIsOnTimeIff(setup: Setup, start: System, actions: seq<Action>)
    requires start.waking == 0 && Run(setup, start, actions).waking == 0
    ensures var after := Run(setup, start, actions);
            OnTime(setup, after) <==> Expected(setup, start, after, SettingAfter(setup, start, actions, Untouched))
  {
    RunsExplainTheAlarm(setup, start, start, actions, Untouched);
  }

  /** Some action on the way armed it. */
  predicate ArmsOn(setup: Setup, s: System, actions: seq<Action>)
    decreases |actions|
  {
    actions != [] && (Arms(setup, s, actions[0]) || ArmsOn(setup, Act(setup, s, actions[0]), actions[1..]))
  }

  lemma {:induction false} SmoothWakesArm(setup: Setup, s: System, actions: seq<Action>, before: Setting)
    requires Smooth(setup, s, actions) && (before.Cleared? <==> s.waking > 0)
    ensures SettingAfter(setup, s, actions, before).Cleared? <==> Run(setup, s, actions).waking > 0
    ensures !before.Untouched? ==> !SettingAfter(setup, s, actions, before).Untouched?
    ensures Run(setup, s, actions).waking == 0 ==>
              (SettingAfter(setup, s, actions, before).Current? <==> before.Current? || ArmsOn(setup, s, actions))
    decreases |actions|
  {
    if actions != [] {
      SmoothWakesArm(setup, Act(setup, s, actions[0]), actions[1..], Touched(setup, s, actions[0], before));
    }
  }

  /**
   A fresh machine has no alarm. On every run of it whose wakes neither throw nor crash, the alarm is on time
   outside a wake if and only if its initial state has no timer or something on the way armed it.
   */
  lemma AlarmIsOnTime(setup: Setup, next: nat, actions: seq<Action>)
    requires Smooth(setup, Start(setup, next), actions) && Run(setup, Start(setup, next), actions).waking == 0
    ensures OnTime(setup, Run(setup, Start(setup, next), actions))
            <==> PendingTimers(setup.machine, Fresh(setup.machine)) == [] || ArmsOn(setup, Start(setup, next), actions)
  {
    var start := Start(setup, next);
    AlarmIsOnTimeIff(setup, start, actions);
    SmoothWakesArm(setup, start, actions, Untouched);
    NextWakeIsEarliest(setup.machine, start.node);
  }

  /**
   A wake at or after the armed time makes progress: its first look fires a timer (or throws
   trying), or nothing is due and the drain that follows takes the head of the outbox.
   */
  lemma WakeMakesProgress(setup: Setup, s: System, ticks: seq<Tick>, now: int)
    requires s.waking == 0 && ticks != []
    requires NextWake(setup.machine, s.node).Some?
    requires NextWake(setup.machine, s.node).value <= ticks[0].now <= now
    ensures || !Fire(setup, s.node, ticks[0]).Quiet?
            || (&& FireTimers(setup, Ring(s), ticks).node == s.node
                && s.node.outbox != [] && !Looks(s.node, now).Idle?)
  {
    var timers := PendingTimers(setup.machine, s.node.record);
    NextWakeIsEarliest(setup.machine, s.node);
    FirstDueFinds(timers, ticks[0].now);
    if Fire(setup, s.node, ticks[0]).Quiet? {
      var quiet := FireTimer(setup, Ring(s), ticks[0]);
      assert FireTimers(setup, quiet, ticks[1..]) == quiet;
    }
  }

  /** A state whose one timer makes its transition throw. */
  function Jammed(): Setup {
    Setup(
      Machine.Machine(
        State("armed", ""), map["armed" := StateSpec([], false)], {"tick"},
        map["armed" := map["tick" := Go((data: Payload, event: Event, facts: Facts) => None)]],
        [], (resource: string, state: State) => Command("", ""),
        (tag: string, data: Payload) => true, (command: Command) => true,
        (state: State) => [Due("tick", 0)]),
      5000, (attempt: nat) => DefaultRetry(attempt))
  }

  /** The alarm is not always on time: an accepted machine, one wake, and no alarm for a pending timer. */
  lemma AlarmCanBeLost(facts: Facts)
    ensures Jammed().machine.Accepted()
    ensures var ticks := seq(MAX_FIRINGS, i => Tick(0, facts));
            var after := FireTimers(Jammed(), Ring(Start(Jammed(), 1)), ticks);
            after.armed == None && NextWake(Jammed().machine, after.node) == Some(0)
  {
    var m := Jammed().machine;
    var n := Start(Jammed(), 1).node;
    assert m.Timers(m.initial) == SortByDeadline([Due("tick", 0)]) == [Due("tick", 0)];
    assert PendingTimers(m, n.record) == [Due("tick", 0)];
    var ticks := seq(MAX_FIRINGS, i => Tick(0, facts));
    assert Fire(Jammed(), n, ticks[0]).Burst?;
    var after := FireTimer(Jammed(), Ring(Start(Jammed(), 1)), ticks[0]);
    assert FireTimers(Jammed(), after, ticks[1..]) == after;
    NextWakeIsEarliest(m, n);
  }

  /** And it need not be there to begin with: a drain that finds nothing to do leaves an initial timer without one. */
  lemma FreshTimersHaveNoAlarm(now: int)
    ensures Jammed().machine.Accepted() && Smooth(Jammed(), Start(Jammed(), 1), [Look(now)])
    ensures var after := Run(Jammed(), Start(Jammed(), 1), [Look(now)]);
            after.waking == 0 && after.armed == None && NextWake(Jammed().machine, after.node) == Some(0)
  {
    var m, start := Jammed().machine, Start(Jammed(), 1);
    assert m.Timers(m.initial) == SortByDeadline([Due("tick", 0)]) == [Due("tick", 0)];
    assert PendingTimers(m, start.node.record) == [Due("tick", 0)];
    NextWakeIsEarliest(m, start.node);
    assert [Look(now)][1..] == [];
    assert Run(Jammed(), start, [Look(now)]) == Act(Jammed(), start, Look(now)) == start;
  }

  /** One second, doubling with every attempt, at most a minute. */
  function DefaultRetry(attempt: nat): (delay: int)
  {
    var delay := 1000 * Doubled(attempt);
    if delay < 60000 then delay else 60000
  }

  /** Two to the power of `attempt - 1`. */
  function Doubled(attempt: nat): (factor: nat)
    ensures factor >= 1
  {
    if attempt <= 1 then 1 else 2 * Doubled(attempt - 1)
  }

  lemma {:induction false} RetriesBackOff(attempt: nat, later: nat)
    requires attempt <= later
    ensures 1000 <= DefaultRetry(attempt) <= DefaultRetry(later) <= 60000
    ensures attempt >= 7 ==> DefaultRetry(attempt) == 60000
    decreases later
  {
    if attempt < later {
      RetriesBackOff(attempt, later - 1);
    } else if attempt > 7 {
      RetriesBackOff(attempt - 1, attempt - 1);
    }
  }
}
