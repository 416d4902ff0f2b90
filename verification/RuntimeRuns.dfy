/**
 The methods of the runtime as runs: admitting arrivals, firing timers and draining are sequences of the
 actions that runs are made of, and a drain or a wake's firings stop only for a reason.
 */
module RuntimeRuns {
  import opened Options
  import D = Durables
  import DurableRuns
  import DurableRuntime

  /** Admitting arrivals, firing timers and draining are sequences of the run's actions. */
  lemma {:induction false} ArrivalsAreARun(setup: D.Setup, s: D.System, arrivals: seq<D.Arrival>)
    returns (actions: seq<DurableRuns.Action>)
    requires s.waking == 0
    ensures |actions| == |arrivals| && forall i | 0 <= i < |actions| :: actions[i] == DurableRuns.Arrive(arrivals[i])
    ensures DurableRuns.Run(setup, s, actions) == D.Arrivals(setup, s, arrivals)
    ensures D.Arrivals(setup, s, arrivals).waking == 0
    decreases |arrivals|
  {
    if arrivals == [] {
      actions := [];
    } else {
      var rest := ArrivalsAreARun(setup, D.Apply(setup, s, arrivals[0]), arrivals[1..]);
      actions := [DurableRuns.Arrive(arrivals[0])] + rest;
      assert actions[1..] == rest;
    }
  }

  /** The firings go on until the ticks are over or the wake is. */
  lemma {:induction false} FiringsAreARun(setup: D.Setup, s: D.System, ticks: seq<D.Tick>)
    returns (actions: seq<DurableRuns.Action>)
    ensures |actions| <= |ticks| && forall i | 0 <= i < |actions| :: actions[i] == DurableRuns.Tock(ticks[i])
    ensures DurableRuns.Run(setup, s, actions) == D.FireTimers(setup, s, ticks)
    ensures |actions| == |ticks| || D.FireTimers(setup, s, ticks).waking == 0
    decreases |ticks|
  {
    if s.waking == 0 || ticks == [] {
      actions := [];
    } else {
      var rest := FiringsAreARun(setup, D.FireTimer(setup, s, ticks[0]), ticks[1..]);
      actions := [DurableRuns.Tock(ticks[0])] + rest;
      assert actions[1..] == rest;
    }
  }

  /** Why a drain stops: its rounds are over, nothing can be handed out, or a handler failed or its answer threw. */
  ghost predicate Halts(setup: D.Setup, s: D.System, actions: seq<DurableRuns.Action>, rounds: seq<D.Handling>, used: nat) {
    || Starves(DurableRuns.Run(setup, s, actions), rounds, used)
    || (actions != [] && Fails(setup, s, actions[..|actions| - 1], actions[|actions| - 1]))
  }

  ghost predicate Starves(end: D.System, rounds: seq<D.Handling>, used: nat) {
    used == |rounds| || (used < |rounds| && D.Looks(end.node, rounds[used].now).Idle?)
  }

  ghost predicate Fails(setup: D.Setup, s: D.System, before: seq<DurableRuns.Action>, last: DurableRuns.Action) {
    last.End? && !D.Continues(setup, DurableRuns.Run(setup, s, before), last.ending)
  }

  /** The looks among the actions: one for each round of a drain. */
  function Looking(actions: seq<DurableRuns.Action>): nat {
    if actions == [] then 0 else (if actions[0].Look? then 1 else 0) + Looking(actions[1..])
  }

  lemma {:induction false} LookingAdds(a: seq<DurableRuns.Action>, b: seq<DurableRuns.Action>)
    ensures Looking(a + b) == Looking(a) + Looking(b)
  {
    if a == [] { assert a + b == b; } else { assert (a + b)[1..] == a[1..] + b; LookingAdds(a[1..], b); }
  }

  lemma {:induction false} ArrivingLooksForNothing(actions: seq<DurableRuns.Action>)
    requires forall i | 0 <= i < |actions| :: actions[i].Arrive?
    ensures Looking(actions) == 0
  {
    if actions != [] { ArrivingLooksForNothing(actions[1..]); }
  }

  lemma FailsLater(setup: D.Setup, s: D.System, first: seq<DurableRuns.Action>, before: seq<DurableRuns.Action>,
                   last: DurableRuns.Action)
    requires Fails(setup, DurableRuns.Run(setup, s, first), before, last)
    ensures Fails(setup, s, first + before, last)
  {
    DurableRuns.RunSplits(setup, s, first, before);
  }

  lemma StarvesLater(end: D.System, rounds: seq<D.Handling>, used: nat)
    requires rounds != [] && Starves(end, rounds[1..], used)
    ensures Starves(end, rounds, used + 1)
  {
    if used < |rounds| - 1 { assert rounds[1..][used] == rounds[used + 1]; }
  }

  lemma HaltsLater(setup: D.Setup, s: D.System, first: seq<DurableRuns.Action>, rest: seq<DurableRuns.Action>,
                   rounds: seq<D.Handling>, used: nat)
    requires rounds != [] && Halts(setup, DurableRuns.Run(setup, s, first), rest, rounds[1..], used)
    ensures Halts(setup, s, first + rest, rounds, used + 1)
  {
    DurableRuns.RunSplits(setup, s, first, rest);
    var end := DurableRuns.Run(setup, s, first + rest);
    if Starves(end, rounds[1..], used) {
      StarvesLater(end, rounds, used);
    } else {
      FailsLater(setup, s, first, rest[..|rest| - 1], rest[|rest| - 1]);
      assert (first + rest)[..|first + rest| - 1] == first + rest[..|rest| - 1];
    }
  }

  /** One round of a drain that finds a command: the look, what lands meanwhile, and the ending. */
  lemma RoundIsARun(setup: D.Setup, s: D.System, round: D.Handling) returns (actions: seq<DurableRuns.Action>)
    requires s.waking == 0 && s.inFlight == None && D.Looks(s.node, round.now).Handed?
    ensures var busy := D.Arrivals(setup, D.Take(setup, s, round.now), round.arrivals);
            && actions != [] && actions[|actions| - 1] == DurableRuns.End(round.ending)
            && DurableRuns.Run(setup, s, actions[..|actions| - 1]) == busy
            && DurableRuns.Run(setup, s, actions) == D.Finish(setup, busy, round.ending)
            && busy.waking == 0 && Looking(actions) == 1
  {
    var taken := D.Take(setup, s, round.now);
    var look, end := [DurableRuns.Look(round.now)], [DurableRuns.End(round.ending)];
    assert look[1..] == [] && end[1..] == [];
    assert DurableRuns.Run(setup, s, look) == DurableRuns.Run(setup, taken, []) == taken;
    var admitted := ArrivalsAreARun(setup, taken, round.arrivals);
    DurableRuntime.ArrivalsKeepRunning(setup, taken, round.arrivals);
    var busy := D.Arrivals(setup, taken, round.arrivals);
    assert DurableRuns.Run(setup, busy, end) == DurableRuns.Run(setup, D.Finish(setup, busy, round.ending), []);
    DurableRuns.RunSplits(setup, s, look, admitted);
    DurableRuns.RunSplits(setup, s, look + admitted, end);
    actions := look + admitted + end;
    assert actions[..|actions| - 1] == look + admitted;
    ArrivingLooksForNothing(admitted);
    LookingAdds(look, admitted);
    LookingAdds(look + admitted, end);
  }

  /** A drain is a run, and it stops only for a reason. */
  lemma {:induction false} DrainIsARun(setup: D.Setup, s: D.System, rounds: seq<D.Handling>)
    returns (actions: seq<DurableRuns.Action>, used: nat)
    requires s.waking == 0 && s.inFlight == None
    ensures used <= |rounds| && Looking(actions) == used
    ensures DurableRuns.Run(setup, s, actions) == D.Drain(setup, s, rounds)
    ensures Halts(setup, s, actions, rounds, used)
    decreases |rounds|
  {
    if rounds == [] || D.Looks(s.node, rounds[0].now).Idle? {
      actions, used := [], 0;
    } else if D.Looks(s.node, rounds[0].now).Skipped? {
      var taken, look := D.Take(setup, s, rounds[0].now), [DurableRuns.Look(rounds[0].now)];
      assert look[1..] == [];
      assert DurableRuns.Run(setup, s, look) == DurableRuns.Run(setup, taken, []) == taken;
      var rest, n := DrainIsARun(setup, taken, rounds[1..]);
      DurableRuns.RunSplits(setup, s, look, rest);
      HaltsLater(setup, s, look, rest, rounds, n);
      LookingAdds(look, rest);
      actions, used := look + rest, n + 1;
    } else {
      var busy := D.Arrivals(setup, D.Take(setup, s, rounds[0].now), rounds[0].arrivals);
      var after := D.Finish(setup, busy, rounds[0].ending);
      var round := RoundIsARun(setup, s, rounds[0]);
      if D.Continues(setup, busy, rounds[0].ending) {
        var rest, n := DrainIsARun(setup, after, rounds[1..]);
        DurableRuns.RunSplits(setup, s, round, rest);
        HaltsLater(setup, s, round, rest, rounds, n);
        LookingAdds(round, rest);
        actions, used := round + rest, n + 1;
      } else {
        assert Fails(setup, s, round[..|round| - 1], round[|round| - 1]);
        actions, used := round, 1;
      }
    }
  }
}
