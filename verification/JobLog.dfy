/**
 The retained event log and outcome of one job, and the pages a poll reads from it.

 `Job` is the state a native callback replaces; the functions give its next value, or nothing
 when the callback leaves it alone and wakes nobody. `JobLog` holds it in place.
 */
module JobStates {
  import opened Options
  import opened SessionEvents

  type Event = RuntimeEvent
  datatype Outcome = Running | Waiting | Completed | Cancelled | Failed(error: string)
  datatype Stamped = Stamped(at: nat, event: Event)
  datatype Job = Job(outcome: Outcome, cancelling: bool, closing: bool, events: seq<Stamped>, bytes: nat)
  /** An answer to a poll; `status` is `Running` while more events follow. */
  datatype Batch = Batch(events: seq<Stamped>, cursor: nat, status: Outcome, error: Option<string>)

  const EVENT_LOG_LIMIT: nat := 8_000_000
  const PAGE: nat := 128

  const Opened: Job := Job(Running, false, false, [], 0)

  predicate Settled(outcome: Outcome) { outcome.Completed? || outcome.Cancelled? || outcome.Failed? }

  /** The log takes no more events and no more transitions. */
  predicate Sealed(j: Job) { Settled(j.outcome) || j.closing }

  function SetStatus(j: Job, status: Outcome): Option<Job> {
    if Sealed(j) then None
    else if j.cancelling then
      if status.Completed? || status.Cancelled? then Some(j.(outcome := Cancelled)) else None
    else Some(j.(outcome := status))
  }

  function RequestCancel(j: Job): Option<Job> {
    if Sealed(j) then None else Some(j.(cancelling := true))
  }

  function Fail(j: Job, error: string): Option<Job> {
    if Sealed(j) then None else Some(j.(outcome := Failed(error)))
  }

  function Close(j: Job): Option<Job> {
    if j.closing then None
    else Some(j.(closing := true, outcome := if Settled(j.outcome) then j.outcome else Cancelled))
  }

  predicate Retains(j: Job, size: nat) { !Sealed(j) && j.bytes + size <= EVENT_LOG_LIMIT }

  function Emit(j: Job, event: Event, size: nat): Option<Job> {
    if Sealed(j) then None
    else if j.bytes + size > EVENT_LOG_LIMIT then Some(j.(outcome := Failed("native_output_limit")))
    else Some(j.(bytes := j.bytes + size, events := j.events + [Stamped(|j.events| + 1, event)]))
  }

  function Take(events: seq<Stamped>, most: nat): seq<Stamped> {
    if |events| <= most then events else events[..most]
  }

  function Page(j: Job, after: nat): Batch
    requires after <= |j.events|
  {
    var events := Take(j.events[after..], PAGE);
    var more := after + |events| < |j.events|;
    Batch(events,
          if events == [] then after else events[|events| - 1].at,
          if more then Running else j.outcome,
          if j.outcome.Failed? then Some(j.outcome.error) else None)
  }

  /** Events are numbered from one; a settled job stays settled. */
  ghost predicate Numbered(j: Job) {
    forall i | 0 <= i < |j.events| :: j.events[i].at == i + 1
  }

  /** What a later moment of the same log may look like. */
  ghost predicate Grows(j: Job, later: Job) {
    && j.events <= later.events
    && (Sealed(j) ==> later.events == j.events && Sealed(later))
    && (Settled(j.outcome) ==> later.outcome == j.outcome)
    && (j.closing ==> later.closing) && (j.cancelling ==> later.cancelling)
    && (j.cancelling && !Settled(j.outcome) ==> !later.outcome.Completed?)
    && (later.closing && !j.closing ==> Settled(later.outcome))
  }

  lemma GrowsOnward(a: Job, b: Job, c: Job)
    requires Grows(a, b) && Grows(b, c)
    ensures Grows(a, c)
  {
  }
}

/** The log in place: callbacks replace its state synchronously, readers poll it. */
module JobLogs {
  import opened Options
  import S = JobStates

  class JobLog {
    var outcome: S.Outcome
    var cancelling: bool
    var closing: bool
    var events: seq<S.Stamped>
    var bytes: nat
    /** The deferred a reader would wait on; a notification completes and replaces it. */
    var pending: nat

    function Job(): S.Job reads this { S.Job(outcome, cancelling, closing, events, bytes) }

    ghost predicate Valid() reads this { S.Numbered(Job()) }

    /** The update left the log as `next`, or nothing changed; exactly a change wakes the waiters. */
    twostate predicate Became(next: Option<S.Job>) reads this {
      && Job() == (if next.Some? then next.value else old(Job()))
      && pending == old(pending) + (if next.Some? then 1 else 0)
    }

    constructor ()
      ensures Valid() && Job() == S.Opened && pending == 0
    {
      outcome, cancelling, closing, events, bytes, pending := S.Running, false, false, [], 0, 0;
    }

    method Notify()
      modifies this`pending
      ensures pending == old(pending) + 1
    {
      pending := pending + 1;
    }

    method SetStatus(status: S.Outcome)
      requires Valid() && !status.Failed?
      modifies this
      ensures Valid() && Became(S.SetStatus(old(Job()), status))
    {
      if S.Settled(outcome) || closing { return; }
      if cancelling {
        if !status.Completed? && !status.Cancelled? { return; }
        outcome := S.Cancelled;
      } else {
        outcome := status;
      }
      Notify();
    }

    /** Completion can no longer seal the job. */
    method RequestCancel()
      requires Valid()
      modifies this
      ensures Valid() && Became(S.RequestCancel(old(Job())))
    {
      if S.Settled(outcome) || closing { return; }
      cancelling := true;
      Notify();
    }

    method Fail(error: string)
      requires Valid()
      modifies this
      ensures Valid() && Became(S.Fail(old(Job()), error))
    {
      if S.Settled(outcome) || closing { return; }
      outcome := S.Failed(error);
      Notify();
    }

    method Close()
      requires Valid()
      modifies this
      ensures Valid() && Became(S.Close(old(Job())))
    {
      if closing { return; }
      closing := true;
      if !S.Settled(outcome) { outcome := S.Cancelled; }
      Notify();
    }

    /** Appends an event of `size` bytes; exceeding the limit fails the job instead. */
    method Emit(event: S.Event, size: nat) returns (retained: bool)
      requires Valid()
      modifies this
      ensures Valid() && Became(S.Emit(old(Job()), event, size))
      ensures retained <==> S.Retains(old(Job()), size)
      ensures retained <==> |events| == |old(events)| + 1
    {
      retained := false;
      if S.Settled(outcome) || closing { return; }
      if bytes + size > S.EVENT_LOG_LIMIT {
        outcome := S.Failed("native_output_limit");
      } else {
        retained := true;
        bytes := bytes + size;
        events := events + [S.Stamped(|events| + 1, event)];
      }
      Notify();
    }

    /** The first half of a poll: validate the cursor, and say which deferred to wait on, if any. */
    method Listen(after: int, wait: nat) returns (deferred: Option<nat>, invalid: bool)
      ensures invalid <==> after < 0 || after > |events|
      ensures deferred.Some? ==> deferred.value == pending
      ensures deferred.Some? <==> !invalid && |events| == after && !S.Settled(outcome) && wait > 0
    {
      var woken := pending;
      deferred, invalid := None, after < 0 || after > |events|;
      if !invalid && !(|events| > after || S.Settled(outcome)) && wait > 0 { deferred := Some(woken); }
    }

    /**
     The second half: the next events by now, at most a page of them, with the cursor behind the last; the
     outcome is told only with the last event there is, and a failure's error always.
     */
    method Answer(after: nat) returns (batch: S.Batch)
      requires Valid() && after <= |events|
      ensures var to := if |events| - after <= S.PAGE then |events| else after + S.PAGE;
              && batch.events == events[after..to] && batch.cursor == to
              && batch.status == (if to < |events| then S.Running else outcome)
              && (batch.error.Some? <==> outcome.Failed?) && (outcome.Failed? ==> batch.error.value == outcome.error)
      ensures batch == S.Page(Job(), after)
    {
      batch := S.Page(Job(), after);
    }
  }
}
