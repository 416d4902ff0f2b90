/**
 A job's log, told from the callbacks and requests it got: the first of them that ends the job seals the
 log with what was emitted before it, and decides the outcome together with any cancellation before it.
 */
module JobHistories {
  import opened Options
  import opened JobStates
  import Delivery

  /** A callback of the native process, or a request to the job. */
  datatype Work = Tell(status: Outcome) | Cancelling | Broke(error: string) | Closing | Output(event: Event, size: nat)

  function Worked(j: Job, work: Work): Job {
    var next := match work
                case Tell(status) => if status.Failed? then None else SetStatus(j, status)
                case Cancelling => RequestCancel(j)
                case Broke(error) => Fail(j, error)
                case Closing => Close(j)
                case Output(event, size) => Emit(j, event, size);
    if next.Some? then next.value else j
  }

  function WorkedAll(works: seq<Work>): Job
    decreases |works|
  {
    if works == [] then Opened else Worked(WorkedAll(works[..|works| - 1]), works[|works| - 1])
  }

  // --- The same, said of the works -------------------------------------------------------------------------

  function Emitted(works: seq<Work>): seq<Event>
    decreases |works|
  {
    if works == [] then []
    else
      var last := works[|works| - 1];
      Emitted(works[..|works| - 1]) + if last.Output? then [last.event] else []
  }

  function Bytes(works: seq<Work>): nat
    decreases |works|
  {
    if works == [] then 0
    else
      var last := works[|works| - 1];
      Bytes(works[..|works| - 1]) + if last.Output? then last.size else 0
  }

  /** What would end the job here: an end told, a failure, a closing, or an event past the limit. */
  predicate Seals(works: seq<Work>, k: nat)
    requires k < |works|
  {
    match works[k]
    case Tell(status) => status.Completed? || status.Cancelled?
    case Cancelling => false
    case Broke(_) => true
    case Closing => true
    case Output(_, size) => Bytes(works[..k]) + size > EVENT_LOG_LIMIT
  }

  ghost predicate StillOpen(works: seq<Work>) { forall k | 0 <= k < |works| :: !Seals(works, k) }

  /** The first that does. */
  ghost predicate SealedBy(works: seq<Work>, k: nat) { k < |works| && Seals(works, k) && StillOpen(works[..k]) }

  /** The outcome it decides; nothing completes after a cancellation was asked for. */
  function Verdict(works: seq<Work>, k: nat): Outcome
    requires k < |works|
  {
    match works[k]
    case Tell(status) => if Cancelling in works[..k] then Cancelled else status
    case Broke(error) => Failed(error)
    case Output(_, _) => Failed("native_output_limit")
    case _ => Cancelled
  }

  /** The progress last told before any cancellation was asked for. */
  function Progress(works: seq<Work>): Outcome
    decreases |works|
  {
    if works == [] then Running
    else
      var last, before := works[|works| - 1], works[..|works| - 1];
      if last.Tell? && !last.status.Failed? && Cancelling !in before then last.status else Progress(before)
  }

  /** The log while nothing ended the job. */
  ghost predicate Goes(j: Job, works: seq<Work>) {
    && !Sealed(j) && j.outcome == Progress(works) && (j.cancelling <==> Cancelling in works)
    && Delivery.Events(j.events) == Emitted(works) && j.bytes == Bytes(works)
  }

  /** The log after the k-th ended it. */
  ghost predicate Stands(j: Job, works: seq<Work>, k: nat)
    requires k < |works|
  {
    && Sealed(j) && j.outcome == Verdict(works, k) && (j.cancelling <==> Cancelling in works[..k])
    && (j.closing <==> Closing in works[k..])
    && Delivery.Events(j.events) == Emitted(works[..k]) && j.bytes == Bytes(works[..k])
  }

  // --- One more work -----------------------------------------------------------------------------------------

  lemma OneMoreWork(works: seq<Work>, k: nat)
    requires works != [] && k < |works| - 1
    ensures var before := works[..|works| - 1];
            && before[k] == works[k] && before[..k] == works[..k]
            && (Seals(before, k) <==> Seals(works, k)) && Verdict(before, k) == Verdict(works, k)
            && works[k..] == before[k..] + [works[|works| - 1]]
  {
    assert works[..|works| - 1][..k] == works[..k];
  }

  lemma LastDecides(works: seq<Work>)
    requires works != []
    ensures var before, n := works[..|works| - 1], |works| - 1;
            && (StillOpen(works) <==> StillOpen(before) && !Seals(works, n))
            && forall k: nat | SealedBy(works, k) :: if k < n then SealedBy(before, k) else k == n && StillOpen(before)
  {
    var before := works[..|works| - 1];
    forall k: nat | k < |before| ensures Seals(before, k) <==> Seals(works, k) && works[..k] == before[..k] {
      OneMoreWork(works, k);
    }
    forall k: nat | k < |before| && StillOpen(works) ensures !Seals(before, k) { assert !Seals(works, k); }
    forall k: nat | SealedBy(works, k) && k < |before| ensures SealedBy(before, k) {
      assert works[..k] == before[..k];
    }
  }

  lemma EventsAppend(events: seq<Stamped>, e: Stamped)
    ensures Delivery.Events(events + [e]) == Delivery.Events(events) + [e.event]
  {
  }

  lemma WorkGoesOn(j: Job, works: seq<Work>)
    requires works != [] && Goes(j, works[..|works| - 1]) && !Seals(works, |works| - 1)
    ensures Goes(Worked(j, works[|works| - 1]), works)
  {
    var before, last := works[..|works| - 1], works[|works| - 1];
    assert works == before + [last];
    if last.Output? { EventsAppend(j.events, Stamped(|j.events| + 1, last.event)); }
  }

  lemma WorkEnds(j: Job, works: seq<Work>)
    requires works != [] && Goes(j, works[..|works| - 1]) && Seals(works, |works| - 1)
    ensures Stands(Worked(j, works[|works| - 1]), works, |works| - 1)
  {
    var last := works[|works| - 1];
    assert works[|works| - 1..] == [last];
  }

  lemma WorkIsTooLate(j: Job, works: seq<Work>, k: nat)
    requires k < |works| - 1 && Stands(j, works[..|works| - 1], k)
    ensures Stands(Worked(j, works[|works| - 1]), works, k)
  {
    OneMoreWork(works, k);
  }

  // --- Every history -------------------------------------------------------------------------------------------

  /**
   Whatever a job gets, in whatever order: its log is open exactly while nothing ended the job, and then
   holds everything emitted; and once something did, it holds for ever what was emitted before that, with
   the outcome that decided, which is a cancellation if completion came after one was asked for.
   */
  lemma {:induction false} LogsTellTheirHistory(works: seq<Work>)
    ensures StillOpen(works) ==> Goes(WorkedAll(works), works)
    ensures forall k: nat | SealedBy(works, k) :: Stands(WorkedAll(works), works, k)
    ensures Sealed(WorkedAll(works)) <==> exists k: nat :: SealedBy(works, k)
    decreases |works|
  {
    if works != [] {
      var before, n := works[..|works| - 1], |works| - 1;
      LogsTellTheirHistory(before);
      LastDecides(works);
      var j := WorkedAll(before);
      if StillOpen(before) {
        if Seals(works, n) {
          WorkEnds(j, works);
          assert SealedBy(works, n);
        } else {
          WorkGoesOn(j, works);
        }
      }
      forall k: nat | SealedBy(works, k) ensures Stands(WorkedAll(works), works, k) {
        if k < n { WorkIsTooLate(j, works, k); }
      }
      FirstSeals(works);
    } else {
      FirstSeals(works);
    }
  }

  /** If anything ends the job, something is the first to. */
  lemma {:induction false} FirstSeals(works: seq<Work>)
    ensures StillOpen(works) <==> !exists k: nat :: SealedBy(works, k)
    decreases |works|
  {
    if works != [] {
      var before, n := works[..|works| - 1], |works| - 1;
      FirstSeals(before);
      LastDecides(works);
      if !StillOpen(before) {
        var k: nat :| SealedBy(before, k);
        OneMoreWork(works, k);
        assert SealedBy(works, k);
      } else if Seals(works, n) {
        assert SealedBy(works, n);
      }
    }
  }
}
