# A verified model of the session runtime

The repository runs coding agents behind an HTTP API: a session is a durable object that queues a
client's input, drives one turn at a time in a remote runtime, reads the runtime's event log, and
keeps an append-only log of its own. This project models the parts of it that must stay right when
anything can interleave, fail or crash, and proves what they promise.

- **The durable machine** (`Machine`, `MachineStore`, `Durable`, `Runtime`; theorems in
  `DurableMoves`, `DurableRuns`, `DurableOrder`, `DurableAlarm`, `RuntimeRuns`). A state table
  stepped inside transactions, with epochs, a FIFO outbox, timers that fire once per deadline and one
  alarm. The theorems are about every run of commits, failed handlers, throwing transitions, wakes and
  crashes, for any machine the table checks accept. Resources are followed by a ledger the runtime
  never reads.
- **The session** (`SessionStore`, `SessionEvents`, `SessionState`, `SessionRuns`; theorems in
  `SessionShape`, `SessionHistory`, `SessionUsage`, `SessionTurns`, `SessionInputs`,
  `SessionSubmissions`, `SessionActions`, `SessionOutputs`, `SessionContents`, `SessionReasoning`,
  `SessionItems`, `SessionEffects`, and runs that go wrong in `SessionScenes`). Every transition is a function on the
  session's records; a run is any sequence of client, environment and reconciler transactions, the
  last kind fenced on an execution.
  `SessionObject` does the same in place, statement by statement, with rollback. `SessionReconcile`
  cuts the reconciler's tick where it waits and proves that ticks, whatever interleaves with them,
  only ever drive the session in the way those theorems ask; `SessionTicks` is about whole ticks.
- **Event delivery** (`JobLog`, `JobHistory`, `Delivery`, `SessionDelivery`, `SessionLinks`,
  `Delegation`, `DelegationHistory`, `SessionLive`). From the runtime's growing log through repeated
  and stale polls to the session, from a child's log to its parent, and from the session's log to the
  demo's live transcript.
- **Smaller cores**: `CanonicalJson` and `CanonicalRead` (the fingerprint behind every idempotency
  check), `Pagination` (cursor pages of the record store), `SkillZip` (the archive reader), `Vaults`
  (the OAuth refresh reservation), `Skills` and `SkillHistory` (version indexes) and `Transcript` (the
  bounded tail).

Time, fresh identifiers, the network's answers and handler outcomes are inputs the environment
chooses. Identifiers are either minted by the session, in order, or named by the runtime. Functions
outside the model (decoding, hashing, inflating) are parameters. Each class is proved equal, method
by method, to transition functions, and the theorems are about all runs of those functions.

## What does not hold as promised

Each of these is a theorem with its exact condition:

- A transition that throws while a wake fires timers leaves no alarm armed, although a timer is
  pending (`AlarmCanBeLost`); the alarm is right after a wake if and only if none threw
  (`WakeArmsUnlessItThrows`). Whether the platform retries a failed alarm is not part of the model.
- A fresh machine whose initial state has a timer has no alarm until something arms it, and a drain that
  finds nothing to do does not (`FreshTimersHaveNoAlarm`). Exactly when the alarm is on time is said of
  all runs in `AlarmIsOnTimeIff`, and of those from a fresh machine whose wakes neither throw nor crash in
  `AlarmIsOnTime`.
- Object keys are compared with `localeCompare`, which can tie different strings. The fingerprint is
  canonical if and only if it never does (`CanonicalUnlessTied`).
- Refused input that does not fit one page of 100 rows and the page's character budget is cleared
  with the rest when the turn is sealed, as all of it is, by intent, at a cancelled or indeterminate seal.
  Nothing is lost exactly when there is none, or the outcome is another and it fits
  (`NothingRefusedIsLostIff`). The last of 101 refused steers is (`TheLastOf101SteersIsLost`).
- An item a runtime attributes to a subagent without naming its turn is stored under the subagent
  but closed with the root turn, so its stored copy stays in progress (`StrayItemsStayOpen`). A close
  reaches the copy if and only if both use one partition (`CloseReachesTheCopyIff`); with one owner
  per turn they always do (`ListingShowsWhatWasStreamed`).
- A root turn can end early or twice. It ends exactly once if and only if no accepted batch reports a
  child turn of its identifier as failed or cancelled, and no seal finds it held for the checkpoint or
  stored as an open child (`RootTurnsEndOnceIff`). Each of the three happens
  (`FailedReportEndsTheRootEarly`, `CompletedReportEndsTheRootTwice`,
  `RunningReportEndsTheRootTwice`), and none with a runtime that names its child turns itself
  (`EachRootTurnEndsOnce`).
- A live reader that was told a root turn is a subagent's shows the turn's text there, while the listing
  has it as the root's (`GivenAwayTextIsLostToTheRoot`). A text event reaches the reader's copy under an
  owner if and only if the reader files the turn there and the event does not extend an item that was no
  message (`TextIsShownIff`), and where that always held, reader and store agree
  (`LiveReaderAgreesWithTheStore`). A runtime that names its child turns itself leaves every root turn filed
  as the root's (`CourteousRunsFileTheirRoots`).
- A client that follows the announcements of a reasoning item goes on showing what was streamed of a part an
  unfinished summary rewrites, until the item is finished (`SummariesAreShownIff`).
- An archive is accepted whose end record no comment closes, if that record lies one byte below the
  window the search covers and no other is closed (`EndRecordIsLast`, `AnUnclosedArchiveIsAccepted`).
- A walk through pages is upset if the row it stands at is deleted and put again: an ascending walk
  skips the rows it had not reached, a descending one repeats those it had shown
  (`RecreatedCursorsStartOver`).
- A refresh request whose answer nobody heard is followed by another exactly if, when it went out, a
  rotation had removed its reservation and the credential was due all the same
  (`OvertakenRequestsCanBeFollowed`, `RotationsOvertakeRequests`).
- A delegated child can emit after its terminal record, exactly if a poll was out when the parent
  cancelled (`CancelledChildrenMaySpeakAgain`, `EndedChildrenAreSilent`).
- The note of omitted entries is not counted against the transcript's limit: the text exceeds it exactly
  if two or more entries do not fit together and the longest tail that does has no room for the note
  (`TextFitsUnlessNoted`, `NotedTextsCanBeTooLong`).

## Conditions on the environment

Some theorems need the runtime to behave, and say so: it cannot know an identifier the session has
yet to mint (`Possible`, in the usage theorem); it attributes each turn to one owner (`AttributedStep`);
the messages meant keep their type (`SteadyStep`, in the theorems on the live reader); the pages it
answers with come from one log per execution (`AllPaged`, which `SessionFollowsItsJob` does without: there
the job logs are part of the run). What the input theorems ask of the reconciler (`AllDriven`) is proved
of its ticks (`TicksDriveTheSession`). A commit and the arming that follows it are one step.

## Model

| member | source | states |
|---|---|---|
| Machines.TimersSorted | packages/durable-machine/src/machine.ts:320-336 | the timers of a state are a permutation of the deadlines it derives, earliest first |
| Machines.FreedExactlyOnce | packages/durable-machine/src/machine.ts:294-304 | leaving a state releases each resource it held and the next one does not hold exactly once, and no other resource |
| Machines.MovesStayInTable | packages/durable-machine/src/machine.ts:268-319 | a step that moves ends in a state of the table with valid data, plans only valid commands, and reports truthfully whether the tag changed; what it plans is said in DurableMoves.TransitionsFollowTheTable |
| MachineStores.MemoryStore.constructor | packages/durable-machine/src/store.ts:115-119 | an empty store, whose first identifier is 1 |
| MachineStores.MemoryStore.Begin | packages/durable-machine/src/store.ts:121-125 | only the outermost transaction keeps a snapshot; a nested one joins it |
| MachineStores.MemoryStore.End | packages/durable-machine/src/store.ts:126-133 | a throw restores the snapshot of the outermost transaction and nothing else does |
| MachineStores.MemoryStore.Save | packages/durable-machine/src/store.ts:135-137 | replaces one machine's state and no other |
| MachineStores.MemoryStore.Enqueue | packages/durable-machine/src/store.ts:138-142 | appends to the end of one machine's outbox under a new identifier and leaves every other outbox alone |
| MachineStores.MemoryStore.Remove | packages/durable-machine/src/store.ts:147-149 | keeps every row but the one named |
| MachineStores.MemoryStore.Reschedule | packages/durable-machine/src/store.ts:150-152 | rewrites attempts and due time of one row in place, without reordering |
| MachineStores.QueueStaysOrdered | packages/durable-machine/src/store.ts:143-146 | a machine's outbox lists its commands in enqueue order, by rising identifiers |
| MachineStores.RemovingTheHead | packages/durable-machine/src/store.ts:143-149 | removing the head of one outbox leaves its tail, and every other outbox unchanged |
| MachineStores.ReschedulingTheHead | packages/durable-machine/src/store.ts:143-152 | rescheduling the head rewrites that entry alone and moves nothing |
| DurableRuntime.Runtime.constructor | packages/durable-machine/src/durable.ts:96-115 | a runtime over one key of a shared store, with no alarm armed and nothing in flight |
| DurableRuntime.Runtime.Transition | packages/durable-machine/src/durable.ts:145-159 | in place, one step inside the caller's transaction does what the table answers: the commands asked for join the outbox in order, then a release for each resource freed, all due after the recovery delay; a throw writes nothing; other machines are left alone |
| DurableRuntime.Runtime.Post | packages/durable-machine/src/durable.ts:150-157 | the planned commands join the end of the outbox in order, under consecutive identifiers |
| DurableRuntime.Runtime.NextWake | packages/durable-machine/src/durable.ts:132-141 | on the store's own rows: no time exactly if no timer is pending and no command queued, otherwise the earliest pending timer or the head's due time, whichever is first |
| DurableRuntime.Runtime.Apply | packages/durable-machine/src/durable.ts:161-169 | an event commits what the table answers, with its commands and releases queued, and arms the alarm, or, when the step or the host throws, leaves everything as it was |
| DurableRuntime.Runtime.Take | packages/durable-machine/src/durable.ts:190-200 | hands out the head exactly if it is a release or of the current visit and is a first attempt or due, drops a stale non-release head, and is idle otherwise |
| DurableRuntime.Runtime.Settle | packages/durable-machine/src/durable.ts:213-223 | after a success the command is removed and its answer applied in one transaction; a throw keeps the command |
| DurableRuntime.Runtime.Postpone | packages/durable-machine/src/durable.ts:232 | a failure keeps the command at the head with one more attempt and a later due time |
| DurableRuntime.Runtime.Finish | packages/durable-machine/src/durable.ts:202-241 | how each end of a handler is recorded, and exactly when the drain goes on |
| DurableRuntime.Runtime.FireOne | packages/durable-machine/src/durable.ts:259-270 | one firing marks its deadline and applies its event in one transaction, undone by a throw |
| DurableRuntime.Runtime.FireTimers | packages/durable-machine/src/durable.ts:257-274 | the firing loop is at most 64 specified firings, and throws exactly when one of them does |
| DurableRuntime.Runtime.Admit | packages/durable-machine/src/durable.ts:161-169 | events that land while a handler runs are applied in order |
| DurableRuntime.Runtime.Drain | packages/durable-machine/src/durable.ts:243-255 | the drain loop does what the specified drain does, whatever lands while handlers run |
| DurableRuntime.Runtime.Wake | packages/durable-machine/src/durable.ts:284 | a wake fires timers and then drains, unless a firing threw |
| RuntimeRuns.ArrivalsAreARun | packages/durable-machine/src/durable.ts:161-169 | applying events is a run of the transition system |
| RuntimeRuns.FiringsAreARun | packages/durable-machine/src/durable.ts:257-274 | the firing loop is a run of firings on its ticks in order, and stops early only when its wake is over |
| RuntimeRuns.DrainIsARun | packages/durable-machine/src/durable.ts:243-255 | a drain is a run with one look for each round it used, and it stops only when its rounds are over, nothing can be handed out, or a handler failed or its answer threw |
| DurableRuns.ReleaseConservation | packages/durable-machine/src/durable.ts:145-241 | on every run, for each resource: entries into holding it equal releases whose handler succeeded, plus releases still queued, plus one if the state holds it now; and each queued release the ledger counts is, in the outbox, the command that frees that resource |
| DurableRuns.NothingLeaks | packages/durable-machine/src/durable.ts:190-241 | a drained machine whose state holds nothing has released everything it ever entered, as often as it entered it |
| DurableOrder.EpochsAdvance | packages/durable-machine/src/durable.ts:145-159 | epochs never decrease, and two moments of a run with one epoch have one state tag |
| DurableOrder.SameVisit | packages/durable-machine/src/durable.ts:145-231 | a queued command whose epoch is current was enqueued in this very visit, through every moment since |
| DurableOrder.HandedOutInItsVisit | packages/durable-machine/src/durable.ts:190-200 | a non-release command is handed out only in the state visit that enqueued it |
| DurableOrder.AnswersLandInTheirVisit | packages/durable-machine/src/durable.ts:213-223 | a handler's answer changes the state only in the visit that enqueued its command |
| DurableOrder.LeaveInEnqueueOrder | packages/durable-machine/src/durable.ts:190-231 | on every run of a fresh machine, and through every continuation, commands leave the outbox strictly in enqueue order |
| DurableOrder.TimersFireOncePerDeadline | packages/durable-machine/src/durable.ts:257-274 | on every run of a fresh machine, between two firings of a timer at one deadline in one epoch it fired at another deadline |
| DurableOrder.AlternationShows | packages/durable-machine/src/durable.ts:130-131 | so between two firings of a timer at one deadline in one epoch it fired at a different one |
| DurableAlarm.NextWakeIsEarliest | packages/durable-machine/src/durable.ts:132-141 | no alarm exactly when no timer is pending and the outbox is empty; otherwise the earliest of both |
| DurableAlarm.CommitsSetTheAlarm | packages/durable-machine/src/durable.ts:142-255 | outside a wake every action that arms leaves the alarm at the next wake whatever it was before, and every other one changes neither |
| DurableAlarm.WakeArmsUnlessItThrows | packages/durable-machine/src/durable.ts:257-274 | after a wake's firings the armed time is the next wake if and only if no transition threw; otherwise no alarm is armed while a timer is pending |
| DurableAlarm.AlarmIsOnTimeIff | packages/durable-machine/src/durable.ts:142-284 | on every run of any machine, outside a wake, the armed time is the next wake if and only if the last thing that happened to the alarm was an arming, or nothing did and it was right, or it went off and nothing is left to wake for |
| DurableAlarm.AlarmIsOnTime | packages/durable-machine/src/durable.ts:132-284 | on every run of a fresh machine whose wakes neither throw nor crash, the armed time is the next wake if and only if the initial state has no timer or something on the way armed it |
| DurableAlarm.FreshTimersHaveNoAlarm | packages/durable-machine/src/durable.ts:243-255 | a concrete accepted machine whose initial state has a timer, for which a drain that finds nothing arms nothing |
| DurableAlarm.WakeMakesProgress | packages/durable-machine/src/durable.ts:190-284 | a wake at or after the next wake fires a timer, throws trying, or takes the head of the outbox |
| DurableAlarm.AlarmCanBeLost | packages/durable-machine/src/durable.ts:257-274 | a concrete accepted machine whose throwing transition leaves a pending timer without an alarm |
| DurableAlarm.RetriesBackOff | packages/durable-machine/src/durable.ts:92 | retry delays grow with the attempts from one second to one minute and no further |
| DurableMoves.TransitionsFollowTheTable | packages/durable-machine/src/durable.ts:145-159 | in terms of the table alone: a state or event it does not know throws, a final state and an answer to ignore or reject change nothing, and a move it allows saves the state asked for and appends exactly the commands asked for, in order, and one release for each resource freed, each of the new epoch, unattempted and due after the recovery delay |
| DurableMoves.FreedInTableOrder | packages/durable-machine/src/machine.ts:294-304 | the resources freed come in the order the table lists them |
| DurableMoves.PendingIff | packages/durable-machine/src/durable.ts:130-131 | a timer is pending exactly if the state has it and it has not fired at that deadline |
| DurableMoves.TheEarliestTimerFires | packages/durable-machine/src/durable.ts:257-274 | a firing is of the earliest pending timer that is due, marks its deadline and does what the table answers; there is none exactly if no pending timer is due |
| DurableMoves.AnswersAreApplied | packages/durable-machine/src/durable.ts:213-223 | a handler that succeeded: its command leaves, and its answer does what the table says if the state is still in the visit that queued it |
| DurableMoves.RunCounts | packages/durable-machine/src/durable.ts:225-232 | over every run the attempts of a queued command are the failures of its handler, and it is due when the delay since the last one is over |
| DurableMoves.HandedOutIff | packages/durable-machine/src/durable.ts:190-200 | on every run of a fresh machine a free drain hands out the head exactly if it is a release or of the current visit, and its handler never failed or the delay since its last failure is over |
| CanonicalJson.TextUnique | packages/agent-api/src/protocol.ts:261-269 | the canonical text is unambiguous: a text followed by a delimiter determines the value and what follows |
| CanonicalJson.PrintsTheCanonicalForm | packages/agent-api/src/protocol.ts:261-269 | the printer writes exactly the text of the value with members sorted and undefined ones dropped |
| CanonicalJson.CanonMeansTheSame | packages/agent-api/src/protocol.ts:261-269 | sorting members changes no meaning |
| CanonicalJson.PrintIsInjective | packages/agent-api/src/protocol.ts:261-269 | two values with one text are equal up to member order, whatever the key comparison |
| CanonicalJson.OneMeaningOneForm | packages/agent-api/src/protocol.ts:261-269 | values equal up to member order have one canonical form, if the comparison ties no two keys |
| CanonicalJson.TiesShow | packages/agent-api/src/protocol.ts:261-269 | for any two different keys the comparison ties, two equal objects that print differently |
| CanonicalJson.CanonicalUnlessTied | packages/agent-api/src/protocol.ts:261-269 | equal texts mean equal values in both directions if and only if the comparison ties no two different keys |
| CanonicalReads.CanonicalTextReadsBack | packages/agent-api/src/protocol.ts:261-269 | a reader of JSON text by RFC 8259 reads the canonical text of a value, to its end, as the canonical form, which means the same as the value |
| CanonicalReads.StringsReadBack | packages/agent-api/src/protocol.ts:261-269 | an escaped string, read by the escapes of section 7 of RFC 8259, is the string |
| CanonicalReads.SortingIsStable | packages/agent-api/src/protocol.ts:261-269 | members come in ascending order of their keys, and those whose keys tie in the order they had |
| JobLogs.JobLog.constructor | packages/supervisor/src/lifecycle.ts:230-248 | an open, empty log |
| JobLogs.JobLog.SetStatus | packages/supervisor/src/lifecycle.ts:256-267 | a status lands unless the job is settled or closing; under a cancellation only an end does, as cancelled; a change wakes the waiters, and nothing else does |
| JobLogs.JobLog.RequestCancel | packages/supervisor/src/lifecycle.ts:269-273 | after a cancellation request completion can no longer seal the job |
| JobLogs.JobLog.Fail | packages/supervisor/src/lifecycle.ts:274-280 | fails a job that is not sealed |
| JobLogs.JobLog.Close | packages/supervisor/src/lifecycle.ts:281-291 | seals the log, as cancelled unless it had settled |
| JobLogs.JobLog.Emit | packages/supervisor/src/lifecycle.ts:297-312 | appends the event under the next number, fails the job past the size limit, or ignores it; says truthfully whether it was retained |
| JobLogs.JobLog.Listen | packages/supervisor/src/lifecycle.ts:327-338 | rejects a cursor beyond the log, and waits exactly when there is no news and a wait was asked for |
| JobLogs.JobLog.Answer | packages/supervisor/src/lifecycle.ts:313-343 | the next events up to 128, the cursor behind the last of them, the outcome only when no event is left, and the error exactly of a failed job |
| JobStates.GrowsOnward | packages/supervisor/src/lifecycle.ts:249-255 | growth of a log composes: entries are only appended, a sealed log stays as it is and a settled outcome stays |
| JobHistories.LogsTellTheirHistory | packages/supervisor/src/lifecycle.ts:256-312 | whatever a job gets, its log is open exactly while nothing ended it, and then holds everything emitted and the progress last told; the first that ends it (an end told, a failure, a closing, an event past the limit) seals it for ever with what was emitted before and with the outcome it decides, a cancellation if one was asked for before |
| Delivery.FreshIsTheRest | packages/agent-api/src/session-state.ts:289-310 | of any consecutive page that starts at or before the cursor a reader takes exactly what lies beyond it |
| Delivery.ExactlyOnce | packages/supervisor/src/lifecycle.ts:256-343 | however the log grows and polls repeat or go stale: accepted events are exactly the first `cursor` entries, once and in order, and checkpointing is entered only with the whole sealed log accepted |
| Delivery.NothingIsLost | packages/supervisor/src/lifecycle.ts:313-343 | once a job completed, one round per page of 128 delivers all of its log and the reader knows it has all |
| Pagination.PageIsExact | packages/agent-api/src/storage.ts:145-216 | a page holds exactly the selected rows between its cursor and its last row, in order; without more, all of them |
| Pagination.FollowingYieldsTheListing | packages/agent-api/src/storage.ts:145-216 | following `last_id` ends and yields every selected row once in (seq, id) order, for any limit and any row sizes |
| Pagination.RowsThatStayAreShownOnce | packages/agent-api/src/storage.ts:112-216 | a row present throughout is shown exactly once by a finished walk, whatever is updated, appended or deleted between its pages, while the row it stands at is not deleted |
| Pagination.RecreatedCursorsStartOver | packages/agent-api/src/storage.ts:112-216 | what happens without the proviso, over whole walks: an ascending walk never shows again a row that was there, a descending one shows each once more |
| Pagination.RecreatedCursorSkipsRows | packages/agent-api/src/storage.ts:112-216 | a concrete walk of two rows that ends without having shown one that was there throughout |
| Pagination.RecordStore.Store | packages/agent-api/src/storage.ts:112-127 | an update keeps number and place of its row and every other row; a new row goes to the back with a larger number than all |
| Pagination.RecordStore.Drop | packages/agent-api/src/storage.ts:128-130 | takes out exactly the named row and leaves the others in order; nothing if there is none |
| Pagination.RecordStore.ReadPage | packages/agent-api/src/storage.ts:145-216 | the reading loop with its limit, its character budget and its has_more flag computes the specified page |
| SessionShape.StepKeepsShape | packages/agent-api/src/session-state.ts:134-203 | every transaction keeps an execution exactly in the active phases at the record's generation, and `requires_action` exactly with actions outstanding; generations only grow |
| SessionShape.ReachableSessionsAreShaped | packages/agent-api/src/persistence/session-record.ts:107-115 | every reachable record has that shape, so no write is ever refused by validation |
| SessionShape.SpentIsSuperseded | packages/agent-api/src/persistence/session-tx.ts:83-92 | a transition fenced on an execution that gave way fails and changes nothing |
| SessionShape.SealedExecutionsAreInert | packages/agent-api/src/session-state.ts:376-438 | after a seal, and whatever happens next, no step held for the sealed execution does anything |
| SessionHistories.RecordsTellTheirHistory | packages/agent-api/src/session-state.ts:312-437 | on every run the record's checkpoint is that of the last commit that succeeded, or the one it was created with, and the running turn has it; its error is the last seal's or a later failed setup's, its transcript is kept until a turn completes, and driver and revision never change |
| SessionHistories.SealsLeaveTheRecord | packages/agent-api/src/session-state.ts:376-437 | a commit of the session's own driver and revision leaves its checkpoint, any other seal leaves the one there was; both keep the usage, record the error, ask nothing more, and leave the session broken exactly if it failed in a way nobody can confirm |
| SessionEffects.LiveFencesAreObeyed | packages/agent-api/src/persistence/session-tx.ts:83-92 | in every reachable session a start, delivery, refusal, seal or commit succeeds if and only if it is made under the fence of the turn that runs, and a commit if, besides, its checkpoint fits |
| SessionEffects.SealsEndTheirTurns | packages/agent-api/src/session-state.ts:335-398 | a seal ends its turn with its outcome and error, in the table and in the log; a failed or cancelled one ends every open child alike, a commit publishes the held ones, and every other turn is left as it was |
| SessionEffects.RestartingTells | packages/agent-api/src/session-state.ts:399-437 | the turn a seal starts takes a new row, queued, and lists its input in order; no other turn changes |
| SessionEffects.StartsTell | packages/agent-api/src/session-state.ts:268-284 | an acknowledged start marks the turn in progress and announces it so, and changes nothing else |
| SessionEffects.PollsCompleteIff | packages/agent-api/src/session-state.ts:289-310 | a polled turn is about to complete if and only if it was, or its job completed and no command waits that the poll did not know to be cancelled |
| SessionEffects.UsageIsKept | packages/agent-api/src/session-events.ts:156-191 | a usage report replaces what its turn used, in the table and where it is held, and touches no other turn |
| SessionEffects.ChildReportsTell | packages/agent-api/src/session-events.ts:102-155 | a child's finished report is held until the root commits and a new row is in progress; any other is stored and announced as it says; no other turn changes |
| SessionEffects.SubagentReportsTell | packages/agent-api/src/session-events.ts:60-100 | a subagent's report is kept, and logged exactly if it is new, as created, or its status is |
| SessionEffects.UsageIsTakenIff | packages/agent-api/src/session-events.ts:156-165 | a usage report is accepted if and only if its turn is there |
| SessionEffects.ReportsTell | packages/agent-api/src/session-state.ts:567-614 | an environment report is published exactly if it is news, and then sets the status and, for a failed setup with no turn running, the session's error |
| SessionEffects.DeletionsTell | packages/agent-api/src/session-state.ts:624-645 | a session is deleted only while no turn runs, and purged only when deleted |
| SessionEffects.DeletedSessionsAreGone | packages/agent-api/src/session-state.ts:624-645 | a deleted session takes no input and no step of its reconciler |
| SessionUsage.SummedExactly | packages/agent-api/src/session-events.ts:156-191 | replacing a turn's usage moves the session total by exactly the difference; the clamp at zero takes no effect |
| SessionUsage.UsageIsConserved | packages/agent-api/src/session-events.ts:102-191 | on every run each component of the session's usage is the sum over all its turns, and a held child's usage is its stored turn's |
| SessionTurns.EventEndsWhatItNames | packages/agent-api/src/session-events.ts:102-155 | an accepted event adds a terminal event for the turn it reports as failed or cancelled, whichever that is, and for no other |
| SessionTurns.SealEndsWhatItLists | packages/agent-api/src/session-state.ts:376-398 | a seal adds one terminal event for its root turn and one for each child it lists, and no other |
| SessionTurns.ListedIff | packages/agent-api/src/session-state.ts:335-345 | a completed seal lists a turn exactly if it is held for the checkpoint, any other seal exactly if it is stored as an open child |
| SessionTurns.EndingsAreAccounted | packages/agent-api/src/session-state.ts:376-398 | on every run, whatever the runtime reports, the terminal events in the log are one for each root turn no longer active plus those its reports added |
| SessionTurns.RootTurnsEndOnceIff | packages/agent-api/src/session-state.ts:376-398 | on every run a root turn has one terminal event once it is no longer active and none before, if and only if no accepted batch reports it as failed or cancelled and no seal finds it held or stored as an open child |
| SessionScenes.FailedReportEndsTheRootEarly | packages/agent-api/src/session-events.ts:102-155 | from a new session: a child turn reported as failed under the root's identifier leaves a running root turn with a terminal event |
| SessionScenes.CompletedReportEndsTheRootTwice | packages/agent-api/src/session-state.ts:376-398 | from a new session: one reported as completed is held and gives the root a second terminal event at its seal |
| SessionScenes.RunningReportEndsTheRootTwice | packages/agent-api/src/session-state.ts:335-374 | from a new session: one reported as running makes the root's row a child's, which a failed seal closes before the root |
| SessionTurns.SealsLeaveNoChildOpen | packages/agent-api/src/session-state.ts:335-374 | after a failed or cancelled seal no subagent turn is open and none is held |
| SessionTurns.CompletedTurnsPublishTheirChildren | packages/agent-api/src/session-state.ts:376-398 | a completed seal stores and publishes every held child turn as it was held |
| SessionInputs.QueuedLast | packages/agent-api/src/session-state.ts:228-250 | a steer or tool result goes to the end of the queue under a new identifier; a cancellation is kept apart |
| SessionInputs.RefusedLast | packages/agent-api/src/session-state.ts:255-266 | a refusal removes exactly its command and puts a steer's input behind all input refused before |
| SessionInputs.QueuesAreKept | packages/agent-api/src/session-state.ts:289-310 | on every driven run queued commands belong to the active turn, and none waits in a turn about to complete unless a poll of that very execution knew of its cancellation |
| SessionInputs.CompletionLeavesNothingQueued | packages/agent-api/src/session-state.ts:289-310 | after a poll that knew of no cancellation finds the turn complete, nothing is queued until it is sealed, whatever happens |
| SessionInputs.UnansweredCommandsHoldCompletionBack | packages/agent-api/src/session-state.ts:289-310 | however long the run, an accepted command stays queued and completion waits until it is taken or refused, or a poll of the execution knew of its cancellation |
| SessionSubmissions.IdleSessionsTakeInput | packages/agent-api/src/session-state.ts:440-462 | input accepted by an idle session: it starts a turn exactly if it holds a message, whose input is the inherited transcript and the first message, each message listed in order with its own content; what follows is queued for the turn in order |
| SessionSubmissions.RunningSessionsTakeInput | packages/agent-api/src/session-state.ts:440-500 | input accepted while a turn runs: each message is a steer of exactly that input and each result its command, behind the queue in order, and all of it is listed |
| SessionSubmissions.SteersAreQueuedLast | packages/agent-api/src/session-state.ts:440-462 | a message to a running turn is queued last as a steer of exactly its input that knows the items it was listed as |
| SessionSubmissions.InputIsTakenIff | packages/agent-api/src/session-state.ts:514-562 | a session that is there takes input if and only if its key is new or had the same input, it is neither broken nor about to complete, and its driver can take the events |
| SessionSubmissions.TakenIff | packages/agent-api/src/session-state.ts:440-500 | a list of events is taken if and only if each is, in turn: no image the driver cannot see, no steering it cannot do, no result nobody asked for |
| SessionEffects.RefusedSteersAreUnlisted | packages/agent-api/src/session-state.ts:255-266 | a refused steer takes exactly its own items off the listing |
| SessionActions.ActionsAreTheOpenCalls | packages/agent-api/src/session-events.ts:625-663 | on every run the actions outstanding are the calls accepted and not answered since the last seal, in order, each with its own identifier and turn, and one for each call |
| SessionActions.ResultsAnswerExactlyTheirAction | packages/agent-api/src/session-state.ts:464-500 | a client's result is accepted if and only if its action is outstanding and the driver takes what it holds; it removes that action alone, is queued last, and the turn goes on if it was the last |
| SessionActions.ActionsWait | packages/agent-api/src/session-state.ts:464-510 | an action waits through any run until its result comes or the turn is sealed |
| SessionActions.CompletingTurnsTakeNoResult | packages/agent-api/src/session-state.ts:514-562 | the exception: a turn about to complete takes no input at all |
| SessionEffects.CallsTell | packages/agent-api/src/session-events.ts:625-663 | an accepted function call leaves its turn waiting, tells the client so, and publishes the call |
| SessionInputs.RefusedInputRunsNext | packages/agent-api/src/session-state.ts:399-437 | after a seal the next turn starts exactly when input was refused and the outcome allows it, with that page's input joined in refusal order |
| SessionInputs.NothingRefusedIsLostIff | packages/agent-api/src/session-state.ts:399-437 | a seal clears all refused input, and the next turn starts with all of it if and only if there is none, or the seal is neither a cancellation nor indeterminate and it fits the one page: a lone entry, or at most 100 within the character budget |
| SessionScenes.TheLastOf101SteersIsLost | packages/agent-api/src/session-state.ts:406-437 | from a new session: 101 steers accepted and refused one by one, and a failed turn, after which the last is neither in the next turn's input nor kept |
| SessionInputs.AcceptedOnce | packages/agent-api/src/session-state.ts:514-562 | input accepted under a key is only acknowledged again under it, and other input under it conflicts, at any later time |
| SessionInputs.EnvironmentMovesByReports | packages/agent-api/src/session-state.ts:567-614 | only a report moves the environment, and only where its rule lets it |
| SessionInputs.EnvironmentsNeverRegress | packages/agent-api/src/session-state.ts:567-614 | a settled environment is never pending again, and a failed one stays failed |
| SessionOutputs.ResolvedPlace | packages/agent-api/src/session-events.ts:214-253 | an event finds the place its native item has, or the one behind all places of its turn, under an identifier no other item has |
| SessionOutputs.PositionsAreExact | packages/agent-api/src/session-events.ts:214-295 | for every turn on every run the announced positions are those its items hold, in order, and are 0 to count minus 1 |
| SessionContents.EventsShapeTheirItem | packages/agent-api/src/session-events.ts:263-295 | an output event leaves its item, at its position and stored, with its text, parts or output extended or replaced as the event says, and every other position alone |
| SessionContents.ItemsTellTheirHistory | packages/agent-api/src/session-events.ts:263-623 | on every run there is an output item exactly for each native item an accepted event named, and it holds what those events said, in order, closed when its turn ended |
| SessionReasoning.SummariesAreShownIff | packages/agent-api/src/session-events.ts:455-536 | a client that follows what a summary announces shows the item's parts again if and only if the summary is finished or extends every part it names |
| SessionReasoning.StreamedPartsAreTold | packages/agent-api/src/session-events.ts:455-490 | a streamed part of a reasoning item is announced exactly as it is stored |
| SessionOutputs.FinishItemsCloses | packages/agent-api/src/session-events.ts:703-770 | closing a turn closes its open items and leaves every other position as it was |
| SessionOutputs.SealsLeaveNoItemOpen | packages/agent-api/src/session-state.ts:346-398 | after a seal no item of the root turn, nor of a child turn it closed, is in progress |
| SessionItems.ListingShowsWhatWasStreamed | packages/agent-api/src/session-events.ts:254-295 | if each turn has one owner, the stored copy of every output item is always the item at its position |
| SessionItems.CloseReachesTheCopyIff | packages/agent-api/src/session-events.ts:703-770 | closing an item reaches its stored copy if and only if it closes it in the partition it was stored in |
| SessionScenes.StrayItemsStayOpen | packages/agent-api/src/session-events.ts:703-770 | from a new session: a message in a subagent's name without its turn, and a failed turn, after which the log has it closed and its listed copy is in progress |
| SessionDelivery.BatchAppliesWhatIsFresh | packages/agent-api/src/session-state.ts:289-310 | a batch is accepted exactly when it has no gap and its new events are acceptable, and then only those count |
| SessionDelivery.SessionReadsItsLogExactlyOnce | packages/agent-api/src/session-state.ts:289-310 | on every run of the whole session the events applied in an execution are the first `cursor` of its log, and it is about to complete only with the whole log |
| SessionDelivery.JobPagesArePages | packages/supervisor/src/lifecycle.ts:313-322 | the pages a job log answers with are such pages |
| SessionLinks.SessionFollowsItsJob | packages/agent-api/src/session-reconcile.ts:200-204 | the session and its growing job logs together: however polls are asked, answered late and delivered again, what the session applied is the first `cursor` events of its execution's job, and it is about to complete only with the whole log of a job that completed |
| SessionReconcile.WritesAreDriven | packages/agent-api/src/session-reconcile.ts:118-231 | every transaction a tick makes under a live fence is one the session's guarantees ask for |
| SessionReconcile.TicksDriveTheSession | packages/agent-api/src/session-reconcile.ts:184-302 | whatever clients, runtime answers and crashes do between its waits, the effect of all ticks is a run of driven transactions with its queues kept |
| SessionReconcile.SealsFollowAStop | packages/agent-api/src/session-reconcile.ts:62-94 | on every run a tick seals a turn as failed or cancelled only on the answer of a stop an earlier wait decided: as cancelled only after the runtime said so; as failed with the code that wait saw if the stop was confirmed, and else as of unknown outcome; or as failed on an alarm without an executor |
| SessionReconcile.UnconfirmedStopsFailTheSession | packages/agent-api/src/session-reconcile.ts:74-94 | a failure whose stop nobody confirmed in time leaves the session failed with no turn started |
| SessionReconcile.TicksFailTurnsIff | packages/agent-api/src/session-reconcile.ts:96-231 | a tick decides that its turn failed if and only if the wait it expected shows why (deadline, revision, a rejected launch or poll, a missing or failed job, a refused batch or checkpoint), and the turn does not complete with that answer |
| SessionReconcile.ConfirmedStopsKeepTheSession | packages/agent-api/src/session-reconcile.ts:90-94 | a failure whose stop was confirmed is recorded with the code that decided it; unless that is one nobody can confirm, the session is not broken and its refused input runs next |
| SessionReconcile.WritesAreCalledFor | packages/agent-api/src/session-reconcile.ts:118-231 | a wait's answer leads to a transaction if and only if it calls for it: start acknowledged, events polled, checkpoint recovered, command taken or refused, stop answered |
| SessionTicks.RoundsDeliverTheQueue | packages/agent-api/src/session-reconcile.ts:96-110 | a round takes up the cancellation alone if there is one, and else the first hundred commands in the order queued |
| SessionTicks.RoundsEmptyTheirPage | packages/agent-api/src/session-reconcile.ts:118-158 | an executor that takes each command is given all of them once each and in order, after which just they have left the queue, nothing else changed, and the tick polls |
| SessionTicks.CommandsLeaveInOrder | packages/agent-api/src/session-reconcile.ts:96-158 | on every run a tick under a live fence hands over, drops or refuses only the head of the queue: commands leave in the order accepted, and none while one before it is unanswered |
| SessionTicks.PollsLeadOn | packages/agent-api/src/session-reconcile.ts:200-231 | a poll that was taken leads to the checkpoint if and only if the turn is about to complete and nothing waits, and to another round if and only if a command waits that the last round did not leave unanswered, or the tick polls on |
| SessionTicks.LateCommandsAreTakenUp | packages/agent-api/src/session-reconcile.ts:200-231 | a command accepted while the tick polled is at hand in its next round, from the head of the queue |
| SessionTicks.CooperativeRuntimesCompleteTheTurn | packages/agent-api/src/session-reconcile.ts:118-256 | in every reachable session whose turn is about to start, with no cancellation and one page of commands at most, a runtime that starts, takes every command and finishes with acceptable events takes the turn to its end in one tick, and its checkpoint is the session's |
| SessionReconcile.CompletionSurvivesTheDeadline | packages/agent-api/src/session-reconcile.ts:233-256 | in every reachable world a passed deadline makes no difference to a turn about to complete, and an alarm recovers its result |
| SessionReconcile.Reconciler.constructor | packages/agent-api/src/session-reconcile.ts:264-302 | a tick starts asleep |
| SessionReconcile.Reconciler.Proceed | packages/agent-api/src/session-reconcile.ts:184-256 | in place: a wait makes exactly the transaction its answer calls for, if any, one the session's guarantees ask for, and keeps true what the tick has read of the session |
| SessionObjects.SessionObject.Widen | packages/agent-api/src/session-events.ts:455-490 | in place, exactly the specified step: opens summary parts up to the one an event names |
| SessionObjects.SessionObject.Conclude | packages/agent-api/src/session-events.ts:455-536 | in place, exactly the specified step: a whole reasoning summary, over the parts streamed so far |
| SessionObjects.SessionObject.FinishOutputItems | packages/agent-api/src/session-events.ts:703-770 | in place, exactly the specified step: the loop over a turn's items closes each open one, in order |
| SessionObjects.SessionObject.TakeBatch | packages/agent-api/src/session-state.ts:289-310 | in place, exactly the specified step: the batch loop with its cursor, its gap error and the step to checkpointing |
| SessionObjects.SessionObject.CloseEach | packages/agent-api/src/session-state.ts:346-374 | in place, exactly the specified step: the loop closes each open child turn |
| SessionObjects.SessionObject.ListInput | packages/agent-api/src/session-state.ts:204-227 | in place, exactly the specified step: one listed item per input message, in order |
| SessionObjects.SessionObject.TakeInput | packages/agent-api/src/session-state.ts:514-562 | in place, exactly the specified step: a whole submission: idempotency, conflicts, and its events in order |
| SessionObjects.SessionObject.Transaction | packages/agent-api/src/persistence/record-store.ts:96-105 | in place, exactly the specified step: a transaction is done whole or, on any error, leaves every record as it was |
| LiveTranscripts.FoldSplits | examples/demo/src/index.tsx:273-289 | folding a log in pages is folding it at once |
| LiveTranscripts.Transcript.constructor | examples/demo/src/index.tsx:123-131 | an empty transcript at sequence number 0 |
| LiveTranscripts.Transcript.Put | examples/demo/src/index.tsx:203-215 | in place, an item joins once and is replaced when done |
| LiveTranscripts.Transcript.Append | examples/demo/src/index.tsx:217-232 | in place, a delta extends the message it names and nothing else |
| LiveTranscripts.Transcript.Read | examples/demo/src/index.tsx:154-195 | in place, one event |
| LiveTranscripts.Transcript.Replay | examples/demo/src/index.tsx:273-289 | a replayed page takes the transcript from the fold of the log up to its cursor to the fold up to the page's end |
| LiveTranscripts.Transcript.Frame | examples/demo/src/index.tsx:360-363 | a live frame the replay already covered changes nothing, the next one extends the fold |
| SessionLive.LiveReaderAgreesWithTheStore | packages/agent-api/src/session-events.ts:381-453 | at every commit of every run, folding the log shows each assistant message, of a root turn or a child's, exactly as it is at its position, if its turn was filed under one owner whenever something was said of its items: text, phase and status, across deltas, finished texts and forced closing |
| SessionLive.TextIsShownIff | examples/demo/src/index.tsx:142-232 | one accepted text event: a reader that shows the item so far under an owner shows it as it now is if and only if it files the turn under that owner and the event does not extend an item of another type, or the event changed nothing |
| SessionLive.CourteousRunsFileTheirRoots | packages/agent-api/src/session-events.ts:102-155 | with a runtime that reports children only under its own identifiers every root turn stays filed as the root's |
| SessionScenes.GivenAwayTextIsLostToTheRoot | examples/demo/src/index.tsx:142-195 | from a new session: the root turn is reported as a subagent's, and a message of it that follows is listed as the root's and shown as the subagent's and nowhere else |
| SessionLive.LiveReaderAgreesWithTheListing | packages/agent-api/src/session-events.ts:254-295 | on driven runs with one owner for each turn, where the reader files the turn under that owner, the stored copy is exactly the item the reader shows |
| SkillZip.FindEnd | packages/agent-api/src/skill-zip.ts:54-59 | the search stops at the last end record whose comment reaches the end of the file, or one byte below its window if there is none |
| SkillZip.EndOfCentralDirectory | packages/agent-api/src/skill-zip.ts:53-72 | the loop and the checks behind it, in place, read exactly the specified record |
| SkillZip.EndRecordIsLast | packages/agent-api/src/skill-zip.ts:53-72 | the record read is closed by its comment if and only if it lies within the window, if and only if the archive has a closed end record at all, and then it is the last such record |
| SkillZip.ApartIffDisjoint | packages/agent-api/src/skill-zip.ts:172-176 | sorting and comparing neighbours accepts exactly the range lists of which no two overlap |
| SkillZip.ParentsIff | packages/agent-api/src/skill-zip.ts:178-184 | the directories checked are exactly those a path goes through |
| SkillZip.AcceptedArchivesAreSound | packages/agent-api/src/skill-zip.ts:187-222 | an accepted archive's records tile the directory up to the end record read, its ranges are disjoint and before the directory, its paths distinct and safe with no file as a directory, its sizes true and within the limit |
| SkillZip.PaddedArchivesAreAccepted | packages/agent-api/src/skill-zip.ts:53-72 | an accepted archive without a comment is accepted just the same with 65536 zero bytes behind it, although no end record's comment reaches its end |
| SkillZip.ArchivesAreAcceptedIff | packages/agent-api/src/skill-zip.ts:187-222 | an archive is accepted, with exactly the entries it has, stored or deflated, if and only if it is well-formed, field by field: end record, central records end to end, local headers that agree, bodies of the size and checksum declared, separate ranges, distinct safe paths, no file as a directory, within the limit |
| SkillZip.ArchivesAreTooLargeIff | packages/agent-api/src/skill-zip.ts:194-203 | an archive is too large if and only if well-formed entries lead to one whose declared size exceeds what is left of the limit |
| SkillZip.SafePathIff | packages/agent-api/src/skill-zip.ts:73-87 | a path is safe exactly if its characters are ordinary and nothing between its slashes is empty, `.` or `..` |
| SkillZip.FilesAreListed | packages/agent-api/src/skill-zip.ts:194-222 | the files returned are exactly the entries that are no directories, each under its path with its bytes, executable exactly if one of the three octal digits of its mode says so |
| SkillZip.AnUnclosedArchiveIsAccepted | packages/agent-api/src/skill-zip.ts:53-72 | a concrete such archive of one file, with its end record 65558 bytes before the end |
| SkillZip.ReadRecord | packages/agent-api/src/skill-zip.ts:194-212 | reading one record, with all its checks |
| SkillZip.ReadRecords | packages/agent-api/src/skill-zip.ts:187-215 | the loop over the declared number of records, keeping names, files and ranges |
| SkillZip.ReadSkillZip | packages/agent-api/src/skill-zip.ts:187-222 | the whole reader succeeds if and only if the bytes are a well-formed archive, and returns exactly its files; otherwise the specified error |
| Vaults.UnansweredRequestsAreNotRepeated | packages/agent-api/src/vaults.ts:197-305 | after a refresh request went out under its reservation, no other goes out for the credential until its answer is recorded or the credential is rotated or deleted, through any crashes |
| Vaults.OvertakenRequestsCanBeFollowed | packages/agent-api/src/vaults.ts:205-212 | after a request nobody heard an answer to, the next caller sends another if and only if nothing was reserved for the credential when the first went out and it was due |
| Vaults.RotationsOvertakeRequests | packages/agent-api/src/vaults.ts:407-450 | from an empty store: for any due credential, any rotation that leaves it due and falls between reserving and sending lets two requests go out |
| Vaults.CommitsReplaceWhatWasRead | packages/agent-api/src/vaults.ts:306-340 | a settled refresh changes a credential if and only if it was granted and the credential still is what the refresh read, under its own reservation; it then carries the grant (access token, expiry if there is one, refresh token and scope if it names them, the rest as before) and loses the reservation, and nothing else changes |
| Vaults.OvertakenRefreshesChangeNothing | packages/agent-api/src/vaults.ts:306-340 | on every run a refresh reserved before a rotation or deletion changes nothing |
| Vaults.TheNextRefreshStartsFromTheLastGrant | packages/agent-api/src/vaults.ts:316-335 | through any run in which nothing else is recorded, rotated or deleted a credential carries the grant recorded last, and the next refresh sends the refresh token it brought, or the old one if it brought none |
| Vaults.OtherAnswersChangeNoSecret | packages/agent-api/src/vaults.ts:276-305 | a refusal gives back the refresh's own reservation and, if final, marks the credential; silence does neither, and no secret changes |
| Vaults.TokensAreUsableWhileGood | packages/agent-api/src/vaults.ts:162-176 | a rejected credential yields no token, a good one its own, one past that is refreshed if it can be, and one that cannot is expired |
| Vaults.RefreshesBeginIff | packages/agent-api/src/vaults.ts:177-197 | a refresh begins if and only if no other is under way and the credential is due and not rejected, from its stored secrets |
| Vaults.RefreshesReserveIff | packages/agent-api/src/vaults.ts:205-212 | it goes on if and only if nothing is reserved for the credential, and then its own reservation is |
| Vaults.RotationsReplaceWhatTheyName | packages/agent-api/src/vaults.ts:407-450 | a rotation takes effect if and only if it fits the kind stored; it replaces exactly the secrets it names, a new access token without an expiry has none, and it clears reservation and mark |
| Vaults.CredentialsComeAndGo | packages/agent-api/src/vaults.ts:451-457 | deletion takes a credential with its reservation and mark and no other, and a new credential replaces none |
| Vaults.VaultRepository.constructor | packages/agent-api/src/vaults.ts:140-144 | a repository without credentials |
| Vaults.VaultRepository.TakeReservation | packages/agent-api/src/vaults.ts:205-212 | in place, a reservation or the error of one outstanding |
| Vaults.VaultRepository.GiveBack | packages/agent-api/src/vaults.ts:287-305 | in place, only its own reservation is given back, marked when the refusal is final |
| Vaults.VaultRepository.Record | packages/agent-api/src/vaults.ts:306-340 | in place, a commit or its conflict, which changes nothing |
| Vaults.VaultRepository.Conclude | packages/agent-api/src/vaults.ts:276-344 | in place, how each outcome of a request ends the refresh |
| Vaults.VaultRepository.RotateCredential | packages/agent-api/src/vaults.ts:407-450 | in place, a rotation with its checks clears reservation and mark |
| Vaults.VaultRepository.RemoveCredential | packages/agent-api/src/vaults.ts:451-457 | in place, deletion takes reservation and mark along |
| Skills.IndexesAgree | packages/agent-api/src/skills.ts:187-316 | in every reachable repository: the default exists and names the skill, the latest is the highest surviving number, and numbers and versions lead to each other |
| Skills.NumbersAreNeverReused | packages/agent-api/src/skills.ts:231-278 | a version published later has a higher number than any the skill ever had |
| Skills.UploadsHappenOnce | packages/agent-api/src/skills.ts:195-278 | an upload key is only ever answered again, and conflicts for other input, at any later time |
| SkillHistories.SkillsTellTheirHistory | packages/agent-api/src/skills.ts:225-316 | on every run a skill holds exactly the versions published and not retracted or deleted since, in order, each with the next number and as uploaded; its default is the one last chosen, by the first publication, one that asked for it, or an update, and names it; every selector finds the version it stands for |
| SkillHistories.UploadsAreTakenIff | packages/agent-api/src/skills.ts:231-278 | an upload is published if and only if its key is new or reserved for this input, its bundle is the one reserved and the skill it names exists; it is answered again if it was published, and refused otherwise; what is answered is the version or skill made |
| SkillHistories.ReservationsAreKeptIff | packages/agent-api/src/skills.ts:195-214 | a key is reserved for one input and one bundle, exactly once, if the skill named exists |
| SkillHistories.RetractionsAreRefusedIff | packages/agent-api/src/skills.ts:279-315 | exactly the default cannot be retracted, and what no selector finds is not found |
| Skills.SkillRepository.constructor | packages/agent-api/src/skills.ts:194 | an empty repository |
| Skills.SkillRepository.Begin | packages/agent-api/src/skills.ts:195-214 | in place, an upload is reserved once per key |
| Skills.SkillRepository.Submit | packages/agent-api/src/skills.ts:231-278 | in place, publishing creates a skill or a version, or replays; an error changes nothing |
| Skills.SkillRepository.SetDefault | packages/agent-api/src/skills.ts:279-293 | in place, the default moves and takes name and description along |
| Skills.SkillRepository.RemoveVersion | packages/agent-api/src/skills.ts:294-306 | in place, a version other than the default goes and the latest follows |
| Skills.SkillRepository.RemoveSkill | packages/agent-api/src/skills.ts:307-315 | in place, the skill goes with its versions |
| Transcripts.TailIsTheLongestThatFits | packages/agent-api/src/session.ts:136-154 | what is kept is the longest suffix that fits the limit, or the last entry alone |
| Transcripts.TailAbsorbs | packages/agent-api/src/session.ts:143-154 | dropping early loses nothing: keeping a tail and going on is keeping the tail of everything |
| Transcripts.TranscriptBuilder.constructor | packages/agent-api/src/session.ts:136-139 | an empty transcript |
| Transcripts.TranscriptBuilder.Keep | packages/agent-api/src/session.ts:146-153 | one entry joins and the oldest go until the rest fits |
| Transcripts.TranscriptBuilder.Add | packages/agent-api/src/session.ts:143-154 | a page of items adds exactly their entries |
| Transcripts.TranscriptBuilder.Render | packages/agent-api/src/session.ts:155-159 | the kept entries joined and cut to the limit from the back, behind a note of exactly how many were omitted |
| Transcripts.OnlyALoneEntryIsCut | packages/agent-api/src/session.ts:155-159 | only a lone entry is ever cut, to its end of exactly the limit |
| Transcripts.TextFitsUnlessNoted | packages/agent-api/src/session.ts:143-159 | entries are omitted if and only if there are two or more that do not fit together, and the text exceeds the limit if and only if some are and the longest fitting tail, joined, has no room for the note |
| Transcripts.RenderingSaysWhatIsMissing | packages/agent-api/src/session.ts:155-159 | the text is all entries joined, or the longest fitting tail behind a note whose number is how many are missing |
| Transcripts.NotedTextsCanBeTooLong | packages/agent-api/src/session.ts:155-159 | a long entry behind a short one: the note makes the text longer than the limit |
| Transcripts.BuildTranscript | packages/agent-api/src/session.ts:365-372 | however items come in pages, the result is the tail of all entries, and omitted plus retained is their number |
| Delegations.RelayIsExactlyOnce | packages/supervisor/src/delegation.ts:313-395 | however polls repeat, fail or run late: what was relayed is exactly the first `cursor` relayable events of the child's log, with at most one terminal and one closing record |
| Delegations.EndedChildrenAreSilent | packages/supervisor/src/delegation.ts:313-383 | on every run after its end a child emits exactly what the poll then out still answers, and nothing if none was out |
| Delegations.CancelledChildrenMaySpeakAgain | packages/supervisor/src/delegation.ts:509-520 | after a cancellation the next event follows the terminal record if and only if a poll was out |
| Delegations.ChildrenSpeakForThemselves | packages/supervisor/src/delegation.ts:351-358 | everything relayed names the child's own turn and subagent, whatever the child named |
| DelegationHistories.ChildrenTellTheirHistory | packages/supervisor/src/delegation.ts:313-395 | on every run a child has followed its log exactly as far as the batches lead without a gap and ends with the first end anything brought: a finished batch's own status and error, an unknown outcome of a vanished one, a lost or cancelled relay; its one terminal record names that status, its output is the last final answer, and its open calls are those followed and not answered |
| DelegationHistories.WholeIff | packages/supervisor/src/delegation.ts:319-330 | a batch is taken whole exactly if each of its entries is known or directly behind what came before |
| Delegations.ChildRelay.constructor | packages/supervisor/src/delegation.ts:295-308 | a spawned child has announced itself and its turn |
| Delegations.ChildRelay.RelayEvent | packages/supervisor/src/delegation.ts:351-358 | in place, one event |
| Delegations.ChildRelay.RecordClosed | packages/supervisor/src/delegation.ts:384-395 | in place, closed at most once |
| Delegations.ChildRelay.End | packages/supervisor/src/delegation.ts:359-383 | in place, ended at most once, then closed |
| Delegations.ChildRelay.Follow | packages/supervisor/src/delegation.ts:313-349 | in place, one answered poll: its new events up to a gap, then what its status says |

## Left out

- Schema decoding and encoding, migration of stored records and the legacy cancel commands: stored values are taken to decode to themselves.
- Timer deadlines that are not finite numbers, on which the machine raises an error.
- Host transactions that catch a throw of a machine operation nested in them and still commit.
- A crash between a commit and the arming of the alarm, which the platform's own retries have to cover.
- The SQL and durable-object stores: `MemoryStore` stands for the transaction semantics, `RecordStore` for the record table; SQL text, row-size limits (`RecordTooLarge`) and the JSON encoding of rows are not modelled.
- Output keys are pairs of turn and native identifier; the concatenation the store uses as a key, and its lookup by item identifier, are not modelled.
- Timestamps, delegates, agent configuration, artifacts, the image limit, attachments and the contents of tool results: they do not decide any transition modelled here.
- PendingCommands: reads the first 100 queued commands; the character budget of that page is not applied, so a real round may take fewer and go on in the next.
- The bounds on rounds per tick and the long-poll timing: whether a tick polls again is the environment's choice.
- The time the expiry filter of a listing compares with: it is one and the same for all pages of a walk.
- The other transitions of `SessionObject` (one method for each, with its function as its contract) have no row of their own: what they promise is what the lemmas promise of those functions.
- An empty string as a subagent identifier, which the source treats as none in some places.
- Lone surrogates, `undefined` inside arrays and the number texts of -0 and NaN in the canonical printer: its inputs are parsed JSON with undefined members.
- CanonicalJson.TextUnique: string escapes are modelled per character, with one escape for each control character.
- UTF-8 decoding, DEFLATE and CRC-32 in the archive reader: they are functions of the bytes.
- The live transcript's entry order, reasoning and tool items, and its rendering: the fold follows messages, and the others only as items.
- SessionLive.LiveReaderAgreesWithTheStore: speaks of assistant messages; other items are replaced whole when they are done. Its guard is sufficient: a finished text also puts right what an earlier event filed elsewhere missed.
- LiveTranscripts.Transcript.Replay: one page; the cap on the number of pages is the caller's.
- Vaults.VaultRepository.Conclude: the mark left by a final refusal is written without checking the secret again, as in the source, and nothing is claimed about what it says of the current secret.
- Token endpoint requests and their encoding, URL matching of credentials and the vault records themselves.
- Skill bundles, YAML metadata and upload forms: an upload arrives with its name, description and fingerprint.
- The limit on concurrent children, waiting and tool output of the delegation tools, and their wording.
- `Operations.perform`, which memoizes one execution per key: its semaphore leaves one caller at a time.
- Transcript lengths are counted in characters; a cut through a surrogate pair is not modelled.
- HTTP routing, containers, the setup command, the HTML views and the native drivers of the runtimes.
