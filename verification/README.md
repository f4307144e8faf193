# Verified models of the QA tooling

This Dafny project models the stateful cores of the repository's test tooling and AI prototype, and proves
what they promise over every input, every run or every interleaving. `dafny verify dfyconfig.toml` checks all of it.

- **Browser relay** (`Mcp`, `Frames`, `RelayModel`, `RelayInvariants`, `RelaySteps`, `RelayHandlers`, `RelayRuns`,
  `RelayTrail`, `RelayMemory`, `RelayAccounts`, `RelayEffects`, `RelayCloses`, `RelayRestarts`, `RelayWitness`,
  `RelayObject`, `McpLines`). `RelayModel` gives each handler of the relay as a function on its state together with a history:
  what the client asked (every accepted request gets a ticket), what was queued for the client, what was sent to
  each backend generation, what each backend said, and which deferred lines came and left. A run is any sequence of received bytes, written
  bytes, handled lines, work and faults; it stops at the first error that a handler raises. `RelaySteps` and
  `RelayHandlers` prove one invariant for each handler, and `RelayRuns` draws the results for whole runs.
  `RelayTrail`, `RelayMemory` and `RelayAccounts` do the same for the contents of the client's lines and for restored
  handshakes. `RelayEffects` says what becomes of each line that is read, `RelayCloses` how a close is held, sent and
  retires its generation, and `RelayRestarts` when a generation is started and what it is then sent. `RelayWitness`
  gives a concrete run that overfills the relay. `RelayObject` is the relay as an object that changes its fields in
  place: its handlers compute what the functions do and keep all three invariants. `McpLines` writes out the lines that
  the protocol distinguishes.
- **Sessions** (`Sessions`). Supervisors, guardians and sweepers share session directories while processes die and
  their numbers are reused; every look at the process table is a step of its own.
- **Fixture ledger** (`Ledger`, `LedgerRuns`, `ProvisionerObject`). Provisioning and cleanup of one report-author
  account as sequences of single effects, each of which may be the last one before a crash.
- **Turn admission** (`Turns`, `TurnReports`, `TurnObject`). Runs and refreshes of the AI prototype, cut at every `await`.
- **Test evidence** (`Evidence`, `Summarize`, `Merge`, `PytestTiming`, `PytestCounts`). The log that the pytest plug-in writes, its
  summary, and the merge of several logs.
- **Startup receipts** (`Startup`, `StartupClock`). The launcher's append-only receipt, its consolidated form and its clock.
- **Algorithms** (`MarkdownLinks`, `Descendants`). The nested link scanner and the process-descendant closure.

Four results say that the code does less than one would expect, and exactly when:

- After a transport failure the relay answers every pending request if and only if the failure replies, all but the
  last, fit the relay's budget (`RelayRuns.FailureAnswersEveryRequest`); when the failure is the budget itself, only
  one request is answered (`RelayRuns.OverfullRelayLeavesRequestsUnanswered`), and a run of 257 requests gets there
  (`RelayWitness.SomeRunLeavesRequestsUnanswered`).
- The pytest plug-in reads run numbers of up to 20 digits, while the summary refuses any number above 10^15, so a log
  can be well made and still be refused (`PytestTiming.ProducedIsAccepted`, `PytestTiming.LongRunNumbersAreRejected`).
- A turn whose last credential read fails keeps its two locks for ever. Nothing else does that: any other live
  operation can still be brought to give everything back (`Turns.LocksAreLostExactly`), and a refresh survives such a
  failure. A run of five steps shows that it happens (`Turns.SomeTurnKeepsItsLocks`).
- A first provisioning that is interrupted can be repeated unless the cut falls between the creation of an object and
  the write that records it (`LedgerRuns.InterruptedProvisioning`). The repository knows this case: the repetition
  stops with a name collision that has to be reconciled by hand.

## Model

| member | source | states |
|---|---|---|
| `Frames.ScanOfAppend` | testing/agents/browser.py:566-595 | More input never changes the messages or the error already decided; a success continues from its leftover |
| `Frames.ChunkingIsIrrelevant` | testing/agents/browser.py:566-595 | However a byte stream is cut, the same messages, leftover and verdict come out |
| `Frames.SettledRest` | testing/agents/browser.py:566-595 | The leftover of a success is one partial line within the limit, and scanning it again yields nothing |
| `Frames.LinesArePreserved` | testing/agents/browser.py:566-595 | The yielded lines and the leftover are the input, byte for byte |
| `Frames.FramingRoundTrip` | testing/agents/browser.py:566-595 | Lines written one after another are read back as the same messages |
| `Frames.Framer.Receive` | testing/agents/browser.py:573-595 | The consuming loop yields exactly the scan of buffer and data, and keeps its leftover |
| `Mcp.Inventory` | testing/agents/browser.py:905-930 | The tool list is accepted exactly when it holds objects and not the release tool; the shown list is the backend's followed by that tool, and no other member changes |
| `RelayModel.DrainShrinks` | testing/agents/browser.py:1021-1025 | One round of the drain cannot defer again, so the queue shrinks and the loop ends |
| `RelayHandlers.ClientGood` | testing/agents/browser.py:732-803 | The client handler keeps the relay's invariant, or raises in a state that is still accounted for |
| `RelayHandlers.ServerGood` | testing/agents/browser.py:883-943 | So does the server handler |
| `RelayHandlers.ProgressGood` | testing/agents/browser.py:945-1025 | So does the work between messages: ending a held close, restarting, draining |
| `RelayRuns.EveryRunIsGood` | testing/agents/browser.py:727-1033 | Every run ends in a state with the invariant, or in a raised state that is accounted for |
| `RelayRuns.RequestsAreConserved` | testing/agents/browser.py:727-803 | In every run each accepted request is pending or answered, never both, none twice, and the client's bytes are those answers |
| `RelayAccounts.EveryLineIsAccountedFor` | testing/agents/browser.py:883-943 | In every run each line for the client is the relay's own answer made out to the request it answers, the backend's reply to that very request, or a backend's own notification or request byte for byte; none is a private reply |
| `RelayAccounts.ToolListsNameTheReleaseTool` | testing/agents/browser.py:905-930 | With JSON-RPC envelopes, a backend's answer to a tool list is shown with exactly its tools and the release tool, or as its error |
| `RelayAccounts.FailureTrail` | testing/agents/browser.py:1119-1125 | The failure branch adds only answers of the relay's own, each made out to the request it answers |
| `RelayRuns.PendingRequestsHaveOnePlace` | testing/agents/browser.py:732-803 | Each pending request is in exactly one of: in flight, deferred, held close |
| `RelayRuns.NothingIsLostWithAGeneration` | testing/agents/browser.py:945-1033 | Without a backend nothing is in flight, called back or unwritten; whatever earlier generations were sent was written and replied to |
| `RelayRuns.RetiresOnlyWhenIdle` | testing/agents/browser.py:818-881 | A step that ends a generation found nothing in flight, no open callback and no unwritten byte |
| `RelayRuns.ReleaseIsAnsweredAtOnce` | testing/agents/browser.py:818-881 | A well-formed release takes effect exactly when the relay is quiescent, ends the backend then, and is answered at once: with success or as busy |
| `RelayRuns.SilentAfterRelease` | testing/agents/browser.py:733-741 | After a release no backend is started and nothing more is sent or written to one, in any continuation |
| `RelayRuns.CancelledCloseKeepsTheBackend` | testing/agents/browser.py:955-981 | A cancelled close never ends the backend |
| `RelayRuns.DrainEmptiesTheQueue` | testing/agents/browser.py:1021-1025 | A drain that succeeds leaves nothing deferred unless it met a close |
| `RelayRuns.RestartWaitsForTheClient` | testing/agents/browser.py:982-1020 | Work that starts a generation leaves everything queued for the client, its own answers included, written |
| `RelayRuns.RestartedGenerationsAreGreeted` | testing/agents/browser.py:982-1020 | Each restarted generation gets the private initialize first and only callback replies until the saved `initialized` line |
| `RelayAccounts.HandshakesAreRestored` | testing/agents/browser.py:982-1020 | In every run each restarted generation was sent, under its private identity, the parameters of the client's last initialize request that had reached a backend; was greeted only upon a reply to it carrying the identity saved at the restart, and then with the client's last `initialized` line byte for byte; and that identity had come from a backend's reply to the client's own initialize |
| `RelayAccounts.PrivateReplyStaysPrivate` | testing/agents/browser.py:892-902 | In every run, handling the open private reply queues nothing for the client, changes no request, and ends the handshake exactly when it carries the identity saved at the restart |
| `RelayEffects.RequestsArePlaced` | testing/agents/browser.py:783-803 | In every run a pending identity stops the relay; a new request without a backend is answered if it is a ping, waits while no backend is ready or a close is held, is held if it is a close, and is otherwise sent byte for byte |
| `RelayEffects.NotificationsArePassedOn` | testing/agents/browser.py:748-782 | In every run a client's notification reaches a ready backend byte for byte and otherwise waits in line; an `initialized` line is saved |
| `RelayEffects.CancellationsTakeEffect` | testing/agents/browser.py:749-764 | In every run a cancellation takes a deferred request out and answers it as cancelled, marks a held close, or is passed on; one that names nothing stops the relay |
| `RelayEffects.CallbacksAreAnswered` | testing/agents/browser.py:742-747 | In every run a client's response closes its open callback and is passed on byte for byte; any other stops the relay |
| `RelayEffects.ReleasedRelayRefuses` | testing/agents/browser.py:733-741 | In every released run a request other than the release is refused with an error and nothing else is answered |
| `RelayEffects.BackendLinesAreShown` | testing/agents/browser.py:883-904 | In every run a backend's notification is shown byte for byte, a request too and opens a callback; duplicates and unmatched responses stop the relay |
| `RelayEffects.RepliesAreShown` | testing/agents/browser.py:903-943 | In every run the reply to a request that is no held close is shown at once as its answer; an unreadable initialize or tool list stops the relay |
| `RelayCloses.IdleCloseIsSent` | testing/agents/browser.py:945-981 | In every run idle work sends a held, uncancelled close to the backend and keeps holding it |
| `RelayCloses.CloseReply` | testing/agents/browser.py:931-943 | In every run the reply to a close in flight is kept back exactly when it says closed and the close is not cancelled; otherwise it goes out at once, the hold ends and the backend lives on |
| `RelayCloses.HoldLasts` | testing/agents/browser.py:945-981 | Whatever is read, written or tried, a kept reply stays as it is, apart from a cancellation, until work finds the relay idle |
| `RelayCloses.IdleCloseRetires` | testing/agents/browser.py:955-974 | Idle work on a kept reply ends the generation, answers with that reply and starts nothing; if the backend cannot be ended the answer is an error and the relay stops |
| `RelayCloses.SuccessfulCloseRetires` | testing/agents/browser.py:931-974 | The whole course: after a successful close reply, the first idle work retires the generation and answers with exactly that reply, unless it was cancelled |
| `RelayRestarts.RestartsExactly` | testing/agents/browser.py:982-1020 | In every run work starts a generation exactly when there is none, the relay is not released, the client's bytes are written, a request waits and the handshake can be restored |
| `RelayRestarts.DrainSends` | testing/agents/browser.py:1021-1025 | A drain sends exactly the deferred lines in order, without those struck out by a deferred cancellation, up to the first close, which it holds |
| `RelayRestarts.WaitingIsSent` | testing/agents/browser.py:1021-1025 | A request waiting behind no close and no cancellation is among what is sent |
| `RelayRestarts.WaitingRequestsReachABackend` | testing/agents/browser.py:982-1025 | In every run a restart, a matching private reply and one more work step send the new generation exactly its private initialize, the saved `initialized` line and the waiting lines |
| `McpLines.RequestsAreRead` | testing/agents/browser.py:732-803 | Written out as JSON-RPC, an initialize, ping, tool list, close, release or other tool call is read as what it is |
| `McpLines.ReleaseTakesNoTarget` | testing/agents/browser.py:818-834 | A release with any further member is read as ill-formed |
| `McpLines.NoticesAreRead` | testing/agents/browser.py:748-782 | Written out, `initialized`, a cancellation with its target and any other notification are read as what they are |
| `McpLines.CloseResultsAreRead` | testing/agents/browser.py:931-938 | A close result counts as closed exactly when it has content and does not say it is an error |
| `McpLines.IdentitiesAreRead` | testing/agents/browser.py:805-817 | The negotiated identity is the version, capabilities and server of the result |
| `RelayRuns.RequestsAreSentAtMostOnce` | testing/agents/browser.py:727-730 | Across all generations no request is sent twice and no dropped one at all, even in a run that raised; while running, each with the client's bytes |
| `RelayRuns.DeferredLinesLeaveInOrder` | testing/agents/browser.py:1021-1025 | Deferred lines leave in the order they were deferred, each at most once, unchanged |
| `RelayRuns.CancellationDooms` | testing/agents/browser.py:749-764 | A cancellation that finds its request deferred, or held unsent, dooms it |
| `RelayRuns.DoomedIsNeverSent` | testing/agents/browser.py:974-981 | A doomed request is never sent to any backend, whatever follows |
| `RelayRuns.FailureAnswersEveryRequest` | testing/agents/browser.py:1119-1125 | After a failure no request is answered twice, and all are answered exactly when the replies but the last fit the budget |
| `RelayRuns.FailureReplies` | testing/agents/browser.py:1119-1125 | The failure branch queues transport errors for the pending requests in the given order, each on its own ticket and made out to it, all of them unless the budget stops it |
| `RelayRuns.OverfullRelayLeavesRequestsUnanswered` | testing/agents/browser.py:690-709 | With 256 pending, one more request raises, and the failure branch then answers only one |
| `RelayWitness.SomeRunLeavesRequestsUnanswered` | testing/agents/browser.py:690-709 | A concrete run from the start raises at its 257th request, and in whatever order the failure branch then works, requests stay unanswered |
| `RelayObject.Relay.CheckBudget` | testing/agents/browser.py:690-709 | The object's budget check raises exactly when the model's does and changes nothing |
| `RelayObject.Relay.Client` | testing/agents/browser.py:732-803 | In place, a client line keeps the three invariants if the handler returns; raised or not, requests stay conserved and every line accounted for; it does what the line-by-line results are about |
| `RelayObject.Relay.Server` | testing/agents/browser.py:883-943 | So does a backend line |
| `RelayObject.Relay.Progress` | testing/agents/browser.py:945-1025 | So does the work between messages, with its drain loop |
| `RelayObject.Relay.FailPending` | testing/agents/browser.py:1119-1125 | The failure loop in place answers nobody twice and everybody exactly when the replies but the last fit |
| `Sessions.DeadNeverRevives` | testing/agents/browser.py:51-59 | In every continuation a process identity that is gone stays gone, although its number may be reused |
| `Sessions.StepGood` | testing/agents/browser.py:164-240 | Every step keeps what sweepers and guardians have read true, and their copies name the directory's own processes |
| `Sessions.IdentitiesAreRecorded` | testing/agents/browser.py:261-321 | In every run the identities in a directory are those its supervisor had when it created it and its child had when it was recorded |
| `Sessions.RemovalNeedsDeadOwners` | testing/agents/browser.py:215-240 | In every run a directory disappears only by its live supervisor's close after the child is gone, or with both recorded owners gone; a launching one only by its supervisor |
| `Sessions.RemoversNeverMeetLiveOwners` | testing/agents/browser.py:366-384 | From the decision to remove on, neither recorded owner is alive at any later point, so the check cannot go stale |
| `Sessions.SweepRemovesExactlyOrphans` | testing/agents/browser.py:164-240 | A sweep that nothing interrupts removes a directory exactly when it is running, unguarded and both owners are gone |
| `Sessions.GuardianFinishes` | testing/agents/browser.py:366-384 | Once both owners are gone, the guardian's next few readings remove the directory whatever happens between them |
| `Sessions.RunsFollow` | testing/agents/browser.py:51-59 | The process tables of any run satisfy what the guardian's loop relies on |
| `Sessions.GuardSession` | testing/agents/browser.py:366-384 | The polling loop removes at the first poll that finds both gone: never earlier, at most one poll late |
| `LedgerRuns.CleanupWorks` | testing/provision.py:357-429 | Cleanup performs only permitted effects, succeeds exactly when the entry may be cleaned and every recorded object still there is the fixture's, and then removes exactly those objects and their record |
| `LedgerRuns.InterruptedCleanupFinishes` | testing/provision.py:357-429 | However often and wherever cleanups are cut, the one that runs to its end removes what was recorded at the start, the record and the flag, and nothing else |
| `LedgerRuns.EveryCrashIsSafe` | testing/provision.py:129-148 | Wherever provisionings and cleanups are cut, the saved entry validates and at most one model and one dashboard exist under the fixture's names |
| `LedgerRuns.DeletionsAreAnnounced` | testing/provision.py:271-292 | Nothing is deleted unless the saved entry records it and announces it at that moment, and no model while a dashboard is recorded |
| `LedgerRuns.RemovePartWorks` | testing/provision.py:381-423 | Removing one object succeeds exactly when it is absent or the fixture's own, and then it and its record are gone; otherwise nothing was changed |
| `LedgerRuns.ProvisionWorks` | testing/provision.py:295-352 | Provisioning succeeds exactly when no cleanup is unfinished and each object is recorded and intact or can be created under a free name, and then both are recorded and intact |
| `LedgerRuns.InterruptedProvisioning` | testing/provision.py:295-352 | A cut first provisioning can be repeated exactly when the cut does not fall between a creation and its record |
| `ProvisionerObject.Provisioner.MarkCleanup` | testing/provision.py:271-277 | Announces in place and saves, or refuses a different announcement and changes nothing |
| `ProvisionerObject.Provisioner.ForgetResource` | testing/provision.py:280-292 | Drops the object from the record in place and saves, or refuses and changes nothing |
| `ProvisionerObject.Provisioner.CleanupFixture` | testing/provision.py:357-429 | The in-place cleanup performs exactly the effects of the cleanup that the results are about, in that order |
| `ProvisionerObject.Provisioner.EnsureFixture` | testing/provision.py:295-352 | The in-place creation or verification performs exactly the model's effects |
| `ProvisionerObject.Provisioner.ProvisionFixture` | testing/provision.py:584-657 | The in-place provisioning of one account performs exactly the effects on its entry and its fixture that the results are about, in that order |
| `Turns.LocksMatchLiveOperations` | ai/prototype/turns.js:30-127 | Under every interleaving at most one operation holds a credential, the two maps are exactly the live operations, and stores exist only under a lock |
| `Turns.TurnsEndOnce` | ai/prototype/turns.js:69-113 | Every turn emits its text and then, after its scope is cleared, exactly one terminal event; its text keeps its budget |
| `TurnReports.TurnsReportTheirOutcome` | ai/prototype/turns.js:69-113 | In every run a turn has emitted exactly the text pieces brought to it while it ran, in order and within its budget, and when done one terminal event: a result exactly when its response was completed while it ran unaborted |
| `TurnReports.AbortedExactly` | ai/prototype/turns.js:83-127 | In every run an operation is aborted exactly when it started so, or its turn was cancelled or its credential removed while it held the lock |
| `Turns.CountersMatchRunningTurns` | ai/prototype/runtime.js:107-123 | At every point the global counter is the number of running turns and the sum of the owner counters, none of them zero; both are empty when no turn runs |
| `Turns.AdmissionRespectsCaps` | ai/prototype/runtime.js:107-123 | A turn is admitted exactly below both caps and unaborted, and then both caps hold with it counted |
| `Turns.FailedReadKeepsTheLocks` | ai/prototype/turns.js:98-110 | After a turn's failed credential read both its locks stay taken by it in every continuation |
| `Turns.StuckExactly` | ai/prototype/turns.js:98-110 | In every run a turn is stuck exactly when its own credential read failed |
| `Turns.LocksAreLostExactly` | ai/prototype/turns.js:98-110 | In every run the locks of a live operation can still be given back exactly when its own read, as a turn, has not failed; else no continuation frees either |
| `Turns.WayOutFrees` | ai/prototype/turns.js:85-110 | An operation that is not stuck gives back its lock, its turn lock and its store in four steps, from whatever stage |
| `Turns.SomeTurnKeepsItsLocks` | ai/prototype/turns.js:69-113 | A five-step run after which both locks stay taken in every continuation |
| `TurnObject.TurnService.StartRun` | ai/prototype/turns.js:69-91 | Refuses exactly when a lock is taken; otherwise takes both; the service stays sound |
| `TurnObject.TurnService.StartRefresh` | ai/prototype/turns.js:30-45 | Refuses exactly when the credential is locked; otherwise takes it; the service stays sound |
| `TurnObject.TurnService.LeaveRunner` | ai/prototype/runtime.js:224-238 | The final block gives back the counters by every exit; the service stays sound |
| `TurnObject.TurnService.Receive` | ai/prototype/runtime.js:162-182 | A piece of the stream is charged and passed on, or ends the turn over its budget; the service stays sound |
| `TurnObject.TurnService.FinishReadBack` | ai/prototype/turns.js:98-110 | Locks and scope are given back exactly unless a turn's read failed; the service stays sound |
| `TurnObject.TurnService.Cancel` | ai/prototype/turns.js:115-121 | Aborts exactly the turn that holds the lock, if any; the service stays sound |
| `Summarize.Summarize` | scripts/ci/summary.py:114-185 | Accepts exactly the well-formed logs; its counts are the sizes of the sets they are meant to count, and completeness is the stated condition |
| `Summarize.NumberedByTest` | scripts/ci/summary.py:122-152 | Numbering within each group is the same as numbering along the log |
| `Summarize.CountGroups` | scripts/ci/summary.py:126-152 | The counting loop over groups, in any order, yields the counts of the whole log |
| `Evidence.ShapeAccepts` | scripts/ci/summary.py:51-111 | A start, plans, attempts and an end are accepted exactly when their parts are valid, distinct, planned and numbered |
| `Merge.MergeRejectsOnlyItsOwnNumbers` | scripts/ci/python-tests.py:148-200 | Once the partitions pass, only the merged log's own two numbers can be refused, and the incomplete-became-complete error never happens |
| `Merge.MergedCountsAreSums` | scripts/ci/python-tests.py:148-200 | Collected, observed, missing, per-outcome and per-test counts of the merged log are the sums over the partitions |
| `Merge.CompleteExactly` | scripts/ci/python-tests.py:169-200 | The merged log is complete exactly when not cancelled, every partition is complete and every status is 0 or 1; passed exactly when in addition all passed with status 0 |
| `Merge.MergedOutcomeExactly` | scripts/ci/python-tests.py:169-200 | The merged outcome in every case: cancelled, collection error, error, failed or passed |
| `PytestTiming.ProducedIsAccepted` | scripts/ci/pytest_timing.py:57-131 | A produced log is accepted exactly when no two collected names share a digest, no test was torn down twice or uncollected, and its numbers are within the limit |
| `PytestTiming.ProducedIsComplete` | scripts/ci/pytest_timing.py:57-131 | No planned test is missing, each has exactly one attempt after an orderly session, and the log is complete exactly when nonempty, ended and nothing was cancelled or not run |
| `PytestTiming.LongRunNumbersAreRejected` | scripts/ci/pytest_timing.py:42-49 | The log of a run whose number exceeds 10^15 is refused whatever it holds |
| `PytestTiming.TooLongExactly` | scripts/ci/pytest_timing.py:42-49 | A number without leading zeros exceeds the limit exactly when it has more than sixteen digits, or sixteen that are not a one and zeros |
| `PytestTiming.OneTestIsAccepted` | scripts/ci/pytest_timing.py:57-131 | For every digest, one passing test makes an accepted and complete log |
| `PytestTiming.Timing.CollectionFinish` | scripts/ci/pytest_timing.py:57-61 | Writes the start and one plan per distinct collected test, keeps the last item of each name, and stays ready |
| `PytestTiming.Timing.Emit` | scripts/ci/pytest_timing.py:73-105 | Writes one first attempt that names the test and its place, with the durations of the last report on each phase, and with the given outcome or the one these reports call for |
| `PytestTiming.Timing.LogReport` | scripts/ci/pytest_timing.py:107-111 | Keeps the report; at a teardown writes one attempt: failed exactly when a phase's last report failed, else skipped when one was skipped, else passed when the call was reported, else not run |
| `PytestTiming.Timing.SessionFinish` | scripts/ci/pytest_timing.py:113-131 | Exactly the collected tests without an attempt get one, in order, with the session's outcome, and the log is a produced log |
| `PytestTiming.SessionOutcomeExactly` | scripts/ci/pytest_timing.py:113-121 | Which outcome a session has, for every collection failure, interruption and exit status |
| `PytestCounts.FirstAttemptsAreCounted` | scripts/ci/pytest_timing.py:73-131 | In an orderly session first failures are, one for one, the collected tests torn down after a phase failed, and first passes those torn down with a call report and no failure or skip |
| `Startup.ValidateRecords` | scripts/ci/startup_timing.py:52-142 | The line-by-line validator accepts exactly the receipts that are valid as a whole |
| `Startup.ValidPrefix` | scripts/ci/startup_timing.py:52-142 | Every non-empty beginning of a valid receipt is valid |
| `Startup.LineExtends` | scripts/ci/startup_timing.py:52-142 | A line extends a valid receipt exactly when it passes the test on the validator's state |
| `Startup.PassedMeansFivePassedPhases` | scripts/ci/startup_timing.py:127-140 | A receipt that ends passed has exactly the five phases, all passed |
| `Startup.ValidateStartup` | scripts/ci/startup_timing.py:145-207 | The consolidated form is accepted exactly when it stands for a valid receipt |
| `Startup.ExpandUndoesConsolidate` | scripts/ci/startup_timing.py:210-247 | Consolidating a valid receipt and expanding it gives back the same records |
| `Startup.ConsolidateUndoesExpand` | scripts/ci/startup_timing.py:145-247 | Expanding an accepted consolidated form and consolidating it gives back the same form |
| `Startup.LoadedReceiptsAreAccepted` | scripts/ci/startup_timing.py:210-247 | What is loaded from a valid receipt is always accepted |
| `StartupClock.MetadataIsValid` | scripts/ci/startup_timing.py:250-314 | Whatever the environment holds, the metadata read from it validates |
| `StartupClock.MetadataReflects` | scripts/ci/startup_timing.py:250-314 | Each field is read from its own variable, and what is not hosted carries no commit and no run |
| `StartupClock.RoundingStaysWithinBound` | scripts/ci/startup_timing.py:410-436 | With each phase timed from the previous reading, the rounded phases and the rounded wall time differ by at most 0.003 ms |
| `StartupClock.AdditionsAccepted` | scripts/ci/startup_timing.py:369-440 | An update is accepted exactly when its phase is in order and its end agrees with all phases |
| `StartupClock.HonestUpdatesAreAccepted` | scripts/ci/startup_timing.py:369-440 | For honest readings the clock never causes a refusal |
| `StartupClock.Receipt.constructor` | scripts/ci/startup_timing.py:348-366 | A begun receipt is valid |
| `StartupClock.Receipt.Update` | scripts/ci/startup_timing.py:369-440 | Every update leaves a valid receipt: it appends its records, or refuses and changes nothing |
| `MarkdownLinks.ScanReadsBackDestinations` | scripts/ci/validate_reports.py:89-120 | Scanning any rendered nesting of labels, with escaped brackets, free parentheses in text and balanced destinations, returns the destinations, inner before outer, left to right |
| `MarkdownLinks.Links` | scripts/ci/validate_reports.py:89-120 | The scanning loop ends on every string and yields what the scan yields |
| `MarkdownLinks.ClosingParenthesis` | scripts/ci/validate_reports.py:105-118 | The inner loop finds the parenthesis that encloses balanced text, up to escapes, and fails exactly when there is none |
| `MarkdownLinks.ClosingExactly` | scripts/ci/validate_reports.py:105-118 | The search ends at a position exactly when the text before its parenthesis is a rendered balanced destination |
| `Descendants.Descendants` | testing/agents/verify_browser_isolation.py:102-115 | Ends on every table, even with parent cycles, and returns exactly the processes reachable from the verified owner |
| `Descendants.NestedDescendants` | testing/agents/verify_browser_isolation.py:448-449 | Taking descendants within descendants equals taking them in the full table, for members |
| `Descendants.FamilyIsClosed` | testing/agents/verify_browser_isolation.py:102-115 | Every child of a member of the result is in the result |

## Left out

- Operating-system effects: selectors, descriptors, signals (a shutdown request), process groups, inode checks and gradual directory removal. The relay's backend, its client and the process table are parameters or events; a directory's identity is never reused, and one process number is not given out twice within one clock tick.
- JSON text: the relay decodes through a given function and encodes through another; members it does not read live only in a line's bytes, and JSON values are compared structurally.
- Clocks and timeouts of the relay: an expired deadline is a fault event. The token of the private initialize is the one the choosing loop settles on.
- RelayRuns.DoomedIsNeverSent: stated for runs that have not raised; a run stops at its first error, after which the relay sends nothing but failure replies to the client.
- RelayRuns.PendingRequestsHaveOnePlace: stated for runs that have not raised, because a handler that raises may leave its own request between places.
- Order across deferred and directly forwarded requests: the relay does not keep it, only the order among deferred ones.
- Session starts that fail half way, output expiry and the stopping of child processes; the supervisor's close is one step that finds its child gone.
- ProvisionerObject.Provisioner.ProvisionFixture: leaves out connection profiles, account drift and capability checks, which happen before the fixture is touched; where one of them fails, the run is one that was cut.
- Other accounts of the registry. Content checks of a model or dashboard are one `intact` flag, a failed request is a cut, and other people are taken not to create objects under the fixture's names.
- Ledger.RemovePart: the two places where somebody else's removal matters are modelled; other interleaved changes happen between programs.
- Provider details of a turn: model lookup, tool calls, the separate budgets for context and reasoning, error classification; a failed store of a credential.
- Floating point: durations are exact reals rounded half to even, a merged wall time is taken as already rounded, and phase totals and rates of the summary are omitted. Size limits of receipt files are not modelled.
- Hashing: a test's digest is any function to 64 hexadecimal digits; where two collected names collide, the log is refused.
- MarkdownLinks.ScanReadsBackDestinations: text right after a label without a destination may not begin with a parenthesis, since it would be one.
- Markdown reference links, HTML, anchors, fences and the check of each destination.
- Change classification, gates, local CI orchestration, test partitioning, credential export and import, release and recovery scripts, login and server plumbing: long field checks or input and output, which would add only easy members.
