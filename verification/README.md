# Verified model of the agent-task runtime

Blueship runs long agent tasks: a scheduler claims task rows, executes them or
the steps of their plan graph, has the result reviewed, publishes it and notifies
the user through a durable outbox. This project models those parts in Dafny and
proves what they promise, over every input, every interleaving and every crash.

`dafny verify dfyconfig.toml` checks all of it.

## How the model is laid out

| file | module | models |
|---|---|---|
| `common.dfy` | `Common` | helpers shared by the others: minima, distinct sequences, even shares of a budget |
| `refs.dfy` | `Refs` | delivery refs: trimming, normalization, sorting, the bytes hashed into the occurrence key |
| `journal.dfy` | `Journal` | the notification journal; each transaction a function, `class AgentTaskStore` performing it in place |
| `delivery.dfy` | `Delivery` | the delivery protocol: workers, transport calls, crashes, lost commits |
| `resolution.dfy` | `Resolution` | error markers and the routine that records one provider answer |
| `outbox.dfy` | `Outbox` | coalesced kicks, the bounded pass amid other drainers, one send, one retry |
| `tasks.dfy` | `Tasks` | a task's rows: claims, transitions, checkpoint, submission, finalization |
| `reviews.dfy` | `Reviews` | claiming, producing and reviewing one durable one-shot task with many workers |
| `graph.dfy` | `Graph` | the step store and the graph executor with its workers and channel |
| `validation.dfy` | `Validation` | the persisted review and repair loop before publication |
| `overlap.dfy` | `Overlap` | the same loop in segments, with visitors replaced while they work |
| `grounding.dfy` | `Grounding` | the audit budget spent over fetched documents |
| `readwindow.dfy` | `ReadWindow` | the passage of a long source the auditor gets |
| `partition.dfy` | `Partition` | cutting a report for audit, scoring claims, combining verdicts |
| `excerpt.dfy` | `Excerpt` | bounded page windows, query windows and link pages |
| `cascade.dfy` | `Cascade` | circuit breakers and failover between inference routes |
| `fetchgate.dfy` | `FetchGate` | the reference-counted per-URL gate |

A transaction is one atomic step. Where several processes or goroutines meet, the
model is a step system: a state, a set of steps, a function applying one step, and
lemmas about every run from the initial state. A step that is not possible in a
state either is not enabled or changes nothing. Objects the program updates in
place are classes, and their methods are proved to do exactly what the step or
specification function says; what the program promises is then proved about those
functions.

Outside answers are arguments or arbitrary: the transport, the step handler, the
reviewer, the output guard, the repairer, the clock, new uuids, and whether a
transaction commits, aborts, or commits with its response lost.

## What is assumed

- The unique keys named by the `ON CONFLICT` clauses hold, and new attempts start
  in `dispatching`.
- Each claim stamps a timestamp later than every earlier one (for `LostClaimIsFenced`,
  later than the claim in question).
- Retry times and the cutoffs of passes are read off one clock.
- A transport that answers "definitely not sent" or "permanently not sent" did not
  deliver. Nothing is assumed of any other answer.
- A new uuid is not already that of an attempt.
- Equal hashes mean equal hashed bytes: occurrence keys, candidate hashes and part
  hashes are their preimages here.

## Where the code does not meet its description

- A claim is two statements, stamping the row and reading the stamp back, and the
  second checks only that somebody is running the task. If the row was reset and
  claimed again in between, two workers go by one claim; one can then start its
  handler over the other's saved candidate and overwrite it
  (`Reviews.SharedClaimRedoesSavedWork`). Reading back is safe exactly when the task no
  longer runs, or the stamp is the worker's own, or no other live worker goes by it, or
  a candidate is already saved (`Reviews.ReadIsSafeExactlyWhen`; over whole runs
  `Reviews.OrderlyExactlyWhen`). The results about reviews hold for all runs whose
  reads are of this kind; a worker that reads its own stamp always is
  (`Reviews.OwnStampIsHarmless`).
- `SetPending`, `UpdateProgress`, `PauseTask` and `Complete` check that some worker
  is running, not which one, and `Fail` checks nothing: a worker that lost its claim
  can take the row from its successor. `Tasks.UnfencedWrites` gives, for every operation
  without a claim, the exact condition under which it ends the successor's.
- Through the same missing guard `Fail` relabels a finished one-shot task as failed;
  its result and artifact stay (`Tasks.TerminalIsFinal`, `Tasks.FailRelabelsDone`).
- A completed finalization inserts its delivery refs without a conflict clause. If
  any pending ref is already reserved, or the accepted text is nothing but hidden
  blocks and markers, it is refused every time it is tried; `Tasks.CompletedCommitsExactlyWhen`
  gives the exact condition.
- A saved candidate only has to be non-blank, so it can be nothing but hidden blocks
  and markers. The third reviewer outage then publishes the checkpoint's or the last
  iteration's draft instead, and is refused every time it is tried when there is none;
  `Reviews.ThirdOutagePublishes` gives the exact condition.
- A replayed deferral is not always harmless: it changes the journal exactly when the
  intent was claimed since and that claim's answer is not on record yet
  (`Journal.DeferReplay`). The driver never replays one.
- A retry time is fixed when the answer is taken, before the deferral commits, so an
  intent that was not due when a pass began can come within its cutoff
  (`Delivery.SlowDeferralComesWithinReach`). It can exactly when its holder took its
  answer long enough before and has yet to record it (`Delivery.WithinReachExactlyWhen`),
  and does exactly when a deferral with a retry time within the cutoff commits
  (`Delivery.DueAfterRunExactlyWhen`). No pass claims an intent twice all the same
  (`Delivery.OncePerPass`).
- A worker that found no saved candidate and then lost its claim can start its
  handler after its successor saved one (`Reviews.StaleHandlerCanStart`). It does exactly
  when another worker's fenced save landed after it looked and was not rejected since
  (`Reviews.StartsOverCandidateExactlyWhen`); the fence keeps what it produces out of the rows.
- A late finish of an earlier call ends another call's probe, so two probes of one
  route can be in flight (`Cascade.LateFinishAdmitsSecondProbe`).
  `Cascade.SecondAdmissionExactlyWhen` says over any interleaving when a second call is
  admitted, `Cascade.LateFinishAdmitsExactlyWhen` what one late finish lets in.
- A report can be met although one of its parts, audited alone, is not
  (`Partition.MetReportWithUnmetPart`); `Partition.MetReportHasSoundParts` says exactly
  when a part is, by its counts.
- Stepping back to character boundaries can leave the place a researcher read out of
  the window, whatever the budget (`ReadWindow.LastPlaceCanBeCut`); `ReadWindow.ReadPlaceIsShownExactlyWhen`
  gives the exact condition, by which it is only ever one of the last six bytes
  (`ReadWindow.EarlierPlacesAreShown`).
- Cited and named documents can be left out of the audit: none is exactly when the sum
  of their lengths, each counted up to 4000, fits the budget (`Grounding.NoneOmittedExactlyWhen`).
  So 62 always fit, and of 63 long ones one is left out (`Grounding.ReferencesFit`,
  `Grounding.OneTooMany`).

## Model

| member | source | states |
|---|---|---|
| `Refs.NormalizeTaskDeliveryRefs` | internal/core/agent_store.go:102-124 | trims every ref, drops blank ones and repeats, keeps first-seen order; fails exactly when some trimmed field is too long |
| `Refs.NormalizedRefsAreProper` | internal/core/agent_store.go:102-124 | what normalization returns is distinct, trimmed, non-blank and within the length limits |
| `Refs.TrimCutsWhiteSpace` | internal/core/agent_store.go:102-124 | trimming cuts exactly the white space around what is left, which neither begins nor ends with any |
| `Refs.KeptGrows` | internal/core/agent_store.go:102-124 | what the first refs come to is a prefix of what all of them come to: first-seen order |
| `Refs.NormalizeIdempotent` | internal/core/agent_store.go:102-124 | normalizing a normalized list changes nothing |
| `Refs.KeptIgnoresOrder` | internal/core/agent_store.go:102-124 | the set of refs kept does not depend on input order |
| `Refs.SortedListingIsUnique` | internal/core/agent_store.go:811-818 | a set of refs has one sorted listing |
| `Refs.TaskNotificationOccurrenceKey` | internal/core/agent_store.go:820-835 | the loop produces the length-prefixed encoding of the sorted refs |
| `Refs.EncodingIsInjective` | internal/core/agent_store.go:820-835 | two ref lists with short fields and equal encodings are equal |
| `Refs.KeyIdentifiesRefSet` | internal/core/agent_store.go:820-835 | two normalized lists have the same key exactly when they hold the same refs |
| `Journal.AgentTaskStore.BeginNotificationAttempt` | internal/core/agent_store.go:131-229 | inserts attempt, key and reservations together, hits idempotently, or restores everything; equal to the transaction function `Begin` |
| `Journal.AgentTaskStore.ReserveEach` | internal/core/agent_store.go:193-224 | counts a full set of new reservations exactly when every ref was free |
| `Journal.AgentTaskStore.ConfirmNotificationAttempt` | internal/core/agent_store.go:234-305 | moves a dispatching attempt to sent and its reserved refs to the ledger; repeats succeed; a turn for another user is refused |
| `Journal.AgentTaskStore.MarkNotificationUncertain` | internal/core/agent_store.go:585-623 | dispatching to uncertain, repeatable, any other state refused unchanged |
| `Journal.AgentTaskStore.DeferNotificationAttempt` | internal/core/agent_store.go:628-670 | dispatching to retryable at the given time, repeatable, any other state refused unchanged |
| `Journal.AgentTaskStore.RejectNotificationAttempt` | internal/core/agent_store.go:674-712 | dispatching to rejected, repeatable, any other state refused unchanged |
| `Journal.AgentTaskStore.ClaimRetryableNotification` | internal/core/agent_store.go:733-785 | claims the earliest due intent no other drainer has locked, and returns its row's task, user and text with exactly its refs; returns none exactly when nothing unlocked is due; otherwise changes nothing |
| `Journal.AgentTaskStore.LookupDelivered` | internal/core/agent_store.go:42-76 | returns exactly the normalized refs delivered or reserved; fails exactly on an over-long ref |
| `Journal.BeginIsAllOrNothing` | internal/core/agent_store.go:131-229 | a partial overlap leaves no trace; a new attempt owns exactly its refs, all free before, and nothing else changes hands |
| `Journal.BeginExactlyWhen` | internal/core/agent_store.go:131-229 | a batch begins an attempt exactly if task and user are known, the text is visible, every ref fits and one is left, the key is new and all refs are free; it hits one exactly if the key is taken under that user; otherwise nothing changes |
| `Journal.BegunRow` | internal/core/agent_store.go:168-229 | the row begun has the given task, user and text, is dispatching with one send behind it, and is found under its key |
| `Journal.QueuedRow` | internal/core/agent_finalize.go:218-242 | the row a finalization queues has the given text for the task's owner, was never sent, and is due at once |
| `Journal.RecordingExactlyWhen` | internal/core/agent_store.go:234-712 | each recording call succeeds exactly on a dispatching attempt, which it takes to its own state, or on one already there, which it leaves alone; only a confirmation adds to the ledger, exactly the attempt's refs |
| `Journal.ConcludedStatesAbsorb` | internal/core/agent_store.go:234-305 | no later journal call changes a sent, uncertain or rejected attempt, nor is it ever due |
| `Journal.DispatchingExactlyWhen` | internal/core/agent_store.go:131-785 | over any journal calls, an attempt that was not dispatching is so exactly while a later claim's answer is not on record |
| `Journal.DeferReplay` | internal/core/agent_store.go:628-670 | whatever calls come in between, replaying a deferral changes the journal if and only if the intent was claimed since and that claim's answer is not on record |
| `Delivery.StepKeeps` | internal/core/agent_store.go:131-785 | every step of every worker, commit lost or not, keeps the protocol invariant and only moves the journal forward |
| `Delivery.AtMostOnce` | internal/agenttask/scheduler.go:1176-1283 | over every run a ref of a task reaches the user through at most one provider call |
| `Delivery.SendAndRecord` | internal/agenttask/scheduler.go:1213-1283 | a call whose worker lives on and whose transaction commits leaves exactly that call, the state its answer calls for, a deferral's retry time, and the refs in the ledger if and only if it was delivered |
| `Delivery.ResendOnlyAfterDeferral` | internal/agenttask/scheduler.go:1233-1283 | every provider call before the last was conclusively not sent, did not arrive, and was deferred |
| `Delivery.OneLiveSender` | internal/core/agent_store.go:733-785 | two workers never hold or resolve the same attempt |
| `Delivery.NeverSentAgain` | internal/core/agent_store.go:234-305 | concluded attempts, and attempts whose worker died while dispatching, are never called again; the former keep their state, the latter too unless their last call was acknowledged and the gateway confirms it later |
| `Delivery.AbandonedIsConfirmedExactlyWhen` | internal/gateway/gateway.go:313-364 | an attempt without a worker can still become sent if and only if its last call was answered as delivered |
| `Delivery.ReservationsAreExclusiveAndKept` | internal/core/agent_store.go:193-229 | an attempt owns exactly the refs it was made with, forever, and shares none with another attempt of the task |
| `Delivery.CreatedWithItsMessage` | internal/core/agent_store.go:131-229 | an attempt comes into being only by a begin or a queued result, with the text and user it was given or the task's owner |
| `Delivery.MessageIsImmutable` | internal/core/agent_store.go:131-785 | no run changes an attempt's task, user or text |
| `Delivery.LedgerIsSentRefs` | internal/core/agent_store.go:279-305 | apart from legacy rows, a ref is in the ledger exactly when a sent attempt was made with it |
| `Delivery.RepeatedBegin` | internal/core/agent_store.go:150-188 | beginning again returns the existing attempt exactly when the normalized refs are the same set, in any order |
| `Delivery.OncePerPass` | internal/core/agent_store.go:733-757 | no intent is claimed twice under one cutoff, in any run and however late deferrals commit |
| `Delivery.ClaimedIsOutOfReach` | internal/agenttask/scheduler.go:1288-1310 | once a pass has claimed an intent it is not due for that pass, and nobody is about to make it so |
| `Delivery.DueAfterRunExactlyWhen` | internal/agenttask/scheduler.go:1263-1275 | after any run an intent is due for a cutoff exactly if a deferral within it committed, or it was due before, and nobody claimed it since |
| `Delivery.WithinReachExactlyWhen` | internal/agenttask/scheduler.go:1263-1310 | an intent can still come due for a pass begun if and only if it is due already or its holder has yet to record an answer taken long enough before |
| `Delivery.SlowDeferralComesWithinReach` | internal/agenttask/scheduler.go:1263-1275 | a run in which an intent not due when a pass begins is due once its deferral commits |
| `Resolution.MarkersDecideTheBranch` | internal/core/agent.go:160-235 | wrapping never hides a marker, permanent beats deferred, an unmarked error stays ambiguous, the delay asked for is the one found |
| `Resolution.AnswersAndDelays` | internal/agenttask/scheduler.go:1233-1275 | permanent, deferred and ambiguous exactly by the markers found; the wait is the delay asked for, at least a second, or a minute when none was |
| `Resolution.ResolveTaskNotificationAttempt` | internal/agenttask/scheduler.go:1233-1283 | whatever becomes of each transaction: a delivery is put to the journal until answered, at most three times, any other answer exactly once; the journal is as before exactly if all of them aborted, else has exactly this answer recorded; nil is returned exactly if the last was done and answered |
| `Resolution.ConfirmWithRetries` | internal/agenttask/scheduler.go:1242-1256 | tries again exactly while unanswered, three times at most and not past the deadline, with the effect of one confirmation |
| `Outbox.DeliverTaskNotification` | internal/agenttask/scheduler.go:1176-1228 | text that says nothing is refused with refs and dropped without; with something to say and refs, an attempt is made exactly if the batch is proper, its key new, all its refs free and the task the user's, and is found begun exactly if the key is taken under that user; a new attempt's own text goes to the sender once and its answer to the journal, a message without refs goes straight to it, and nothing else touches either |
| `Outbox.RetryTaskNotification` | internal/agenttask/scheduler.go:1312-1364 | a message for another user or progress of an ended task is rejected for good without a call, lookup or sender trouble defers; exactly otherwise the sender gets the intent's own message once, and its answer is put to the journal |
| `Outbox.DrainRetryableNotifications` | internal/agenttask/scheduler.go:1288-1310 | whatever others do before each claim and during each send, as long as they bring no claimed intent back: at most twenty distinct intents a pass; exactly those that may be sent reach the sender, once each, with the user and text their attempt was made with; each answer is put to the journal in turn; a short pass without failure leaves due only rows another drainer had locked at its last claim |
| `Outbox.ProtocolLeavesUndisturbed` | internal/core/agent_store.go:628-785 | no run of the delivery protocol brings an intent the pass has claimed back within its reach, which is all the pass asks of the others |
| `Outbox.RecordReachesExactlyWhen` | internal/agenttask/scheduler.go:1263-1275 | recording an answer makes an intent due for a pass exactly if it is a retryable rejection of that very attempt, still dispatching, whose answer time plus delay is within the cutoff |
| `Outbox.RecordKeepsOutOfReach` | internal/agenttask/scheduler.go:1263-1275 | so never for a pass begun before the answer was taken |
| `Outbox.NotificationDrain.Kick` | internal/agenttask/scheduler.go:499-511 | starts the only drainer or leaves a request for it |
| `Outbox.NotificationDrain.FinishPass` | internal/agenttask/scheduler.go:515-525 | goes on exactly when a kick came during the pass |
| `Outbox.NotificationDrain.Drain` | internal/agenttask/scheduler.go:515-527 | the goroutine, with finitely many kicks arriving during each of its passes, ends after finitely many passes and with a pass begun after every kick |
| `Outbox.NoKickIsLost` | internal/agenttask/scheduler.go:499-527 | in any interleaving of kicks and passes, while a kick waits one drainer lives, and, whatever further kicks come in, its own next turns begin exactly one pass, which answers all of them |
| `Outbox.FlagsStaySound` | internal/agenttask/scheduler.go:499-527 | in any such interleaving there is at most one drainer, and a request only while it runs |
| `Tasks.FinalizationIsAtomic` | internal/core/agent_finalize.go:46-242 | nothing changes, or one new artifact, a result equal to its non-empty body, the right terminal status and, for completed always, an unsent retryable intent owning `task_result` for that version |
| `Tasks.CheckedBodyIsPublished` | internal/core/agent_finalize.go:99-165 | a graph task ending without text publishes the current checked body, else the last checked one, before the finalize step's candidate; only without these the finished steps' text followed by every unfinished draft |
| `Tasks.RestOfTheChain` | internal/core/agent_finalize.go:166-197 | without any of those, the submission, else the checkpoint, else the last iteration's output, else the explanation given, then blocked in place of partial |
| `Tasks.WhatIsRecorded` | internal/core/agent_finalize.go:201-242 | the report's reason, the terminal status and error its outcome calls for, and the message owed: the notice asked for, else a completed body, else none; queued for the owner, due at once, covering exactly the cleaned pending refs and `task_result`, all of them free before |
| `Tasks.CompletedCommitsExactlyWhen` | internal/core/agent_finalize.go:91-242 | an admitted completed finalization commits exactly when its cleaned body is non-empty and its refs and key are free |
| `Tasks.FinalizationCommitsExactlyWhen` | internal/core/agent_finalize.go:63-242 | any finalization commits exactly when the task has not ended, a graph task's run is live unless it expires or is cancelled, the claim stands, an expiry is due, a completed result is in time and has text, there is a body, and its notice is empty or can be queued; it changes nothing without error exactly when the task has ended or the expiry is not due |
| `Tasks.OwnTextCommitsExactlyWhen` | internal/core/agent_finalize.go:91-242 | with text of its own, exactly when admitted and its notice is empty, unless completed, or can be queued |
| `Tasks.TerminalIsFinal` | internal/core/agent_store.go:863-1093 | whatever runs after a task ended, its rows stay as they were, except that the last `Fail` relabels status and error |
| `Tasks.AtMostOneArtifact` | internal/core/agent_finalize.go:71-217 | no run gives a task a second artifact, and the one it has is its non-empty result |
| `Tasks.DeadlineOnlyTightens` | internal/core/agent_deadline.go:81-86 | no run lifts a stored deadline or moves it back |
| `Tasks.DeadlineStep` | internal/core/agent_store.go:863-959 | a task past its deadline is neither claimed nor completed, neither by `Complete` nor by a completed finalization, and `Expire` fails it; `SetDeadline` leaves the earlier of two deadlines |
| `Tasks.LostClaimIsFenced` | internal/core/agent_checkpoint.go:34-52 | a lost claim is never regained, and every checkpoint, submission, deferral, rejection or finalization carrying it fails unchanged |
| `Tasks.OnlyHoldersWrite` | internal/core/agent_submission.go:35-112 | checkpoint, submission and artifact change only by their own writes under the claim current at that moment; a submission disappears only by rejection |
| `Tasks.CheckpointProvenance` | internal/core/agent_checkpoint.go:34-80 | the stored checkpoint was written at some step of the run by the holder of the claim it records |
| `Tasks.DraftIsNeverEmptied` | internal/core/agent_checkpoint.go:62-70 | no run replaces a non-empty checkpoint draft by an empty one |
| `Tasks.UnfencedWrites` | internal/core/agent_store.go:863-1093 | an operation without a claim ends a running worker's claim if and only if its own guard lets it, case by case over all operations; checkpoint and submission stay |
| `Tasks.TaskStore.TrySetRunning` | internal/core/agent_store.go:863-878 | claims exactly a pending, unexpired v1 row and stamps it |
| `Tasks.TaskStore.CheckpointTask` | internal/core/agent_checkpoint.go:34-80 | upserts under the claim, keeping the old draft when the new one is empty; else changes nothing |
| `Tasks.TaskStore.SaveTaskSubmission` | internal/core/agent_submission.go:35-56 | stores the candidate with no reviews behind it exactly under the current claim |
| `Tasks.TaskStore.DeferTaskVerification` | internal/core/agent_submission.go:58-83 | releases the row and counts one review, both or neither |
| `Tasks.TaskStore.RejectTaskSubmission` | internal/core/agent_submission.go:87-112 | deletes the candidate and schedules its repair exactly under the current claim |
| `Tasks.TaskStore.FinalizeTask` | internal/core/agent_finalize.go:63-242 | the fences and the fallback chain yield the specified rows and result |
| `Tasks.TaskStore.FallBack` | internal/core/agent_finalize.go:91-190 | picks the first non-empty of the candidate bodies, in their order |
| `Tasks.TaskStore.Settle` | internal/core/agent_finalize.go:191-242 | writes artifact, row and intent together or restores all three |
| `Tasks.TaskStore.Cancel` | internal/core/task_control.go:29-60 | a schedule is switched off; active one-shot work ends canceled with its draft or the explanation; a finished report is untouched |
| `Reviews.StepKeeps` | internal/agenttask/scheduler.go:562-1050 | every step of every worker, each claim read back harmlessly, keeps the agreement between holders and the saved candidate |
| `Reviews.SavedWorkIsNotRedone` | internal/agenttask/scheduler.go:690-715 | in every run whose claims are read back harmlessly: while a candidate is saved, a worker under the current claim runs no handler, and reviews exactly that text with its true attempt count |
| `Reviews.LoadDecides` | internal/agenttask/scheduler.go:690-715 | with nothing saved the worker goes on to its handler, with a review not due it frees the task, else it reviews exactly what is saved |
| `Reviews.HandlerReturns` | internal/agenttask/scheduler.go:785-1124 | a failure frees the task, a pause or another turn also counts the iteration, a result with text is saved unreviewed and goes on to review |
| `Reviews.BlankResultEndsTheTask` | internal/agenttask/scheduler.go:890-909 | a blank result is no candidate: it ends the task as partial, blocked without any draft, or changes nothing |
| `Reviews.ReadIsSafeExactlyWhen` | internal/agenttask/scheduler.go:562-582 | reading a claim back is safe, whatever follows, if and only if the task runs no more, the stamp is the worker's own, nobody else live goes by it, or a candidate is saved |
| `Reviews.OrderlyExactlyWhen` | internal/agenttask/scheduler.go:562-582 | all reads of a run were of that kind if and only if no state on the way had an orderly future in which saved work is done again |
| `Reviews.SharedClaimRedoesSavedWork` | internal/agenttask/scheduler.go:562-582 | a run in which two workers read back one claim and one overwrites the other's saved candidate |
| `Reviews.CandidateStep` | internal/agenttask/scheduler.go:910-1016 | in every state such runs reach, no step overwrites a saved candidate; it disappears exactly by a fenced rejection of that text; only deferrals count |
| `Reviews.OutageIsBounded` | internal/agenttask/scheduler.go:940-969 | over any such run without a rejection the candidate stays and at most two unavailable verdicts are deferred, less those already used |
| `Reviews.ThirdOutagePublishes` | internal/agenttask/scheduler.go:940-960 | the next unavailable verdict publishes as partial the saved text, or another draft when that cleans to nothing, exactly if there is such text and its notice is empty or can be queued, whatever the deadline; else it is refused without effect |
| `Reviews.CompletedIsTheReviewedText` | internal/agenttask/scheduler.go:1029-1046 | an acceptance publishes the saved candidate as completed exactly if the claim stands, the deadline has not passed, the text is not empty when cleaned and its intent can be queued; else nothing changes |
| `Reviews.StaleHandlerCanStart` | internal/agenttask/scheduler.go:690-715 | a run in which a worker without its claim starts the handler although a candidate is saved |
| `Reviews.StartsOverCandidateExactlyWhen` | internal/agenttask/scheduler.go:690-715 | a worker that loaded nothing starts its handler over a candidate exactly when another worker's fenced save landed meanwhile and was not rejected since; its own claim is then lost |
| `Graph.UpdateKeeps` | internal/core/task_steps.go:141-313 | every step-store write keeps: done is final, attempts within bounds, dependencies done before any claim, effects exclusive, completions topological |
| `Graph.WritesExactlyWhen` | internal/core/task_steps.go:181-313 | a worker's write takes place exactly under its run while the step runs, a completion only with a result, a recovery on a running step, a report exactly on a stuck work step |
| `Graph.WriteLeaves` | internal/core/task_steps.go:141-313 | what each write makes of its row and of no other: a step failed or lost with its effect unknown awaits reconciliation, any other is tried again exactly if attempts are left and a failure was retryable; completions are listed as they happen |
| `Graph.CollectInputs` | internal/agenttask/graph.go:98-117 | ready exactly if every dependency is done; the inputs are then, for an action, exactly its dependencies, and for any other step its dependencies and every confirmed read, each with its stored result and nothing else |
| `Graph.StepKeeps` | internal/agenttask/graph.go:50-193 | every step of dispatcher, workers and other processes keeps the executor's invariant |
| `Graph.ExecutionIsSafe` | internal/agenttask/graph.go:50-193 | at most `ParallelReads` workers, a non-read works alone, no step has two workers, and the channel has room for every live worker's report |
| `Graph.StartedStepsAreReady` | internal/agenttask/graph.go:98-140 | every worker's dependencies are done and its inputs are stored results, of exactly its dependencies for an action |
| `Graph.EveryConfirmedReadIsPassedOn` | internal/agenttask/graph.go:71-140 | in any run a worker's inputs are those of the store its scan had loaded: for a step that is not an action every read done by then, every dependency, nothing else |
| `Graph.LaunchesExactlyWhen` | internal/agenttask/graph.go:88-138 | one iteration of the scan starts a worker exactly if there is room, the step is pending, due, not running, alone unless a read, its dependencies are done, the research budget allows it and the store admits the claim |
| `Graph.LaunchIsRecorded` | internal/agenttask/graph.go:128-140 | the step is then running in the store under that run, in the executor's books, and alone there unless a read |
| `Graph.EffectsAreExclusive` | internal/core/task_steps.go:154-157 | across processes two steps running or awaiting reconciliation are both reads, so nothing runs beside an effect that is running or unconfirmed |
| `Graph.ReturnsDrained` | internal/agenttask/graph.go:85-152 | `Run` returns only with no worker and no unread report, and nil only with every step done |
| `Graph.ReturnsExactlyWhen` | internal/agenttask/graph.go:71-152 | nil exactly when the loaded steps are all done and nothing runs; an error exactly when nothing runs at the wait |
| `Graph.StopsExactlyWhen` | internal/agenttask/graph.go:68-192 | launching stops exactly on a cancellation, a spent research budget or failed claim for a step otherwise launched, or a report that a step failed, or was deferred only because of one of these |
| `Graph.CompletionsAreTopological` | internal/core/task_steps.go:141-214 | every step appears once among the completions, after all its dependencies |
| `Graph.DrainingNeverHangs` | internal/agenttask/graph.go:147-178 | while a completion is awaited a report or a live worker exists |
| `Graph.LaunchesArePaid` | internal/agenttask/graph.go:128-140 | in any run a step is launched no more often than the attempts it used |
| `Graph.ExecutionsAreBounded` | internal/agenttask/graph.go:71-141 | executions in any run are at most the attempts remaining over all steps |
| `Graph.StoppedLaunchesNothing` | internal/agenttask/graph.go:68-146 | after the first failure or cancellation nothing more is launched |
| `Graph.UnconfirmedIsNotReplayed` | internal/core/task_steps.go:216-283 | a step awaiting reconciliation is never executed again, only closed |
| `Graph.UnknownEffectIsNotRepeated` | internal/core/task_steps.go:216-283 | an action, or a finalize step with tools, that failed or was lost without a complete saved candidate is never executed again, over every run |
| `Validation.RoundDescends` | internal/agenttask/graph_validation.go:76-205 | every round publishes, or fails its first save without effect, or descends in (repairs left, no repair pending, reviews left) |
| `Validation.RunsOut` | internal/agenttask/graph_validation.go:44-206 | across yields and crashes only boundedly many rounds do anything before one publishes |
| `Validation.EffortIsBounded` | internal/agenttask/graph_validation.go:76-126 | per candidate at most two repair calls, three review passes per body and nine in all |
| `Validation.PublishedSafely` | internal/agenttask/graph_validation.go:34-206 | completed bodies were checked and then accepted verbatim; any other body is empty or an earlier checked text; checked means returned by the guard, or submitted while none was configured |
| `Validation.ConfiguredGuardChecksAll` | internal/agenttask/graph_validation.go:149-183 | while a guard is configured no text counts as checked but what it returned |
| `Overlap.LoneVisitIsARound` | internal/agenttask/graph_validation.go:44-206 | nobody interfering, a visitor's segments from look to look, or to its end, are exactly one round |
| `Overlap.OverlappingEffortIsBounded` | internal/agenttask/graph_validation.go:58-126 | however visitors overlap, replace each other and crash: two repair calls, three passes per body, nine in all, and no more reviews than passes |
| `Overlap.OverlappingVisitsPublishSafely` | internal/agenttask/graph_validation.go:34-206 | likewise every completed body was checked and then accepted verbatim, and any other carries the last checked text whose save took effect, empty exactly if there was none |
| `Overlap.ReplacedOnlyCalls` | internal/core/task_run.go:207-220 | a visitor whose run was replaced saves and publishes nothing; it can only finish a call |
| `Validation.RoundKeeps` | internal/agenttask/graph_validation.go:58-205 | every round, whichever save fails, keeps saved state backed by what happened |
| `Validation.ResultValidator.Attempt` | internal/agenttask/graph_validation.go:58-205 | one round of the loop does exactly what the specification says |
| `Validation.ResultValidator.ValidateGraphResult` | internal/agenttask/graph_validation.go:44-206 | the loop with its repetition equals the specification, whose decisions and partial text the next rows pin, and terminates by the measure |
| `Validation.RoundDecides` | internal/agenttask/graph_validation.go:58-205 | accepted work is published; a pending repair is tried unless it cannot help or two were, given up when it brings nothing twice or too late; then comes a review, unless three were made, whose table says accepted, repaired next, deferred or given up |
| `Validation.CallsConcernTheLatestText` | internal/agenttask/graph_validation.go:58-205 | in any run, whichever saves fail, the guard gets the last revision saved, or the submitted text before any, the reviewer the checked text saved last, and the repairer that text, which the last review just found wanting |
| `Validation.PartialIsTheLastCheckedText` | internal/agenttask/graph_validation.go:34-152 | in any run without a failed save a partial report carries the very text of the last check before it, and is empty exactly if there was none |
| `Validation.PartialCarriesTheLastDraft` | internal/agenttask/graph_validation.go:34-152 | in any run, whichever saves fail, it carries the last checked text whose save took effect, and is empty exactly if there was none |
| `Grounding.SelectGroundingDocs` | internal/agenttask/grounding.go:240-360 | the loops yield the specified selection, which the next rows pin; included plus omitted are the distinct documents, and the counts of cited and truncated ones are what they say |
| `Grounding.SelectionIsExact` | internal/agenttask/grounding.go:293-341 | cited documents in turn, then named ones, each get their length, an even share between 4000 and 25000, or what is left; what is left lengthens the cited ones in turn up to 60000; then the others, last listed first, get up to 25000; one is passed over exactly when less than 4000, or its length, is left |
| `Grounding.OthersAreNewestFirst` | internal/agenttask/grounding.go:288-292 | of two documents shown that the report does not refer to, the one whose URL was first seen later comes first |
| `Grounding.Deduplicate` | internal/agenttask/grounding.go:243-254 | one row per URL in order of first sight |
| `Grounding.DedupKeepsNewest` | internal/agenttask/grounding.go:243-254 | each kept row is the last one of its URL, and every URL has one |
| `Grounding.DedupInOrder` | internal/agenttask/grounding.go:243-254 | the kept rows stand in the order in which their URLs were first seen |
| `Grounding.SelectionIsSound` | internal/agenttask/grounding.go:240-360 | windows sum to at most 250000, each within its floor and cap, and an unreferenced document shows text only when every cited one shows all it may |
| `Grounding.BudgetIsRespected` | internal/agenttask/grounding.go:293-341 | the same over any three groups of documents |
| `Grounding.LengthenSound` | internal/agenttask/grounding.go:329-338 | the second helping lengthens cited documents only, and leaves budget only when all are full |
| `Grounding.ReferencesFit` | internal/agenttask/grounding.go:293-319 | with at most 62 referenced documents none is omitted, and all appear in order |
| `Grounding.OneTooMany` | internal/agenttask/grounding.go:293-319 | with 63 long ones exactly one is omitted |
| `Grounding.NoneOmittedExactlyWhen` | internal/agenttask/grounding.go:293-319 | for any number of referenced documents, none is omitted exactly when their lengths, each up to 4000, sum to at most 250000 |
| `Grounding.ReferencedDocumentsAreShown` | internal/agenttask/grounding.go:240-341 | the newest row of every cited or named document is shown when there are at most 62 |
| `ReadWindow.GroundingReadWindow` | internal/agenttask/grounding.go:500-529 | the loops find the character's byte, then the window around it, stepped back to character boundaries |
| `ReadWindow.PlaceIsTheCharacter` | internal/agenttask/grounding.go:500-511 | the byte found is where the recorded character starts, or the end of a text with fewer characters |
| `ReadWindow.StartsExist` | internal/agenttask/grounding.go:500-511 | every text has such a list of character starts, whatever the decoded widths |
| `ReadWindow.WindowIsExact` | internal/agenttask/grounding.go:512-520 | shown is from the last character boundary at or before a quarter of the budget ahead of the place, or a budget's length before the end, up to the last boundary within the budget |
| `ReadWindow.WindowIsClean` | internal/agenttask/grounding.go:512-520 | at most the budget is shown, no character is split, and the window starts no later than the place that was read |
| `ReadWindow.ReadPlaceIsShownExactlyWhen` | internal/agenttask/grounding.go:498-520 | in valid text the place that was read is shown if and only if a window aligned to the end starts on a character boundary or reaches past that place |
| `ReadWindow.EarlierPlacesAreShown` | internal/agenttask/grounding.go:498-520 | so every place before the last six bytes is shown |
| `ReadWindow.LastPlaceCanBeCut` | internal/agenttask/grounding.go:512-520 | for every budget a valid text whose last character, when read, is left out |
| `ReadWindow.CollectOffsets` | internal/agenttask/grounding.go:465-482 | collects the first seven distinct recorded places |
| `ReadWindow.CollectedAreDistinct` | internal/agenttask/grounding.go:465-482 | those are distinct recorded places, and all of them when fewer than seven |
| `ReadWindow.CollectedInOrder` | internal/agenttask/grounding.go:465-482 | the first seen come first |
| `ReadWindow.GroundingDocumentWindow` | internal/agenttask/grounding.go:465-496 | each distinct place gets the window around it within its even share, and the passages total at most the budget |
| `Partition.PartitionGroundingReport` | internal/agenttask/grounding_parts.go:17-36 | the parts concatenate to the report, are cut only after line breaks, exceed 2500 characters only as one line, and none could take one more line |
| `Partition.GreedyCutIsUnique` | internal/agenttask/grounding_parts.go:17-36 | those four conditions determine the parts |
| `Partition.ScoreGroundingVerdict` | internal/agenttask/grounding.go:595-701 | counts grounded, partial and ungrounded claims, and accepts exactly when 20g + 10p >= 14t and twenty times the hard ungrounded claims are at most t, or nothing was classified |
| `Partition.RatioIsIntegral` | internal/agenttask/grounding.go:655-658 | the fractional support test is the integer inequality |
| `Partition.AcceptanceIsClosed` | internal/agenttask/grounding.go:637-658 | accepted claim lists stay accepted when concatenated |
| `Partition.AcceptanceIsMonotone` | internal/agenttask/grounding.go:637-658 | better evidence for one claim never turns acceptance into rejection |
| `Partition.StrictGraphGrounding` | internal/agenttask/graph_grounding.go:31-63 | unavailable exactly on an empty or unintelligible audit, or one that was; otherwise met exactly if it was and every factual claim is grounded; counts and claims stay |
| `Partition.CombineGroundingParts` | internal/agenttask/grounding_parts.go:92-106 | unavailable with any unavailable part, else the strict verdict on all claims |
| `Partition.ClaimsInOrder` | internal/agenttask/grounding_parts.go:92-106 | every part's claims are among all the claims, in their place |
| `Partition.MetPartsMakeMetReport` | internal/agenttask/grounding_parts.go:92-106 | if every audited part is met, the combination is met |
| `Partition.MetReportHasSoundParts` | internal/agenttask/grounding_parts.go:92-106 | a met combination has every part complete and every factual claim grounded; a part is met exactly when 3 grounded >= 2 partial + 7 ungrounded |
| `Partition.MetReportWithUnmetPart` | internal/agenttask/grounding_parts.go:92-106 | a met report with an unmet part of framing only |
| `Partition.GraphGroundingRepairable` | internal/agenttask/graph_grounding.go:65-96 | grants a repair for a missing or met verdict, or a complete one that names an unsupported claim |
| `Partition.AvailableIsRepairable` | internal/agenttask/graph_grounding.go:65-96 | an audited verdict is repairable exactly when it is available |
| `Excerpt.MatchesAreExact` | tool/browser_excerpt.go:36-64 | match offsets are genuine, increasing, non-overlapping, and every occurrence overlaps one that starts no later |
| `Excerpt.FindMatches` | tool/browser_excerpt.go:46-64 | counts all matches and records the first seven and the last |
| `Excerpt.ExcerptBrowserFetch` | tool/browser_excerpt.go:28-79 | the page's next characters, as many as the clamped limit or the rest, with the right next offset; a query window starts a quarter of its limit before the first match and contains it |
| `Excerpt.ReadingIsExact` | tool/browser_excerpt.go:71-76 | following next offsets reads the rest of the page exactly once, in full windows but the last, and ends |
| `Common.SharesAreTheBudget` | tool/browser_excerpt.go:159-166 | the windows' shares sum to the limit |
| `Excerpt.ExcerptBrowserFetchQueries` | tool/browser_excerpt.go:148-192 | windows and overview total at most the clamped limit; a found window with a share starts a quarter of it before its first match and fills it; misses are empty and leave their share to the overview |
| `Excerpt.ExcerptBrowserLinks` | tool/browser_excerpt.go:83-100 | a page of at most twelve links and 3000 characters unless one link is longer, never empty while links are left, never able to take one more |
| `Excerpt.LinkPageIsUnique` | tool/browser_excerpt.go:83-100 | those conditions determine the page |
| `Excerpt.ReadAllLinks` | tool/browser_excerpt.go:83-100 | following next offsets from 0 lists every link exactly once and ends |
| `Cascade.BreakerStaysConsistent` | cascade.go:78-108 | without failures a route is neither probed nor cooling down |
| `Cascade.CancellationIsNeutral` | cascade.go:92-99 | any number of cancelled calls, tries among them, leave failures and retry time as they were |
| `Cascade.ProbeExcludes` | cascade.go:82-89 | from a probe's admission until the next finish on the route every acquire is refused |
| `Cascade.CooldownHolds` | cascade.go:85-107 | after a failure nothing is admitted until the cooldown has passed |
| `Cascade.LateFinishAdmitsSecondProbe` | cascade.go:92-99 | a late finish of another call puts two probes in flight |
| `Cascade.SecondAdmissionExactlyWhen` | cascade.go:78-108 | over any interleaving of other calls after a probe's admission, the next try is admitted exactly when some call finished meanwhile and the last uncancelled finish succeeded or its cooldown is over, or, all being cancelled, the old retry time has passed |
| `Cascade.LateFinishAdmitsExactlyWhen` | cascade.go:78-108 | after one finish, tries before and after it, one is admitted exactly under that condition |
| `Cascade.EveryAcquireIsFinished` | cascade.go:143-226 | in one call each route is acquired at most once and each acquire has exactly one finish; by `Complete` these are the calls it makes |
| `Cascade.EmissionsAreOfTheLastAttempt` | cascade_stream.go:8-42 | nothing is attempted after a marking callback event |
| `Cascade.AttemptsFollowTheOrder` | cascade.go:134-231 | a route is attempted only after every earlier one in the order was refused or failed without emitting |
| `Cascade.OutcomeMatchesLog` | cascade.go:200-231 | a response is the last provider's uncancelled success, an attempt that failed after emitting is lost, an overall failure emitted nothing, cooling down means every route was refused |
| `Cascade.OutcomeExactlyWhen` | cascade.go:143-231 | with the first turn that stops the call: cancelled before, during or after its attempt it ends so, else a success is its response and a failure after emitting is lost; with none it failed as often as it tried, or found all cooling down; the log shows every route gone past as refused or failed without emission |
| `Cascade.RespondsExactlyWhen` | cascade.go:200-219 | a route's response is given exactly if the log ends in its uncancelled success and the context still stood afterwards |
| `Cascade.FailsExactlyWhen` | cascade.go:143-231 | the call fails or reports cooling down exactly if no turn stops it, and then it went past every route of its order |
| `Cascade.BreakersOfPassed` | cascade.go:78-231 | a route gone past is as it was found if it refused, and has one more failure and a new cooldown if tried; the one that stopped the call is reset, charged or merely unprobed by its answer; later ones are untouched |
| `Cascade.CascadeProvider.Acquire` | cascade.go:78-90 | admits exactly without failures, or unprobed after the retry time; marks the probe and logs itself |
| `Cascade.CascadeProvider.Finish` | cascade.go:92-108 | a cancelled call only ends the probe, a success resets the breaker and is the last success, a failure counts and starts a cooldown; logging itself |
| `Cascade.CascadeProvider.Order` | cascade.go:134-141 | preferred route first, then each other route once in configured order, or only the preferred one |
| `Cascade.CascadeProvider.Complete` | cascade.go:118-231 | the acquires, provider callbacks and finishes the loop performs, and its outcome, are exactly the specified ones, and it leaves the breakers it looked at as specified; the context is read again after the finish |
| `FetchGate.StepKeeps` | tool/browser_fetch_gate.go:25-65 | every step keeps each entry's count and its single token |
| `FetchGate.MutualExclusion` | tool/browser_fetch_gate.go:25-65 | two callers never hold the same key, across removal and re-creation of its entry |
| `FetchGate.EntriesAreCounted` | tool/browser_fetch_gate.go:32-51 | an entry is in the map exactly while its key is used, counts those callers, and its token is in the channel exactly when nobody holds |
| `FetchGate.ReleaseGoesThrough` | tool/browser_fetch_gate.go:57-58 | a holder's release never blocks, and a second one changes nothing |
| `FetchGate.GivingUpIsHarmless` | tool/browser_fetch_gate.go:53-55 | a waiter that gives up moves no token and disturbs no other caller |
| `FetchGate.TaskFetchGate.Enter` | tool/browser_fetch_gate.go:32-43 | the caller waits under the key it asked for, at the entry the key has or a new one, which counts one more; nothing else changes |
| `FetchGate.TaskFetchGate.TryTake` | tool/browser_fetch_gate.go:52-56 | takes the token and holds exactly when nobody holds the entry; else goes on waiting |
| `FetchGate.TaskFetchGate.PutBack` | tool/browser_fetch_gate.go:57-58 | a holder leaves nobody holding and is on its way out; any other call changes nothing |
| `FetchGate.TaskFetchGate.Leave` | tool/browser_fetch_gate.go:44-51 | uncounts the caller; its key leaves the map exactly when nobody else uses it, other keys stay |

## Left out

- SQL text, JSON, drivers, HTTP, Telegram, LLM and browser calls: a transaction is one step, an outside answer an argument.
- SHA-256: hashes stand for the hashed bytes.
- The regular expressions of `cleanTaskDraft` and the removal of progress markers: an arbitrary function followed by the trim it ends with.
- Host and URL matching in document selection: arbitrary predicates "cited" and "mentioned".
- `Tasks.FinalizationIsAtomic`: rows of other tables the fallback chain reads (graph progress, step candidates, iterations) are arguments, and the unverified-draft format is applied before they reach the model.
- Receipts, lifecycle metadata, user-facing display rows and the autonomous history projection written beside a confirmation.
- Recurring tasks: their reset, their cancellation beyond the status write, the notification requeue, and the legacy `SetRunning`, `Cancel` and `MarkDelivered` (legacy ledger rows appear in `Delivery` as an outside step).
- The exhausted-task caveat send, which bypasses the journal by design.
- The gateway's memory of acknowledged messages: it may confirm one at any time, or never.
- Leases, heartbeats and clock time in the graph store: a lease may lapse at any moment, so a recovery step is always possible.
- `Graph.ExecutionIsSafe`: goroutines and the completion channel are steps on a value, not Dafny threads; the same holds for `Delivery`, `Reviews` and `FetchGate`.
- `Partition.ScoreGroundingVerdict`: exact fractions instead of floating point; verdict wording and the list of URLs to recheck are not modelled.
- `Partition.PartitionGroundingReport`: the report is a sequence of characters, not of UTF-8 bytes.
- Running the partition audits on three workers and reusing audited parts by hash.
- `Grounding.SelectGroundingDocs`: the log-only statistics `MinWindow` and `MinShownFraction`, and the markers and joins with which the windows are rendered.
- `Excerpt.ExcerptBrowserFetch`: case folding is an arbitrary character-by-character function, as the source folds rune by rune.
- Request shaping, observers and usage in the cascade; provider names resolve to route numbers.
- Config, menus, onboarding, metrics, telemetry, federation, MCP plumbing and file classification.
