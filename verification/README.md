# Verified models of latexmk

This project models the parts of the latexmk server and client whose
correctness rests on interleavings, on invariants that span several operations,
or on exact text semantics, and proves properties of those models.

| part | files |
|---|---|
| Job and session engine (`packages/server/internal/jobs`) | `JobState`, `JobSteps`, `JobInvariant`, `JobMoves`, `JobWorkers`, `JobSessions`, `JobSlots`, `JobEvolution`, `JobResponsibility`, `JobAdmission`, `JobTruth`, `JobService`, `JobRuns`, `JobProgress`, `JobMislabels`, `JobReads`, `JobResults`, `JobEffects`, `JobSessionRuns`, `JobPending`, `JobActive`, `JobFindings`, `JobManager` |
| Native job history | `HistoryIndex` |
| Revisions, events, rate limit, stamps of one session | `Revisions`, `EventLog`, `TokenBucket`, `Stamps` |
| Content-addressed source store (`packages/server/internal/project`) | `SourceStore`, `SourceRuns`, `SourceHistory`, `SourceManager` |
| Byte quota of the state volume | `StateQuota` |
| Quarantine removal (`packages/shared/safefs`) | `Removal` |
| Event stream, log streams, templates, TeX masking (`packages/cli`) | `EventLines`, `EventForms`, `LogStreams`, `Template`, `TemplateForms`, `TexMask`, `TexTokens`, `TexOptions`, `TexForms` |
| Counting, sums, options | `Counting`, `Totals`, `Options` |

## The job and session engine

The engine is a state machine. One step is one critical section under
`admissionMu` or `mu`, or one call of the job store with its outcome. A worker,
an enqueuing caller and the recovery goroutine each have a program counter
(`Pc`); the holder of the admission lock inside `SubmitRevision` has its own
progress record (`Admission`). A native store never fails. A database write may
be lost; the terminal write and the cache-accounting write may also be applied
although an error is reported. An applied-but-failed start or cancellation is
outside the model, as is process shutdown. A reload in `finishSession` may find
its record gone, because a retention sweep can run at any moment.

`Inv` is the inductive invariant. Its ledger half counts claims (pins, the
single driver of each job, wake-up tokens, queued records) as `Tally`, so that
one update lemma serves every step; its shape half says what each program
counter may rely on. `JobRuns.StepKeeps` proves it for all 36 steps, and the
statements about runs follow from it. `JobManager.Manager` is the same engine
as a class with the program's fields; its methods are the critical sections,
each proved to perform one transition of the state machine.

Besides what every step keeps, the statements about runs say what the states
mean in terms of what happened before: the result that a reader sees is the one
that cache accounting produced, even when that write was lost and recovery had to
deliver it (`JobResults.FinalResult`); a session's revision, tree and last success
are those of its accepted submissions and ended attempts
(`JobSessionRuns.SessionMeans`); and a pending job of an idle session can always be
started (`JobPending.PendingStarts`).

Three properties that one would expect do not hold as stated. Each has a run
that shows it and a theorem that says exactly when the property does hold:

* **A session slot can be lost, in both modes.** A job that was cancelled while
  its wake-up token was outstanding has a closed gate, so a sweep may remove its
  record before a worker takes the token (`JobFindings.SweptBeforeTaken`). With
  the database the worker then returns without finishing the session
  (`packages/server/internal/jobs/manager.go:714-722`,
  `JobFindings.DatabaseGivesUp`); the native store answers a missing record with
  an error that is not the one the worker looks for
  (`packages/server/internal/jobs/manager.go:1157-1164`), so the attempt is
  requeued for ever (`JobFindings.NativeRequeues`). An attempt is served when
  somebody knows its outcome, or its record is stored and somebody will look at
  it. `JobRuns.NoLostSlot` proves that every running attempt is served
  throughout a run exactly when no step takes a pending job without a record and
  no sweep removes the record of an attempt whose outcome nobody has seen;
  `JobProgress.RecoversExactly` proves that the attempts served are exactly those
  whose slot can still be freed while the session is live, and
  `JobService.StrandedForever` that only closing or expiry ends the others.
* **A cancelled job can be reported as the last successful one.** A deferred
  success may be cancelled, and recovery may settle the cancellation before the
  worker ends its attempt with the status it computed
  (`packages/server/internal/jobs/manager.go:866-868`,
  `packages/server/internal/jobs/sessions.go:328-354`).
  `JobFindings.CancelledYetSuccessful` is such a run. `JobRuns.LastSuccessesExactly`
  proves that every session's last successful job has a succeeded record
  throughout a run exactly when no attempt of a live session ends with a success
  that its stored record does not have, and `JobMislabels.MislabelCause` traces
  every such end back to its cause: the success was deferred, the record got or
  had another outcome, and recovery dropped the entry before the worker looked
  for it. The native store is not affected (`JobMislabels.NativeSuccesses`).
  `JobRuns.ReportsTrueExactly` says in the same way which steps make what
  goroutines are about to report untrue.
* **The queue can exceed its limit in database mode.** The excess is one job
  (`packages/server/internal/jobs/sessions.go:249-254`,
  `JobFindings.BothCancellationsFail`). `JobRuns.QueueAccounting` proves that the
  queue is never longer than the limit and one, in either mode, and that the limit
  holds throughout a run exactly when no revision is admitted in place of a queued
  job while the queue is at the limit, with neither cancellation taking effect and
  no other job leaving the queue meanwhile; `JobRuns.NativeQueueBound` shows that
  the native store is not affected.

## The other parts

The source store is a state machine of the same kind. Its collector gathers
references in three lock phases; commits, prepared uploads and other clients run
in between. Current snapshots are complete throughout a run exactly when no commit saves a
source whose blobs are gone (`SourceRuns.CurrentExactly`), and that only happens
when the upload was consumed under the commit and the collector removed a blob
of it afterwards (`SourceRuns.IncompleteByConsuming`);
`SourceRuns.ConsumedUnderCommit` is such a run.

The byte quota counts what is reserved and what is published.
`StateQuota.Storage.BooksBalance` is the equation between these and what is on
disk: it lacks exactly the staged bytes that no reservation stands for any more.
`StateQuota.Run` ties these to the operations: after every sequence they are the
sum of what its operations left behind, and they are none exactly if no operation
had, after bytes had reached the disk, both its write and its cleanup fail. A
leak may be hidden for a while by bytes that are reserved but not yet written,
and for ever by the reservation of a publication that failed without a handle
being returned. So the volume can come to hold more than is accounted for,
without a further leak, exactly when more has leaked than is withheld in that
way (`StateQuota.Settle`, `StateQuota.StaysWithin`). `StateQuota.LeakExceedsQuota`
shows that the quota can then be exceeded.

Every pin of the source store is given back: over a run the table holds for each
source the pins taken less those returned (`SourceRuns.PinsCounted`). A collector
can remove whatever nothing has referred to since it began
(`SourceHistory.GarbageRemovable`), and nothing else (`SourceRuns.CollectionSafe`).

A revision is refused by the rate limit exactly when, since some earlier event of
that owner, one admission more would exceed the burst and what the time since then
refills (`TokenBucket.RefusedExactly`).

Discarding an idle token bucket is harmless exactly when sessions live for at
least two seconds (`TokenBucket.BoundedExactly`).

The text parts are tied to descriptions of the texts that do not mention the
scanning functions: a mask to the unique cut of the source into tokens
(`TexTokens.MaskByTokens`), an option list to its fields and groups as they may be
written (`TexForms`), a stream to its lines under every kind of line end and its
events (`EventForms`), and a template to the written form of its tokens
(`TemplateForms.TokensExactly`).

A carriage return inside a TeX comment is masked, so only line feeds keep their
positions in `TexMask.LinesKept`; that is what line counting needs.

## Model

| member | source | states |
|---|---|---|
| JobRuns.StepKeeps | packages/server/internal/jobs/manager.go:212-1086 | every critical section and store outcome keeps the invariant of the engine: conserved pins, one driver per job, one token per scheduled session, exact queue counter, ordered pipelines, gates that cover unfinished accounting |
| JobRuns.ReachableInv | packages/server/internal/jobs/manager.go:212-1086 | the invariant holds in every state of every run from the empty engine |
| JobRuns.PinConservation | packages/server/internal/jobs/manager.go:829-950 | a snapshot's pin count is the number of its queued jobs, of goroutines between taking and giving up a pin, of deferred first completions, of live sessions whose tree it is, and of the admission in flight |
| JobRuns.PinnedWhileNeeded | packages/server/internal/jobs/sessions.go:196-263 | a snapshot is pinned if and only if one of those needs it, so every pin is released exactly once |
| JobRuns.QueueAccounting | packages/server/internal/jobs/sessions.go:212-254 | in both modes the counter is the number of queued records and at most the limit and one in every state; without the one job that the lock holder is about to replace or withdraw it is within the limit in every state if and only if no admission that replaces a queued job at the limit has both its cancellations fail without another job leaving the queue |
| JobRuns.NativeQueueBound | packages/server/internal/jobs/manager.go:238-300 | with the native store at most the limit is queued whenever admission is free, and one more while a revision is being replaced |
| JobAdmission.StepQueued | packages/server/internal/jobs/sessions.go:212-254 | the queue grows only by one job at a time, only by a save, and only when it was within the limit |
| JobRuns.OneTokenPerSession | packages/server/internal/jobs/sessions.go:289-308 | a live session has exactly one wake-up token, in the channel or with a worker, when it is scheduled, and none otherwise |
| JobRuns.OneWorkerPerJob | packages/server/internal/jobs/manager.go:697-757 | no job is moved forward by two workers |
| JobRuns.NoLostSlot | packages/server/internal/jobs/manager.go:714-757 | in both modes, every running attempt of an unexpired session has somebody who knows its outcome, or a stored record and somebody who will look at it, in every state of a run, if and only if no step takes a pending job without a record or sweeps the record of an attempt whose outcome nobody knows |
| JobRuns.WhoShares | packages/server/internal/jobs/manager.go:866-904 | a token, or a goroutine that still has to bring the job to its outcome, is the only party that answers for it; afterwards at most one goroutine does besides recovery and the deferred completion |
| JobService.ServedStep | packages/server/internal/jobs/manager.go:714-722 | one step keeps every attempt served if and only if it does not strand one |
| JobService.StrandedForever | packages/server/internal/jobs/manager.go:1157-1164 | an attempt that is not served keeps its slot through every step until the session is closed or expires |
| JobResponsibility.SlotStep | packages/server/internal/jobs/manager.go:714-722 | one step leaves every slot with a goroutine, a token or a deferred completion if and only if it is not the load or reload that finds no record and ends the attempt there |
| JobResponsibility.LostForever | packages/server/internal/jobs/sessions.go:320-361 | a slot that nobody owes stays occupied until the session is closed or expires |
| JobProgress.ServedRecovers | packages/server/internal/jobs/manager.go:714-892 | from every state of the invariant, finitely many steps of the admission in progress, of workers and of recovery free the slot of a served attempt, whatever else is queued |
| JobProgress.RecoversExactly | packages/server/internal/jobs/manager.go:714-892 | in every state of every run an attempt is served if and only if some continuation frees its slot while its session is live and unexpired |
| JobRuns.StartsOnlyWhileOwned | packages/server/internal/jobs/sessions.go:511-523 | a job becomes running only from queued and only while its session is live, unexpired and waits for exactly this attempt |
| JobRuns.TerminalIsFinal | packages/server/internal/jobs/manager.go:952-988 | a terminal status never changes and a swept record never comes back |
| JobRuns.PipelineOrder | packages/server/internal/jobs/sessions.go:249-278 | last success, running and pending job of a session are in strict revision order and the pending one has the latest revision |
| JobRuns.NeverBackwards | packages/server/internal/jobs/sessions.go:302-361 | neither the revision nor the last successful revision of a live session ever decreases |
| JobRuns.AttemptsInOrder | packages/server/internal/jobs/sessions.go:302-318 | the attempts of a session run in the strict order of their revisions, so a checkpoint is older than the attempt that reuses it |
| JobRuns.ReportsTrue | packages/server/internal/jobs/sessions.go:320-361 | ending attempts report the stored status and last successful jobs have succeeded records, as long as no deferred outcome is cancelled, and none deferred over another, before its worker has ended; such a step itself makes a report untrue |
| JobRuns.ReportsTrueExactly | packages/server/internal/jobs/sessions.go:320-361 | all reports of a run are true if and only if none of its steps cancels a deferred outcome, or defers one over another, before its worker has ended |
| JobTruth.StepTruth | packages/server/internal/jobs/manager.go:866-892 | one step keeps all reports true if and only if it is not one of those |
| JobTruth.StepSuccesses | packages/server/internal/jobs/sessions.go:341-351 | one step keeps every session's last successful job true to its record if and only if it does not end an attempt with a success that the stored record does not have |
| JobRuns.LastSuccessesExactly | packages/server/internal/jobs/sessions.go:320-361 | every session's last successful job has a succeeded record, or none after retention, in every state of a run if and only if no attempt of the run ends so |
| JobMislabels.MislabelCause | packages/server/internal/jobs/manager.go:866-904 | whenever one does, its worker had deferred the success, the record had another outcome already or was cancelled while the worker was sure, recovery dropped the settled entry, and only then did the worker look for one, in this order |
| JobMislabels.NativeSuccesses | packages/server/internal/jobs/manager.go:862-868 | with the native store every session's last successful job has a succeeded record, or none, in every state of every run |
| JobEvolution.StepEvolves | packages/server/internal/jobs/manager.go:906-988 | a record only moves along its life cycle, a success is rewritten only behind its open gate, gates never reopen, and closing one increases the version |
| JobReads.FinalIsAccounted | packages/server/internal/jobs/execution.go:210-227 | a success whose gate is closed has no accounting outstanding anywhere |
| JobResults.FinalResult | packages/server/internal/jobs/execution.go:205-227 | in every state of every run, a success whose gate is closed has the result of the last compile of the job, rewritten by its cache accounting, whether those writes were applied, unacknowledged, lost or deferred |
| JobResults.AccountedResult | packages/server/internal/jobs/manager.go:876-892 | when a worker has accounted a success with some result and its gate has closed, the record has that result |
| JobResults.StoredOutcome | packages/server/internal/jobs/manager.go:799-892 | a record that says succeeded or failed has the status of the last compile of the job, and a failed one its result |
| JobResults.ReadResult | packages/server/internal/jobs/manager.go:303-326 | so a read that returns a success returns the accounted result |
| JobReads.FinalStays | packages/server/internal/jobs/manager.go:917-928 | such a record stays as it is until retention removes it |
| JobReads.Get | packages/server/internal/jobs/manager.go:303-326 | a read that starts after the job was saved returns a record of the run, and a success only when it was final, wherever its critical sections fall; it returns nothing only if the record was missing at some state, or the caller gave up waiting for the open gate of a success |
| JobReads.List | packages/server/internal/jobs/manager.go:328-406 | every row is a record of the run and every success final; a page fails only on a row that was removed or whose gate the caller stopped waiting for |
| JobReads.Reconcile | packages/server/internal/jobs/manager.go:345-357 | gated successes are awaited and read again, and all successes are when the page kept changing |
| JobReads.VersionSeesGates | packages/server/internal/jobs/manager.go:368-392 | an unchanged version means that no gate closed during the query |
| JobEffects.EnqueueDelivers | packages/server/internal/jobs/manager.go:212-284 | while fewer jobs than the limit are pending and the channel has room, a job is stored as queued, its source pinned once more, its identifier put at the end of the channel, and nothing else changes |
| JobEffects.EnqueueRefuses | packages/server/internal/jobs/manager.go:238-300 | at the limit, or when the save fails, everything is as before, pins included |
| JobEffects.EnqueueWithdraws | packages/server/internal/jobs/manager.go:284-300 | when the channel is full the new job ends cancelled with a closed gate, and its pin is returned |
| JobEffects.SubmitDelivers | packages/server/internal/jobs/sessions.go:196-279 | a live session with room gets the new revision: next number, new tree, the new job pending, the one before it cancelled, and a wake-up token if it is idle and the channel has room |
| JobEffects.CancelCancels | packages/server/internal/jobs/manager.go:408-445 | a cancelled job is cancelled, and no other record changes |
| JobEffects.CloseCancels | packages/server/internal/jobs/sessions.go:416-447 | a closed session is gone, its pending job cancelled, and so is its running job if it can still be stopped; the session stays exactly when the write on that job fails |
| JobEffects.GateCloses | packages/server/internal/jobs/manager.go:917-928 | an attempt that ends closes its own gate and counts it, exactly when no completion of the job is pending |
| JobSessionRuns.SessionMeans | packages/server/internal/jobs/sessions.go:256-361 | in every state of every run a session's revision is the number of revisions accepted for it, its tree the one accepted last, its last success the one recorded last when an attempt gave up the slot, and it has expired if and only if its lease has run out |
| JobSessionRuns.SlotKept | packages/server/internal/jobs/sessions.go:320-361 | an attempt keeps the slot of a live session until it gives the slot up itself |
| JobPending.PendingStarts | packages/server/internal/jobs/sessions.go:289-318 | from every state of the invariant in which an idle session has a pending job, finitely many steps of the maintenance tick and of workers start it |
| JobActive.ActiveMeans | packages/server/internal/jobs/manager.go:734-757 | the table of active jobs holds only jobs that a worker has in hand, and all of them unless an entry was removed late, which never happens with the native store |
| JobFindings.SweptBeforeTaken | packages/server/internal/jobs/manager.go:714-722 | in both modes a run that ends with a session running a job whose record is gone and whose outcome nobody knows |
| JobFindings.DatabaseGivesUp | packages/server/internal/jobs/manager.go:716-722 | its continuation with the database: nobody answers for the slot any more |
| JobFindings.NativeRequeues | packages/server/internal/jobs/manager.go:1157-1164 | its continuations with the native store: load, requeue and receive come back to the same state any number of times |
| JobFindings.BothCancellationsFail | packages/server/internal/jobs/sessions.go:249-254 | a run that ends with two queued jobs under a limit of one |
| JobFindings.CancelledYetSuccessful | packages/server/internal/jobs/manager.go:866-868 | a run that ends with a cancelled job as the last successful one |
| JobWorkers.KeepsStart | packages/server/internal/jobs/manager.go:734-757 | the start transition keeps the invariant in all its outcomes: disowned, failed write, lost race, started |
| JobWorkers.KeepsFinish | packages/server/internal/jobs/manager.go:862-892 | a terminal write keeps the invariant whether applied, lost, unacknowledged or beaten by a cancellation |
| JobWorkers.KeepsDefer | packages/server/internal/jobs/manager.go:866-868 | deferring a completion moves the pin and the slot to the entry |
| JobWorkers.KeepsRetry | packages/server/internal/jobs/manager.go:1053-1074 | recovery writes or reconciles a deferred completion without losing or doubling a pin |
| JobWorkers.KeepsReleaseSource | packages/server/internal/jobs/manager.go:876-883 | the worker gives its pin up once |
| JobSlots.KeepsSupersede | packages/server/internal/jobs/sessions.go:249-254 | replacing the pending job keeps the invariant whether its cancellation succeeds or fails |
| JobSlots.KeepsAccept | packages/server/internal/jobs/sessions.go:256-278 | accepting a revision takes the second pin, releases the old tree and schedules at most one token |
| JobSlots.KeepsTake | packages/server/internal/jobs/sessions.go:302-318 | taking a token starts the pending job, if the session is idle |
| JobSlots.KeepsFreeSlot | packages/server/internal/jobs/sessions.go:341-360 | ending an attempt frees the slot, records a success and schedules the next job |
| JobSlots.KeepsClose | packages/server/internal/jobs/sessions.go:416-447 | closing a session keeps the invariant, also when the write on its running job fails |
| JobManager.Manager.constructor | packages/server/internal/jobs/manager.go:82-115 | a new engine is the initial state and satisfies the invariant |
| JobManager.Manager.Transition | packages/server/internal/jobs/manager.go:952-975 | the conditional update reports whether the expected status was found, and the counter follows the status |
| JobManager.Manager.Cancel | packages/server/internal/jobs/manager.go:930-950 | cancelling a queued job rewrites the record, releases its pin and closes its gate, or leaves everything as it was |
| JobManager.Manager.EndPublication | packages/server/internal/jobs/manager.go:917-928 | a gate closes only when no completion is pending, and the version counts it |
| JobManager.Manager.Admit | packages/server/internal/jobs/manager.go:238-284 | the admission region counts, saves and hands the identifier to the channel exactly when it is accepted |
| JobManager.Manager.DeferCompletion | packages/server/internal/jobs/manager.go:894-904 | a deferred completion is entered with the status it replaces and its pin passes to the entry |
| JobManager.Manager.StartJob | packages/server/internal/jobs/manager.go:734-757 | the locked start region performs the start transition |
| JobManager.Manager.ScheduleSession | packages/server/internal/jobs/sessions.go:289-300 | the non-blocking send marks a session scheduled only when the token went into the channel |
| JobManager.Manager.TakeSession | packages/server/internal/jobs/sessions.go:302-318 | a taken token moves the pending job into the running slot |
| JobManager.Manager.FinishSession | packages/server/internal/jobs/sessions.go:341-360 | the locked part of ending an attempt performs the slot transition |
| JobManager.Manager.SubmitRevision | packages/server/internal/jobs/sessions.go:212-279 | from the prepared upload on, the submission performs the admission steps in order, undoing the new job when it fails |
| JobManager.Manager.RetryCompletion | packages/server/internal/jobs/manager.go:1053-1074 | one recovery pass performs the retry transition and returns the status now stored |
| JobManager.Manager.CloseSession | packages/server/internal/jobs/sessions.go:416-447 | closing performs the close transition, or changes nothing when the pending job cannot be cancelled; the session is gone exactly when it reports so |
| JobManager.Manager.PruneTerminal | packages/server/internal/jobs/manager.go:1138-1147 | the native sweep removes exactly the old, terminal, ungated records |
| HistoryIndex.Store.Save | packages/server/internal/jobs/manager.go:1174-1241 | binary insertion keeps every owner's index sorted and complete; an existing identifier is refused |
| HistoryIndex.Store.Search | packages/server/internal/jobs/manager.go:1235-1239 | the insertion point separates older from newer jobs |
| HistoryIndex.Store.Prune | packages/server/internal/jobs/manager.go:1138-1150 | removing records filters the index of every owner that lost one |
| HistoryIndex.Store.Transition | packages/server/internal/jobs/manager.go:959-973 | a transition leaves every index valid |
| HistoryIndex.Store.List | packages/server/internal/jobs/manager.go:328-341 | the page read backwards from the index is the newest jobs of the owner, newest first |
| HistoryIndex.NewestUnique | packages/server/internal/jobs/manager.go:328-341 | there is only one such page, so it equals the one that sorting all jobs would give |
| HistoryIndex.SortedUnique | packages/server/internal/jobs/manager.go:1230-1241 | there is only one index of a set of jobs |
| Revisions.Session.Submit | packages/server/internal/jobs/sessions.go:182-191 | a submission is accepted exactly when its key is unknown, its base is current and it is admitted; a retry of an accepted request is answered with its own job while its receipt is kept and refused afterwards |
| Revisions.Session.Answers | packages/server/internal/jobs/sessions.go:264-274 | an accepted request is found by its own receipt or has an outdated base |
| Revisions.Session.AcceptedOnce | packages/server/internal/jobs/sessions.go:182-191 | no request value is accepted twice in the life of a session |
| Revisions.Client.AcceptPending | packages/cli/cmd/latexmk/live.go:153-177 | an attempt adds the pending request exactly when its base is current and it is admitted, and only if it was never accepted before; its reply names the job while the receipt is kept, and a lost reply leaves it pending |
| Revisions.Client.Retry | packages/cli/cmd/latexmk/live.go:174-178 | whatever replies are lost and whatever other clients submit between the attempts, retrying one prepared revision leads to at most one accepted job, the one that the client is told, and adds nothing else; the client is told with the first reply that arrives, if the first attempt was acceptable and the others submit too little to push out its receipt |
| EventLog.Log.Publish | packages/server/internal/jobs/sessions.go:363-382 | the log holds the last 64 events with consecutive numbers |
| EventLog.Log.SessionEvents | packages/server/internal/jobs/sessions.go:384-402 | a reader gets exactly the events after its number, or a resync with the current number if and only if more than 64 are ahead of it or its number is ahead of the log |
| EventLog.Follow | packages/cli/internal/client/events.go:62-65 | for every interleaving of publications and reads cut off anywhere: the log is what was published, in order; the reader has every event once and in order up to the position that its reads lead to, or a resync in between; it gets a resync exactly if it reads when more than 64 events are ahead of it, and otherwise has exactly the beginning of the log |
| EventLog.CaughtUp | packages/cli/internal/client/events.go:62-65 | that position is the end of the log after a read that was not cut off |
| TokenBucket.WindowBound | packages/server/internal/jobs/sessions.go:550-569 | any window admits at most the burst and what its length refills, when idle buckets are kept for two seconds |
| TokenBucket.DiscardHarmless | packages/server/internal/jobs/sessions.go:455-459 | a bucket that old is full, so discarding it changes nothing |
| TokenBucket.BoundedExactly | packages/server/internal/jobs/sessions.go:449-459 | the bound holds over all windows of all histories if and only if sessions live for at least two seconds |
| TokenBucket.Budgets.AllowRevision | packages/server/internal/jobs/sessions.go:550-569 | the table decides and updates as the bucket of that owner does, other owners untouched |
| TokenBucket.RefusedExactly | packages/server/internal/jobs/sessions.go:550-569 | for sessions that live at least two seconds a call is refused if and only if, from some earlier call or discard on, the admissions since then and one more exceed the burst and what the time refills |
| TokenBucket.RefusedOnlyWhenSpent | packages/server/internal/jobs/sessions.go:550-569 | whatever the lifetime, a call is refused only then |
| TokenBucket.Budgets.Expire | packages/server/internal/jobs/sessions.go:455-459 | the sweep discards exactly the idle buckets |
| Stamps.CompatibleCacheInputs | packages/server/internal/project/compile_cache.go:149-173 | true if and only if both lists name the same paths once each and only TeX sources differ |
| Stamps.SessionCache.Execute | packages/server/internal/jobs/execution.go:65-83 | on a reused checkpoint a file keeps its stamp if and only if its content is unchanged, and a changed file is strictly newer |
| Stamps.History | packages/server/internal/jobs/execution.go:65-176 | for all attempts of a session in order: an attempt is built on the last attempt published and not given up since, exactly if that has not expired, fits, and no clean compile is forced; then stamps are as above, otherwise all of its own revision; every stamp names an attempt that compiled the same content |
| Stamps.SameStampSameContent | packages/server/internal/jobs/execution.go:76-83 | any two attempts of a session that give a file the same stamp compile the same content of it |
| Stamps.SessionCache.Publish | packages/server/internal/jobs/execution.go:161-175 | a published checkpoint remembers inputs, stamps and hashes, with stamps no newer than its revision |
| Stamps.SessionCache.Clear | packages/server/internal/jobs/execution.go:199-208 | a cleared checkpoint leaves no inputs, stamps or hashes that a later attempt could reuse |
| SourceStore.StepKeeps | packages/server/internal/project/store.go:203-687 | every critical section of uploads, commits, pins and collection keeps the invariant |
| SourceStore.RemovalSafe | packages/server/internal/project/store.go:624-687 | a removed blob has no live upload, pin or current snapshot referring to it |
| SourceRuns.CollectionSafe | packages/server/internal/project/store.go:486-620 | in every run a blob disappears only through the collector, and only when nothing refers to it |
| SourceRuns.PreparedUntilReleased | packages/server/internal/project/uploads.go:14-35 | a source pinned through PrepareUpload keeps all its blobs up to its last release |
| SourceRuns.CommittedComplete | packages/server/internal/project/store.go:238-301 | commits in progress keep what they checked up to the first step that consumes an upload under its commit, and that step takes it from them |
| SourceStore.CurrentStep | packages/server/internal/project/store.go:262-301 | one step keeps current snapshots complete if and only if it does not save a source with missing blobs |
| SourceRuns.CurrentExactly | packages/server/internal/project/store.go:238-301 | current snapshots are complete in every state of a run if and only if no step of it saves such a source |
| SourceRuns.IncompleteByConsuming | packages/server/internal/project/uploads.go:37-43 | whenever one is saved, its upload was consumed under that commit and the collector removed a blob of it later |
| SourceStore.CommitStep | packages/server/internal/project/store.go:238-301 | one step leaves every commit in progress what it checked if and only if it does not consume an upload under its commit |
| SourceRuns.ConsumedUnderCommit | packages/server/internal/project/uploads.go:37-43 | a run that ends with a current snapshot whose blob was collected |
| SourceManager.Manager.PrepareUpload | packages/server/internal/project/uploads.go:14-35 | succeeds exactly when the upload is live, owned, not being committed and complete, and then takes one pin |
| SourceManager.Manager.ConsumeUpload | packages/server/internal/project/uploads.go:37-43 | forgets the owner's upload and nothing else |
| SourceManager.Manager.ReleaseSnapshot | packages/server/internal/project/store.go:435-448 | gives one pin back; the last one takes the source out of the table |
| SourceRuns.PinsCounted | packages/server/internal/project/store.go:435-448 | in every state of every run the pins of a source are those taken for it less those given back, so the source leaves the table with its last release |
| SourceHistory.LiveExactly | packages/server/internal/project/store.go:203-301 | in every run an upload is live from its announcement until it expires, is consumed or its commit is done |
| SourceHistory.CurrentMeans | packages/server/internal/project/store.go:262-301 | in every run a project's current snapshot is what was saved for it last, as some upload announced it, unless it was deleted or lapsed since |
| SourceHistory.GarbageRemovable | packages/server/internal/project/store.go:486-687 | a blob to which no live upload, pin or current snapshot has referred since a collection began is not marked by it and can be removed |
| SourceManager.Manager.HasBlobs | packages/server/internal/project/uploads.go:21-25 | true if and only if every announced digest is stored |
| SourceManager.Manager.LockedReferences | packages/server/internal/project/store.go:520-532 | gathers exactly the references of live uploads and pins |
| SourceManager.Manager.RemoveUnreferenced | packages/server/internal/project/store.go:895-969 | removes exactly the old blobs that no phase marked |
| StateQuota.Storage.Reserve | packages/server/internal/project/publication.go:23-34 | bytes are reserved for the named file exactly when they fit beside what is published and reserved |
| StateQuota.Storage.Stage | packages/server/internal/project/publication.go:35-58 | a staged file is complete or the publication is closed again; bytes without a reservation stay only when the write and its cleanup both fail, and then just what reached the file |
| StateQuota.Storage.Commit | packages/server/internal/project/publication.go:71-95 | the quota test inside never refuses; a commit turns the reservation into published bytes and keeps the sum within the quota |
| StateQuota.Storage.Close | packages/server/internal/project/publication.go:99-122 | returns the reservation exactly when the staged file is gone, otherwise keeps it for a retry |
| StateQuota.Storage.WriteResult | packages/server/internal/project/store.go:786-821 | a stream of any length replaces the result exactly when it fits the free space and can be renamed; otherwise nothing published changes and only a failed cleanup leaves bytes behind |
| StateQuota.Storage.WriteAtomic | packages/server/internal/project/result_retention.go:120-161 | a stream of any length is accepted exactly when it fits, and the accounted sum changes by the difference of sizes |
| StateQuota.Storage.DeleteFile | packages/server/internal/project/store.go:751-776 | deletion removes exactly that file and frees its size; the sum never falls below what is stored |
| StateQuota.Storage.Sweep | packages/server/internal/project/store.go:547-600 | a sweep removes exactly the expired files; one that completes leaves the sum measured exactly; one that fails leaves it as it was, too high by what it removed |
| StateQuota.Storage.DirectorySize | packages/server/internal/project/store.go:971-991 | measures the published files, staged siblings excluded |
| StateQuota.Published | packages/server/internal/project/publication.go:23-95 | reserving, staging and committing a file that fits publishes it under its name with its size and leaves no reservation and no staged file |
| StateQuota.Storage.BooksBalance | packages/server/internal/project/publication.go:12-18 | bytes on disk, reserved but unwritten bytes and bytes swept but still counted are the accounted sum and the leaked bytes; so the disk holds no more than is accounted if and only if no more is leaked than is reserved and unwritten or swept |
| StateQuota.Run | packages/server/internal/project/publication.go:23-122 | after every sequence of operations the volume is what they do one by one and the leaked bytes are the sum of what they left behind; these are none if and only if no operation had its write and its cleanup fail after bytes had reached the disk, and if every failing write cleans up, the disk never exceeds the accounted sum or the quota; while no sweep fails, the published sum is exact |
| StateQuota.Settle | packages/server/internal/project/publication.go:49-122 | some continuation without a further leak shows more on disk than is accounted, if and only if more has leaked than is withheld by publications that failed without returning a handle |
| StateQuota.StaysWithin | packages/server/internal/project/publication.go:49-122 | if no more has leaked than that, every continuation without a further leak stays within the accounted sum |
| StateQuota.LeaksExactly | packages/server/internal/project/publication.go:49-55 | the sum of what a sequence leaves behind is zero if and only if none of its operations, in the state that it found, leaks |
| StateQuota.LeakExceedsQuota | packages/server/internal/project/publication.go:49-55 | a failed write whose remains cannot be removed lets the volume exceed the quota |
| Removal.Directory.RemoveVerified | packages/shared/safefs/remove.go:18-69 | for every interleaving of edits the result equals an atomic deletion at the rename, nothing at all, a relinking without overwriting, or the object in quarantine with an error, and which one is determined: it reports removal exactly when the object verified twice was taken and no call failed, and quarantine exactly when an object was taken and reopening it fails or it is no regular file, or its removal fails, or linking a replaced one back fails or finds its name taken |
| Removal.Directory.RemoveQuarantined | packages/shared/safefs/remove.go:71-112 | the quarantined object is removed if and only if it is the one verified at first and neither reopening nor removal fails; a replaced regular object is linked back unless that fails or its name is taken again |
| Removal.EditedTwice | packages/shared/safefs/remove.go:14-17 | edits compose, so interleavings can be compared as one sequence |
| Removal.PrivateApart | packages/shared/safefs/remove.go:58-61 | edits and the private quarantine name do not affect each other |
| Removal.Directory.RemovalSparesNewer | packages/shared/safefs/remove.go:58-69 | an object that another writer puts under the name after the rename is there in the end |
| Removal.Directory.RelinkSparesNewer | packages/shared/safefs/remove.go:101-111 | putting the object back never overwrites one that another writer has put there before, and one put there later stays |
| TexMask.Sanitize | packages/cli/internal/dependency/dependency.go:217-247 | the in-place pass computes the mask |
| TexMask.MaskCorrect | packages/cli/internal/dependency/scanner.go:22-53 | masking is idempotent, and a scan of the masked text that knows neither comments nor literals finds exactly the control sequences of the source outside both, at their source offsets |
| TexMask.LinesKept | packages/cli/internal/dependency/dependency.go:214-216 | the mask has the length of the source, its line feeds at the same positions, and every other byte kept or hidden |
| TexMask.SameControl | packages/cli/internal/dependency/scanner.go:200-218 | a visible control sequence, its digit suffix included, reads the same in the masked text |
| TexMask.Balanced | packages/cli/internal/dependency/dependency.go:179-205 | the scanning loop finds the end of the group, braces nested in brackets and escaped delimiters skipped |
| TexMask.InlineVerbEnd | packages/cli/internal/dependency/dependency.go:251-273 | an inline literal ends behind the next occurrence of its delimiter on its line, or at the end of the line if there is none; an empty one, or one whose options are open, ends where it stands |
| TexMask.ControlSequence | packages/cli/internal/dependency/scanner.go:200-218 | the loop computes the end of a control sequence, which is a run of letters with at signs, one other byte, or a registered name with a digit suffix |
| TexTokens.MaskByTokens | packages/cli/internal/dependency/dependency.go:214-273 | every source has one cut into comments, literals, control sequences and single bytes; the mask hides comments but for line feeds and literals but for line ends, shows everything else, and visible are exactly the control sequences among these tokens |
| TexTokens.BehindLiteral | packages/cli/internal/dependency/dependency.go:249-273 | a command directly behind the closing delimiter of an inline literal is visible |
| TexOptions.GroupExact | packages/cli/internal/dependency/dependency.go:179-205 | the scan finds a group's end at a brace if and only if the text before it closes every brace it opens and none of its own |
| TexOptions.SplitOptions | packages/cli/internal/dependency/options.go:7-26 | the loop, which skips whole groups, computes the split at the commas of depth zero |
| TexOptions.SplitExactly | packages/cli/internal/dependency/options.go:5-26 | a list of fields is the split of a text if and only if joining it with commas gives the text back, no field has a comma outside braces, and no field but the last leaves a brace or an escape open |
| TexOptions.ParseOptions | packages/cli/internal/dependency/options.go:30-42 | comments removed, fields split, keys and values read in order, fields without a key dropped |
| TexOptions.UnwrapExactly | packages/cli/internal/dependency/options.go:44-52 | a braced value loses its braces if and only if they enclose all of it |
| TexOptions.OptionsRoundTrip | packages/cli/internal/dependency/options.go:30-52 | a written option list is read back as it was, whatever commas, equals signs, brackets and nested braces its values hold, and with all Unicode white space trimmed |
| TexForms.FieldRead | packages/cli/internal/dependency/options.go:30-52 | a field is its key and its value without the white space around them, and without the braces that enclose the whole value, others kept; a key alone has the empty value |
| TexForms.NoKey | packages/cli/internal/dependency/options.go:30-42 | a field without a key is no setting |
| TexForms.UnwrapPlain | packages/cli/internal/dependency/options.go:44-52 | a value that is not all in one pair of braces is read as it stands |
| TexForms.GroupsTogether | packages/cli/internal/dependency/options.go:30-42 | the settings of several groups are those of each group, in order |
| TexForms.BracketExact | packages/cli/internal/dependency/dependency.go:179-205 | the scan finds the end of a bracket group if and only if the text before it closes every bracket it opens, whole brace groups in it skipped |
| TexOptions.OptionValues | packages/cli/internal/dependency/options.go:54-60 | the table has exactly the keys that occur, each with its last value |
| TexOptions.NormalizeArgument | packages/cli/internal/dependency/dependency.go:317-333 | the loop leaves, trimmed, the bytes that are neither hidden nor white space after a hidden byte up to the end of its line |
| TexOptions.ArgumentOfMask | packages/cli/internal/dependency/dependency.go:214-247 | for an argument cut out of masked text, what normalizing drops is comment text and the line ends with the white space behind it; every other byte is the one of the source, or a blank in place of a literal's; a NUL of the source passes for comment text |
| TexOptions.PlotEnd | packages/cli/internal/dependency/scanner.go:222-242 | the loop finds the next semicolon of depth zero |
| TexOptions.PlotExactly | packages/cli/internal/dependency/scanner.go:222-242 | that is the first semicolon of the plot outside its braces, and there is none if the scan reaches the end |
| EventLines.ReadLines | packages/cli/internal/client/events.go:19-39 | for any sizes of reads the lines are those of the whole stream, up to the first that does not fit the buffer |
| EventLines.Splitter.Split | packages/cli/internal/client/events.go:19-39 | one call returns the first line of the buffered bytes, a line feed after a carriage return skipped |
| EventLines.ReadEvents | packages/cli/internal/client/events.go:41-81 | the reader dispatches the data fields of each event and refuses oversized data |
| EventLines.ReadStream | packages/cli/internal/client/events.go:19-81 | scanner and reader together dispatch the payloads of the lines that fit the buffer, and succeed exactly when all lines and all data fit |
| EventLines.StreamRoundTrip | packages/server/internal/httpapi/sessions.go:132-146 | the client reads the whole stream if and only if each line that the server wrote fits the buffer with its end, and then it has exactly the payloads sent, heartbeats dropped |
| EventForms.MarkedLines | packages/cli/internal/client/events.go:19-39 | lines ended by line feeds, carriage returns or both in any mixture are read as these lines, an unterminated last one included |
| EventForms.EventsRead | packages/cli/internal/client/events.go:41-81 | written events, with comments, other fields and any number of data fields, are dispatched in order, each with its data fields joined by line feeds, while these fit |
| EventForms.TooMuch | packages/cli/internal/client/events.go:66-75 | a data field that does not fit is refused and ends the reading |
| EventForms.MarkDropped | packages/cli/internal/client/events.go:46-52 | a byte order mark in front of the first line is dropped, and nothing else is |
| LogStreams.DiagnosticStream.Write | packages/cli/internal/client/diagnostics.go:191-217 | parsed lines, counters and the pending line are a function of all bytes written |
| LogStreams.DiagnosticStream.Finish | packages/cli/internal/client/diagnostics.go:219-235 | at the end every line, an unterminated last one included, has been parsed once, cut at the limit |
| LogStreams.LinesExactly | packages/cli/internal/client/diagnostics.go:191-217 | the lines of a stream and its rest are the only strings without line feeds that make it up |
| LogStreams.ParsedExactly | packages/cli/internal/client/diagnostics.go:191-235 | each is parsed as what fits the limit of it, but for one carriage return at the end |
| LogStreams.OversizedExactly | packages/cli/internal/client/diagnostics.go:219-235 | the counter of oversized lines is the number of lines above the limit |
| LogStreams.ChunkIndependent | packages/cli/internal/client/diagnostics.go:191-217 | how the bytes were cut into writes does not matter |
| LogStreams.TailBuffer.Write | packages/cli/internal/client/results.go:386-402 | the buffer holds the last bytes of everything written, as many as it can |
| LogStreams.TailLines | packages/cli/internal/client/results.go:408-426 | the returned suffix starts at a line and has as many lines as asked for, or all |
| Template.Parse | packages/cli/internal/naming/template.go:40-86 | accepts exactly the grammar and produces the compiled string, the placeholders and their names |
| Template.SplitCompiled | packages/cli/internal/naming/template.go:66-69 | splitting the compiled string on the tags gives back exactly the literals and placeholders that were parsed |
| Template.Render | packages/cli/internal/naming/template.go:106-137 | rendering is direct substitution, refused when a value refuses its format or the result is too long |
| Template.Expand | packages/cli/internal/naming/template.go:40-137 | parsing and then rendering any source substitutes the values for the placeholders of its grammar, and refuses every other source |
| TemplateForms.TokensExactly | packages/cli/internal/naming/template.go:45-80 | a source is read as some tokens if and only if it is their written form: a name and a format in braces, doubled braces, other bytes; so every accepted source has one reading and every reading one source |
| TemplateForms.NameExactly | packages/cli/internal/naming/template.go:89-102 | a name is valid if and only if it consists of identifiers with dots between them |
| TemplateForms.NamesExactly | packages/cli/internal/naming/template.go:70-72 | the variables are the names of the placeholders, each once, in the order of first use |
| Template.EscapedRenders | packages/cli/internal/naming/template.go:38-43 | text with doubled braces expands to itself for all values, exactly when its escaped form is acceptable: no tag byte, and not too long |
| Template.SourceLiteral | packages/cli/internal/naming/template.go:40-43 | an accepted source never contains a tag delimiter |

## Left out

- HTTP handlers, authentication, the network client, Docker, subprocesses, the dashboard, deployment, command-line parsing and configuration: plumbing without a deep invariant.
- PostgreSQL: the job store is a map with a conditional update and the failures described above; restart recovery in `Start` and process shutdown are not modelled.
- An applied-but-failed start or cancellation write: the engine does not reconcile those, so nothing is claimed about them.
- Time: leases and retention are steps that may occur at any moment; token refill uses real numbers in place of floating point.
- Hashes, archives, JSON and random identifiers: hashing is injective, identifiers are fresh, and encoded results are byte counts.
- JobRuns.StepKeeps: project cleanup (`packages/server/internal/jobs/manager.go:486-691`) is not a step; it deletes terminal records of a project without live sessions without looking at their gates, which the invariant would forbid.
- JobState.Cancel: the update of the record, the release of the pin and the closing of the gate are one step; the source does them one after another (`packages/server/internal/jobs/manager.go:930-950`), and when Enqueue withdraws a job it does not hold the admission lock.
- JobSteps.Forget: after a failed start write the worker removes its entry from the table of active jobs only once it has put the job back; the model lets such a removal come at any moment and for any job.
- Scheduling fairness of Go's channels and mutexes: only safety and possible progress are proved.
- The gap between Commit and the pin taken by Enqueue: a source pinned by PinSnapshot alone is claimed to be complete only while something else keeps it.
- Leases that run out under a commit: an upload that has passed the check of Commit does not expire before Commit ends.
- Sharing of live session objects: sessions are values in a map, so the reference that a subscriber keeps to a closed session is not modelled.
- JobManager.Manager.SubmitRevision: performs the admission steps without interference; interleavings with other goroutines are covered by the state machine.
- SourceStore.Visit: marks current snapshots; the manifests of active jobs that database mode also marks would only enlarge the reference set.
- StateQuota.Storage.Sweep: takes the set of removed files as given; which files are old enough is not modelled.
- Template.Render: the tag engine is modelled from its documented splitting and is not part of the repository; UTF-8 validity and the formats of single value types are not modelled.
- EventLines.ReadEvents: events are opaque payloads; decoding them is not modelled.
- LogStreams.DiagnosticStream.Write: UTF-8 repair and the regular expressions of the parser are not modelled.
- TexMask.MaskCorrect: the scanner's registry is a parameter; argument scanning and line numbers of invocations are not modelled.
- Stamps.SessionCache.Execute: needs that a checkpoint is older than the attempt, which `JobRuns.AttemptsInOrder` proves for the engine and `Stamps.History` keeps for all attempts in that order.
- Font, SVG and biblatex handlers, glob matching and the other registry tables: wide case tables that would only add easy members.
- Symbolic links, permissions and syncing in the file system: a directory is a map from names to objects with atomic rename, link and removal.
