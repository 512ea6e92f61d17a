# Verified model of the AutoML control plane

This project models the protocols on which a resumable AutoML service rests and proves what they
promise over all runs: with concurrent clients, crashes after any durable write, workers that come
back late, connections cut anywhere, and clocks that stand still. Model training itself is an
oracle that calls back twice and then returns or fails.

Every component has the same build. Pure transition functions on values say what one call does,
branch by branch. Lemmas say what every call keeps and what then holds over every finite run. A
class with the program's own fields performs the same calls in place, loop by loop, and each of its
methods is proved to have exactly the effect of its transition function. What each transition function
records is stated once more without its helpers, field by field, in the modules named after records,
effects, outcomes, keys, patches, answers, checks, lines and sessions.

| files | component |
|---|---|
| `JobQueue`, `JobQueueRuns`, `JobQueueRecords`, `JobTable` | the leased and fenced execution-job queue, and the worker pass that uses it |
| `RunStore`, `RunStoreRuns`, `RunStoreTraces`, `RunStoreResults`, `RunStoreRefusals`, `RunStoreIdentity`, `RunStorePatches`, `RunStoreTable` | event logs with an index, optimistic revisions, write-once results, the webhook outbox |
| `Durability` | whole-state checkpoint, rollback of failed writes, restart |
| `Idempotency`, `IdempotencyKeys` | reservations and the request protocol over them |
| `Publication`, `PublicationRuns`, `PublicationResume`, `PublicationLimits`, `PublicationOutcomes`, `PublicationEffects`, `PublicationService` | publication of stages and outputs by a step that is re-run from the top after any failure |
| `EventPaging` | event pages behind a cursor and the client loop that walks them |
| `StreamText`, `EventStream`, `EventStreamClient`, `EventSessions` | server-sent events: text and lines, the line parser, reconnects |
| `EventReads` | pages and streams over the logs of the store |
| `ArtifactRange`, `ArtifactDownload`, `ArtifactChecks`, `ArtifactFiles` | byte ranges and the resumable, verified download |
| `WebhookDispatch`, `WebhookRuns`, `WebhookRecords`, `WebhookWorker` | ordered webhook delivery with retries, recovery and redelivery |
| `RateLimiter`, `RateLimiterRuns`, `RateLimiterRecords` | the sliding-window limiter with its overflow bucket |
| `AgentGate`, `AgentGateAnswers` | comparison of JSON values and the gate for answers from agents |
| `AgentContract`, `AgentContractMeaning`, `AgentContractRender`, `AgentContractWebhooks`, `AgentContractLines`, `AgentContractSuccess`, `AgentContractGenerator` | the allowlist filter over the contract document |
| `Text`, `Wrappers` | decimals and separators in text; option and result types |

Check everything with `dafny verify dfyconfig.toml`.

## Reading the model

- Time is a number. A SQL statement reads the clock once, so a queue call carries one reading for
  each of its statements; runs only assume that readings do not go back.
- A call is one atomic step where the program holds a lock or a transaction across it. Publication
  is finer: `fuel` is the number of durable writes of a lock section that still succeed, so a
  statement about the state after every step with every `fuel` is one about every durable state.
  Between lock sections users may cancel, pause, resume, answer and approve.
- Identifiers carry a zero-padded counter of twelve digits, so their text order is the order of the
  counter; they are modelled by that counter.
- What a run records besides its revision, numbers, tenant and endpoints is a map from names to values,
  which a patch overrides name by name.
- Cursors are opaque values of which only equality is used, fingerprints and hashes are arbitrary
  functions, and JSON is any encoding that can be read back.
- Iteration over a Python set or over a dictionary's items is an arbitrary enumeration, chosen anew
  by every step of a run, and every statement holds for all choices.
- The SDK reads a stream through the line iterator of its HTTP library: it splits where
  `str.splitlines` does, and a transport failure leaves out the line it falls into.

## Where the code does not do what one might expect

Each of these is stated by lemmas: a run in which it happens, exactly when it happens, or both. The
last two are about what the model covers.

- A job can become DEAD inside a claim with nobody told (`JobQueueRuns.DeathInsideClaim`); a death is
  told exactly if it happened in an accepted retry (`JobQueueRuns.DeathExactly`, `JobTable.DeathIsToldExactly`).
- One rate-limit key can be admitted through two buckets, so its bound is twice the limit
  (`RateLimiterRuns.KeyReachesTwice`, `RateLimiterRuns.EveryKeyIsBounded`).
- A finalize whose events clash raises after it has written (`RunStoreResults.FinalizeCanTear`,
  `RunStoreRefusals.FinalizeRaisesExactly`, `RunStoreRefusals.FinalizeTears`); the checkpoint wrapper
  rolls back only failed writes, so the half-done state reaches the disk with the next successful
  mutation (`Durability.TornFinalizeReachesDisk`, `Durability.TornExactly`).
- A reservation whose executor died stays for good, and its key never executes again
  (`Idempotency.OrphanNeverRunsAgain`, `Idempotency.RestartOrphans`).
- The data quality report is created again by a re-run of the profile step
  (`PublicationLimits.ProfileTwice`, `PublicationLimits.ReportRepeatsExactly`), an output can exist without ever
  being announced (`PublicationLimits.TaskSpecGoesUnannounced`, `PublicationLimits.AnnouncementLostExactly`,
  `PublicationLimits.UnannouncedForever`), and the run phase goes back (`PublicationLimits.PhaseGoesBack`,
  `PublicationLimits.PhaseFallsExactly`).
- A terminal run is reopened by a late positive-class question, and by nothing else
  (`PublicationRuns.TerminalIsKeptExactly`).
- A stream may stop before the terminal event (`EventStreamClient.CanStopShort`,
  `EventStreamClient.StopsShortExactly`).
- An event whose JSON text holds a line break is refused by the streaming client. JSON is written
  without escaping U+0085, U+2028 and U+2029, at which the client splits (`EventStream.FrameIsReadExactly`).
- A lost final write leaves a second webhook delivery marked as under way (`WebhookRuns.TwoUnderway`,
  `WebhookRuns.UnderwayExactly`).
- If an event time goes back, webhook attempts can start out of event order
  (`WebhookRuns.OrderNeedsTheClock`, `WebhookRuns.OvertakenExactly`).
- A Range header with signs, spaces or underscores around its digits is accepted although
  section 14.1.2 of RFC 9110 allows digits only; the model accepts it too (`ArtifactRange.Int`).
- The development actor passes the answer gate without restriction; the gate's theorem is about
  agents and services.

## Model

| member | source | states |
|---|---|---|
| `JobQueue.FirstExists` | apps/api/src/automl_api/persistence.py:640-660 | Whenever some row can be claimed there is one and only one row that the claim order (due time, creation, run) puts first. |
| `JobQueue.ClaimKeepsInv` | apps/api/src/automl_api/persistence.py:613-675 | A claim, with its sweep, its look for a running lease, its pick and its grant each reading the clock anew, leaves at most one running lease and every row sound. |
| `JobQueue.StepKeepsInv` | apps/api/src/automl_api/persistence.py:528-833 | Every call keeps every row sound (lease fields exactly while LEASED, attempt at most max_attempts, READY and RETRY rows due at some time) and leaves at most one unexpired lease. |
| `JobQueue.StepAdvances` | apps/api/src/automl_api/persistence.py:586-833 | No call removes a row, lowers a generation or an epoch, changes max_attempts, or touches a COMPLETED or DEAD row. |
| `JobQueueRuns.RunKeepsInv` | apps/api/src/automl_api/persistence.py:528-833 | The row invariants and lease exclusion hold after every prefix of every run whose clock does not go back. |
| `JobQueueRuns.LeaseExclusion` | apps/api/src/automl_api/persistence.py:613-675 | In any interleaving of create, wake, claim, renew, checkpoint, complete and retry, two rows with unexpired leases are the same row. |
| `JobQueueRuns.LeaseOrigin` | apps/api/src/automl_api/persistence.py:660-675 | A leased row was claimed under exactly the generation and epoch it carries, and no wake has landed since that claim. |
| `JobQueueRuns.OneHandlePasses` | apps/api/src/automl_api/persistence.py:677-701 | Of all (run, generation, epoch) handles, issued or made up, at most one can pass the fence, and it was issued by a claim. |
| `JobQueueRuns.HandlesAreFresh` | apps/api/src/automl_api/persistence.py:660-675 | No two claims ever issue the same handle. |
| `JobQueueRuns.StaleForever` | apps/api/src/automl_api/persistence.py:677-701 | A handle that is not ahead of its row, as every issued one, and has once failed to pass the fence never passes it again. |
| `JobQueueRuns.NoLostWakeup` | apps/api/src/automl_api/persistence.py:586-611 | Once a wake lands after a claim, every renew, checkpoint, complete or retry under that claim is refused and changes nothing. |
| `JobQueueRuns.WaitingSawNoWake` | apps/api/src/automl_api/persistence.py:731-770 | A WAITING job was parked by a checkpoint of an identified claim, and no wake has landed since that claim. |
| `JobQueueRuns.RowsAdvance` | apps/api/src/automl_api/persistence.py:586-833 | Over any stretch of a run generations and epochs do not decrease and COMPLETED and DEAD are absorbing. |
| `JobQueueRuns.ClaimsInOneRound` | apps/api/src/automl_api/persistence.py:613-675 | Between any two moments with no wake and no checkpoint of a job in between, its claims number exactly what its attempt has risen by, so max_attempts at most. |
| `JobQueueRuns.RoundStart` | apps/api/src/automl_api/persistence.py:586-611 | Every moment lies in such a round, which began with the creation of the job or with its last wake or checkpoint. |
| `JobQueueRuns.ClaimBudget` | apps/api/src/automl_api/persistence.py:613-833 | Summed over the rounds: a run with n wakes and checkpoints of a job claims it at most max_attempts * (n + 1) times, so finitely many of them mean finitely many claims. |
| `JobQueueRuns.ClaimServesDueRows` | apps/api/src/automl_api/persistence.py:618-675 | A claim made once a row is due finds another lease running, hands out some row, or has just declared this row dead for want of attempts. |
| `JobQueueRuns.DeathExactly` | apps/api/src/automl_api/persistence.py:613-833 | A job becomes DEAD in a call exactly if the call is a valid claim whose sweep finds its lease run out on its last attempt, or a valid retry by the handle that passes the fence with no attempt left. |
| `JobQueueRuns.DeadExactly` | apps/api/src/automl_api/persistence.py:613-833 | In any run a job is DEAD exactly if some earlier call killed it in one of these two ways. |
| `JobQueueRuns.DeathInsideClaim` | apps/api/src/automl_api/persistence.py:622-635 | A concrete run in which the first of the two ways occurs: a claim that hands nothing out leaves a job DEAD, and nobody is told. |
| `JobQueueRecords.CreateRecords` | apps/api/src/automl_api/persistence.py:528-576 | A new job is ready now, untried and unleased, with the step, checkpoint, limit and epoch given; an unknown run or a second row is refused and nothing changes. |
| `JobQueueRecords.WakeRecords` | apps/api/src/automl_api/persistence.py:586-611 | A wake makes a job that is not finished ready now, untried, unleased and one epoch on, and keeps its step, checkpoint, generation and error; otherwise it is refused. No other row changes. |
| `JobQueueRecords.RenewRecords` | apps/api/src/automl_api/persistence.py:703-729 | A renewal by the passing handle moves the end of the lease and nothing else. |
| `JobQueueRecords.CheckpointRecords` | apps/api/src/automl_api/persistence.py:731-770 | A checkpoint by the passing handle records exactly the given step, checkpoint and status, clears attempts, lease and error, makes the job due now if it is to be ready, and changes no counter and no other row. |
| `JobQueueRecords.CompleteRecords` | apps/api/src/automl_api/persistence.py:772-796 | A completion by the passing handle closes the job, takes it out of line and keeps everything else. |
| `JobQueueRecords.FailRecords` | apps/api/src/automl_api/persistence.py:798-833 | A retry by the passing handle records its error, and puts the job back after the delay exactly if an attempt is left, otherwise it is dead; step, checkpoint and counters stay. |
| `JobQueueRecords.RefusalNamesTheRow` | apps/api/src/automl_api/persistence.py:677-701 | A commit whose handle does not pass changes nothing and is answered with the generation, epoch and status of the row it met, or with its absence. |
| `JobQueueRecords.ArgumentsAreChecked` | apps/api/src/automl_api/persistence.py:528-833 | A call is refused for its arguments exactly if a step or worker is empty, a limit or epoch too small, a lease not positive, a delay negative, or the next status neither READY nor WAITING; then nothing changes. |
| `JobQueueRecords.ClaimSweeps` | apps/api/src/automl_api/persistence.py:618-675 | A claim changes no row but the one it hands out and those it finds with a lease run out on the last attempt, which die keeping their first error. |
| `JobQueueRecords.ClaimGrantsExactly` | apps/api/src/automl_api/persistence.py:636-660 | A claim hands out a row exactly if no lease is running and some row is due, or under a lease that has run out, with attempts left. |
| `JobQueueRecords.GrantRecords` | apps/api/src/automl_api/persistence.py:660-675 | The row handed out gets the caller as owner, the lease asked for, one attempt and one generation more, and keeps the rest; the answer is that row and its handle. |
| `JobQueueRecords.GrantIsFirst` | apps/api/src/automl_api/persistence.py:645-656 | No row that could be handed out was due earlier, or as early and created earlier, or as early and as old with a smaller run. |
| `JobQueueRecords.WorkOrigin` | apps/api/src/automl_api/persistence.py:731-770 | At any moment of any run the step and checkpoint of a job are those of its last accepted checkpoint, or of its creation if there was none. |
| `JobQueueRecords.GrantedWork` | apps/api/src/automl_api/persistence.py:613-675 | So every claim hands out the step and checkpoint that were recorded last. |
| `JobTable.DeathIsToldExactly` | apps/api/src/automl_api/worker.py:124-189 | A settling call that was accepted answers with a DEAD job, which is what the worker reports, exactly in the second way. |
| `JobTable.ExecutionJobs.constructor` | apps/api/src/automl_api/persistence.py:105-140 | A new table has no rows. |
| `JobTable.ExecutionJobs.CreateJob` | apps/api/src/automl_api/persistence.py:528-576 | The insert has the outcome and leaves the rows of the protocol step, refusing an unknown run, a second row and invalid arguments. |
| `JobTable.ExecutionJobs.WakeJob` | apps/api/src/automl_api/persistence.py:586-611 | A wake resets attempts, raises the epoch and drops any lease; unknown and terminal jobs are refused. |
| `JobTable.ExecutionJobs.ClaimJob` | apps/api/src/automl_api/persistence.py:613-675 | A sweep, a look for a running lease and an ordered scan have exactly the effect of the protocol step; a granted job was due and the first in the claim order while no lease ran, and only its row differs from the swept table; an idle answer means that a lease runs or nothing is due. |
| `JobTable.ExecutionJobs.RequireFence` | apps/api/src/automl_api/persistence.py:677-701 | The fence answers exactly whether the handle names the current, unexpired lease, and which error is raised otherwise. |
| `JobTable.ExecutionJobs.RenewJob` | apps/api/src/automl_api/persistence.py:703-729 | A renewal extends the lease of the handle that passes the fence and is refused otherwise. |
| `JobTable.ExecutionJobs.CheckpointJob` | apps/api/src/automl_api/persistence.py:731-770 | A checkpoint records the next step, parks or readies the job and clears its attempts, for the passing handle only. |
| `JobTable.ExecutionJobs.CompleteJob` | apps/api/src/automl_api/persistence.py:772-796 | Completion closes the row for the passing handle only. |
| `JobTable.ExecutionJobs.RetryJob` | apps/api/src/automl_api/persistence.py:798-833 | A failed attempt becomes RETRY after its delay, or DEAD when the attempts are used up, for the passing handle only. |
| `JobTable.ExecutionJobs.Perform` | apps/api/src/automl_api/persistence.py:528-833 | Every public call on the table object equals the corresponding protocol step. |
| `JobTable.ExecutionJobs.SweepExpired` | apps/api/src/automl_api/persistence.py:624-635 | The loop over the rows kills exactly the jobs whose lease ran out on their last attempt and leaves the others as they were. |
| `JobTable.ExecutionJobs.FindRunningLease` | apps/api/src/automl_api/persistence.py:636-643 | The loop over the rows finds one with an unexpired lease exactly if there is one. |
| `JobTable.ExecutionJobs.FindFirstDue` | apps/api/src/automl_api/persistence.py:645-656 | The ordered scan finds the due row that the claim order puts first, exactly if some row is due. |
| `JobTable.RetryDelayDoublesToCap` | apps/api/src/automl_api/worker.py:242-249 | The retry delay starts at the base, doubles with each attempt until the cap, and stays inside [0, cap]. |
| `JobTable.LocalExecutionWorker.RunOnce` | apps/api/src/automl_api/worker.py:124-189 | One pass of the worker: a claim, whatever arrives meanwhile, and the one settling call its outcome asks for; the table ends where the whole run of calls ends, and a death is reported exactly when this pass caused it. |
| `RateLimiter.DropFacts` | apps/api/src/automl_api/hardening.py:113-114 | Dropping stale entries removes exactly the longest front of entries at or before the cutoff. |
| `RateLimiter.AllowKeepsInv` | apps/api/src/automl_api/hardening.py:102-122 | After every call each deque is the tail of what its bucket admitted, and everything it lost has left the window. |
| `RateLimiter.PruneKeepsWindow` | apps/api/src/automl_api/hardening.py:124-134 | Pruning never loses an entry that is still inside the window, in any bucket. |
| `RateLimiter.PruneKeepsInv` | apps/api/src/automl_api/hardening.py:124-134 | Pruning keeps the table and its history consistent. |
| `RateLimiterRuns.RunKeepsInv` | apps/api/src/automl_api/hardening.py:102-134 | After every prefix of every run of calls that starts from an empty limiter and whose times do not go back, the table is what its admissions say, and every admission so far kept to the limit of its bucket. |
| `RateLimiterRuns.EveryBucketIsBounded` | apps/api/src/automl_api/hardening.py:102-122 | In every such run and every window of time, wherever it starts, each bucket admits at most limit requests. |
| `RateLimiterRuns.EveryKeyIsBounded` | apps/api/src/automl_api/hardening.py:102-122 | In every such run and every window, one key is admitted at most 2 * limit times (its own bucket and the overflow bucket). |
| `RateLimiterRuns.AllKeysAreBounded` | apps/api/src/automl_api/hardening.py:102-122 | In every such run and every window, all keys together are admitted at most max_buckets * limit times. |
| `RateLimiter.RetryAfterIsHonest` | apps/api/src/automl_api/hardening.py:102-122 | A refused caller who waits the answered Retry-After is admitted, whatever refused calls anyone makes in between. |
| `RateLimiterRuns.WaitingIsEnough` | apps/api/src/automl_api/hardening.py:102-122 | The same after every run from an empty limiter. |
| `RateLimiterRuns.KeyReachesTwice` | apps/api/src/automl_api/hardening.py:102-122 | A concrete run in which one key is admitted 2 * limit times in one window, through the overflow bucket and then its own: the bound for a key cannot be improved. |
| `RateLimiterRecords.PruneRecords` | apps/api/src/automl_api/hardening.py:124-134 | Pruning keeps exactly the buckets whose last entry is inside the window, as they are, and the overflow bucket without its stale front. |
| `RateLimiterRecords.LookupRecords` | apps/api/src/automl_api/hardening.py:103-112 | A known key pays into its own bucket; a new one gets one if a pruning makes room, and pays into the overflow bucket otherwise. |
| `RateLimiterRecords.ChargeRecords` | apps/api/src/automl_api/hardening.py:113-122 | A call is refused exactly if as many entries as the limit are inside the window of its bucket, and is then not recorded; otherwise its time is, and every 512th admission prunes. |
| `RateLimiterRecords.WaitIsLeast` | apps/api/src/automl_api/hardening.py:113-118 | The answered wait is the least whole number of seconds, one at least, after which the oldest entry has left the window. |
| `RateLimiter.SlidingWindow.constructor` | apps/api/src/automl_api/hardening.py:86-100 | A new limiter holds only the empty overflow bucket. |
| `RateLimiter.SlidingWindow.PopStale` | apps/api/src/automl_api/hardening.py:113-114 | The popping loop equals dropping the stale front of one deque. |
| `RateLimiter.SlidingWindow.FindStale` | apps/api/src/automl_api/hardening.py:124-131 | The loop over the table finds exactly the idle buckets, the overflow bucket never being one. |
| `RateLimiter.SlidingWindow.Prune` | apps/api/src/automl_api/hardening.py:124-134 | The pruning loops equal the pruned table: idle buckets go, the overflow bucket stays and is trimmed. |
| `RateLimiter.SlidingWindow.FindBucket` | apps/api/src/automl_api/hardening.py:103-112 | The lookup finds, opens or overflows to a bucket as the table allows, pruning first when the key is new. |
| `RateLimiter.SlidingWindow.ChargeBucket` | apps/api/src/automl_api/hardening.py:113-122 | The second half of a call refuses with the seconds to wait, or records the request and prunes on every 512th. |
| `RateLimiter.SlidingWindow.Admit` | apps/api/src/automl_api/hardening.py:102-122 | One whole call equals the transition function on buckets and request count, and returns its verdict. |
| `RunStoreRuns.AppendLockedLogs` | apps/api/src/automl_api/store.py:412-442 | An append either changes nothing, or adds one event numbered after the last one, updates the index and snapshot_seq, and answers with it. |
| `RunStoreRuns.EnqueueEach` | apps/api/src/automl_api/store.py:444-486 | Going through the selected endpoints adds one pending delivery to each that is subscribed and has none for this event, and nothing else. |
| `RunStoreRuns.AppendIsSound` | apps/api/src/automl_api/store.py:488-496 | An append keeps logs, index, results and outbox consistent, only lengthens logs, and adds exactly the deliveries its event owes. |
| `RunStoreRuns.MutateIsSound` | apps/api/src/automl_api/store.py:498-530 | The same for a run mutation with its event, successful or refused. |
| `RunStoreRuns.FinalizeIsSound` | apps/api/src/automl_api/store.py:532-588 | The same for finalisation with its batch of events. |
| `RunStoreRuns.CreateRunIsSound` | apps/api/src/automl_api/store.py:358-376 | A new run starts with an empty log and index and owes no deliveries. |
| `RunStoreRuns.ApplyIsSound` | apps/api/src/automl_api/store.py:358-588 | Every mutation, successful or refused, keeps the store consistent, never shortens a log, lowers a revision or a counter or replaces a result, and keeps the outbox exact. |
| `RunStoreTraces.StoreStaysSound` | apps/api/src/automl_api/store.py:382-442 | In every reachable state events are numbered 1..n, snapshot_seq is n, the index is the index of the log, and every delivery announces an event of its run. |
| `RunStoreTraces.StoreOnlyGrows` | apps/api/src/automl_api/store.py:412-442 | Over any run of mutations logs only grow at the end, results stay, and revisions and counters do not go back. |
| `RunStoreTraces.QueuedIsOwed` | apps/api/src/automl_api/store.py:444-486 | An endpoint holds a delivery for an event exactly when some mutation of the run appended that event while the endpoint was selected, same-tenant, not disabled and subscribed. |
| `RunStoreTraces.OutboxIsExact` | apps/api/src/automl_api/store.py:444-496 | In every reachable state deliveries are exactly the owed (event, endpoint) pairs, one each, and their events are in their logs. |
| `RunStoreTraces.OneWriterPerRevision` | apps/api/src/automl_api/store.py:382-406 | Of all revision-raising writers of a run that expect the same revision, at most one commits in any run. |
| `RunStoreTraces.SecondWriterLoses` | apps/api/src/automl_api/store.py:382-406 | After one such writer has committed, every later one with the same expectation fails. |
| `RunStoreResults.RefusedFinalizeKeepsState` | apps/api/src/automl_api/store.py:532-560 | A finalize refused for an unknown run, a stale revision or a differing result leaves run, result, log and outbox as they were. |
| `RunStoreResults.FinalizeIsAllOrNothing` | apps/api/src/automl_api/store.py:532-588 | With store-minted event identifiers, finalize stores result, terminal patch, raised revision and whole batch together, or is refused with nothing changed but a drawn identifier. |
| `RunStoreRefusals.RefusalLeavesExactly` | apps/api/src/automl_api/store.py:498-813 | A refused mutation has changed the store if and only if it got past the guards before its first write: set_result on a known run named by the manifest, finalize with a passing revision check and such a manifest, a run mutation with a passing revision check that raises the revision or changes the run. |
| `RunStoreRefusals.BatchIndexes` | apps/api/src/automl_api/store.py:560-588 | With no identifier ahead of the counter, a batch is accepted exactly if no event of it belongs to another run, has an empty identifier, or repeats an identifier of the log or of an earlier event with other content; the index then holds all of them and no entry was overwritten. |
| `RunStoreRefusals.FinalizeRaisesExactly` | apps/api/src/automl_api/store.py:532-588 | With caller-given identifiers too, finalize succeeds exactly if its opening checks pass, the patch names no other run, and no event of the batch clashes in that sense. |
| `RunStoreRefusals.FinalizeTears` | apps/api/src/automl_api/store.py:560-588 | At the first clashing event it raises and undoes nothing: the store is the one that a successful finalize with the events before it would have left, with result and raised revision in place. |
| `RunStoreRefusals.RaisesLateExactly` | apps/api/src/automl_api/store.py:498-813 | A mutation that gets past the guards before its first write raises exactly if a different result is stored (set_result), its event is refused under the revision it would get (run mutation), or an opening check, the patch or an event fails (finalize). |
| `RunStoreRefusals.MismatchTears` | apps/api/src/automl_api/store.py:532-560 | A patch that names another run makes finalize raise with the result stored and nothing else changed. |
| `RunStoreResults.FinalizeCanTear` | apps/api/src/automl_api/store.py:532-588 | A concrete finalize with a clashing event identifier that raises after result and revision were written. |
| `RunStorePatches.CreateRecords` | apps/api/src/automl_api/store.py:358-376 | A new run has revision 1, no events, and the tenant, endpoints and fields given; an empty or known identifier is refused. |
| `RunStorePatches.UpdateRecords` | apps/api/src/automl_api/store.py:382-406 | An update succeeds exactly for a known run at the expected revision that the patch does not rename; then fields and endpoints are those of the patch where it gives them and the old ones otherwise, the revision is raised if asked, and nothing else changes. |
| `RunStorePatches.MutateRecords` | apps/api/src/automl_api/store.py:498-530 | An accepted run mutation has taken its patch in the same way, its event is in the log under the new revision, and no other run, result or endpoint has changed. |
| `RunStorePatches.FinalizeRecords` | apps/api/src/automl_api/store.py:532-588 | An accepted finalize has taken the terminal patch in the same way, raised the revision by one and stored the proposed result, and no other run or result has changed. |
| `RunStorePatches.AppendRecords` | apps/api/src/automl_api/store.py:412-442 | An append answers with the stored event it repeats and changes nothing, or adds one event that says what was submitted under the next number, the next minted identifier if none was given, and the revision given or that of the run. |
| `RunStorePatches.AppendErrors` | apps/api/src/automl_api/store.py:412-442 | An append is refused exactly for an unknown run, then for another run's or an empty identifier, then for an identifier under which something else is stored, and changes nothing. |
| `RunStorePatches.OutboxRecords` | apps/api/src/automl_api/store.py:444-496 | An append that adds an event queues it for exactly the endpoints that the run selects, that are of its tenant, not disabled, and subscribed to its kind or to all, and queues nothing else. |
| `RunStorePatches.IdRecords` | apps/api/src/automl_api/store.py:187-198 | Identifiers of a kind are numbered from one, upwards, apart from those of other kinds. |
| `RunStorePatches.ResultRecords` | apps/api/src/automl_api/store.py:797-813 | A result is stored exactly for a known run that its manifest names, if there is none or the same; only identifiers are drawn besides. |
| `RunStorePatches.DeliveryRecords` | apps/api/src/automl_api/store.py:983-998 | A delivery update sets status, attempts and next time of a known delivery and nothing else. |
| `RunStorePatches.EndpointRecords` | apps/api/src/automl_api/store.py:924-936 | An endpoint is created once, as it was given. |
| `RunStorePatches.EndpointStatusRecords` | apps/api/src/automl_api/store.py:938-955 | A status update changes the status of a known endpoint and nothing else. |
| `RunStoreTraces.OneEventStoreIsReachable` | apps/api/src/automl_api/store.py:358-496 | The store of that example is reached from the empty one by creating a run and appending an event. |
| `RunStoreResults.RepeatWithoutIdIsRefused` | apps/api/src/automl_api/store.py:797-813 | A stored result is never replaced: a second one without its own identifier is refused for ever. |
| `RunStoreResults.RepeatWithIdIsAccepted` | apps/api/src/automl_api/store.py:797-813 | A result that names its identifier may be stored again and stays what it is. |
| `RunStoreResults.DistinctIdsExactly` | apps/api/src/automl_api/store.py:412-442 | An append keeps the event identifiers of a log distinct if and only if the caller named the event or the next minted identifier is not in the log already. |
| `RunStoreResults.IndexKeys` | apps/api/src/automl_api/store.py:412-442 | The index holds exactly the identifiers of the log. |
| `RunStoreIdentity.IdsStayDistinct` | apps/api/src/automl_api/store.py:187-198 | In every run of mutations whose callers never bring an identifier that the counter has yet to hand out or that another run uses, identifiers tell all events of all runs apart. |
| `RunStoreIdentity.OneNameOneEvent` | apps/api/src/automl_api/store.py:412-442 | An identifier then names one position of one log. |
| `RunStoreIdentity.OutboxPerPosition` | apps/api/src/automl_api/store.py:444-496 | Under the same condition an endpoint holds a delivery for the event at a position exactly if it was selected and subscribed when that very position was appended. |
| `RunStoreTable.InMemoryStore.constructor` | apps/api/src/automl_api/store.py:163-185 | A new store is empty. |
| `RunStoreTable.InMemoryStore.NewId` | apps/api/src/automl_api/store.py:187-198 | Identifiers come from one counter per kind, raised by one. |
| `RunStoreTable.InMemoryStore.CreateRun` | apps/api/src/automl_api/store.py:358-376 | A run is created with revision 1 and an empty log, or refused. |
| `RunStoreTable.InMemoryStore.UpdateRun` | apps/api/src/automl_api/store.py:382-406 | A run is patched under an optional expected revision, which it may raise. |
| `RunStoreTable.InMemoryStore.AppendEventLocked` | apps/api/src/automl_api/store.py:412-442 | One event is appended, or the stored one it repeats is found, or a clash is refused. |
| `RunStoreTable.InMemoryStore.AppendWebhookDeliveriesLocked` | apps/api/src/automl_api/store.py:444-486 | The loop over the selected endpoints equals giving each its turn. |
| `RunStoreTable.InMemoryStore.AppendEvent` | apps/api/src/automl_api/store.py:488-496 | Append and outbox are one mutation. |
| `RunStoreTable.InMemoryStore.MutateRunWithEvent` | apps/api/src/automl_api/store.py:498-530 | Patch, revision, event and outbox are one mutation. |
| `RunStoreTable.InMemoryStore.SetResult` | apps/api/src/automl_api/store.py:797-813 | A result is stored once; an identical repeat is accepted. |
| `RunStoreTable.InMemoryStore.FinalizeRunWithResult` | apps/api/src/automl_api/store.py:532-588 | Result, terminal patch, events and outbox in the order in which the code writes them, raising where it raises. |
| `RunStoreTable.InMemoryStore.AppendEvents` | apps/api/src/automl_api/store.py:560-588 | The events of a batch are appended one after the other up to the first refusal. |
| `Idempotency.IdempotencyTable.BeginRequest` | apps/api/src/automl_api/store.py:1034-1078 | A reservation is made for a new identity; otherwise the stored one decides between in-progress, replay and conflict. |
| `Idempotency.IdempotencyTable.CompleteRequest` | apps/api/src/automl_api/store.py:1080-1112 | The first response is stored and returned to every completion; a different fingerprint is refused. |
| `Idempotency.IdempotencyTable.AbortRequest` | apps/api/src/automl_api/store.py:1142-1162 | Only an unanswered reservation of the same request is dropped. |
| `Idempotency.NextKeepsInv` | apps/api/src/automl_api/app.py:479-560 | Every step of any request keeps each executor the owner of its reservation, each reply equal to what is stored, and at most one running or answered executor per key. |
| `Idempotency.OneExecutorPerKey` | apps/api/src/automl_api/app.py:515-560 | Over all interleavings, failed writes and restarts, two requests executing under one key are the same request. |
| `Idempotency.StoredResponseStays` | apps/api/src/automl_api/store.py:1080-1112 | A stored response never changes and never goes away. |
| `Idempotency.LaterRequestsReplay` | apps/api/src/automl_api/app.py:502-535 | A request that begins after a response is stored is answered from the store without executing: the same response for the same request, a refusal for another. |
| `Idempotency.OthersDoNotRun` | apps/api/src/automl_api/app.py:502-535 | While a request executes, another one under its key is refused if its fingerprint differs and waits if it is the same; it does not execute. |
| `Idempotency.RepliesAgree` | apps/api/src/automl_api/app.py:502-560 | All requests ever answered under one key got the same response for the same fingerprint, and at most one of them executed. |
| `Idempotency.CompletionIsNeverRefused` | apps/api/src/automl_api/store.py:1080-1112 | An executor's completion always stores and returns its own response. |
| `Idempotency.OrphanNeverRunsAgain` | apps/api/src/automl_api/app.py:536-560 | A reservation whose executor died without a response or an abort stays for good, and no later request under that key ever executes. |
| `Idempotency.RestartOrphans` | apps/api/src/automl_api/store.py:1034-1045 | A restart leaves such a reservation behind for exactly the keys that had no response yet. |
| `IdempotencyKeys.BeginRecords` | apps/api/src/automl_api/store.py:1034-1045 | Beginning reserves a free key under the fingerprint given and otherwise changes nothing and says whether the key is held by another request, by this one unanswered, or answered. |
| `IdempotencyKeys.GetRecords` | apps/api/src/automl_api/store.py:1047-1060 | Looking up answers as beginning would, but that a free key is missed and not taken. |
| `IdempotencyKeys.CompleteRecords` | apps/api/src/automl_api/store.py:1080-1112 | Completing stores the first response and answers with it, exactly if the key is free or held under the same fingerprint; other keys stay. |
| `IdempotencyKeys.AbortRecords` | apps/api/src/automl_api/store.py:1142-1160 | Aborting answers true exactly for an unanswered reservation of the same request, whose key is then gone; every other key stays, and otherwise nothing changes. |
| `IdempotencyKeys.BeginAnswers` | apps/api/src/automl_api/app.py:502-535 | A beginning request executes exactly if its key is free; otherwise it is told that the key is another request's, is given the stored response, or waits. |
| `IdempotencyKeys.PollAnswers` | apps/api/src/automl_api/store.py:1114-1140 | A waiting request is given the response once it is stored, told that the key is another's or free, and told after its time that the request is in progress; it changes nothing. |
| `IdempotencyKeys.FinishAnswers` | apps/api/src/automl_api/app.py:536-566 | An executor whose response is stored answers with it; one whose last write and abort fail raises and leaves every reservation as it was. |
| `IdempotencyKeys.DeathRecords` | apps/api/src/automl_api/store.py:1034-1045 | A restart and a vanished process keep every reservation; exactly the requests without an answer are dead. |
| `IdempotencyKeys.ArrivalRecords` | apps/api/src/automl_api/app.py:479-501 | A request arrives once, fresh, and touches neither reservations nor other requests. |
| `IdempotencyKeys.OutOfTurn` | apps/api/src/automl_api/app.py:502-566 | A request begins only when fresh, is told only when waiting, and ends only when executing. |
| `IdempotencyKeys.GivingUpFreesTheKey` | apps/api/src/automl_api/app.py:536-566 | An executor that raises, or whose last write fails, and whose abort goes through leaves its key free and every other key as it was. |
| `IdempotencyKeys.RetryExecutes` | apps/api/src/automl_api/app.py:502-566 | The next request that asks for a key given up that way executes, whatever happened in between. |
| `IdempotencyKeys.FirstExecutes` | apps/api/src/automl_api/app.py:502-535 | The first request that asks for a key executes. |
| `IdempotencyKeys.OrphanedExactly` | apps/api/src/automl_api/app.py:536-566 | A step orphans a reservation exactly if it takes its executor away without an abort: a restart, a vanished process, an exception whose abort failed, or a lost write whose abort failed. |
| `Durability.RoundTrip` | apps/api/src/automl_api/persistence.py:161-242 | restore(serialize(s)) gives back everything but the event index, which is rebuilt; it is s itself if and only if the index was the index of the logs. This holds for every order in which the reservations are written. |
| `Durability.ConsistentRoundTrip` | apps/api/src/automl_api/persistence.py:161-242 | For every consistent store the round trip is the identity. |
| `Durability.CheckpointDetermines` | apps/api/src/automl_api/persistence.py:161-242 | Two memories with the same checkpoint differ at most in their indexes. |
| `Durability.DurableOutcome` | apps/api/src/automl_api/persistence.py:280-290 | A call raises exactly if the inner method does, and fails exactly if it does not and its write fails; one that returns leaves disk equal to memory, a failed write leaves both as they were, one that raises leaves the disk alone. |
| `Durability.RaisesExactly` | apps/api/src/automl_api/persistence.py:280-284 | A call raises exactly if the inner method does, which touches either the store or the reservations. |
| `Durability.DeathKeepsCommits` | apps/api/src/automl_api/persistence.py:280-290 | A process that dies inside a call comes up with the state after it if its write was committed, and otherwise with what was on disk before. |
| `Durability.RaiseLeavesExactly` | apps/api/src/automl_api/persistence.py:280-290 | A mutation that raises has changed the memory if and only if it is a store mutation that got past the guards before its first write. |
| `Durability.AlwaysConsistent` | apps/api/src/automl_api/persistence.py:78-97 | Over all mutations, failed writes, restarts and deaths inside a call, each enumerating its sets in its own order, what is in memory and what is on disk are both consistent. |
| `Durability.RestartRecoversLastCommit` | apps/api/src/automl_api/persistence.py:244-255 | A restart brings back exactly the state, index included, at the end of the last committed mutation. |
| `Durability.TornExactly` | apps/api/src/automl_api/persistence.py:280-290 | From agreement, disk and memory agree after the next step unless it is such a call, and only then; restarts and deaths inside a call included. |
| `Durability.TornByGuards` | apps/api/src/automl_api/persistence.py:280-290 | Which calls these are can be told beforehand: those that pass the guards before their first write and then fail a later one (a different stored result, a clashing event, a failed opening check of finalize, a patch for another run). |
| `Durability.DiskFollowsMemory` | apps/api/src/automl_api/persistence.py:280-290 | As long as no such call occurred, disk and memory say the same at all times. |
| `Durability.DiskLeavesMemory` | apps/api/src/automl_api/persistence.py:280-290 | The first such call is where they part. |
| `Durability.GuardsDecide` | apps/api/src/automl_api/persistence.py:280-290 | In runs whose callers bring fresh identifiers or none, disk and memory say the same at all times up to a moment exactly if no call before it was of that kind. |
| `Durability.TornFinalizeReachesDisk` | apps/api/src/automl_api/persistence.py:280-290 | A run from the empty database in which a finalize raises half way and stays in memory, and the next successful mutation writes its result and revision to disk. |
| `Durability.SqliteStore.constructor` | apps/api/src/automl_api/persistence.py:78-97 | A new database starts with the checkpoint of the empty store. |
| `Durability.SqliteStore.SerializeState` | apps/api/src/automl_api/persistence.py:161-200 | The loop over the reservations and the copied tables make exactly the snapshot. |
| `Durability.SqliteStore.RebuildIndex` | apps/api/src/automl_api/persistence.py:227-230 | Building the index entry by entry gives the last event for each identifier. |
| `Durability.SqliteStore.RebuildIndexes` | apps/api/src/automl_api/persistence.py:227-230 | Every run gets the index of its log. |
| `Durability.SqliteStore.RestoreState` | apps/api/src/automl_api/persistence.py:202-242 | Overwriting the fields from a snapshot gives the restored memory. |
| `Durability.SqliteStore.RunInner` | apps/api/src/automl_api/persistence.py:280-284 | The inner method has the effect and the verdict of the mutation. |
| `Durability.SqliteStore.RunOp` | apps/api/src/automl_api/persistence.py:333-389 | Each store call is dispatched to the object that performs it. |
| `Durability.SqliteStore.DurableMutation` | apps/api/src/automl_api/persistence.py:280-290 | Memory, disk and verdict after the wrapper, whether the inner method raises, the write fails or both succeed. |
| `Durability.SqliteStore.Reopen` | apps/api/src/automl_api/persistence.py:94-97 | Opening the database again restores the checkpoint. |
| `Publication.NextStage` | apps/api/src/automl_api/workflow.py:700-737 | Announcing a phase whose predecessor is announced, and which is not, keeps the announced phases a prefix of the six. |
| `Publication.CompleteIsFine` | apps/api/src/automl_api/workflow.py:700-737 | Completing a ready stage keeps every invariant wherever the writes stop, and announces the stage if they do not. |
| `Publication.CommitIsFine` | apps/api/src/automl_api/workflow.py:739-794 | Committing an output that is not there keeps every invariant wherever the writes stop. |
| `Publication.CommitOnceIsFine` | apps/api/src/automl_api/durable_workflow.py:614-630 | Look-before-write never creates a second output of a kind, and the output is there if the attempt survives. |
| `Publication.TransitionIsFine` | apps/api/src/automl_api/durable_workflow.py:632-678 | A phase transition keeps every invariant wherever the writes stop. |
| `Publication.FinishIsFine` | apps/api/src/automl_api/durable_workflow.py:1241-1325 | The successful finalisation announces PACKAGE together with the result, only once and only when everything before it is there. |
| `PublicationRuns.ExecuteProfileIsFine` | apps/api/src/automl_api/durable_workflow.py:305-385 | The profile step keeps every invariant wherever it stops, and PROFILE is announced if it survives. |
| `PublicationRuns.PublishPlanIsFine` | apps/api/src/automl_api/durable_workflow.py:680-796 | The PLAN callback keeps every invariant wherever it stops, and PLAN is announced if it survives on a run that is not terminal. |
| `PublicationRuns.PublishTrainIsFine` | apps/api/src/automl_api/durable_workflow.py:798-881 | The same for the TRAIN callback, for any list of trials. |
| `PublicationRuns.PublishResultIsFine` | apps/api/src/automl_api/durable_workflow.py:971-1325 | Publishing the result keeps every invariant wherever it stops, with or without an approval gate. |
| `PublicationRuns.FailRunIsFine` | apps/api/src/automl_api/durable_workflow.py:1412-1487 | Failing a run keeps every invariant wherever it stops. |
| `PublicationRuns.NextIsGood` | apps/api/src/automl_api/durable_workflow.py:270-969 | Every step of the worker, of users and of dead-job handling keeps the invariants and takes nothing back. |
| `PublicationRuns.NothingIsTakenBack` | apps/api/src/automl_api/workflow.py:677-794 | Over any run outputs and events only grow and a result, once there, stays. |
| `PublicationRuns.PublishedAtMostOnce` | apps/api/src/automl_api/durable_workflow.py:614-1325 | For every placement of crashes and re-runs, each output kind other than the data quality report (each trial number counting as one) is created at most once, and announced at most once and only if it exists. |
| `PublicationRuns.StagesInOrder` | apps/api/src/automl_api/workflow.py:700-737 | In every reachable state the stage-completed events are INGEST, PROFILE, PLAN, TRAIN, EVALUATE, PACKAGE up to some point, in that order, each once. |
| `PublicationRuns.AnnouncedAfterOutputs` | apps/api/src/automl_api/durable_workflow.py:680-1325 | A stage is announced only when its outputs exist and all earlier stages are announced, PACKAGE only together with the result. |
| `PublicationRuns.TrainAnnouncesItsTrials` | apps/api/src/automl_api/durable_workflow.py:820-881 | The callback that announces TRAIN leaves the output of every trial of its snapshot. |
| `PublicationRuns.PlanOutputsAreDurable` | apps/api/src/automl_api/durable_workflow.py:971-977 | When a result is about to be published its plan outputs are there: the check for them never fails. |
| `PublicationRuns.TerminalIsKeptExactly` | apps/api/src/automl_api/durable_workflow.py:934-954 | A terminal run is reopened by one step only, a positive-class question during training whose first write succeeds; every other step keeps it terminal. |
| `PublicationOutcomes.NextEnds` | apps/api/src/automl_api/durable_workflow.py:143-1487 | A step either leaves outcome and closing events alone or gives the run the outcome it stands for, announced by the last event: success by a published result or an approval, failure by an engine error or a dead job, cancellation by a user. |
| `PublicationOutcomes.OutcomeIsTold` | apps/api/src/automl_api/durable_workflow.py:1241-1487 | In every reachable state the result is SUCCEEDED exactly if run.completed is in the log and PACKAGE is announced, FAILED exactly if run.failed is, and CANCELED exactly if run.canceled is. |
| `PublicationOutcomes.OneEndPerLog` | apps/api/src/automl_api/store.py:532-588 | A log holds at most one of these events. |
| `PublicationOutcomes.OutcomeOrigin` | apps/api/src/automl_api/store.py:532-588 | A stored outcome was given by one step that stands for it, when there was none. |
| `PublicationEffects.EngineErrorEffect` | apps/api/src/automl_api/durable_workflow.py:1412-1487 | With five writes an engine error leaves the run terminal where it stood, failed, with its report and run.failed, under the next revision, and its job closed if the job row accepts it. |
| `PublicationEffects.PauseEffect` | apps/api/src/automl_api/workflow.py:1504-1690 | A pause sets a run that is not over or paused to PAUSED under the next revision, and announces it; it changes nothing on any other run. |
| `PublicationEffects.ResumeEffect` | apps/api/src/automl_api/workflow.py:1507-1690 | A resumption sets a paused run waiting for the user, or running, under the next revision, and announces it; it changes nothing on any other run. |
| `PublicationEffects.CancelEffect` | apps/api/src/automl_api/workflow.py:1510-1640 | A cancellation needs one write: the run is terminal, canceled, announced and under the next revision; it changes nothing on a run that is over or has a result. |
| `PublicationEffects.RefusedEndEffect` | apps/api/src/automl_api/durable_workflow.py:1412-1487 | With a result stored already, an engine error adds a missing report and nothing else, and leaves the job open. |
| `PublicationEffects.OutOfPlace` | apps/api/src/automl_api/durable_workflow.py:270-300 | A step of the worker out of its place, or for another job step, does nothing. |
| `PublicationEffects.WhereItLeaves` | apps/api/src/automl_api/durable_workflow.py:883-969 | A callback leaves its attempt in the next place or broken, every other step of the worker frees it, and users leave it where it is. |
| `PublicationEffects.PickEffect` | apps/api/src/automl_api/durable_workflow.py:270-280 | A job is taken up exactly if its run is queued or running, and closed exactly if its run is over or waits for approval and the job row accepts it. |
| `PublicationEffects.ResolveEffect` | apps/api/src/automl_api/durable_workflow.py:584-612 | A resolved task queues the run in PLAN and goes on with training. |
| `PublicationEffects.BeginEffect` | apps/api/src/automl_api/durable_workflow.py:883-906 | Training starts running in PLAN; a paused run is left alone. |
| `PublicationEffects.LateEffect` | apps/api/src/automl_api/durable_workflow.py:305-318 | An attempt that finds its run over closes the job and writes nothing else. |
| `PublicationEffects.NoWriteNoEffect` | apps/api/src/automl_api/durable_workflow.py:305-1325 | Without a write that succeeds a step on a run that is not over leaves nothing durable, and breaks the attempt if a callback had a write to make. |
| `PublicationEffects.PausedResultEffect` | apps/api/src/automl_api/durable_workflow.py:971-977 | The result of a paused run is not published. |
| `PublicationEffects.DeadFinalizeEffect` | apps/api/src/automl_api/durable_workflow.py:289-300 | The failure of a dead job is written exactly if the run is still at the revision it was read at and has no result. |
| `PublicationEffects.DeadReportEffect` | apps/api/src/automl_api/durable_workflow.py:289-300 | The report of a dead job is created and announced once, on a run that is not over. |
| `PublicationEffects.DecideEffect` | apps/api/src/automl_api/durable_workflow.py:1241-1325 | An approval writes the successful result with both announcements exactly if the run waits for it and has no result. |
| `PublicationEffects.AnswerEffect` | apps/api/src/automl_api/durable_workflow.py:143-250 | An answer queues the run under the next revision exactly if it waits for one. |
| `PublicationEffects.PositiveClassEffect` | apps/api/src/automl_api/durable_workflow.py:934-946 | A positive-class question sets the run waiting for the user in PLAN under the next revision, announces it, and sends the job to the resolved-task step. |
| `PublicationEffects.ProfileEffect` | apps/api/src/automl_api/durable_workflow.py:305-385 | With eighteen writes a profile attempt leaves its report, the missing announcements of INGEST and PROFILE in order, and either the questions or the run queued in PLAN, with the job step that follows. |
| `PublicationEffects.PlanEffect` | apps/api/src/automl_api/durable_workflow.py:680-796 | With fifteen writes the PLAN callback adds what is missing of its two outputs, their announcements, the stage and the move to TRAIN, in that order, and nothing else. |
| `PublicationEffects.TrainEffect` | apps/api/src/automl_api/durable_workflow.py:798-881 | The TRAIN callback likewise, with the baseline and one output for each trial that has none. |
| `PublicationEffects.MissingTrialsAre` | apps/api/src/automl_api/durable_workflow.py:820-858 | Those outputs are the ones of the trials without one, each once. |
| `PublicationEffects.ResultEffect` | apps/api/src/automl_api/durable_workflow.py:971-1325 | With nineteen writes a result adds what is missing of evaluation and packaging and then, in one write, the successful result with its announcements, or the wait for an approval without a result. |
| `PublicationResume.ResumedRunCompletes` | apps/api/src/automl_api/durable_workflow.py:883-1325 | Whatever crashed attempts left behind, one undisturbed training attempt ends with the successful result, all six stages announced, every output there and the job closed. |
| `PublicationResume.ResumedRunAwaitsApproval` | apps/api/src/automl_api/durable_workflow.py:1241-1325 | With an approval gate that attempt ends waiting for approval with everything packaged and no result, and the decision then writes the successful result and announces PACKAGE. |
| `PublicationResume.PlanReaches` | apps/api/src/automl_api/durable_workflow.py:680-796 | The PLAN section survives whenever fifteen writes succeed, whatever is there already. |
| `PublicationResume.TrainReaches` | apps/api/src/automl_api/durable_workflow.py:798-881 | The TRAIN section survives whenever nine writes, and four for every trial, succeed. |
| `PublicationLimits.ReportsPerStep` | apps/api/src/automl_api/durable_workflow.py:305-348 | A step adds one data quality report if it is a profile attempt, on a run that is not terminal, with a write left after the three writes that open the step (five if INGEST is yet to be announced), and none otherwise. |
| `PublicationLimits.ReportsAreCounted` | apps/api/src/automl_api/durable_workflow.py:305-348 | After any run there are as many data quality reports as there were such attempts. |
| `PublicationLimits.ReportRepeatsExactly` | apps/api/src/automl_api/durable_workflow.py:305-385 | There is more than one exactly if two attempts got that far, and then the earlier one had not moved its job on: it died or its answer was refused. |
| `PublicationLimits.ProfileTwice` | apps/api/src/automl_api/durable_workflow.py:332-348 | A concrete run with two data quality reports. |
| `PublicationLimits.AnnouncementLostExactly` | apps/api/src/automl_api/workflow.py:739-794 | The first commit of an output leaves it there and unannounced exactly if it had one write left. |
| `PublicationLimits.UnannouncedForever` | apps/api/src/automl_api/durable_workflow.py:614-630 | An output other than the data quality report that is there and unannounced stays unannounced in every later state, whatever happens. |
| `PublicationLimits.TaskSpecGoesUnannounced` | apps/api/src/automl_api/durable_workflow.py:693-796 | A concrete run in which that happens to the task specification. |
| `PublicationLimits.PhaseFallsExactly` | apps/api/src/automl_api/durable_workflow.py:305-954 | The phase falls in a step exactly if the step sets one outright and a later one had been reached; those steps are a profile attempt, a resolved task, the start of training and a positive-class question, each once its first write succeeds, and they set PROFILE or PLAN. |
| `PublicationLimits.PhaseGoesBack` | apps/api/src/automl_api/durable_workflow.py:891-906 | A concrete run whose phase is TRAIN and, when training is started again, PLAN. |
| `PublicationService.DurableWorkflowService.EmitEvent` | apps/api/src/automl_api/workflow.py:677-698 | An event is appended and the run touched, each of which may be the last write. |
| `PublicationService.DurableWorkflowService.CommitOutput` | apps/api/src/automl_api/workflow.py:739-794 | Creating, announcing and referencing an output, ended by the first write that fails. |
| `PublicationService.DurableWorkflowService.EnsureOutput` | apps/api/src/automl_api/durable_workflow.py:614-630 | Nothing is written when an output of that kind is there. |
| `PublicationService.DurableWorkflowService.CompleteStage` | apps/api/src/automl_api/workflow.py:700-737 | Nothing is written when the stage is announced already. |
| `PublicationService.DurableWorkflowService.TransitionRunningPhase` | apps/api/src/automl_api/durable_workflow.py:632-678 | The phase moves only forward here, and its event is written once. |
| `PublicationService.DurableWorkflowService.RequestUserDecision` | apps/api/src/automl_api/durable_workflow.py:523-582 | Status, packet and the two events of a decision request. |
| `PublicationService.DurableWorkflowService.FinalizeRunWithResult` | apps/api/src/automl_api/store.py:532-588 | Refused for a stale revision or a stored result, otherwise one write. |
| `PublicationService.DurableWorkflowService.RunProfile` | apps/api/src/automl_api/durable_workflow.py:305-385 | The locked part of the profile step. |
| `PublicationService.DurableWorkflowService.PublishPlanStage` | apps/api/src/automl_api/durable_workflow.py:693-796 | The PLAN callback. |
| `PublicationService.DurableWorkflowService.PublishTrials` | apps/api/src/automl_api/durable_workflow.py:820-858 | The loop over trials equals looking before writing for each in turn. |
| `PublicationService.DurableWorkflowService.PublishTrainStage` | apps/api/src/automl_api/durable_workflow.py:798-881 | The TRAIN callback. |
| `PublicationService.DurableWorkflowService.PublishRunResult` | apps/api/src/automl_api/durable_workflow.py:971-1325 | Evaluation, packaging, and finalisation or approval request. |
| `PublicationService.DurableWorkflowService.FailThisRun` | apps/api/src/automl_api/durable_workflow.py:1412-1487 | Failure report and failed result. |
| `EventPaging.CandidatesAreTheWindow` | apps/api/src/automl_api/app.py:1386-1394 | The candidates of a request are the filtered log between its position and the frozen watermark, whatever was appended above it. |
| `EventPaging.WindowResumes` | apps/api/src/automl_api/app.py:1395-1412 | A page and the window after the sequence number of its last event make up the whole window. |
| `EventPaging.OnePage` | apps/api/src/automl_api/app.py:1356-1418 | An answered request never expires, holds at most limit items, and either completes its window or continues at a strictly larger position not past the watermark. |
| `EventPaging.NextPage` | apps/api/src/automl_api/app.py:1366-1418 | The same in terms of the log the first request saw, whatever was appended since. |
| `EventSessions.PageIs` | apps/api/src/automl_api/app.py:1395-1412 | A page holds as much of its window as the limit allows, and has a next one, starting after its last item, exactly if something is left. |
| `EventSessions.RequestErrors` | apps/api/src/automl_api/app.py:1350-1385 | A request is refused exactly for a limit outside 1 to 100 or a cursor without one; no cursor expires. |
| `EventSessions.FirstIsACursor` | apps/api/src/automl_api/app.py:1356-1394 | A first request reads from the start and fifty events unless told otherwise, up to the snapshot of that moment. |
| `EventSessions.ReadExactly` | apps/api/src/automl_api/store.py:590-610 | The store reads exactly the events after a number whose type was asked for. |
| `EventSessions.ChosenExactly` | apps/api/src/automl_api/app.py:1276-1282 | A filter passes exactly the events whose type is one of those asked for, or all. |
| `EventPaging.CollectEventBatch` | packages/python_sdk/src/automl_sdk/client.py:1444-1494 | The client loop returns exactly the filtered log in (after_seq, watermark], less what was seen before, ends, and never raises the repeated-cursor error. |
| `EventPaging.NothingLostNothingTwice` | packages/python_sdk/src/automl_sdk/client.py:1444-1494 | With distinct identifiers and nothing seen before, that is the filtered log itself. |
| `EventPaging.DistinctUnseen` | packages/python_sdk/src/automl_sdk/client.py:1476-1482 | De-duplication drops only what had been seen before when identifiers are distinct. |
| `EventReads.StoreReadsGrow` | apps/api/src/automl_api/store.py:412-442 | Reads of a run of the store, made after any increasing numbers of mutations, are logs numbered from one that only grow; with fresh identifiers they tell their events apart. |
| `EventReads.StorePagesAreComplete` | packages/python_sdk/src/automl_sdk/client.py:1444-1494 | So a fresh client of the pages of such a run gets the filtered log itself. |
| `EventReads.StoreStreamIsGapFree` | packages/python_sdk/src/automl_sdk/client.py:549-656 | And an unfiltered stream of such a run yields a stretch of its log without gaps or repeats. |
| `EventStream.FieldReadsBack` | packages/python_sdk/src/automl_sdk/client.py:625-635 | A line written as name, colon, space, value is read back as that name and that value. |
| `StreamText.WrittenReadsBack` | apps/api/src/automl_api/app.py:1270-1292 | Lines without a break inside are read back from the text as they were written. |
| `StreamText.PartReadsBack` | apps/api/src/automl_api/app.py:1270-1292 | So are the first ones from any beginning of the text. |
| `EventStream.FrameIsEvent` | packages/python_sdk/src/automl_sdk/client.py:600-635 | The four lines of a frame are read as the event they were made of, and pass the agreement checks. |
| `EventStream.FrameIsReadExactly` | packages/python_sdk/src/automl_sdk/client.py:604-635 | From the text of a frame the client reads the event exactly if its JSON text holds no line break, and raises a protocol error otherwise, provided that no part of the JSON text reads as JSON by itself and no piece after the first break looks like a field. |
| `EventStream.ChunksAreEvents` | packages/python_sdk/src/automl_sdk/client.py:604-635 | Any series of frames and heartbeats is read as exactly the events in it. |
| `EventStream.PartialYieldsNothing` | packages/python_sdk/src/automl_sdk/client.py:604-635 | Lines of an unfinished frame announce nothing. |
| `EventStream.CutBetweenChunks` | apps/api/src/automl_api/app.py:1270-1292 | A stream cut after any line is whole chunks and a rest without a blank line. |
| `EventStream.TextIsEvents` | packages/python_sdk/src/automl_sdk/client.py:604-635 | Any beginning of the text of frames and heartbeats is read as the events of the first of them, the whole of it as all. |
| `EventStream.ServerWritesTheLog` | apps/api/src/automl_api/app.py:1259-1295 | Whatever is appended meanwhile, the server writes the filtered log from its starting position on, without gaps or repeats. |
| `EventStream.EndedAtTheEnd` | apps/api/src/automl_api/app.py:1286-1289 | Its loop ends only where a snapshot it read was terminal and everything that snapshot counts had been written. |
| `EventSessions.RoundIs` | apps/api/src/automl_api/app.py:1265-1295 | One round of the server writes the new events and nothing else, or ends exactly if the run is terminal and the position not short of its count, or writes a heartbeat at most. |
| `EventSessions.ServerEnds` | apps/api/src/automl_api/app.py:1265-1295 | Once a run is over and its log grows no more, two rounds end the loop with all of the log written. |
| `EventStreamClient.TakingKeepsReached` | packages/python_sdk/src/automl_sdk/client.py:612-624 | Taking the next events of the log keeps the client at a position up to which it was given exactly the filtered log. |
| `EventStreamClient.OneConnection` | packages/python_sdk/src/automl_sdk/client.py:585-635 | Whatever part of a connection arrives, the client afterwards has the filtered log up to its new position. |
| `EventStreamClient.AlwaysReached` | packages/python_sdk/src/automl_sdk/client.py:549-656 | Over every series of connections, cuts and appends, for events without line breaks: exactly the filtered log between first and current position, less what was seen, and no protocol error. |
| `EventStreamClient.StreamIsGapFree` | packages/python_sdk/src/automl_sdk/client.py:549-656 | An unfiltered stream of such events yields a contiguous, duplicate-free, in-order stretch of the log that starts just after the initial position. |
| `EventStreamClient.CleanEndDelivers` | packages/python_sdk/src/automl_sdk/client.py:604-656 | After a connection that ended without a transport error the client, unless it stopped by itself, lacks nothing that the terminal snapshot read by the server counts. |
| `EventStreamClient.StopsShortExactly` | packages/python_sdk/src/automl_sdk/client.py:645-656 | A session that was opened before the terminal event ends on the snapshot read after a connection exactly if the transport failed before that event came through, the run is terminal by then and a reconnect was still allowed; its position is then short of that event. |
| `EventStreamClient.CanStopShort` | packages/python_sdk/src/automl_sdk/client.py:645-652 | A concrete session of a finished run whose only connection fails at once: it ends without an error and without either of the two events of the log. |
| `EventSessions.ConnectionEnds` | packages/python_sdk/src/automl_sdk/client.py:636-656 | What a session is after a connection: ended by the terminal event, a protocol error, a spent budget or a terminal snapshot, each under its exact condition, or one reconnect further. |
| `EventSessions.RefusalEnds` | packages/python_sdk/src/automl_sdk/client.py:585-596 | A refused connection ends the session with the error of the service and keeps what was handed over. |
| `EventSessions.EndedStays` | packages/python_sdk/src/automl_sdk/client.py:549-656 | A session that has ended stays as it is. |
| `EventSessions.SessionStarts` | packages/python_sdk/src/automl_sdk/client.py:555-565 | A session starts where the caller says, or after the last event of the snapshot, and opens no stream for a run that is over then. |
| `EventSessions.DecodesExactly` | packages/python_sdk/src/automl_sdk/client.py:1830-1844 | A frame is taken exactly if its data reads as an event whose number and type are those the frame gives. |
| `EventSessions.BlankLineEnds` | packages/python_sdk/src/automl_sdk/client.py:607-612 | A blank line ends a frame: nothing without data, a protocol error if the data is not taken, the event otherwise. |
| `EventSessions.OtherLinesAreIgnored` | packages/python_sdk/src/automl_sdk/client.py:626-636 | Comments and fields of other names change nothing. |
| `EventSessions.DataIsJoined` | packages/python_sdk/src/automl_sdk/client.py:1834 | Several data lines are one text with line feeds between them. |
| `EventSessions.TakingAnEvent` | packages/python_sdk/src/automl_sdk/client.py:612-624 | An event moves the position up to its number, is handed over unless its identifier was seen, and ends the stream exactly if it is terminal. |
| `EventStreamClient.StreamRunEvents` | packages/python_sdk/src/automl_sdk/client.py:549-656 | The reconnecting loop yields, ends and fails as the session function says. |
| `EventStreamClient.ReadLines` | packages/python_sdk/src/automl_sdk/client.py:604-635 | The loop over the lines of a response is the parser run over them. |
| `ArtifactRange.IntReadsBack` | apps/api/src/automl_api/app.py:269-283 | A decimal number in a Range header is read as that number. |
| `ArtifactRange.IntAcceptsMore` | apps/api/src/automl_api/app.py:269-283 | So is one with space around it and a sign before it. |
| `ArtifactRange.DigitsExactly` | apps/api/src/automl_api/app.py:269-283 | Digits with single underscores between them, and nothing else, are read as a number. |
| `ArtifactRange.UnderscoreIsSkipped` | apps/api/src/automl_api/app.py:269-283 | An underscore before a last digit makes no difference to the number. |
| `ArtifactRange.RangeIsTheIntersection` | apps/api/src/automl_api/app.py:261-291 | For every range of section 14.1.2 of RFC 9110 the positions served are exactly the requested ones the artifact has, and the request is refused exactly when there are none. |
| `ArtifactRange.ServedRangeIsInside` | apps/api/src/automl_api/app.py:284-291 | Whatever the header says, an accepted range is non-empty and inside the artifact. |
| `ArtifactRange.RestIsServed` | apps/api/src/automl_api/app.py:1802-1831 | Asking from an offset gets status 206, the exact Content-Length and Content-Range, and the rest of the artifact. |
| `ArtifactDownload.ContentRangeReadsBack` | packages/python_sdk/src/automl_sdk/client.py:1403-1411 | The Content-Range header the server writes is read back as its three numbers. |
| `ArtifactDownload.HonestAnswerPasses` | packages/python_sdk/src/automl_sdk/client.py:1375-1412 | The answer of the artifact server to a fresh or resumed request passes every check of the client. |
| `ArtifactDownload.SuccessIsVerified` | packages/python_sdk/src/automl_sdk/client.py:1089-1159 | Against any server: success puts a file of the promised size and hash in place and removes the partial file; failure leaves the destination alone, and keeps a partial file only after a transport failure with resume. |
| `ArtifactDownload.SuccessIsTheArtifact` | packages/python_sdk/src/automl_sdk/client.py:1144-1152 | With a hash that tells the artifact from everything else, success means the artifact, whoever answered. |
| `ArtifactDownload.AttemptKeepsPrefix` | packages/python_sdk/src/automl_sdk/client.py:1323-1371 | One attempt against the artifact server leaves a prefix of the artifact and finishes only with all of it. |
| `ArtifactDownload.PartialStaysAPrefix` | packages/python_sdk/src/automl_sdk/client.py:1089-1159 | A partial file that starts absent or as a prefix stays so across every failure; success makes the destination the artifact; no protocol error occurs; a resumable transport failure loses no bytes. |
| `ArtifactDownload.DownloadSucceeds` | packages/python_sdk/src/automl_sdk/client.py:1323-1371 | If one allowed attempt is answered in full, whatever was cut before it, the download succeeds. |
| `ArtifactChecks.ResponseIsJudged` | packages/python_sdk/src/automl_sdk/client.py:1375-1412 | Against any server a response is accepted exactly if status, ETag, Content-Length, Content-Encoding and, for a range, Content-Range promise the rest of the artifact; another status is a transport failure if its body is cut, an API error from 400 on, and everything else a protocol error. |
| `ArtifactChecks.FullFileAsksNothing` | packages/python_sdk/src/automl_sdk/client.py:1323-1335 | A partial file that has the size already is taken as it is and nothing is asked for. |
| `ArtifactChecks.FittingChunksAreWritten` | packages/python_sdk/src/automl_sdk/client.py:1351-1360 | Chunks that all fit into the size are all written. |
| `ArtifactChecks.UnfitChunkEndsWriting` | packages/python_sdk/src/automl_sdk/client.py:1351-1360 | The first chunk that would pass the size ends the writing; what came before it stays. |
| `ArtifactChecks.AcceptedAttempt` | packages/python_sdk/src/automl_sdk/client.py:1323-1371 | An attempt asks for the rest of the partial file exactly if that is resumed; answered rightly it writes what comes, and finishes exactly if all of it came and makes up the size. |
| `ArtifactChecks.RejectedAttempt` | packages/python_sdk/src/automl_sdk/client.py:1323-1371 | Answered wrongly it ends the download with the error of the response and nothing written. |
| `ArtifactChecks.LostAttempt` | packages/python_sdk/src/automl_sdk/client.py:1366-1371 | Without a response, or with an unexpected one that is cut, it keeps what it went on with exactly if that can be resumed, and is repeated unless it was the last. |
| `ArtifactChecks.AttemptsGoOn` | packages/python_sdk/src/automl_sdk/client.py:1312-1373 | Each attempt goes on from what the one before left; there are no more than allowed, and only transport failures are repeated. |
| `ArtifactChecks.VerifiedFileIsTaken` | packages/python_sdk/src/automl_sdk/client.py:1089-1110 | A partial file that is there in full and verifies takes its place without a request. |
| `ArtifactChecks.DownloadEnds` | packages/python_sdk/src/automl_sdk/client.py:1110-1159 | Otherwise the attempts decide: a whole file is put in place if it verifies and thrown away if it does not, and after a failure the partial file is kept only for a transport failure when resuming. |
| `ArtifactFiles.ArtifactFile.WriteBody` | packages/python_sdk/src/automl_sdk/client.py:1351-1360 | The chunk loop writes what fits, refusing the chunk that would pass the size. |
| `ArtifactFiles.ArtifactFile.Interrupt` | packages/python_sdk/src/automl_sdk/client.py:1366-1371 | A transport failure keeps the partial file only if it can be resumed. |
| `ArtifactFiles.ArtifactFile.TryOnce` | packages/python_sdk/src/automl_sdk/client.py:1323-1371 | One attempt on the files equals the attempt function. |
| `ArtifactFiles.ArtifactFile.DownloadToPartial` | packages/python_sdk/src/automl_sdk/client.py:1312-1373 | The retry loop equals the series of attempts. |
| `ArtifactFiles.ArtifactFile.DownloadArtifactFile` | packages/python_sdk/src/automl_sdk/client.py:1089-1159 | Both files and the error after a whole download. |
| `ArtifactFiles.ArtifactFile.ReplaceTarget` | packages/python_sdk/src/automl_sdk/client.py:1151-1152 | The finished partial file takes the place of the destination. |
| `WebhookDispatch.ScanFinds` | apps/api/src/automl_api/webhooks.py:310-323 | The loop with its blocked runs picks the head of a run, and picks nothing only if no head is due. |
| `WebhookDispatch.PickInIsExact` | apps/api/src/automl_api/webhooks.py:306-323 | What is picked in a box is waiting, due and preceded in its run only by finished deliveries; nothing is picked only if no delivery is like that. |
| `WebhookDispatch.PickIsExact` | apps/api/src/automl_api/webhooks.py:297-324 | The same over all active endpoints. |
| `WebhookRecords.PickIsRipe` | apps/api/src/automl_api/webhooks.py:297-323 | In plain terms: picked is a delivery of an active endpoint that is PENDING or RETRYING, whose time has come, and before which no delivery of its run is unfinished in the order of creation; nothing is picked only if there is none. |
| `WebhookRuns.NextMoves` | apps/api/src/automl_api/webhooks.py:326-488 | How one step may change one delivery: started, succeeded, retried within the limit, exhausted, interrupted or redelivered, and never anything else. |
| `WebhookRuns.AttemptsAreBounded` | apps/api/src/automl_api/webhooks.py:427-488 | Attempts on a delivery never exceed max(1, max_attempts) plus its accepted redeliveries plus its interrupted attempts, and stay below that while it waits. |
| `WebhookRuns.SucceededStays` | apps/api/src/automl_api/webhooks.py:393-406 | A delivery that succeeded is never attempted or changed again. |
| `WebhookRuns.UnderwayExactly` | apps/api/src/automl_api/webhooks.py:269-324 | The deliveries marked DELIVERING are exactly the one of the attempt in progress and those whose attempt ended without its outcome being written and that no recovery has put back since. |
| `WebhookRuns.LeftoversAreLosses` | apps/api/src/automl_api/webhooks.py:269-278 | While the dispatcher is not stopped, the latter are one for each final write lost since it was started. |
| `WebhookRuns.OneAtATime` | apps/api/src/automl_api/webhooks.py:269-324 | So while it is not stopped, after any crashes and recoveries, exactly one delivery is DELIVERING for the attempt in progress and one for each such loss. |
| `WebhookRecords.SucceedRecords` | apps/api/src/automl_api/webhooks.py:393-406 | A success leaves the delivery SUCCEEDED with nothing due, the dispatcher idle, and every other field, delivery and endpoint as it was. |
| `WebhookRecords.FailRecords` | apps/api/src/automl_api/webhooks.py:427-488 | A failure exhausts the delivery exactly if the attempts are used up or the first is too long ago, with a term for redelivery and its endpoint paused if that write succeeds; otherwise it is due again after the delay. Nothing else changes. |
| `WebhookRecords.CancelRecords` | apps/api/src/automl_api/webhooks.py:407-414 | An attempt that is called off leaves its delivery due again at once and the dispatcher stopped. |
| `WebhookRecords.NothingRecords` | apps/api/src/automl_api/webhooks.py:326-414 | Without an attempt its ends change nothing; a lost write and a crash change no delivery. |
| `WebhookRecords.StartRecords` | apps/api/src/automl_api/webhooks.py:326-342 | A start takes the picked delivery under way with one attempt more and the time of the first remembered, and nothing else. |
| `WebhookRecords.BootRecords` | apps/api/src/automl_api/webhooks.py:269-278 | Starting the dispatcher puts exactly the deliveries found under way back in line, due at once. |
| `WebhookRecords.RecoverOneRecords` | apps/api/src/automl_api/webhooks.py:269-278 | So does recovering a single one before that. |
| `WebhookRecords.EnqueueRecords` | apps/api/src/automl_api/store.py:444-486 | A new delivery comes last in its box, untried and due at the time of its event. |
| `WebhookRecords.StatusRecords` | apps/api/src/automl_api/app.py:2383-2440 | An endpoint changes its status and nothing else. |
| `WebhookRecords.RedeliverRecords` | apps/api/src/automl_api/app.py:2528-2570 | A redelivery makes a waiting delivery, or an exhausted one within its term, due at once, on an active endpoint only; otherwise nothing changes. |
| `WebhookRecords.FinishesExactly` | apps/api/src/automl_api/webhooks.py:393-488 | A delivery becomes SUCCEEDED in a step exactly if the step is a success of the attempt on it, and EXHAUSTED exactly if it is a failure of that attempt with nothing left to try. |
| `WebhookRecords.SucceededExactly` | apps/api/src/automl_api/webhooks.py:393-406 | In any run a delivery is SUCCEEDED exactly if some earlier attempt on it ended with a success. |
| `WebhookRuns.TwoUnderway` | apps/api/src/automl_api/webhooks.py:269-324 | A concrete run in which a lost final write leaves two. |
| `WebhookRuns.BoxesAreInOrder` | apps/api/src/automl_api/store.py:444-486 | With event times that do not go back, a box lists the deliveries of a run in the order of their events. |
| `WebhookRuns.AttemptsStartInOrder` | apps/api/src/automl_api/webhooks.py:297-324 | Whenever an attempt starts, every delivery of that run at that endpoint for an earlier event has succeeded or is exhausted. |
| `WebhookRuns.OvertakenExactly` | apps/api/src/automl_api/webhooks.py:297-324 | At any start, in a run enqueued in log order, an unfinished delivery of the same run for an earlier event is overtaken exactly if it was given a later time than the one attempted. |
| `WebhookRuns.OrderNeedsTheClock` | apps/api/src/automl_api/webhooks.py:306-309 | A concrete run in which an event time went back and the later event is attempted first. |
| `WebhookWorker.WebhookDeliveryWorker.SelectDelivery` | apps/api/src/automl_api/webhooks.py:306-323 | The loop over the sorted deliveries equals the scan. |
| `WebhookWorker.WebhookDeliveryWorker.DispatchOne` | apps/api/src/automl_api/webhooks.py:297-342 | The loop over endpoints marks exactly the picked delivery as under way. |
| `WebhookWorker.WebhookDeliveryWorker.FinishDelivered` | apps/api/src/automl_api/webhooks.py:393-406 | A success is recorded. |
| `WebhookWorker.WebhookDeliveryWorker.RetryOrExhaustDelivery` | apps/api/src/automl_api/webhooks.py:427-488 | A failure is put back with its delay, or exhausted with the endpoint paused. |
| `WebhookWorker.WebhookDeliveryWorker.RecoverInterruptedDeliveries` | apps/api/src/automl_api/webhooks.py:269-278 | The nested loops put every delivery found under way back in line and touch no other. |
| `WebhookWorker.WebhookDeliveryWorker.RedeliverDelivery` | apps/api/src/automl_api/app.py:2528-2570 | A redelivery is accepted exactly on an active endpoint for a waiting delivery, or an exhausted one within its deadline. |
| `AgentGate.EqualIsSameCanon` | apps/api/src/automl_api/workflow.py:985-986 | Equality of JSON values, which lets numbers of different types and booleans be equal at any depth, is sameness of canonical forms. |
| `AgentGate.MatchesIsSameKey` | apps/api/src/automl_api/workflow.py:985-986 | The test "same type and equal" is sameness of type and canonical form. |
| `AgentGate.SameValueMultiset` | apps/api/src/automl_api/workflow.py:979-991 | The striking-off loop decides multiset equality of the two lists. |
| `AgentGate.DecisionResolutionPolicy` | apps/api/src/automl_api/durable_workflow.py:491-521 | A packet is open to agents exactly if external models are allowed, the risk tier is standard, and everything recommended is first matched by a low-risk option. |
| `AgentGate.ValidatePacketAnswers` | apps/api/src/automl_api/workflow.py:993-1061 | Accepted exactly if there is one answer for every question, of the right shape and number, from the offered options. |
| `AgentGate.CheckAnswer` | apps/api/src/automl_api/workflow.py:1015-1060 | The per-question check decides shape, count and membership. |
| `AgentGate.EnforceAgentRecommendations` | apps/api/src/automl_api/workflow.py:945-976 | The gate raises exactly if an agent or service departs from a recommendation of a packet open to agents. |
| `AgentGate.AnswerPacket` | apps/api/src/automl_api/durable_workflow.py:143-180 | The three checks in their order give the verdict of the gate. |
| `AgentGate.AgentAnswersAreLowRisk` | apps/api/src/automl_api/workflow.py:945-991 | Whatever an agent or service gets accepted repeats every recommendation, as a multiset for multiple choice, and consists only of values of low-risk options. |
| `AgentGate.HumanPacketsStayHuman` | apps/api/src/automl_api/workflow.py:924-942 | Agents and services never answer a packet kept for people or for approval. |
| `AgentGate.RecommendationIsAcceptedExactly` | apps/api/src/automl_api/workflow.py:945-1061 | Submitting the recommendations is accepted if and only if question identifiers are distinct and every recommendation has the shape its question asks for. |
| `AgentGate.NestedNumbersAreLoose` | apps/api/src/automl_api/workflow.py:985-986 | The comparison tells true from 1 at the top level but not inside a list. |
| `AgentGateAnswers.VerdictIs` | apps/api/src/automl_api/durable_workflow.py:143-180 | The verdict on any answer in plain terms: refused for the actor and policy, for not answering each question once, for a wrong shape, number or option, or for an agent's departure from a recommendation, in this order; accepted otherwise as it was given. |
| `AgentGateAnswers.RecommendableIs` | apps/api/src/automl_api/durable_workflow.py:491-521 | A question is left to agents exactly if it has options and a recommendation, of a list if a list is asked for, and the first option with each recommended value is of low risk. |
| `AgentGateAnswers.AgentsChooseLowRisk` | apps/api/src/automl_api/workflow.py:945-991 | Every value that an agent or a service gets accepted is on offer at low risk. |
| `AgentGateAnswers.BooleansCount` | apps/api/src/automl_api/workflow.py:985-986 | Among numbers true counts as one and false as zero, and integers equal floats of the same amount; the type still tells them apart. |
| `AgentContract.SegmentsRejoin` | scripts/generate_agent_openapi.py:83-94 | Preamble and segments put together are the lines again; no segment holds a second header. |
| `AgentContract.SegmentsAreUnique` | scripts/generate_agent_openapi.py:83-94 | And that is the only way to cut them. |
| `AgentContractLines.PathHeaderIs` | scripts/generate_agent_openapi.py:51 | A line is the header of a path exactly if it is two spaces, the path, which starts with no space, a colon, and space to its end. |
| `AgentContractLines.ChildHeaderIs` | scripts/generate_agent_openapi.py:52 | A line is the header of a child exactly if it is four spaces, a key of letters, digits, underscores and dashes that starts with a letter, a colon, and space. |
| `AgentContractLines.OperationIdIs` | scripts/generate_agent_openapi.py:53-56 | A line declares an operation exactly if it is the field at six spaces, an identifier, and space around it. |
| `AgentContractLines.UnquoteIs` | scripts/generate_agent_openapi.py:97-100 | A path in quotes of one kind loses them; every other path stays. |
| `AgentContractLines.OperationIs` | scripts/generate_agent_openapi.py:109-115 | A child is an operation exactly if its key is one of the eight methods, and must then declare exactly one identifier. |
| `AgentContractLines.SectionErrors` | scripts/generate_agent_openapi.py:65-80 | A contract without a line that ends with the paths marker is refused for that, and otherwise one without a components line for that; reading and rendering refuse alike. |
| `AgentContract.FindHeaders` | scripts/generate_agent_openapi.py:86 | The positions of all header lines, in order. |
| `AgentContract.SegmentLines` | scripts/generate_agent_openapi.py:83-94 | The program's slices between header positions are that cut. |
| `AgentContract.FindEnding` | scripts/generate_agent_openapi.py:66-71 | The first line that ends with a marker, or none does. |
| `AgentContract.FindLine` | scripts/generate_agent_openapi.py:72-75 | The first line that is a marker, or none is. |
| `AgentContractMeaning.ChildrenAreFiltered` | scripts/generate_agent_openapi.py:145-166 | Rendering the children of a path keeps what is no operation and the allowed operations, which read back as the allowed ones, each new. |
| `AgentContractMeaning.PathsAreFiltered` | scripts/generate_agent_openapi.py:145-171 | The same over all paths, dropping those without an allowed operation. |
| `AgentContractMeaning.FilteredBodyReads` | scripts/generate_agent_openapi.py:118-171 | The rendered paths, as lines, read as exactly the allowed operations, in order. |
| `AgentContractRender.SectionsAreFound` | scripts/generate_agent_openapi.py:66-80 | In the document written around a filtered body, the sections are found again, line ends included. |
| `AgentContractRender.RenderKeepsMeaning` | scripts/generate_agent_openapi.py:133-185 | Without a webhooks section, parsing the rendered contract yields exactly the allowlisted operations of the original, in order, and every allowlisted identifier once. |
| `AgentContractWebhooks.WebhooksAreCarriedOver` | scripts/generate_agent_openapi.py:133-185 | With a webhooks section that opens with an entry, the rendered contract parses as the allowlisted path operations followed by all operations of that section, unfiltered. |
| `AgentContractSuccess.RenderSucceedsExactly` | scripts/generate_agent_openapi.py:133-185 | A contract can be rendered exactly if its sections are found, its paths can be read, every identifier of the allowlist is declared by one operation of theirs and no more, and its title is the known one. |
| `AgentContractLines.RenderErrors` | scripts/generate_agent_openapi.py:168-185 | With sections and operations sound the error is the missing operation first, and then the title. |
| `AgentContractLines.RetitleIs` | scripts/generate_agent_openapi.py:172-180 | The first line that ends with the title ends with the new one, and no other line of the prefix changes. |
| `AgentContractGenerator.ReadChildren` | scripts/generate_agent_openapi.py:124-129 | The loop over the children of a path reads their operations up to the first error. |
| `AgentContractGenerator.ReadOperations` | scripts/generate_agent_openapi.py:118-130 | The nested loops read the operations of a whole contract. |
| `AgentContractGenerator.WriteChildren` | scripts/generate_agent_openapi.py:145-166 | The loop over children keeps, drops or refuses each in turn. |
| `AgentContractGenerator.WritePaths` | scripts/generate_agent_openapi.py:143-171 | The loop over paths collects lines and identifiers. |
| `AgentContractGenerator.RenderAgentContract` | scripts/generate_agent_openapi.py:133-185 | The generator returns the rendered contract or its first error. |
| `AgentContractGenerator.GenerateAgentContract` | scripts/generate_agent_openapi.py:14-45 | Written for the active allowlist and read again, the contract holds the allowlisted operations of the original in order, each identifier of the allowlist once, and after them the webhooks of the original unchanged, provided that their section opens with an entry and that every line but the last ends with its only newline. |

## Left out

- SQLite, asyncio, threads, locks, HTTP and the file system as such: store methods, lock sections and file operations are atomic steps, and a failed or missing one is a step of its own.
- Two attempts on one run at the same time. Only one handle passes the fence (`JobQueueRuns.OneHandlePasses`), but the profile step, the resolved-task step, the first write of training, and the positive-class and engine-error paths write without asking it; Publication runs one attempt at a time and does not capture a late attempt writing there.
- Finalisation through an approval is one step together with its check of the status; the writes to the approval record before it are not modelled.
- `available_actions` is not modelled: Publication lets users pause, resume and cancel in more states than the program does.
- Writes that Publication's statements do not read (artifacts, packets, commands, references, identifiers drawn) are merged with the neighbouring write or count as a write that changes nothing.
- Floating-point rounding and overflow of lease times and retry delays: they are real numbers.
- Timestamp strings, time zones and the expiry of approvals and packets.
- Hashing, signing, authentication and cursor signatures.
- The other record families of the store (datasets, commands, models, approvals, deletions), which are created and patched by the same two helper routines as endpoints.
- Creating a run with a caller-given revision or sequence number, the unreachable clash of minted delivery identifiers, and deletion and `reset` of stored data.
- Delivery patches in the run store are limited to status, attempts and next time; the webhook model has the further fields.
- Output paging by `created_seq`, run listing and the other paged listings.
- RunStoreRefusals.BatchIndexes: asks that callers bring no identifier that the counter has yet to hand out; an event minted under one later replaces its index entry (`RunStoreResults.DistinctIdsExactly`), after which what counts as a repeat changes.
- RunStoreRefusals.FinalizeRaisesExactly: asks the same of the batch and of the log.
- RunStoreRefusals.FinalizeTears: asks the same of the batch and of the log.
- RunStoreRefusals.RaisesLateExactly: asks the same of a finalize.
- Durability.TornByGuards: asks the same of a finalize; `Durability.TornExactly`, which asks nothing, names the call by its verdict.
- EventStreamClient.StopsShortExactly: assumes that a run is terminal only with a terminal event in its log, and with one at most, which is what `PublicationOutcomes.OutcomeIsTold` and `PublicationOutcomes.OneEndPerLog` say of the runs of that model.
- EventReads.StoreStreamIsGapFree: assumes events without line breaks; with one the client raises a protocol error.
- EventStreamClient: API errors other than a refused connection, and recovery from expired history, which no code path can cause since a run keeps all of its events.
- Retry-After and backoff sleeps of the SDK, upload, and the ticket checks before a download touches a file.
- JSON numbers that are not numbers (NaN), which compare unequal to themselves.
- WebhookRuns.AttemptsStartInOrder: takes the events of a run as enqueued in log order with times that do not go back; the store takes event times from its callers.
- Webhook destination checks, signatures, response limits and the random part of the retry delay (any delay is allowed).
- Webhook endpoints are those that ever exist, listed in the order of their identifiers; creating and deleting them is not modelled.
- AgentContract: line separators other than the newline character, an operation identifier written on the line after its key, and the checks of the command line around the generator. Markers are found line by line, which is what searching the text for them amounts to.
- AgentContractWebhooks.WebhooksAreCarriedOver: asks that the webhooks section opens with an entry, as it does; otherwise its first lines would be read as part of the last path.
- AgentContractGenerator.GenerateAgentContract: asks the same of the webhooks section, and that the lines are those of a text.
- Metrics, stream counters, configuration, backups and packaging, which would only add easy members.
