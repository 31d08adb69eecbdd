# devengine: a verified model of its cores

devengine is a Go toolkit for services on PostgreSQL. This project models the parts of it whose
correctness is not visible from one function and proves what holds of every run, every input or every
interleaving:

- **Leased delivery** (`LeaseQueue`, `LeaseTables`, `LeaseMachine`, `LeaseRefinement`, `LeaseTheorems`,
  `LeaseDelivery`, `LeaseRetention`, `LeaseWorkers`, `JobsRepository`, `JobsRegistry`, `EventRegistry`). Any
  number of workers share a jobs table or an outbox table. Each SQL statement is one atomic step; the clock is
  monotone; claim prefixes are fresh; rows skipped by SKIP LOCKED, handler results, lost statements and crashes
  are arbitrary (a crashed worker just never takes another step). Both tables refine one abstract lease queue,
  and the guarantees are theorems about its legal histories carried back to the tables. A worker's batch loop
  takes exactly the steps that its plan and the others' steps determine, one renewal per tick among them.
- **Transactions** (`Transactions`). Callbacks are program trees; a savepoint stack implements the tree
  semantics; the retry loop commits the effect of at most one attempt.
- **Migrations** (`MigrationLoader`, `MigrationRunner`). A loader with a canonical result and a runner whose
  histories of broken-off runs stay consistent.
- **Forwarding headers** (`Text`, `Forwarded`, `ForwardedRoundTrip`, `ClientIp`,
  `ClientIpTheorems`). The quote-aware splitter at
  two nested levels, the parser for RFC 7239 (sections 4, 5.2 and 6; quoted-string as in section 5.6.4 of
  RFC 9110), and the right-to-left trust walk.
- **Schema drift** (`SchemaDiff`, `SchemaReport`, `SchemaTheorems`, `SchemaNames`, `SchemaMeaning`). The
  comparison is exact for a stated equivalence, every entry says what happened to its object, and the exact
  condition is given under which the report does not depend on map iteration order.
- **Concurrency cores** (`Health`, `HealthHistory`, `EngineRun`, `EngineHistory`, `EngineSetup`). Single-flight
  health checks with generations, and the shutdown protocol of `Engine.Run`. What a probe answers and what
  `Run` returns are read off the events of the run.
- **Delays and texts** (`Backoff`, `Utf8`). 64-bit backoff arithmetic, and truncation of error texts.

## What the proofs show about the code

- **Which invariants rest on `stop` joining its renewals.** Outbox issues renewals on the parent context, so
  one already sent has finished when `stop` returns. Jobs issues them on the context that `stop` cancels, so a
  statement can still reach the server afterwards, and `locked_until > NOW()` holds of `infinity`: a renewal
  that comes after the outcome turns a permanently failed job back into a leased one with no attempts left.
  The abstract queue therefore has a step for it, `Revive`, and every theorem about reachable states holds
  with or without the join: exclusion, inert tokens, plus-one, conservation, readiness, recovery, retention,
  truthful statuses, the finality of `processed_at` and `failed_at`. Only two results rest on the join, and
  only for jobs: that a failure lasts until requeue or discard (`JobFailureLasts`), and that attempts never
  pass the limit (`AttemptsLeftWithJoin`). `MarkRemovedExactlyBy` says exactly which steps remove the mark,
  `AttemptsLeft` that attempts pass the limit exactly after a revival, and `LateRenewalReachable` is a complete
  run to a revival.
- **Lease retention** needs each renewal to run less than a lease after the one before it, and the
  *first* to run before the lease taken at the claim ends; ticks that a slow update drops do not matter. A
  ticker that is late by no more than `lease - interval` meets the condition for every later renewal, but not
  for the first one when the handler started late in a batch. With `remaining` of the lease left, other
  workers can take the row within a gap exactly when the gap is at least `remaining` (`RenewalInTimeIff`).
- **A batch keeps its claims** if by the plan all gaps, from the claim statement on, are shorter than what is
  left of the lease; what other workers do in between does not matter (`ProcessBatch`). A backoff that panics
  ends the batch and the worker: the row keeps its claim until the lease ends.
- **A lease of 1 ns** is the only one whose renewal interval is not shorter than the lease.
- **Backoff** stays in its window for every jitter exactly while `base * 2^n <= 2^63`; beyond that a delay can
  be negative (`NegativeDelay`) or the jitter draw panics (`PanickingDelay`). The lease machine
  accepts negative delays too.
- **A final error** of a transaction is never replaced: callers get exactly what the callback returned, and the
  context's error only when the context was over.
- **The transaction loop's jitter** draw panics exactly when an attempt before the last fails retryably while
  the backoff in force is below 2 ns.
- **A nested call whose context ends inside it** neither rolls back nor releases its savepoint: the error of
  `nested.Rollback` is discarded, and a caller that goes on commits the failed call's writes
  (`EndedContextLeaks`).
- **At-most-once migration** does not rest on the advisory lock: the primary key of the metadata table in the
  same transaction is enough.
- **Unspecified addresses** are refused before unmapping, so the mapped form of 0.0.0.0 is accepted as a hop.
- **Schema reports** are independent of map iteration order for all snapshots over a set of table names exactly
  when no name continues another name, or the empty one, by a slash and a kind; names without slashes never do.
  Object names may hold anything.
- **Enum changes** go unreported exactly when both label lists are the same once cut at their commas, so a
  label that holds a comma or an empty label can hide one; between labels that are neither, no change is hidden
  (`SafeLabelsExact`).
- **Engine.Run** never loses a worker's failure, but a worker that returns `context.Canceled` on its own
  before shutdown is not reported, and a server failure not yet sent at the final drain is lost, because
  nobody waits for the server goroutine. `ReturnsVerdict` says exactly what it
  returns, and `NilExactlyWhen` when that is nil.

## Model

| member | source | states |
|---|---|---|
| `LeaseQueue.LeaseExclusion` | jobs/worker.go:136-149 | over every legal history, two tokens that hold a valid lease on one item at the same time are the same token |
| `LeaseQueue.StaleForever` | outbox/outbox.go:262-277 | a token that an item carried, and that was then replaced or cleared, never comes back to it |
| `LeaseQueue.StaleTokenIsInert` | jobs/worker.go:188-212 | no renewal or outcome of a stale token changes the item |
| `LeaseQueue.AttemptsCountFailures` | outbox/outbox.go:320-345 | the stored attempt number is the number of failures recorded since enqueue or requeue; a failed item has used its limit up, exactly unless it was revived; any other item has attempts left exactly unless it was revived |
| `LeaseQueue.ExhaustedExactlyAtLimit` | jobs/worker.go:188-211 | a recorded failure is permanent exactly when the failures since enqueue or requeue reach the limit, and they go past it exactly when a late renewal revived the item |
| `LeaseQueue.Conservation` | jobs/worker.go:168-212 | enqueues equal completions plus discards plus one if the item is live: nothing is lost or doubled |
| `LeaseQueue.FailureLasts` | jobs/repository.go:108-146 | a permanent failure lasts until requeue, discard or revival |
| `LeaseQueue.CompletionLasts` | outbox/outbox.go:324-327 | a completed item is never delivered again unless enqueued anew |
| `LeaseQueue.PerformAllExtendsHistory` | jobs/worker.go:188-212 | attempting actions appends exactly the effective ones to the history |
| `LeaseQueue.CoveredHandlerKeepsLease` | outbox/outbox.go:382-429 | a handler of any length keeps its lease against any interleaved attempts while each of its updates runs less than a lease after the one before, the first before the lease of the claim ends; ticks dropped during slow updates do not matter |
| `LeaseQueue.PunctualIsCovered` | outbox/outbox.go:393-421 | a ticker whose updates are late by no more than lease - interval leaves no such gap |
| `LeaseQueue.UpdateInTimeIff` | jobs/worker.go:257-299 | with `remaining` of a lease left, another claim can take the item before the next update exactly when the gap up to it is at least `remaining` |
| `LeaseQueue.HeldUntilEnd` | outbox/outbox.go:408-413 | attempts made before a lease ends, none of them its holder's outcome, leave the lease in place |
| `LeaseRefinement.ClaimChosen` | jobs/worker.go:136-149 | a claimed row of either table makes the abstract claim step, keeping the row invariant (leased outbox row: process_after equals locked_until; leased job: run_at has passed) |
| `LeaseRefinement.RenewJobRefines` | jobs/worker.go:279-283 | a renewal of a job is the abstract renewal, the abstract revival of a job failed under the same token, or changes nothing |
| `LeaseRefinement.RenewMessageRefines` | outbox/outbox.go:408-413 | a renewal of a message is the abstract renewal, or leaves a closed or re-claimed message's item alone |
| `LeaseRefinement.ReportJobRefines` | jobs/worker.go:188-212 | the outcome statement on a job is the abstract outcome or changes nothing |
| `LeaseRefinement.ReportMessageRefines` | outbox/outbox.go:320-345 | the outcome statement on a message is the abstract outcome or changes nothing |
| `LeaseRefinement.InsertRefines` | jobs/jobs.go:27-54 | inserting a row is the abstract enqueue with a limit of at least 1, or changes nothing (duplicate id, refused option) |
| `LeaseRefinement.RequeueRefines` | jobs/repository.go:108-129 | requeueing is the abstract requeue with attempts reset, or changes nothing |
| `LeaseRefinement.DiscardRefines` | jobs/repository.go:131-146 | discarding is the abstract discard, or changes nothing |
| `LeaseRefinement.StepRefines` | outbox/outbox.go:262-345 | every step of the machine, with or without the join, is for every id one abstract attempt or a stutter, and the audit trail grows by it exactly if it took effect |
| `LeaseRefinement.StepKeepsInv` | jobs/worker.go:128-297 | every step keeps the invariant: claims without an outcome remember the stored attempt and limit, tokens on open rows belong to them or to revived claims, trails are legal histories |
| `LeaseRefinement.NoLateRenewal` | jobs/worker.go:262-268 | no renewal of a failed job can run in outbox states, nor in jobs states whose stopped claims have none on its way |
| `LeaseRefinement.RunRefines` | jobs/worker.go:128-235 | over every run, with or without the join, every id's item is what the abstract queue makes of the run's attempts, and its trail grows by exactly the effective ones |
| `LeaseTheorems.TableLeaseExclusion` | jobs/worker.go:138-143 | in every reachable state of either table, with or without the join, the valid leases of distinct tokens on one row are disjoint in time |
| `LeaseTheorems.ReplacedTokenIsInert` | jobs/worker.go:192-210 | a token no longer on its row never returns, and its renewals and outcomes change no row, without assuming the join |
| `LeaseTheorems.EnqueuedAsRequested` | jobs/jobs.go:27-54 | a fresh row has no failures, the ready time and the limit asked for; a job without a positive limit gets 5, a message without one is refused |
| `LeaseTheorems.FailureAddsOne` | jobs/worker.go:188-211 | a failure that takes effect adds exactly 1 to the stored attempt although it writes a value read at the claim; the row fails for good exactly from its limit on, and passes it exactly if it was revived |
| `LeaseTheorems.AttemptsLeft` | outbox/outbox.go:132-140 | in every reachable state a failed row has used its attempts up, and any other row has attempts left exactly unless a late renewal revived it |
| `LeaseTheorems.JoinPreventsRevival` | jobs/worker.go:262-268 | outbox runs, and jobs runs whose stop joins, revive nothing |
| `LeaseTheorems.AttemptsLeftWithJoin` | outbox/outbox.go:132-140 | so there a row is failed exactly if its attempts equal its limit, and never exceeds it |
| `LeaseTheorems.OutboxClosedForever` | outbox/outbox.go:324-335 | processed_at and failed_at are never both set; once one is set both stay and the row is never eligible again, even with late renewals |
| `LeaseTheorems.MarkRemovedExactlyBy` | jobs/worker.go:199-201 | the infinity mark goes away by requeue, discard or a late renewal of the same claim, and by nothing else |
| `LeaseTheorems.JobFailureLasts` | jobs/worker.go:262-283 | with the join, the infinity mark lasts over every run without requeue or discard of that job |
| `LeaseTheorems.LateRenewalRevives` | jobs/worker.go:279-283 | a late renewal turns a failed job into a leased one with no attempts left that becomes eligible when that lease ends |
| `LeaseTheorems.LateRenewalReachable` | jobs/worker.go:257-299 | a concrete run without the join reaches a failed job that a renewal revives |
| `LeaseTheorems.TableConservation` | jobs/worker.go:168-212 | in every reachable state every enqueued id is live, completed or discarded, exactly once per enqueue; live items are exactly the open rows |
| `LeaseTheorems.CompletionNeedsDelivery` | outbox/outbox.go:297-327 | an item completes only by a successful report under the current token |
| `LeaseTheorems.EligibleExactlyFromReadyTime` | outbox/outbox.go:268-271 | in every reachable state a row that has not ended is eligible exactly from its ready time or lease end on |
| `LeaseTheorems.AlwaysRecoverable` | jobs/worker.go:136-212 | from every reachable state, with or without the join and whatever crashed, waiting until that finite time lets one more worker claim, deliver and complete the item |
| `LeaseTheorems.IntervalFitsLease` | jobs/worker.go:50-67 | the renewal interval is the configured one if that is positive and shorter than the lease, and otherwise half the lease; it is positive and shorter than the lease exactly if the configured lease is not 1 ns |
| `LeaseTheorems.HandlerKeepsRow` | outbox/outbox.go:382-429 | renewals that run without a gap of a lease keep the row over any run of any number of workers, with or without the join; only its own renewals take effect |
| `LeaseTheorems.PunctualHandlerKeepsRow` | outbox/outbox.go:111-121 | with the configured interval, a ticker whose updates are late by no more than lease - interval keeps the row |
| `LeaseTheorems.LeaseHeldUntilEnd` | jobs/worker.go:138-143 | over any run of either table, a row stays leased to a token until the clock reaches the lease end, unless the token's own outcome runs |
| `LeaseTheorems.RenewalInTimeIff` | jobs/worker.go:257-299 | with `remaining` of a lease left, at the claim or after any renewal, some run of other workers takes the row within a gap exactly when the gap is at least `remaining` |
| `LeaseTheorems.LateStart` | jobs/worker.go:168-186 | an eligible row of any reachable state can be claimed with its handler starting with any part of the lease left |
| `LeaseDelivery.RenewalsFollowTicks` | jobs/worker.go:270-297 | the renewal loop sends one renewal per tick, runs each that is to run, and leaves ticks out only after one that ran and matched no row |
| `LeaseDelivery.InterleavedRuns` | jobs/worker.go:168-232 | what happens between two statements of a batch is always a run of others, and any run of others can be given |
| `LeaseDelivery.AttendedRenewals` | outbox/outbox.go:395-427 | when every answer is waited for, exactly those renewals run, and one that matches no row is the loop's last step |
| `LeaseRetention.PromptDeliveryKeepsRow` | outbox/outbox.go:382-429 | if by the plan each gap between updates, and the last one up to the outcome, is shorter than what is left of the lease, then the delivery's own attempts leave no gap: whatever others attempt, all ticks send, only the claim's renewals take effect, and the row is still claimed when the outcome statement runs |
| `LeaseWorkers.DeliverEvent` | outbox/outbox.go:435-450 | exactly the registered handlers of the type and of "*" run, each once; delivery succeeds exactly if there is one and all returned nil |
| `LeaseWorkers.Deliver` | jobs/worker.go:174-181 | a job succeeds exactly if its name has a handler and that returns nil; an event as above |
| `LeaseWorkers.RenewWhileRunning` | jobs/worker.go:270-297 | the loop takes exactly the steps of the renewal specification: one renewal per tick until the handlers are done or a renewal that ran found the claim gone |
| `LeaseWorkers.RecordOutcome` | jobs/worker.go:188-232 | at most one outcome statement runs, exactly one if it is answered; the status is what the audit trail says, a retry is recorded for the time of the report plus the backoff of the next attempt, and the claim is not lost if it still holds the row; a panicking backoff leaves nothing recorded |
| `LeaseWorkers.RetryWaitsBackoff` | jobs/worker.go:204-211 | a retried row is eligible exactly from the report plus that backoff on, which lies in the window of the next attempt |
| `LeaseWorkers.DeliverOne` | jobs/worker.go:168-232 | one delivery takes exactly the steps of its specification, succeeds as its handlers do, and keeps its claim if its gaps are short enough |
| `LeaseWorkers.ClaimRows` | outbox/outbox.go:262-295 | after the claim statement every returned row is leased to a fresh claim for the whole lease, with nothing done under it |
| `LeaseWorkers.ProcessBatch` | jobs/worker.go:128-235 | a batch, joined or not, is a run of the machine interleaved with others and with late renewals; each row reached is renewed as its ticks ask, gets one outcome statement or a lost one and a truthful status, is judged by what its registered handlers returned, and keeps its claim if all gaps since the claim statement are short enough; only a crash ends it early, and rows after a break keep their claims |
| `LeaseWorkers.BatchPromises` | jobs/worker.go:128-235 | the same, spelled out for one row of the batch |
| `JobsRepository.MarkedIffFailed` | jobs/repository.go:40-55 | the infinity mark selects exactly the abstractly failed items |
| `JobsRepository.Repository.RequeueFailed` | jobs/repository.go:108-129 | finds exactly failed jobs, makes them pending with no failures counted, leaves all others alone |
| `JobsRepository.Repository.DiscardFailed` | jobs/repository.go:131-146 | finds exactly failed jobs, removes them for good, leaves all others alone |
| `JobsRepository.Repository.CountFailed` | jobs/repository.go:40-55 | counts the failed jobs |
| `JobsRegistry.Registry.Register` | jobs/jobs.go:90-104 | accepts exactly a named, non-nil handler for a free name, and never overwrites |
| `JobsRegistry.Registry.Replace` | jobs/jobs.go:107-121 | accepts exactly a non-nil handler for a taken name |
| `JobsRegistry.Registry.HandlerFor` | jobs/jobs.go:124-128 | the handler of the name, if there is one |
| `EventRegistry.Registry.Register` | events/events.go:86-110 | accepts exactly non-nil handlers with a type that are not registered yet, before freezing; otherwise changes nothing |
| `EventRegistry.Registry.Freeze` | events/events.go:112-117 | freezes and keeps the handlers |
| `EventRegistry.Registry.HandlersFor` | events/events.go:126-135 | exactly the handlers of that type and the "*" handlers, each once |
| `Transactions.StackImplementsTree` | postgres/tx.go:176-192 | for callbacks nested to any depth, with statements refused or never sent and contexts ending inside, the savepoint stack gives the effects and the error of the tree semantics |
| `Transactions.LeaveNested` | postgres/tx.go:176-192 | leaving a nested call by commit, rollback, a failed RELEASE or an ended context puts the connection where the tree semantics says, with every older savepoint in place |
| `Transactions.EndedContextLeaks` | postgres/tx.go:182 | a caller that goes on after a nested call failed on an ended context commits that call's writes |
| `Transactions.RollBackNested` | postgres/tx.go:176-192 | leaving a nested call by error restores the log to where it began and keeps older savepoints |
| `Transactions.ReleaseNested` | postgres/tx.go:176-192 | leaving a nested call by success keeps its effects and removes its savepoints |
| `Transactions.IsRetryable` | postgres/tx.go:196-213 | true exactly if the first PostgreSQL error of the chain has a listed code |
| `Transactions.WrappingKeepsClass` | postgres/tx.go:196-213 | wrapping an error does not change whether it is retried, and a context error anywhere in its chain rules it out |
| `Transactions.AttemptIsAtomic` | postgres/tx.go:158-174 | an attempt commits all of its callback's effect or nothing; nil means all; an error with an effect only when the commit's fate was unknown |
| `Transactions.AttemptError` | postgres/tx.go:158-174 | an attempt reports the callback's own error as it is, and wraps errors of begin and commit |
| `Transactions.NestedCallEffects` | postgres/tx.go:176-192 | a caller that handles the error of a nested call commits its own writes alone, one that passes it on commits nothing, and a successful nested call commits with its caller |
| `Transactions.RetryableLeavesNothing` | postgres/tx.go:114-138 | an error that qualifies for a retry left nothing committed |
| `Transactions.TryOnce` | postgres/tx.go:120-126 | one attempt has its result; if it qualifies for another, nothing was committed |
| `Transactions.WithTransaction` | postgres/tx.go:88-139 | the committed state is the starting state or the effect of exactly the last attempt; earlier attempts failed retryably with a live context; nil exactly if the last attempt succeeded; a last error that does not qualify is returned as it is, a callback's as the callback's meaning gives it, the last of used-up attempts wrapped, and the context's error exactly if the context was over; total sleep; the exact condition of the jitter panic |
| `Transactions.NormalisedKeepsWhatIsSet` | postgres/tx.go:88-105 | a configuration is kept exactly if all its fields are set; an empty one means one attempt, deadlocks, 20 ms and 500 ms |
| `Transactions.OneNanosecondPanics` | postgres/tx.go:127-129 | an initial backoff of 1 ns makes the first retry panic, for every configuration with at least two attempts |
| `Transactions.DeadlockIsRetried` | postgres/tx.go:196-213 | a statement refused with a deadlock makes an attempt that is retried by default |
| `Transactions.TameBackoff` | postgres/tx.go:114-138 | backoffs of at least 2 ns without overflow stay in range and leave room for jitter |
| `Transactions.BackoffDoubles` | postgres/tx.go:114-138 | the k-th backoff is the initial one times 2^(k-1), up to the maximum |
| `Transactions.SleptExactly` | postgres/tx.go:126-135 | the time slept is the sum of those backoffs and of the jitter drawn for each, below half of it |
| `Transactions.SleepBound` | postgres/tx.go:114-138 | n waits take less than 1.5 * (initial + (n - 1) * max) |
| `Transactions.AmbientCallOnce` | postgres/tx.go:107-112 | a call inside a transaction runs its callback at most once; success keeps its effect; an error leaves none or an aborted transaction, exactly unless the context ended inside, when all of the effect stays |
| `MigrationLoader.MatchExactly` | migrate/migrate.go:48 | the file names that are loaded are exactly digits, an underscore, a name and the suffix, in one way only, and the version is the number the digits spell |
| `MigrationLoader.JudgeExactly` | migrate/migrate.go:284-316 | a migration file gives the version its digits spell, its name, its body and the checksum of the body; it is an error exactly if the version is too large or out of range or the body unreadable; anything else is skipped |
| `MigrationLoader.ExpectedExactly` | migrate/migrate.go:269-320 | what is loaded is exactly what some file of some source gives |
| `MigrationLoader.LoadEntries` | migrate/migrate.go:284-316 | one source contributes its matching files in order, or an error exactly if one does not fit |
| `MigrationLoader.LoadSources` | migrate/migrate.go:269-320 | succeeds exactly on clean sources without shared versions; the result is strictly ascending and a permutation of the matching files |
| `MigrationLoader.EngineFirst` | migrate/migrate.go:322-336 | all engine versions come before all application versions |
| `MigrationLoader.LoadableInAnyOrder` | migrate/migrate.go:269-320 | whether loading succeeds does not depend on the order of sources |
| `MigrationLoader.SourceOrderIrrelevant` | migrate/migrate.go:269-320 | nor does the list that loading gives |
| `MigrationRunner.CommitConsistent` | migrate/migrate.go:247-267 | one migration transaction keeps SQL and metadata in step |
| `MigrationRunner.ApplyAllShape` | migrate/migrate.go:143-148 | whatever fails, a run commits new versions only, in ascending order, and success leaves everything in place |
| `MigrationRunner.SucceedsIff` | migrate/migrate.go:143-148 | a run succeeds exactly if each migration is recorded with its checksum and inspected without error, or not recorded and its commit is acknowledged |
| `MigrationRunner.Database.ApplyEach` | migrate/migrate.go:143-148 | the loop stops at the first error, with the state and commits of its specification |
| `MigrationRunner.Database.Apply` | migrate/migrate.go:107-149 | a run leaves exactly the database, error and commits of its specification over the loaded ascending list, changes no migration when loading fails, and reports success only when every loaded migration is in place |
| `MigrationRunner.HistoryConsistent` | migrate/migrate.go:107-149 | over any sequence of runs with failures or crashes anywhere, the schema is the committed SQL in order, no version commits twice, and its row with its checksum exists exactly if its SQL committed |
| `MigrationRunner.UnlockedRunnersConsistent` | migrate/migrate.go:247-267 | the same for interleaved migration transactions without the lock |
| `MigrationRunner.ReportStatus` | migrate/migrate.go:153-228 | one line per migration: applied exactly if recorded, drifted exactly if recorded with another checksum |
| `MigrationRunner.StatusIsTruthful` | migrate/migrate.go:153-228 | at any time a line says applied exactly if the version was committed, and drifted exactly if it was committed with another checksum |
| `MigrationRunner.StatusAfterSuccess` | migrate/migrate.go:153-215 | after a successful run the status shows everything applied without drift |
| `MigrationRunner.StopsAtSmallestDrift` | migrate/migrate.go:230-246 | with drift and no other error the loop applies exactly the pending versions below the smallest drifted one |
| `MigrationRunner.RunStopsAtSmallestDrift` | migrate/migrate.go:107-149 | so does a whole run, over the sources in any order, and its error names that version |
| `Forwarded.SplitOutsideQuotes` | httpx/clientip/clientip.go:214-251 | the loop gives the trimmed pieces between separators outside quotes, or fails on malformed quoting, control characters or an empty piece |
| `Forwarded.PiecesBalanced` | httpx/clientip/clientip.go:214-251 | in a text that ends outside quotes every piece starts and ends outside quotes |
| `Forwarded.SemicolonSplitFailsOnlyOnEmpty` | httpx/clientip/clientip.go:177-212 | an element accepted by the comma split fails the semicolon split exactly through an empty parameter |
| `Forwarded.UnescapeBody` | httpx/clientip/clientip.go:253-293 | the unescaping loop drops each escaping backslash and refuses a dangling one |
| `Forwarded.BareIsCanonical` | httpx/clientip/clientip.go:166-175 | a bare address comes out zone-free and unmapped; it is unspecified exactly when its text was the IPv4-mapped form of 0.0.0.0 |
| `Forwarded.MappedZeroIsAccepted` | httpx/clientip/clientip.go:166-175 | the mapped form of 0.0.0.0 is accepted and comes out as the unspecified address |
| `Forwarded.NodeIsCanonical` | httpx/clientip/clientip.go:253-293 | a node's address is never IPv4-mapped; an IPv6 one is zone-free, specified, and was bracketed |
| `Forwarded.ParseElementText` | httpx/clientip/clientip.go:183-209 | an element gives the address of its only `for` parameter, or fails |
| `Forwarded.ParseForwarded` | httpx/clientip/clientip.go:177-212 | the header gives the chain of its elements' addresses, or fails |
| `ForwardedRoundTrip.NodeParses` | httpx/clientip/clientip.go:253-293 | the text of any unmapped, specified address of 32 or 128 bits, bare, quoted or bracketed, parses back to it |
| `ForwardedRoundTrip.RoundTrip` | httpx/clientip/clientip.go:177-293 | for 1 to 32 unmapped, specified addresses of 32 or 128 bits with any extension parameters and any whitespace around the separators, parsing the printed header gives back exactly the chain |
| `ForwardedRoundTrip.LawfulCodecExists` | httpx/clientip/clientip.go:166-175 | the law assumed of the address library is met by one that only yields addresses of 32 or 128 bits |
| `ClientIp.ParseXForwardedFor` | httpx/clientip/clientip.go:128-156 | the bare hops in order, or failure if one is malformed or there are too many |
| `ClientIp.HeaderChainBounds` | httpx/clientip/clientip.go:128-156 | an accepted header has 1 to 32 hops (one for the single-address headers), within the byte limit, in canonical form |
| `ClientIp.XForwardedForExactly` | httpx/clientip/clientip.go:128-156 | X-Forwarded-For is accepted exactly within both limits and with every comma-separated hop a bare address |
| `ClientIpTheorems.BareExactly` | httpx/clientip/clientip.go:166-175 | a bare address is accepted exactly if it parses, without brackets, to a zone-free, specified address, and comes out unmapped |
| `ClientIpTheorems.SingleAddressExactly` | httpx/clientip/clientip.go:128-135 | X-Real-IP and CF-Connecting-IP are accepted exactly as one value that is one bare address |
| `ClientIpTheorems.BareRoundTrip` | httpx/clientip/clientip.go:128-156 | printed addresses parse back, in X-Forwarded-For in one value or several with any whitespace around commas, and in the single-address headers |
| `ClientIpTheorems.LinesRoundTrip` | httpx/clientip/clientip.go:136-141 | valid Forwarded elements spread in order over any number of header lines parse to the chain of all their addresses |
| `ClientIpTheorems.LinesResolve` | httpx/clientip/clientip.go:74-99 | so Resolve gives the rightmost untrusted of them, whichever line it stands in |
| `ClientIpTheorems.ResolutionExactly` | httpx/clientip/clientip.go:74-99 | behind a trusted peer the first present header alone decides: its rightmost untrusted hop, or the peer if it is malformed or all its hops are trusted; with no header present it is the peer |
| `ClientIp.Resolve` | httpx/clientip/clientip.go:74-109 | the two loops give the resolution specification |
| `ClientIp.WalkFindsRightmost` | httpx/clientip/clientip.go:91-109 | the walk finds the rightmost untrusted hop, with every hop to its right trusted, exactly if there is one |
| `ClientIp.ResolutionDependence` | httpx/clientip/clientip.go:74-99 | the result depends only on the peer and the first present header, on no header when the peer is untrusted |
| `ClientIp.PrependingHopsChangesNothing` | httpx/clientip/clientip.go:128-156 | once a chain holds an untrusted hop, valid hops put in front as a further header value, within the limits, never change the result |
| `ClientIp.PrependingInValueChangesNothing` | httpx/clientip/clientip.go:128-156 | nor do valid hops put in front within the first value, with a comma and spaces |
| `ClientIpTheorems.PrependingElementsChangesNothing` | httpx/clientip/clientip.go:136-141 | the same for Forwarded: once a chain holds an untrusted hop, valid elements put in front, as a line of their own or in the first line, never change the result |
| `SchemaDiff.NamedIsLast` | schema/schema.go:583-589 | a name is filed exactly if an item has it, and stands for the last such item |
| `SchemaDiff.DiffNamed` | schema/schema.go:538-581 | two passes over maps in any order list exactly the added, removed and changed names, each once |
| `SchemaDiff.DiffColumns` | schema/schema.go:436-470 | lists exactly the column differences of a table |
| `SchemaDiff.DiffIndexes` | schema/schema.go:472-503 | lists exactly the index differences of a table |
| `SchemaDiff.DiffConstraints` | schema/schema.go:505-536 | lists exactly the constraint differences of a table |
| `SchemaReport.SortEntries` | schema/schema.go:429-433 | sorts by the composite key and keeps exactly the entries |
| `SchemaReport.Compare` | schema/schema.go:399-434 | for every iteration order the report lists every difference exactly once, in key order, and drift is reported exactly if there is one |
| `SchemaTheorems.DiffExact` | schema/schema.go:399-434 | no entry exactly if the snapshots agree on the projection: default nil as empty, positions ignored, definitions only, sequences by name for a version 1 base, enums by joined labels |
| `SchemaMeaning.ReportSaysExactly` | schema/schema.go:399-581 | the differences are exactly the entries that tell the truth: added things are only in live, removed ones only in base, changed ones in both with the details shown as base, then live |
| `SchemaTheorems.EntriesUnique` | schema/schema.go:399-434 | at most one entry per table, kind and object |
| `SchemaTheorems.ReportDeterminedIff` | schema/schema.go:429-433 | the sorted report is unique exactly if no two differences share a key |
| `SchemaNames.OrderIrrelevantIff` | schema/schema.go:426-434 | for all snapshots over a set of table names the report is independent of iteration order exactly when no name goes on, after another name or the empty one, with a slash and the text of a kind |
| `SchemaNames.NoClashDistinct` | schema/schema.go:429-433 | without such a name no two differences share a sort key |
| `SchemaNames.ClashCollides` | schema/schema.go:429-433 | with one, some snapshots over the names have two differences that share a key |
| `SchemaNames.SlashFreeNamesDoNotClash` | schema/schema.go:429-433 | names without a slash never clash |
| `SchemaTheorems.SwapExchanges` | schema/schema.go:399-434 | swapping two version 2 snapshots exchanges added and removed and keeps changed |
| `SchemaTheorems.EnumTextEqualIff` | schema/schema.go:563-591 | two label lists have the same joined text exactly when their labels, cut at their commas, are the same (no label at all counting as one empty label) |
| `SchemaTheorems.SafeLabelsExact` | schema/schema.go:563-591 | for labels that are not empty and hold no comma, the joined texts are the same exactly when the lists are |
| `SchemaTheorems.EnumsExact` | schema/schema.go:563-591 | no enum difference is reported exactly when the enums have the same names and the same labels cut at commas; with safe labels, exactly when they are equal |
| `SchemaTheorems.CommaLabelsHideChange` | schema/schema.go:563-591 | splitting one label that holds a comma into two labels is not reported |
| `SchemaTheorems.EmptyLabelHidesChange` | schema/schema.go:563-591 | nor is adding an empty label to an enum without labels |
| `Health.StepKeepsInv` | health/registry.go:168-309 | every critical section and channel step keeps: results belong to current registrations, generations identify registrations, one running body per running mark, probe readiness matches its results |
| `Health.AtMostOneBody` | health/registry.go:200-246 | in every run at most one check body per name is under way, even across removal and re-registration |
| `Health.SnapshotIsCurrent` | health/registry.go:149-157 | every last result is of a registered check, of its current generation and criticality |
| `Health.AnswerIsExact` | health/registry.go:271-297 | a finished probe has one result per check of its snapshot and answers 503 exactly if the result of a critical one is not ok |
| `HealthHistory.ResultIsTheChecks` | health/registry.go:200-256 | over any run, a result is ok exactly if its check returned nil and that was taken before the timeout; otherwise the check returned an error, timed out, or was refused because another of its name was under way |
| `HealthHistory.AnswerFollowsChecks` | health/registry.go:271-297 | so a finished probe answers 503 exactly if a critical check of its snapshot failed, timed out or was refused |
| `HealthHistory.ProbeRunsRegistered` | health/registry.go:169-176 | a probe runs exactly the checks registered when it began, whatever is added or removed later |
| `HealthHistory.SnapshotShowsLatest` | health/registry.go:299-309 | a snapshot shows the result received last for the current registration; a result of an older one replaces nothing |
| `Health.OneResultPerCheck` | health/registry.go:271-283 | over any run a probe receives each check's result at most once, and exactly once when it has answered |
| `Health.NeverStuck` | health/registry.go:193-268 | an unanswered task always has a step of its own that brings it closer, even if its check never returns |
| `Health.Collect` | health/registry.go:271-283 | the receive loop, in any arrival order, maps every name to its result and is not ready exactly if a critical one failed |
| `Health.Registry.AddWithCriticality` | health/registry.go:102-111 | registers under a new generation and drops the last result; empty names and nil checks change nothing |
| `Health.Registry.RemoveCheck` | health/registry.go:114-119 | drops the check and its last result |
| `Health.Registry.TryStart` | health/registry.go:200-212 | starts exactly if no check of that name runs, and is then the only body of that name |
| `Health.Registry.RecordResult` | health/registry.go:299-309 | stores a result only for the generation that is registered now |
| `EngineRun.NoLostWorkerFailure` | engine/engine.go:215-332 | if Run returns nil, every started worker has returned, none failed, and none exited early except with a cancellation error |
| `EngineRun.NoTimeoutMeansJoined` | engine/engine.go:285-332 | a result without a timeout error means every worker has returned |
| `EngineRun.SendNeverDrops` | engine/engine.go:215-239 | no error send ever takes the default branch |
| `EngineRun.ReturnedErrorsAreGenuine` | engine/engine.go:273-303 | every error Run returns names a failure, cause or timeout that happened |
| `EngineRun.MainAdvances` | engine/engine.go:273-332 | once anything failed or was cancelled, Run always has a step that brings it closer to returning |
| `EngineRun.NilExactlyWhenNothingSent` | engine/engine.go:261-303 | at the final drain Run returns nil exactly if nothing went wrong before, no worker reported, and the server goroutine has not sent a failure |
| `EngineHistory.ReturnsVerdict` | engine/engine.go:273-303 | over every run, what Run returns is exactly what its events say: the first report or bad cause it stopped for, else a failed shutdown, joined with the workers left unfinished, else the first report before the final drain |
| `EngineHistory.ShutdownFailureReturned` | engine/engine.go:283-289 | a failed server shutdown always makes Run return an error, its own exactly if nothing had gone wrong before |
| `EngineHistory.BadCauseReturned` | engine/engine.go:273-281 | a bad cause is returned exactly if it is the first cancellation and Run stopped for it |
| `EngineHistory.NilExactlyWhen` | engine/engine.go:273-303 | Run returns nil exactly if it stopped for a benign cancellation, no shutdown failed, no worker was found unfinished, and nothing was reported before the final drain |
| `EngineRun.EarlyExitReportedIff` | engine/engine.go:226-239 | an exit before shutdown is reported exactly if its error is not a cancellation |
| `EngineRun.SilentCanceledExit` | engine/engine.go:226-239 | a run in which the only worker leaves early with a cancellation error and Run returns nil |
| `EngineRun.ServerFailureCanBeLost` | engine/engine.go:261-303 | a run in which the server failed but had not sent its error by the final drain, and Run returns nil |
| `EngineSetup.RegisteredExtends` | engine/engine.go:122-159 | however modules nest, fail or race with Run, names stay distinct, reservations are released exactly once and workers are frozen once Run starts |
| `EngineSetup.SuccessListsAll` | engine/engine.go:122-159 | a successful Register lists every module given, all with new and different names |
| `EngineSetup.RegistersOne` | engine/engine.go:122-159 | one module is registered exactly if it is there under a new name, Run has not started and its own Register succeeds; otherwise its name is free again |
| `EngineSetup.RegistersInOrder` | engine/engine.go:122-159 | modules are registered one after the other, up to the first that fails |
| `EngineSetup.AddsUpToFirstBad` | engine/engine.go:161-182 | exactly the workers before the first nil, unnamed or duplicate one are added, and the call succeeds exactly if there is none |
| `EngineSetup.Engine.AddWorker` | engine/engine.go:161-182 | adds the workers before the first bad one, nothing after start, names distinct |
| `EngineSetup.Engine.Register` | engine/engine.go:122-159 | registers modules one by one up to the first error, as specified, through recursive registration |
| `EngineSetup.UnfinishedWorkerNames` | engine/engine.go:322-332 | names exactly the workers not done when looked at |
| `EngineSetup.WaitForWorkers` | engine/engine.go:305-320 | nil exactly if every worker is done when looked at after the deadline, whichever ready case the select takes; waits at most the timeout |
| `Backoff.ComputeBackoff` | jobs/worker.go:305-318 | the doubling loop in 64-bit arithmetic gives the delay specification, including the panic of an empty jitter range |
| `Backoff.WindowExactly` | outbox/outbox.go:462-475 | every jitter gives a delay in [base*2^(n-1), base*2^n) exactly if base*2^n <= 2^63 |
| `Backoff.DelayIsDoubledPlusDraw` | jobs/worker.go:305-318 | within that range the delay is base*2^(n-1) plus the draw itself |
| `Backoff.NegativeDelay` | jobs/worker.go:305-318 | with a base of 2^62 + 1 the largest draw makes the first delay negative |
| `Backoff.PanickingDelay` | jobs/worker.go:305-318 | with a base of 2^62 the second delay panics, whatever is drawn |
| `Backoff.ClampIdle` | jobs/worker.go:310-317 | within that range the clamp never changes the delay |
| `Backoff.DelaysIncrease` | jobs/worker.go:305-318 | later attempts wait strictly longer, whatever the jitters |
| `Backoff.TotalWindow` | outbox/outbox.go:462-475 | n failures together wait at least base*(2^n - 1) and less than twice that |
| `Utf8.TruncateUTF8` | jobs/worker.go:237-246 | a short text is kept; of a longer one the longest valid prefix within the limit is kept, at least limit - 3 bytes if the text was valid |
| `Utf8.ValidIsEncoded` | outbox/outbox.go:371-380 | every byte string the validity grammar of section 4 of RFC 3629 accepts is the encoding of a character sequence |
| `Utf8.EncodeAll` | outbox/outbox.go:371-380 | and every encoding of a character sequence is accepted |
| `Utf8.TruncationCutsWholeCharacters` | jobs/worker.go:237-246 | truncating the encoding of a text keeps its longest run of leading characters that fits |
| `Utf8.BadLeadLosesAll` | outbox/outbox.go:371-380 | a text whose first byte starts no character is truncated to nothing |

## Left out

- PostgreSQL and pgx internals: statements are atomic with a monotone `NOW()`, commits all-or-nothing, the advisory lock is mutual exclusion; of pgx only that a failed RELEASE closes the nested transaction and that ROLLBACK TO keeps the savepoint.
- A commit answered with a PostgreSQL error is taken as not applied; a commit whose answer was lost may be either.
- Interval formatting, conversion of delays to milliseconds and sub-microsecond rounding.
- Row columns that decide nothing: payload, name, last_error text in the table; `ListFailed` and `GetFailed`, which only read them.
- Statements lost before they reach the server are steps that do not happen. An outcome statement that is not answered ran at that point or never; one that is delayed beyond the statements that follow is not modelled.
- A context that ends while a statement is under way closes the connection and the whole transaction with it; contexts that are over before a statement is sent are modelled.
- Handlers that are registered or replaced while a batch runs: each batch sees one state of its registry.
- A nested context that ends is over by cancellation; a deadline gives the same with another cause.
- UUID generation: claim prefixes are assumed fresh, and a token is its prefix and its row id.
- Real time in tickers and contexts: renewals, ticks and cancellations are steps in arbitrary order; only the retention theorem constrains their times.
- LeaseTheorems.JobFailureLasts: assumes that stop joins its renewals, which the jobs worker's cancellable context does not ensure; MarkRemovedExactlyBy and LateRenewalReachable show what happens without it.
- LeaseTheorems.AttemptsLeftWithJoin: the same assumption for jobs; AttemptsLeft says exactly what holds without it.
- LeaseTheorems.AlwaysRecoverable: shows that recovery is always possible from every reachable state; that some worker eventually polls is not modelled.
- ForwardedRoundTrip.RoundTrip: the address library is an abstract codec with a print/parse law for zone-free addresses of 32 or 128 bits, and headers with invalid UTF-8 bytes are not modelled.
- CIDR arithmetic: the trusted networks are an arbitrary predicate on unmapped addresses; the deprecated `FromRequest` path is not modelled.
- SHA-256 is an arbitrary function; migration SQL that ends its own transaction is not modelled.
- `schema.Capture`, JSON encoding and decoding of snapshots, and the tables ignored at capture.
- HTTP serving, middleware and signal handling in `Engine.Run` beyond an arbitrary cancel, server result and shutdown result.
- EngineSetup.WaitForWorkers: the done channels are closing times and each look at a channel has its own time; the interleaved form of the same loops is part of the EngineRun machine.
- Health check timeouts, panics and error texts are results that are not ok; metrics and logs are not modelled.
- Logging, spans and metrics everywhere, except the status a worker reports for each claim.
- `secrets`, `mail`, `telemetry`, `config`, `id`, `httpx` beyond client addresses, `cmd`, `testutil`: they would only add easy members.
