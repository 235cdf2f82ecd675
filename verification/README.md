# Verified model of the ASTP execution core

This project models the parts of ASTP that decide whether, when and how often a target may be
touched, and proves what they promise over every input, every interleaving and every crash point.

* **Accounted execution.** A signed permit fixes a request ceiling, a concurrency ceiling and a rate.
  Concurrent proxy handlers reserve and forward requests through a durable SQLite ledger
  (`ProxyLedger`, `ProxyProtocol`, `CountingProxy`). The process may die between any two steps and
  restart on the same ledger. `ProxySafety`, `ProxyRate` and `ProxyWindow` prove the ceilings, the
  write-ahead rule and the rate bound, `ProxyLifetimes` what the rate bound leaves across restarts,
  `ProxyDeadEnds` where a proxy gets stuck, `ProxyWitness` where guarantees end. `DetectorAccounting`
  is the adapter's reading of the ledger, `LedgerTail` what a reading can miss while the proxy is still
  serving, `LiveReading` exactly when it can miss anything, `DetectorExecution` and `DetectorRuns` the
  service with its budget reservations, and `DetectorOutcomes` composes them: permit, run, reading, rest
  of the run, settlement, retry.
* **Hash-linked logs and permits.** `HashChain` is the one shape of the audit log, the evidence
  manifest and the execution trace; `ChainWriters` adds concurrent writers; `PermitLifecycle` is the
  unlocked look followed by the locked check of single-use permits.
* **Night scheduler.** `NightScheduler` (the object), `NightRuns` (every sequence of operations),
  `NightCrashes` (a round interrupted anywhere, with other operations in between) and
  `NightRedispatch` (exactly when a work is launched twice).
* **Authorization.** `Authorization` is the early-return waterfall, `AuthorizationLaws` the declarative
  conjunction it refines and how the answer moves when inputs change.
* **Autonomous runner.** `AutonomousRunner`: the persisted status machine and its session loop.
* **Loops with exact specifications.** `RoundRobin` and `CapabilityScheduler`, `RedirectLoop`, and
  `Findings` on top of `Listings` and `Ordering`.

Objects that change their fields are classes whose methods are proved against functions on values
(`AfterAdmit`, `AfterComplete`, `Settle`, ...). Histories are sequences of events; a run is any sequence
whose every event is enabled when it happens. History fields (`ioBegun`, `commits`, `launches`, ...)
are written by steps and read by none.

## Assumptions

* A permit's limits are a function of its permit and run id (`Law`): the permit is signed.
* SQLite transactions and sections under a held file lock are single steps. The audit log's and the
  permit store's lock is advisory and ends with its process. The evidence manifest's lock is a file
  that outlives a dead holder; in `ChainWriters` such a holder is one that is never released, so later
  writers wait, and the log is safe either way. Atomic file replacement either happens or does not. An
  append to a log is taken as all or nothing: a torn last line is outside the model.
* Digests are injective where a result needs it (`LastHashDeterminesLog`, `TipDeterminesLog`,
  `TamperingIsSeen`, and run ids in `DetectorExecution`). Proxy request ids are *not* assumed unique:
  a repeated id fails the primary-key insert, as in the code.
* Within one proxy lifetime the clock does not go back, and it starts at or above zero.
* Signature checks, scope-rule matching, URL splitting and joining, text normalization, Codex output
  scanning, git heads and the ownership check are parameters of the model.

## Model

| member | source | states |
|---|---|---|
| ProxyLedger.ProxyAccounting.Admit | src/astp/counting_proxy.py:89-142 | one transaction decides and writes; it answers by the first exhausted ceiling, refuses a repeated id without a write, and never takes any owner past its permit |
| ProxyLedger.ProxyAccounting.MarkForwarding | src/astp/counting_proxy.py:144-153 | succeeds exactly on a durably reserved row and changes nothing else |
| ProxyLedger.ProxyAccounting.Finish | src/astp/counting_proxy.py:155-176 | closes an existing row whatever its state; a missing row is left missing |
| ProxyLedger.ProxyAccounting.Start | src/astp/counting_proxy.py:60-87 | inserts only a new id; an existing row survives |
| ProxyLedger.PutBounded | src/astp/counting_proxy.py:102-123 | the only write that can break a bound is one that takes a slot at the ceiling |
| ProxyLedger.AdmitBounded | src/astp/counting_proxy.py:102-141 | admission keeps every owner of a shared ledger within its own permit, not only the caller |
| ProxyLedger.SummaryReconciles | src/astp/counting_proxy.py:178-200 | conservation: attempted = forwarded + blocked and forwarded = responses + failed + unknown, for every table |
| ProxySafety.StepKeepsLedgerSafe | src/astp/counting_proxy.py:239-408 | every handler step, crash and restart keeps ceilings, row ownership, write-ahead and single finishing |
| ProxySafety.CeilingsHold | src/astp/counting_proxy.py:89-142 | in every reachable state no owner exceeds max_requests occupying rows or max_concurrency active rows |
| ProxySafety.IoIsWrittenAhead | src/astp/counting_proxy.py:319-345 | target I/O that began has a durable row that is forwarding, answered or failed, at every crash point |
| ProxySafety.NothingForwardedMeansNoIo | src/astp/counting_proxy.py:319-345 | a ledger with nothing forwarded proves the target was never contacted |
| ProxySafety.EachRequestFinishedOnce | src/astp/counting_proxy.py:367-408 | no request is finished twice in any run, and a finished row stays finished |
| ProxySafety.StepMovesRowsForward | src/astp/counting_proxy.py:144-176 | rows are never deleted or re-owned and only move forward along the row states |
| ProxySafety.StrandedRowIsStuck | src/astp/counting_proxy.py:393-398 | a row abandoned by a non-OSError stays forwarding through every continuation and keeps its slots |
| ProxyDeadEnds.OpenCircuitStaysOpen | src/astp/counting_proxy.py:281-283 | three failures with no answer outstanding close the proxy until it is restarted: nothing is admitted, committed or contacted |
| ProxyDeadEnds.FinishesIffOwned | src/astp/counting_proxy.py:393-398 | a forwarding row is closed in some continuation, restarts included, exactly when a live handler still owns it |
| ProxyDeadEnds.StrandedRowsEndAdmission | src/astp/counting_proxy.py:111-123 | max_concurrency stranded rows of a permit end admission under it in every continuation |
| ProxyRate.AdmittedSlotIsFree | src/astp/counting_proxy.py:111-123 | whenever admission grants, one of max_concurrency numbered slots is free |
| ProxyRate.ReadDelayWakesLate | src/astp/counting_proxy.py:314-318 | a handler that goes to sleep wakes a full interval after every commit of its slot |
| ProxyRate.MarkStaysSpaced | src/astp/counting_proxy.py:319-323 | a new commit is a full interval after every earlier commit of its slot and lifetime |
| ProxyRate.FinishReleasesStamped | src/astp/counting_proxy.py:322-323 | a slot is given back only after last_forwarded covers its commit |
| ProxyRate.RunPaced | src/astp/counting_proxy.py:295-408 | slot disjointness and spacing hold in every reachable state |
| ProxyWindow.RateBound | src/astp/counting_proxy.py:313-323 | in every run, a window of length W in one lifetime holds at most max_concurrency * (floor(W * max_rps) + 1) commits |
| ProxyWindow.LifetimeHasOneOwner | src/astp/counting_proxy.py:216-230 | all commits of one lifetime belong to one permit, so the bound is that permit's |
| ProxyWindow.DisjointRequestsAreSpaced | src/astp/counting_proxy.py:313-323 | a request whose row appears after another was committed and finished commits at least 1/max_rps later, whatever interleaves |
| ProxyLifetimes.RateBoundAcrossRestarts | src/astp/counting_proxy.py:313-323 | a window a permit's commits touch in k processes holds at most k * max_concurrency * (floor(W * max_rps) + 1) of them |
| ProxyLifetimes.OneLifetimeIsBounded | src/astp/counting_proxy.py:216-230 | each process contributes at most its own window's bound, or nothing when it serves another permit |
| ProxyWitness.RestartForgetsPacing | src/astp/counting_proxy.py:229-230 | pacing is volatile: for every permit with room for two, a run in which two lifetimes commit at one instant |
| ProxyWitness.CommitIdsDiffer | src/astp/counting_proxy.py:144-153 | no request commits twice in any run |
| ProxyWitness.TwoCommitsNeedRoom | src/astp/counting_proxy.py:102-123 | two commits of one permit in any run, at any times, need max_requests of two and max_concurrency of one |
| ProxyWitness.RestartForgetsPacingExactly | src/astp/counting_proxy.py:216-230 | some run commits at one instant across a restart exactly for the permits with that room |
| ProxyWitness.OccupiedNeedsRoom | src/astp/counting_proxy.py:102-123 | a row that was ever admitted, in any run, belongs to a permit with room for one request |
| ProxyWitness.CommitAfterReading | src/astp/counting_proxy.py:313-344 | for every permit with room for one, a reserved request that commits and opens its connection later in the same process |
| CountingProxy.ReachableIsSafe | src/astp/counting_proxy.py:203-408 | every state a proxy object can record satisfies the ledger's safety invariant |
| CountingProxy.Proxy.constructor | src/astp/counting_proxy.py:224-231 | a new process keeps the rows and forgets the pacing and the circuit count |
| CountingProxy.Proxy.Authorize | src/astp/counting_proxy.py:239-293 | granted exactly when gates pass, fewer than three failures stand and the ledger admits; any refusal leaves at most one blocked row |
| CountingProxy.Proxy.Delay | src/astp/counting_proxy.py:314-318 | on return the clock is at least one interval past the last forwarded request |
| CountingProxy.Proxy.Commit | src/astp/counting_proxy.py:319-344 | the boundary is durable and stamped before the connection opens |
| CountingProxy.Proxy.Fail | src/astp/counting_proxy.py:393-398 | the except clause counts one circuit failure and closes the row as failed after I/O |
| CountingProxy.Proxy.Exchange | src/astp/counting_proxy.py:344-408 | an answer closes the row and resets the circuit, an OSError closes it as failed, any other exception leaves it forwarding |
| CountingProxy.Proxy.ForwardAdmitted | src/astp/counting_proxy.py:313-408 | which reply, final row state and circuit count each outcome gives |
| CountingProxy.Proxy.Forward | src/astp/counting_proxy.py:295-408 | one request in program order is one run of the protocol; exactly when each reply is given, the durable row it stands for, and every other row untouched |
| DetectorAccounting.TwoReadingsOfOneLedger | src/astp/docker_detector_adapter.py:505-527 | summary and adapter agree on everything forwarded and differ in blocked and attempted by exactly the leftover reservations |
| DetectorAccounting.LedgerAlwaysValidates | src/astp/detector_execution.py:46-52 | when the permit carries the ceiling, no reachable ledger can make the invariant check raise, and its consumption fits the reservation |
| DetectorAccounting.RetryNeverFollowsIo | src/astp/m53_chaos.py:266-272 | a recovery that chooses retry never follows a run that touched the target, wherever it died |
| DetectorAccounting.AllAnsweredMeansNoOpenIo | src/astp/docker_detector_adapter.py:513-517 | when forwarded = responses, every contact with the target has its durable response |
| LedgerTail.ForwardedCountsCrossings | src/astp/counting_proxy.py:144-176 | conservation: any run from any safe state adds to the forwarded count exactly its commits and the failure closes of handlers whose rate delay failed |
| LedgerTail.ReadingCountsCrossings | src/astp/docker_detector_adapter.py:505-527 | what the adapter reads as forwarded is the number of those events since the ledger was created |
| LedgerTail.ReadingMissesTheTail | src/astp/docker_detector_adapter.py:354-385 | the final ledger shows the reading plus what crossed after it; the reading covers it exactly when nothing did |
| LedgerTail.AnsweredReadingStaysAnswered | src/astp/docker_detector_adapter.py:382-395 | a fully answered reading after which nothing crosses leaves no contact without its durable response |
| LedgerTail.RemovedProxyIsFinal | src/astp/docker_detector_adapter.py:326-332 | a removed proxy that is not started again changes neither ledger nor contacts |
| LedgerTail.RetryAfterRemovalNeverFollowsIo | src/astp/m53_chaos.py:232-272 | a recovery that reads a dead proxy's ledger and retries meets no contact, then or later |
| LiveReading.TailCrossesIffItCan | src/astp/counting_proxy.py:239-398 | at a state with no handler past its commit, some continuation of the process crosses the boundary exactly when a reservation is still held, or the process is up with room for a request and the circuit, or a request already past it, lets one through |
| LiveReading.QuietForever | src/astp/counting_proxy.py:239-398 | when that fails, it fails after every continuation and nothing crosses in any |
| LiveReading.StepStaysQuiet | src/astp/counting_proxy.py:239-398 | no single step can restore it |
| DetectorAccounting.ConsolidateTotals | src/astp/m53_chaos.py:290-299 | campaign totals are the sums over ledgers; attempted exceeds forwarded + blocked by exactly the leftover reservations |
| DetectorExecution.NoBlockersIffMayLaunch | src/astp/detector_execution.py:310-346 | the accumulated blocker list is empty exactly for the order-free launch condition |
| DetectorExecution.DetectorBudgetStore.Reserve | src/astp/detector_execution.py:185-202 | a reservation opens once per run id and never above the least remaining budget |
| DetectorExecution.DetectorBudgetStore.CloseAs | src/astp/detector_execution.py:204-228 | only an open reservation closes, once, and never for more than it holds |
| DetectorExecution.DetectorBudgetStore.Reconcile | src/astp/detector_execution.py:204-214 | the closing that commits |
| DetectorExecution.DetectorBudgetStore.CloseFailed | src/astp/detector_execution.py:216-228 | the closing that fails or leaves the outcome unknown |
| DetectorExecution.DetectorExecutionService.Execute | src/astp/detector_execution.py:293-539 | gate-blocked calls leave no trace; a second call for a key raises before any launch; a served call leaves one settled reservation and at most one launch |
| DetectorExecution.DetectorExecutionService.Close | src/astp/detector_execution.py:452-539 | the try block settles the budget and persists the result as the settlement says, or raises with the reservation still open |
| DetectorRuns.AdapterRunsAtMostOnce | src/astp/detector_execution.py:297-309 | under every interleaving and death of calls the adapter is launched at most once per key, and only under a reservation |
| DetectorRuns.ReservationsCloseOnce | src/astp/detector_execution.py:185-228 | a reservation leaves its open state exactly once and never for more than it holds |
| DetectorRuns.SpentKeyStaysSpent | src/astp/detector_execution.py:378-417 | after its call returned or died a key is never launched again and its reservation never changes |
| DetectorOutcomes.EndToEnd | src/astp/docker_detector_adapter.py:354-468 | for every run up to the reading and every continuation until the proxy is gone: closing never raises, the final ledger fits the reservation and exceeds the reading by exactly what crossed afterwards, and a retryable settlement after which nothing crossed leaves every contact answered |
| DetectorOutcomes.ConsumptionIsExact | src/astp/detector_execution.py:452-539 | for every ending and run, recorded consumption is what the proxy leaves behind exactly when nothing crossed after the reading and, for an ending that records zero, nothing crossed before it either |
| DetectorOutcomes.SetupFailureIsExact | src/astp/docker_detector_adapter.py:157-243 | a setup failure, with no request arrived yet, records the zero the proxy leaves behind, and nothing was contacted |
| DetectorOutcomes.RetryableMeansAnswered | src/astp/docker_detector_adapter.py:354-415 | a retryable timeout or exit comes from a reading with every forwarded request answered |
| DetectorOutcomes.AnsweredReadingIsFinalIff | src/astp/docker_detector_adapter.py:354-395 | a settlement from such a reading is what the same process leaves behind in every continuation exactly when, at the reading, no reservation is held and no request could still get one |
| DetectorOutcomes.RemovedThenReadIsExact | src/astp/docker_detector_adapter.py:326-353 | removing the proxy first makes recorded consumption and accounting final |
| DetectorOutcomes.RetryableTimeoutIsUnsafeIff | src/astp/docker_detector_adapter.py:354-365 | some run under a permit has a retryable timeout after which the same proxy leaves an unanswered contact exactly when the permit has room for one request |
| DetectorOutcomes.WholeRun | src/astp/docker_detector_adapter.py:464-468 | the run and its continuation are one run under the same permit |
| DetectorOutcomes.WorkerSettles | src/astp/docker_detector_adapter.py:354-415 | each worker ending settles within the ceiling, and only an accepted exit without unknown outcomes completes |
| DetectorOutcomes.RetryableIsAnsweredUnlessFault | src/astp/docker_detector_adapter.py:320-325 | over every run, a retryable result has every request it reports answered, except exactly in the acceptance-fault branch on an unanswered request |
| DetectorOutcomes.FaultBranchRetriesOpenRequest | src/astp/docker_detector_adapter.py:320-325 | that exception has a run, for every permit with room for one request |
| DetectorOutcomes.UntypedFailureForgetsConsumption | src/astp/detector_execution.py:519-535 | for every permit with room for one, a run that forwarded a request and whose untyped failure records none |
| HashChain.VerdictIsUnique | src/astp/lifecycle.py:276-291 | a log has exactly one verdict: intact, or one first faulty record and its fault |
| HashChain.AppendKeepsVerdict | src/astp/lifecycle.py:243-273 | appending changes no verdict: intact logs stay intact, broken ones stay broken at the same record |
| HashChain.LastHashDeterminesLog | src/astp/lifecycle.py:276-291 | two verified logs with the same last hash are equal record by record, whatever their lengths |
| HashChain.TipDeterminesLog | src/astp/execution_trace.py:66-80 | the same with the genesis link for empty logs |
| HashChain.TamperingIsSeen | src/astp/evidence_store.py:150-170 | any other log that ends in the same hash fails verification |
| HashChain.Chain.Append | src/astp/evidence_store.py:122-147 | the new record continues sequence and link of the last one; a verified log stays verified |
| HashChain.Chain.Verify | src/astp/evidence_store.py:150-170 | the loop returns the first faulty record and the first of its faults in check order |
| ChainWriters.LockedAppendsKeepLogValid | src/astp/lifecycle.py:251-273 | locked appends by any writers, dying anywhere, keep the verdict, every earlier record and every completed write |
| ChainWriters.UnlockedAppendsExact | src/astp/execution_trace.py:29-80 | an unlocked run from a verified log leaves it verified exactly when no write falls between a writer's read and its write |
| ChainWriters.WriteFits | src/astp/execution_trace.py:45-63 | one unlocked write keeps a verified log verified exactly when nothing was written since its read |
| ChainWriters.DraftOrigin | src/astp/execution_trace.py:42-58 | a draft holds the sequence and link of the log as its writer read it |
| ChainWriters.UnlockedAppendsCollide | src/astp/execution_trace.py:40-63 | without a lock two writers that read one tail leave a log broken right after the first of their records |
| PermitLifecycle.PermitStore.Revoke | src/astp/lifecycle.py:121-141 | refused exactly for a consumed permit; revoking again is accepted |
| PermitLifecycle.PermitStore.ConsumeState | src/astp/lifecycle.py:144-164 | succeeds exactly on an available permit and names why it refused |
| PermitLifecycle.PermitStore.Consume | src/astp/lifecycle.py:167-222 | accepted exactly when available and verified; an unverified permit is not consumed |
| PermitLifecycle.FinalStatusIsAbsorbing | src/astp/lifecycle.py:121-164 | consumed and revoked never change under any interleaving |
| PermitLifecycle.ConsumedAtMostOnce | src/astp/lifecycle.py:167-222 | a consumption is written and reported at most once although the first look is unlocked |
| PermitLifecycle.AcceptedAndRevokedExclude | src/astp/lifecycle.py:121-222 | no permit has both a consumption and a reported revocation, in either order |
| PermitLifecycle.RejectionsAreTruthful | src/astp/lifecycle.py:209-216 | a rejected consumer is told the final status even when it lost the race; a refused revoker lost to a written consumption |
| NightScheduler.SelectionIsExact | src/astp/m53_night_scheduler.py:100-123 | a round selects exactly the eligible programs, each once, least recently scheduled first, ties by rank then name |
| NightScheduler.DurableNightScheduler.constructor | src/astp/m53_night_scheduler.py:62-73 | a new campaign drains after eight hours |
| NightScheduler.DurableNightScheduler.Advance | src/astp/m53_night_scheduler.py:87-98 | refused when the clock would go back; otherwise the round moves on and draining is recomputed |
| NightScheduler.DurableNightScheduler.Select | src/astp/m53_night_scheduler.py:100-123 | returns the heads of the selected programs and stamps exactly those with the round |
| NightScheduler.DurableNightScheduler.Complete | src/astp/m53_night_scheduler.py:125-140 | succeeds exactly when the work is its program's head; a failure leaves the state file alone |
| NightScheduler.DurableNightScheduler.RateLimit | src/astp/m53_night_scheduler.py:165-175 | the backoff is the reported time and replaces any earlier one |
| NightScheduler.DurableNightScheduler.ReplaceRevision | src/astp/m53_night_scheduler.py:186-206 | revision, lease and every pending binding change together |
| NightScheduler.DurableNightScheduler.SetReady | src/astp/m53_night_scheduler.py:208-224 | pending works are rebound exactly when a lease is given |
| NightScheduler.DurableNightScheduler.ReplaceLease | src/astp/m53_night_scheduler.py:226-242 | every pending work is bound to the new lease, revisions untouched |
| NightScheduler.DurableNightScheduler.DispatchRound | src/astp/m53_night_scheduler.py:142-163 | fails only at the first mismatching outcome with every earlier one ingested; otherwise each selected program completes exactly its head and the outcomes are returned in selection order |
| NightRuns.EveryStepIsAllowed | src/astp/m53_night_scheduler.py:87-242 | no operation loses, repeats or reorders work, revives an exhausted program or leaves a stale binding |
| NightRuns.IngestedIsFirstMismatch | src/astp/m53_night_scheduler.py:146-162 | the number of works a round ingests is the position of the first mismatching outcome |
| NightRuns.WorkIsConserved | src/astp/m53_night_scheduler.py:100-242 | completed ++ ids(pending) of each program is the same sequence after every run; bindings stay current; exhaustion is absorbing |
| NightRuns.NothingCompletesTwice | src/astp/m53_night_scheduler.py:125-140 | a program given distinct works never completes one twice |
| NightRuns.DrainingIsAbsorbing | src/astp/m53_night_scheduler.py:87-103 | past the deadline nothing is ever selected again |
| NightRuns.SelectionsAreSafe | src/astp/m53_night_scheduler.py:105-117 | in every run a selected work fits before the original deadline and its program is ready, leased, current, not exhausted and past its backoff |
| NightRuns.StepSetsBackoff | src/astp/m53_night_scheduler.py:159-175 | a program's backoff changes exactly when a Retry-After is imposed on it, directly or through an ingested outcome, to the time asked for |
| NightRuns.RetryAfterIsHonoured | src/astp/m53_night_scheduler.py:159-175 | after either kind of Retry-After and until the next one for that program, whatever else happens, it is not selected before the time asked for |
| NightRuns.LaterRetryAfterReplacesEarlier | src/astp/m53_night_scheduler.py:159-175 | with any operations in between, the earlier deadline survives a second Retry-After exactly when the time that passed plus the second delay reaches the first delay |
| NightRuns.NoProgressIsBounded | src/astp/m53_night_scheduler.py:132-136 | while rounds do the completing, the no-progress counter never exceeds two and stands at two only when exhausted |
| NightRuns.RoundsAreBounded | src/astp/m53_night_scheduler.py:142-163 | rounds that ingest anything, plus the works still waiting, never exceed the works waiting at the start |
| NightCrashes.LaunchesAreAccountedFor | src/astp/m53_night_scheduler.py:142-163 | every launch is one completion, in flight, or lost to an interruption that loses at most one; no ingestion finds its work superseded |
| NightCrashes.CrashRedispatches | src/astp/m53_night_scheduler.py:144-161 | a crash between launch and completion leaves the launched program selected again with that same work at its head |
| NightRedispatch.RunIsTallied | src/astp/m53_night_scheduler.py:142-163 | over every interrupted run a program has completed exactly its uninterrupted launches, and each launch handed out the work the program had reached |
| NightRedispatch.LaunchedTwiceIffStruck | src/astp/m53_night_scheduler.py:142-163 | some work is launched twice exactly when an interruption hit a launch in flight and its program was launched again |
| NightRedispatch.SameIdSameWork | src/astp/m53_night_scheduler.py:142-163 | with different work ids, launching an id twice is launching a work twice |
| Authorization.ValidApprovalsExact | src/astp/authorization.py:116-125 | the valid approvals are exactly the matching ones |
| Authorization.Minimum | src/astp/authorization.py:420-436 | the effective rate is one of the limits and no greater than any |
| Authorization.CheckAssets | src/astp/authorization.py:141-221 | the nested early returns decide by the first objecting constraint |
| Authorization.CheckOperational | src/astp/authorization.py:224-342 | passes exactly when every recorded operational check passed |
| Authorization.AuthorizeTest | src/astp/authorization.py:439-619 | ALLOW exactly when every recorded check passed; the last check speaks for the decision; the effective rate is the least applicable limit and comes with the ids of exactly the valid approvals; missing context is reported only with its decision |
| Authorization.FinishAuthorization | src/astp/authorization.py:522-619 | context, risk and rate gates keep that equivalence |
| AuthorizationLaws.AllowIsExact | src/astp/authorization.py:439-619 | ALLOW exactly when an order-free conjunction of seven conditions holds |
| AuthorizationLaws.ExclusionGateExact | src/astp/authorization.py:345-417 | the four exclusion checks amount to: nothing matched and exactly the known ids cleared |
| AuthorizationLaws.AssetGateExact | src/astp/authorization.py:141-221 | the asset loop passes exactly when every matching constraint is satisfied |
| AuthorizationLaws.OperationalGateExact | src/astp/authorization.py:224-342 | the operational gate passes exactly for a bound, current ONLINE attestation or a valid lease on a stale one |
| AuthorizationLaws.RateGateExact | src/astp/authorization.py:583-587 | with a requested rate, approvals drop out of the rate condition |
| AuthorizationLaws.MoreApprovalsNeverHurt | src/astp/authorization.py:92-125 | adding approvals never takes an ALLOW away and can only lower the effective rate |
| AuthorizationLaws.MoreConstraintsNeverHelp | src/astp/authorization.py:128-221 | adding denied rules or asset constraints never creates an ALLOW |
| AuthorizationLaws.AssetOrderIsIrrelevantToAllow | src/astp/authorization.py:128-221 | permuting asset constraints changes neither ALLOW nor the effective rate |
| AuthorizationLaws.AssetOrderChangesRefusal | src/astp/authorization.py:128-221 | some order of the same constraints changes the decision exactly when scope, operational and exclusion gates pass and one matching constraint denies while another lacks context |
| AuthorizationLaws.AssetOrderWitness | src/astp/authorization.py:141-212 | one request refused as INSUFFICIENT_CONTEXT in one order and DENY in the other |
| AuthorizationLaws.AddedExclusionOpensGate | src/astp/authorization.py:369-380 | adding an exclusion opens the exclusion gate exactly when the clearances already named it |
| AuthorizationLaws.AddedExclusionAllows | src/astp/authorization.py:345-417 | it turns a refusal into ALLOW exactly then, with every other condition of ALLOW already met |
| AuthorizationLaws.AddedExclusionWitness | src/astp/authorization.py:369-380 | one request refused under one exclusion and allowed under two |
| AutonomousRunner.ProtocolIsFailClosed | scripts/autonomous-dev/autonomous_dev.py:362-384 | completion and continuation need one known marker, clean metadata and exit 0; waiting needs an explicit usage limit |
| AutonomousRunner.MilestonesOnlyGrow | scripts/autonomous-dev/autonomous_dev.py:626-661 | over every history milestones never fall, and milestone and recorded head change only after a validated completion |
| AutonomousRunner.TerminalStatesStay | scripts/autonomous-dev/autonomous_dev.py:39-41 | HUMAN_GATE and COMPLETE are terminal with milestone and head |
| AutonomousRunner.NinthMilestoneIsGated | scripts/autonomous-dev/autonomous_dev.py:642-652 | from the first M9 state on the milestone stays M9 and no state is ready or running |
| AutonomousRunner.StrandedRunsChangeNothing | scripts/autonomous-dev/autonomous_dev.py:554-576 | while the head is unchanged, a state left VALIDATING or RECOVERING is what every later sequence of runs ends in |
| AutonomousRunner.StrandedIff | scripts/autonomous-dev/autonomous_dev.py:545-576 | under an unchanged head no sequence of runs changes the state file exactly when the status is none of READY, WAITING_FOR_RESET and RUNNING |
| AutonomousRunner.Runner.Transition | scripts/autonomous-dev/autonomous_dev.py:213-221 | succeeds exactly along an edge of the table, whatever the milestone; a refusal writes nothing; the history stays sound exactly when the new state is |
| AutonomousRunner.Runner.StartCodex | scripts/autonomous-dev/autonomous_dev.py:583-599 | Codex starts from READY or WAITING_FOR_RESET, at the recorded head, and the start is counted |
| AutonomousRunner.Runner.Conclude | scripts/autonomous-dev/autonomous_dev.py:600-707 | the run ends in the status the verdict demands, through edges of the table |
| AutonomousRunner.Runner.Invoke | scripts/autonomous-dev/autonomous_dev.py:583-713 | records one Codex start at the recorded head and ends in the status the verdict demands |
| AutonomousRunner.Runner.Validate | scripts/autonomous-dev/autonomous_dev.py:626-682 | only a passed validation moves head or milestone; M8 goes to M9 with HUMAN_GATE |
| AutonomousRunner.Runner.RunOnce | scripts/autonomous-dev/autonomous_dev.py:532-715 | which inputs raise, and then write nothing; which reach Codex; the whole state left; and that the milestone grows by one exactly through a clean, validated completion in this run |
| AutonomousRunner.Runner.RunContinuous | scripts/autonomous-dev/autonomous_dev.py:718-832 | bounded invocations, bounded no-progress streaks, no illegal transition, every write of the session is an edge of the table, a session that leaves the runner ready hit its ceiling or an explicit recoverable block, and one on a stranded runner starts and changes nothing |
| AutonomousRunner.NoLongStallMeaning | scripts/autonomous-dev/autonomous_dev.py:794-824 | any limit + 1 consecutive iterations contain progress |
| RoundRobin.FairPrefixIsUnique | src/astp/fair_scheduler.py:22-26 | items sorted by (position in own queue, queue) have one prefix of each length |
| RoundRobin.FairOutputIsUnique | src/astp/capability_scheduler.py:22-26 | the queues alone decide the complete output |
| RoundRobin.TakesQueuePrefix | src/astp/fair_scheduler.py:22-26 | every prefix takes exactly the first items of each queue, none lost, repeated or reordered |
| RoundRobin.FairWithinOne | src/astp/fair_scheduler.py:22-26 | in every prefix no queue leads a non-exhausted one by more than one |
| RoundRobin.ScheduleFairSessions | src/astp/fair_scheduler.py:15-27 | the deque loop outputs that prefix, cut at max_items or complete; it raises exactly below one |
| RoundRobin.StepPartition | src/astp/fair_scheduler.py:22-26 | one turn keeps every item output or waiting, and output before waiting |
| CapabilityScheduler.RoundRobinCapabilities | src/astp/capability_scheduler.py:16-26 | buckets by capability in name order are drained in the same fair order; every job is scheduled exactly as often as given |
| CapabilityScheduler.ScheduleKeepsJobs | src/astp/capability_scheduler.py:16-26 | any such schedule is a permutation of the jobs with every bucket in id order |
| CapabilityScheduler.ScheduleIsPermutation | src/astp/capability_scheduler.py:22-25 | a complete fair order outputs every item with its multiplicity |
| CapabilityScheduler.Drain | src/astp/capability_scheduler.py:22-25 | the nested loops produce the complete fair order |
| CapabilityScheduler.FillBuckets | src/astp/capability_scheduler.py:17-21 | each bucket holds exactly its capability's jobs in order, and the keys are exactly the occurring capabilities |
| RedirectLoop.Observe | src/astp/field_http_observation.py:181-253 | the requests form the one complete run of the answers; status, headers, body and truncation flag are the last answer's, entries and hops the whole run's; a fault is the one that cut the run |
| RedirectLoop.Decide | src/astp/field_http_observation.py:219-242 | what one answer makes the loop do |
| RedirectLoop.RequestsStayHome | src/astp/field_http_observation.py:223-229 | at most max_redirects + 1 requests, all to the original origin; one request when redirects are off |
| RedirectLoop.RunIsUnique | src/astp/field_http_observation.py:189-242 | the answers alone decide which requests are sent |
| RedirectLoop.EntriesTellTheRun | src/astp/field_http_observation.py:230-242 | every entry before the last answer's was followed and names the next request |
| RedirectLoop.LastEntry | src/astp/field_http_observation.py:230-242 | at most one entry was not followed, it is the last, and its reason tells whether it left the origin |
| RedirectLoop.HopsAreTargetAnswers | src/astp/field_http_observation.py:203-218 | a recorded hop is a target answer to a request of the run, capped, without proxy headers |
| Findings.MergeMeaning | src/astp/findings.py:85-103 | a group keeps its first strongest claim, each signal key once from some row, none lost, and the sorted set of names |
| Findings.RemediationIsFirstUsable | src/astp/findings.py:92-97 | the first non-empty remediation, else the last row's |
| Findings.EachCandidateHasItsFinding | src/astp/findings.py:80-117 | every candidate is answered by a finding at least as strong, whose claim some candidate made |
| Findings.FindingsHaveDifferentKeys | src/astp/findings.py:84-84 | one finding per key, in key order |
| Findings.CorrelationIsUnique | src/astp/findings.py:73-117 | the groups alone decide keys, order and findings |
| Findings.MergedRowsMergeOn | src/astp/findings.py:84-115 | merging some rows early and the rest later gives the same group |
| Findings.CorrelationIsIncremental | src/astp/findings.py:73-117 | correlating earlier findings with new candidates equals correlating everything at once |
| Findings.CorrelationIsIdempotent | src/astp/findings.py:73-117 | correlating findings again changes only the time stamp |
| Findings.MergeRows | src/astp/findings.py:85-103 | the loop over one group computes the merge |
| Findings.CorrelateFindings | src/astp/findings.py:73-117 | the whole function yields exactly the correlated findings |

## Where the code differs from what one might expect

* Pacing and the circuit breaker are per process. The ceilings survive a restart, the rate does not
  (`RestartForgetsPacing`), for exactly the permits with room for two requests
  (`RestartForgetsPacingExactly`).
* A row left in `forwarding` by anything but an `OSError` never leaves it (`FinishesIffOwned`), and
  max_concurrency of them end admission under their permit (`StrandedRowsEndAdmission`).
* On a timeout or an ordinary exit the adapter reads the ledger while the proxy is still serving and
  removes the proxy afterwards. A retryable result can therefore be followed by a contact, under every
  permit with room for one request (`RetryableTimeoutIsUnsafeIff`). `AnsweredReadingIsFinalIff` says
  exactly what the state at the reading must be for the result to be final; the order remove-then-read,
  which one branch uses, always meets it (`RemovedThenReadIsExact`).
* `execute` records zero consumption on an untyped exception (`UntypedFailureForgetsConsumption`), and
  its budget stays open when a typed error reports more than was reserved (`SettlementIsFaithful`).
  `LedgerAlwaysValidates` shows the latter cannot come from a proxy ledger under the same permit.
* `dispatch_round` is documented as launching exactly once per decision. Over crashes it is at least
  once (`CrashRedispatches`), and `LaunchedTwiceIffStruck` says exactly when a work is launched twice.
* A runner that dies with VALIDATING or RECOVERING on disk is never taken up again while the head stays
  (`StrandedRunsChangeNothing`): each run raises and writes nothing.
* A later `Retry-After` may shorten a backoff (`LaterRetryAfterReplacesEarlier`).
* Adding a semantic exclusion can turn a refusal into ALLOW (`AddedExclusionAllows`), and reordering
  asset constraints can turn one refusal into another (`AssetOrderChangesRefusal`).
* A method policy of INSUFFICIENT_CONTEXT passes the risk gate: only DENY and APPROVAL_REQUIRED stop it.
* `run_once` called directly on a blocked, diverged repository raises on BLOCKED to BLOCKED;
  `run_continuous` never reaches that call.
* `append_trace_event` takes no lock. Writers that do not interleave keep the trace valid, and only they
  do (`UnlockedAppendsExact`).

## Left out

- Authorize: the permit signature, origin, path-prefix and method gates are one boolean of the environment, because URL and path library behaviour is not part of this model. The object runs one handler in program order; interleaved handlers are the protocol's.
- Forward: headers, bodies, byte counts, status, detail text and time stamps of ledger rows are not modelled; an out-of-scope redirect answer is an answered request like any other.
- Exchange: which status, body, redirect or Retry-After the target answered is not modelled; every answer is one event.
- Fail: `OSError` is modelled where the code can raise one (the sleep and everything after the stamp); an error inside a ledger transaction leaves the handler like any other exception.
- Execute: journal calls and result files always succeed; a failing persistence step after the budget was closed is not modelled. Run ids are not truncated digests but the key itself.
- Close: closing the budget is followed by result persistence that always succeeds, as in Execute.
- Classify: covers the Docker adapter's typed endings; the field HTTP adapter's own classification of transport errors is not part of it, nor are Docker commands and cleanup.
- RetryNeverFollowsIo: covers the retry field of the recovery; the per-point pass criteria are single comparisons.
- Append: a missing artifact file, which `register_evidence` refuses before reading the manifest, is the caller's condition here; parsing of log lines is not modelled.
- Consume: permit verification is a boolean of the environment; reasons and time stamps are omitted.
- Advance: time-zone checks on the clock are not modelled, and time is real numbers.
- DispatchRound: the scheduler's event log, `mark_retry` and `record_process_restart` only append events and are omitted; so is `apply_backoff_from_proxy_ledger`, a parser in front of `RateLimit`.
- AuthorizeTest: the four per-field check names of the asset gate are one gate name, messages and the attestation id and validity returned with the decision are omitted, and the HTTP method is taken already upper-cased.
- RunOnce: the lock is held; stale-lock recovery is a check followed by a rename and no mutual exclusion is claimed for it. Checkpointing owned work, prompts and logs always succeed.
- RunContinuous: progress fingerprints and the session clock are functions of the iteration; the single-run mode is `RunOnce`.
- RoundRobinCapabilities: returns the jobs in order, of which the source keeps the ids.
- Observe: header names are compared as given, and connection retries are inside the transport outcome; evidence persistence and redaction are not modelled.
- CorrelateFindings: finding ids are an uninterpreted digest of the key; confidence is carried along and decides nothing.
- The command line, browser companions, acceptance scripts, labs, report rendering, readiness and coverage records, coordinators, regex analyzers, fingerprinting and redaction: branch reads or plumbing without a property over runs.
