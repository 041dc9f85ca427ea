# Provider platform: verified model

A Dafny model of the provider platform's bundle pipeline, its event watcher and its pay ledger, with proofs of
what they promise over every run.

**The pipeline.** A bundle of channel operations is admitted, packed into a weighted priority slot, pulled by the
executor, submitted in one transaction with the rest of its slot, and confirmed by the verifier. On the way it may
expire, be retried, be dead-lettered or be admitted again. Several terminal status writes do not look at the row's
current status; they are right only because of where each bundle lives. That whole-system invariant, and what
follows from it over every interleaving of the handlers, is the main result. It holds for every run, whatever is
admitted: no bundle is ever in two places, and an active bundle is in one unless the run lost it, in ways that are
counted step by step.

- `Sequences`, `Bundles`, `Fees`, `Ttl`: entities, order-preserving filters, fee arithmetic, time to live.
- `SlotModel`, `SlotCapacity`, `Cascade`: one slot, how heavy it can get, and the displacement cascade, on values.
- `Pipeline`, `PipelineInvariant`, `Runs`: the step system (one step is what runs between two suspension points),
  its invariant, and what holds over whole runs.
- `Losses`, `Restart`: how a bundle comes to have an active row and no place. There are four ways: an admission that
  fails after its row write, SLOT_FULL, a PROCESSING write that fails, and a restart. For each there is the exact
  condition, and for the admission, SLOT_FULL and the restart there are runs that show it.
- `Repository`, `MempoolProcess`, `FailureHandling`, `Handlers`: the code that changes tables and slots in place.
  Each handler is proved to end in the state that an explicit run of the step system ends in, and every run keeps the
  invariant.
- `HandlerRuns`, `Outcomes`: those runs, and what each handler leads to, said of rows, transactions and slot contents
  alone: which answer of the network leads to which status, who is queued, who is left out.
- `Transactions`: the transaction built from a slot and the value it moves.

**The watcher.** `EventFetch` is one batched read; `Watcher` is the two-cursor protocol (a live cursor at the tip, a
bounded backfill behind it).

**The pay ledger.** `Escrow` is custodial sends, escrows and claims.

Where the code and its comments or obvious expectations differ, the model follows the code:

- admission writes the PENDING row first and persists the spends afterwards, so a spend of a UTXO that this provider
  never recorded is refused to the submitter and yet leaves a row that is nowhere, keeps the id in use, and is queued
  by the next restart (`Losses.ForeignSpendIsStranded`, `Losses.ForeignSpendIsRevived`);
- admission does not check that a bundle fits an empty slot (`Losses.FittingIsNeeded`);
- replacing the lowest-priority bundle of a slot does not check the capacity again, so a slot can weigh more than its
  capacity (`SlotCapacity.AddOverflowsExactlyWhen`);
- slots are partitioned by channel only, although a comment in the executor speaks of channel and provider;
- re-hydration after a restart skips every PROCESSING row that has any transaction, even a failed one, so a bundle
  admitted again after a failed transaction is stranded by a restart (`Restart.RestartStrands`);
- a fee ignores spends as soon as a bundle deposits anything, so a transaction balances exactly when no bundle mixes
  the two (`Transactions.BalancedExactlyWhen`);
- one malformed event of a watched contract holds the live cursor for good (`Watcher.MalformedHoldsLive`);
- claiming custodial escrows for an address that no account has credits nobody
  (`Escrow.ClaimConservesExactlyWhen`).

## Model

| member | source | states |
|---|---|---|
| `Fees.ClassificationPermutes` | src/core/service/bundle/bundle.service.ts:26-50 | classifying operations loses, repeats and misfiles none of them |
| `Fees.UnreportedSpends` | src/core/service/bundle/bundle.service.ts:101-113 | spends of UTXOs whose balance the network does not report count as nothing |
| `Bundles.WeightIsSumOfOperations` | src/core/service/bundle/bundle.service.ts:298-312 | a bundle weighs what its operations weigh one by one, spends and withdrawals at the expensive weight |
| `Ttl.TtlIsGreatestSafe` | src/core/service/bundle/bundle.service.ts:234-255 | the TTL is the greatest time no later than 24 hours from now and than every finite spend-signature expiry at 5 s per ledger |
| `Ttl.TtlInNumbers` | src/core/service/bundle/bundle.service.ts:234-255 | a signature twelve ledgers ahead gives one minute, no signature 86,400,000 ms |
| `Ttl.CalculateBundleTtl` | src/core/service/bundle/bundle.service.ts:234-255 | the loop over spends computes that TTL; the default applies when operations or ledger are missing |
| `SlotModel.StableSortIsStable` | src/core/service/mempool/mempool.service.ts:37-47 | sorting by descending priority is a permutation that keeps the order of equal priorities |
| `SlotModel.AddConserves` | src/core/service/mempool/mempool.process.ts:227-261 | whatever an add does, slot plus handed-back bundle is the old slot plus the offered bundle |
| `SlotModel.AddKeepsSlot` | src/core/service/mempool/mempool.process.ts:227-261 | an add keeps the slot sorted, its running weight exact and its channel; nothing is handed back exactly when the bundle fits |
| `SlotModel.AddHandsBackTheWorst` | src/core/service/mempool/mempool.process.ts:240-257 | the bundle handed back is the offered one or strictly worse than it, and no better than anything left in the slot |
| `SlotModel.RemoveFirstKeepsSlot` | src/core/service/mempool/mempool.process.ts:279-291 | removing the first bundle keeps the slot well formed and takes out exactly one bundle, of highest priority, or nothing from an empty slot |
| `SlotModel.RemoveBundleKeepsSlot` | src/core/service/mempool/mempool.process.ts:325-338 | removing by id keeps the slot well formed and takes out exactly one bundle with that id, when there is one |
| `SlotCapacity.SlotInvariant` | src/core/service/mempool/mempool.process.ts:205-339 | after any mix of adds and removals the slot is sorted, its weight is the sum of its bundles, and count * wmin <= capacity |
| `SlotCapacity.SlotWeightBound` | src/core/service/mempool/mempool.process.ts:205-339 | hence weight <= floor(capacity / wmin) * wmax, and <= capacity when all weights agree |
| `SlotCapacity.AddOverflowsExactlyWhen` | src/core/service/mempool/mempool.process.ts:246-256 | a slot within capacity is pushed over it exactly when the offered bundle displaces one it outweighs by more than the free room |
| `SlotCapacity.CapacityIsExceeded` | src/core/service/mempool/mempool.process.ts:246-256 | three adds of bundles that each fit bring a slot of capacity 10 to weight 16 |
| `Cascade.CascadeConserves` | src/core/service/mempool/mempool.process.ts:431-497 | a successful add turns the mempool's contents M into M + {new}; SLOT_FULL is raised exactly when the bundle carried last outweighs an empty slot, and then that bundle alone is missing; no slot is left empty |
| `Cascade.CascadeSucceeds` | src/core/service/mempool/mempool.process.ts:465-497 | when every bundle fits an empty slot the add never fails |
| `Cascade.SpillDominance` | src/core/service/mempool/mempool.process.ts:435-469 | the bundle left over by the scan is the new one or strictly worse, and no better than any bundle of any slot of its channel |
| `Cascade.OtherChannelsUntouched` | src/core/service/mempool/mempool.process.ts:435-437 | the scan changes no slot of another channel and no slot's channel |
| `Cascade.FirstTakerTakes` | src/core/service/mempool/mempool.process.ts:431-463 | the first slot of the channel with room or a worse bundle takes the new one, and no slot before it changes |
| `Cascade.NoTakerLeavesAll` | src/core/service/mempool/mempool.process.ts:431-469 | when no slot of the channel can take it every slot stays as it is and the new bundle itself is left over |
| `Cascade.CascadeShape` | src/core/service/mempool/mempool.process.ts:431-497 | no slot moves, changes channel or disappears, slots of other channels are unchanged, and there is at most one slot more: the last, of the channel of the new bundle, holding one bundle that is no better than any bundle of an earlier slot of that channel |
| `Cascade.FilterSlotsFacts` | src/core/service/mempool/mempool.process.ts:595-613 | a sweep or purge keeps exactly the other bundles in order, reports exactly what it removed, and leaves no slot empty |
| `MempoolProcess.Slot.Add` | src/core/service/mempool/mempool.process.ts:227-261 | the in-place push, sort and splice compute the value-level add |
| `MempoolProcess.Slot.RemoveFirst` | src/core/service/mempool/mempool.process.ts:279-291 | the in-place shift computes the value-level removal |
| `MempoolProcess.Slot.RemoveBundle` | src/core/service/mempool/mempool.process.ts:325-338 | the in-place splice by id computes the value-level removal and reports whether it found the bundle |
| `MempoolProcess.Mempool.AddBundle` | src/core/service/mempool/mempool.process.ts:401-523 | slots, rows and outcome after one call, which `Outcomes.AddOutcomeOf` describes: expired, queued, purged after a refused or a failing PROCESSING write, or SLOT_FULL |
| `MempoolProcess.Mempool.ScanSlots` | src/core/service/mempool/mempool.process.ts:435-463 | the loop over the slots carries displaced bundles on exactly as the value-level scan |
| `MempoolProcess.Mempool.RemoveFirstSlot` | src/core/service/mempool/mempool.process.ts:536-544 | takes the first slot, or nothing from an empty mempool, and leaves the others alone |
| `MempoolProcess.Mempool.RemoveMatching` | src/core/service/mempool/mempool.process.ts:595-613 | the reverse loop with in-place splices removes by id each selected bundle of every slot, drops the emptied slots and reports the selected bundles in its own order |
| `MempoolProcess.EvictSlotsIsFilter` | src/core/service/mempool/mempool.process.ts:595-613 | which is an order-preserving filter of every slot when no bundle that stays precedes one to be removed with the same id |
| `MempoolProcess.Mempool.PurgeBundles` | src/core/service/mempool/mempool.process.ts:642-667 | the same walk by ids, with the exact number removed |
| `Repository.BundleTable.UpdateStatusIfActive` | src/persistence/drizzle/repository/operations-bundle.repository.ts:226-243 | writes the status of a row whose status is among the given ones and says whether it did |
| `Repository.BundleTable.UpdateIfStatusIn` | src/persistence/drizzle/repository/operations-bundle.repository.ts:252-269 | the same gate for any columns of the row: a column given has its value, any other and the creation time are as before |
| `Repository.BundleTable.ExpireOlderThan` | src/persistence/drizzle/repository/operations-bundle.repository.ts:161-194 | expires the rows of the given statuses older than the cutoff, all of them without a limit, else the oldest up to it, and returns exactly the ids it changed |
| `Repository.StartupExpiry` | src/core/service/mempool/mempool.process.ts:364-378 | for every batch size the loop terminates, makes exactly the active rows created before the cutoff EXPIRED, equals one unbounded expiry and reports the exact total |
| `FailureHandling.HandleExecutionFailure` | src/core/service/executor/executor-failure.helpers.ts:56-127 | for any list of ids, in turn: each still active row uses up one attempt and ends FAILED or PENDING accordingly, and the PENDING ones are returned with their counts |
| `FailureHandling.BuildRetryBundles` | src/core/service/executor/executor-failure.helpers.ts:135-159 | for any slot and any list: exactly the bundles with an entry, in order, each with the count of its last entry |
| `FailureHandling.EnrichedDistinct` | src/core/service/executor/executor-failure.helpers.ts:135-159 | after a failed slot of distinct bundles these are the retryable ones with the counts of their rows |
| `FailureHandling.FailVerifiedRows` | src/core/service/verifier/verifier-failure.helpers.ts:52-96 | for any list of ids, in turn and ungated: each row uses up one attempt, and the ids that stay PENDING are returned in order |
| `FailureHandling.FailEachDistinct` | src/core/service/executor/executor-failure.helpers.ts:56-125 | failing distinct bundles one by one is failing each exactly once |
| `PipelineInvariant.StepKeepsInv` | src/core/service/mempool/mempool.process.ts:401-635 | every step of every component keeps the invariant, whatever is admitted: no bundle in two places, only active ones in one, memory agreeing with rows, completed exactly when verified, slots well formed and never empty |
| `PipelineInvariant.StepMissing` | src/core/service/mempool/mempool.process.ts:401-635 | exact accounting for every step: it makes missing exactly the bundle it drops, and a restart exactly what it strands |
| `PipelineInvariant.AdmitMissing` | src/core/service/bundle/add-bundle.process.ts:503-560 | an admission that fails after its row write leaves its bundle missing, any other admission leaves nothing missing |
| `PipelineInvariant.CascadeCount` | src/core/service/mempool/mempool.process.ts:431-497 | the cascade adds one copy of the new bundle and on SLOT_FULL takes away one of the bundle it drops |
| `PipelineInvariant.FailMarkMissing` | src/core/service/mempool/mempool.process.ts:513-520 | a failing PROCESSING write leaves missing exactly what its purge takes out of the slots |
| `PipelineInvariant.SweepMissing` | src/core/service/mempool/mempool.process.ts:595-613 | the sweep's removal makes nothing missing |
| `PipelineInvariant.WriteSweptMissing` | src/core/service/mempool/mempool.process.ts:621-625 | the sweep's ungated EXPIRED write lands on an active row and makes nothing missing |
| `PipelineInvariant.PullMissing` | src/core/service/executor/executor.process.ts:386-409 | pulling a slot through the TTL gate makes nothing missing |
| `PipelineInvariant.SubmitMissing` | src/core/service/executor/executor.process.ts:237-274 | recording a submitted transaction with its links makes nothing missing |
| `PipelineInvariant.FailExecutionMissing` | src/core/service/executor/executor.process.ts:612-632 | after a failed execution each bundle of the slot is queued again or no longer active |
| `PipelineInvariant.RejectFeesMissing` | src/core/service/executor/executor.process.ts:497-535 | the ungated FAILED writes after an under-funded preflight hit exactly the bundles in flight |
| `PipelineInvariant.VerifySuccessMissing` | src/core/service/verifier/verifier.process.ts:99-124 | the ungated COMPLETED writes hit exactly the bundles that lose their link |
| `PipelineInvariant.VerifyFailureMissing` | src/core/service/verifier/verifier-failure.helpers.ts:47-123 | after a failed transaction each of its bundles is queued again or no longer active |
| `PipelineInvariant.RestartPlaces` | src/core/service/mempool/mempool.process.ts:172-191 | where a restart leaves each bundle: queued if the guard lets it, and wherever it waits for the verifier |
| `PipelineInvariant.StepRowEffect` | src/core/service/bundle/add-bundle.process.ts:503-532 | what any step may do to a row: only admission takes it out of EXPIRED or FAILED, nothing out of COMPLETED, and only a failed attempt of an active bundle changes its retry count |
| `PipelineInvariant.StepKeepsMatched` | src/core/service/executor/executor-failure.helpers.ts:135-159 | every copy in memory keeps the channel, operations, fee, TTL, creation time and retry count of its row and weighs what the operations weigh |
| `PipelineInvariant.RefusedMarkPurgesNothing` | src/core/service/mempool/mempool.process.ts:506-512 | whenever the PROCESSING gate refuses, the purge that follows finds nothing to remove |
| `PipelineInvariant.RequeuedOnce` | src/core/service/executor/executor.process.ts:612-632 | of a failed slot exactly the active bundles with attempts left are queued again, each as often as it was there |
| `Runs.Reachable` | src/core/service/executor/executor.process.ts:373-643 | the invariant holds after every sequence of steps from the empty system, restarts included |
| `Runs.LostIsMissing` | src/core/service/mempool/mempool.process.ts:401-635 | over every run what is missing is what the steps since the last restart dropped plus what that restart stranded |
| `Runs.ExactlyOnePlace` | src/core/service/mempool/mempool.process.ts:401-635 | in every reachable state an active bundle that was not lost is in exactly one place, any other in none, a bundle is lost only while active and only once, and every bundle in memory has an active row it agrees with |
| `Runs.QuiescentPlaces` | src/core/service/executor/executor.process.ts:373-643 | between handlers an active bundle that was not lost is in one slot, or in flight, or linked to an UNVERIFIED transaction, and only one of them |
| `Runs.CompletedIsFinal` | src/core/service/verifier/verifier.process.ts:114-119 | over every run COMPLETED is never left |
| `Runs.FinalUntilReadmitted` | src/core/service/bundle/add-bundle.process.ts:107-122 | a row that is EXPIRED, FAILED or COMPLETED does not change at all until its id is admitted again |
| `Runs.ReadmissionStartsOver` | src/core/service/bundle/add-bundle.process.ts:507-517 | only EXPIRED and FAILED rows are re-admitted, as PENDING with retry count 0 and their old creation time |
| `Runs.UngatedWritesHitActiveRows` | src/core/service/executor/executor.process.ts:502-509 | no status write that skips the gate ever lands on an EXPIRED, FAILED or COMPLETED row |
| `Runs.AlreadyExistsExactlyWhen` | src/core/service/bundle/add-bundle.process.ts:88-122 | admission is refused for an id in use exactly when the bundle is somewhere in the pipeline, was lost, or has a VERIFIED transaction |
| `Runs.OneLiveTransaction` | src/core/service/executor/executor.process.ts:237-274 | a bundle never has two linked transactions that are not FAILED |
| `Runs.CompletedIffVerified` | src/core/service/verifier/verifier.process.ts:99-124 | a row is COMPLETED exactly when one of its linked transactions is VERIFIED |
| `Runs.RetryCountIsFailures` | src/core/service/executor/executor-failure.helpers.ts:56-125 | the stored count is the number of failed attempts since the last admission, an active bundle has attempts left, and using them up means FAILED |
| `Runs.FailedAttempt` | src/core/service/executor/executor-failure.helpers.ts:65-119 | a failed attempt leaves the bundle FAILED and nowhere when it is terminal or the last, else PENDING and waiting to be queued, there and nowhere else |
| `Runs.RowsComeFromAdmission` | src/core/service/bundle/add-bundle.process.ts:488-532 | channel, operations, TTL and positive fee of a row are those its last admission computed |
| `Runs.MemoryComesFromAdmission` | src/core/service/bundle/add-bundle.process.ts:281-306 | whatever is queued or in flight has the channel and operations of its last admission, the fee computed from them, a safe TTL, and the weight of the operations submitted |
| `Runs.SlotsServeTheirChannel` | src/core/service/mempool/mempool.process.ts:431-469 | every slot in the queue or in flight has one channel, that of each of its bundles and of their last admissions |
| `Runs.CreatedAtFirstAdmission` | src/core/service/bundle/add-bundle.process.ts:503-532 | a row exists exactly when its bundle was admitted, and its creation time is that of the first admission |
| `Runs.RecordedExactlyWhen` | src/core/service/bundle/add-bundle.process.ts:172-209 | exactly the UTXOs created by accepted admissions are recorded |
| `Runs.RefusedForFeeExactlyWhen` | src/core/service/bundle/add-bundle.process.ts:472-486 | an admission with a free id is refused exactly when what its deposits, or without any its spends, bring in does not exceed its creates and withdrawals, naming both amounts |
| `Runs.FlightBeatsSignatures` | src/core/service/executor/executor.process.ts:393-409 | whatever is in flight passed the TTL gate before each of its signatures' estimated expiries and within 24 hours of its last admission |
| `Runs.GatedWhenPulled` | src/core/service/executor/executor.process.ts:386-409 | the gate time that the previous row speaks of is the time of one of the run's pulls |
| `Runs.FlightPaysItsFee` | src/core/service/bundle/add-bundle.process.ts:472-486 | whatever is in flight carries the fee its last admission computed, at least 1 |
| `Handlers.Platform.AddOperationsBundle` | src/core/service/bundle/add-bundle.process.ts:422-560 | the answer (id in use, fee below one, balances not readable again, UTXO not recorded, or none) and the state: a refusal changes nothing; else the row holds the submitted operations, channel, fee and TTL and the creates are recorded, and the bundle is queued and PROCESSING, or EXPIRED, or left PENDING after SLOT_FULL or after a failure to persist the spends |
| `Handlers.Platform.PersistCreateOperations` | src/core/service/bundle/add-bundle.process.ts:172-209 | records exactly the created UTXOs that were not recorded |
| `Handlers.Platform.PersistSpendOperations` | src/core/service/bundle/add-bundle.process.ts:211-265 | fails when there are spends and the balances cannot be read again, else at the first spend whose UTXO is not recorded, else not at all |
| `Pipeline.FirstUnrecordedIsFirst` | src/core/service/bundle/add-bundle.process.ts:241-250 | the UTXO that error names is that of the first spend not recorded: every spend before it is |
| `Handlers.Platform.ExpireBundles` | src/core/service/mempool/mempool.process.ts:585-635 | the sweep leaves exactly the bundles whose TTL is ahead, in order, in slots that are not empty, makes exactly the rows of the others EXPIRED and changes no transaction; it is a run of the step system |
| `Handlers.Platform.ReAddBundles` | src/core/service/mempool/mempool.process.ts:552-580 | offering the bundles one by one, going on after a failure, is a run of the step system |
| `Handlers.Platform.ExpireSlotBundlesPastTtl` | src/core/service/executor/executor-failure.helpers.ts:170-201 | the gate removes by id each expired bundle of the slot and expires the rows of those that are still active |
| `Handlers.Platform.ExecuteNext` | src/core/service/executor/executor.process.ts:373-643 | one pass takes the first slot and makes its expired rows EXPIRED; then a submission adds one UNVERIFIED transaction linked to exactly the unexpired bundles and fails no row, a lack of fees makes their rows FAILED with their retry counts and adds no transaction, and any other failure uses up one attempt each, terminal exactly when deterministic or the last; a second pass meanwhile does nothing |
| `Handlers.Platform.VerifyTransaction` | src/core/service/verifier/verifier.process.ts:288-389 | on chain: the transaction is VERIFIED and every linked row COMPLETED; failed on chain, or not seen past its deadline: the transaction and every linked row are FAILED with one more attempt used; not seen before the deadline: nothing changes |
| `Handlers.Platform.HandleVerificationFailure` | src/core/service/verifier/verifier-failure.helpers.ts:34-123 | the transaction is FAILED, each linked row has used one more attempt and is FAILED exactly when that was terminal or the last, and no other row changes |
| `HandlerRuns.SweepRunEffect` | src/core/service/mempool/mempool.process.ts:595-625 | the sweep run leaves the slots filtered and exactly the removed bundles EXPIRED |
| `HandlerRuns.PullRunEffect` | src/core/service/executor/executor.process.ts:386-407 | the gate's run leaves the first slot in flight without its expired bundles, or nothing in flight |
| `HandlerRuns.RunKeepsInv` | src/core/service/executor/executor.process.ts:373-643 | every run, so every handler whatever the network answers, keeps the invariant |
| `HandlerRuns.PlacedIsDistinct` | src/core/service/mempool/mempool.process.ts:325-338 | in every state the invariant allows, ids are distinct in each slot and each UNVERIFIED transaction, so the handlers' conditions hold |
| `Outcomes.AddOutcomeOf` | src/core/service/mempool/mempool.process.ts:401-523 | an add ends EXPIRED exactly when the TTL is not ahead; a queued bundle joins the contents and its row becomes PROCESSING; a refused or failing write leaves the rows and no bundle of that id in a slot; SLOT_FULL leaves out one bundle heavier than an empty slot |
| `Outcomes.ReAddInOrder` | src/core/service/mempool/mempool.process.ts:552-580 | bundles are offered in the order given, each to what the ones before it left |
| `Outcomes.SweepLeadsTo` | src/core/service/mempool/mempool.process.ts:585-635 | what the sweep run does to contents and rows, by TTL |
| `Outcomes.ExecutionLeadsTo` | src/core/service/executor/executor.process.ts:373-643 | what the executor run does to rows, transactions and slots, for each outcome of the network |
| `Outcomes.VerificationLeadsTo` | src/core/service/verifier/verifier.process.ts:288-389 | what the verify run does to rows and transactions, for each answer of the network |
| `Outcomes.FailureLeadsTo` | src/core/service/verifier/verifier-failure.helpers.ts:34-123 | what the failure run does to rows and transactions, with retries and re-adds |
| `Outcomes.AdmissionLeadsTo` | src/core/service/bundle/add-bundle.process.ts:422-560 | what the admission run does to rows, UTXOs and slots |
| `Losses.SlotFullStrandsOne` | src/core/service/mempool/mempool.process.ts:486-496 | after SLOT_FULL the bundle carried last, and only it, becomes active and nowhere |
| `Losses.AddLosesNothingExactlyWhen` | src/core/service/mempool/mempool.process.ts:465-496 | an add loses nothing if and only if what the scan leaves over fits an empty slot |
| `Losses.FittingIsNeeded` | src/core/service/bundle/add-bundle.process.ts:553-560 | a first bundle offered to the empty mempool keeps its place if and only if it fits an empty slot |
| `Losses.AdmissionPlacesExactlyWhen` | src/core/service/bundle/add-bundle.process.ts:503-560 | an accepted admission gives its bundle a place if and only if it has no spends, or the balances could be read again and every spent UTXO is recorded or among its own creates |
| `Losses.ForeignSpendIsStranded` | src/core/service/bundle/add-bundle.process.ts:246-250 | a bundle that spends a UTXO never recorded leaves an active row that is nowhere, and its id is refused from then on |
| `Losses.ForeignSpendIsRevived` | src/core/service/mempool/mempool.process.ts:169-199 | the next restart queues that bundle for execution |
| `Losses.CarefulRunLosesNothing` | src/core/service/mempool/mempool.process.ts:401-635 | a run in which admitted bundles fit and have their spends recorded, no PROCESSING write fails and no restart strands a row loses nothing: every active bundle is in exactly one place throughout |
| `Restart.LoadPendingBundles` | src/core/service/mempool/mempool.process.ts:163-200 | exactly the PENDING rows and the PROCESSING rows without a transaction are rebuilt, in query order |
| `Restart.Initialize` | src/core/service/mempool/mempool.process.ts:360-395 | slots and rows after startup: age expiry, reload, and adds up to the first bundle that does not fit, if any; it reports whether it got to the end |
| `Restart.InitializeIsRun` | src/core/service/mempool/mempool.process.ts:387-390 | an initialization that gets to the end is a run of the step system from the restarted state |
| `Restart.StartupEnds` | src/core/service/mempool/mempool.process.ts:385-390 | when every active row fits an empty slot startup gets to the end, with the invariant and nothing left to queue |
| `Restart.RestartKeepsInvExactlyWhen` | src/core/service/mempool/mempool.process.ts:360-395 | a restart keeps the invariant if and only if no row waiting for the verifier is PENDING or old enough to expire |
| `Restart.RestartLosesNothingExactlyWhen` | src/core/service/mempool/mempool.process.ts:172-191 | and puts every active bundle in exactly one place if and only if, besides, no PROCESSING row has only settled transactions |
| `Restart.RestartDuplicates` | src/core/service/mempool/mempool.process.ts:178-191 | a bundle submitted before its PROCESSING write is in two places after a restart |
| `Restart.RestartExpiresSubmitted` | src/persistence/drizzle/repository/operations-bundle.repository.ts:166-170 | age expiry marks a submitted bundle EXPIRED while its transaction is UNVERIFIED |
| `Restart.RestartStrands` | src/core/service/mempool/mempool.process.ts:180-189 | a bundle admitted again after a failed transaction is PROCESSING and nowhere after a restart |
| `Transactions.BuildTransactionFromSlot` | src/core/service/executor/executor.service.ts:21-106 | an empty slot and a missing reserved UTXO are errors; otherwise the fee operation for the fee total comes first, then every bundle's operations in slot order |
| `Transactions.TransactionPermutes` | src/core/service/executor/executor.service.ts:81-94 | the transaction's operations are a permutation of the submitted operations plus the fee operation |
| `Transactions.TransactionInOrder` | src/core/service/executor/executor.service.ts:74-94 | the fee operation is first, bundles keep their order, and each lists deposits, creates, spends and withdrawals in that order |
| `Transactions.NetBeyondFee` | src/core/service/bundle/bundle.service.ts:182-200 | what a bundle brings in beyond its fee, for any balances at admission and now |
| `Transactions.TransactionValue` | src/core/service/executor/executor.service.ts:74-94 | inflows minus outflows, fee included, are the summed excess of the bundles, and the fee is at least the number of bundles |
| `Transactions.BalancedExactlyWhen` | src/core/service/bundle/bundle.service.ts:187-192 | with balances unmoved the transaction takes in more than it pays out by exactly the spends of bundles that also deposit, and balances if and only if no bundle mixes the two |
| `Transactions.MixedBundleDoesNotBalance` | src/core/service/bundle/bundle.service.ts:187-192 | a bundle that deposits 5, spends 3 and creates 4 pays a fee of 1 and leaves 3 |
| `Transactions.FlightConservesValue` | src/core/service/executor/executor.process.ts:437-442 | in every run the transaction built from what is in flight moves exactly that value |
| `Transactions.FlightPermutes` | src/core/service/executor/executor.process.ts:437-442 | in every run the transaction built from what is in flight is a permutation of the operations its bundles were last admitted with plus the fee operation |
| `EventFetch.Chunk` | src/core/service/event-watcher/event-watcher.service.ts:26-32 | the loop computes the chunks |
| `EventFetch.ChunksFacts` | src/core/service/event-watcher/event-watcher.service.ts:26-32 | chunks hold 1 to `size` items, give the list back, and number the rounded-up quotient |
| `EventFetch.BuildEventFilterBatches` | src/core/service/event-watcher/event-watcher.service.ts:39-49 | two levels of chunking give the calls |
| `EventFetch.BatchesFacts` | src/core/service/event-watcher/event-watcher.service.ts:17-49 | calls hold 1 to 5 filters of 1 to 5 ids, ceil(n/25) calls, ids in their original order |
| `EventFetch.ParseRoundTrip` | src/core/service/event-watcher/event-watcher.service.ts:86-135 | parsing gives back every event a contract emits |
| `EventFetch.ParsedWasEmitted` | src/core/service/event-watcher/event-watcher.service.ts:86-135 | a raw event that parses is an emitted one, up to extra topics and an unread data value |
| `EventFetch.FetchChannelAuthEvents` | src/core/service/event-watcher/event-watcher.service.ts:152-220 | the loop over calls computes the read that the rows below describe; no contracts means no call and a held cursor |
| `EventFetch.FetchEnds` | src/core/service/event-watcher/event-watcher.service.ts:152-220 | a read succeeds exactly when every answer is a clean page, and else fails as its first bad answer says, out of retention or otherwise |
| `EventFetch.FetchReportsLeast` | src/core/service/event-watcher/event-watcher.service.ts:191-217 | the reported ledger is that of one of the pages and no later than any |
| `EventFetch.FetchKeepsPageOrder` | src/core/service/event-watcher/event-watcher.service.ts:197-217 | events of one ledger come in the order of the calls and, within a page, of its entries |
| `EventFetch.PageCount` | src/core/service/event-watcher/event-watcher.service.ts:197-202 | an honest page holds each wanted event as often as the chain and no other |
| `EventFetch.FetchCount` | src/core/service/event-watcher/event-watcher.service.ts:190-217 | a read is in ledger order and holds every watched event from its start to the ledger it reports exactly as often as the chain, beyond it at most as often, and not at all with at most 25 ids |
| `EventFetch.FetchRefinesQuery` | src/core/service/event-watcher/event-watcher.service.ts:190-217 | up to the reported ledger a batched read is one unlimited query |
| `EventFetch.FetchStopsAtMalformed` | src/core/service/event-watcher/event-watcher.service.ts:62-67 | a read never gets past a malformed event of a contract it asks for: it fails or ends before that ledger |
| `Watcher.ResolveBootStartLedger` | src/core/service/event-watcher/start-ledger.ts:22-29 | the start is at least the oldest retained ledger and the pin, and one of the two |
| `Watcher.OpeningLeavesHistory` | src/core/service/event-watcher/event-watcher.process.ts:215-231 | a poll that resolves the cursors leaves every ledger from the oldest retained, or the pin, up to the tip still to be walked, and the ceiling at the tip |
| `Watcher.EventWatcher.PollOnce` | src/core/service/event-watcher/event-watcher.process.ts:209-296 | a poll in place computes the value-level poll, which `PollIsRun` shows to be a run of live read and slice: boot, live read, then a slice only after a healthy read |
| `Watcher.EventWatcher.PollLive` | src/core/service/event-watcher/event-watcher.process.ts:211-290 | the live half, with reset on out-of-retention and no change on other errors |
| `Watcher.EventWatcher.PollBackfill` | src/core/service/event-watcher/event-watcher.process.ts:303-354 | the backfill half, with dispatch below the ceiling, completion and re-clamping |
| `Watcher.LiveReadHealth` | src/core/service/event-watcher/event-watcher.process.ts:234-290 | a live read is healthy exactly when the cursors can be resolved and every answer is a clean page; else it dispatches nothing and resets the live cursor exactly when the first bad answer is out of retention |
| `Watcher.UnhealthyPoll` | src/core/service/event-watcher/event-watcher.process.ts:291-296 | a poll whose live read is not healthy dispatches nothing and does not walk the backfill |
| `Watcher.EventWatcher.AddContract` | src/core/service/event-watcher/event-watcher.process.ts:102-108 | the contract is watched afterwards, besides those watched before, a second add changes nothing, and no cursor moves |
| `Watcher.EventWatcher.RemoveContract` | src/core/service/event-watcher/event-watcher.process.ts:114-119 | exactly that contract is no longer watched, the others keep their order, and no cursor moves |
| `Watcher.StepDispatchesInOrder` | src/core/service/event-watcher/event-watcher.process.ts:243-251 | a step takes back no dispatch, and what it dispatches follows in ledger order |
| `Watcher.PollIsRun` | src/core/service/event-watcher/event-watcher.process.ts:209-296 | a poll is a run of the watcher's steps |
| `Watcher.Coverage` | src/core/service/event-watcher/event-watcher.process.ts:209-354 | for a contract watched throughout, after any polls with errors, re-clamps and resets, every event from the oldest ledger reported when the cursors were last resolved, or the pin, up to the live cursor was dispatched, is still ahead of the backfill, or is older than an oldest ledger the RPC reported |
| `Watcher.CoverageOnceAdded` | src/core/service/event-watcher/event-watcher.process.ts:102-108 | the same for a contract added during the run, for its events that the live cursor had not reached or the backfill had still ahead of it |
| `Watcher.CaughtUp` | src/core/service/event-watcher/event-watcher.process.ts:322-326 | once the backfill is complete every such event that is not older than a reported oldest ledger was dispatched |
| `Watcher.ExactlyOnce` | src/core/service/event-watcher/event-watcher.process.ts:215-251 | with at most 25 contracts and no reset or re-clamp, live and backfill dispatch each event the cursors have passed since the oldest ledger or pin they were resolved from exactly as often as the chain and nothing else; contracts that come and go never see one twice |
| `Watcher.AtMostOnce` | src/core/service/event-watcher/event-watcher.process.ts:265-272 | when the retention window only moves forward, no live reset and no re-clamp makes the watcher dispatch an event more often than the chain holds it |
| `Watcher.ExactlyOnceAcrossResets` | src/core/service/event-watcher/event-watcher.process.ts:209-354 | so with resets and re-clamps every event in scope, no longer ahead of the backfill and still retained, was dispatched exactly as often as the chain holds it |
| `Watcher.TwiceAfterFalseRefusal` | src/core/service/event-watcher/event-watcher.process.ts:265-272 | when the RPC refuses a live cursor that is not out of retention, an event is dispatched twice |
| `Watcher.MalformedHoldsLive` | src/core/service/event-watcher/event-watcher.process.ts:234-290 | while its contract is watched and the cursor is not reset, no run of polls moves the live cursor past a malformed event |
| `Watcher.TwiceBeyondOneCall` | src/core/service/event-watcher/event-watcher.service.ts:191-203 | with more than 25 contracts, whatever they are, an event can be dispatched twice |
| `Watcher.SliceProgress` | src/core/service/event-watcher/event-watcher.process.ts:303-354 | a slice that is read or re-clamped strictly shrinks the gap, any other moves neither cursor and dispatches nothing, and none moves the live cursor |
| `Watcher.BackfillTerminates` | src/core/service/event-watcher/event-watcher.process.ts:303-354 | productive slices never outnumber the ledgers of the gap, and after that many the backfill is complete |
| `Watcher.EmptySlice` | src/core/service/event-watcher/event-watcher.service.ts:169-172 | with nothing to watch a slice changes nothing |
| `Watcher.EmptyLive` | src/core/service/event-watcher/event-watcher.service.ts:169-172 | with nothing to watch a live read changes nothing |
| `Escrow.PayLedger.PostCustodialSend` | src/http/v1/pay/custodial/send.ts:58-164 | the handler's refusals, a session that is not custodial among them, else debit, SEND record and, for an unverified receiver, a HELD escrow |
| `Escrow.SendAnswers` | src/http/v1/pay/custodial/send.ts:58-104 | each refusal exactly under its condition, in order, and a refusal changes nothing |
| `Escrow.SendRecords` | src/http/v1/pay/custodial/send.ts:105-164 | a successful send debits that account alone and records the amount from its deposit address to the receiver, pending with KYC, else complete and HELD for the receiver |
| `Escrow.PayLedger.CreateEscrow` | src/core/service/pay/escrow.service.ts:37-71 | adds one HELD record |
| `Escrow.PayLedger.ClaimEscrowForAddress` | src/core/service/pay/escrow.service.ts:83-175 | the loop with a fresh account lookup per escrow equals crediting the whole custodial amount at once, claiming every held escrow and recording one receipt each; without KYC nothing changes |
| `Escrow.PayLedger.GetEscrowSummary` | src/core/service/pay/escrow.service.ts:180-190 | count and amount, whose meaning `SummaryMeans` gives, are those a verified claim would return |
| `Escrow.SummaryMeans` | src/core/service/pay/escrow.service.ts:180-190 | the count is the number of HELD records for the address and the amount the sum of their amounts |
| `Escrow.ReceiptsMean` | src/core/service/pay/escrow.service.ts:149-166 | a claim records one completed receipt per HELD record for the address, in order, with its amount, from its sender to the address |
| `Escrow.ClaimConservesExactlyWhen` | src/core/service/pay/escrow.service.ts:119-147 | a claim conserves balances plus escrows plus pending sends if and only if an account has the address or nothing custodial is held for it |
| `Escrow.UnmatchedClaimDrops` | src/core/service/pay/escrow.service.ts:128-147 | seven units held for an address without an account are gone once claimed |
| `Escrow.RunConserves` | src/core/service/pay/escrow.service.ts:99-174 | over any run, balances, HELD custodial escrows, PENDING custodial sends and what was claimed without an account add up to what they were |
| `Escrow.SendThenClaim` | src/core/service/pay/escrow.service.ts:119-147 | a send to an unverified receiver and the receiver's claim move the amount from the sender's account to the receiver's and change no other |
| `Escrow.NeverNegative` | src/http/v1/pay/custodial/send.ts:102-116 | no balance ever goes negative |
| `Escrow.ClaimedAtMostOnce` | src/core/service/pay/escrow.service.ts:99-147 | each escrow is claimed at most once in any run and is CLAIMED exactly when it was |
| `Escrow.ClaimLeavesNothing` | src/core/service/pay/escrow.service.ts:101-115 | after a claim nothing is held for the address, so a second claim finds nothing |

## Left out

- Submission and the transaction record are one step: a crash or a failed write between the two, and links written only
  in part, are not modelled.
- PipelineInvariant.SubmitMissing: stated for a record written with all of its links, for the same reason.
- Admission's existence check, fee check, row write and UTXO persistence are one step; session and provider checks and
  RPC timeouts before the row write, which refuse with nothing written, are not modelled, nor are the recorded amounts.
- A failed execution and a verification with all their row writes are one step each; overlapping passes of the verifier
  over one transaction are not modelled, since a step only acts on an UNVERIFIED transaction.
- Failed database reads and writes other than the PROCESSING write of an add, soft deletion, and rows that disappear. The
  handlers assume that write succeeds; the step system and `MempoolProcess.Mempool.AddBundle` do not.
- Handlers.Platform.ExecuteNext: stated for slots without two bundles of one id, which the invariant gives, so that removal
  by id takes out the bundle that was meant.
- Handlers.Platform.ExpireBundles: stated for slots in which no bundle that stays precedes an expired one with the same id,
  which the invariant gives.
- Handlers.Platform.VerifyTransaction: stated for an UNVERIFIED transaction that links no bundle twice, which the invariant
  gives.
- Handlers.Platform.HandleVerificationFailure: stated for an UNVERIFIED transaction that links no bundle twice, which the
  invariant gives.
- A restart whose tables are not safe for it is not a step of the system; `Restart` shows what it does.
- The row array that the generic repository update returns where admission reads a row: the intended row is used.
- Transaction hashes: a transaction is identified by its position in the table.
- The priority score is an arbitrary number fixed when a slot bundle is built; its floating-point formula is not modelled.
- Weights are non-negative integers; capacity and offsets are integers.
- One process and one clock; handlers that run from start to finish read the time once.
- Slot bundles are values: the retry helper's update of shared bundle objects appears as replaced copies.
- The sweep's loop and the purge's loop share one method, as they differ only in which bundles they pick.
- Network, Soroban and Moonlight SDK calls, signing, key handling: outcomes are parameters.
- Preflight fee arithmetic and failure classification: only which of the three outcomes results.
- RPC answers are parameters; the watcher's theorems assume that pages hold exactly the matching events and that the latest
  ledger is not before the start minus one. Only where a statement says so do they assume more: for progress that a page
  reaches its start, and for exactness across resets that the retention window only moves forward.
- Event handlers: dispatch is a log; handler errors, which the source swallows, do not appear.
- Topic names that JavaScript objects inherit, such as `toString`, which the source's lookup would also accept: only the four
  declared names are known.
- Agreement of the channel registry with the chain, membership upkeep, HTTP routes, dashboards, metrics, sessions, event
  bus, logging and tracing: plumbing or small maps with easy invariants.
- Custodial sends debit and create their escrow in one step; a crash between the two is not modelled. Request parsing
  beyond a positive amount, and settlement of PENDING sends, which the source does not implement, are left out.
