# Durable state of the control plane, and three algorithms beside it

The control plane keeps its work in SQLite tables and in-memory maps: refresh schedules and
research runs, the archive's job queue and byte ledger, pooled model keys and their request
capabilities, OAuth states, default markers of assistants and organisations. Handlers and
workers change these tables in synchronous stretches between `await`s. This project models
those tables as classes, each synchronous stretch as one method, proves every method equal to
a function on the table's contents, and then proves what holds over whole runs of those steps
in any interleaving. Beside the tables it models three algorithms: the unified-diff parser of
the example checker, the canonical JSON printer, and the request-path canonicaliser.

Time is an integer. What the database, the network or the clock decides (row order, upload
results, validator answers, the timestamp read at each write, which write failed) is an input
of the step, so the theorems hold for every choice. Hashes are injective digests, authenticated
encryption is a box that opens only under the data it was bound to, random tokens are fresh,
and a validly signed capability is its claims.

`dafny verify dfyconfig.toml` checks the whole project. One module per component:

| module | component |
|---|---|
| `RefreshScheduler` | refresh scheduler: rolling budget and cadences |
| `ArchiveLedger`, `ArchiveQueue`, `CanonicalJson` | brand intelligence archive |
| `PooledCapabilities`, `ConcurrentCapabilities`, `ProviderKeys`, `VaultCommon` | pooled model key vault |
| `RunLeases`, `RunProgress`, `ReportMeaning`, `ResearchStatus` | brand research runs and the saving of reports |
| `Transcript`, `RuntimeValues` | reading the research assistant's transcript |
| `AssistantStore` | default-marker migration and upserts |
| `OAuthStates` | authorization states of the managed Google connection |
| `HttpPaths`, `Percent`, `Text` | request paths, percent-encoding, splitting and joining |
| `Sealing`, `Rows` | sealed boxes and keyed rows, shared by several tables |
| `UnifiedDiff` | the diff parser |

## What the proofs turned up

- The diff parser returns exactly the added lines of a diff, under their real paths, if and only
  if no added line starts with `++` and every added line is in a file whose path git writes as it
  is. A quoted path is invisible to the parser, and a path with a space is reported with the tab
  that git puts at the end of the line (`UnifiedDiff.ParserExact`, `NameRead`).
- Pruning of pooled capabilities is invisible to mints and resolves but shows in the boolean that
  a revocation returns. `PooledCapabilities.RevokeReportsPruning` says when that boolean is true
  after any run, `PruningShowsExactly` when two runs with one history disagree about it, and
  `PruningShowsInRevoke` gives such a pair for every request that can be granted.
- The scheduler's cadence depends on the run row and the schedule row being written together. If
  the run row is written and the schedule update throws, the same kind is due again at once:
  `RefreshScheduler.LostUpdateBreaksCadence` is a history from empty tables with two daily runs
  one millisecond apart. `CadenceKeptExactly` says which visits keep the cadence, and
  `LeadLostExactly` which visits lose the lead that the next ones rely on. The 30-day budget is
  not affected by lost updates.
- Persisting a report can throw. At most one run of a brand is active at a time (a unique index),
  and progress does not look at the run's status, so a report that arrives for a run closed in
  the meantime is refused when another run of the brand is active. `RunProgress.PersistEnds`
  says exactly when, and what is left in the row.
- A retried run fares as a new one but keeps its old cancellation time and elapsed time
  (`RunProgress.RetryStartsOver`).
- The byte ledger alone does not protect the quota when two uploads of one key overlap
  (`ArchiveLedger.OverlappingPutsBreakTheQuota`); the single-flight worker never does that
  (`SingleFlightIsAllowed`).
- `markBrandResearchRunProgress` does not look at the run's current status, so nothing here
  says that a cancelled or failed run stays so.

## Model

| member | source | states |
|---|---|---|
| `RefreshScheduler.NoWindowOverBudget` | control-plane/src/brand-research-refresh-scheduler.ts:135-150 | from empty tables, after any history of ticks, other run creations and status changes, no closed 30-day window, wherever it starts, holds more refresh runs of an organisation than the limit |
| `RefreshScheduler.RollingBudget` | control-plane/src/brand-research-refresh-scheduler.ts:281-360 | the same bound for all organisations and windows at once, kept from any tables that satisfy it; the only clock assumption is that a row is stamped no earlier than its own tick began |
| `RefreshScheduler.EnqueueKeepsBudget` | control-plane/src/brand-research-refresh-scheduler.ts:316-349 | counting backwards from the tick's `now` suffices although the row is stamped later |
| `RefreshScheduler.VisitExactly` | control-plane/src/brand-research-refresh-scheduler.ts:135-357 | with no row stamped in the future, a visit writes a run if and only if some kind is due, no run of the brand is queued, running or partial, and fewer refresh runs of the organisation than the limit were created in the 30 days up to now; the run is of the longest due kind and looks back a day, a week or a year; with the budget used up exactly the refusal is recorded |
| `RefreshScheduler.CadenceKept` | control-plane/src/brand-research-refresh-scheduler.ts:212-253 | in every history without a lost schedule update, whatever the clock does, the ticks that queue runs of one brand and kind are at least one period apart and the first is at least one period after the schedule was recorded; this is about tick times (the end of a run's coverage), and `created_at` values can be closer by the delay with which a row is stamped |
| `RefreshScheduler.CadenceKeptExactly` | control-plane/src/brand-research-refresh-scheduler.ts:302-349 | from any tables that keep the cadence, a visit keeps it if and only if it is not allowed to write a run row, or fails to, or a full period has passed since the schedule was recorded and since every earlier run of that brand and kind |
| `RefreshScheduler.LeadLostExactly` | control-plane/src/brand-research-refresh-scheduler.ts:326-357 | a visit leaves every schedule a full period ahead of its runs if and only if it is not the case that the schedule update threw while a kind was due, no run of the brand was active and the budget was not used up |
| `RefreshScheduler.LostUpdateBreaksCadence` | control-plane/src/brand-research-refresh-scheduler.ts:326-357 | for every brand, a history from empty tables (onboarding, a first tick, a daily tick whose schedule update throws, the run completing, a tick one millisecond later) that breaks the cadence |
| `RefreshScheduler.CoverageDisjoint` | control-plane/src/brand-research-refresh-scheduler.ts:196-210 | daily coverage windows of one brand never overlap in their interiors, and likewise weekly ones |
| `RefreshScheduler.LongestDueKindChosen` | control-plane/src/brand-research-refresh-scheduler.ts:170-194 | no kind is chosen exactly when no enabled kind is due; otherwise the chosen one is due and no due kind has a longer period |
| `RefreshScheduler.BackfillKeepsTiming` | control-plane/src/brand-research-refresh-scheduler.ts:78-133 | backfilling never brings a known schedule forward, and a new schedule is a full period ahead for every kind |
| `RefreshScheduler.BackfillRecords` | control-plane/src/brand-research-refresh-scheduler.ts:78-133 | every brand shown to the backfill has a schedule of that row's organisation afterwards: a new one enabled and due in a day, a week and 30 days, a known one otherwise unchanged; schedules of other brands stay as they are |
| `RefreshScheduler.Scheduler.BackfillRefreshSchedules` | control-plane/src/brand-research-refresh-scheduler.ts:78-133 | the upsert loop computes the backfilled schedule table |
| `RefreshScheduler.Scheduler.VisitSchedule` | control-plane/src/brand-research-refresh-scheduler.ts:302-357 | one iteration: due, not active, within budget, then the two writes or the recorded error, for each way the writes can go |
| `RefreshScheduler.Scheduler.RunOnce` | control-plane/src/brand-research-refresh-scheduler.ts:281-360 | a whole tick over the rows read before the loop; the returned number is the number of new run rows when no schedule update was lost, and never more |
| `CanonicalJson.CanonicalInjective` | control-plane/src/brand-intelligence-archive.ts:1018-1028 | two trees have the same canonical text if and only if they are equal up to key order at every level |
| `CanonicalJson.CanonicalParses` | control-plane/src/brand-intelligence-archive.ts:1018-1028 | a reader written independently of the printer reads the text back to the tree with its keys sorted, and consumes all of it |
| `CanonicalJson.AllReadBack` | control-plane/src/brand-intelligence-archive.ts:1018-1028 | the same in front of any delimiter, so that texts can be concatenated without ambiguity |
| `CanonicalJson.CanonicalOfSorted` | control-plane/src/brand-intelligence-archive.ts:1020-1025 | sorting keys everywhere first does not change the text |
| `CanonicalJson.SameIsEqualSorted` | control-plane/src/brand-intelligence-archive.ts:1020-1025 | equality up to key order is equality of the sorted trees |
| `CanonicalJson.SortKeeps` | control-plane/src/brand-intelligence-archive.ts:1022-1023 | the key sort is a permutation, and in order |
| `CanonicalJson.KeysAscend` | control-plane/src/brand-intelligence-archive.ts:1022-1023 | of two sorted keys the first is a prefix of the second or has the smaller UTF-16 code unit where they first differ |
| `CanonicalJson.ObjectText` | control-plane/src/brand-intelligence-archive.ts:1020-1025 | an object is printed in braces, its members separated by commas, none lost or added, in ascending order of their keys by UTF-16 code units |
| `CanonicalJson.PlainTexts` | control-plane/src/brand-intelligence-archive.ts:1019-1027 | the texts of null, booleans, numbers, strings and arrays |
| `CanonicalJson.EscapesExactly` | control-plane/src/brand-intelligence-archive.ts:1024-1027 | exactly the quote, the backslash, control characters and unpaired surrogates are escaped, five controls by a letter and the rest by four lower-case hex digits |
| `CanonicalJson.ReadQuoted` | control-plane/src/brand-intelligence-archive.ts:1024-1027 | quoting with JSON escapes, lone surrogates included, is read back exactly whatever follows |
| `ArchiveLedger.QuotaHolds` | control-plane/src/brand-intelligence-archive.ts:598-696 | over every run of puts, upload successes and failures and restarts in which no put overlaps an upload of the same key, pending plus stored bytes stay within the global limit and within every brand's, also when a failed key is reserved again with another size |
| `ArchiveLedger.SingleFlightIsAllowed` | control-plane/src/brand-intelligence-archive.ts:486-507 | the worker that starts a put only when nothing is uploading never overlaps uploads of a key |
| `ArchiveLedger.OverlappingPutsBreakTheQuota` | control-plane/src/brand-intelligence-archive.ts:651-695 | two overlapping uploads of one key can exceed the limit |
| `ArchiveLedger.FittingPutIsReserved` | control-plane/src/brand-intelligence-archive.ts:622-633 | a put of a new non-empty body is reserved exactly when it fits both limits |
| `ArchiveLedger.ReserveBytes` | control-plane/src/brand-intelligence-archive.ts:724-763 | what an accepted reservation charges is exactly what the check summed, key left out, plus the new size, for the table and for every brand |
| `ArchiveLedger.StepKeepsInv` | control-plane/src/brand-intelligence-archive.ts:598-696 | each step keeps unique keys, keys under their own tenant, both limits, positive sizes, and every upload under way pending |
| `ArchiveLedger.KeyDeterminesTenant` | control-plane/src/brand-intelligence-archive.ts:966-992 | equal object keys belong to the same organisation, assistant and brand, whatever characters the ids hold |
| `ArchiveLedger.KeyDeterminesName` | control-plane/src/brand-intelligence-archive.ts:966-992 | within a tenant different snapshots, or visuals with different 64-digit checksums, never share a key, and no snapshot shares one with a visual |
| `ArchiveLedger.KeyText` | control-plane/src/brand-intelligence-archive.ts:966-992 | the whole key, spelled out |
| `ArchiveLedger.ArchiveObjects.BeginPutObject` | control-plane/src/brand-intelligence-archive.ts:611-675 | the synchronous first half of a put: stored already, refused by a quota, or reserved |
| `ArchiveLedger.ArchiveObjects.FinishPutObject` | control-plane/src/brand-intelligence-archive.ts:677-695 | the row is settled by the upload's outcome |
| `ArchiveLedger.ArchiveObjects.RecoverAfterRestart` | control-plane/src/brand-intelligence-archive.ts:283-287 | a restart fails exactly the pending rows |
| `ArchiveQueue.QueueSafety` | control-plane/src/brand-intelligence-archive.ts:352-470 | over every run, re-enqueues and restarts anywhere: attempts never go down nor above 5, settled jobs never change, every failure costs an attempt |
| `ArchiveQueue.AtMostFiveFailures` | control-plane/src/brand-intelligence-archive.ts:444-468 | no job ever fails more than five times |
| `ArchiveQueue.WorkIsBounded` | control-plane/src/brand-intelligence-archive.ts:415-470 | without new enqueues or restarts the jobs processed, plus the attempts left, never exceed the attempts left at the start |
| `ArchiveQueue.ProcessingUsesAttempts` | control-plane/src/brand-intelligence-archive.ts:432-468 | every processed job strictly lowers the attempts left; a claim does not raise them |
| `ArchiveQueue.BackoffDoubles` | control-plane/src/brand-intelligence-archive.ts:448-451 | thirty seconds first, doubled each time, capped at an hour |
| `ArchiveQueue.FailureRetriedExactly` | control-plane/src/brand-intelligence-archive.ts:444-468 | a failed job can be claimed again if and only if it was not the quota and at most its fourth failure, from 30 seconds, one, two or four minutes after the failure on |
| `ArchiveQueue.EnqueuedIsClaimable` | control-plane/src/brand-intelligence-archive.ts:352-413 | an enqueued job is claimable from then on while it has attempts left, unless it is settled; a running or settled job never is |
| `ArchiveQueue.BackoffRespected` | control-plane/src/brand-intelligence-archive.ts:698-722 | a failed job not enqueued again is next claimed no earlier than its backoff allows |
| `ArchiveQueue.Queue.EnqueueJob` | control-plane/src/brand-intelligence-archive.ts:352-413 | a settled job is left alone, another is queued again keeping its attempts, an unknown one is added |
| `ArchiveQueue.Queue.ClaimNextJob` | control-plane/src/brand-intelligence-archive.ts:698-722 | claims an oldest claimable job, and nothing only when none is claimable |
| `ArchiveQueue.Queue.Finish` | control-plane/src/brand-intelligence-archive.ts:432-443 | the claimed job becomes complete or partial |
| `ArchiveQueue.Queue.Fail` | control-plane/src/brand-intelligence-archive.ts:444-468 | the claimed job fails with one attempt more, or for good on the fifth attempt or a quota error |
| `ArchiveQueue.Queue.RecoverAfterRestart` | control-plane/src/brand-intelligence-archive.ts:276-282 | a restart queues exactly the running jobs again |
| `PooledCapabilities.TableRefinesHistory` | control-plane/src/pooled-model-key-vault.ts:693-861 | with a clock that never runs backwards the lazily pruned table answers every mint and resolve of every run as the full history of grants and revocations does |
| `PooledCapabilities.CapabilityPassesExactly` | control-plane/src/pooled-model-key-vault.ts:759-861 | after any run, any validly signed capability, whether or not it was granted in this run of the process, passes every check if and only if its claims match a grant not revoked since, their times are in range and not over, and the worker's current lease has its generation and tenant; for claims with the full 420 seconds the match means that these very claims were granted |
| `PooledCapabilities.MintedThenResolved` | control-plane/src/pooled-model-key-vault.ts:693-861 | after any run, a granted mint and any events that do not revoke it, resolving the claims that were minted under the lease they were minted for succeeds for 420 whole seconds and is answered as expired from then on |
| `PooledCapabilities.MintGrantedExactly` | control-plane/src/pooled-model-key-vault.ts:693-743 | after any run, a mint is granted if and only if its ids, lease and time are in order, the lease is for that tenant and has not run out, and no unrevoked grant of the request is unended |
| `VaultCommon.OpaqueIdExactly` | control-plane/src/pooled-model-key-vault.ts:267-278 | an identifier has 1 to 256 code units, no space at either end and no control character |
| `PooledCapabilities.PruningIsInvisible` | control-plane/src/pooled-model-key-vault.ts:1023-1029 | removing the extra prunes from a run changes no answer to a mint or resolve |
| `PooledCapabilities.RevokeReportsPruning` | control-plane/src/pooled-model-key-vault.ts:1001-1003 | after any run, a revocation reports true exactly when some grant of the id, not revoked since, had not ended when the table was last pruned |
| `PooledCapabilities.PruningShowsExactly` | control-plane/src/pooled-model-key-vault.ts:1001-1029 | two runs with the same grants and revocations report differently on revoking an id if and only if an unrevoked grant of it ended between their last prunes, and the one pruned later reports false |
| `PooledCapabilities.PruningShowsInRevoke` | control-plane/src/pooled-model-key-vault.ts:1001-1029 | for every request that can be granted: after its mint a revocation reports true, and after any later resolve past the 420 seconds it reports false, with the same history of grants and revocations |
| `PooledCapabilities.MintAbstracts` | control-plane/src/pooled-model-key-vault.ts:693-757 | a mint is granted exactly when the history has no live grant of that id, and the table still abstracts the history |
| `PooledCapabilities.ResolveAbstracts` | control-plane/src/pooled-model-key-vault.ts:759-861 | a resolve answers as the history does, and the table still abstracts it |
| `PooledCapabilities.RequestTable.PruneExpiredRequests` | control-plane/src/pooled-model-key-vault.ts:1023-1029 | the loop removes exactly the expired entries |
| `PooledCapabilities.RequestTable.MintRequestCapability` | control-plane/src/pooled-model-key-vault.ts:693-757 | checks, prune, refusal of an active id, and the new entry |
| `PooledCapabilities.RequestTable.ResolveWithCapability` | control-plane/src/pooled-model-key-vault.ts:759-861 | the outcome and the pruned table, for every order of failing checks |
| `PooledCapabilities.RequestTable.RevokeRequestCapability` | control-plane/src/pooled-model-key-vault.ts:1001-1003 | removes the id and reports whether it was there |
| `PooledCapabilities.RequestTable.RevokeAllRequestCapabilities` | control-plane/src/pooled-model-key-vault.ts:1011-1015 | empties the table and reports its size |
| `ConcurrentCapabilities.NeverMoreSuccessesThanGrants` | control-plane/src/pooled-model-key-vault.ts:863-999 | on every trace of mints, resolves, revokes and prunes, whatever the clock does, an id resolves at most as often as it was granted, one fewer while it is still open |
| `ConcurrentCapabilities.GrantBetweenSuccesses` | control-plane/src/pooled-model-key-vault.ts:913-999 | between two successful resolves of one id there is a new grant of it |
| `ConcurrentCapabilities.GrantedThenRedeemedOnce` | control-plane/src/pooled-model-key-vault.ts:863-999 | a granted request resolves by its own ticket within its 60 seconds and then not again, and from 60 seconds on is too late |
| `ConcurrentCapabilities.GrantedExactly` | control-plane/src/pooled-model-key-vault.ts:863-900 | a request is granted if and only if ids, provider and time are in order and no unexpired entry has its id |
| `ConcurrentCapabilities.OneStep` | control-plane/src/pooled-model-key-vault.ts:975-998 | a success needs an open request and closes it; only a grant opens one |
| `ConcurrentCapabilities.PendingTable.PruneExpiredConcurrentRequests` | control-plane/src/pooled-model-key-vault.ts:1031-1037 | the loop removes exactly the expired entries |
| `ConcurrentCapabilities.PendingTable.MintConcurrentRequestCapability` | control-plane/src/pooled-model-key-vault.ts:863-911 | checks, prune, refusal of an active id, and the new unresolved entry |
| `ConcurrentCapabilities.PendingTable.ResolveConcurrentWithCapability` | control-plane/src/pooled-model-key-vault.ts:913-999 | the outcome, and the entry marked resolved on success |
| `ConcurrentCapabilities.PendingTable.RevokeConcurrentRequestCapability` | control-plane/src/pooled-model-key-vault.ts:1005-1009 | removes the id and reports whether it was there |
| `ConcurrentCapabilities.PendingTable.RevokeAllConcurrentRequestCapabilities` | control-plane/src/pooled-model-key-vault.ts:1017-1021 | empties the table and reports its size |
| `ProviderKeys.OneValidatedProviderPerTenant` | control-plane/src/pooled-model-key-vault.ts:1084-1146 | however POSTs and DELETEs interleave around the awaited validation: a tenant never has two configured providers, every stored value was accepted for its provider, and a read answers the last value stored and not deleted since |
| `ProviderKeys.OtherTenantsUntouched` | control-plane/src/pooled-model-key-vault.ts:542-691 | a run of other tenants' requests changes no value a tenant can read |
| `ProviderKeys.StepKeepsInv` | control-plane/src/pooled-model-key-vault.ts:542-691 | each handler step keeps all of this, and changes only the tenant it acts for |
| `ProviderKeys.CanSetExactly` | control-plane/src/pooled-model-key-vault.ts:542-600 | a key can be stored for any provider but the compatible one, if the tenant has no other provider and the value 1 to 65536 code units |
| `ProviderKeys.PostWaitsExactly` | control-plane/src/pooled-model-key-vault.ts:1084-1120 | a POST goes on to the validator under the same conditions but for the upper length limit |
| `ProviderKeys.Vault.Set` | control-plane/src/pooled-model-key-vault.ts:542-612 | stores exactly when the provider is allowed, no other provider is configured and the value has an allowed length |
| `ProviderKeys.Vault.Get` | control-plane/src/pooled-model-key-vault.ts:614-647 | the stored value, nothing for an empty slot, or the decryption failure |
| `ProviderKeys.Vault.Delete` | control-plane/src/pooled-model-key-vault.ts:670-691 | removes the slot and reports whether it was there |
| `RunLeases.NextWinNeedsExpiryOrRequeue` | control-plane/src/brand-research-runs.ts:690-741 | in any interleaving of reads, conditional writes, heartbeats, clears and status changes, when one attempt wins a run after another, the run went back to the queue in between, or the first holder's lease, as that holder last wrote it, had expired |
| `RunLeases.LateWriteChangesNothing` | control-plane/src/brand-research-runs.ts:711-731 | a claim written after another attempt won changes nothing while that lease lasts and the run is not requeued |
| `RunLeases.HolderUndisturbed` | control-plane/src/brand-research-runs.ts:690-776 | no sequence of other workers' steps alters the row of an unexpired lease |
| `RunLeases.StaleWorkerIsHarmless` | control-plane/src/brand-research-runs.ts:743-776 | heartbeats and clears of a worker that lost the run never alter a later holder's row |
| `RunLeases.LaterWinReplaces` | control-plane/src/brand-research-runs.ts:711-731 | after a later win the earlier token no longer holds the run and can never write a claim again |
| `RunLeases.WinsExactly` | control-plane/src/brand-research-runs.ts:711-731 | a claim's write wins exactly a queued run, or a running one whose lease has run out, and otherwise changes nothing |
| `RunLeases.EndingsDropTheLease` | control-plane/src/brand-research-runs.ts:778-1089 | ending an active run, releasing one for retry and sweeping an expired one drop its lease; ending a closed run changes nothing |
| `RunLeases.RunTable.TryClaim` | control-plane/src/brand-research-runs.ts:711-731 | the compare-and-swap: wins exactly when the row is claimable at that moment, and otherwise changes nothing |
| `RunLeases.RunTable.HeartbeatLease` | control-plane/src/brand-research-runs.ts:743-761 | extends exactly the lease of its own running row |
| `RunLeases.RunTable.ClearLease` | control-plane/src/brand-research-runs.ts:763-776 | clears exactly the lease its token holds |
| `RunProgress.RecomputeTrackCounts` | control-plane/src/brand-research-runs.ts:307-334 | the loop returns the sum of the tracks' counts and the status they imply: running if any track runs, complete if all are done, queued if any is pending, else partial |
| `RunProgress.UpdatesCommute` | control-plane/src/brand-research-runs.ts:336-392 | any permutation of updates to distinct tracks at one timestamp gives the same tracks, status and evidence count |
| `RunProgress.MergeIsUnion` | control-plane/src/brand-research-runs.ts:347-373 | a merge keeps every recorded id, provider and gap, adds those of the update, and nothing else |
| `RunProgress.DistinctKeepsOrder` | control-plane/src/brand-research-runs.ts:347-373 | merged lists never repeat an entry and keep what was recorded in front, in its order |
| `RunProgress.TrackHistory` | control-plane/src/brand-research-runs.ts:336-392 | after any updates a track has the status of its last one, the count and error of the last that gave one, was completed at the last that ended it and started at the first that marked it running |
| `RunProgress.EvidenceCountIsSum` | control-plane/src/brand-research-runs.ts:778-1066 | through creation, progress, retry, cancel, fail, complete and claim, whatever other runs the brand has, the run's evidence count is the sum over its eight tracks and its gaps column repeats theirs |
| `RunProgress.PersistEnds` | control-plane/src/brand-research-executor.ts:407-477 | while no other run of the brand is active, persisting a saved result from any state of the run never throws and ends complete or partial, complete exactly for a valid report with a non-blank brain id, no partial track, and either not deep or accepted; a closed run of a brand with another active run throws unless the result is so accepted and all tracks but the first were done, never becomes active, and is left untouched when those tracks were not done |
| `ReportMeaning.CompleteExactly` | control-plane/src/brand-research-executor.ts:131-477 | from the report alone: with no other active run of the brand the run ends complete if and only if the report is valid, the brain id is not blank, a deep report was accepted, and every track the report speaks about is supported by its ledger; and partial otherwise |
| `ReportMeaning.ValidExactly` | control-plane/src/brand-research-executor.ts:131-233 | a report is valid if and only if it has the right version, is about the run's brand, has both required sections, declares all three safety flags, and has only ledger items with an id and a web address, or a recorded gap instead of any; it is read with those sections and one ledger entry for each item |
| `ReportMeaning.SectionsExactly` | control-plane/src/brand-research-executor.ts:199-225 | the signals and gaps of a valid report are the non-blank strings of their lists, its competitors the records of theirs |
| `ReportMeaning.UpdateExactly` | control-plane/src/brand-research-executor.ts:265-360 | for each track, by its own section and source types: not observable when the report says nothing about it, complete when a ledger item supports it, else partial; its evidence ids are exactly the supporting ones, its providers theirs, and its gaps what is missing |
| `ReportMeaning.NoPartialExactly` | control-plane/src/brand-research-executor.ts:265-360 | some update is partial exactly when the report speaks about a track it does not support |
| `ReportMeaning.MeaningfulExactly` | control-plane/src/brand-research-executor.ts:235-240 | a value says something exactly when a non-blank string is in it at some depth |
| `Text.BlankIsSpaces` | control-plane/src/brand-research-executor.ts:235-240 | text is blank exactly when it has only spaces |
| `RunProgress.PartialRunRecords` | control-plane/src/brand-research-executor.ts:383-405 | marking a run partial leaves its first track partial and the others not observable, no evidence counted, and the reason as the run's error and as a gap of every track beside the gaps given |
| `RunProgress.BrainRecorded` | control-plane/src/brand-research-executor.ts:428-439 | persisting to a running run records the brain id exactly for a valid report with a non-blank one |
| `RunProgress.ClosedUpdates` | control-plane/src/brand-research-runs.ts:513-515 | how far the updates of a closed run get while another run of the brand is active: up to the first partial one, and nowhere unless the tracks after the first are done |
| `RunProgress.CoveredStatus` | control-plane/src/brand-research-executor.ts:440-454 | one settled update per track ends complete, or partial when some update is, whatever the tracks were before, while no other run of the brand is active |
| `RunProgress.PersistCitesTheLedger` | control-plane/src/brand-research-executor.ts:407-477 | every evidence id on a track after persisting, also when it threw half way, was there before or is in the report's ledger; a refused report adds none |
| `RunProgress.UpdatesCiteTheLedger` | control-plane/src/brand-research-executor.ts:242-360 | every id in a report's track updates is in its ledger, and the count is their number |
| `RunProgress.TracksCiteTheLedger` | control-plane/src/brand-research-executor.ts:440-454 | the same after each prefix of the updates has been merged |
| `RunProgress.ResearchRun.MarkTrackProgress` | control-plane/src/brand-research-runs.ts:900-985 | the whole new row: merged tracks, recomputed count and status, provider notes and gaps, timestamps from both clock readings and elapsed time; or the unchanged row and an exception when the unique index refuses the status |
| `RunProgress.RetryStartsOver` | control-plane/src/brand-research-runs.ts:778-814 | a retry goes through exactly for a partial run, or for a failed or cancelled one of a brand with no other active run (and throws for those otherwise); whatever happens next the run then fares as a new run of the brand would, but for the cancellation time, the elapsed time and the retry count |
| `RunProgress.FirstEndingStands` | control-plane/src/brand-research-runs.ts:1001-1066 | of any number of cancellations, failures and completions of an active run the first one counts: it sets the status, its own timestamp and the error, keeps all research, and those after it change nothing; none of them ever changes a closed run |
| `RunProgress.ResearchRun.MarkPartialRun` | control-plane/src/brand-research-executor.ts:383-405 | the first track partial with the detail, the other seven not observable, up to the first update that throws |
| `RunProgress.ResearchRun.MarkUpdates` | control-plane/src/brand-research-executor.ts:440-454 | the loop applies the updates in order, each at its own clock readings, up to the first that throws |
| `RunProgress.ResearchRun.PersistSavedReport` | control-plane/src/brand-research-executor.ts:407-477 | the row after validation, the brain id, the eight updates and the closing quality update |
| `Transcript.ReadRuntimeResult` | control-plane/src/brand-research-executor.ts:750-814 | the backward scan returns what the last decisive assistant message decides, and running when none is decisive |
| `Transcript.ScanToolCalls` | control-plane/src/brand-research-executor.ts:759-793 | the inner loop finds the first save call, direct or wrapped |
| `Transcript.ReadingIsUnique` | control-plane/src/brand-research-executor.ts:750-814 | that description fits exactly one result for every transcript |
| `Transcript.SavedNeedsConfirmation` | control-plane/src/brand-research-executor.ts:757-793 | saved is reported only for an assistant message that called the save tool with that report in its input and whose result confirms that non-blank brand id and that quality |
| `Transcript.ProseNeverSaves` | control-plane/src/brand-research-executor.ts:795-813 | a transcript without a save call never reads saved, whatever its prose |
| `Transcript.IndecisiveTailIgnored` | control-plane/src/brand-research-executor.ts:757-813 | appending messages that decide nothing never changes the reading |
| `Transcript.SaveCallBeatsProse` | control-plane/src/brand-research-executor.ts:765-793 | within a message a save call decides, whatever the content says |
| `Transcript.SaveCallReads` | control-plane/src/brand-research-executor.ts:757-793 | the first direct or wrapped save call of an assistant message reads as saved if and only if its input holds a report and its result a confirmation, with that confirmation's id and quality, and as partial otherwise |
| `Transcript.ProseReads` | control-plane/src/brand-research-executor.ts:795-811 | without a save call the first marker decides: failed, or partial even when it says saved |
| `Transcript.FirstMarkerFound` | control-plane/src/brand-research-executor.ts:796-797 | the first marker in the text is the one read |
| `Transcript.MarkerRead` | control-plane/src/brand-research-executor.ts:796-797 | the label in capitals, a space and a status word read as that status, whatever follows |
| `Transcript.SavedIsConfirmed` | control-plane/src/brand-research-executor.ts:655-685 | a confirmation is found exactly when one is in a nested or string-encoded tool result under the known keys, and what is found has a non-blank id and the quality that record states |
| `Transcript.NestedIsReport` | control-plane/src/brand-research-executor.ts:634-647 | a report is found exactly when one is at most five levels down under the known keys, and what is found is one |
| `AssistantStore.AnyOrderIsAtOnce` | control-plane/src/assistant-store.ts:72-113 | the correlated update, row by row in any order with subqueries reading the half-updated table, equals the simultaneous update |
| `AssistantStore.WinnerStands` | control-plane/src/assistant-store.ts:72-79 | every partly updated table elects the same winner for every user |
| `AssistantStore.OneDefaultAssistant` | control-plane/src/assistant-store.ts:72-79 | afterwards every user with assistants has exactly one default assistant |
| `AssistantStore.OneDefaultOrganization` | control-plane/src/assistant-store.ts:81-113 | and every owner exactly one default organisation |
| `AssistantStore.SoleDefaultKept` | control-plane/src/assistant-store.ts:72-79 | a user's only default assistant stays the default |
| `AssistantStore.DefaultAssistantIsOldest` | control-plane/src/assistant-store.ts:72-79 | the default assistant is, among the user's assistants marked before (or all when none was), the one created first, and of those created at once the one with the least id |
| `AssistantStore.DefaultOrganizationIsOldest` | control-plane/src/assistant-store.ts:95-113 | the default organisation is chosen likewise when no default assistant is in an organisation its user owns |
| `AssistantStore.OrganizationFollowsAssistant` | control-plane/src/assistant-store.ts:81-113 | the default organisation is the default assistant's whenever the user owns it |
| `AssistantStore.MigrationSatisfiesIndexes` | control-plane/src/assistant-store.ts:115-118 | after the migration no user has two default rows in either table, so both unique indexes can be created |
| `AssistantStore.MigrationIdempotent` | control-plane/src/assistant-store.ts:64-133 | a second run changes neither table |
| `AssistantStore.NextStartupChangesNothing` | control-plane/src/assistant-store.ts:58-133 | after the migration and any sequence of upserts, the next startup's migration changes no row at any point of either scan, in any order, so it cannot violate the unique indexes even half way |
| `AssistantStore.ServeKeepsSettled` | control-plane/src/assistant-store.ts:156-291 | each upsert leaves tables that the migration would not change such that it still would not |
| `AssistantStore.Store.MigrateDefaultMarkers` | control-plane/src/assistant-store.ts:64-133 | both updates, each scanning its table in any order, reach the simultaneous result |
| `AssistantStore.Store.GetOrCreateOrganization` | control-plane/src/assistant-store.ts:156-199 | returns the user's default organisation, adding one only when there is none, and keeps one default per user |
| `AssistantStore.Store.GetOrCreateAssistant` | control-plane/src/assistant-store.ts:248-291 | the same for assistants; a new one is in its user's default organisation, which is created first when missing |
| `OAuthStates.OneOutstandingPerUser` | control-plane/src/managed-google-oauth.ts:631-686 | in every interleaving of starts and callbacks at most one state is outstanding per assistant and user |
| `OAuthStates.ExchangeExactly` | control-plane/src/managed-google-oauth.ts:703-743 | a callback reaches the token endpoint if and only if it was granted and carries the state of an outstanding, unexpired start, and then with that start's tenant and verifier |
| `OAuthStates.VerifierMatchesChallenge` | control-plane/src/managed-google-oauth.ts:631-743 | the verifier sent is the one whose S256 challenge that same start published |
| `OAuthStates.ExchangedOnce` | control-plane/src/managed-google-oauth.ts:688-701 | two exchanges never carry the same state |
| `OAuthStates.SupersededOrExpiredNeverExchanges` | control-plane/src/managed-google-oauth.ts:640-701 | no exchange after a newer start of the same user, or after expiry |
| `OAuthStates.LiveStartIsRedeemed` | control-plane/src/managed-google-oauth.ts:631-743 | with a clock that does not run backwards, a live start's first granted callback always reaches the exchange |
| `OAuthStates.TableExact` | control-plane/src/managed-google-oauth.ts:631-701 | after every prefix of events the table holds exactly the rows of the outstanding starts |
| `OAuthStates.OAuthService.Start` | control-plane/src/managed-google-oauth.ts:597-686 | drops expired rows and the user's earlier one, stores the sealed verifier, publishes its challenge |
| `OAuthStates.OAuthService.ConsumeState` | control-plane/src/managed-google-oauth.ts:688-701 | the state is gone afterwards, and is returned only unexpired |
| `OAuthStates.OAuthService.Complete` | control-plane/src/managed-google-oauth.ts:703-743 | the outcome of a callback up to the token request |
| `UnifiedDiff.ParserExact` | scripts/check-generic-examples.ts:149-195 | the parser returns exactly the added lines of a well-formed diff, in order, each with the real path of its file and its new-file line number, if and only if none starts with `++` and none is in a file whose path git quotes, ends with a tab, or breaks across lines |
| `UnifiedDiff.ParserExactOnText` | scripts/check-generic-examples.ts:149-195 | the same from the text of the diff, split at newlines |
| `UnifiedDiff.NameRead` | scripts/check-generic-examples.ts:158-166 | a path is reported as it is exactly when it is written plainly without a space or line terminator; a spaced path is reported with a tab at its end |
| `UnifiedDiff.DiffParsed` | scripts/check-generic-examples.ts:149-195 | on a diff without `++` added lines the parser returns the added lines of the files it can name |
| `UnifiedDiff.NeighboursTrue` | scripts/check-generic-examples.ts:174-190 | with a line of context shown before each added line not at the top, every returned content, number and previous content is the new file's, files being known by the name the parser reports |
| `UnifiedDiff.SuppressionIsOfTheNewFile` | scripts/check-generic-examples.ts:285-291 | a returned line is suppressed exactly by the marker on that line of the new file or the other marker on the line above it |
| `UnifiedDiff.HeaderRead` | scripts/check-generic-examples.ts:167-171 | every hunk header, counts omitted or not, yields its new-file start |
| `UnifiedDiff.ParseUnifiedDiff` | scripts/check-generic-examples.ts:149-195 | the loop over the lines computes the folded parser state |
| `HttpPaths.CanonicalIsFixedPoint` | control-plane/src/http-paths.ts:22-46 | an accepted output is accepted unchanged, keeps the number of segments, and has no empty interior, dot, or percent-bearing segment |
| `HttpPaths.FixedPointsAreClean` | control-plane/src/http-paths.ts:22-46 | a path is its own canonical form if and only if it is clean |
| `HttpPaths.AcceptedExactly` | control-plane/src/http-paths.ts:22-46 | a path is accepted with a result if and only if it has no two slashes in a row and no backslash and every segment decodes to one that is not `.` or `..` and has no control character, DEL, backslash, slash, `?`, `#` or `%`, the result joining these |
| `HttpPaths.NormalizedExactly` | control-plane/src/http-paths.ts:1-4 | exactly the trailing slashes go, except that `/` itself is kept |
| `HttpPaths.DoubleSlashIsEmptyInterior` | control-plane/src/http-paths.ts:25 | two slashes in a row are exactly an empty interior segment |
| `HttpPaths.EncodedSegmentsDecode` | control-plane/src/http-paths.ts:28-43 | percent-encoding clean segments is undone, so encoded and plain requests are classified alike |
| `HttpPaths.PrefixIsSegmentPrefix` | control-plane/src/http-paths.ts:1-20 | prefix matching on text is prefix matching on segments, in both directions |
| `HttpPaths.CanonicalizeAssistantRequestPath` | control-plane/src/http-paths.ts:22-46 | the loop with early refusals computes the canonical path |
| `Percent.DecodeEncode` | control-plane/src/brand-intelligence-archive.ts:966-992 | percent-decoding undoes percent-encoding through UTF-8 on every string |
| `Percent.DecodeExactly` | control-plane/src/http-paths.ts:30-33 | decoding accepts exactly the spellings of a string, each character by itself or by its UTF-8 octets in digits of either case, and returns that string: no stray percent sign, overlong form, surrogate or broken sequence |
| `Percent.EncodedExactly` | control-plane/src/brand-intelligence-archive.ts:966-992 | letters, digits and nine marks stand for themselves, everything else is escaped |
| `Percent.OctetText` | control-plane/src/brand-intelligence-archive.ts:966-992 | octets are written with upper-case digits |
| `Percent.EncodeAlphabet` | control-plane/src/brand-intelligence-archive.ts:966-992 | encoded text consists of unreserved characters and percent signs, so it never contains a slash |
| `Percent.DecodePlain` | control-plane/src/http-paths.ts:30-33 | a segment without a percent sign decodes to itself |

## Left out

- RefreshScheduler.CadenceKept: holds for histories without a lost schedule update, because the cadence fails with one (`LostUpdateBreaksCadence`); `CadenceKeptExactly` is the exact condition for one visit, not for a whole history, where a tick after a lost update may come late enough by chance.
- ArchiveLedger.QuotaHolds: is about ledger rows and not about bytes in the bucket; puts that overlap an upload of the same key are excluded, because the quota fails with them.
- PooledCapabilities.TableRefinesHistory: compares the answers to mints and resolves; the boolean a revocation returns is covered by `RevokeReportsPruning` instead, because pruning shows in it.
- RunProgress.UpdatesCommute: is for one timestamp; the timestamps of the tracks do differ by order otherwise.
- Scheduler: schedule columns that only record the last run, the wording and truncation of error messages, and an error thrown while an error is being recorded; brand names are taken as non-blank, so a refresh run always has a seed.
- Archive: building requests and manifests, fetching visuals, the address checks on fetched images, S3 itself; the queue's disabled mode, job ids and payload contents; the usage warning flag.
- Canonical JSON: `undefined` members and non-finite numbers, which print as `null`; numbers are taken by their printed form.
- Vault: parsing and signing of capabilities, base64, the master-key verifier, the HTTP shape and masking of secret routes, listing as anything but a set.
- Runs: creating or finding a run, child and parent tasks, cancellation metadata, deleted rows, stored progress that does not parse, track lists other than the full eight, older column sets.
- Executor: the worker loop with its timeouts and polling, dispatching, runs without a seed, and the child tasks reported beside a transcript's status; locale-dependent lower-casing and URL parsing are parameters.
- RunProgress.PersistEnds: takes it as given that no other run of the brand is active while this one is, which is what the unique index ensures.
- No claim is made that a cancelled or failed run stays so, or that only a lease holder writes progress: the source does not ensure it.
- Assistant store: organisation memberships, consents, and the addition of missing columns; ids and timestamps are ordered values.
- OAuth: redirect and scope checks, everything after the token request, stored connections and the proxy.
- Paths and percent-encoding are over strings of Unicode scalar values, so a lone surrogate in a path is not represented.
- Examples checker: pattern matching, file skipping, commit messages and output.
- HTTP routing, cookies and proxying, artifact sharing, onboarding, retention, and the release, catalog and build scripts.
