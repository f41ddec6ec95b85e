# Tirion: which commit pays for which query

Tirion watches AI coding agents and git repositories and decides which commit pays for which query. Its inputs are
partial, out of order and replayed, so most of its correctness sits in a few state machines and fixed-point
computations. This project models those in Dafny and proves what they keep. `dafny verify dfyconfig.toml` checks it.

The commit attribution core comes first:

- `CommitAttributionPolicy` decides when a commit is justified by a query's evidence.
- `CommitAttributionLedger`, `LedgerTransitions` and `CommitCosts` say what each ledger operation does to the stored
  records; `JsonlLedger` holds the class whose methods do it in place. Mutations are serialised in the program, so
  each operation is one atomic step; `LedgerRuns` reasons about every history of such steps.
- `ReconcilePass` and `GitAttribution` model one reconcile pass over a snapshot that goes stale inside its own loop,
  `RewriteClaims` what it does to claims that wait for a rewritten commit, and `ReconcileProgress` and
  `WholePassProgress` what repeated loops and repeated whole passes converge to.
- `AgenticWorkEpisode` binds evidence to episodes; the ledger relies on the uniqueness of keys this gives.

Around it:

- `QueryFamily`: the family of a query, a least fixed point computed by loops.
- `JsonlTail` and `SpanDbIngress`: two readers that follow a growing source, with checkpoints, replay and a barrier.
- `RepositoryObservation`, `WorkspaceChangeTracker`, `OccurrenceMerge`, `SafeObservationStore`: evidence and
  observation state, with crashes, restarts, replays and arbitrary arrival orders.
- `RuntimeWorkScheduler`: coalescing single-flight lanes and the drain to a fixed point.
- `TokenAccounting`, `ToolAttribution`, `Pricing` and the shared `Grouping`: conservation and rounding.

`Prelude` and `Types` hold the shared vocabulary. Identifiers are opaque numbers compared for equality, ISO timestamps
are integers, an optional number is an `Option<int>`, and a git or storage read is a parameter of the step that makes it.

A specification function gives each operation's effect; class methods with the source's loops are proved equal to it;
the properties are then lemmas about the function, so that they hold for whole runs. Where a component awaits, the code
between two awaits is one step of a state machine and every interleaving of steps is considered.

Where the code and its own promises part ways, the model follows the code:

- A claim waiting for a rewritten commit is left out of cost synchronisation, but the write guard still compares it, so a
  falling query cost can then not be stored (`CommitCosts.RewriteMarkBlocksCostFall`).
- Native reconciliation is idempotent only if no two source records contest a pair. Otherwise each look revalidates the
  claim again (`LedgerTransitions.SettledIff`, `LedgerTransitions.ContestedNeverSettles`).
- The write guard can fire in a transfer, but only if the transfer retires a live unallocated link beside a live first
  claim (`CommitAttributionLedger.MoveWritableIff`). The program never creates such links.
- A query anchored on a commit is charged after a pass, except when its claim was already waiting for a rewrite of that
  very commit: then neither the claim nor the transfer takes it, and it goes on charging nothing
  (`ReconcilePass.PassCompleteness`, `RewriteClaims.OwnCommitExample`; `RewriteClaims.WaitingChargedIff` says when).
- A claim moves to a commit observed later, except when it waits for a rewrite: the rewrite transfer does not look at
  times (`ReconcileProgress.MoveGoesLaterIff`, `RewriteClaims.WaitingMovesEarlier`).
- Tailing a file from its current end, the default start, delivers a fragment as its first line whenever the line was
  begun before the first poll (`JsonlTail.TailDeliversFragment`, with a concrete file in `JsonlTail.TailFragmentExample`).
  Only a file that is then empty or ends with a line feed is safe (`JsonlTail.TailAlwaysWholeIff`).
- Merging occurrence records keeps the best completion only if a record with an outcome also carries a completion time
  (`OccurrenceMerge.SafeIffTimed` for the stored record, `OccurrenceMerge.NewcomerSafeIffTimed` for the one that
  arrives). The contract type admits records without one, but the one producer of outcomes in
  the repository (packages/engine/src/telemetryClassification.ts:3670-3713) always fills it in.
- A candidate write that throws while the process lives on loses its commits, because memory has already moved past
  them (`RepositoryObservation.ThrowSkipsCommit`).
- The walk to a unit's owning tool call ends exactly when it does not come back to a span it has left
  (`ToolAttribution.EndsIffNeverBack`).
- After quarantine a query may keep the status "attributed" without a live claim. The invariants are therefore stated on
  allocations, never on the status.

## Model

| member | source | states |
|---|---|---|
| CommitAttributionPolicy.ReportableIff | src/attribution/commitAttributionPolicy.ts:28-128 | a commit is reportable exactly when nothing rules it out and some query is anchored on it that is free or already anchors this very commit |
| CommitAttributionPolicy.ReportableIsJustified | src/attribution/commitAttributionPolicy.ts:28-112 | every query of a reportable decision is free and either anchored by trusted, same-epoch, lineage-verified, later-sequenced, content-matching evidence or an unopposed member of a single-repository episode; no free anchored query is left out; ids are distinct |
| CommitAttributionPolicy.ProvenAnchorsMeaning | src/attribution/commitAttributionPolicy.ts:40-47 | the anchors found by filtering are exactly the queries with an item of evidence that meets every anchor condition |
| CommitAttributionPolicy.MatchedPairsMeaning | src/attribution/commitAttributionPolicy.ts:197-227 | a pair is kept exactly when a complete census of its query lists it and that census's own state of the artifact matches the commit |
| CommitAttributionPolicy.MatchedCausalWriteArtifacts | src/attribution/commitAttributionPolicy.ts:197-227 | the nested loops return each matching causal pair exactly once and no other |
| CommitAttributionPolicy.MatchedArtifactCount | src/attribution/commitAttributionPolicy.ts:178-188 | the loops count the distinct artifacts whose attributable state matches the commit |
| CommitAttributionLedger.PutGet | src/storage/commitAttributionLedger.ts:42-59 | storing a record changes what is read for its own query only, and ids stay unique |
| CommitAttributionLedger.MoveWritableIff | src/storage/commitAttributionLedger.ts:1008-1034 | the write guard accepts a claim or transfer exactly when it does not retire a live link while a first claim stays live |
| CommitAttributionLedger.MoveAllResult | src/storage/commitAttributionLedger.ts:61-129 | a claim or transfer over any id list never trips the guard, moves exactly the ids open to it at the start, each once, leaves all other queries alone, and claimed and skipped ids partition the input |
| CommitAttributionLedger.MoveFailsIff | src/storage/commitAttributionLedger.ts:89-129 | with live links around and any id list, a transfer fails exactly when a query's first turn would take a live link from beside its live claim, or a repeated query left a live link behind at its first turn; otherwise it ends sound and touches only listed queries that were open |
| CommitAttributionLedger.OrderDoesNotMatter | src/storage/commitAttributionLedger.ts:698-711 | in whatever order a stored record's allocations come back sorted after a transfer to another commit, a second one fails exactly when the first left a live link behind |
| JsonlLedger.JsonlCommitAttributionLedger.UpsertQueryAttribution | src/storage/commitAttributionLedger.ts:42-59 | stores the record exactly when the guard accepts it, otherwise leaves the ledger unchanged |
| JsonlLedger.JsonlCommitAttributionLedger.TryFirstClaim | src/storage/commitAttributionLedger.ts:61-87 | the claiming loop never throws and has the effect and report of the claim specification |
| JsonlLedger.JsonlCommitAttributionLedger.TransferFirstClaim | src/storage/commitAttributionLedger.ts:89-129 | the transfer loop has the specified effect, and none at all when it throws |
| JsonlLedger.JsonlCommitAttributionLedger.MarkRewritePending | src/storage/commitAttributionLedger.ts:248-270 | marks exactly the live claims of the named commits and counts them; keeps the ledger sound |
| JsonlLedger.JsonlCommitAttributionLedger.ExpireRewritePending | src/storage/commitAttributionLedger.ts:272-294 | retires exactly the rewrite-pending claims that waited too long and counts them; keeps the ledger sound |
| JsonlLedger.JsonlCommitAttributionLedger.Quarantine | src/storage/commitAttributionLedger.ts:296-330 | retires or marks legacy exactly the claims the epochs do not vouch for and counts them; keeps the ledger sound |
| JsonlLedger.JsonlCommitAttributionLedger.ReconcileNativeRejectedCausalClaims | src/storage/commitAttributionLedger.ts:131-246 | applies the specified verdict to every stored allocation and reports exactly the queries and commits it revoked or revalidated |
| JsonlLedger.ClaimNeverFails | src/storage/commitAttributionLedger.ts:61-87 | a plain claim never trips the write guard, even with live links present |
| LedgerTransitions.SweepKeepsInv | src/storage/commitAttributionLedger.ts:248-330 | marking, expiry and quarantine never trip the guard and never create a live claim |
| LedgerTransitions.SweepIdempotent | src/storage/commitAttributionLedger.ts:248-330 | repeating a marking, expiry or quarantine with the same arguments changes nothing further |
| LedgerTransitions.QuarantineKeepsExactly | src/storage/commitAttributionLedger.ts:296-330 | a live claim survives quarantine exactly when it has an active epoch, a proof and a verified decision, and then unchanged |
| LedgerTransitions.NativeKeepsInv | src/storage/commitAttributionLedger.ts:131-246 | native reconciliation keeps every record writable and never creates a live claim |
| LedgerTransitions.RevokesExactly | src/storage/commitAttributionLedger.ts:131-246 | revocation hits exactly the live proven claims of an observed commit whose every stored pair is explicitly rejected and that no current source pair supports |
| LedgerTransitions.SettledIff | src/storage/commitAttributionLedger.ts:131-246 | after one look a second look does nothing, unless the first revalidated a claim whose source records contest a pair; then it revalidates again |
| LedgerTransitions.NativeIdempotent | src/storage/commitAttributionLedger.ts:131-246 | with one record per query, repository and epoch a second reconciliation changes nothing and reports nothing |
| LedgerTransitions.ContestedNeverSettles | src/storage/commitAttributionLedger.ts:605-663 | concrete evidence, one supporting and one rejecting record, keeps a claim being revalidated |
| LedgerTransitions.FreshClaimStands | src/storage/commitAttributionLedger.ts:131-246 | a claim the policy just made is never revoked by the evidence it was made from, and with keyed evidence not even touched |
| LedgerTransitions.SourceMember | src/storage/commitAttributionLedger.ts:605-619 | the source records of an allocation are exactly those of its repository and epoch whose query has a stored pair |
| LedgerTransitions.RejectedMeaning | src/storage/commitAttributionLedger.ts:621-631 | filtering out rejected pairs leaves none or all of them exactly when none or each is explicitly rejected by some source record |
| AgenticWorkEpisode.BindingKeysEvidence | src/attribution/agenticWorkEpisode.ts:83-113 | however evidence is bound, an episode never holds two records of one query, repository and epoch |
| AgenticWorkEpisode.CensusIsAuthority | src/attribution/agenticWorkEpisode.ts:259-310 | once a complete census is bound, the query's content can match a commit only through one of the census's pairs, whatever was bound before |
| LedgerRuns.RunKeepsInv | src/storage/commitAttributionLedger.ts:1008-1034 | over every history of claims, transfers, sweeps, native reconciliations and guarded upserts all records stay writable and ids unique |
| LedgerRuns.OneLiveClaimPerQuery | src/storage/commitAttributionLedger.ts:1008-1034 | in every reachable ledger no query has two live claims, on one commit or on two |
| LedgerRuns.StepKeepsInv | src/storage/commitAttributionLedger.ts:61-330 | the guard never fires in a claim, sweep or native reconciliation, from any sound ledger |
| LedgerRuns.GuardQuietThroughout | src/storage/commitAttributionLedger.ts:1008-1034 | in every history of clean upserts and transfers to other commits the guard fires at no point but an unwritable upsert |
| LedgerRuns.MovedOnlyThere | src/storage/commitAttributionLedger.ts:61-129 | a stored record is live on exactly the new commit after a claim or transfer |
| LedgerRuns.LiveClaimsHaveOrigin | src/storage/commitAttributionLedger.ts:61-330 | whenever a query is live on a commit, some earlier operation claimed it for that commit, transferred it there or stored it so |
| CommitCosts.MergePersistedQueryCost | src/attribution/gitAttribution.ts:658-675 | the in-place loop rewrites exactly the costs of reportable allocations and of the record |
| CommitCosts.CostSyncWritableIff | src/attribution/gitAttribution.ts:658-675 | after a cost change the record can be stored exactly when every live claim outside cost sync is still covered by the new cost |
| CommitCosts.MoveChargesQueryCost | src/storage/commitAttributionLedger.ts:859-911 | the one live claim a claim or transfer leaves charges the query's whole cost to the observed commit and epoch, with proof pairs taken only from the policy's proof |
| CommitCosts.CostSyncEqualises | src/attribution/gitAttribution.ts:658-675 | after cost sync every reportable claim charges exactly the query's cost |
| CommitCosts.RewriteMarkBlocksCostFall | src/storage/commitAttributionLedger.ts:248-270 | a charged claim that waits for a rewrite makes the record storable exactly when the new cost is reported and no lower |
| CommitCosts.ProviderRowsConserve | src/storage/commitAttributionLedger.ts:509-532 | a commit's provider rows add up to exactly what the commit is charged |
| CommitCosts.SummariesConserve | src/storage/commitAttributionLedger.ts:462-507 | commit summaries add up to exactly the cost of the surfaced active claims, reported or not |
| CommitCosts.ChargedWithinQueryCost | src/storage/commitAttributionLedger.ts:462-532 | what all commits are charged never exceeds the total cost of the queries |
| LedgerRuns.ActiveClaimsSurface | src/storage/commitAttributionLedger.ts:585-591 | in a clean ledger every active claim is surfaced, so summaries miss none |
| LedgerRuns.SummariesChargeEveryActiveClaim | src/storage/commitAttributionLedger.ts:462-507 | in every disciplined history the commit summaries add up to exactly the cost of all active claims |
| Grouping.GroupingConserves | src/storage/commitAttributionLedger.ts:509-532 | grouping by key conserves an optional total exactly |
| Grouping.GroupByMeaning | src/storage/commitAttributionLedger.ts:462-507 | groups have distinct keys, none is empty, and together they hold exactly the items, each under its own key |
| ReconcilePass.PassSafety | src/attribution/gitAttribution.ts:214-362 | one pass over a stale snapshot never throws, moves each query at most once and from where it began, ends no query on two commits, and rests every move on a proven anchor and, when it takes a claim away, on one open to being taken |
| ReconcilePass.PassCompleteness | src/attribution/gitAttribution.ts:214-362 | after a pass every query that a considered commit is anchored on through a relevant episode has an active first claim, unless its claim was waiting for a rewrite of that very commit when the pass began |
| ReconcilePass.SupersessionEntries | src/attribution/gitAttribution.ts:711-734 | the supersession groups hold exactly the queries with a live same-episode claim on a commit observed strictly earlier |
| ReconcilePass.RewriteEntries | src/attribution/gitAttribution.ts:699-709 | the rewrite groups hold exactly the wanted queries whose claim waits for a rewrite on another commit |
| RewriteClaims.WaitingIsTaken | src/attribution/gitAttribution.ts:699-709 | whenever it was observed, another considered commit anchored on a waiting query has it charged after the pass |
| RewriteClaims.WaitingMove | src/attribution/gitAttribution.ts:252-287 | a waiting claim is only ever taken from the commit it waits on, by another commit that may name its query |
| RewriteClaims.OwnCommitKeepsWaiting | src/attribution/gitAttribution.ts:699-709 | while the pass knows no commit but its own that may take it, a waiting claim stays exactly as it was and charges nothing |
| RewriteClaims.WaitingChargedIff | src/attribution/gitAttribution.ts:252-287 | a waiting query that cannot inherit is charged after the pass exactly when another considered commit is anchored on it |
| RewriteClaims.WaitingMovesEarlier | src/attribution/gitAttribution.ts:699-709 | a concrete ledger and commit by which a waiting claim moves to an earlier observation |
| RewriteClaims.OwnCommitExample | src/attribution/gitAttribution.ts:699-709 | a concrete ledger and commit, anchored on the query that waits on it, that a pass leaves waiting and uncharged |
| ReconcileProgress.MoveGoesLaterIff | src/attribution/gitAttribution.ts:699-734 | a move goes to a commit observed strictly later than any claim the query had, exactly unless that claim waits for a rewrite and dates from no earlier |
| ReconcileProgress.MoveUsesUp | src/attribution/gitAttribution.ts:699-734 | each move of a pass uses up a pair of a query and a time it was open to: later than its claim, or any time while its claim waits |
| ReconcileProgress.PassSpends | src/attribution/gitAttribution.ts:214-362 | from every sound ledger, with waiting claims or without, the open pairs fall by at least one for every claim or transfer of a pass |
| ReconcileProgress.MovesRunOut | src/attribution/gitAttribution.ts:214-362 | over any number of candidate loops with any evidence, claims and transfers never exceed the pairs open at the start |
| ReconcileProgress.FewPassesChange | src/attribution/gitAttribution.ts:214-362 | over any number of candidate loops with varying evidence, commits and times, all but boundedly many leave the ledger exactly as it was |
| ReconcileProgress.LoopIdle | src/attribution/gitAttribution.ts:214-362 | a pass that moves nothing leaves the ledger exactly as it was |
| ReconcileProgress.ReachesFixedPoint | src/attribution/gitAttribution.ts:214-362 | repeating a candidate loop reaches a ledger fixed point within the number of pairs open at the start and stays there |
| GitAttribution.WholePassSafe | src/attribution/gitAttribution.ts:161-430 | expiry, quarantine, native reconciliation, status sync and the loop together never throw and keep the ledger sound |
| WholePassProgress.HousekeepingIdle | src/attribution/gitAttribution.ts:161-212 | after one whole pass, with keyed evidence, the next with the same inputs expires, quarantines, revokes, revalidates and relabels nothing and is its candidate loop |
| WholePassProgress.WholePassSettles | src/attribution/gitAttribution.ts:161-430 | repeating the whole pass with the same inputs and keyed evidence reaches a ledger fixed point, after the first pass within as many passes as it left pairs open |
| GitAttribution.SyncKeepsInv | src/attribution/gitAttribution.ts:432-472 | status synchronisation keeps every record storable |
| GitAttribution.DefaultGitAttribution.LineageVerifiedQueryIds | src/attribution/gitAttribution.ts:511-524 | the loop finds exactly the episode's queries that started on an ancestor of the commit |
| GitAttribution.DefaultGitAttribution.ActiveEpisodeSupersessionGroups | src/attribution/gitAttribution.ts:711-734 | the loop builds the specified supersession groups |
| GitAttribution.DefaultGitAttribution.RewritePendingGroups | src/attribution/gitAttribution.ts:699-709 | the loop builds the specified rewrite groups |
| GitAttribution.DefaultGitAttribution.ReconcileCandidates | src/attribution/gitAttribution.ts:214-430 | the candidate loop over the ledger object has the specified effect, never throws, and leaves each candidate reportable exactly when a query was charged to it or it was already |
| GitAttribution.DefaultGitAttribution.SynchronizeQueryStatuses | src/attribution/gitAttribution.ts:432-472 | writes back every status that no longer fits and nothing else |
| GitAttribution.DefaultGitAttribution.ReconcileInternal | src/attribution/gitAttribution.ts:161-430 | the whole pass over the ledger object equals its specification, including when the stale list is re-read, and gives each candidate its specified decision |
| QueryFamily.ExpandQueryFamily | packages/agent/src/productionUsageService.ts:87-151 | the loops end and return the least set over the start family closed under both rules within the window, with exactly the activities of its queries |
| QueryFamily.OrderIrrelevant | packages/agent/src/productionUsageService.ts:87-151 | the family does not depend on the order in which occurrences or activities are listed |
| QueryFamily.LeastStaysInWindow | packages/agent/src/productionUsageService.ts:87-151 | whatever is added to the start is visible, of the root's provider and within the root's window |
| QueryFamily.QueryOccurrenceFamily | packages/agent/src/productionUsageService.ts:273-329 | ends even when parent sessions form cycles; gives nothing exactly when the query is unknown or internal or the walk up meets an internal one, otherwise the least closed set over the walk's root |
| QueryFamily.WalkGoesBack | packages/agent/src/productionUsageService.ts:283-302 | each step of the walk to the root keeps the provider, goes back in time and stays visible |
| QueryFamily.FamilyOfTarget | packages/agent/src/productionUsageService.ts:273-329 | a family has no internal member and contains the requested query exactly when that is the root or started no later than the completion bound |
| JsonlTail.SplitCompleteLines | src/ingestion/jsonlTelemetryIngestion.ts:216-228 | the index loop returns exactly the complete lines, without line endings, and the bytes after the last line feed |
| JsonlTail.SplitConcat | src/ingestion/jsonlTelemetryIngestion.ts:127-142 | splitting bytes as they arrive, with the retained partial in front, equals splitting them all at once, also when a cut falls inside CRLF |
| JsonlTail.RestIsSuffix | src/ingestion/jsonlTelemetryIngestion.ts:216-228 | the retained partial is exactly the suffix after the last line feed |
| JsonlTail.JsonlTelemetryIngestion.Start | src/ingestion/jsonlTelemetryIngestion.ts:31-60 | a start from nothing or from a checkpoint sets the offsets a replay window earlier and remembers whether a first fragment must be dropped |
| JsonlTail.JsonlTelemetryIngestion.PollOnce | src/ingestion/jsonlTelemetryIngestion.ts:98-157 | a poll, with replaced and unchanged files, hands on the specified lines and checkpoint and leaves the specified state |
| JsonlTail.FollowsFile | src/ingestion/jsonlTelemetryIngestion.ts:98-157 | however the reader is started - tailing, from the beginning, or resumed inside or beyond the file - and however an append-only file is polled and cut, lines, partial, offsets and checkpoint are those of the bytes consumed since where it began |
| JsonlTail.CutsDoNotMatter | src/ingestion/jsonlTelemetryIngestion.ts:127-150 | two readers of the same file that began at the same place and consumed the same bytes have delivered the same lines and are in the same state, whatever their polls, reads and starts |
| JsonlTail.SameOutset | src/ingestion/jsonlTelemetryIngestion.ts:31-46 | two readers of one configuration begin at the same place when the file was equally long at their first polls; a start from the beginning or from a checkpoint inside the file does not depend on that length |
| JsonlTail.ResumeDeliversWholeLines | src/ingestion/jsonlTelemetryIngestion.ts:37-46 | resuming at a line-boundary checkpoint, with any replay size and read limit, delivers only whole lines of the file, in order, and misses none that ends after the checkpoint |
| JsonlTail.CheckpointsAdvance | src/ingestion/jsonlTelemetryIngestion.ts:98-157 | whatever the start, from the first poll on checkpoints never go back, and each is the first one allowed or a line boundary |
| JsonlTail.ResumedCheckpointsAreBoundaries | src/ingestion/jsonlTelemetryIngestion.ts:119-157 | resumed at a line boundary inside the file, every checkpoint is a line boundary again and none is earlier |
| JsonlTail.DeliversWholeLinesIff | src/ingestion/jsonlTelemetryIngestion.ts:98-150 | whatever the start, the polls deliver the file's own lines exactly when the first fragment is dropped, nothing is delivered yet, or the reader began on a line boundary or inside the CRLF of an otherwise empty line |
| JsonlTail.TailFirstLineWholeIff | src/ingestion/jsonlTelemetryIngestion.ts:110-118 | the default tailing reader delivers the lines completed after the file's end at its first poll, and they are the file's own lines exactly when there are none or the file then ended clean |
| JsonlTail.TailAlwaysWholeIff | src/ingestion/jsonlTelemetryIngestion.ts:110-118 | a tailing reader delivers whole lines however the file grows and is polled, exactly when the file it first finds is empty or ends with a line feed |
| JsonlTail.TailDeliversFragment | src/ingestion/jsonlTelemetryIngestion.ts:110-118 | for every line begun before the first poll, whatever stands before it, and however the file is then polled, once its end is read the reader has delivered its rest without the beginning, and then the lines that follow |
| JsonlTail.TailFragmentExample | src/ingestion/jsonlTelemetryIngestion.ts:110-118 | a concrete file and two polls in the default configuration whose first delivered line is a fragment |
| SpanDbIngress.SelectedUntilAccepted | packages/agent/src/copilotSpanDbIngress.ts:188-250 | a span once selected, while the table holds it unchanged, is accepted in its revision or selected again by any later poll, through errors and seals, despite the moving window |
| SpanDbIngress.CompletePollAcceptsAll | packages/agent/src/copilotSpanDbIngress.ts:209-239 | a poll that ends without being cut short has accepted every selected span that has an id |
| SpanDbIngress.RememberedWereAccepted | packages/agent/src/copilotSpanDbIngress.ts:401-410 | in every run at most 20 000 spans are remembered, each id once, each by a revision that was really accepted |
| SpanDbIngress.RememberKeeps | packages/agent/src/copilotSpanDbIngress.ts:401-410 | the revision just accepted is remembered, and nothing is forgotten but, when the memory is full, the oldest span |
| SpanDbIngress.ScanResult | packages/agent/src/copilotSpanDbIngress.ts:209-230 | visiting rows changes nothing but the poll, and what comes up for admission is unsealed, has an id and is not remembered in that revision |
| SpanDbIngress.SealAdmitsAtMostOne | packages/agent/src/copilotSpanDbIngress.ts:209-215 | after a seal at most the one record already in durable admission is accepted, and no poll starts |
| SpanDbIngress.SealedStaysQuiet | packages/agent/src/copilotSpanDbIngress.ts:122-184 | once a sealed ingress is idle, no poll or dispatch is in flight or can start, and nothing is accepted, until it is unsealed |
| SpanDbIngress.CopilotSpanDbIngress.ScanOn | packages/agent/src/copilotSpanDbIngress.ts:209-239 | the row loop up to its next await |
| SpanDbIngress.CopilotSpanDbIngress.RecordAccepted | packages/agent/src/copilotSpanDbIngress.ts:236-249 | an admission that returns remembers the revision and moves the window before the loop goes on; one that fails ends the poll |
| SpanDbIngress.CopilotSpanDbIngress.DrainAcceptedWork | packages/agent/src/copilotSpanDbIngress.ts:147-163 | true only when idle at that moment, whatever happened while waiting |
| SpanDbIngress.CopilotSpanDbIngress.SealForQuiesce | packages/agent/src/copilotSpanDbIngress.ts:122-129 | seals; true means idle; at most the record in admission was accepted meanwhile |
| RuntimeWorkScheduler.EveryRunIsGood | packages/agent/src/runtimeWorkScheduler.ts:19-105 | in every interleaving of enqueues, completions, throws and waits: at most one run of a lane in flight, each on the latest work, fields and log agree, waiters only on running lanes |
| RuntimeWorkScheduler.NoEnqueueLost | packages/agent/src/runtimeWorkScheduler.ts:78-105 | before a lane goes idle, or runs with nothing requested, a run on the latest work has started after every enqueue, and has ended if the lane is idle |
| RuntimeWorkScheduler.RoundResult | packages/agent/src/runtimeWorkScheduler.ts:42-58 | when a round's waiters are released, its stable-generation and idle checks pass exactly when nothing was enqueued since it began |
| RuntimeWorkScheduler.Scheduler.DrainToFixedPoint | packages/agent/src/runtimeWorkScheduler.ts:42-58 | false exactly when something was enqueued in each of the allowed rounds; true means the last round was quiet, all lanes idle and every enqueue served |
| RuntimeWorkScheduler.Scheduler.Enqueue | packages/agent/src/runtimeWorkScheduler.ts:19-29 | replaces the lane's work and starts it if the lane is idle, otherwise requests one more run |
| RuntimeWorkScheduler.Scheduler.Settle | packages/agent/src/runtimeWorkScheduler.ts:78-105 | ending and throwing lead the same way: to the requested work, or to rest with all waiters released |
| RuntimeWorkScheduler.IdleIsServed | packages/agent/src/runtimeWorkScheduler.ts:70-72 | when all lanes are idle no run is in flight and no enqueue waits for one |
| OccurrenceMerge.MergeKeepsRank | packages/agent-storage/src/worker.ts:697-797 | merging two records whose outcomes are timed keeps the lexicographically greater of outcome, evidence rank and completion time |
| OccurrenceMerge.SafeIffTimed | packages/agent-storage/src/worker.ts:715-720 | merging into a record keeps the greater completion for every timed newcomer exactly when the record's outcome is timed |
| OccurrenceMerge.NewcomerSafeIffTimed | packages/agent-storage/src/worker.ts:715-720 | merging a record into any timed one keeps the greater completion exactly when the newcomer's outcome is timed |
| OccurrenceMerge.UntimedNewcomerBreaks | packages/agent-storage/src/worker.ts:715-753 | for every untimed newcomer there is an earlier timed record with which the merge loses a time or makes one up |
| OccurrenceMerge.UntimedLosesTime | packages/agent-storage/src/worker.ts:715-720 | for every untimed record there is a timed one, started and completed before it with the same outcome, whose completion the merge loses |
| OccurrenceMerge.FoldKeepsBest | packages/agent-storage/src/worker.ts:697-755 | any order of timed records folds to the greatest completion, the earliest start, sticky internal visibility and the best prompt state and evidence, each taken from some record |
| OccurrenceMerge.ArrivalOrderIrrelevant | packages/agent-storage/src/worker.ts:697-755 | two orders of arrival of the same records, with repetitions, agree on all of these |
| OccurrenceMerge.CapturedPromptStays | packages/agent-storage/src/worker.ts:701-707 | the stored prompt is captured exactly when some record captured one, and is that of the latest such record |
| OccurrenceMerge.LinksAreLatest | packages/agent-storage/src/worker.ts:744-753 | parent session and repository are the latest ones any record reported; silence erases neither |
| OccurrenceMerge.KnownFailureStays | packages/agent-storage/src/worker.ts:721-726 | a failure whose category is known stays that failure whatever arrives later |
| OccurrenceMerge.ConflictIffContradictory | packages/agent-storage/src/worker.ts:654-681 | ownership ends in conflict exactly when a conflict list or two distinct owners were seen, listing only ids some record named; otherwise the stored owner is the only one named |
| OccurrenceMerge.MergeUsageNames | packages/agent-storage/src/worker.ts:665-673 | a merge names no owner or conflicting id that neither record named, lists at most eight, and keeps a conflict |
| OccurrenceMerge.RejectionStays | packages/agent-storage/src/worker.ts:683-695 | the latest native permission rejection is kept against everything else |
| SafeObservationStore.AgentStorage.AppendSafeObservation | packages/agent-storage/src/worker.ts:564-652 | takes an observation in exactly when its id is new, merging every record by key |
| SafeObservationStore.StoreHoldsFirstDeliveries | packages/agent-storage/src/worker.ts:564-652 | whatever is delivered and replayed, each row is the merge of exactly the records of its key in first deliveries, in order |
| SafeObservationStore.ReplayChangesNothing | packages/agent-storage/src/worker.ts:566-583 | a replayed observation changes nothing |
| SafeObservationStore.StoredQueryIsBest | packages/agent-storage/src/worker.ts:630-644 | the stored query has the best completion, start, visibility, prompt state and evidence of everything first delivered about it |
| RepositoryObservation.SequencesNeverRepeat | src/attribution/repositoryObservation.ts:555-620 | in every run with crashes and throwing writes, durable candidates and snapshots of an epoch have distinct sequences, below the durable next one for the current epoch |
| RepositoryObservation.NoCommitSkipped | src/attribution/repositoryObservation.ts:324-360 | in every run with crashes, but no candidate write that throws in a living process, a durable cursor past a range leaves each readable commit of it a durable candidate |
| RepositoryObservation.ThrowSkipsCommit | src/attribution/repositoryObservation.ts:355-360 | if that write throws after any head move, the next epoch write carries the cursor past a commit that is not stored |
| RepositoryObservation.CandidatesCoverRange | src/attribution/repositoryObservation.ts:555-588 | the candidates built for a range are exactly its commits whose diff can be read |
| RepositoryObservation.NewHeadObserved | src/attribution/repositoryObservation.ts:324-346 | however the checked-out head moved, forward, sideways or by a branch switch, the new head is among the commits observed |
| RepositoryObservation.MovedHeadIsStored | src/attribution/repositoryObservation.ts:324-360 | after the write that follows, that head is a durable candidate and the durable cursor is on it |
| RepositoryObservation.MovedRefIsStored | src/attribution/repositoryObservation.ts:482-498 | a ref that moved without being checked out leaves its new head a durable candidate with the durable ref head |
| RepositoryObservation.FastForwardIsStored | src/attribution/repositoryObservation.ts:324-360 | after a fast forward on the checked-out ref and its write, the durable cursor is on the new head and every readable commit of git's range from the old cursor to it is a durable candidate |
| RepositoryObservation.FastForwardAllOrNothing | src/attribution/repositoryObservation.ts:324-360 | through any continuation with crashes but no throwing candidate write, a fast forward that was seen is all or nothing: its whole range durable for good, or the store untouched so far, or untouched when the process died |
| RepositoryObservation.RefsSettle | src/attribution/repositoryObservation.ts:415-553 | after visiting refs, memory agrees with git on each but the checked-out one, which is untouched |
| RepositoryObservation.ScanCatchesUp | src/attribution/repositoryObservation.ts:271-413 | an undisturbed scan ends with the cursor on git's head and ref and all other listed refs settled |
| RepositoryObservation.ScanSound | src/attribution/repositoryObservation.ts:271-413 | an undisturbed scan keeps sequences distinct and skips no commit |
| RepositoryObservation.PutAllKeeps | packages/agent-storage/src/worker.ts:1125-1137 | upserting freshly numbered candidates by id keeps all sequences of the epoch distinct |
| RepositoryObservation.DefaultRepositoryObservation.CandidatesForCommits | src/attribution/repositoryObservation.ts:555-588 | the loop numbers the readable commits consecutively and advances the sequence by as many |
| RepositoryObservation.DefaultRepositoryObservation.ScanRefTransitions | src/attribution/repositoryObservation.ts:415-553 | the loop records and persists one ref after another |
| RepositoryObservation.DefaultRepositoryObservation.ScanRepo | src/attribution/repositoryObservation.ts:271-413 | one scan, including the reset of an epoch without cursor, has the effect of its specification |
| WorkspaceChangeTracker.LedgerFollowsMemory | src/attribution/workspaceChangeTracker.ts:91-173 | after every mutation of every history the ledger is the public view of memory, no observed state equals its baseline, and the change count is the number of distinct artifacts |
| WorkspaceChangeTracker.RestartRestoresMemory | src/attribution/workspaceChangeTracker.ts:42-58 | reloading the ledger rebuilds exactly the memory that was lost |
| WorkspaceChangeTracker.NewRunShutsEarlierEvidence | src/attribution/workspaceChangeTracker.ts:542-613 | when a run starts, no other query's evidence in its repositories that had started and was complete by then accepts a snapshot observed after the start |
| WorkspaceChangeTracker.RunStartShutsIff | src/attribution/workspaceChangeTracker.ts:562-580 | another query's evidence that was complete by the run start is gone or shut after it exactly when it had also started by then or was shut already |
| WorkspaceChangeTracker.ShutStaysShut | src/attribution/workspaceChangeTracker.ts:182-373 | shut evidence stays shut through every operation but a new observation or completion of its own query |
| WorkspaceChangeTracker.ShutMeans | src/attribution/workspaceChangeTracker.ts:783-790 | evidence is shut from a time on exactly when it accepts no snapshot observed later |
| WorkspaceChangeTracker.CompletionWindow | src/attribution/workspaceChangeTracker.ts:91-147 | after completion the query's evidence accepts exactly the snapshots of its settling window, and keeps what it observed |
| WorkspaceChangeTracker.TickFinishesExactly | src/attribution/workspaceChangeTracker.ts:267-373 | a tick drops exactly stale active evidence and settled evidence that saw nothing, completes settled evidence that saw changes, and leaves the rest alone |
| WorkspaceChangeTracker.SnapshotNotesExactly | src/attribution/workspaceChangeTracker.ts:204-211 | an accepted snapshot notes exactly the artifacts it shows off their baseline and forgets none noted before |
| WorkspaceChangeTracker.DefaultWorkspaceChangeTracker.Sweep | src/attribution/workspaceChangeTracker.ts:182-265 | the loop over all entries, in any order, changes, writes through and removes each as specified |
| WorkspaceChangeTracker.DefaultWorkspaceChangeTracker.RecordRunBaselines | src/attribution/workspaceChangeTracker.ts:410-540 | closes earlier windows, then reuses a baseline within an epoch or takes a new one, written through |
| WorkspaceChangeTracker.DefaultWorkspaceChangeTracker.RecordSnapshotEvidence | src/attribution/workspaceChangeTracker.ts:182-265 | lets windows run out at the snapshot's time, then notes changed states, or drops entries of another epoch |
| WorkspaceChangeTracker.DefaultWorkspaceChangeTracker.ObserveRunCompleted | src/attribution/workspaceChangeTracker.ts:91-147 | first observes the run, binding its baselines, then, with any mutations of others in between, opens the settling window of the query's evidence or finishes it, and drops it when nothing changed |
| TokenAccounting.RegroupingConserves | src/aggregation/tokenMeasurement.ts:202-238 | regrouping by key conserves every token field and the cost, reported or not |
| TokenAccounting.RegroupingMeans | src/aggregation/agentRunAssembler.ts:710-738 | groups have distinct keys and each holds exactly the sum of its rows |
| TokenAccounting.Regroup | src/storage/runLedger.ts:1139-1205 | the grouping loop computes these groups with the same grand total |
| TokenAccounting.ModelInvariantNeverFails | src/aggregation/tokenMeasurement.ts:440-568 | the model totals check passes, or does not apply exactly when a unit with tokens names no model; it never fails |
| TokenAccounting.PricedInvariantNeverFails | src/aggregation/agentRunAssembler.ts:906-936 | the priced total check passes, or does not apply exactly when nothing was priced; it never fails |
| TokenAccounting.LevelsAgree | src/storage/runLedger.ts:150-179 | runs, query groups, chat sessions and the range total agree in every field |
| TokenAccounting.QueryGroupExact | src/storage/runLedger.ts:1139-1150 | each query group holds exactly its runs, and stays a finalized breakdown if they are |
| ToolAttribution.OwnerIsNearest | src/aggregation/agentRunAssembler.ts:857-873 | a unit's owner is the first tool call met on the way to the root, and there is none exactly when no such way exists |
| ToolAttribution.OwningToolKeyForUnit | src/aggregation/agentRunAssembler.ts:857-873 | whenever the walk from the unit's span meets a claimed span or the root, the loop ends and finds that owner |
| ToolAttribution.EndsIffNeverBack | src/aggregation/agentRunAssembler.ts:863-870 | the walk ends exactly when it never comes back to a span it left, so a cycle beyond a claimed span does no harm |
| ToolAttribution.AcyclicEnds | src/aggregation/agentRunAssembler.ts:863-870 | with acyclic parents it ends from every span |
| ToolAttribution.ToolsPartitionOwnedUnits | src/aggregation/agentRunAssembler.ts:740-814 | tool summaries add up to exactly the units some tool call owns, each counted once |
| Pricing.PriceWithinTwo | src/pricing/costEstimation.ts:179-191 | a price is within two nano-USD of the unrounded value |
| Pricing.BatchNearUnits | src/storage/runLedger.ts:750-762 | pricing the summed tokens of n units differs from summing their prices by at most 2(n + 1) nano-USD when each unit reports output or derives its totals, cached tokens are within input and one row prices all |
| Pricing.BatchEqualsUnitsAtWholeRates | src/storage/runLedger.ts:750-762 | with rates of whole nano-USD per token the two are equal |
| Pricing.CachedBeyondInputBreaks | src/pricing/costEstimation.ts:179-182 | two units, one with cached tokens beyond its input, make the difference as large as wanted |
| Pricing.OutputGuessedBreaks | src/pricing/costEstimation.ts:257-267 | so does one unit whose unreported output is guessed from its totals |
| Pricing.TwoRowsBreak | src/storage/runLedger.ts:750-762 | so do units priced by two rows |

## Left out

- CommitAttributionLedger.MoveFailsIff: keeps allocations in the order they were added, while the store sorts them after
  each write. By `OrderDoesNotMatter` this can only matter to a repeated query in a transfer from the very commit the
  claim goes to, which no caller makes.
- WholePassProgress.WholePassSettles: keeps the inputs fixed, also the time and the decisions of candidates and the claim
  times of episodes that a pass writes back; loops with inputs that vary are covered by `ReconcileProgress.FewPassesChange`.
- Git, SQLite, files, HTTP, timers and hashing: their answers are parameters of the steps, and each store write is atomic.
- Clocks: the time an operation uses is a parameter, one `now` for a whole operation.
- JSON parsing, schema validation and the privacy guard on what is stored, with the errors they raise.
- Sorting for display and locale-aware comparison: lists are kept in the order the loops build them.
- Blank and empty strings as ids: an id is present or absent.
- Invalid dates: every timestamp is a number.
- Usd and credit fields beside nano-USD, coverage, confidence, warnings, notes and billing context.
- Diagnostics, lifecycle events, change notifications and the reasons recorded on candidates after a pass.
- `markConfirmedRewrites` (src/attribution/gitAttribution.ts:526): decides when to call the marking operation that is modelled.
- Retention, clearing, exports and publication snapshots of the ledgers.
- Loading a damaged ledger file; a damaged repository epoch is modelled as one that cannot be resumed.
- The deduplication of replayed raw records by key in the JSONL reader; which lines are blank is a parameter.
- The span database across `stop` and `configure`; a span's attributes and events are read together with its row.
- Deadlines of drains are counted in waits, not in milliseconds.
- Random epoch ids are assumed fresh: a step with a used id does nothing.
- Selection of the token source (root span, chat spans, events or metrics) and the borrowing of reasoning tokens.
- Matching a model name to a pricing row: the row is a parameter.
- Floating point: rates and prices are exact.
- The limit on listed query groups and sessions, which cuts a list after grouping.
- `compactEpisodes` and the episode's own lifecycle beyond binding evidence.
