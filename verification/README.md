# Receipted mutations, outbox delivery and what is built on them

A Dafny model of the write path of the BOS server and of the protocols that run on it, with proofs
that hold over whole runs and every interleaving of transactions.

- `StoreCore`, `Ledger`, `Database`: the one write path. A mutation checks whether its idempotency
  key was applied, then the expected revision, runs a domain write, bumps the entity's revision and
  inserts a receipt, all in one transaction. A failure rolls back and is audited in a second one.
- `Outbox`, `OutboxRuns`, `OutboxBounds`, `Delivery`: leased, retried, operator-recoverable delivery.
  The UPDATE of a job row has no status guard; safety rests on keys made of (job, retry cycle,
  attempt). `OutboxRuns` interleaves claims, late and repeated records, operator retries and any other
  mutation.
- `Compaction`, `Retention`: clearing receipt payloads, and the loop of the retention job.
- `Seeds`, `SeedRuns`, `SeedBoots`, `SeedAlike`, `SeedRetirement`, `SeedCrashes`, `SeedFailures`,
  `Overlay`: loading a client overlay at boot, over any sequence of boots and crashes.
- `Produce`, `Pump`: drafting with an unlocked model call, races, and the auto-produce pump.
- `Routes`, `Caps`, `Session`: the route override parser, the output caps walk, the session cookie.
- `Text`, `Selection`, `Schema`, `Wrappers`: rendering and ordering of text, ORDER BY … LIMIT, the tables.

The code changes tables step by step, so `Database.Store`, `Pump.State` and `Session.Process` are
classes whose methods are proved against functions on the tables (`MutateTx`, `BatchTx`, `StepTx`,
`SignedToken`); the lemmas are about those functions and about sequences of atomic steps. Every
IMMEDIATE transaction is one atomic step and anything may happen between two of them. The persistence
handle is a pooled connection, not a mutex, so the phases of a produce are separate steps.

## Assumptions

- When a record of a job reads the retry cycle, its claim is not ahead of the row, and is behind it if the
  row is settled (`InTurn`). Every claim that is recorded in the retry cycle it was taken in meets this
  (`InCycleIsInTurn`), and so does a late one that is behind. Nothing weaker will do: `InTurnIsExact`. Only
  the job a theorem is about must meet it; the `stray` jobs need not (`TimelyBut`).
- Operator retries of that job carry non-decreasing times and there are fewer than 10^12 receipts
  (`Clocked`), because the newest receipt is chosen by time and then by the text of its id.
- Only `record_attempt` and `retry_terminal_job` rewrite job rows, and other callers' keys do not start
  with `outbox_attempt:` (`Enabled`).
- A domain write inserts no receipt of its own and does not bump the entity it mutates
  (`LeavesOwnEntity`; `StepAccounts` shows this is exactly what the accounting needs).
- Digests in keys are hex. Of the seed versions the considered boots bring, no two of one seed share a
  digest (`IsHash`); nor do two batches of one cutoff among those spent before and those formed by the run
  (`IsDigest`).
- A default category that someone other than the loader wrote, or whose seed key is spent, still has its
  row (`OwnershipIsSticky`, `OwnedDefaultsKept`, `SpentDefaultsKept`), and the fallback category is not
  deleted: no store deletes rows, it marks them, and system categories are refused. Boots from a blank
  database lead to such states (`ReachedStatesAreAtRest`).

## Found while proving

- A record that crosses an operator retry can make a delivered job pending again: `DeliveredCanBeUndone`
  gives a run. `CrossingRecordExact` gives the conditions: the row is left alone exactly when the claim is
  behind it.
- Receipt ids stop sorting in numeric order at 10^12: `ReceiptIdsSortWhileTwelveDigits`.
- `after_stage` need not act on the draft its produce staged. It does exactly when that produce's key was
  unused when it staged and its draft is still active when the hook runs (`HookActsOnOwnDraft`). Two runs
  fail it: `ReusedKeyRunsHookForAnotherDraft`, and with fresh keys throughout
  `FreshKeysHookForAnotherDraft`.
- A policy saved together with its category has no receipt of its own, so the next overlay version
  replaces it (`PolicySavedWithCategoryIsReplaced`). Of rows an operator wrote last, loads replace
  exactly the client profile, by a fresh version (`OwnedRowIsReplacedIff`, `EditedProfileIsReplaced`).
- `record_attempt` returns the status of its own outcome even when the row was left alone by a replay.
  That is the row's status exactly when the record applied or the row had it already
  (`ReturnedStatusIsTheRowsIff`); `SecondRecordMisreports` gives the failing input.
- A logout is of one text of a session cookie, while the time in it may be written in several ways:
  `ParsesIff` says which texts stand for a session, `TextLivesUntil` and `LogoutIsPerText` which of them
  still authenticate, and `LogoutLeavesOtherSpellings` that another text of a minted cookie reads as before.
- Booting an overlay a second time can change what the first boot left: it can hide a rule, hide call_log,
  or fail. It changes nothing if and only if the state is `Inert` (`BootingTwiceIff`), and re-running a
  crashed boot does not matter unless its retirement was finished and the state is not inert
  (`CrashThenRerun`). `RunHidesRule` is a run from empty tables into such a state; `SpentKeyHidesRule` and
  `OperatorPinHidesRule` are two families of them.

## Model

| member | source | states |
|---|---|---|
| StoreCore.FailedMutationIsAudited | crates/bos-app/src/store_core.rs:424-439 | a failure adds one failed receipt with the revision read before it failed, to whatever state is current by then, and spends no key |
| StoreCore.MutateKeepsSound | crates/bos-app/src/store_core.rs:346-424 | a committed mutation keeps ids dense, keys applied once and revisions stepping and increasing; the id promised to the domain write is the id inserted |
| StoreCore.WriteKeeps | crates/bos-app/src/store_core.rs:644-685 | no domain write removes or reorders receipts, or lowers a revision |
| StoreCore.AppliedRevisionAgrees | crates/bos-app/src/store_core.rs:567-583 | the replay lookup finds something exactly when the mutation would replay, and names the same revision |
| StoreCore.NewestComesFirst | crates/bos-app/src/store_core.rs:505-521 | a newest-first lookup returns the row that sorts before every other match |
| StoreCore.ReceiptIdsSortWhileTwelveDigits | crates/bos-app/src/store_core.rs:725-728 | ids sort as text in numeric order if and only if all are below 10^12 |
| StoreCore.ReceiptIdInjective | crates/bos-app/src/store_core.rs:725-728 | an id names one receipt number |
| StoreCore.NewestStrip | crates/bos-app/src/store_core.rs:505-521 | newest-first lookups do not see payload columns |
| StoreCore.FindAppliedIs | crates/bos-app/src/store_core.rs:543-561 | the applied receipt of a key is the one its lookup finds |
| Text.PaddedOrder | crates/bos-app/src/store_core.rs:725-728 | zero-padded numbers that fit sort as text as they sort as numbers |
| Text.LastSeparator | crates/bos-app/src/outbox.rs:347-352 | what follows the last colon of a key determines both halves |
| Ledger.RunKeeps | crates/bos-app/src/store_core.rs:346-440 | in every reachable state ids are 1..N, keys are applied at most once, revisions step by one and increase, and no receipt is lost |
| Ledger.ReplayForever | crates/bos-app/src/store_core.rs:356-371 | after a key is applied every later use replays with the first revision and changes nothing else |
| Ledger.OneWinnerPerExpectedRevision | crates/bos-app/src/store_core.rs:380-398 | at most one mutation expecting a given revision of an entity is ever applied |
| Ledger.RevisionsAccount | crates/bos-app/src/store_core.rs:622-685 | an entity's revision is its first value plus its applied mutations plus the advances others made |
| Ledger.StepAccounts | crates/bos-app/src/store_core.rs:400-424 | the accounting holds for a step exactly unless its write bumped the mutated entity itself |
| Ledger.FailuresAreAuditedOnce | crates/bos-app/src/store_core.rs:424-439 | failed receipts and pending audits together are exactly the failures that happened, whatever commits in between |
| Ledger.StateIsFoldOfAppliedWrites | crates/bos-app/src/store_core.rs:398-424 | slice rows and job rows, leases aside, are the fold of the applied domain writes in commit order |
| Ledger.LogIsTheAppliedReceipts | crates/bos-app/src/store_core.rs:410-418 | the applied receipts in order are exactly the applied mutations, each with the id its write was given |
| Ledger.JobsComeFromAppliedMutations | crates/bos-app/src/outbox.rs:65-92 | a job row exists exactly when an applied mutation enqueued it or it was there before |
| Database.Store.ClearPayloadColumns | crates/bos-app/src/store_core.rs:211-257 | the loop nulls exactly the payloads the UPDATE hits and counts them |
| Database.Store.Execute | crates/bos-app/src/store_core.rs:398-400 | a domain write in place ends in the specified tables, or with the specified error |
| Database.Store.WriteAndFinish | crates/bos-app/src/store_core.rs:398-427 | the domain write is followed by bump, receipt and commit, or undone |
| Database.Store.Transact | crates/bos-app/src/store_core.rs:346-427 | the first transaction ends as specified; a failure leaves the tables as they were |
| Database.Store.Mutate | crates/bos-app/src/store_core.rs:291-440 | a mutation commits as specified or leaves one failed receipt, and keeps the log sound |
| Database.Store.RecordFailedReceipt | crates/bos-app/src/store_core.rs:322-344 | records a failure with the current revision and nothing else |
| Outbox.AttemptKeyInjective | crates/bos-app/src/outbox.rs:347-352 | an attempt key determines job, cycle and attempt, colons in the job id included |
| Outbox.Judge | crates/bos-app/src/outbox.rs:282-330 | which outcome ends in which status, and when a retry becomes terminal |
| OutboxRuns.AttemptKeysAreExact | crates/bos-app/src/outbox.rs:275-395 | a job in cycle c with attempts a has exactly the keys c:1 .. c:a applied, after any interleaving that is timely for that job |
| OutboxRuns.RecordAppliesIffNextAttempt | crates/bos-app/src/outbox.rs:353-393 | a record rewrites its row exactly when the cycle it read is the running one and it is the next attempt; else it moves no job |
| OutboxRuns.FirstOutcomeStands | crates/bos-app/src/outbox.rs:353-395 | once an attempt of a cycle is recorded, later records of that attempt leave every job as it is, stray jobs included |
| OutboxRuns.DeliveredIsFinal | crates/bos-app/src/outbox.rs:374-391 | delivered and delivery_outcome_unknown rows never change again, whatever other jobs' records do |
| OutboxRuns.TerminalLeftOnlyByRetry | crates/bos-app/src/outbox.rs:452-473 | failed_terminal is left only by an applied operator retry of that job |
| OutboxRuns.TimelyRunKeepsInv | crates/bos-app/src/outbox.rs:97-475 | every step of the protocol keeps keys exact, cycles fresh and held claims behind their rows, stray jobs aside; late records that are behind are included |
| OutboxRuns.RetryOpensCycle | crates/bos-app/src/outbox.rs:337-352 | an applied retry opens the cycle named by its own receipt |
| OutboxBounds.AttemptsAreBounded | crates/bos-app/src/outbox.rs:33-33 | with no staleness assumption: at most 7 attempts while pending, 8 ever, 8(r+1) applied attempts after r retries |
| OutboxBounds.LeaseOnlyGrows | crates/bos-app/src/outbox.rs:97-200 | while no record or retry of a job applies, its lease never ends earlier, whatever else runs |
| OutboxBounds.ClaimsAreSeparated | crates/bos-app/src/outbox.rs:97-200 | any two claims of a job, other claims in between or not, are separated by the end of the first lease unless a record or retry of the job applied in between |
| OutboxBounds.CrossingRecordExact | crates/bos-app/src/outbox.rs:337-393 | with no assumption on lateness: a record applies exactly when its claim is not behind the row, else leaves the row and its attempts alone, and keeps the keys exact exactly when it is not ahead |
| OutboxBounds.InTurnIsExact | crates/bos-app/src/outbox.rs:337-393 | the assumption of the timely runs is the weakest: a record keeps the keys exact and a settled row final if and only if it is met |
| OutboxBounds.OthersOutliveCrossing | crates/bos-app/src/outbox.rs:337-393 | after a crossing record of one job, and whatever follows for that job, every other job keeps exact keys and its settled rows |
| OutboxBounds.StrayJobsStayBounded | crates/bos-app/src/outbox.rs:33-33 | over whole runs with any late records of stray jobs, all attempts stay bounded and every other job's keys are exact |
| OutboxBounds.DeliveredCanBeUndone | crates/bos-app/src/outbox.rs:337-391 | a legal run that delivers a job and then makes it pending again |
| Selection.FirstIsUnique | crates/bos-app/src/outbox.rs:107-116 | ORDER BY time, id LIMIT n has one answer |
| Selection.Smallest | crates/bos-app/src/outbox.rs:107-116 | finds the first row of that order |
| Selection.First | crates/bos-app/src/outbox.rs:107-116 | computes the answer of that query |
| Delivery.ReadClaims | crates/bos-app/src/outbox.rs:107-140 | reads exactly the first due rows, in order, as snapshots |
| Delivery.ClaimDueJobs | crates/bos-app/src/outbox.rs:97-152 | returns exactly the first `limit` due jobs in (next_attempt_at, job_id) order and leases exactly those |
| Delivery.ClaimDueJobById | crates/bos-app/src/outbox.rs:154-200 | claims and leases one job exactly when it is due |
| Delivery.RecordAttempt | crates/bos-app/src/outbox.rs:275-395 | ends in the tables of the attempt's transaction; returns the outcome's status even on a replay |
| Delivery.ReturnedStatusInRuns | crates/bos-app/src/outbox.rs:353-395 | in runs the returned status is the row's exactly when the record was the next attempt of the running cycle or the row had that status before |
| Delivery.SecondRecordMisreports | crates/bos-app/src/outbox.rs:353-395 | a claim recorded twice: the row stays delivered and the second caller is told pending |
| Delivery.RetryTerminalJob | crates/bos-app/src/outbox.rs:406-475 | resets the row or reports why not, and audits the refusal |
| Delivery.RecordBatch | crates/bos-app/src/outbox.rs:594-616 | records each claim of a batch in turn, failing records included |
| Delivery.RunDeliveryCycle | crates/bos-app/src/outbox.rs:575-616 | claims a batch and records each claim in turn, going on after a record that fails |
| Delivery.CycleDeliversEachClaimOnce | crates/bos-app/src/outbox.rs:575-616 | an undisturbed cycle attempts every claimed row exactly once with its own outcome; a row whose record failed is leased and no more; one receipt per record that left one |
| Delivery.CycleLeavesOtherJobs | crates/bos-app/src/outbox.rs:575-616 | an undisturbed cycle moves no other row |
| Compaction.BatchAcceptedIff | crates/bos-app/src/store_core.rs:189-262 | a batch goes through exactly when its ids are distinct and each names an eligible receipt |
| Compaction.BatchClearsExactly | crates/bos-app/src/store_core.rs:211-220 | an accepted batch nulls both payloads of exactly the receipts it names |
| Compaction.PlainTwin | crates/bos-app/src/store_core.rs:398-427 | a write that clears no payloads does the same to states that differ in payloads: same tables, or same error |
| Compaction.CompactionIsInvisible | crates/bos-app/src/store_core.rs:189-262 | in any run, clearing payloads changes no later state but payloads, and nothing any caller sees |
| Compaction.TwinsLookAlike | crates/bos-app/src/store_core.rs:505-583 | latest actor, retry cycle, replay and revision lookups are the same with and without compaction |
| Compaction.RoundMakesProgress | crates/bos-app/src/store_core.rs:153-262 | one round lowers the eligible count by exactly the batch size |
| Retention.Candidates | crates/bos-app/src/store_core.rs:112-151 | reads exactly the oldest eligible receipts, in order |
| Retention.CountEligible | crates/bos-app/src/store_core.rs:153-185 | counts the eligible receipts |
| Retention.CandidatesQualify | crates/bos-app/src/store_core.rs:112-185 | candidates are distinct, eligible, and as many as limit and count allow: the two SELECTs agree with the UPDATE |
| Retention.CompactReceiptPayloads | crates/bos-app/src/store_core.rs:189-262 | an empty batch is refused without a trace, any other is one mutation |
| Retention.BatchKeyInjective | crates/bos-app/src/slices/data_retention/service.rs:452-466 | among batches whose digests differ, a batch key names cutoff, first and last receipt |
| Retention.NextKeyIsFresh | crates/bos-app/src/slices/data_retention/service.rs:339-410 | the next batch never reuses a key spent before |
| Retention.CompactRound | crates/bos-app/src/slices/data_retention/service.rs:371-394 | one round applies, adds its key to the spent ones and lowers the eligible count by the batch size |
| Retention.CompactBatches | crates/bos-app/src/slices/data_retention/service.rs:339-410 | the loop never meets the race error, compacts the smaller of limit and eligible count, and lowers the count by that, if the batches it forms do not collide |
| Seeds.SeedKeyInjective | crates/bos-app/src/overlay.rs:917-928 | among versions whose digests differ, a seed key names one version: kind, id and content |
| SeedRuns.BootsConverge | crates/bos-app/src/overlay.rs:744-839 | over any boots and crashed boots, each row shows the last version that had not appeared before, and its revision counts the versions |
| SeedRuns.VersionsApplyOnce | crates/bos-app/src/overlay.rs:917-928 | a version is applied exactly when some boot offered it, and once |
| SeedRuns.RunKeepsSound | crates/bos-app/src/overlay.rs:744-839 | boots keep the receipt log sound |
| SeedBoots.BootIsRun | crates/bos-app/src/overlay.rs:744-839 | a boot that ends at an error is a run of its first steps |
| SeedBoots.OwnershipIsSticky | crates/bos-app/src/overlay.rs:841-915 | once someone else wrote the newest receipt of a category, rule or policy, no boots change its row or revision; only an ensured default category must have its row |
| SeedBoots.PolicySavedWithCategoryIsReplaced | crates/bos-app/src/slices/email_triage/store.rs:2660-2728 | a policy an operator saved with its category is replaced by the next overlay version |
| SeedBoots.EditedProfileIsReplaced | crates/bos-app/src/overlay.rs:820-839 | a profile an operator edited gives way to the next version the overlay brings |
| SeedBoots.BootsKeepPins | crates/bos-app/src/overlay.rs:856-915 | no boots leave an active rule pinning a deleted category |
| SeedBoots.FirstBootKeepsPins | crates/bos-app/src/overlay.rs:744-760 | the first boot of a client without active rules makes the pins sound, and no later boot breaks them |
| SeedBoots.RetirementSparesPinned | crates/bos-app/src/overlay.rs:856-915 | whatever the tables hold, a retirement that takes call_log away leaves no active rule that pins it |
| SeedAlike.ListsAreEqual | crates/bos-app/src/overlay.rs:875-879 | equal rows give equal listings of the rules to retire |
| SeedAlike.RetireAlike | crates/bos-app/src/overlay.rs:856-915 | a retirement ends alike from states a boot cannot tell apart |
| SeedRetirement.RetireRulesHide | crates/bos-app/src/overlay.rs:875-901 | retiring listed rules never fails and hides exactly those that are not an operator's and whose key is unspent |
| SeedRetirement.InertRetires | crates/bos-app/src/overlay.rs:856-915 | from an inert state a retirement changes nothing a boot can see |
| SeedRetirement.MovingRetires | crates/bos-app/src/overlay.rs:856-915 | from any other state it refuses to delete a system category, hides call_log or hides a rule, bumping a revision |
| SeedRetirement.RetireResumes | crates/bos-app/src/overlay.rs:875-915 | a retirement interrupted after any of its rules, and run again, ends as if it had not been, whatever is owned or spent |
| SeedCrashes.RetirementFinishes | crates/bos-app/src/overlay.rs:856-915 | a retirement without an error leaves nothing to retire when no operator's rule pins call_log and no key it needs was spent |
| SeedCrashes.CrashThenRerun | crates/bos-app/src/overlay.rs:744-839 | a boot that crashed after any number of steps and ran again ends with the rows, revisions and error of one whole boot if and only if its retirement was not finished or the state it crashed in is inert |
| SeedCrashes.CrashWhileRetiring | crates/bos-app/src/overlay.rs:875-915 | a crash between two transactions of the retirement never matters, whatever is owned or spent |
| SeedCrashes.BootingTwiceIff | crates/bos-app/src/overlay.rs:744-839 | a second boot of the same overlay changes nothing if and only if the first left an inert state |
| SeedCrashes.CleanRetirementSurvivesCrash | crates/bos-app/src/overlay.rs:744-915 | no crash matters of a boot that found call_log retirable |
| SeedFailures.SpentKeyHidesRule | crates/bos-app/src/overlay.rs:856-915 | a state with a spent retirement key in which the second boot hides a rule the first left active |
| SeedFailures.OperatorPinHidesRule | crates/bos-app/src/overlay.rs:856-915 | the same while an operator's rule keeps call_log from being retired |
| SeedFailures.RunHidesRule | crates/bos-app/src/overlay.rs:744-915 | a run from empty tables that reaches a state that is not inert, and whose next boot hides a rule |
| SeedCrashes.ReachedStatesAreAtRest | crates/bos-app/src/overlay.rs:744-839 | boots from a blank database lead to states in which nothing is left to retire |
| Overlay.EnsureDefaults | crates/bos-app/src/slices/email_triage/store.rs:2522-2549 | writes the defaults the client never had a row for, from the ids read up front |
| Overlay.LoadAll | crates/bos-app/src/overlay.rs:760-817 | one kind's loop ends at the first error |
| Overlay.ListPins | crates/bos-app/src/overlay.rs:875-879 | lists exactly the active rules that pin call_log, in (priority, rule_id) order |
| Overlay.RetireRules | crates/bos-app/src/overlay.rs:875-901 | the retirement loop ends at the first error |
| Overlay.RetireCallLog | crates/bos-app/src/overlay.rs:856-915 | retires the seed-owned pins, then the category unless it is still pinned |
| Overlay.ApplySeeds | crates/bos-app/src/overlay.rs:744-839 | one boot is its steps in order, up to the first error |
| Overlay.BootEventsShape | crates/bos-app/src/overlay.rs:744-760 | every boot is the defaults, one retirement and the loads, and is covered by the boot theorems when no category seed is call_log |
| Overlay.OverlayCrashIff | crates/bos-app/src/overlay.rs:744-839 | the crash theorem, both directions, for the boots of an overlay, whatever either retirement listed |
| Overlay.ListedBoot | crates/bos-app/src/overlay.rs:744-760 | what a boot lists after its defaults is what the crash theorem asks for |
| Produce.PumpKeyInjective | crates/bos-app/src/produce.rs:1036-1038 | a pump key names one item and kind |
| Produce.RunKeepsInv | crates/bos-app/src/produce.rs:1395-1519 | every step of every produce, proposal, decision and crash keeps the invariant |
| Produce.OneActiveDraftPerPair | crates/bos-app/src/persistence/migrations/0009_calendar_event_drafts.sql:24-31 | at most one active draft per item and kind, and attempts numbered without gaps, in every interleaving |
| Produce.SlotExcludes | crates/bos-app/src/produce.rs:445-457 | no two produces that claimed the slot of one pair run at once |
| Produce.LosersNeverStage | crates/bos-app/src/produce.rs:1464-1508 | a produce that lost the race or found a draft never stages; a produce stages at most one |
| Produce.HookRunsInStagingProduce | crates/bos-app/src/produce.rs:1509-1519 | after_stage runs at most once per produce, and in the one that staged if and only if its key was unused when it staged |
| Produce.ReplayedIffKeySpent | crates/bos-app/src/slices/calendar_drafts/service.rs:140-172 | a staging transaction replays exactly when its key had been applied before it ran |
| Produce.ReadsBackOwnDraft | crates/bos-app/src/produce.rs:1464-1519 | the draft read back is the produce's own exactly when its key was unused and its draft still active then |
| Produce.HookActsOnOwnDraft | crates/bos-app/src/slices/crm_drafts/service.rs:362-388 | the hook acts on the produce's own draft exactly when its key was unused when it staged and that draft is still active when the hook runs |
| Produce.OneHookPerDraft | crates/bos-app/src/produce.rs:1509-1519 | under that condition no draft gets after_stage twice |
| Produce.ReusedKeyRunsHookForAnotherDraft | crates/bos-app/src/produce.rs:1509-1519 | a run in which after_stage runs in a produce that staged nothing |
| Produce.FreshKeysHookForAnotherDraft | crates/bos-app/src/slices/crm_drafts/service.rs:362-388 | a run with fresh keys in which the hook acts on another produce's draft, because its own was rejected before it was read back |
| Produce.PumpStagesOnce | crates/bos-app/src/produce.rs:1015-1047 | the pump stages at most one draft per pair over the whole run |
| Pump.State.CollectKinds | crates/bos-app/src/produce.rs:991-1009 | the inner loop adds the wanted kinds of one item, up to the limit |
| Pump.State.CollectCandidates | crates/bos-app/src/produce.rs:958-1013 | the scan of the newest accepted items, cut at the scan limit, returns exactly the first wanted pairs, in order |
| Pump.State.ProduceBlocking | crates/bos-app/src/produce.rs:1395-1519 | an undisturbed produce never loses a race and stages exactly the next attempt or nothing |
| Pump.State.RunCycle | crates/bos-app/src/produce.rs:1015-1065 | an undisturbed pump cycle frees every slot it took and adds exactly the next attempt of each candidate that may be drafted |
| Routes.ParseRouteOverrides | crates/bos-app/src/llm.rs:282-317 | the loop computes the later-wins map of the valid pieces |
| Routes.ParseIsModular | crates/bos-app/src/llm.rs:282-317 | parsing two parts joined by a separator is parsing each, the second overriding the first |
| Routes.InvalidEntryIsIgnored | crates/bos-app/src/llm.rs:279-317 | an invalid entry never affects the others |
| Routes.PrintParseRoundTrip | crates/bos-app/src/llm.rs:279-317 | printing well-formed routes in any order and parsing gives them back |
| Routes.HarnessEnabledIff | crates/bos-app/src/llm.rs:198-201 | the flag holds exactly when some purpose routes to the harness |
| Caps.Walk | crates/bos-app/src/llm.rs:1129-1150 | the walk fails exactly below the depth cap and otherwise has counted every value |
| Caps.ValidateOutputCaps | crates/bos-app/src/llm.rs:1126-1157 | accepts exactly height at most 64 and node count at most the cap; depth is reported in preference |
| Caps.FindSpec | crates/bos-app/src/llm.rs:1087-1095 | finds the first schema registered under a reference |
| Caps.FindMissing | crates/bos-app/src/llm.rs:1102-1109 | finds the first required field an object lacks |
| Caps.ValidateTypedTaskOutput | crates/bos-app/src/llm.rs:1083-1124 | accepts exactly valid outputs and reports the first failing check |
| Session.FormatParseRoundTrip | crates/bos-app/src/http.rs:965-993 | a cookie minted at any u64 time parses back to its time, fingerprint and proof |
| Session.ParsesIff | crates/bos-app/src/http.rs:975-993 | exactly which texts stand for a session: the time in any form that reads as its number, fingerprint and proof verbatim |
| Session.FormatInjective | crates/bos-app/src/http.rs:965-974 | different sessions never share a cookie |
| Session.SharedCookieLivesUntil | crates/bos-app/src/http.rs:568-634 | a shared-token cookie authenticates exactly until seven days passed or it was logged out, and which error follows |
| Session.TextLivesUntil | crates/bos-app/src/http.rs:568-634 | any text of a shared-token session authenticates exactly until seven days passed or that text was logged out |
| Session.LogoutIsPerText | crates/bos-app/src/http.rs:623-634 | a logout refuses its own text; any other text of the session reads as before |
| Session.LogoutLeavesOtherSpellings | crates/bos-app/src/http.rs:568-634 | a text that writes the time of a minted cookie otherwise stands for the same session and reads as before the logout |
| Session.MintsDiffer | crates/bos-app/src/http.rs:965-974 | cookies minted at different times differ, so logging one out leaves the others |
| Session.Process.SessionToken | crates/bos-app/src/http.rs:537-566 | signed cookies first; a session in memory is kept alive by use and removed when it lapsed |
| Session.Process.Clear | crates/bos-app/src/http.rs:623-634 | logout revokes a signed cookie and forgets any other |

## Left out

- JSON payloads are texts; their serialization, and the detail text of a race error, are not modelled.
- Casts between u64 and i64 columns: numbers are natural numbers.
- A process crash between a rolled-back mutation and its audit: the audit then stays pending.
- SQL, pooling, WAL and migrations: a transaction is one atomic step.
- Provider executors, model transports, credential patterns and schema tables are parameters.
- Delivery.RunDeliveryCycle: the reconciliation of content campaigns that ends a cycle, and a claim query that fails, are not part of it.
- Overlay.LoadAll: the stores' own validation is one flag of the seed, and what a store trims or normalises is a function of the version.
- SeedRuns.BootsConverge: overlays that seed the call_log category are excluded, because each boot retires that category before loading.
- Produce.OneActiveDraftPerPair: `crm_record_create` is excluded, because its store allows several drafts.
- Pump.State.CollectCandidates: the listing of accepted items, newest first, is given; the read errors of the scan are not modelled.
- The failed receipts a produce writes after a refused staging: they spend no key.
- `retry_backoff_ms` and `provider_error_detail`: their results are arbitrary retry times and texts here.
- Reading a cookie out of the request header, and how personal and API tokens are looked up.
- Backend defaults, numeric settings and endpoints of the model configuration.
