# Paid requests, evidence and publication of the procurement batches

This project models the part of the repository that must not go wrong twice: paying a
provider, keeping the answer, publishing it and finally deleting local files. It proves
properties of that model for every input, every interleaving, every crash and every
restart the model has. Run `dafny verify dfyconfig.toml`.

**The paid-request protocol.** `DispatchProtocol` is the file journal of
`scripts/match_provider_journal.py` under the stage ledger of
`scripts/run_dinaut_three_dot_matches.py`, as a machine whose actions are single system calls
of any number of threads, process deaths, power losses that drop or tear what was not
synced, and operator damage to either store. `JournalSafety` and `LedgerSafety` prove the two
at-most-once guarantees; `ProtocolLimits` shows in which surroundings each guarantee holds,
with a run that pays twice wherever it does not. `ProviderJournal` is the same code as
methods over a file system, a table and a network; each method carries a ghost copy of the
machine and is proved to be one thread's schedule of it. `JournalCalls` derives from the
machine what one interrupted call may leave in its folder, which is all that
`JevTransport` assumes of its callback when it proves the two-send bound of the alternate
scoring transport; `JournalHistories` turns whole machine histories of a folder, restarts
included, into the histories that bound speaks of.

**Who may pay, and what is published.** `Reservations` is the claim table, `ClaimGate` the
ownership check with the two places that send behind it, `ProviderControl` the slots, stop
latch and persisted hold of one coordinator, and `Publication` the compare-and-swap publisher
with its baseline, backup and result files.

**Shared answers and their cost.** `WireMap`, `WireRoundTrip` and `RecommendationSchema` are
the wire form of a shared answer and its two schemas; `Citations` moves exact source citations
out of the company's evidence and proves the decoder proof exact; `SharedBatch` binds one
answer to several cases and replays each alone; `Costs` and `Pacing` account for the tokens, and
`SectorRun` follows whole runs of the sector coordinator over one folder.

**Evidence.** `Staging`, `PendingQueue`, `PendingRuns`, `PendingFrozen` and `PendingReport` are the frozen
continuation of a recoverable queue; `AttemptAudit` and `RetryBudget` two independent counters
of paid attempts and the one-shot retry; `CleanupInventory`, `ManifestText`,
`CleanupArchive` and `CleanupRun` the archive that must exist before a file may go.

**Dates.** `Calendar` (day numbers as in section 21.4.1 of ECMA-262), `DateText` (the one
regular expression as a scanner with its inverse), `Schedule` and `Temporal` are
`apps/web/lib/procurementSchedule.ts`.

Modelling choices. A SHA-256 of canonical text is injective, so a stored digest is kept as
the value it digests. A PostgreSQL statement or transaction, a Redis script and an exclusive
file creation are single steps. Clocks, networks, other programs and the moment a process
dies are parameters or actions, quantified over. `once_json` is a write-once slot that may be
left absent, torn or whole by a death. A claim check and the send behind it are one step.
Names that repeat across modules (`Inv`, `Apply`, `Exec`) mean the same thing everywhere: what
every reachable state satisfies, one action, and a whole run.

Properties that turned out false of the code, each with a concrete input and the exact
condition under which it does hold:

- A batch can be sent while a member's claim has lapsed (`ClaimGate.LapsedClaimJoinsBatch`);
  it is under live claims exactly when no lapsed member brings an explanation of its own
  (`ClaimGate.BatchLiveExactly`), which the new-only scopes never do.
- One send per request hash fails when the ledger is lost or calls for one request overlap,
  and one send per folder and stage fails when folders are lost (`ProtocolLimits`).
- A reservation can be claimed twice (`Reservations.ReleaseAllowsAnother`), but at most once
  more often than it was given back (`Reservations.OneClaimBeyondReleases`).
- `scheduleTemporalState` compares dates as text, so "past" is undone at the start of Lima year
  10000 (`Temporal.YearTenThousand`); text and dates agree exactly while the year has four
  digits or starts with 9999 (`Temporal.ComparesExactly`).
- A parsed instant does not always parse again (`Schedule.LastHourLeavesRange`); it does exactly
  while its UTC year lies in 1000..9999 (`Schedule.IsoReparses`).
- `verify_archive` can refuse the program's own archive (`CleanupRun.DeepFoldersRefused`); it
  does exactly when the encoded manifest passes 16 MiB (`CleanupRun.InventoryArchives`).
- A binary can be flagged although a payment of its convocation is unreconciled
  (`CleanupInventory.PaymentsHoldOnlyTheirFolder`): preparation binaries belong to no case folder,
  and the same convocation under another root is another case folder. A binary is flagged exactly
  when it has no case folder or no payment of its case folder is unreconciled
  (`CleanupInventory.DoomedExactly`).
- The counted generations can pass the frozen maximum (`RetryBudget.RecoveryCanOverflow`); over
  a whole run they stay within it exactly when every authorization leaves room for what its
  recovery folder brings (`RetryBudget.RetriesRespectMaximum`).
- Decoded positions can differ from the strict tuple schema's
  (`RecommendationSchema.AcceptedPositionsDiffer`); they match exactly when the frozen requirement
  numbers ascend (`WireRoundTrip.PositionsMatchExactly`).
- The model that is not paced can pass its budget in one window (`Pacing.UnpacedRun`); every run
  of sends keeps every window within the budget exactly for the paced model
  (`Pacing.PacedExactly`).

## Model

| member | source | states |
|---|---|---|
| JournalSafety.JournalAtMostOnce | scripts/match_provider_journal.py:31-104 | in every interleaving of any callers, with deaths and power losses at any write, sync or send, each folder and stage is posted at most once while folders are kept |
| JournalSafety.UnresolvedNeverSends | scripts/match_provider_journal.py:67-83 | once a durable request file is left without a response and no live call owns it, no call ever posts or returns again from that folder and stage |
| JournalSafety.CallersAgree | scripts/match_provider_journal.py:70-76 | from an empty disk, every receipt handed back in any run is a 200 answer to the caller's own payload that was really sent, and all callers of a folder and stage get the same one |
| LedgerSafety.LedgerAtMostOnce | scripts/run_dinaut_three_dot_matches.py:323-356 | under the coordinator, each stage and request hash is posted at most once over any restarts, lost or copied folders included |
| ProtocolLimits.UndisturbedSends | scripts/run_dinaut_three_dot_matches.py:337-349 | a call that finds no row and no files does send and leaves a ledger row |
| ProtocolLimits.PerRequestExactly | scripts/run_dinaut_three_dot_matches.py:323-356 | one post per request hash is guaranteed exactly where the ledger survives and calls are coordinated |
| ProtocolLimits.PerFolderStageExactly | scripts/match_provider_journal.py:55-104 | one post per folder and stage is guaranteed exactly where folders survive |
| ProtocolLimits.EitherStoreSuffices | scripts/run_dinaut_three_dot_matches.py:323-356 | for coordinated calls, the same request is not posted twice from one folder while either store survives, and can be when both are lost |
| ProtocolLimits.OverlapRepays | scripts/run_dinaut_three_dot_matches.py:335-345 | without the coordinator two overlapping calls both pass the separate SELECT and INSERT and both pay |
| ProviderJournal.Host.PrivateJson | scripts/match_provider_journal.py:31-38 | exclusive creation refuses an existing file and otherwise leaves the whole file synced and linked, as four steps of the machine |
| ProviderJournal.Host.DispatchOnce | scripts/match_provider_journal.py:55-104 | posts exactly with a key, in a clean folder, when the wrapper lets it through and a Jev call goes to the scoring endpoint with `Authorization` or a Gemma call to either Gemini model with `x-goog-api-key`; every other call ends as a table of outcomes says; is one thread's schedule of the machine |
| ProviderJournal.Host.ReservedDispatch | scripts/run_dinaut_three_dot_matches.py:323-356 | posts exactly when besides that the request hash has no row; the row then left, its status and the outcome are stated for every kind of call and answer; a new row ends ok exactly when a receipt is returned |
| JournalCalls.CallIsAttempt | scripts/run_dinaut_three_dot_matches.py:323-356 | on a disk with nothing unsynced, whatever point a call of the journal, alone or behind the ledger, reaches and however its process ends, its folder meets the contract the transport relies on |
| JournalHistories.MachineHistory | scripts/match_provider_journal.py:55-104 | any uses of a folder, each cut short anywhere and ended by a power loss, leave the files and the sends of a root history of the transport |
| JournalHistories.MachinePaysSafely | scripts/dinaut_jev_transport.py:161-188 | whatever the machine left in the root folder, any later use of the transport keeps the two-send bound |
| JevTransport.CaseFolder.Prepare | scripts/dinaut_jev_transport.py:161-176 | a wire request is ready exactly when its writes survive, the child is untouched and the root, by its files, was never sent or holds the exact length rejection of this source; a saved answer is returned exactly when root or child holds one bound to the source; every other root raises |
| JevTransport.CaseFolder.DispatchTransport | scripts/dinaut_jev_transport.py:179-188 | changes only the child and sends at most once; an unsent usable case whose answer is delivered is answered, a case with a saved answer replays it, and every other case by its files raises or dies |
| JevTransport.CachedExactly | scripts/dinaut_jev_transport.py:144-159 | finds the stored answer of a case that can be replayed, nothing exactly while neither folder holds an attempt, and raises otherwise |
| JevTransport.CachedWithoutSource | scripts/dinaut_jev_transport.py:147-149 | without a source of the caller's, the source is the root's own request |
| JevTransport.TransportPaysSafely | scripts/dinaut_jev_transport.py:65-93 | over every root history and any later use: at most two sends, the second from the child after the stored exact length rejection, at most one answered 200 |
| JevTransport.AnswersAreFinal | scripts/dinaut_jev_transport.py:144-188 | after one answer nothing is sent again and every later call answers the same receipt or fails |
| ProviderControl.InFlightWithinSlots | scripts/dinaut_sector_match_scope.py:225-264 | in every schedule the sends in flight never exceed the one or two slots |
| ProviderControl.LateStartsWithinSlots | scripts/dinaut_sector_match_scope.py:232-264 | sends that start after the latch come only from threads already cleared, at most one per slot, one fewer when a slot holder set it |
| ProviderControl.StartsAreCounted | scripts/dinaut_sector_match_scope.py:249-264 | every send is a recorded start, and a late one is a cleared thread's first |
| ProviderControl.LatePostsWithinSlots | scripts/dinaut_sector_match_scope.py:225-264 | once the latch is set, whatever its threads do, the coordinator sends at most once more per slot, once less when a slot holder set it |
| ProviderControl.HoldIsForever | scripts/dinaut_sector_match_scope.py:225-238 | once the hold file exists and its coordinator is gone, no restart of any kind sends again |
| ProviderControl.ReplayNeverSends | scripts/dinaut_sector_match_scope.py:240-243 | coordinators opened for replay only never send |
| ProviderControl.SectorProviderControl.Fail | scripts/dinaut_sector_match_scope.py:232-238 | sets the latch and writes the hold file unless one is there, whose reason then stays |
| ProviderControl.SectorProviderControl.RequireSend | scripts/dinaut_sector_match_scope.py:240-247 | clears a thread exactly when there is no latch, no replay and ownership holds; only a fresh loss of ownership latches |
| ProviderControl.SectorProviderControl.GuardedPost | scripts/dinaut_sector_match_scope.py:249-264 | sends exactly when cleared, gives its slot back, latches exactly on a failure, and the hold keeps the first reason: lost ownership, a raised transport or a rejection |
| ProviderControl.OpenControl | scripts/dinaut_sector_match_scope.py:225-230 | one or two slots only, and a saved hold is taken up |
| Reservations.ClaimEvaluation | workers/seace/src/buenapro_worker/prod2/repository.py:362-386 | a claim is granted exactly for an absent or pending row, which becomes running under the new token and lease |
| Reservations.ClaimExactly | workers/seace/src/buenapro_worker/prod2/repository.py:362-386 | what a claim makes of every row: an absent or pending one runs under the new token for an hour, an expired one becomes uncertain, any other is left as it is and named |
| Reservations.UpdateExactly | workers/seace/src/buenapro_worker/prod2/repository.py:402-418 | every other action changes one row at most, by its own token and from a running row or, to settle or renew it, an uncertain one; what the row then holds |
| Reservations.OneClaimBeyondReleases | workers/seace/src/buenapro_worker/prod2/evaluation.py:240-253 | over any claims, expiries, completions, recoveries and releases, the authorized claimers of a reservation are at most one more than its releases, and a reservation that is not open belongs to the latest |
| Reservations.OneClaimEver | workers/seace/src/buenapro_worker/prod2/repository.py:362-386 | a reservation that is never released has at most one authorized claimer over any run |
| Reservations.ReleaseAllowsAnother | workers/seace/src/buenapro_worker/prod2/accepted_runner.py:97-105 | a claim released after a provider rejection lets a second claimer in |
| Reservations.SettledIsFinal | workers/seace/src/buenapro_worker/prod2/repository.py:402-418 | a completed or closed reservation never changes again |
| Reservations.UncertainNeverRuns | scripts/run_dinaut_three_dot_matches.py:502-539 | without the recovery an uncertain reservation never runs again |
| ClaimGate.ScoringGate | scripts/run_dinaut_three_dot_matches.py:359-388 | passing the scoring gate without a live claim means a cached receipt exists |
| ClaimGate.CachedNeverSends | scripts/dinaut_jev_transport.py:179-188 | a case with a cached receipt is never sent again by the transport |
| ClaimGate.GateExactly | scripts/run_dinaut_three_dot_matches.py:359-388 | the gate passes exactly for the claim's own row of the frozen request with readable evidence and a live lease, or with saved answers for that stage, or for both on a settled or uncertain row |
| ClaimGate.CaseRun.ObtainClaim | scripts/run_dinaut_three_dot_matches.py:601-612 | a saved claim is reused unchanged; a fresh one is live and durable before it is used |
| ClaimGate.CaseRun.RunCase | scripts/run_dinaut_three_dot_matches.py:591-685 | every send is made under the case's own running live claim; new-only and scoring-only runs never send an explanation; a first run whose requests are answered, or one with answers to replay, ends ready to publish; a publishable case is scored, explained and completed, and a halted one leaves no row running under its token |
| ClaimGate.Batch.Execute | scripts/run_dinaut_three_dot_gemma_batches.py:222-247 | the shared send happens only within the budget and after every member passed its gate, once per clean batch folder |
| ClaimGate.BatchLiveExactly | scripts/run_dinaut_three_dot_gemma_batches.py:241-247 | the shared send is under live claims exactly when no lapsed member has an explanation of its own |
| ClaimGate.NewOnlyBatchIsLive | scripts/run_dinaut_three_dot_gemma_batches.py:222-247 | whatever was run on new-only cases before, every shared send of those not yet bound is under live claims |
| ClaimGate.LapsedClaimJoinsBatch | scripts/run_dinaut_three_dot_matches.py:371-388 | a case scored and explained on its own passes the gate of a shared send under an uncertain claim |
| Publication.NewOnlyInserts | scripts/dinaut_three_dot_persistence.py:141-254 | in new-only scopes, crashes and other writers included, every committed change is an insertion and no case is inserted twice |
| Publication.ThreeDotReplaces | scripts/dinaut_three_dot_persistence.py:192-254 | only allowlisted rows are replaced, each keeps its id, and its exact previous row is in the backup for good |
| Publication.StepChanges | scripts/dinaut_three_dot_persistence.py:164-254 | one action commits at most one change, of a row that was as the change says, and touches no other row |
| Publication.CommitIsFinal | scripts/run_dinaut_three_dot_matches.py:282-320 | after a commit no crash or rerun changes the row again unless another writer does |
| Publication.Publisher.Predispatch | scripts/run_dinaut_three_dot_matches.py:308-320 | work starts exactly when there is no result, the row's id and analysis are those of the selection and the baseline is stored, and then from that baseline |
| Publication.Publisher.PublishCase | scripts/dinaut_three_dot_persistence.py:126-256 | publishes exactly when it commits one change, with the exact previous row and composition already backed up |
| Publication.PublishCommits | scripts/dinaut_three_dot_persistence.py:180-256 | a publication with live evidence, the row of its baseline, an allowed replacement or none, its backup and an unforestalled commit does commit: the paid composition and provenance, under the id the match had or the new one |
| Publication.PublishRefuses | scripts/dinaut_three_dot_persistence.py:141-256 | a publication that misses any of these changes no row of the publisher, and leaves at most the row another writer inserted |
| Publication.ResultRecorded | scripts/run_dinaut_three_dot_matches.py:676-678 | the committed match id is what the result file keeps, once |
| Staging.RedisStage.StageOne | workers/seace/src/buenapro_worker/prod2/staging.py:18-25 | a new candidate goes last in the order of the work, a known one changes nothing, and a consistent stage stays consistent |
| Staging.RedisStage.Reserve | workers/seace/src/buenapro_worker/prod2/staging.py:27-40 | on a consistent stage it cannot fail, keeps the order of the work and every payload, and reserves the oldest candidate exactly when one is queued |
| Staging.RedisStage.Acknowledge | workers/seace/src/buenapro_worker/prod2/staging.py:42-53 | on a consistent stage it finishes exactly the reserved, fails exactly for the queued, removes one id from the order and keeps every other payload |
| Staging.RedisStage.RecoverAll | workers/seace/src/buenapro_worker/prod2/staging.py:55-70 | checks every reservation, then puts all back at the front in their original order |
| Staging.RecoverKeeps | workers/seace/src/buenapro_worker/prod2/staging.py:55-70 | recovery never fails on a consistent stage and restores the exact order of unfinished work |
| Staging.NextKeeps | workers/seace/src/buenapro_worker/prod2/staging.py:27-40 | on a consistent stage a reservation never fails and changes neither consistency nor order |
| Staging.AckKeeps | workers/seace/src/buenapro_worker/prod2/staging.py:42-53 | an acknowledged reservation leaves a consistent stage whose order is the old one without it |
| PendingQueue.BoundStage.Take | scripts/continue_prod2_pending.py:292-304 | hands on exactly the frozen members it reserves; anything else stays reserved and stops the run |
| PendingQueue.BoundStage.Acknowledge | scripts/continue_prod2_pending.py:306-314 | refuses and stops without an authorized durable outcome, otherwise acknowledges |
| PendingQueue.PayloadPasses | scripts/continue_prod2_pending.py:154-180 | a payload passes exactly with a canonical id of one to nineteen digits and its own row, a keyword, year and object of the plan, page 1 to 498, a period inside the plan's and the plan's business context |
| PendingQueue.OutcomePasses | scripts/continue_prod2_pending.py:256-269 | below sixty is never accepted, a finished or unread case always, any other either way |
| PendingRuns.BoundIsFrozen | scripts/continue_prod2_pending.py:223-253 | the manifest of a bound snapshot passes validate_frozen |
| PendingFrozen.FrozenExactly | scripts/continue_prod2_pending.py:231-253 | with member counts that add up, validate_frozen accepts a manifest exactly when some queue snapshot binds to it |
| PendingRuns.ReachableKeepsEverything | scripts/continue_prod2_pending.py:214-314 | in every reachable state the keys partition, ids and payloads are the frozen ones, finished members have outcomes and unfinished ones keep the frozen order |
| PendingRuns.ResumeCheckIsExact | scripts/continue_prod2_pending.py:272-284 | with the queue in frozen order, the resume check accepts a state if and only if a run and a recovery reach it |
| PendingReport.ReportPartitions | scripts/continue_prod2_pending.py:329-352 | the five lists hold every authorized id exactly as often as the manifest, and the counts add up |
| PendingReport.ReportLists | scripts/continue_prod2_pending.py:329-346 | each list holds, in manifest order, exactly the ids whose outcome has its status, or none; the accepted number counts the ids with an accepted outcome |
| PendingReport.CompleteExactly | scripts/continue_prod2_pending.py:336-347 | the report says complete exactly when every member is acknowledged with a conclusive outcome and nothing failed or is unpriced |
| Calendar.CivilRoundTrip | apps/web/lib/procurementSchedule.ts:58-59 | the civil date of a real date's day number is that date |
| Calendar.CivilIsValid | apps/web/lib/procurementSchedule.ts:58-59 | every day number is the day number of a real civil date |
| Calendar.CalendarTest | apps/web/lib/procurementSchedule.ts:58-59 | building a Date and reading it back agrees exactly for real dates |
| Calendar.MonthLengths | apps/web/lib/procurementSchedule.ts:58-59 | a date is real exactly within the lengths of the months, with the leap years of the Gregorian calendar |
| Calendar.MonthsCarry | apps/web/lib/procurementSchedule.ts:58-59 | twelve months more are the same month of the next year |
| Calendar.Epoch | apps/web/lib/procurementSchedule.ts:58-59 | day numbers count from the first of January 1970 |
| DateText.ScanIsExact | apps/web/lib/procurementSchedule.ts:53 | the scanner accepts exactly the texts of the regular expression, each read in one way |
| Schedule.AcceptsExactly | apps/web/lib/procurementSchedule.ts:50-79 | exactly real dates from year 1000 with a real time and an offset of at most fourteen hours are accepted |
| Schedule.OffsetsAgree | apps/web/lib/procurementSchedule.ts:70-82 | an instant written at any accepted offset and style parses to the one UTC text of that instant |
| Schedule.WrittenTime | apps/web/lib/procurementSchedule.ts:66-82 | a real date from year 1000 with a time in its text parses to the UTC text of that instant to the millisecond, five hours west without a zone, and to its precision, or to nothing out of range |
| Schedule.SeparateHour | apps/web/lib/procurementSchedule.ts:61-82 | a separate hour replaces the time and zone of the text: the result is that date at that Lima hour, five hours west, to the minute or second it is written to, or nothing out of range |
| Schedule.OtherSeparate | apps/web/lib/procurementSchedule.ts:61-69 | no other separate text is accepted with any date |
| Schedule.TimedFixedPoint | apps/web/lib/procurementSchedule.ts:50-83 | every timed result is an instant's text and parses again to itself exactly while its UTC year is in 1000..9999 |
| Schedule.IsoReparses | apps/web/lib/procurementSchedule.ts:50-83 | the UTC text of any instant parses to itself in that range and not at all outside |
| Schedule.LastHourLeavesRange | apps/web/lib/procurementSchedule.ts:50-83 | 9999-12-31T23:00:00-05:00 is accepted and its own UTC text is not |
| Schedule.DateOnlyFixedPoint | apps/web/lib/procurementSchedule.ts:60-64 | a date without a time, in either layout, parses to its dashed text, which is its own parse |
| Temporal.ComparesExactly | apps/web/lib/procurementSchedule.ts:124-132 | from year 1000 on, text comparison is date comparison exactly while the Lima year has four digits or starts with 9999 |
| Temporal.StateExactly | apps/web/lib/procurementSchedule.ts:124-146 | the state by days and instants: past once the end day is over or its instant has come, upcoming before the start day or instant, active between; a day bound says nothing on its own day, and an end before its start gives unknown |
| Temporal.TimeMovesOneWay | apps/web/lib/procurementSchedule.ts:124-146 | for every mix of precisions past is absorbing, upcoming downward closed and active one interval |
| Temporal.YearTenThousand | apps/web/lib/procurementSchedule.ts:124-146 | a stage that is past stops being past on the first day of Lima year 10000 |
| Temporal.WindowHoldsInstants | apps/web/lib/procurementSchedule.ts:148-160 | a quotation window bound is always the text of an instant |
| Temporal.WindowExactly | apps/web/lib/procurementSchedule.ts:148-160 | the window is that of the first quotation stage, each side its own text's parse when that carries a time |
| WireMap.NormalizeMapOutput | scripts/dinaut_recommendation_schema.py:130-156 | accepts exactly well-formed answers that cover the requested cases, and lists each case's rows by number |
| WireRoundTrip.DecodeEncode | scripts/dinaut_recommendation_schema.py:130-156 | decoding an encoded list of cases gives the same cases with rows sorted by number |
| WireRoundTrip.SortedIsPermutation | scripts/dinaut_recommendation_schema.py:146-151 | sorting keeps exactly the given rows and leaves ascending rows as they are |
| WireRoundTrip.EncodeDecode | scripts/dinaut_recommendation_schema.py:130-156 | encoding what an accepted answer decodes to gives the answer back |
| WireRoundTrip.SchemaDecodes | scripts/dinaut_recommendation_schema.py:97-117 | an answer with exactly the schema's keys decodes to exactly the frozen cases and requirement numbers |
| WireRoundTrip.PositionsMatchExactly | scripts/dinaut_recommendation_schema.py:47-94 | its positions are those of the tuple schema exactly when the frozen numbers ascend |
| WireRoundTrip.PositionsCanDiffer | scripts/dinaut_recommendation_schema.py:97-117 | an answer to a case whose requirements are frozen as 2 and 1, with the map schema's keys and types, does not stand at the frozen positions |
| RecommendationSchema.DocumentRefs | scripts/dinaut_recommendation_schema.py:11-30 | returns the aliases exactly when some list of distinct valid aliases is the profile's |
| RecommendationSchema.SchemaFromContexts | scripts/dinaut_recommendation_schema.py:47-94 | builds a schema exactly for one to five well-formed contexts of one profile, fixing every case and position |
| RecommendationSchema.AcceptedPositionsDiffer | scripts/dinaut_recommendation_schema.py:47-117 | a context that the schema builder accepts, with an answer of the map schema that does not stand at the tuple schema's positions |
| Citations.NormalizeRequirementSourceRefs | scripts/dinaut_source_citation_refs.py:25-67 | the loop computes the row-by-row specification and raises exactly where it does |
| Citations.CaseChange | scripts/dinaut_source_citation_refs.py:40-67 | only references change, each list merges what is kept with copies of that requirement's citation, and a second pass is the identity |
| Citations.CaseAcceptsExactly | scripts/dinaut_source_citation_refs.py:32-58 | accepts exactly the distinct frozen requirements in order, with no reference that is neither the company's nor that requirement's own citation |
| Citations.NormalizeBatchSourceRefs | scripts/dinaut_source_citation_refs.py:70-84 | the batch loop computes the case-by-case specification |
| Citations.BatchIsPerCase | scripts/dinaut_source_citation_refs.py:70-84 | at every position the batch form is the per-case form, and its notes can be picked out by key |
| Citations.BatchAcceptsExactly | scripts/dinaut_source_citation_refs.py:70-84 | a batch is normalised exactly when each of its cases is |
| Citations.ProofIsExact | scripts/dinaut_source_citation_refs.py:87-116 | a batch's proof verifies a case exactly with that batch's request, response and input, that recommendation and those notes |
| SharedBatch.RecommendationsWithDecoderNotes | scripts/run_dinaut_three_dot_gemma_batches.py:165-179 | computes the decode, correction and validation of a whole answer, or nothing |
| SharedBatch.BatchFiles.BindSavedBatch | scripts/run_dinaut_three_dot_gemma_batches.py:188-219 | computes the write-once steps that whole runs are made of; success binds every case of the plan to this folder's answer and its share, no earlier binding or proof is ever changed, and a readable folder none of whose files is taken succeeds |
| SharedBatch.SavedReplaysWhole | scripts/run_dinaut_three_dot_matches.py:412-446 | after binding, every case replays alone to the recommendation of the whole decode of its own folder, proof check included |
| SharedBatch.SavedIsOwn | scripts/run_dinaut_three_dot_matches.py:412-446 | whatever a case replays is of its own binding and input, from the very request and finished 200 answer it was bound to, validated, and proved if its citations were corrected |
| SharedBatch.SplitConserves | scripts/run_dinaut_three_dot_gemma_batches.py:208-212 | the shares of each usage counter add up to what was reported |
| Pacing.PacedWait | scripts/run_dinaut_three_dot_gemma_batches.py:146-162 | the wait loop ends, with room for the request, after at most one turn per earlier send, and when woken in time at the first moment with room |
| Pacing.WindowsWithinBudget | scripts/run_dinaut_three_dot_gemma_batches.py:146-162 | no 62-second window holds more than 14500 counted tokens of unrejected sends |
| Pacing.Pacer.SendBatch | scripts/run_dinaut_three_dot_gemma_batches.py:235-247 | an oversized request is not sent, any other is sent in its turn, and every window stays within the budget |
| Pacing.PacedExactly | scripts/run_dinaut_three_dot_gemma_batches.py:146-162 | every run of sends keeps every window within the model's budget exactly when the model is the paced one |
| Costs.GroupsForContexts | scripts/run_dinaut_sector_matches.py:179-185 | the groups are the cases in order, in ones and twos of at most sixteen requirements, apart only for weight |
| Costs.ProviderCosts | scripts/run_dinaut_sector_matches.py:264-292 | the total is 42 billionths of a dollar per scoring token, 250 per prompt token and 1500 per written token, thoughts among them, over every durable answer once; the unpriced attempts and the priced answers are counted exactly |
| Costs.SharesConserve | scripts/run_dinaut_three_dot_matches.py:638-642 | the share costs of an answer's cases add up to the cost of the answer |
| Costs.SharePrice | scripts/run_dinaut_three_dot_matches.py:638-642 | a share costs 250 billionths of a dollar per prompt token and 1500 per candidate or thought token |
| Costs.PublishedCostsConserve | scripts/run_dinaut_sector_matches.py:264-292 | with every prepared case published at its own receipt plus its own share, the total over original receipts is the sum of published costs plus the shares bound to no case |
| Costs.BoundCostsAreExact | scripts/run_dinaut_sector_matches.py:264-292 | on any files whose bindings are genuine, where binding finished on every priced answer the published costs are exactly that total |
| SectorRun.OneAnswerPerCase | scripts/run_dinaut_sector_matches.py:203-245 | over every run of coordinators, failures, deaths and restarts included, no case is in two saved shared answers |
| SectorRun.BoundToItsAnswer | scripts/run_dinaut_three_dot_gemma_batches.py:188-219 | under the invariant that `ExecKeepsInv` proves of every run, a bound case of a saved answer is bound to that answer with its own share, and the answer decodes with its proof |
| SectorRun.LeavesFlight | scripts/run_dinaut_sector_matches.py:228-236 | a split group's cases can be grouped again, and a split or bound group is out of flight |
| SectorRun.PublishedRunIsExact | scripts/run_dinaut_sector_matches.py:264-292 | over every run, once every prepared case is published the costs they were published with add up exactly to the total over original receipts |
| SectorRun.OneCasePublished | scripts/run_dinaut_sector_matches.py:203-258 | a run that scores, groups, answers, binds and publishes does publish every prepared case |
| Costs.UnboundAnswer | scripts/run_dinaut_three_dot_gemma_batches.py:188-219 | the limit of binding by itself: on folders holding two answers to one case, which no sector run makes, the case is bound to the first and the second's cost is with nobody |
| CleanupInventory.PaymentEvidence | scripts/cleanup_prod2_selected.py:211-238 | returns exactly the cases with an unreconciled payment, told by names and fields: a claim without its response, a started attempt without its outcome, or an outcome with unknown usage or unfinished cleanup; its partner replaces every occurrence in the path, and a payment outside every case is refused |
| CleanupInventory.JevAttemptKeeps | scripts/cleanup_prod2_selected.py:223-231 | a started Jev attempt keeps its case exactly while its outcome is not listed or does not say that the usage is known |
| CleanupInventory.GeminiAttemptKeeps | scripts/cleanup_prod2_selected.py:223-238 | a started generation keeps its case exactly while its outcome is not listed, its usage is not known, or its own cleanup is pending or unknown |
| CleanupInventory.ClaimKeeps | scripts/cleanup_prod2_selected.py:219-222 | a claim of one of the three stages keeps its case exactly while its response is not listed |
| CleanupInventory.BinaryExactly | scripts/cleanup_prod2_selected.py:37 | a file is a binary exactly by its ending, in either case |
| CleanupInventory.TakeInventory | scripts/cleanup_prod2_selected.py:143-208 | succeeds exactly for at most 20,000 files of at most two GiB, and two GiB of distinct bytes, whose payment outcomes can be read and whose unreconciled payments have a case, and then lists them as they are, flagged by the payment evidence |
| CleanupInventory.DoomedExactly | scripts/cleanup_prod2_selected.py:194-196 | a file is flagged exactly when it is a binary and, if it has a case folder, no payment of that folder is unreconciled |
| CleanupInventory.PaymentsHoldOnlyTheirFolder | scripts/cleanup_prod2_selected.py:165-197 | with one unreconciled claim in a case folder, a preparation binary and a binary of the same convocation under another root are flagged |
| CleanupArchive.VerifyArchive | scripts/cleanup_prod2_selected.py:251-286 | the streamed check accepts exactly the archives with one right manifest and every inventoried digest once, whole and within bounds |
| CleanupArchive.AcceptedRecovers | scripts/cleanup_prod2_selected.py:251-286 | every inventoried file can be taken out of an accepted archive byte for byte |
| CleanupArchive.BuiltIsAccepted | scripts/cleanup_prod2_selected.py:289-332 | the deduplicated stream of an inventory is accepted exactly while its manifest is within 16 MiB and its bytes within two GiB |
| CleanupArchive.StreamArchive | scripts/cleanup_prod2_selected.py:305-326 | streams exactly that stream when no look at the disk finds a changed file, and in any case only files found as listed before and after they were read |
| CleanupArchive.BuildArchive | scripts/cleanup_prod2_selected.py:289-332 | hands on only an accepted archive, and succeeds on unchanged files within the limits |
| CleanupRun.Laptop.CloudBackup | scripts/cleanup_prod2_selected.py:347-384 | success means the cloud gives the exact archive back; earlier objects are untouched |
| CleanupRun.Laptop.DeleteBinaries | scripts/cleanup_prod2_selected.py:387-396 | whatever others do to the disk meanwhile, removes only flagged files found with their inventoried bytes, and nothing at all unless each of them was just found so |
| CleanupRun.Laptop.ExecuteInventory | scripts/cleanup_prod2_selected.py:399-422 | dying at any durable step or not, with other programs changing files at any look, every removal ever made was of a flagged binary with its listed bytes, in no case with an unreconciled payment, is in an accepted archive the cloud holds, and followed its pointer and a comparison of every listed file; undisturbed, a first run that fits removes every flagged file unless it dies, which it does exactly when its steps run out |
| CleanupRun.InventoryArchives | scripts/cleanup_prod2_selected.py:289-332 | an inventory's own archive is accepted exactly while its manifest, measured byte for byte, fits in 16 MiB |
| ManifestText.ManifestBytes | scripts/cleanup_prod2_selected.py:307 | the length the limit is measured by is that of the entries as compact JSON with sorted keys, escaped and in UTF-8 |
| ManifestText.Utf8Decodes | scripts/cleanup_prod2_selected.py:307 | the encoded bytes of a character give its code point back |
| CleanupRun.DeepFoldersRefused | scripts/cleanup_prod2_selected.py:251-286 | an inventory of as many files as allowed, with paths of a thousand characters, is taken and its own archive refused |
| AttemptAudit.CombinedAudit | scripts/recover_prod2_selected.py:226-269 | raises exactly on conflicting receipts; otherwise its counts are the sizes of literal sets of attempts, and its cost and time the sums over them: which attempts count, their provider, whose usage is known, and whether outcome, response or start is what each is taken to cost and last |
| AttemptAudit.AuditIgnoresOrderAndCopies | scripts/recover_prod2_selected.py:226-258 | root order, repeated roots and identical copies of receipts change nothing |
| AttemptAudit.AuditAdds | scripts/recover_prod2_selected.py:226-269 | audits of disjoint attempts add up, and are clean exactly when their union is |
| AttemptAudit.CostMovesAlone | scripts/recover_prod2_selected.py:258-269 | receipts that raise or lower what one attempt is taken to cost by d change the known cost by d and nothing else |
| RetryBudget.CountBudget | scripts/retry_prod2_llm1.py:250-273 | the loop over roots computes the number or refuses copied and misnamed receipts, in any order |
| RetryBudget.RefusedExactly | scripts/retry_prod2_llm1.py:250-273 | the number is refused exactly when a receipt of a begun generation has no canonical id or another file's name, or one generation is in two roots |
| RetryBudget.BudgetIsAuditPlusPermits | scripts/retry_prod2_llm1.py:227-273 | for histories of the one model it is the audit's generation calls plus permits without a start |
| RetryBudget.StepCounts | scripts/retry_prod2_llm1.py:227-273 | a permit adds one and only below the maximum, an authorization exactly what its recovery folder brings, its start and every answer nothing; only an unacceptable recovery folder makes the number uncountable |
| RetryBudget.RetriesRespectMaximum | scripts/retry_prod2_llm1.py:344-378 | over any retries, interruptions and repetitions the counted generations stay within the frozen maximum throughout exactly when they start within it and every authorization leaves room for what it brings |
| RetryBudget.OneShot | scripts/retry_prod2_llm1.py:349-352 | a folder whose permit was published by a process now gone never changes again over any run |
| RetryBudget.OneGeneration | scripts/retry_prod2_llm1.py:349-367 | at most one generation starts in a retry folder over any run, its process alive or not |
| RetryBudget.RecoveryCanOverflow | scripts/retry_prod2_llm1.py:227-249 | with a maximum of one and the one original call made, an authorization naming a recovery folder with another call takes the number past it |

## Left out

- SectorRun.PublishedRunIsExact: costs are exact integers, so the rounding of a decimal beyond 28 digits is not modelled; a response file torn by a death, on which every later start and the total itself fail, is not an answer; what else can stop a coordinator is the action that ends it, which may come at any time.
- Costs.PublishedCostsConserve: the reuse discount of the three-dot scope is not modelled.
- Temporal.TimeMovesOneWay: Lima keeps -05:00, so its historical daylight saving and its local mean time are not modelled; condition on the Lima years of the three times.
- RetryBudget.OneGeneration: the folder is not also named as somebody's recovery folder, whose evidence an authorization takes as it is.
- Publication.NewOnlyInserts: other writers insert and replace rows but do not delete them; after a deletion a case could be inserted again.
- ClaimGate.CaseRun.RunCase: the lease does not expire between a check and its send; publication itself is the Publication module; scoring and composition are parameters.
- ClaimGate.Batch.Execute: the members' evidence and the table do not change between the first gate and the send.
- DispatchProtocol: a folder's own entry in its parent, which `private_json` creates and never syncs, is taken as durable: a power loss that drops a whole new folder is a power loss followed by the loss of that folder, which the folder guarantees exclude.
- JevTransport.TransportPaysSafely: files that survive a process death are settled before the next call.
- JournalHistories.MachineHistory: one caller at a time, and each use of the folder ends with a restart.
- CleanupRun.Laptop.ExecuteInventory: a file's last comparison and its unlink are one step; payments that begin after the files were last compared are not seen by the program either.
- CleanupInventory.TakeInventory: files do not change while the inventory is taken; the verification proof, symlinks, secret paths and the choice of folders are not modelled, so it starts from the list of evidence paths; the fixed part of the record is an opaque text.
- PendingQueue.ValidatePayload: the text forms of dates and the normalisation of a source row are fields of the payload.
- Staging.RedisStage.RecoverAll: key types, persistence flags, JSON decoding and size limits of staged payloads, and pipelined staging are not modelled.
- SharedBatch.SavedReplaysWhole: validation of one recommendation is an arbitrary function applied per case.
- RecommendationSchema.SchemaFromContexts: the JSON schema object is kept as its positions and aliases.
- AttemptAudit.CombinedAudit: costs and times are exact numbers, where the program adds floating-point values.
- Pacing.PacedWait: the look at the folder is one step, and sends are sequential as in the one coordinator that paces.
- The provider endpoints' replies, response bodies and redaction of keys: a reply is a status and an opaque body.
- `parallel_stage` and `execute_with_settings`: the order of chunks and groups and the hold after an error; `SectorRun` allows any order of their calls.
- The evidence lists of `transition_rejected_gemma_claim` and `recover_rejected_jev_claim`, which name single cases: only their effect on the claim row is an action.
- Queries, advisory locks, HTTP, R2 and Redis clients, and JSON, SHA-256, tar and gzip encodings.
- Prompts, scoring, recommendation text rules, stage labels, OCR and document preparation.
- Other one-off coordinators, probes and repairs in `scripts/`: the same write-once outcomes with longer evidence checks.
