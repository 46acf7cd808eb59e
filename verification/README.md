# Nalu runtime: a verified model

Nalu's runtime is a production ledger that fails closed. Nearly every service appends
digest-bound events to a per-run log inside one write transaction, and talks to a file
system or a paid provider outside it. This project models that ledger in Dafny 4.11 and
proves what it promises when callers interleave, processes stop between any two steps
and requests are repeated.

`dafny verify dfyconfig.toml` checks everything. There is one module per component:

| module | component |
|---|---|
| `ImagePayload`, `ImageSubmission` | one paid POST per image task, behind a durable intent |
| `Campaign`, `ImageBudget` | credit allowance with one-shot dispatch claims; the run's shared estimate budget |
| `AssetStore`, `StartRun`, `Migrations` | stores that must agree after a stop at any step |
| `Rounding`, `Timeline`, `Text`, `Vtt`, `Captions`, `Dialogue` | picture edit to sound cues to PCM and WebVTT captions |
| `EventLog`, `Reviews`, `Lineage` | the event log, review chains on it, approvals that expire |
| `Artifacts`, `ReleaseChain`, `ReleaseVerdicts` | seal, QA, completion, release package, publication dry run |
| `Hooks`, `Continuity` | story hooks over a season, continuity audit |
| `MediaCounters`, `ProcessTree` | one-pass media counters, the process closure loop |

How it is written:

- A `BEGIN IMMEDIATE` block is one step. Every write to a file, rename, publish, removal of
  a directory tree and POST is a step of its own. A *run* is any sequence of steps by any
  number of callers, with stops and restarts anywhere; the theorems quantify over all runs.
- Where the service changes state in place, a class has the mutating methods, each proved
  equal to a function of the old state; the theorems are about that function.
- The lemmas named `...Verdict`, `...OnRecord`, `...Anew` and `...Iff` say when a call succeeds and
  what it leaves, in terms of the rows and files themselves.
- Dafny's automatic induction is switched off wherever it would apply; every induction is written out.
- A SHA-256 digest, or the digest of canonical JSON, is modelled by what it is a digest of:
  injective, nothing more. New ids are fresh.
- Seconds are exact reals; Python's `round` is `RoundHalfEven`.

Properties that the code has only in part are stated with their exact condition:

- One recovery pass settles an asset unless a deletion stopped while its directory still held
  the import marker; a second pass always does (`OnePassSettles`, `TwoPassesAlwaysSettle`).
- A start interrupted inside the script of version 1, 2 or 3 can never finish, otherwise the
  next one left alone does (`NextStartFinishesIff`); such histories exist (`StuckStartHappens`).
- After a start that completes, an index is there exactly unless it was missing beside its
  version's column when that start began (`IndexPresentIff`); then it never comes back
  (`SkippedIndexNeverReturns`). A stop between ALTER TABLE and CREATE INDEX does this
  (`LostIndexHappens`).
- With unchanged inputs a retry commits exactly if no stop came inside the write of the staged
  package (`OnlyATornStagingCostsTheClaim`); one there costs the claim (`TornClaimHappens`).
- A word of exactly one millisecond can round to nothing (`OneMillisecondCanVanish`).
- A hook with whitespace at either end, or longer than 1000 characters, can never be reviewed
  (`ReviewExistsIff`); a conflict path that ends in whitespace can never be overridden
  (`OverrideExistsIff`).
- The conflicts of every audit over given ids are on different paths exactly when no character
  id and no prop id spells out a field of another (`ConflictsHaveDistinctPaths`); `x` beside
  `x.location` does (`DottedIdsCanCollide`), ids without dots never do (`DotFreeIdsNeverSpell`).

## Model

| member | source | states |
|---|---|---|
| ImagePayload.NormalFormIsStable | services/runtime_api/nalu_runtime/giggle_image_transport.py:34-65 | normalising a normalised request gives the same payload, so the transport's second normalisation cannot change the hash |
| ImagePayload.NormalFormKeepsTheRequest | services/runtime_api/nalu_runtime/giggle_image_transport.py:34-65 | an accepted request reaches the provider with every field it had, at the endpoint its references call for |
| ImagePayload.DifferentRequestsDiffer | services/runtime_api/nalu_runtime/giggle_image_transport.py:34-65 | two accepted requests share a payload only if they ask for the same image |
| ImagePayload.AcceptedIff | services/runtime_api/nalu_runtime/giggle_image_transport.py:34-65 | a request is accepted exactly when every field is there and no other, model, count, watermark, prompt and references are within their limits, and the ratio goes with the resolution |
| ImageSubmission.EventTable.FindLatest | services/runtime_api/nalu_runtime/image_submission.py:30-43 | the scan answers with the task's last event, or asks for reconciliation if any of its rows fails its integrity check |
| ImageSubmission.EventTable.OpenIntent | services/runtime_api/nalu_runtime/image_submission.py:70-83 | the opening transaction: existing event, refusal, or one new intent, and the whole new log |
| ImageSubmission.EventTable.RecordOutcome | services/runtime_api/nalu_runtime/image_submission.py:97-113 | the closing transaction: an outcome is appended exactly when its own intent is still the latest event |
| ImageSubmission.AtMostOnePost | services/runtime_api/nalu_runtime/image_submission.py:70-114 | in every interleaving of callers, deaths and restarts a run and task are POSTed at most once |
| ImageSubmission.PostedBytesMatchIntent | services/runtime_api/nalu_runtime/giggle_image_transport.py:83-98 | every POST's bytes are those the durable intent was hashed from, under the intent's own identity |
| ImageSubmission.LogTellsTheTruth | services/runtime_api/nalu_runtime/image_submission.py:30-114 | each task's events are nothing, an intent, or an intent and one outcome, under one request hash; a submitted outcome implies a POST |
| ImageSubmission.AskingAgainIsInert | services/runtime_api/nalu_runtime/image_submission.py:72-76 | once a task has an event, asking again changes nothing: same request answered from the log, another refused |
| ImageSubmission.AuthorizedCallersProceed | services/runtime_api/nalu_runtime/image_submission.py:85-93 | in every reachable state the transport's second normalisation and hash, and its look at the log, never stop a caller whose authority stands; one whose authority is gone goes on to settle without a POST |
| ImageSubmission.LiveCallersRecord | services/runtime_api/nalu_runtime/image_submission.py:97-113 | a caller that lives to settle always records its own outcome, whoever else came: intent and outcome, nothing else |
| ImageSubmission.DamagedRowStops | services/runtime_api/nalu_runtime/image_submission.py:36-42 | in any log one damaged row of a task stops it: nothing is opened, cleared or recorded for it |
| ImageSubmission.UndamagedIsRead | services/runtime_api/nalu_runtime/image_submission.py:30-43 | in any log without one, the task's last row is what is read |
| ImageSubmission.FirstRequestOpens | services/runtime_api/nalu_runtime/image_submission.py:70-83 | for a task with no row, an accepted request by an eligible, authorized caller appends exactly its own intent and leaves the caller holding it; any other leaves no trace |
| ImageSubmission.LastRowAnswers | services/runtime_api/nalu_runtime/image_submission.py:70-76 | for a task with a row, its last row is the answer to the same request, another request is refused, and either leaves no trace |
| ImageSubmission.WholeSubmission | services/runtime_api/nalu_runtime/image_submission.py:70-114 | an undisturbed submission makes exactly one POST of the payload its intent was hashed from and records the reply; without authority at the transport it makes none and records that it is unconfirmed |
| Campaign.CampaignTables.AuthorizeCampaign | services/runtime_api/nalu_runtime/generation_campaign.py:25-39 | the whole new tables and whether the call returned |
| Campaign.CampaignTables.ReserveIntent | services/runtime_api/nalu_runtime/generation_campaign.py:41-70 | the whole new tables and whether the call returned |
| Campaign.CampaignTables.ClaimDispatch | services/runtime_api/nalu_runtime/generation_campaign.py:72-82 | the UPDATE, its row count, and a rollback unless exactly one row changed |
| Campaign.CampaignTables.RecordAcceptance | services/runtime_api/nalu_runtime/generation_campaign.py:94-114 | the whole new tables and whether the call returned |
| Campaign.CampaignTables.RefreshTask | services/runtime_api/nalu_runtime/generation_campaign.py:116-136 | a report is kept only for the task on the intent's receipt |
| Campaign.CreditsStayWithinAllowance | services/runtime_api/nalu_runtime/generation_campaign.py:25-82 | in every reachable state: credits POSTed, dispatched, reserved and allowed, each at most the next |
| Campaign.OnePostPerIntent | services/runtime_api/nalu_runtime/generation_campaign.py:72-92 | no intent is POSTed twice, none without being marked dispatched |
| Campaign.ClaimSucceedsOnce | services/runtime_api/nalu_runtime/generation_campaign.py:72-82 | after one claim of a campaign and request succeeds no later claim of it does, whatever happens between |
| Campaign.ReceiptsPairOneToOne | services/runtime_api/nalu_runtime/generation_campaign.py:94-114 | receipts pair intents and provider tasks one to one, only for dispatched intents |
| Campaign.AnyIntentRowGivesTheVerdict | services/runtime_api/nalu_runtime/generation_campaign.py:53-64 | whichever row the OR lookup returns, the reservation's verdict is the same |
| Campaign.AnyReceiptRowGivesTheVerdict | services/runtime_api/nalu_runtime/generation_campaign.py:106-112 | whichever row the OR lookup returns, the receipt's verdict is the same |
| Campaign.AllowanceIsPermanent | services/runtime_api/nalu_runtime/generation_campaign.py:31-39 | an authorization keeps its hash and limit for ever |
| Campaign.ReportsAreKept | services/runtime_api/nalu_runtime/generation_campaign.py:124-136 | a stored progress report is never replaced and belongs to an accepted intent |
| Campaign.AuthorizeVerdict | services/runtime_api/nalu_runtime/generation_campaign.py:25-39 | in every reachable ledger a known campaign returns for exactly its own hash and limit, an unknown one is added exactly when well formed |
| Campaign.ReserveOnRecord | services/runtime_api/nalu_runtime/generation_campaign.py:53-64 | a row with the id, or the campaign and request, returns for exactly its own fields and refuses any other; nothing changes |
| Campaign.ReserveAnew | services/runtime_api/nalu_runtime/generation_campaign.py:41-70 | with no such row, exactly a well-formed intent of a known campaign that fits into the sum of its rows is appended, undispatched |
| Campaign.ClaimVerdict | services/runtime_api/nalu_runtime/generation_campaign.py:72-82 | a claim succeeds on the undispatched row of that campaign, intent, request and medium, marks it alone and holds what it reserved |
| Campaign.ClaimRefused | services/runtime_api/nalu_runtime/generation_campaign.py:72-82 | without such a row a claim is refused and changes nothing |
| Campaign.AcceptOnRecord | services/runtime_api/nalu_runtime/generation_campaign.py:94-112 | a receipt of the same intent or task returns for exactly its own fields while the intent is dispatched, and refuses any other |
| Campaign.AcceptAnew | services/runtime_api/nalu_runtime/generation_campaign.py:94-114 | with no such receipt, exactly a well-formed one of a dispatched intent is appended |
| Campaign.RefreshVerdict | services/runtime_api/nalu_runtime/generation_campaign.py:116-136 | a report is taken exactly about the task accepted for that campaign's intent, and only the first under its response digest is stored |
| Campaign.FundedRequestIsPosted | services/runtime_api/nalu_runtime/generation_campaign.py:41-92 | reserved, claimed and sent undisturbed, a request is POSTed once for what it reserved and its row stays dispatched |
| ImageBudget.BudgetService.ReserveEstimate | services/runtime_api/nalu_runtime/image_budget.py:28-87 | the one transaction: the whole new log and the answer |
| ImageBudget.ReservationStaysWithinBudget | services/runtime_api/nalu_runtime/image_budget.py:57-75 | after every successful reservation the run's image and video estimates sum to the recorded total, within the confirmed budget, one per task |
| ImageBudget.LastTotalIsTheSum | services/runtime_api/nalu_runtime/image_budget.py:60-81 | in every reachable state the last recorded total is the run's sum over both media |
| ImageBudget.RepeatNeverSpends | services/runtime_api/nalu_runtime/image_budget.py:63-69 | repeating an approval later, under any circumstances, spends nothing and can only return the event it made |
| ImageBudget.ImmediateRepeatReturnsIt | services/runtime_api/nalu_runtime/video_budget.py:100-112 | in any log, an approval repeated at once, for either medium, is answered with its event rather than refused |
| ImageBudget.TaskOnRecordVerdict | services/runtime_api/nalu_runtime/image_budget.py:57-69 | in any log, a task with an estimate is never charged again: the same approval gets its event exactly while the run's estimates are in order, any other is refused |
| ImageBudget.NewTaskVerdict | services/runtime_api/nalu_runtime/image_budget.py:46-87 | in any log, a task without one is charged exactly when eligible, confirmed, in order, not already submitted as an image, and within budget with the sum of the run's rows |
| AssetStore.AssetService.RecoverInterruptedImports | services/runtime_api/nalu_runtime/asset_service.py:80-149 | the recovery loop over any listing: the store it leaves and whether it raised |
| AssetStore.AssetService.ImportBytes | services/runtime_api/nalu_runtime/asset_service.py:151-248 | an undisturbed import: row and exact bytes, or nothing, or the staging left by a clash with the marker's name |
| AssetStore.AssetService.DeleteAsset | services/runtime_api/nalu_runtime/asset_service.py:263-293 | an undisturbed deletion: everything gone, or everything as it was |
| AssetStore.RowImpliesBytes | services/runtime_api/nalu_runtime/asset_service.py:216-293 | after every step and stop: at most one of three directories, and for each row its exact bytes in the final or `.deleting` one |
| AssetStore.RecoveryFollowsTheRow | services/runtime_api/nalu_runtime/asset_service.py:80-149 | recovery never raises on a state the service can leave, and in any listing order the row decides each asset's outcome |
| AssetStore.OnePassSettles | services/runtime_api/nalu_runtime/asset_service.py:84-149 | one pass leaves an asset with row, bytes and no marker, or with nothing, exactly unless a retired directory still held its marker |
| AssetStore.MarkerCanOutliveOnePass | services/runtime_api/nalu_runtime/asset_service.py:84-103 | a concrete run in which the marker survives one pass |
| AssetStore.TwoPassesAlwaysSettle | services/runtime_api/nalu_runtime/asset_service.py:80-149 | after any history two passes settle every asset and a third changes nothing |
| AssetStore.RestartRunsThePass | services/runtime_api/nalu_runtime/asset_service.py:80-84 | a restarted process left alone takes exactly the steps of that pass |
| AssetStore.RowsChangeOnlyOnce | services/runtime_api/nalu_runtime/asset_service.py:236-248 | a row appears only by its import's commit, never changes, and goes only by a deletion that has renamed the directory |
| AssetStore.ImportStartsIff | services/runtime_api/nalu_runtime/asset_service.py:170-173 | an import under a fresh id begins exactly for one byte to 100 MB |
| AssetStore.ImportEnds | services/runtime_api/nalu_runtime/asset_service.py:216-248 | the steps of an undisturbed import end with row and bytes under no marker, with nothing, or with row, bytes and marker, as its commit ended |
| AssetStore.DeletionEnds | services/runtime_api/nalu_runtime/asset_service.py:263-293 | a deletion starts on exactly an asset whose row names the file in its one directory, and its steps end with row and directory gone or everything back |
| AssetStore.RecoveryVerdict | services/runtime_api/nalu_runtime/asset_service.py:84-149 | for any content of the three directories: which are removed, put back or freed of their marker, and which stop the pass |
| StartRun.ProductionEngine.StartRunLocked | services/runtime_api/nalu_runtime/engine.py:2705-2933 | the body under the start lock takes exactly the machine's steps to their end; a finished claim is answered without change |
| StartRun.ProductionEngine.WriteAndPromote | services/runtime_api/nalu_runtime/engine.py:401-420 | three steps: staging opened, written, renamed over the package |
| StartRun.OneRunPerKey | services/runtime_api/nalu_runtime/repository.py:6783-6850 | at most one run per key, under the first claimed id, over the package visible in its directory |
| StartRun.CompletedIffRun | services/runtime_api/nalu_runtime/repository.py:6840-6850 | a claim is completed exactly when its run was committed |
| StartRun.DecidedStaysDecided | services/runtime_api/nalu_runtime/repository.py:347-400 | over any stops and retries a claim keeps request and id, a final status, a visible package and a committed run never change |
| StartRun.RetryResumesOrFails | services/runtime_api/nalu_runtime/engine.py:2809-2891 | a retry commits under the claimed id exactly when the directory can be resumed, else marks the claim failed and leaves the directory |
| StartRun.FirstStartCommits | services/runtime_api/nalu_runtime/engine.py:2705-2933 | an undisturbed first attempt commits under the id it was offered |
| StartRun.AttemptVerdict | services/runtime_api/nalu_runtime/engine.py:2705-2933 | whatever an undisturbed attempt under a new or pending claim meets, its claim's status, its run and its directory end as that decides, and nothing else changes |
| StartRun.RecoveryVerdict | services/runtime_api/nalu_runtime/engine.py:2809-2880 | for any content of a claimed directory: which is taken up where it stands, which is promoted, which is written anew and which fails the claim |
| StartRun.CommitVerdict | services/runtime_api/nalu_runtime/repository.py:6783-6850 | the commit writes a run exactly when its checks pass and the claim is still pending under this id |
| StartRun.DecidedKeyStartsNothing | services/runtime_api/nalu_runtime/engine.py:2723-2729 | a claim already decided, or made for another request, starts nothing |
| StartRun.OnlyATornStagingCostsTheClaim | services/runtime_api/nalu_runtime/engine.py:2809-2880 | over every run with unchanged inputs, a retry that meets nothing wrong commits if no stop came inside the staging write and marks the claim failed if one did |
| StartRun.TornClaimHappens | services/runtime_api/nalu_runtime/engine.py:2858-2880 | a stop in that write and an undisturbed retry leave a failed claim and no run |
| Migrations.Database.Initialize | services/runtime_api/nalu_runtime/database.py:758-817 | one start takes exactly the machine's steps and ends done or raised |
| Migrations.RecordedVersionsAreBuilt | services/runtime_api/nalu_runtime/database.py:758-817 | however often interrupted, recorded versions are a prefix and their tables and columns exist |
| Migrations.NextStartFinishesIff | services/runtime_api/nalu_runtime/database.py:765-817 | the next undisturbed start reaches every table, column and record exactly when three versions are recorded or the next had not begun; otherwise no start ever does |
| Migrations.StuckStartHappens | services/runtime_api/nalu_runtime/database.py:765-817 | each of the first three versions can be cut so that no later start ever completes |
| Migrations.IndexPresentIff | services/runtime_api/nalu_runtime/database.py:758-817 | after any history, a start that completes undisturbed has exactly the indexes not missing when it began |
| Migrations.SkippedIndexNeverReturns | services/runtime_api/nalu_runtime/database.py:782-792 | an index missing beside its version's column never comes back, over any later stops and starts |
| Migrations.LostIndexHappens | services/runtime_api/nalu_runtime/database.py:782-792 | some history makes any later statement of a version reconciled by column go missing |
| Migrations.ShippedPlanIsAffected | services/runtime_api/nalu_runtime/database.py:152-734 | both happen to the shipped migrations, in versions 1 and 7 |
| Migrations.NaluPlanIsWellFormed | services/runtime_api/nalu_runtime/database.py:152-734 | the 28 shipped migrations meet every condition the results rest on |
| Rounding.NearestTiesToEven | services/runtime_api/nalu_runtime/accepted_episode.py:149 | the rounding is the nearest integer, the even one on a tie, and nothing else is |
| Timeline.DraftEdit | services/runtime_api/nalu_runtime/accepted_episode.py:140-159 | accepts exactly the cut lists that pass every check, names the first fault, and lays entries end to end |
| Timeline.CutVerdict | services/runtime_api/nalu_runtime/accepted_episode.py:144-154 | in seconds: which cut is refused, and for which of the four reasons |
| Timeline.EditDriftIsBounded | services/runtime_api/nalu_runtime/accepted_episode.py:149-159 | n shots differ from the requested cuts by at most n/48 s |
| Timeline.AcceptedWindowsStayInside | services/runtime_api/nalu_runtime/accepted_episode.py:144-154 | every window, requested or frame-rounded, lies inside its source and is never the whole of it |
| Timeline.TimelineIsContiguous | services/runtime_api/nalu_runtime/accepted_episode.py:157-159 | the timeline starts at zero, has no gap or overlap and ends at its total |
| Timeline.PrepareCues | services/runtime_api/nalu_runtime/episode_sound_plan.py:103-112 | cue i spans the prefix sums of the durations |
| Timeline.CuesOfAnEdit | services/runtime_api/nalu_runtime/episode_sound_plan.py:98-112 | cues of an edit are contiguous, frame exact and fill it |
| Timeline.AttachTake | services/runtime_api/nalu_runtime/episode_audio.py:82-115 | a take attaches exactly when its cue is at most 300 s and its samples cover it |
| Timeline.FrameCueSamples | services/runtime_api/nalu_runtime/episode_audio.py:108-114 | a frame cue takes exactly 2000 samples a frame and starts on 2000 per earlier frame |
| Text.SpacesAre | services/runtime_api/nalu_runtime/episode_transcript.py:34 | the characters words are split at, code point by code point |
| Text.UnescapeEscape | services/runtime_api/nalu_runtime/episode_transcript.py:34 | unescaping undoes the caption writer's escaping |
| Vtt.StampInverse | services/runtime_api/nalu_runtime/episode_transcript.py:21-25 | reading a printed timestamp gives back its milliseconds |
| Vtt.StampOrder | services/runtime_api/nalu_runtime/episode_transcript.py:21-25 | stamps of equal length sort as text as their times do |
| Vtt.RoundTrip | services/runtime_api/nalu_runtime/episode_transcript.py:27-39 | a reader after section 4.1 of the W3C WebVTT specification reads a printed file back to exactly its cues |
| Captions.CaptionVtt | services/runtime_api/nalu_runtime/episode_transcript.py:17-39 | accepts exactly the exportable lists, names the first fault, prints their cues |
| Captions.ExportableIff | services/runtime_api/nalu_runtime/episode_transcript.py:17-38 | the exportable lists, in milliseconds: each segment starts no earlier than the last one ends, lasts, ends by 1800 s and has text |
| Captions.ExportReadsBack | services/runtime_api/nalu_runtime/episode_transcript.py:17-39 | reading an export gives the millisecond starts, ends and normalised texts of its segments, in order without overlap |
| Captions.OrderedWindow | services/runtime_api/nalu_runtime/episode_transcript.py:63-70 | the loop accepts exactly words ordered inside the recording |
| Captions.OrderedIff | services/runtime_api/nalu_runtime/episode_transcript.py:63-70 | ordered words are exactly those inside the recording that last and never overlap, any two of them |
| Captions.OrderedRounds | services/runtime_api/nalu_runtime/episode_transcript.py:28-38 | ordered words stay ordered and apart after shifting and half-even rounding |
| Captions.OnlyZeroLengthIsRefused | services/runtime_api/nalu_runtime/episode_transcript.py:28-38 | given good text on the timeline, an export is refused exactly when a word rounds to zero length |
| Captions.LongWordsSurvive | services/runtime_api/nalu_runtime/episode_transcript.py:30-33 | a word longer than one millisecond never rounds away |
| Captions.OneMillisecondCanVanish | services/runtime_api/nalu_runtime/episode_transcript.py:30-33 | a word of exactly one millisecond can |
| Dialogue.AssembleDialogue | services/runtime_api/nalu_runtime/episode_dialogue.py:27-54 | succeeds exactly on gapless full coverage with exportable words, and returns the concatenated PCM and its captions |
| Dialogue.CoversIff | services/runtime_api/nalu_runtime/episode_dialogue.py:27-49 | coverage means: every recording in the studio's format with the samples it promises, starting on the sample where the ones before end, together the episode's own number |
| Dialogue.EditToEpisode | services/runtime_api/nalu_runtime/episode_sound_plan.py:98-112 | an accepted edit, cues prepared from it and a take accepted for every cue: cue and picture start together on whole samples and assembly meets no gap, overlap or shortfall |
| Dialogue.RecordedPlanCovers | services/runtime_api/nalu_runtime/episode_dialogue.py:34-49 | a fully recorded plan up to 1800 s never shows a gap, overlap or shortfall |
| Dialogue.PcmHoldsEachPart | services/runtime_api/nalu_runtime/episode_dialogue.py:41-44 | the track holds every recording whole, in order, at its own place |
| Dialogue.EpisodeWordsOrdered | services/runtime_api/nalu_runtime/episode_dialogue.py:45-47 | words stay ordered across cue boundaries |
| Dialogue.CaptionsFailOnlyOnZeroLength | services/runtime_api/nalu_runtime/episode_dialogue.py:45-54 | the episode's captions are refused exactly when some recording's own export is, for a word rounding to nothing |
| Dialogue.EpisodeCaptionsAreRenumberedExports | services/runtime_api/nalu_runtime/episode_transcript.py:164-176 | the episode's captions are the per-recording exports, renumbered |
| EventLog.MaxSequenceIs | services/runtime_api/nalu_runtime/episode_edit_review.py:87 | the largest sequence among the run's rows, 0 without any |
| EventLog.NextSequence | services/runtime_api/nalu_runtime/episode_edit_review.py:87 | the next sequence is one more than the run's largest |
| EventLog.AppendKeepsNumbered | services/runtime_api/nalu_runtime/episode_edit_review.py:86-90 | every service's insert keeps each run numbered 1..n and ids unique |
| Reviews.ReviewService.SaveReview | services/runtime_api/nalu_runtime/image_review.py:52-93 | the shared review transaction: the whole new log and the answer, per kind of review |
| Reviews.DecisionsFormOneChain | services/runtime_api/nalu_runtime/episode_edit_review.py:66-90 | in every interleaving a subject's decisions form one chain, each naming the one before |
| Reviews.NoRequestIsSavedTwice | services/runtime_api/nalu_runtime/episode_audio_review.py:162-171 | no request appears twice in a subject's whole history |
| Reviews.RetryReturnsTheSameEvent | services/runtime_api/nalu_runtime/episode_audio_review.py:165-167 | repeating the latest request returns its event and writes nothing, even once the subject is locked |
| Reviews.StaleWriterNeverSaves | services/runtime_api/nalu_runtime/episode_transcript.py:224-240 | of two writers who saw the same decision at most one ever saves |
| Reviews.SequencesHaveNoGaps | services/runtime_api/nalu_runtime/image_review.py:89 | every run's events are numbered 1..n without gaps in every reachable log |
| Reviews.MasterWorkFreezesDecisions | services/runtime_api/nalu_runtime/episode_edit_review.py:75-76 | once master work exists, edit and recording decisions of the run never change again |
| Reviews.OneShotLocksOnlyItsFrames | services/runtime_api/nalu_runtime/image_review.py:64-77 | in every reachable state a frame is locked exactly when some earlier step was video work for its shot or an unnamed one, or any at all for a shared image |
| Reviews.FirstDecisionVerdict | services/runtime_api/nalu_runtime/episode_edit_review.py:52-90 | a first decision is saved exactly when its target is current, it names no earlier one and no work contradicts it; otherwise the log is as it was |
| Reviews.NextDecisionVerdict | services/runtime_api/nalu_runtime/episode_edit_review.py:52-90 | a further one is saved exactly when the target is current, the latest decision's seal stands where it is checked, it is another request, names that decision and no work contradicts it; the latest is returned for exactly its own request |
| Lineage.FindNewest | services/runtime_api/nalu_runtime/episode_edit_review.py:30-32 | the last event of a kind for a subject |
| Lineage.RecoverLatestTakes | services/runtime_api/nalu_runtime/episode_audio.py:44-51 | the one-pass dictionary holds each cue's last take |
| Lineage.LatestTakesAreNewest | services/runtime_api/nalu_runtime/episode_audio.py:44-51 | the dictionary has a cue exactly when a take exists, and then the newest one |
| Lineage.ValidateSources | services/runtime_api/nalu_runtime/episode_sound_source.py:134-150 | passes exactly when every source was staged for this plan and its bound consent is still the live one |
| Lineage.BuildSucceedsIffNewest | services/runtime_api/nalu_runtime/episode_dialogue.py:191-231 | build succeeds, with this lineage, exactly when edit, edit review, takes, listening reviews, transcripts and caption reviews are the newest of their kind and accepted, and every take's asset may be used under its last consent record, which is granted, named and the bound one |
| Lineage.DialogueService.StageDialogue | services/runtime_api/nalu_runtime/episode_dialogue.py:233-291 | the staging transaction over its own build: the whole new log and the receipt |
| Lineage.ReceiptValidatesIff | services/runtime_api/nalu_runtime/episode_dialogue.py:160-189 | a receipt validates exactly while its chain is newest, it is the first for that chain, every sound layer was staged for this plan over a usable asset under its last consent record, and nothing outside the log moved |
| Lineage.StagingVerdict | services/runtime_api/nalu_runtime/episode_dialogue.py:233-291 | staging returns the first receipt of a chain that is newest throughout, or appends one if there is none; for any other chain, a sealed run or damaged files it raises and writes nothing |
| Lineage.UnusableAssetFails | services/runtime_api/nalu_runtime/episode_audio.py:86-104 | no receipt validates over a recording or sound layer whose asset may no longer be used |
| Lineage.SupersededReceiptFails | services/runtime_api/nalu_runtime/episode_dialogue.py:160-174 | any later event that answers the same question as a link makes every older receipt fail, in every later state |
| Lineage.ChangedConsentFails | services/runtime_api/nalu_runtime/episode_audio.py:91-130 | once a further consent record follows the one a take or sound layer was bound under, granted or revoked, no receipt resting on it validates in any later state |
| Lineage.NeutralEventsKeepChain | services/runtime_api/nalu_runtime/episode_dialogue.py:191-231 | previews, staged files and a newer sound plan leave an older lineage standing |
| Lineage.FreshReceiptValidates | services/runtime_api/nalu_runtime/episode_dialogue.py:263-291 | what staging has just returned validates, with any sound layers that pass then |
| ReleaseChain.RenderedOutputIntegrity | services/runtime_api/nalu_runtime/engine.py:791-851 | true exactly when consent holds and package, workspace manifest and every artifact have their sealed bytes |
| ReleaseChain.RuntimeEngine.SealRenderedOutputs | services/runtime_api/nalu_runtime/engine.py:658-789 | an undisturbed seal: new seal and event, exact recovery, or refusal |
| ReleaseChain.RuntimeEngine.CompleteRun | services/runtime_api/nalu_runtime/engine.py:2361-2545 | an undisturbed completion: the whole new state and the answer |
| ReleaseChain.RuntimeEngine.CreateReleasePackage | services/runtime_api/nalu_runtime/engine.py:1815-1940 | an undisturbed release: the whole new state and the answer |
| ReleaseChain.RuntimeEngine.CreatePublicationDryRun | services/runtime_api/nalu_runtime/engine.py:2004-2121 | an undisturbed dry run: the whole new state and the answer |
| ReleaseChain.RuntimeEngine.AppendRunEventOnce | services/runtime_api/nalu_runtime/repository.py:8276-8325 | an event is appended unless the latest of its kind already says it |
| ReleaseChain.PublishedFilesNeverChange | services/runtime_api/nalu_runtime/engine.py:735-771 | over every run seal, release package and dry runs stay what they were when published |
| Artifacts.OneArrangement | services/runtime_api/nalu_runtime/engine.py:707 | the same artifacts in path order are the same list |
| ReleaseChain.ReadOutputs | services/runtime_api/nalu_runtime/engine.py:683-706 | every named output read in turn, or a refusal at a missing or empty one |
| ReleaseChain.SealRecordsTheDisk | services/runtime_api/nalu_runtime/engine.py:683-733 | a new seal records exactly the named outputs as they are on disk, in path order, and passes its own check |
| ReleaseChain.CompletionIsVerified | services/runtime_api/nalu_runtime/engine.py:2317-2353 | an undisturbed completion is the one the release step then verifies |
| ReleaseChain.FreshReleaseIsStored | services/runtime_api/nalu_runtime/engine.py:1942-2002 | a release published undisturbed is read back as it is |
| ReleaseChain.FreshDryRunIsStored | services/runtime_api/nalu_runtime/engine.py:2123-2174 | a dry run published undisturbed is read back as it is |
| ReleaseChain.EventsNameWhatExists | services/runtime_api/nalu_runtime/repository.py:7054-7150 | at most one completion, and every sealed, released or dry-run event names the one file there is |
| ReleaseChain.ExactSealRepeat | services/runtime_api/nalu_runtime/engine.py:658-773 | once sealed, a whole seal call answers with that seal exactly when status, consent, package, workspace and sealed bytes stand, the author is the same and the sealed outputs are named in any order; it restores a lost event and nothing else; any other request is refused |
| ReleaseChain.ExactReleaseRepeat | services/runtime_api/nalu_runtime/engine.py:1860-1900 | with a release on disk none is started: the same request gets it, its event exists exactly once, other requests are refused |
| ReleaseChain.CompletionIsFinal | services/runtime_api/nalu_runtime/repository.py:7082-7100 | the completion repeated with the same evidence changes nothing; with other evidence it is refused |
| ReleaseVerdicts.AppendOnceVerdict | services/runtime_api/nalu_runtime/repository.py:8276-8325 | an event is left out exactly when the run's last of its kind already says it |
| ReleaseVerdicts.FirstSealVerdict | services/runtime_api/nalu_runtime/engine.py:658-789 | an unsealed run is sealed by a whole call exactly when status, consent, package and workspace allow it, every named output is readable and a review report among them is the only one and reviews this run's one master; the seal lists the outputs as on disk |
| ReleaseVerdicts.CompletionVerdict | services/runtime_api/nalu_runtime/engine.py:2361-2545 | with the seal named and allowed, outputs intact, subtitles sealed, five passing reports of that seal and a passing human review of this run and its one master, a run in QA is completed by one event, or answered again if that evidence completed it |
| ReleaseVerdicts.CompletionRefused | services/runtime_api/nalu_runtime/engine.py:2361-2522 | with any of that missing, whatever the evidence, completion raises and changes nothing |
| ReleaseVerdicts.StoredReleaseIff | services/runtime_api/nalu_runtime/engine.py:1942-2002 | a release package is read back exactly while it is the run's own over its seal, its five reports are on disk and passed, and the one completion names that seal and the passing review on disk |
| ReleaseVerdicts.StoredDryRunIff | services/runtime_api/nalu_runtime/engine.py:2123-2174 | a dry run is read back exactly while its release stands and approval, guard, adapter version and plan agree |
| ReleaseVerdicts.StoredDryRunIsAnchored | services/runtime_api/nalu_runtime/engine.py:2317-2353 | in every run in which a dry run is read back, the sealed bytes are on disk, five reports of that seal passed and a human review on disk passes and names this run and its one master, as the one completion recorded it |
| ReleaseVerdicts.FirstReleaseVerdict | services/runtime_api/nalu_runtime/engine.py:1815-1940 | a whole first release call succeeds exactly for a completed run whose completion stands and whose outputs are one master, one subtitles file and one cover; it packages exactly those, publishes and records the package |
| ReleaseVerdicts.RepeatedReleaseVerdict | services/runtime_api/nalu_runtime/engine.py:1860-1900 | in every reachable state a later one returns and records the package exactly for the same request while the package and all it rests on stand, and else changes nothing |
| ReleaseVerdicts.FirstDryRunVerdict | services/runtime_api/nalu_runtime/engine.py:2004-2121 | a whole first dry run call for a platform succeeds exactly when release, status, approval and adapter allow it; the one published and recorded stands |
| ReleaseVerdicts.RepeatedDryRunVerdict | services/runtime_api/nalu_runtime/engine.py:2022-2059 | a later one returns and records the dry run exactly for the same approval while it stands, and else changes nothing |
| Hooks.EndingHooksMatchReview | services/runtime_api/nalu_runtime/continuity.py:32-49 | the loop accepts exactly endings that agree with an accepted review |
| Hooks.ReviewVerdict | services/runtime_api/nalu_runtime/continuity.py:8-30 | a review is accepted exactly when it is of this snapshot and resolves each of its hooks and nothing else |
| Hooks.EndingVerdict | services/runtime_api/nalu_runtime/continuity.py:32-49 | an ending passes exactly without hooks, or when an accepted review says of each whether it is open there |
| Hooks.InheritedHookFollowsItsReview | services/runtime_api/nalu_runtime/continuity.py:32-49 | over a season an inherited hook is open at an ending exactly when carried forward there |
| Hooks.NoHookVanishes | services/runtime_api/nalu_runtime/continuity.py:32-49 | a hook open once and not later was closed by an explicit decision in between |
| Hooks.OpenIffCarriedThroughout | services/runtime_api/nalu_runtime/continuity.py:32-49 | a hook stays open through a stretch exactly when every review there carried it |
| Hooks.ContradictionNeverAccepted | services/runtime_api/nalu_runtime/continuity.py:42-48 | carrying and closing one hook in the same review is never accepted |
| Hooks.ReviewExistsIff | services/runtime_api/nalu_runtime/models.py:1244-1278 | some review of inherited hooks is acceptable exactly when at most 100 differ, none exceeds 1000 characters and none has outer whitespace |
| Continuity.GatherConflicts | services/runtime_api/nalu_runtime/continuity.py:72-157 | the loops list exactly the raw conflicts in order |
| Continuity.NoConflictsIffNothingForgotten | services/runtime_api/nalu_runtime/continuity.py:72-157 | nothing is listed exactly when the opening says again, field by field, whatever the last ending said |
| Continuity.ConsistencyIsReflexive | services/runtime_api/nalu_runtime/continuity.py:72-157 | opening a scene as it ended never conflicts |
| Continuity.ConsistencyIsTransitive | services/runtime_api/nalu_runtime/continuity.py:72-157 | openings consistent one by one are consistent end to end |
| Continuity.AdditionsKeepConsistency | services/runtime_api/nalu_runtime/continuity.py:84-156 | adding characters, props or revealed facts never creates a conflict |
| Continuity.ConflictsHaveDistinctPaths | services/runtime_api/nalu_runtime/continuity.py:84-156 | for any character and prop ids: every audit over them keeps its conflicts on different paths exactly when no id spells out a field of another |
| Continuity.DotFreeIdsNeverSpell | services/runtime_api/nalu_runtime/continuity.py:84-156 | ids without dots never spell out one another's fields |
| Continuity.DottedIdsCanCollide | services/runtime_api/nalu_runtime/continuity.py:89-98 | with a dot in an id one audit lists two different conflicts under one path |
| Continuity.AuditContinuity | services/runtime_api/nalu_runtime/continuity.py:160-214 | the episode proceeds exactly when any override names precisely the conflicts, each conflict is explained or overridden and hooks are reviewed; every conflict is reported in order |
| Continuity.OverrideExistsIff | services/runtime_api/nalu_runtime/models.py:1215-1234 | some override can clear the conflicts exactly when 1 to 100 paths differ and none has outer whitespace |
| MediaCounters.InspectFrames | services/runtime_api/nalu_runtime/decoded_media_qa.py:43-59 | one pass yields frame count, distinct frames and the longest identical and black runs |
| MediaCounters.FrameRunsAreLongest | services/runtime_api/nalu_runtime/decoded_media_qa.py:49-57 | those runs exist in the video and no run is longer |
| MediaCounters.BlackMeans | services/runtime_api/nalu_runtime/decoded_media_qa.py:43-59 | a frame is black exactly when it has no pixels or their mean is below 8 |
| MediaCounters.InspectSamples | services/runtime_api/nalu_runtime/decoded_media_qa.py:121-153 | one pass yields sample and clipping counts, the voiced windows and the longest silent run |
| MediaCounters.VoicedIntervalsAreSortedAndDisjoint | services/runtime_api/nalu_runtime/decoded_media_qa.py:129-142 | voiced intervals are 20 ms, in order, disjoint and inside the recording |
| MediaCounters.VoicedIntervalsAre | services/runtime_api/nalu_runtime/decoded_media_qa.py:121-142 | the voiced intervals are those of exactly the voiced windows |
| MediaCounters.VoicedMeans | services/runtime_api/nalu_runtime/decoded_media_qa.py:129-136 | a window is voiced exactly when the mean of its squares is at least 300 squared |
| MediaCounters.SilenceIsLongest | services/runtime_api/nalu_runtime/decoded_media_qa.py:129-142 | some stretch of silent windows is as long as the counter says and none is longer |
| MediaCounters.ClippedMeans | services/runtime_api/nalu_runtime/decoded_media_qa.py:121-128 | clipped samples are those of magnitude 32760 or more, each counted once |
| MediaCounters.VoicedRatioIsARatio | services/runtime_api/nalu_runtime/decoded_media_qa.py:151-153 | the voiced ratio is between 0 and 1, flushed samples included |
| MediaCounters.CountAligned | services/runtime_api/nalu_runtime/decoded_media_qa.py:177-185 | the number of cues that overlap some voiced interval |
| MediaCounters.AlignedAreCounted | services/runtime_api/nalu_runtime/decoded_media_qa.py:177-185 | every cue that overlaps some voiced interval is counted once |
| MediaCounters.OverlapMeansACommonMoment | services/runtime_api/nalu_runtime/decoded_media_qa.py:183 | the overlap test means that some moment lies inside both |
| ProcessTree.ProcessTreeRssBytes | scripts/qa-packaged-postproduction.py:142-157 | the loop ends with exactly the processes reachable from the root, cycles or no root row notwithstanding, and sums their memory |
| ProcessTree.RowOrderIsIrrelevant | scripts/qa-packaged-postproduction.py:150-157 | the figure does not depend on the table's order |

## Left out

- HTTP routes, request field validation, error messages and progress texts: requests arrive validated; which check failed is modelled, its wording is not.
- Bytes on the wire and on disk: UTF-8, JSON and Base64 encoding, the decoding of media, network failures beyond "answered" or "unconfirmed".
- `fsync`, file modes, symbolic links, path containment: a step that happened is durable, and paths are the managed ones.
- Floating point: times are exact reals, so a tie is a tie.
- `register_existing` of asset files, and asset kinds, consent fields and dependency reports: whether a deletion is allowed is a free choice at each attempt.
- AssetStore.RowImpliesBytes: removing a directory tree is one step; what recovery does with a tree whose removal was cut halfway is not modelled.
- Two starts of the database at once: one process initialises at a time.
- The start lock is mutual exclusion between attempts of one episode; the adapter's workspace is a set of names it leaves and an answer.
- ImageBudget.BudgetService.ReserveEstimate: price observations and newer shot preparations of the video service are part of its eligibility, given as one fact.
- Reviews.ReviewService.SaveReview: whether the reviewed preview, take, transcript or image is still the exact current one is an input here; `Lineage` models those checks for the dialogue chain.
- Lineage.DialogueService.StageDialogue: publishing the staged files is one fact, that they hold their bytes, not a series of steps.
- Lineage.ReceiptValidatesIff: the final comparison of a request with the receipt's files, and `assemble_dialogue`'s own refusals (see `Dialogue`), are not repeated there.
- Returning to an identical older take or edit gives back the earlier event without making it newest, so nothing is promised about becoming valid again.
- ReleaseChain.PublishedFilesNeverChange: files outside the service's three exclusive publications may change arbitrarily; those three are assumed to change only through it.
- Vtt.RoundTrip: the reader leaves out cue settings, cue tags, NOTE, STYLE and REGION blocks, which the writer never prints, and answers nothing for a file with a malformed cue where a player would skip that cue.
- The SRT draft, shot repair, provider price rules, visual and semantic QA: no further property of interest.
