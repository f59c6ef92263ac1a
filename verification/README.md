# Verified model of the polygon and Wikidata pipeline

The pipeline reads OpenStreetMap extracts, links polygons to Wikidata items and
wiki articles, and publishes the result to a dataset repository, with long remote
jobs and many restarts in between. This project models the parts in which an error
would lose or corrupt data without being noticed, and proves what they promise. The
path prefix of every file below is `src/osm_polygon_wikidata_only/`.

**Protocols that must survive crashes.** Each is a set of worlds with single steps
(one file operation, one remote action, one thread step). A crash stops a run between
any two steps and a restart keeps only what is durable; the theorems range over all
sequences of steps. The imperative classes beside them take every outcome from an
environment given in advance. Those of the upload store, the controller, the marker
and the login are tied to their protocol: every step they take is proved to be an
enabled one. Those of `ManifestImport` and `Checkpoints` have no protocol beside them;
they count their file operations and stop after any of them.

- `UploadProtocol` and `UploadState`: the durable upload directory. Snapshots are
  written before the envelope that names them and removed after it; sequence numbers
  rise across restarts; old envelopes are upgraded one by one.
- `ControllerProtocol` and `SentenceController`: the serial batch controller with its
  ledger, ambiguous submissions, receipts and resumable source commit.
- `ManifestImport`: when an incoming sentence manifest is accepted, and why an import
  that was cut off after any copy can be run again.
- `Checkpoints`: section checkpoints replaced as whole directories, and runs that
  reuse whatever earlier runs left behind.
- `MetadataMarker`: repository metadata deferred to one refresh, and the durable
  marker of the regions still owed to it.
- `HostLogin`: one login per host under every interleaving of threads, with
  snapshots counting hosts meanwhile.

**Fast forms that must agree with simple ones.**

- `SentencePlan`: greedy packing gives the fewest batches.
- `LanguageGrouping`: dictionary codes, dense identifiers and one stable sort against
  grouping row by row; counting by distinct value against counting by row; the language
  expression against its dash-separated parts.
- `ArticleLinker`: batched concurrent fetching against one request after another.
- `Sections`: the stack that builds the section tree against "nearest earlier section
  of smaller level".
- `WikidataQids`, `DocumentLinks`: the QID index against the nested loop.
- `RejectionLedger`: cumulative merging in stages against merging once.
- `Geometry`: the shoelace formula around a reference point against any other
  origin, either ring direction, and a cut into triangles whose area and weighted mean
  it must give.

`Sorting` and `Wrappers` are shared helpers: a stable sort with its ordering,
stability and uniqueness lemmas, the order of strings, `Option` and `Result`.

## Where the code does not keep its own promise

Some promises fail on concrete inputs; each is shown with one, beside the condition
under which it does hold:

- The snapshots of a pending upload are looked for below the number in its payload,
  which nothing compares with the numbers the store allocates. A session keeps such an
  upload complete, whatever it does short of finishing it, exactly if that number is
  below the one the session starts with (`UploadProtocol.SafeInSession`). Otherwise a new
  upload may be given the same number, and then
  - giving up or finishing either of the two removes the snapshots of the other
    (`UploadProtocol.CollisionStrips`, `UploadState.DeleteTakesAnothersSnapshots`), for
    one deletion exactly if the other has added files and the same number
    (`UploadState.UploadStateStore.Delete`), and
  - a legacy file that is given the number is refused after it was unlinked: its job is
    in no envelope, and the pending upload has lost its snapshots
    (`UploadState.MisnumberedFileLosesLegacyJob`). Without file errors this happens
    exactly if a file that can be upgraded is given a number already seen
    (`UploadState.UploadStateStore.UpgradePendingLegacy`).
- A dry run that is cut off leaves a durable job which a later run uploads for real,
  unnamed (`MetadataMarker.DryRunGoesUnnamed`). Every region owed the refresh is named
  as long as no dry run comes to a region that has polygons and is not named yet
  (`MetadataMarker.EveryOwedIsNamed`), and after any that does, it may happen
  (`MetadataMarker.UnsoundGoesUnnamed`).
- A region called `rejection_ledger` shares its file with the cumulative ledger and
  replaces the history (`RejectionLedger.NamesakeErasesHistory`); every other region
  keeps it (`RejectionLedger.HistoryIsKept`).

None of this happens over any number of restarts when each pending number is not above
the mark or the number in the name of its own file (`UploadProtocol.ClaimedIsBelow`,
`UploadProtocol.EveryStateConsistent`). Every directory that only ever held legacy files
and files the store wrote is such a one: every run keeps it so
(`UploadProtocol.EveryStateStoreNumbered`), and it always resumes with every upload
persisted and not unlinked (`UploadState.ResumeAfterRestart`).

The controller may also have more than one live job: a policy check that fails after a
successful `oarsub` marks the batch failed, and it is then submitted again
(`ControllerProtocol.TwoJobsForOneBatch`). No theorem claims otherwise;
`ControllerProtocol.AttemptsNeverRepeat` says what does hold.

Two regular expressions accept more than their documentation suggests, and the model
follows the code: the `\d` of a QID takes any decimal digit of Unicode, and the
case-insensitive `a-z` of a language code takes four letters outside ASCII.

## Model

| member | source | states |
|---|---|---|
| UploadProtocol.CrashIsLawful | src/osm_polygon_wikidata_only/hf/_upload_state.py:90-121 | every initial part of a lawful run is a lawful run: a crash loses the rest and nothing else |
| UploadProtocol.StepKeepsConsistent | src/osm_polygon_wikidata_only/hf/_upload_state.py:90-121 | with every pending number safe from what the store remembers, no single step leaves a pending upload, whatever its file is called, without a snapshot or with another hash |
| UploadProtocol.EveryStateConsistent | src/osm_polygon_wikidata_only/hf/_upload_state.py:90-121 | the same at every point of every run, crashes and restarts among its steps, whose restarts find every pending number below the next one |
| UploadProtocol.SuffixIsLawful | src/osm_polygon_wikidata_only/hf/_upload_state.py:90-121 | what follows any point of a lawful run is a lawful run from the directory found there |
| UploadProtocol.EveryStateStoreNumbered | src/osm_polygon_wikidata_only/hf/_upload_state.py:90-113 | a directory of legacy files and files the store wrote, with number in name and payload and a message, stays one over every run |
| UploadProtocol.HighwaterRises | src/osm_polygon_wikidata_only/hf/_upload_state_files.py:20-41 | the high-water mark never falls over a run |
| UploadProtocol.AllocationsAscend | src/osm_polygon_wikidata_only/hf/_upload_state.py:83-88 | two allocations of any run, crashes and restarts between, get ascending numbers, each above every numbered file present |
| UploadProtocol.EnvelopeStays | src/osm_polygon_wikidata_only/hf/_upload_state.py:463-473 | an envelope of any name stays as written until it is itself unlinked: no allocation overwrites it |
| UploadProtocol.PendingUploadSurvives | src/osm_polygon_wikidata_only/hf/_upload_state.py:276-279 | a pending upload of any name keeps its envelope, every snapshot and every recorded hash until it is unlinked, over all runs whose restarts find its number below the next one |
| UploadProtocol.SafeInSession | src/osm_polygon_wikidata_only/hf/_upload_state_files.py:37-41 | exactly when a session cannot harm a pending upload with added files, whatever it does short of finishing it: its number is below the one the session starts with |
| UploadProtocol.CollisionStrips | src/osm_polygon_wikidata_only/hf/_upload_state.py:90-121 | otherwise some lawful steps of that session end with it pending and without a snapshot: a submission given its number is given up |
| UploadProtocol.OwnClaimSuffices | src/osm_polygon_wikidata_only/hf/_upload_state_files.py:44-59 | a pending file is found below the next number at every restart if the mark or the number in its own name is not below its number |
| UploadProtocol.ClaimedIsBelow | src/osm_polygon_wikidata_only/hf/_upload_state_files.py:44-59 | the same for a whole directory, and every step keeps it so |
| UploadProtocol.EveryHeldIsPending | src/osm_polygon_wikidata_only/hf/_upload_state.py:188-205 | whatever a session handed out is pending under the number it remembers until it is unlinked |
| UploadProtocol.EnvelopeOrigin | src/osm_polygon_wikidata_only/hf/_upload_state.py:90-113 | an envelope found after some steps was there before or was committed by one of them |
| UploadProtocol.LegacyJobSurvives | src/osm_polygon_wikidata_only/hf/_upload_state.py:362-380 | after any run that takes none of its upgrades back, a legacy job is still its old file, or an upgraded envelope with the same message and operations that is there or was later unlinked as finished |
| UploadState.WrittenEntriesRestore | src/osm_polygon_wikidata_only/hf/_upload_state.py:312-347 | reading back the entries an envelope was written with gives the same operations with their snapshot paths |
| UploadState.PersistedUploadRestores | src/osm_polygon_wikidata_only/hf/_upload_state.py:284-309 | an upload persisted earlier and not deleted restores after any steps to the same operations and message, with each added file's hash in its place, that of the snapshot on disk it points to, and none for an operation that adds nothing |
| UploadState.PendingEnvelopes | src/osm_polygon_wikidata_only/hf/_upload_state.py:207-244 | classifying a directory succeeds exactly when every file classifies and no sequence repeats, and then splits it into current jobs and legacy files |
| UploadState.ResumableIs | src/osm_polygon_wikidata_only/hf/_upload_state.py:207-244 | a directory can be resumed exactly if every file is a legacy job or one in the current format with a positive number, and no two current ones have the same |
| UploadState.SortJobsAscends | src/osm_polygon_wikidata_only/hf/_upload_state.py:271-282 | jobs with distinct sequences end in strictly ascending sequence order, none added or lost |
| UploadState.RestoresAre | src/osm_polygon_wikidata_only/hf/_upload_state.py:284-309 | every job restores or is reported failed, exactly one of the two |
| UploadState.JobReads | src/osm_polygon_wikidata_only/hf/_upload_state.py:284-347 | a job restores exactly if every entry is readable and there is a message, and then each operation and hash is that of the entry in its place |
| UploadState.RestoresAscend | src/osm_polygon_wikidata_only/hf/_upload_state.py:188-205 | uploads restored from ascending jobs ascend strictly |
| UploadState.RestoreJobs | src/osm_polygon_wikidata_only/hf/_upload_state.py:188-205 | the restoring loop gives every restorable job's upload in order and every other job's failure, and fails exactly on a job that restores but for its message |
| UploadState.ResumeOutcomeHolds | src/osm_polygon_wikidata_only/hf/_upload_state.py:188-205 | what resuming amounts to: ascending uploads, each from an envelope still there, every current file and every legacy file, under the number of its position, accounted for once |
| UploadState.NothingStops | src/osm_polygon_wikidata_only/hf/_upload_state.py:246-269 | with every pending number below the next one no upgrade is refused, and with every message there nothing else stops resuming |
| UploadState.ResumedAreHandedOut | src/osm_polygon_wikidata_only/hf/_upload_state.py:188-205 | the session remembers every upload it resumed, under the number whose directory finishing it removes |
| UploadState.OthersAfterDelete | src/osm_polygon_wikidata_only/hf/_upload_state.py:463-473 | after a deletion with its snapshots, any other pending upload that was complete stays so exactly if it is not one with added files and the same number |
| UploadState.StoreNumberedRuns | src/osm_polygon_wikidata_only/hf/_upload_state.py:90-113 | from a directory the store numbered, every point of every run has every pending upload complete and safe |
| UploadState.CommittedUploadStays | src/osm_polygon_wikidata_only/hf/_upload_state.py:90-113 | an upload committed at some point of a run and not unlinked since is a job of the directory at its end that restores to what was submitted, each added file with the hash of its snapshot on disk |
| UploadState.ResumeAfterRestart | src/osm_polygon_wikidata_only/hf/_upload_state.py:188-205 | the main theorem: over every run from a directory the store numbered, with crashes and restarts anywhere, resuming succeeds, whatever file operations fail, and gives back each upload persisted and not unlinked; every upload it gives back carries, operation by operation, the hash of the snapshot on disk |
| UploadState.DeleteTakesAnothersSnapshots | src/osm_polygon_wikidata_only/hf/_upload_state.py:463-473 | a file named 1 whose payload says 2, with no file error: after resuming it and persisting one new upload, deleting either of the two leaves the other pending and stripped |
| UploadState.MisnumberedFileLosesLegacyJob | src/osm_polygon_wikidata_only/hf/_upload_state.py:246-269 | such a file beside a legacy one, with no file error: resuming fails, the legacy job is in no envelope, and the misnumbered upload is pending without its snapshots |
| UploadState.StateDirectory.Attempt | src/osm_polygon_wikidata_only/hf/_upload_state_files.py:62-65 | one file operation that may fail before or after it took effect, always a lawful step |
| UploadState.StateDirectory.CopyFile | src/osm_polygon_wikidata_only/hf/_upload_state_files.py:62-65 | a copy cut short leaves a partial snapshot file and no envelope naming it |
| UploadState.StateDirectory.KeepsUpload | src/osm_polygon_wikidata_only/hf/_upload_state.py:276-279 | for whatever the store did since it was opened: an upload complete and below the next number then is complete now unless it was unlinked |
| UploadState.StateDirectory.KeepsConsistent | src/osm_polygon_wikidata_only/hf/_upload_state.py:276-279 | if all were, every upload pending now is complete, newly persisted ones included |
| UploadState.StateDirectory.AllHeldSince | src/osm_polygon_wikidata_only/hf/_upload_state.py:188-205 | what a session hands out when it resumes, and persists after, it still remembers until it is unlinked |
| UploadState.StateDirectory.RemoveTree | src/osm_polygon_wikidata_only/hf/_upload_state.py:115-121 | removing one sequence's snapshots touches no other sequence, in lawful steps once the session gave up that number |
| UploadState.UploadStateStore.constructor | src/osm_polygon_wikidata_only/hf/_upload_state_files.py:37-41 | opening takes the number after the largest of the mark and of those that files have in their names or, when the name is none, record |
| UploadState.UploadStateStore.AllocateSequence | src/osm_polygon_wikidata_only/hf/_upload_state.py:83-88 | a number is used up even when storing the mark fails, and is above the mark and every claim |
| UploadState.UploadStateStore.SnapshotOperations | src/osm_polygon_wikidata_only/hf/_upload_state.py:123-186 | all snapshots and hashes of the added files are on disk before the entries are returned, a missing source being an error |
| UploadState.UploadStateStore.CleanupFailedSubmission | src/osm_polygon_wikidata_only/hf/_upload_state.py:115-121 | a failed submission's envelope goes first, then its snapshots, and nothing else changes |
| UploadState.UploadStateStore.Persist | src/osm_polygon_wikidata_only/hf/_upload_state.py:90-113 | success adds exactly the envelope of the next number, its snapshots with the sources' content whatever was at their places, and hands out an upload that the session remembers, with one hash for each operation: that of the snapshot it points to for an added file, none otherwise; failure leaves every other envelope as it was; nothing outside the directory of that number is touched; without file errors it fails only for a missing source |
| UploadState.UploadStateStore.UpgradeLegacyOperations | src/osm_polygon_wikidata_only/hf/_upload_state.py:382-461 | legacy entries gain snapshot and hash, keep action, paths and order |
| UploadState.UploadStateStore.UpgradeLegacyEnvelope | src/osm_polygon_wikidata_only/hf/_upload_state.py:362-380 | the replacement is written before the legacy file goes; on failure the job is still there in one form or the other; without file errors it succeeds exactly if its entries can be upgraded |
| UploadState.UploadStateStore.TakeBackUpgrade | src/osm_polygon_wikidata_only/hf/_upload_state_files.py:119-123 | taking back a refused upgrade removes its envelope and, without file errors completely, all snapshots of its number, those of the pending file of that number included |
| UploadState.UploadStateStore.UpgradePendingLegacy | src/osm_polygon_wikidata_only/hf/_upload_state.py:246-269 | every legacy file is upgraded or reported; without file errors it refuses exactly if a file that can be upgraded is given a number already seen, and then that job is in no envelope and the file that has the number is left without snapshots |
| UploadState.UploadStateStore.ResumePending | src/osm_polygon_wikidata_only/hf/_upload_state.py:188-205 | over any directory: an ambiguous one is left unchanged and refused; without file errors success is exactly an unambiguous directory in which no upgrade is refused and no job raises; one the store numbered always resumes, whatever fails; success means the full resume outcome, the session remembers what it hands out, every upload carries what its envelope's entries record, place by place, with the hashes of the snapshots of a complete one, and a current file yields one exactly if its entries are readable |
| UploadState.UploadStateStore.Delete | src/osm_polygon_wikidata_only/hf/_upload_state.py:463-473 | envelope first, then snapshots, and nothing else; lawful steps for every upload handed out; without file errors another complete pending upload stays complete exactly if it is not one with added files and the same number |
| UploadState.ScannedSequence | src/osm_polygon_wikidata_only/hf/_upload_state_files.py:44-59 | the result is the largest claim of any file, zero for none |
| SentencePlan.PackBatches | src/osm_polygon_wikidata_only/grid5000/sentence_protocol.py:308-332 | the loop's batches are an order-preserving split obeying both limits, numbered from 0, none of which could have taken one region more |
| SentencePlan.GreedyStaysAhead | src/osm_polygon_wikidata_only/grid5000/sentence_protocol.py:308-346 | after equally many batches the greedy split has covered at least as much as any other split by the rule |
| SentencePlan.GreedyIsFewest | src/osm_polygon_wikidata_only/grid5000/sentence_protocol.py:308-346 | no order-preserving split by the same rule has fewer batches |
| SentencePlan.PlanIsFewest | src/osm_polygon_wikidata_only/grid5000/sentence_protocol.py:308-358 | so no such split has fewer batches than a plan |
| SentencePlan.PlanSentenceBatches | src/osm_polygon_wikidata_only/grid5000/sentence_protocol.py:80-94 | limits below one are refused; otherwise the plan is a greedy split of exactly the pending regions |
| SentencePlan.PendingIsIncomplete | src/osm_polygon_wikidata_only/grid5000/sentence_protocol.py:281-305 | pending regions are exactly the finalized ones with a source file, of either project, not yet completed, each once |
| SentencePlan.PendingInOrder | src/osm_polygon_wikidata_only/grid5000/sentence_protocol.py:281-305 | each pending region stands at the place of an incomplete finalized one, in ascending order, with the bytes of its source files together |
| SentencePlan.BatchesKeepStems | src/osm_polygon_wikidata_only/grid5000/sentence_protocol.py:349-358 | the batches together list every pending stem once and in order |
| ControllerProtocol.StepKeepsSafe | src/osm_polygon_wikidata_only/grid5000/sentence_controller_batches.py:38-108 | every controller step keeps ledgers serial, records consistent, memory ahead of disk, and attempts stored before use |
| ControllerProtocol.EveryStateSafe | src/osm_polygon_wikidata_only/grid5000/sentence_controller_lifecycle.py:25-68 | the same in every state of every sequence of runs, cut off anywhere |
| ControllerProtocol.WrittenLedgersAreSerial | src/osm_polygon_wikidata_only/grid5000/sentence_controller_batches.py:38-56 | every ledger ever on disk is published batches, then at most one in another state, then untouched ones |
| ControllerProtocol.PublishedUnderLedgerCommit | src/osm_polygon_wikidata_only/grid5000/sentence_controller_ledger.py:67-86 | over all runs, each published batch was accepted on a receipt of its own job and regions that names the ledger's final source commit and says that it succeeded, of a job that terminated without a failing exit code |
| ControllerProtocol.StuckBatchIsNeverSubmitted | src/osm_polygon_wikidata_only/grid5000/sentence_controller_batches.py:203-208 | a run that finds a batch cancelled, or submitted without a job identifier, never submits it, nor does any later run |
| ControllerProtocol.AttemptIsNew | src/osm_polygon_wikidata_only/grid5000/sentence_controller_batches.py:58-68 | a batch about to begin gets an attempt number that nothing remote has used |
| ControllerProtocol.AttemptsNeverRepeat | src/osm_polygon_wikidata_only/grid5000/sentence_controller_policy.py:329-330 | no two uploads or submissions of any runs share batch and attempt, so remote job directories differ |
| ControllerProtocol.TwoJobsForOneBatch | src/osm_polygon_wikidata_only/grid5000/sentence_controller_batches.py:76-99 | any batch that may be begun can come to have two jobs queued with nothing removed: the policy check after oarsub fails and the next run submits it again |
| ControllerProtocol.RunRootIsRemovedLast | src/osm_polygon_wikidata_only/grid5000/sentence_controller_lifecycle.py:102-112 | the run directory is removed only with every batch published, and no later step of any run uses it |
| SentenceController.Controller.WriteLedger | src/osm_polygon_wikidata_only/grid5000/sentence_controller_ledger.py:152-158 | a write stores the ledger in memory or changes nothing, even when interrupted, and ends as the environment says |
| SentenceController.Controller.ProcessBatch | src/osm_polygon_wikidata_only/grid5000/sentence_controller_batches.py:38-56 | normal return means the batch is published and stored; no other batch changed |
| SentenceController.Controller.SubmitBatch | src/osm_polygon_wikidata_only/grid5000/sentence_controller_batches.py:58-108 | a new attempt in a directory of its own, with nothing left of earlier ones; every outcome by the first command that fails: none, running and on disk with the reported job; a timeout leaves the batch active, submitted without a job or running if oarsub had already answered; an interrupt likewise; any other error marks it failed; nothing is staged if the first write fails |
| SentenceController.Controller.TrySubmit | src/osm_polygon_wikidata_only/grid5000/sentence_controller_batches.py:68-99 | the attempt is on disk before anything is staged or queued, and the batch is running exactly if oarsub reported a job |
| SentenceController.Controller.ReconcileBatch | src/osm_polygon_wikidata_only/grid5000/sentence_controller_batches.py:203-214 | without a job identifier it stops and asks nothing; otherwise it polls until the job is at its end, and the batch becomes ready exactly if download and import succeed, the job terminated with no exit code or zero, and the receipt is there, says succeeded and matches job, regions, model and source commit; the evidence recorded is what was found |
| SentenceController.Controller.RetrieveBatch | src/osm_polygon_wikidata_only/grid5000/sentence_controller_batches.py:216-240 | ready exactly on such a receipt and status, recording what was found; otherwise failed with the reason the receipt gives and, unless a call fails, cleaned up and stored; a failed download or import changes nothing |
| SentenceController.Controller.MarkBatchFailed | src/osm_polygon_wikidata_only/grid5000/sentence_controller_import.py:42-73 | the checkpoints are kept first; then the batch is failed with the receipt's reason: missing, not matching, its own error type or a failed job |
| SentenceController.Controller.CleanupRemoteJob | src/osm_polygon_wikidata_only/grid5000/sentence_controller_lifecycle.py:79-88 | changes nothing of the batch but its cleaned mark, skips a directory already cleaned, refuses an unset one, and marks it only after the removal |
| SentenceController.Controller.PublishBatch | src/osm_polygon_wikidata_only/grid5000/sentence_controller_lifecycle.py:40-68 | published exactly if the two files on the Hub have the hashes of the ledger and both upload and verification succeed; otherwise the batch stays ready, with the reason recorded unless it was interrupted |
| SentenceController.Controller.Initialize | src/osm_polygon_wikidata_only/grid5000/sentence_controller_ledger.py:36-86 | an existing ledger is accepted exactly if its run and configuration are the same and its source commit is, or no batch has a result or a job that may still give one and the move is stored; the ledger is then the same but for the commit and the recorded move |
| SentenceController.Controller.CreateLedger | src/osm_polygon_wikidata_only/grid5000/sentence_controller_ledger.py:58-65 | a new ledger has one untouched record for each planned batch, column by column, and this run's identity, configuration, commit and Hub hashes |
| SentenceController.Controller.Run | src/osm_polygon_wikidata_only/grid5000/sentence_controller_lifecycle.py:25-38 | normal return means everything published, cleaned up and stored |
| SentenceController.Controller.RunBatches | src/osm_polygon_wikidata_only/grid5000/sentence_controller_lifecycle.py:25-38 | batches are taken in order: wherever it stops, all before one batch are published and all after it are as they were |
| SentenceController.Controller.FinalizeRun | src/osm_polygon_wikidata_only/grid5000/sentence_controller_lifecycle.py:102-112 | the run directory is removed only while the ledger on disk has every batch published and cleanup not complete; complete is recorded only after the removal succeeded |
| SentenceController.Controller.HandleInterrupt | src/osm_polygon_wikidata_only/grid5000/sentence_controller_lifecycle.py:114-125 | an interrupted batch that may have a live job is cancelled on disk |
| ManifestImport.ManifestRegions | src/osm_polygon_wikidata_only/grid5000/sentence_protocol.py:220-245 | succeeds exactly when regions is a list of objects with distinct identities, and indexes it |
| ManifestImport.ValidateHeader | src/osm_polygon_wikidata_only/grid5000/sentence_protocol.py:248-257 | succeeds exactly when every invariant header field is present and equal |
| ManifestImport.ValidateExistingRegions | src/osm_polygon_wikidata_only/grid5000/sentence_protocol.py:156-164 | succeeds exactly when every local region is in the incoming manifest unchanged |
| ManifestImport.ValidateSelectedStems | src/osm_polygon_wikidata_only/grid5000/sentence_protocol.py:167-177 | succeeds exactly when stems are selected and all of them listed |
| ManifestImport.ValidateManifestExtension | src/osm_polygon_wikidata_only/grid5000/sentence_protocol.py:142-153 | succeeds exactly for an extension of the local manifest that lists the selected stems |
| ManifestImport.ExtensionsCompose | src/osm_polygon_wikidata_only/grid5000/sentence_protocol.py:142-177 | an extension of an extension is an extension |
| ManifestImport.ManifestOnlyGains | src/osm_polygon_wikidata_only/grid5000/sentence_protocol.py:142-177 | over any run of accepted extensions the last extends every earlier one |
| ManifestImport.InstallAgain | src/osm_polygon_wikidata_only/grid5000/sentence_controller_import.py:88-132 | copying a list of files again after any initial part of it ends as copying it once |
| ManifestImport.RerunFinishesImport | src/osm_polygon_wikidata_only/grid5000/sentence_controller_import.py:88-153 | an import cut off after any copy may be run again on the same result and ends in the files of an uninterrupted one |
| ManifestImport.ManifestGainsDuringImport | src/osm_polygon_wikidata_only/grid5000/sentence_controller_import.py:88-124 | at every point of an import the local manifest extends the one it started from |
| ManifestImport.RegionsStay | src/osm_polygon_wikidata_only/grid5000/sentence_protocol.py:142-177 | over any imports, finished or cut off anywhere, a manifest once present stays and keeps every region it ever had |
| ManifestImport.ChangesWereDue | src/osm_polygon_wikidata_only/grid5000/sentence_controller_import.py:88-124 | over any imports no file disappears, and one that changed is what an import in between was due to write: for a manifest or sentence file, the content its receipt declares |
| ManifestImport.PairsInOrder | src/osm_polygon_wikidata_only/grid5000/sentence_controller_import.py:108-109 | the files are taken stem after stem, each stem's projects in order |
| ManifestImport.CheckpointCopiesAre | src/osm_polygon_wikidata_only/grid5000/sentence_protocol.py:482-490 | checkpoint files copied for some stems and projects carry exactly their received identity |
| ManifestImport.FitsAtItsTurn | src/osm_polygon_wikidata_only/grid5000/sentence_protocol.py:472-479 | a checkpoint's check before its copy has the outcome it had before the import began |
| ManifestImport.LocalData.ImportCheckpoint | src/osm_polygon_wikidata_only/grid5000/sentence_protocol.py:195-210 | an absent directory is skipped, a foreign identity or a gap in the batches refused, otherwise batches then metadata are copied |
| ManifestImport.LocalData.Validate | src/osm_polygon_wikidata_only/grid5000/sentence_controller_import.py:88-120 | succeeds exactly if manifest and every selected sentence file arrived as declared and the manifest extends the local one; then it gives the copies to make |
| ManifestImport.LocalData.ImportCheckpoints | src/osm_polygon_wikidata_only/grid5000/sentence_controller_import.py:129-153 | checkpoints are checked and copied in turn, each against the files as they are by then |
| ManifestImport.LocalData.Import | src/osm_polygon_wikidata_only/grid5000/sentence_controller_import.py:88-132 | on success every path has what is due there, the content the receipt declares for the manifest and each selected sentence file, checkpoints as received, and all other paths are as before; nothing is copied unless all these artifacts are declared, there and as declared; it succeeds exactly if the result may be installed and nothing cuts it off; what it did is always an initial part of its copies |
| Checkpoints.FetchDocumentSectionsBatch | src/osm_polygon_wikidata_only/augmentation/steps.py:330-353 | whatever order workers finish in, each project gets exactly the sections of its documents, sorted |
| Checkpoints.SameSorted | src/osm_polygon_wikidata_only/augmentation/steps.py:351-353 | the same sections in any order sort to the same list |
| Checkpoints.RenderedSame | src/osm_polygon_wikidata_only/augmentation/steps.py:330-353 | rendering documents in another order gives the same sections |
| Checkpoints.CheckpointStore.WriteTemporary | src/osm_polygon_wikidata_only/augmentation/checkpoints.py:332-343 | cut off anywhere, a save touches only a temporary directory; a finished one holds table and metadata |
| Checkpoints.CheckpointStore.RemoveTarget | src/osm_polygon_wikidata_only/augmentation/checkpoints.py:344-346 | cut off anywhere, what is left of the old directory is part of one save |
| Checkpoints.CheckpointStore.SaveSectionBatch | src/osm_polygon_wikidata_only/augmentation/checkpoints.py:279-300 | cut off anywhere, a batch's directory is absent or all or part of one save of it; a finished save is complete |
| Checkpoints.CheckpointStore.LoadSectionBatch | src/osm_polygon_wikidata_only/augmentation/checkpoints.py:265-277 | a load gives nothing or all rows of one earlier save for these documents; it succeeds exactly if the documents are those recorded, the table can be read, and every row is of one of them, no two with document, index and heading in common |
| Checkpoints.CheckpointStore.SectionsOfBatch | src/osm_polygon_wikidata_only/augmentation/orchestrator.py:300-313 | loaded or fetched, a batch's rows are what rendering its documents gives |
| Checkpoints.CheckpointStore.CheckpointedDocumentSections | src/osm_polygon_wikidata_only/augmentation/orchestrator.py:281-318 | a run over any checkpoints that ends, ends with the sorted sections of a run without any: for each project exactly the sections rendering the documents gives, by document and index |
| Checkpoints.CheckpointStore.Runs | src/osm_polygon_wikidata_only/augmentation/orchestrator.py:281-318 | over any number of runs, each cut off anywhere and with its own completion order in every batch, every run that ends gives what a fresh run gives |
| MetadataMarker.StepKeepsOrderly | src/osm_polygon_wikidata_only/hf/core_publication.py:180-228 | without failures nothing is pending outside the queue, and a refresh starts and stays with everything it needs |
| MetadataMarker.StepKeepsMarked | src/osm_polygon_wikidata_only/hf/core_publication.py:126-155 | every step but a dry run's callback for an unnamed region with polygons keeps owed and pending deferred regions named |
| MetadataMarker.EveryOwedIsNamed | src/osm_polygon_wikidata_only/hf/core_publication.py:126-155 | over all runs with crashes, failures and resumed jobs, every region committed since the last refresh is in the marker, if no dry run came to an unnamed region with polygons |
| MetadataMarker.UnsoundGoesUnnamed | src/osm_polygon_wikidata_only/hf/core_publication.py:142-143 | and only then: any dry run's callback for an unnamed region with polygons, in any state, has a lawful continuation that commits the region without naming it |
| MetadataMarker.RefreshOnlyWhenComplete | src/osm_polygon_wikidata_only/hf/core_publication.py:180-198 | a refresh is uploaded only by a deferring run with no failure, nothing pending, and every named region among those it published |
| MetadataMarker.RefreshAfterProcessing | src/osm_polygon_wikidata_only/hf/core_publication.py:253-255 | over all runs: a run that refreshes ended its processing completely at some earlier step, with neither a crash nor another run in between |
| MetadataMarker.RefreshPaysForPublished | src/osm_polygon_wikidata_only/hf/core_publication.py:258-265 | then, under the same condition, every region owed the refresh was published by that run |
| MetadataMarker.DryRunGoesUnnamed | src/osm_polygon_wikidata_only/hf/core_publication.py:142-143 | a dry run's leftover job is committed by a later run without being named |
| MetadataMarker.CorePublication.EnqueueUpload | src/osm_polygon_wikidata_only/hf/core_publication.py:139-177 | recorded, then assembled, which fails without the polygons, then persisted and queued, then counted as published; failing before that aborts processing |
| MetadataMarker.CorePublication.CloseAndWait | src/osm_polygon_wikidata_only/hf/core_publication.py:190-190 | the queue is worked off completely and the marker untouched |
| MetadataMarker.CorePublication.DrainUploads | src/osm_polygon_wikidata_only/hf/core_publication.py:180-228 | refreshes exactly when nothing failed, processing completed and every named region was published; a failed refresh keeps the marker |
| MetadataMarker.CorePublication.RunCorePublication | src/osm_polygon_wikidata_only/hf/core_publication.py:52-91 | the exact condition under which a whole run without failed uploads refreshes: it deferred, was not aborted, processed something, and processed every region the marker named when it began |
| HostLogin.StepKeepsSafe | src/osm_polygon_wikidata_only/enrichment/wikimedia_auth.py:157-285 | every step of every thread keeps locks, flags, places and log in agreement |
| HostLogin.EveryWorldSafe | src/osm_polygon_wikidata_only/enrichment/wikimedia_auth.py:157-285 | the same in every state of every interleaving |
| HostLogin.WorldsGrow | src/osm_polygon_wikidata_only/enrichment/wikimedia_auth.py:211-228 | hosts stay, and authenticated and rejected flags never revert |
| HostLogin.LoginsNeverOverlap | src/osm_polygon_wikidata_only/enrichment/wikimedia_auth.py:211-217 | two threads are never logging in to one host at once |
| HostLogin.OneVerdict | src/osm_polygon_wikidata_only/enrichment/wikimedia_auth.py:219-228 | a host gets at most one verdict and its two flags say which one from then on, never both |
| HostLogin.PacedByVerdict | src/osm_polygon_wikidata_only/enrichment/wikimedia_auth.py:177-186 | every request is paced by the interval of the verdict its host has then and ever after |
| HostLogin.NeverMislabelled | src/osm_polygon_wikidata_only/enrichment/wikimedia_auth.py:275-285 | a host counted as anonymous is never verified, then or later |
| HostLogin.SnapshotAddsUp | src/osm_polygon_wikidata_only/enrichment/wikimedia_auth.py:243-273 | a snapshot's three counts add up to the hosts it listed |
| HostLogin.OthersDoNoMore | src/osm_polygon_wikidata_only/enrichment/wikimedia_auth.py:211-228 | what another thread's step can do to a host while this thread looks away |
| HostLogin.WikimediaSession.Acquire | src/osm_polygon_wikidata_only/enrichment/wikimedia_auth.py:214-214 | waiting for the lock under any steps of the others keeps decisions and ends under the lock, or when no other thread moves any more |
| HostLogin.WikimediaSession.EnsureAuthenticated | src/osm_polygon_wikidata_only/enrichment/wikimedia_auth.py:211-228 | in steps of the interleaving, whatever the others do in between: a login only if undecided under the lock, a request proceeds only with a verdict, and a decided host is asked nothing |
| HostLogin.WikimediaSession.Read | src/osm_polygon_wikidata_only/enrichment/wikimedia_auth.py:157-187 | one request among others: it goes out at the interval of its host's verdict, logged as such, and is given up only when its own login broke off or it still waits for the lock |
| HostLogin.WikimediaSession.AuthSnapshot | src/osm_polygon_wikidata_only/enrichment/wikimedia_auth.py:243-285 | a snapshot taken among logins counts every host listed at its start once, for what it was at some moment of the snapshot: pending if its lock was held or its login still due, otherwise by its flags |
| Geometry.ClosedPathAbout | src/osm_polygon_wikidata_only/domain/geometry.py:61-108 | the cross sum of a closed ring does not depend on the origin, and each moment shifts by three times the cross sum times the shift |
| Geometry.ShoelaceIsTriangles | src/osm_polygon_wikidata_only/domain/geometry.py:61-108 | the ring sums are those of the signed triangles its edges form with any point |
| Geometry.MeasureRing | src/osm_polygon_wikidata_only/domain/geometry.py:61-108 | the loop computes the cross sum and both moments of the closed outline; fewer than four points are refused |
| Geometry.MeasureRings | src/osm_polygon_wikidata_only/domain/geometry.py:157-171 | the moments of all rings add up, and one short ring refuses all |
| Geometry.Rings | src/osm_polygon_wikidata_only/domain/geometry.py:40-58 | a multipolygon's rings are those of its parts in order, each in its place and none besides; a polygon's are its own; anything else is refused |
| Geometry.PartsInOrder | src/osm_polygon_wikidata_only/domain/geometry.py:52-58 | ring j of part i comes right after all rings of earlier parts and its own first j, and every ring is at such a place |
| Geometry.ComputePolygonGeometry | src/osm_polygon_wikidata_only/domain/geometry.py:191-201 | succeeds exactly on a polygon or multipolygon with a ring and at least four points in each; then, projected about the mean vertex of the first ring and seen from any apex, twice the area is the absolute sum of the triangles of all ring edges, and the centroid times that sum is the triangles' sum, each times the mean of its corners; a shape without area is placed at that mean vertex |
| Geometry.MeasureRectangle | src/osm_polygon_wikidata_only/domain/geometry.py:111-201 | every rectangle along the axes, from any corner and either way round, has the product of its projected sides as area and its middle as centroid |
| Geometry.TotalAt | src/osm_polygon_wikidata_only/domain/geometry.py:157-188 | moments of any rings, holes included, in a moved frame |
| Geometry.OriginDoesNotMatter | src/osm_polygon_wikidata_only/domain/geometry.py:111-188 | with area, area and centroid are the same for every projection origin |
| Geometry.AreaIsOriginFree | src/osm_polygon_wikidata_only/domain/geometry.py:125-144 | the area, zero included, is the same for every origin |
| Geometry.DirectionDoesNotMatter | src/osm_polygon_wikidata_only/domain/geometry.py:111-154 | reversing all closed rings changes neither area nor centroid, degenerate shapes and the reference point included |
| Geometry.AreaIsTriangles | src/osm_polygon_wikidata_only/domain/geometry.py:157-188 | the summed moments of all rings are those of the signed triangles their edges form with any apex |
| Geometry.AreaMovesEast | src/osm_polygon_wikidata_only/domain/geometry.py:147-154 | moving a shape along its parallel keeps its area and moves its centroid by as much |
| Sections.Source.ParentIsNearest | src/osm_polygon_wikidata_only/augmentation/sections.py:93-95 | a section's parent is j exactly if j is the nearest earlier kept section of smaller level |
| Sections.Source.OrphanIsLowest | src/osm_polygon_wikidata_only/augmentation/sections.py:93-95 | there is no parent exactly if no earlier kept section has a smaller level |
| Sections.Source.AncestorsAreAbove | src/osm_polygon_wikidata_only/augmentation/sections.py:98-131 | the parent chain is exactly the earlier kept sections whose level is below all kept ones up to this one |
| Sections.Source.ChainRises | src/osm_polygon_wikidata_only/augmentation/sections.py:93-95 | along a chain positions and levels rise strictly |
| Sections.Source.StackLevelsRise | src/osm_polygon_wikidata_only/augmentation/sections.py:77-95 | the stack's levels rise strictly |
| Sections.Source.PathFollowsParent | src/osm_polygon_wikidata_only/augmentation/sections.py:107-107 | a path is the parent's path and the own heading, empty headings left out |
| Sections.Source.KeptHasRow | src/osm_polygon_wikidata_only/augmentation/sections.py:83-89 | a section has a row exactly if it has text and its heading, case folded, is none of the five excluded ones |
| Sections.Source.RowsInOrder | src/osm_polygon_wikidata_only/augmentation/sections.py:83-89 | rows come in document order, each section once |
| Sections.Source.TrimStack | src/osm_polygon_wikidata_only/augmentation/sections.py:93-95 | popping leaves exactly the chain of the new section's parent |
| Sections.Source.MakeSection | src/osm_polygon_wikidata_only/augmentation/sections.py:98-131 | the row made from the stack is the one the tree describes |
| Sections.Source.BuildSections | src/osm_polygon_wikidata_only/augmentation/sections.py:77-90 | the stack algorithm gives the rows of the tree defined without a stack, each repeating its section's heading, anchor, level and text |
| LanguageGrouping.UnknownIsUnusable | src/osm_polygon_wikidata_only/hf/language_inventory_models.py:238-266 | the unknown partition is exactly the values without a usable language, and every other partition is a well-formed language code |
| LanguageGrouping.TagIsParts | src/osm_polygon_wikidata_only/hf/language_inventory_models.py:18-18 | the expression matches exactly if, of the parts between dashes, the first is two or three letters and every other two to eight letters or digits |
| LanguageGrouping.NormalizedIs | src/osm_polygon_wikidata_only/hf/language_inventory_models.py:238-266 | what every value normalizes to, in the order of the cases |
| LanguageGrouping.RowByRowGroups | src/osm_polygon_wikidata_only/hf/language_splits.py:408-420 | row-by-row grouping gives one group for each name in use, with exactly its rows ascending, in order of first use |
| LanguageGrouping.GroupingIsUnique | src/osm_polygon_wikidata_only/hf/language_splits.py:408-420 | there is only one such grouping |
| LanguageGrouping.SortIndicesPrecede | src/osm_polygon_wikidata_only/hf/language_splits.py:446-464 | the sorted positions ascend by identifier and then by row, all rows once |
| LanguageGrouping.SortIndicesConcatenate | src/osm_polygon_wikidata_only/hf/language_splits.py:446-464 | they are the rows of each identifier in use, one run after another |
| LanguageGrouping.PartitionNamesByCode | src/osm_polygon_wikidata_only/hf/language_splits.py:431-443 | for any dictionary encoding, nulls apart, every row's filled code names its own partition |
| LanguageGrouping.AssignIdentifiers | src/osm_polygon_wikidata_only/hf/language_splits.py:423-426 | equal names share an identifier and different names do not |
| LanguageGrouping.GroupedRowIndices | src/osm_polygon_wikidata_only/hf/language_splits.py:446-464 | each slice of the sorted positions is exactly one identifier's rows |
| LanguageGrouping.PartitionRowIndices | src/osm_polygon_wikidata_only/hf/language_splits.py:408-428 | the fast grouping equals row-by-row grouping: names, order of names and row lists |
| LanguageGrouping.BulkIsPerRow | src/osm_polygon_wikidata_only/hf/language_splits.py:478-491 | counting by distinct value gives the counters of counting row by row |
| LanguageGrouping.RowsAreCounted | src/osm_polygon_wikidata_only/hf/language_splits.py:129-141 | each bucket grows by exactly the rows of its partition |
| LanguageGrouping.ReasonsAreCounted | src/osm_polygon_wikidata_only/hf/language_splits.py:129-161 | each bucket's counter of a reason grows by exactly the rows that go there for it |
| LanguageGrouping.CountsStayWell | src/osm_polygon_wikidata_only/hf/language_splits.py:154-161 | reasons add up to rows, the unknown bucket has no usable rows and the others only such |
| LanguageGrouping.LanguageScan.ObserveBatch | src/osm_polygon_wikidata_only/hf/language_splits.py:478-491 | the loop over distinct values leaves the buckets of a row-by-row count |
| LanguageGrouping.LanguageScan.ScanFile | src/osm_polygon_wikidata_only/hf/language_splits.py:382-405 | a file in any batches counts as one column, and passes exactly if the number of rows is the expected one |
| ArticleLinker.LinkQid | src/osm_polygon_wikidata_only/enrichment/article_linker.py:73-178 | linking one QID asks its allowed links in site order and records each answer |
| ArticleLinker.LinkEntityLinks | src/osm_polygon_wikidata_only/enrichment/article_linker.py:73-178 | the articles of one QID are the first of its allowed links' answers in site order, as many as the limit allows: an initial part of what no limit gives |
| ArticleLinker.FetchCompatibilityQids | src/osm_polygon_wikidata_only/enrichment/article_linker.py:440-464 | one by one, each QID gets its own summary: its articles are the first of the allowed links' answers in site order, as many as the limit allows, all of them without one, and a negative limit drops so many at the end |
| ArticleLinker.ChunksFlatten | src/osm_polygon_wikidata_only/enrichment/article_linker.py:467-470 | chunks are non-empty, bounded and together the whole list |
| ArticleLinker.BuildSiteRequests | src/osm_polygon_wikidata_only/enrichment/article_linker.py:248-272 | exactly the titles some allowed link wants are requested of each site, in the order of the links, sites by the first link to them |
| ArticleLinker.RoundRobinSiteWork | src/osm_polygon_wikidata_only/enrichment/article_linker.py:300-308 | the loops give one chunk of each site per round until none is left |
| ArticleLinker.RoundRobinCounts | src/osm_polygon_wikidata_only/enrichment/article_linker.py:300-308 | over all rounds each site is visited once for each of its chunks, each chunk once |
| ArticleLinker.PlanSiteWork | src/osm_polygon_wikidata_only/enrichment/article_linker.py:275-308 | every wanted title is asked of its site exactly once, nothing else is asked, and chunk counts are right |
| ArticleLinker.SameCounts | src/osm_polygon_wikidata_only/enrichment/article_linker.py:311-332 | rearranging work changes no count |
| ArticleLinker.ConsumeSite | src/osm_polygon_wikidata_only/enrichment/article_linker.py:345-358 | one finished chunk adds its answers, keeps all others and reports a site when its last chunk is in |
| ArticleLinker.FetchSiteWork | src/osm_polygon_wikidata_only/enrichment/article_linker.py:311-358 | in every completion order all wanted answers are there and each site is reported complete exactly once |
| ArticleLinker.AppliedAsRecorded | src/osm_polygon_wikidata_only/enrichment/article_linker.py:361-372 | the batched and the direct form of recording an answer agree |
| ArticleLinker.PopulateSummary | src/osm_polygon_wikidata_only/enrichment/article_linker.py:386-401 | every lookup finds its answer and the summary is that of the allowed links' answers, cut to the limit |
| ArticleLinker.FetchBatchedEntities | src/osm_polygon_wikidata_only/enrichment/article_linker.py:231-245 | chunked lookups give each QID its own entity, in order |
| ArticleLinker.FetchBatchedQids | src/osm_polygon_wikidata_only/enrichment/article_linker.py:404-437 | for every completion order the summaries are those of linking directly: the first answers in site order, as many as the limit allows |
| ArticleLinker.FetchQids | src/osm_polygon_wikidata_only/enrichment/article_linker.py:184-228 | batched or one by one, the same statuses, errors and articles: the first of the allowed links' answers in site order, as many as the limit allows; sizes below one are refused |
| RejectionLedger.BestIsFirstAndLargest | src/osm_polygon_wikidata_only/augmentation/rejection_ledger.py:152-177 | the record kept for an identity has the largest cascade count and the first reason |
| RejectionLedger.MergedHolds | src/osm_polygon_wikidata_only/augmentation/rejection_ledger.py:152-177 | a merge holds one record for each identity, by region, table, identifier and QID, ties by first occurrence |
| RejectionLedger.MergedIsDistinct | src/osm_polygon_wikidata_only/augmentation/rejection_ledger.py:152-177 | no identity occurs twice in a merge |
| RejectionLedger.MergeInStages | src/osm_polygon_wikidata_only/augmentation/rejection_ledger.py:152-177 | merging any part first changes nothing, order included |
| RejectionLedger.MergeRecords | src/osm_polygon_wikidata_only/augmentation/rejection_ledger.py:152-177 | the dictionary loop and the sort compute the merge |
| RejectionLedger.CumulativeAfter | src/osm_polygon_wikidata_only/augmentation/rejection_ledger.py:419-430 | after an apply the cumulative ledger is the new rejections merged with the old ledger, except that a region of the ledger's own name replaces it |
| RejectionLedger.NamesakeErasesHistory | src/osm_polygon_wikidata_only/augmentation/rejection_ledger.py:425-430 | such a region with nothing rejected leaves an empty ledger |
| RejectionLedger.HistoryIsKept | src/osm_polygon_wikidata_only/augmentation/rejection_ledger.py:425-430 | applying a plan keeps the history for every earlier ledger and every rejections exactly if the region is not named like the ledger |
| RejectionLedger.CumulativeIsHistory | src/osm_polygon_wikidata_only/augmentation/rejection_ledger.py:378-402 | after any applies the cumulative ledger is the merge of every rejection ever planned and the initial ledger |
| RejectionLedger.CumulativeHoldsAll | src/osm_polygon_wikidata_only/augmentation/rejection_ledger.py:224-238 | it has exactly one record for every identity ever rejected, with the largest count seen |
| RejectionLedger.PlanAgain | src/osm_polygon_wikidata_only/augmentation/rejection_ledger.py:273-294 | planning over what a plan retains rejects nothing and retains everything |
| RejectionLedger.NothingMoreRejected | src/osm_polygon_wikidata_only/augmentation/rejection_ledger.py:378-402 | applying that second plan leaves the cumulative ledger unchanged |
| RejectionLedger.PartitionDocuments | src/osm_polygon_wikidata_only/augmentation/_wikivoyage_membership.py:27-48 | retained are exactly the documents with a valid QID, in order, rejected the others |
| RejectionLedger.RetainSections | src/osm_polygon_wikidata_only/augmentation/rejection_ledger.py:345-357 | retained are the sections of other documents, and the counts are the dropped ones of each |
| RejectionLedger.RecordRejections | src/osm_polygon_wikidata_only/augmentation/rejection_ledger.py:324-375 | succeeds exactly if every rejection can be recorded: a region name, and a document identifier and well-formed QIDs for each; each record names region, table, document, QID and reason, with its section count |
| RejectionLedger.DataRoot.PlanIntegrity | src/osm_polygon_wikidata_only/augmentation/rejection_ledger.py:273-315 | succeeds exactly with polygons, documents and recordable rejections, and gives the plan without changing anything |
| RejectionLedger.DataRoot.LoadLedger | src/osm_polygon_wikidata_only/augmentation/rejection_ledger.py:202-221 | an absent file is empty; otherwise succeeds exactly on the right version with complete records |
| RejectionLedger.DataRoot.MergeLedgerFiles | src/osm_polygon_wikidata_only/augmentation/rejection_ledger.py:224-238 | the target becomes the merge of the sources that exist, in key order under the current version, or nothing changes |
| RejectionLedger.DataRoot.ApplyIntegrity | src/osm_polygon_wikidata_only/augmentation/rejection_ledger.py:378-430 | tables, region ledger and cumulative ledger after an apply, and what is left when the old ledger cannot be loaded |
| WikidataQids.TagRoundTrip | src/osm_polygon_wikidata_only/domain/wikidata_qids.py:15-27 | QIDs joined by semicolons with blanks around them read back as the same QIDs, repeated ones once |
| WikidataQids.QidsAreValid | src/osm_polygon_wikidata_only/domain/wikidata_qids.py:15-27 | the QIDs of a tag are distinct, each a Q, a digit from one to nine and more digits, and there are none exactly if some component is malformed |
| WikidataQids.SplitJoin | src/osm_polygon_wikidata_only/domain/wikidata_qids.py:24-24 | joining parts without the separator and splitting gives them back |
| WikidataQids.JoinSplit | src/osm_polygon_wikidata_only/domain/wikidata_qids.py:24-24 | splitting and joining gives the text back |
| DocumentLinks.ValidateLinks | src/osm_polygon_wikidata_only/domain/polygon_document_links.py:222-234 | succeeds exactly on rows valid in every column without conflicting duplicates, and gives each row once by polygon, project and document |
| DocumentLinks.MergeLinkRow | src/osm_polygon_wikidata_only/domain/polygon_document_links.py:243-252 | a row conflicts exactly if its key holds a different row |
| DocumentLinks.ValidatedAgain | src/osm_polygon_wikidata_only/domain/polygon_document_links.py:222-234 | a validated result validates to itself |
| DocumentLinks.BuildIndex | src/osm_polygon_wikidata_only/domain/polygon_document_links.py:192-213 | succeeds exactly on valid polygons, and the index holds each polygon under each of its QIDs and nothing else |
| DocumentLinks.BuildPolygonDocumentLinks | src/osm_polygon_wikidata_only/domain/polygon_document_links.py:192-219 | succeeds exactly if polygons, documents and linked rows are valid and do not conflict; then the rows are exactly those of the nested loop, column by column, sorted and unique |
| DocumentLinks.JoinIsOrderFree | src/osm_polygon_wikidata_only/domain/polygon_document_links.py:192-219 | order and repetition of polygons and documents change neither success nor rows |

## Left out

- SSH, rsync, `oarsub`, Hugging Face calls, HTTP and MediaWiki requests are answers of an environment that may succeed, fail, time out or be interrupted; their text is not modelled.
- Parquet, Arrow and JSON encodings: rows, tables and payloads are values, and Arrow's stable sort, value counts and dictionary encoding are given by what they return. A table cut off while being written is modelled as unreadable.
- SHA-256 digests stand for the content they are computed from, and stable section identifiers for the fields they digest.
- Floating-point rounding in `Geometry`: the theorems are about exact reals, with the degree factor and the cosine as parameters.
- The class names of exceptions that the controller records as a batch's error are fixed texts, `submission_failed` and `baseline_changed`; the two reasons for an unusable receipt are the code's own.
- A change of a region's artifacts between recording it and assembling its upload; a missing artifact other than the polygons is one of the ways in which submitting fails.
- Interrupts reach the controller only at environment calls and ledger writes, not between two assignments in memory.
- The symbolic-link and directory checks of the upload store, and the creation of empty directories, which no later step depends on.
- An upload without added files restores with the snapshot directory of its number although none was made for it; operations, message and hashes are unaffected.
- The upload store's `snapshot_mismatch` and the queue's retries, which belong to the uploader.
- Schema checks of sentence outputs and checkpoint tables in `ManifestImport`, which need the encodings above.
- Entity, document and fact checkpoints: they use the same directory replacement as section batches and would repeat its theorems.
- The HTML parser of the section builder, which overwrites a section's text when headings nest; only the tree built from its output is modelled.
- Columns of a section or link row that are copied unchanged or computed from one field, such as word counts, and the numeric conversions of raw rows.
- The label, description and aliases passed along with a single article request, which the batched request does not carry.
- What a run does with a `KeyError` when a batch answer lacks a title: the client is taken to answer every title it is asked, and consistently.
- Two processes on one state directory, or on one ledger, at the same time.
- A session of the upload store resumes every pending file in the protocol, also one whose entries do not restore, which the code reports and never deletes; the theorems about all runs then cover more runs than there are.
- A one-shot iterator passed as the languages of an article request: the code rebuilds the set for each QID and finds it empty from the second on, while here the languages are a set.
- Crash atomicity of applying an integrity plan: tables are written before ledgers, and no claim is made for a crash between them.
- Whether waiting threads eventually get a host's lock: the login theorems are about safety.
- Template stripping, dataset cards, maps, plots, command-line parsing and progress counters.
