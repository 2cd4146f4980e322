# Worker attempts, the STEP component's bundles, and their smaller companions: a verified model

This project models, in Dafny, the parts of the BamDude backend where a process may outlive the code that watches it or a
directory may be half replaced when the machine stops, and proves what those parts promise. Each module follows one
source file. Functions give the meaning of a step, methods and classes do what the source does step by step and are proved
equal to those functions, and lemmas state what holds of every run.

- `Ledger`, `PartRenderService`, `PreviewService`, `AnalysisService`: the command protocol of the three worker services.
  Every stretch of code between two awaits is one event, so a run is any sequence of events: arriving commands, task
  steps, cancels that land on whatever await the run is at, handlers that resume. History fields record what was
  executed, settled, and which process trees may live.
- `PartRenderOutcomes`, `PreviewOutcomes`: what an attempt of those two services is answered, told from how each of its
  own awaits ended and when a cancel was requested; and what every arriving command is answered, told from what was
  settled, executed and cancelled before.
- `MarkerScanning`, `Selection`: the streaming scan for start markers, and the selection, the job, the check of Node's
  answer and the assembly of one instance per object.
- `BundleStore`: install, repair, reclaim, locate and prune over a disk whose renames are atomic. Every operation appends
  the disks it passes through to a history; a crash is a history that stops, so what holds of all its disks holds wherever
  an operation failed or was cut off.
- `StagingOwnership`, `WorkerGuardian`: who may still write into a staging, when the owner may die and the machine reboot
  between any two steps; and the guardian's order of launch, spawn, record and
  bootstrap, with its watch on the owner's pipe.
- `StagingEvent`: the closed log event with its printer and a parser of any JSON.
- `SourcesBundle`, `CameraLeases`, `ArchivePrune`, `FramePlan`: the release bundle of copyleft sources, the leases of a
  camera worker, the orphan sweep with its bottom-up collapse, and the scroll frames.
- `Sorting`, `Options`: sets in increasing order, and the optional value.

## Where the code does less than its documentation says

Each of these is stated as an exact condition, with the input that shows it.

- Part-render promises that every outcome but `unavailable`, `busy` and `protocol_error` is given only after the attempt's
  process tree was proven gone (`backend/app/services/part_render_protocol.py:54-55`). The end of the tree runs under
  `owned`, which swallows the step's own exception when a cancel is pending
  (`backend/app/services/preview_artifacts.py:39-55`), and the `except Exception` around it
  (`backend/app/part_render_service.py:294-300`) does not see the CancelledError. So a failed end under a pending cancel
  leaves `uncertain` unset, and a later cancel is answered `canceled` over a tree that may live.
  `PartRenderService.PromiseStandsExactly` says exactly when the promise stands, `DroppingRunBreaksPromise` is a run of
  a new service that breaks it, and `DroppedEndIsAnsweredCanceled` is how every run with a dropped end may go on.
- In the preview service a spawn whose process could not be proven ended (`SpawnUnproven`,
  `backend/app/services/preview_process.py:73-78`) leaves `child` unset, so nothing makes the service uncertain and the
  attempt still ends with proofs (`backend/app/preview_service.py:275-281,448-453`).
  `PreviewService.ProofsStandExactly` says exactly when every proof is sound. For the same reason the attempt's staging
  is cleaned while that child may still write to it, by a service that is not uncertain
  (`backend/app/preview_service.py:448-457`): `CleansOverLiveExactly` and `CleanupStandsExactly` say exactly when.
  `UnprovenRunBreaksBoth` is a run of a new service in which both happen; `UnprovenChildIsAcknowledged` is how every run
  with an unproven spawn may go on.
- `MarkerScan` keeps 96 bytes as "longer than one marker line" (`backend/app/part_render.py:134`), but the pattern allows
  any number of spaces. It gives the same answer for every cut of the stream exactly when each wanted id that passes has a
  marker of at most 97 bytes with its terminating byte. For one cut, the readers' 1 MiB blocks included, an id is found
  exactly when a marker of it begins at most 96 bytes before the chunk of its last byte
  (`MarkerScanning.FoundInBlocksExactly`); `LongMarkerIsMissed` and `ReadersMissOne` are inputs that are missed.
- `verify_bundle` does not imply that each source is in the bundle once: `SourcesBundle.PlannedFileTwice` puts one more
  member of a planned file before an accepted bundle's own. An accepted bundle holds each source once exactly when as many
  of its members are named by a planned file as sources are planned: `SourcesBundle.AcceptedHoldsOnceExactly`. Every
  bundle `collect` packs has each exactly once.
- A bootstrap whose own record could not be read is logged under the code of a group that could not be named
  (`backend/app/step_runtime.py:767-777,882-896`): `StagingEvent.EveryReasonHasItsCode`.
- Frames overlap by what was asked exactly when the view leaves room for the least step of 200, or the page ends before
  its first step would: `FramePlan.OverlapsExactly`. They show every row exactly when the view has room for a whole step,
  or for all that the first view leaves over: `ShowsEveryRowExactly`. `NarrowViews` has an input for each.

## Model

| member | source | states |
|---|---|---|
| `Ledger.NextEvolves` | backend/app/part_render_service.py:199-235 | every step of the shared protocol keeps executed sequences strictly increasing, below the high-water mark, and starts only above everything seen before |
| `PartRenderService.Service.Receive` | backend/app/part_render_service.py:199-227 | one arriving run or cancel up to its first await: replays, duplicates, tombstones, refusals and the accepted run, with its whole new state |
| `PartRenderService.Service.Settle` | backend/app/part_render_service.py:228-235 | the run handler after its shield: active is cleared, a result is cached within 256 entries, a cancelled end is not |
| `PartRenderService.Service.Join` | backend/app/part_render_service.py:210-213 | a cancel handler answers only once the task it awaited is over, and not at all when that task ended cancelled |
| `PartRenderService.Service.Advance` | backend/app/part_render_service.py:237-322 | the run task from one await to the next, a pending cancel included |
| `PartRenderService.Service.Handle` | backend/app/part_render_service.py:129-322 | every event, a lost broker and the service's end included: the object's new state and answer are the state machine's, so what every run keeps holds of the object |
| `PartRenderService.PromiseStandsExactly` | backend/app/part_render_service.py:199-302 | in every run, each promising answer from here on is over a gone tree if and only if the service is uncertain or no failed end was dropped by a cancel |
| `PartRenderService.DroppedEndIsAnsweredCanceled` | backend/app/part_render_service.py:294-300 | from whatever state a dropped failed end led to, a cancel of that attempt is answered canceled two events later while its tree may live |
| `PartRenderService.DroppingRunLoses` | backend/app/part_render_service.py:294-300 | a run of a new service that drops a failed end: the first attempt is canceled while its tree is being ended, and the service is not uncertain |
| `PartRenderService.DroppingRunBreaksPromise` | backend/app/part_render_service.py:199-219 | that run goes on: the cancel's own handler gets no reply, and the next cancel is answered canceled while the tree may live |
| `PartRenderService.CanceledMeansOver` | backend/app/part_render_service.py:199-219 | a cancel answered canceled (no failed end dropped): its tree is gone, and in whatever follows it neither starts nor lives |
| `PartRenderService.UncertainIsAbsorbing` | backend/app/part_render_service.py:199-221 | once uncertain, no run ever starts and every cancel gets unavailable or protocol_error |
| `PartRenderService.UploadsAndCleansOverGoneTree` | backend/app/part_render_service.py:294-322 | upload and staging cleanup run only when the attempt's tree is proven gone and the service is not uncertain |
| `PartRenderService.CacheIsTheLatest` | backend/app/part_render_service.py:232-234 | after every run the cache is exactly the last min(256, n) settled runs, each sequence at most once |
| `PartRenderService.StepRefinesLedger` | backend/app/part_render_service.py:199-235 | every event of the service is a step of the shared ledger or changes nothing of it |
| `PartRenderService.ExecutesOnce` | backend/app/part_render_service.py:199-235 | in every run executed sequences are strictly increasing, even after evictions and tombstoning cancels |
| `PartRenderOutcomes.SettledExactly` | backend/app/part_render_service.py:237-322 | over every run, what a settled attempt was answered: rendered if and only if it was prepared, spawned and watched to a rendering, its tree was proven gone, an ok result was uploaded and no cancel was requested; and one condition on its awaits for each other outcome |
| `PartRenderOutcomes.EndsUnansweredExactly` | backend/app/part_render_service.py:210-232 | an attempt ends without an answer exactly when a cancel was requested before its task began, while its tree was being ended, or during its cleanup |
| `PartRenderOutcomes.UncertainExactly` | backend/app/part_render_service.py:261-302 | the service is uncertain if and only if the end of some attempt stayed unproven and no cancel hid it |
| `PartRenderOutcomes.AnsweredAsSettled` | backend/app/part_render_service.py:228-235 | a run is answered exactly when its task left a result, with that result, and it is what is settled |
| `PartRenderOutcomes.TaskCanEnd` | backend/app/part_render_service.py:237-322 | from wherever a task is, the events of a good run end it |
| `PartRenderOutcomes.PassedExactly` | backend/app/part_render_service.py:214-226 | the high-water mark told from the run: a sequence is past exactly when one as high was executed or cancelled |
| `PartRenderOutcomes.RememberedAnswered` | backend/app/part_render_service.py:201-206 | a repeat of one of the last 256 settled runs gets its very result, a cancel of it the proof or unavailable, anything else protocol_error |
| `PartRenderOutcomes.ActiveAnswered` | backend/app/part_render_service.py:207-213 | on the active sequence: its own cancel waits, its repeat is busy, nothing else is its command |
| `PartRenderOutcomes.PastAnswered` | backend/app/part_render_service.py:214-218 | a past sequence and a new cancel get canceled, or unavailable once uncertain, and start nothing |
| `PartRenderOutcomes.ExecutedExactly` | backend/app/part_render_service.py:214-227 | a run is executed if and only if it is new, the service is free and certain and its deadline is ahead; a refused one gets the first reason that applies |
| `PartRenderOutcomes.JoinAnswered` | backend/app/part_render_service.py:210-213 | a waiting cancel is answered exactly when its attempt is over and did not end cancelled |
| `PreviewService.Service.Store` | backend/app/preview_service.py:143-149 | a terminal is stored and the head of the cache popped while it is stale or past the limit |
| `PreviewService.Service.Prune` | backend/app/preview_service.py:164-166 | what every command does first: the stale head of the cache goes |
| `PreviewService.Service.Receive` | backend/app/preview_service.py:164-243 | any arriving command up to its first await: proofs, replays, tombstones, the checks of the manifest, and the accepted run |
| `PreviewService.Service.Settle` | backend/app/preview_service.py:244-254 | the run handler after its shield: unavailable once uncertain, remembered otherwise |
| `PreviewService.Service.Join` | backend/app/preview_service.py:188-207 | a cancel is acknowledged with a proof only once the run task is over and the service is not uncertain |
| `PreviewService.Service.Render` | backend/app/preview_service.py:256-288 | the task's try block: children spawned one after another, their watch, and what a pending cancel does to each |
| `PreviewService.Service.Leave` | backend/app/preview_service.py:443-455 | a child's stop and the finally blocks, a failed last stop making the service uncertain |
| `PreviewService.Service.Handle` | backend/app/preview_service.py:164-455 | every event: the object's new state and answer are the state machine's |
| `PreviewService.ProofsStandExactly` | backend/app/preview_service.py:164-254 | in every run, each proof sent from here on is for a sequence with no live child that never starts again, if and only if the service is uncertain or every spawn's end was proven |
| `PreviewService.UnprovenChildIsAcknowledged` | backend/app/preview_service.py:275-281 | from whatever state an unproven spawn led to, a cancel of that attempt is acknowledged with a proof, once its terminal expired, while its child may live |
| `PreviewService.UnprovenRunBreaksBoth` | backend/app/preview_service.py:275-281 | a run of a new service whose first spawn stays unproven: its staging is cleaned over the child, and its cancel is acknowledged with a proof |
| `PreviewService.ProvenMeansOver` | backend/app/preview_service.py:184-221 | a proof sent while every spawn's end was proven: no child of that sequence lives then or in any later step, and it never starts again |
| `PreviewService.ChildrenOneAfterAnother` | backend/app/preview_service.py:256-367 | in every run at most one child of each attempt may live; one is spawned, and outputs are published, only while none of the attempt's own may live, every earlier one was stopped and the service is not uncertain; across attempts at most one may live that no unproven spawn left |
| `PreviewService.CleansOverLiveExactly` | backend/app/preview_service.py:448-457 | a staging is cleaned only by a service that is not uncertain, and over a child of its attempt that may live if and only if that attempt's last spawn ended unproven |
| `PreviewService.CleanupStandsExactly` | backend/app/preview_service.py:448-457 | from no point of a run can a staging be cleaned over a live child, if and only if the run has no unproven spawn |
| `PreviewService.CacheIsLongestFreshSuffix` | backend/app/preview_service.py:143-166 | the cache is exactly the longest suffix of the settlement log that is within the TTL and the limit |
| `PreviewService.ShrinkIsLongestFresh` | backend/app/preview_service.py:143-149 | popping the stale or surplus head leaves the longest fresh suffix within the limit, and none longer is |
| `PreviewService.ShrinkTwice` | backend/app/preview_service.py:143-166 | pruning at two times is pruning at the later one: an earlier pruning never drops what a later one would keep |
| `PreviewService.StepRefinesLedger` | backend/app/preview_service.py:164-254 | every event of the service is a step of the shared ledger or changes nothing of it |
| `PreviewService.ExecutesOnce` | backend/app/preview_service.py:164-254 | in every run executed sequences are strictly increasing, even after a terminal expired or was evicted |
| `PreviewOutcomes.SettledExactly` | backend/app/preview_service.py:256-455 | over every run, what a settled attempt was answered: ok if and only if every render of its chain ended in a way the chain goes on from, every stop returned, the work after them was done and no cancel was requested before the finally; and one condition for each other outcome |
| `PreviewOutcomes.EndsUnansweredExactly` | backend/app/preview_service.py:188-201 | an attempt ends without a result if and only if it was cancelled before its task began |
| `PreviewOutcomes.UncertainExactly` | backend/app/preview_service.py:448-453 | the service is uncertain if and only if the last stop of some attempt's child failed |
| `PreviewOutcomes.AnsweredAsSettled` | backend/app/preview_service.py:244-254 | a run is answered exactly when its task left a result, with what is remembered |
| `PreviewOutcomes.TaskCanEnd` | backend/app/preview_service.py:368-455 | from wherever a task is in any run, the events of a good run end it |
| `PreviewOutcomes.RememberedAnswered` | backend/app/preview_service.py:179-187 | a sequence among the last 256 and no older than 900 seconds gets its very result again, with a proof exactly for a cancel in a certain service |
| `PreviewOutcomes.ActiveAnswered` | backend/app/preview_service.py:188-208 | on the active sequence: its own cancel waits, its repeat is busy, nothing else is its command |
| `PreviewOutcomes.PastAnswered` | backend/app/preview_service.py:209-213 | a past sequence is canceled, with a proof exactly for a cancel in a certain service |
| `PreviewOutcomes.NewCancelAnswered` | backend/app/preview_service.py:216-222 | a cancel of a new sequence is remembered as canceled and acknowledged the same way |
| `PreviewOutcomes.ExecutedExactly` | backend/app/preview_service.py:214-243 | a new run is executed if and only if the service is free and certain, its deadline is ahead and its manifest is one a run may bring; anything refused gets the first reason that applies |
| `PreviewOutcomes.WantedExactly` | backend/app/preview_service.py:230-240 | which manifests a run may bring, artifact by artifact |
| `PreviewOutcomes.JoinAnswered` | backend/app/preview_service.py:190-207 | a waiting cancel is answered exactly when its attempt's task is over |
| `AnalysisService.Service.Receive` | backend/app/analysis_service.py:199-230 | one arriving run or cancel up to its first await |
| `AnalysisService.Service.Settle` | backend/app/analysis_service.py:231-238 | the run handler after its shield |
| `AnalysisService.Service.Handle` | backend/app/analysis_service.py:199-238 | every event: the object's new state is the state machine's |
| `AnalysisService.StepRefinesLedger` | backend/app/analysis_service.py:199-238 | the third handler too is a refinement of the shared ledger |
| `AnalysisService.ExecutesOnce` | backend/app/analysis_service.py:199-238 | in every run executed sequences are strictly increasing |
| `AnalysisService.CancelIgnoresUncertain` | backend/app/analysis_service.py:200-224 | a cancel answered at once does not depend on uncertain: its canceled is no proof |
| `AnalysisService.RememberedAnswered` | backend/app/analysis_service.py:200-209 | a repeat of one of the last 256 settled runs gets its very result, a cancel of it canceled, anything else protocol_error |
| `AnalysisService.ActiveAnswered` | backend/app/analysis_service.py:210-220 | on the active sequence: its own cancel waits, its repeat is busy, nothing else is its command |
| `AnalysisService.UnknownAnswered` | backend/app/analysis_service.py:221-230 | a new run is executed if and only if the service is free and certain and its deadline is ahead; every refusal and every past sequence with its answer |
| `MarkerScanning.FoundInEveryCutExactly` | backend/app/part_render.py:117-135 | an id is found under every cut of the stream exactly when passing at all implies passing with a marker of at most 97 bytes |
| `MarkerScanning.AnyFoundInEveryCutExactly` | backend/app/part_render.py:127-135 | the same for whether any marker passed |
| `MarkerScanning.SeesExactly` | backend/app/part_render.py:127-135 | one cut of the stream: an id is found if and only if a marker of it begins at most 96 bytes before the chunk of its last byte |
| `MarkerScanning.FoundInBlocksExactly` | backend/app/part_render.py:298-322 | the same for the readers' blocks of 1 MiB |
| `MarkerScanning.LongMarkerIsMissed` | backend/app/part_render.py:127-135 | a marker of 96 spaces or more, cut before its digit, passes and is not seen |
| `MarkerScanning.ReadersMissOne` | backend/app/part_render.py:298-322 | a stream that is missed when read block by block |
| `MarkerScanning.MarkersDoNotOverlap` | backend/app/part_render.py:70 | two markers of one stream never overlap, so a non-overlapping search misses none |
| `MarkerScanning.MarkerScan.Search` | backend/app/part_render.py:130-133 | one search of a buffer adds exactly the wanted ids with a marker in it |
| `MarkerScanning.MarkerScan.Feed` | backend/app/part_render.py:128-135 | after every chunk: exactly what all chunks so far show through the kept tail of at most 96 bytes |
| `MarkerScanning.FileChunks` | backend/app/part_render.py:313-322 | the file reader ends normally exactly when what it read is as long as the file, and then all of it was fed |
| `MarkerScanning.ZipChunks` | backend/app/part_render.py:303-310 | the entry reader fails exactly when the entry is longer than its directory says |
| `MarkerScanning.ScanFile` | backend/app/part_render.py:313-322 | a file read whole marks exactly the wanted ids with a marker that begins close enough before its chunk, and exactly those one scan of it would when each has a short marker |
| `Selection.SelectInstances` | backend/app/part_render.py:138-147 | min(cap, n) ids in order, the rest in order; as many names as the cap allows, first in key order, each by its smallest id; then the smallest ids |
| `Selection.CoversTheMost` | backend/app/part_render.py:138-147 | no choice of at most cap ids covers more names |
| `Selection.OneChoice` | backend/app/part_render.py:138-147 | those rules leave exactly one choice |
| `Selection.JobAsks` | backend/app/part_render.py:150-154 | the job asks a toolpath of every selected id and, only on a one-object plate with a box, the probe, whose id is then no object's |
| `Selection.CheckManifest` | backend/app/services/part_render_node.py:313-342 | the check passes exactly when the manifest answers every requested id once, in its mode or with a known reason, and every rendered entry has exactly its PNG |
| `Selection.AnswersExactly` | backend/app/services/part_render_node.py:313-342 | an answer that passes, entry by entry and PNG by PNG |
| `Selection.CheckedInstances` | backend/app/part_render.py:353-385 | after that check: an object has its own PNG exactly when Node rendered it; a model stands in exactly on a one-object plate past which no marker went; a reason is given exactly when there is no picture |
| `Selection.Assemble` | backend/app/part_render.py:353-385 | exactly one instance per object, in strictly increasing id order, each the one its object is owed |
| `Selection.RenderPlate` | backend/app/part_render.py:432-474 | the chain from selection to instances: refused exactly when the check refuses, else one instance per object, skipped exactly when not selected |
| `BundleStore.Select` | backend/app/step_runtime.py:238-249 | the loops give the selected wheel |
| `BundleStore.SelectsTheBest` | backend/app/step_runtime.py:238-249 | the best tag any wheel serves decides before the wheels' order does; nothing only when no tag is served |
| `BundleStore.SelectedExactly` | backend/app/step_runtime.py:238-249 | nothing is selected without py3-none-any, nor when no wheel serves a tag |
| `BundleStore.Locate` | backend/app/step_runtime.py:438-473 | ok exactly for the one directory with this interpreter's receipt and an OCP package; every refusal's reason by what the receipts read |
| `BundleStore.RefusalsExactly` | backend/app/step_runtime.py:438-473 | why nothing answers, from the receipts: mismatch before unreadable before not installed |
| `BundleStore.LocateAfterAnyHistory` | backend/app/step_runtime.py:438-473 | after any history of installs, prunes and damage: locate finds exactly the selected pin with this fingerprint's receipt, published there by a verified install of it |
| `BundleStore.AtMostOneCandidate` | backend/app/step_runtime.py:438-473 | after any history no two directories answer one fingerprint, tags being a function of it |
| `BundleStore.VerifiedAnswers` | backend/app/step_runtime.py:438-473 | a verified bundle under the selected pin is what locate answers |
| `BundleStore.AppDir.Reclaim` | backend/app/step_runtime.py:908-918 | of the platform's stagings exactly those stay that the judgement of their records keeps or the OS would not remove; those kept, trash and other keys are unchanged |
| `BundleStore.AppDir.Fill` | backend/app/step_runtime.py:972-1003 | inside the staging: a receipt is written exactly when record, pip, verify, smoke and the writes all succeeded, and only the staging changes |
| `BundleStore.AppDir.Swap` | backend/app/step_runtime.py:1004-1020 | the renames: in use exactly when the old bundle will not move or its new name is taken, a failed rename exactly when the new one will not; at every point the pin holds its old content, or the verified bundle, or nothing with the old content set aside; a failure leaves the old content unless its return fails too |
| `BundleStore.AppDir.Attempt` | backend/app/step_runtime.py:965-1024 | its answer is the first step that fails, and success when none does; a failed attempt leaves no staging of its own unless its tree is unproven or the OS would not remove it |
| `BundleStore.SucceedsExactly` | backend/app/step_runtime.py:965-1024 | an attempt succeeds if and only if every step goes well, and each of the ten failures is answered if and only if its own step failed after all before it went well |
| `BundleStore.AppDir.Locked` | backend/app/step_runtime.py:921-1024 | an intact bundle is never moved and answers; any other install answers as an attempt over what the reclaim leaves; a success is what locate answers right after; stagings a writer may live in are untouched |
| `BundleStore.AppDir.Install` | backend/app/step_runtime.py:930-1024 | all of it with the refusals before the lock, in their order: when it succeeds, and which failure it answers; other pins and other platforms' stagings are the same at every point |
| `BundleStore.AppDir.DisposeOfBundle` | backend/app/step_runtime.py:1086-1101 | an old bundle is moved aside first; in use exactly when the OS will not move it or the name is taken, then removed exactly when the OS removes it |
| `BundleStore.AppDir.PruneKey` | backend/app/step_runtime.py:1069-1116 | one key: what the rollback keeps, what a busy lock keeps, and the sweep of trash, bundles and stagings, each kept only for its own cause |
| `BundleStore.AppDir.Prune` | backend/app/step_runtime.py:1037-1118 | exactly the current key and, when asked, every other key directory of its platform is visited; at every point the current bundle, kept digests, busy keys and other platforms are untouched; every examined item has one fate that the disk shows and its cause explains, counted once; locate still answers the same |
| `BundleStore.FatesAreDetermined` | backend/app/step_runtime.py:1069-1117 | with fresh trash names every examined item's fate is the first cause that keeps it, and removed when none does; the counts are those of the causes |
| `BundleStore.RemovedCountsTheGone` | backend/app/step_runtime.py:1051-1060 | with fresh trash names, the items counted as removed are exactly those whose content is gone, from its name and from the trash |
| `BundleStore.NoWriterLosesItsStaging` | backend/app/step_runtime.py:856-918 | whatever run led to a staging's records, and wherever a reclaim or a prune stops: with truthful oracles, a staging it changed or removed has no live writer, then or ever after |
| `StagingOwnership.WriterMayLive` | backend/app/step_runtime.py:856-905 | the judgement with its loop over survivors, and when it ends token holders |
| `StagingOwnership.UnknownKeeps` | backend/app/step_runtime.py:856-905 | a staging is let go exactly when nothing was launched or every oracle asked gives a positive end |
| `StagingOwnership.ReasonsExactly` | backend/app/step_runtime.py:856-905 | each reason is given if and only if its own oracle is the first, in their order, not to answer positively |
| `StagingOwnership.WritersAreRecorded` | backend/app/services/step_runtime_child.py:300-425 | at every point of every run, whatever may write is named by the owner's, the launch's and the bootstrap's records |
| `StagingOwnership.GoneMeansOver` | backend/app/step_runtime.py:856-918 | a staging that went, by its owner or by any judgement, has no live writer then or ever after, wherever the owner died |
| `StagingOwnership.OwnerLetsGo` | backend/app/services/step_runtime_child.py:300-425 | a run whose owner sees it through ends with the staging gone and no records left |
| `StagingOwnership.JudgementLetsGo` | backend/app/step_runtime.py:908-918 | a run whose owner died over a released bootstrap: the next judgement that learns of its end lets the staging go |
| `StagingOwnership.JudgementEndsOnlyUnreleased` | backend/app/step_runtime.py:894-900 | the processes a judgement ends had never been released |
| `StagingOwnership.JudgedGoneIsOver` | backend/app/step_runtime.py:856-905 | whatever run led to the records: one judgement that lets the staging go means no writer lives, then or ever after |
| `StagingEvent.StagingReasonCode` | backend/app/step_runtime.py:793-798 | the first row that matches gives the code |
| `StagingEvent.EveryReasonHasItsCode` | backend/app/step_runtime.py:767-905 | no reason of the judgement is unknown, and each has its own code except one |
| `StagingEvent.InnerCodes` | backend/app/step_runtime.py:780-790 | the token proof's own reasons have their six codes, three by the whole text and three by its beginning |
| `StagingEvent.EventTells` | backend/app/step_runtime.py:801-814 | what the event says of the proof, the holders it ended and the time it took, each within its bound |
| `StagingEvent.AcceptsExactly` | backend/app/step_runtime.py:826-839 | a dictionary is an event's if and only if it has the six keys and no other, version 1, known codes and whole numbers within their bounds |
| `StagingEvent.ObjectReads` | backend/app/step_runtime.py:817-828 | the JSON parser undoes the printer for every object of plain strings and whole numbers |
| `StagingEvent.RoundTrip` | backend/app/step_runtime.py:801-839 | for every reason, proof, count and time the line has at most 512 characters and parses back to the closed event it was made from |
| `StagingEvent.ParseStagingKept` | backend/app/step_runtime.py:820-839 | whatever the line, with escapes, repeated keys and any other JSON in it, what is accepted is a closed event |
| `WorkerGuardian.ReadLine` | backend/app/worker_guardian.py:71-78 | a bootstrap is read exactly when a newline ends it within 98304 bytes, and nothing past it is consumed |
| `WorkerGuardian.Guard` | backend/app/worker_guardian.py:70-132 | a recorded worker gets its bootstrap only after its record and is spawned only after its launch, at every point; refusals leave no released child; the child's input is its bootstrap and, of the analysis child, what the owner sends later; the owner's EOF ends the tree |
| `WorkerGuardian.Watch` | backend/app/worker_guardian.py:112-132 | from the bootstrap on: what is passed on, when the tree is ended, and the exit code, none when the guardian ends with its group |
| `WorkerGuardian.ExitsAsChild` | backend/app/worker_guardian.py:34-42 | off Windows the child's own code, or 128 and the signal that killed it; on Windows its DWORD |
| `WorkerGuardian.ExitsOtherwise` | backend/app/worker_guardian.py:70-132 | no code when the guardian ends with its group, 2 for a refusal and for a child that could not be recorded; whoever could be spawned and recorded got its bootstrap |
| `WorkerGuardian.ExitStatusKeeps` | backend/app/worker_guardian.py:34-42 | on Windows the same DWORD within a C long; elsewhere two ends collide only as a signal and its shell code |
| `SourcesBundle.Builds` | scripts/step_preview_sources.py:122-154 | what controlled the build, or nothing when anything of it is not pinned |
| `SourcesBundle.BuildsExactly` | scripts/step_preview_sources.py:122-154 | a source package carries its build; else every package's recipe and then the build tree, all pinned, and none when anything is not pinned or there is nothing |
| `SourcesBundle.Plan` | scripts/step_preview_sources.py:157-179 | a plan exactly when every copyleft part is pinned with its build and no two sources share a file |
| `SourcesBundle.GatherExactly` | scripts/step_preview_sources.py:105-179 | every planned source is what its key pins and serves exactly the parts that need it |
| `SourcesBundle.Collect` | scripts/step_preview_sources.py:303-345 | succeeds exactly when every source can be taken as pinned; then the check accepts what it packed, each source is in it once, and a refusal writes nothing |
| `SourcesBundle.CollectedIsAccepted` | scripts/step_preview_sources.py:303-390 | the round trip: what collect packs is what verify_bundle accepts |
| `SourcesBundle.VerifyBundle` | scripts/step_preview_sources.py:360-390 | accepts exactly the bundles with the named sum, this closure's manifest and every planned source held |
| `SourcesBundle.AcceptedIsNamed` | scripts/step_preview_sources.py:360-375 | an accepted bundle is the one its .sha256 and the release asset name, for this closure, with a plan |
| `SourcesBundle.AcceptedIsComplete` | scripts/step_preview_sources.py:360-390 | acceptance implies every copyleft part's sources are there under their pinned identity with the bytes the manifest names; pinned bytes hash to the pin |
| `SourcesBundle.MembersBeforeAreAccepted` | scripts/step_preview_sources.py:369-390 | any members put before an accepted bundle's own leave it accepted under its new sum |
| `SourcesBundle.AcceptedHoldsOnceExactly` | scripts/step_preview_sources.py:369-390 | an accepted bundle holds each planned source once if and only if as many members are named by a planned file as sources are planned |
| `SourcesBundle.PlannedFileTwice` | scripts/step_preview_sources.py:369-390 | one more member of a planned file, with any bytes, before an accepted bundle's own is accepted, and that source is there once more than before |
| `CameraLeases.Worker.FinishedTask` | backend/app/camera_worker.py:193-239 | the end of a forwarder or proxy creates one tracked release if the lease is still in its table |
| `CameraLeases.Worker.FinishedRelease` | backend/app/camera_worker.py:164-172 | a tracked release leaves the pending set and its error is kept |
| `CameraLeases.Worker.ListReleases` | backend/app/camera_worker.py:525-533 | the shutdown makes one release for every lease before any of them runs |
| `CameraLeases.Worker.Handle` | backend/app/camera_worker.py:164-550 | every event of the loop, the releases and the shutdown: the object's new state is the state machine's |
| `CameraLeases.ReleasedAtMostOnce` | backend/app/camera_worker.py:171-239 | under every interleaving no lease is released twice |
| `CameraLeases.NoLeaseForgotten` | backend/app/camera_worker.py:203-239 | over every run, a lease still in its table has its forwarder or proxy running, or a release of its own kind and id that waits to begin |
| `CameraLeases.AwaitedIsFreed` | backend/app/camera_worker.py:184-229 | such a release, once it begins and ends well, frees its lease |
| `CameraLeases.AskedIsFreed` | backend/app/camera_worker.py:184-222 | a command's own release frees the lease of its kind and id and none other; its failure ends the loop |
| `CameraLeases.StoppingMeansReleased` | backend/app/camera_worker.py:525-550 | the stopping reply is sent only when every lease was released, once and without error, and no release is pending |
| `CameraLeases.StopsExactly` | backend/app/camera_worker.py:525-550 | with every release joined, the stopping reply is sent if and only if every lease ever given was released well |
| `CameraLeases.WholeRunStops` | backend/app/camera_worker.py:164-550 | a whole life of a worker with two leases, one ended by its forwarder and one by the shutdown, ends with the reply |
| `ArchivePrune.WalkFiles` | scripts/prune_orphan_archive_files.py:289-309 | the pruned walk yields exactly the files whose directory is not skipped |
| `ArchivePrune.DataDir.Collapse` | scripts/prune_orphan_archive_files.py:312-335 | an apply removes exactly the directories below the root with no file beneath and neither inside nor above a skipped one, and counts them |
| `ArchivePrune.CollapseTwice` | scripts/prune_orphan_archive_files.py:312-335 | a second pass finds nothing, and no file lost its directory |
| `ArchivePrune.DataDir.Run` | scripts/prune_orphan_archive_files.py:372-410 | the whole run deletes exactly the unreferenced, unowned, unskipped files, then collapses both roots independently; without apply nothing changes |
| `FramePlan.PlanOffsets` | scripts/workshop_stand/capture_serve.py:36-51 | the loop gives the planned offsets; complete exactly when they fit the limit |
| `FramePlan.OverlapsExactly` | scripts/workshop_stand/capture_serve.py:29-51 | neighbours overlap as asked if and only if the view has room for the least step or the page ends before it |
| `FramePlan.UsualPlan` | scripts/workshop_stand/capture_serve.py:29-51 | with the usual overlap and limit, in a view of at least 280: neighbours overlap by 80, and the plan is complete exactly when the page is no longer than the view and 39 full steps |
| `FramePlan.ShowsEveryRowExactly` | scripts/workshop_stand/capture_serve.py:36-51 | a complete plan shows every row if and only if the view has room for a whole step or for all that the first view leaves over |
| `FramePlan.SlackLosesLittle` | scripts/workshop_stand/capture_serve.py:43-51 | a page ending at most 4 below its first view is one frame and loses exactly the rows below it; a longer one steps by 200 or more and ends at its bottom |
| `FramePlan.NarrowViews` | scripts/workshop_stand/capture_serve.py:36-51 | a view whose frames overlap by less than asked, and one that leaves rows out |
| `FramePlan.CutShortIsPrefix` | scripts/workshop_stand/capture_serve.py:49-50 | a plan cut short is the beginning of the full one |

## Left out

- NATS, the object store, message encoding, sockets, FFmpeg, Pillow, Node and pip: each is an outcome given to the step
  that uses it.
- The limit of 16 concurrent handlers, `ready`'s store probe, `status` replies of part-render and analysis, and the
  diagnostics a reply carries (`stage`, `crash`, `staging_cleanup`).
- `stop()` of part-render and preview: a run accepted between its wait for the task and the cancelling of the handlers.
- `close_transfer` in the preview service's finally is taken not to raise.
- A child's stop that is tried again after a failed one counts as proof when it returns: what the second call can still
  find of a tree whose guardian is dead (`backend/app/services/preview_process.py:97-131`) is not modelled.
- The RSS, staging-size and deadline watchdogs are a step that ends the watch with any outcome.
- The reply to a cancel handler that is itself cancelled: only that nothing is stored is modelled.
- The child lifecycle, idle monitor and cancel's wait of `analysis_service.py`: its run task is one event.
- Canonical part names (`part_names.py`): a name is the rank of its key in key order; the PNG checks of a manifest entry
  (bytes, hash, size) are one digest.
- Choosing and reading a plate's ZIP entries (`plan_3mf`, `plan_gcode`, `open_source`), and `finish`, which packs the
  result.
- Path resolution, symlinks, UTF-16 lengths (one flag says whether the path fits), hashing and JSON libraries; the first
  32 digits of a digest are taken to name it.
- `verify_tree` is a predicate of a site and a wheel; a passing smoke needs the OCP package directory; both are otherwise
  free. Removing a directory leaves any part of it or nothing.
- Two operations of different keys interleaved on one disk: each touches only its own key's directories, which its
  contract states, and locks exclude two of one key.
- `load_catalog` apart from what it guarantees (each key once); the administrator's choice, `status` and `verify`.
- The order in which prune visits keys, and directories whose names it does not know.
- A process that leaves its group; a Windows Job object closes with its owner's death, and POSIX groups are scanned.
- The worker modules' bootstrap formats. The guardian's watch and its wait for the child are one sequence: what the owner
  sends before either ends is given as a list of chunks.
- PartRenderService.Service.Disconnect: the stopping event it also sets only starts `stop()`.
- Reading a conda recipe out of its package and the patches it names: a recipe is taken or refused. File names are given,
  as numbers in their sort order, so which of two spellings a URL yields is not modelled.
- `verify-release` and its waiting; the README the bundle carries is any bytes.
- The camera registry's producers, queues and probes; a lease is acquired with a fresh id. Captures and probes hold no
  lease and appear only as a pause of the shutdown.
- Entity attachment directories of the prune script, the database reads behind its sets, and OS errors of the collapse.
- The serving half of `capture_serve.py`.
