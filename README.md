# Upload preparation pipelines of VimeoUpload, in Dafny

This project models the two upload-preparation operations of VimeoUpload and proves
how they route the completions of their sub-operations.

- `SimplePrepareUploadOperation` (2-step example app) runs: download an export session
  when the asset is not local → export → exact file size → weekly quota check →
  create the video record. On success it records the exported file `url` and the
  `uploadTicket`.
- `VideoSettingsOperation` runs: download the asset when it is not local (writing it into
  the shared `PHAssetContainer`) → export (its url becomes `result`) → exact file size →
  weekly quota check → exact file size again → disk space check.

Both are small state machines over the fields `state`, `cancelled`, `error` and
`url`/`uploadTicket` or `result`. Assigning `error` forces `state = Finished` (the
`didSet` observer). Each step is enqueued by the completion block of the previous one
on a private queue that runs one operation at a time. Every completion block routes the
same way: a sub-operation whose `cancelled` flag is set is ignored; an error is copied
into the pipeline and ends it; a check that answers `false` sets the pipeline's own
error and ends it; anything else starts the next step.

## Layout

- `prep_types.dfy`, module `PrepTypes`: `NSError`, `Outcome` (how a sub-operation
  ended: `Cancelled | Failed(e) | Succeeded(v)`), `FileSizeReading` (what
  `AVURLAsset.fileSize()` yields: a thrown error or an optional size), queued
  sub-operations with their `cancelled` flag, `CancelAll` (`cancelAllOperations`),
  `SeenAs` (a completion block sees Cancelled exactly when its sub-operation's flag is
  set), `Refuses` (a check result refuses only when it is present and false), and the
  `PHAssetContainer` class.
- For each operation three modules:
  - `…Model`: a snapshot datatype `Pipeline` of the operation's fields, one transition
    function per entry point (`MainStep`, `CancelStep`, `FinishHead`, one `On…` per
    completion block) and per helper (`WithError`, `AddOperation`, `CheckExact…`,
    `ExportAssetStep`), the invariant `Valid`, `Enabled`/`Apply` over events, and
    `Run` over event sequences;
  - `…Proofs`: the lemmas;
  - the class itself (`SimplePrepareUpload.SimplePrepareUploadOperation`,
    `VideoSettings.VideoSettingsOperation`), whose fields are the source's fields. The
    entry points (`OperationMain`, `Cancel`, `SubOperationFinished` and the `On…Completion`
    methods) are proved to change the fields exactly as `Apply` changes the snapshot
    (`Snapshot() == Apply(old(Snapshot()), e)`) and to keep `Valid()`. The helper methods
    they call (`SetError`, `AddOperation` and the methods that start one step) are proved
    to follow their own transition functions and are not required to keep `Valid()` on
    their own. Ghost fields record whether `main` has run, which steps have been
    enqueued (`started`, in order), and which files were deleted.

A completion is two events. First the sub-operation finishes: it leaves the
NSOperationQueue, so a later `cancelAllOperations` no longer reaches it, and its
completion block waits on the main queue (`finished` / `pendingCompletions`). Then the
block runs, and it sees the outcome Cancelled exactly when the sub-operation's flag was
set. Whether a sub-operation that was not cancelled fails or succeeds, and with what
value, is a parameter of the block's method. So is the size that `fileSize()` reports
in the block that measures it.

## Model

| member | source | states |
|---|---|---|
| `PrepTypes.CancelAll` | VimeoUpload/Operations/VideoSettingsOperation.swift:102 | cancelling the queue marks every queued sub-operation cancelled, keeping the same operations in the same order |
| `SimplePrepareUploadModel.Init` | Example/VimeoUpload-iOS-2Step/VimeoUpload-iOS-2Step/Operations/SimplePrepareUploadOperation.swift:64-73 | a new operation is Ready with no error, url, ticket, queued or finished step, and satisfies the invariant |
| `SimplePrepareUpload.SimplePrepareUploadOperation.constructor` | Example/VimeoUpload-iOS-2Step/VimeoUpload-iOS-2Step/Operations/SimplePrepareUploadOperation.swift:64-73 | the object starts in the `Init` snapshot for its container |
| `SimplePrepareUpload.SimplePrepareUploadOperation.SetError` | Example/VimeoUpload-iOS-2Step/VimeoUpload-iOS-2Step/Operations/SimplePrepareUploadOperation.swift:49-58 | assigning an error also sets `state` to Finished (`WithError`) |
| `SimplePrepareUpload.SimplePrepareUploadOperation.AddOperation` | Example/VimeoUpload-iOS-2Step/VimeoUpload-iOS-2Step/Operations/SimplePrepareUploadOperation.swift:144 | `addOperation` appends the sub-operation, not cancelled, at the end of the queue, and records its kind as started; nothing else changes |
| `SimplePrepareUpload.SimplePrepareUploadOperation.OperationMain` | Example/VimeoUpload-iOS-2Step/VimeoUpload-iOS-2Step/Operations/SimplePrepareUploadOperation.swift:82-97 | follows `MainStep`: on a cancelled operation nothing is enqueued; otherwise the export of the container's local asset, or else the export-session download, is enqueued; keeps the invariant |
| `SimplePrepareUpload.SimplePrepareUploadOperation.Cancel` | Example/VimeoUpload-iOS-2Step/VimeoUpload-iOS-2Step/Operations/SimplePrepareUploadOperation.swift:99-109 | follows `CancelStep`: sets `cancelled`, flags every queued sub-operation, deletes the file at `url` when it is set and nothing otherwise; keeps the invariant |
| `SimplePrepareUpload.SimplePrepareUploadOperation.SubOperationFinished` | Example/VimeoUpload-iOS-2Step/VimeoUpload-iOS-2Step/Operations/SimplePrepareUploadOperation.swift:118-120 | follows `FinishHead`: the head of the queue leaves it, keeping its flag, and its completion block waits on the main queue; keeps the invariant |
| `SimplePrepareUpload.SimplePrepareUploadOperation.DownloadPHAssetExportSession` | Example/VimeoUpload-iOS-2Step/VimeoUpload-iOS-2Step/Operations/SimplePrepareUploadOperation.swift:113-145 | enqueues an export-session download of the container's Photos asset and records the step |
| `SimplePrepareUpload.SimplePrepareUploadOperation.ExportFromSession` | Example/VimeoUpload-iOS-2Step/VimeoUpload-iOS-2Step/Operations/SimplePrepareUploadOperation.swift:147-151 | enqueues an export built from the downloaded export session |
| `SimplePrepareUpload.SimplePrepareUploadOperation.ExportFromAsset` | Example/VimeoUpload-iOS-2Step/VimeoUpload-iOS-2Step/Operations/SimplePrepareUploadOperation.swift:153-157 | enqueues an export built from the local AVAsset |
| `SimplePrepareUpload.SimplePrepareUploadOperation.Export` | Example/VimeoUpload-iOS-2Step/VimeoUpload-iOS-2Step/Operations/SimplePrepareUploadOperation.swift:159-198 | enqueues the export operation and records the step |
| `SimplePrepareUpload.SimplePrepareUploadOperation.CheckExactWeeklyQuota` | Example/VimeoUpload-iOS-2Step/VimeoUpload-iOS-2Step/Operations/SimplePrepareUploadOperation.swift:200-224 | follows `CheckExactWeeklyQuota`: a thrown size error is copied into `error`; a nil size sets "Exact filesize calculation failed, filesize is nil."; a measured size enqueues the quota check with that size and url |
| `SimplePrepareUpload.SimplePrepareUploadOperation.CreateVideo` | Example/VimeoUpload-iOS-2Step/VimeoUpload-iOS-2Step/Operations/SimplePrepareUploadOperation.swift:257-261 | enqueues the record creation for the exported url |
| `SimplePrepareUpload.SimplePrepareUploadOperation.OnDownloadCompletion` | Example/VimeoUpload-iOS-2Step/VimeoUpload-iOS-2Step/Operations/SimplePrepareUploadOperation.swift:118-141 | follows `OnDownloaded`: the finished download's block leaves; Cancelled changes nothing else; an error is copied into `error` (Finished); a session enqueues its export; keeps the invariant |
| `SimplePrepareUpload.SimplePrepareUploadOperation.OnExportCompletion` | Example/VimeoUpload-iOS-2Step/VimeoUpload-iOS-2Step/Operations/SimplePrepareUploadOperation.swift:171-195 | follows `OnExported`: Cancelled changes nothing else; an error is copied into `error`; an output url is measured and passed to `CheckExactWeeklyQuota`; keeps the invariant |
| `SimplePrepareUpload.SimplePrepareUploadOperation.OnQuotaCompletion` | Example/VimeoUpload-iOS-2Step/VimeoUpload-iOS-2Step/Operations/SimplePrepareUploadOperation.swift:225-252 | follows `OnQuotaChecked`: Cancelled changes nothing else; an error is copied; a present `false` sets "Upload would exceed weekly quota."; any other result enqueues record creation for the url the check captured; keeps the invariant |
| `SimplePrepareUpload.SimplePrepareUploadOperation.OnCreateVideoCompletion` | Example/VimeoUpload-iOS-2Step/VimeoUpload-iOS-2Step/Operations/SimplePrepareUploadOperation.swift:262-287 | follows `OnVideoCreated`: Cancelled changes nothing else; an error is copied; a ticket sets `url` to the captured url, `uploadTicket` and Finished; keeps the invariant |
| `SimplePrepareUploadProofs.StepPreservesValid` | Example/VimeoUpload-iOS-2Step/VimeoUpload-iOS-2Step/Operations/SimplePrepareUploadOperation.swift:49-60 | every deliverable event keeps the invariant: an error means Finished; at most one sub-operation is outstanding, queued or finished; it is flagged only after cancel(); steps start in plan order; url and ticket are set together and only on success; only a finished run's url is ever deleted |
| `SimplePrepareUploadProofs.RunPreservesValid` | Example/VimeoUpload-iOS-2Step/VimeoUpload-iOS-2Step/Operations/SimplePrepareUploadOperation.swift:49-60 | every sequence of deliverable events keeps the invariant |
| `SimplePrepareUploadProofs.ReachableStates` | Example/VimeoUpload-iOS-2Step/VimeoUpload-iOS-2Step/Operations/SimplePrepareUploadOperation.swift:31-35 | in every reachable state: error implies Finished; at most one step is outstanding; the steps started are a prefix of download?→export→quota→create; a set url means every step ran, with no error; no file is deleted unless the url is set |
| `SimplePrepareUploadProofs.AvAssetConstant` | Example/VimeoUpload-iOS-2Step/VimeoUpload-iOS-2Step/Operations/SimplePrepareUploadOperation.swift:89 | this variant only reads the container's asset, never writes it |
| `SimplePrepareUploadProofs.ShortCircuit` | Example/VimeoUpload-iOS-2Step/VimeoUpload-iOS-2Step/Operations/SimplePrepareUploadOperation.swift:49-58 | once `error` is set, no later event changes anything but `cancelled`: no step starts and the error, state, url and ticket stay |
| `SimplePrepareUploadProofs.MainStartsFirstStep` | Example/VimeoUpload-iOS-2Step/VimeoUpload-iOS-2Step/Operations/SimplePrepareUploadOperation.swift:82-97 | main on a cancelled operation starts nothing; otherwise it enqueues the export of the local asset when present, else the export-session download |
| `SimplePrepareUploadProofs.CancelledCompletionIgnored` | Example/VimeoUpload-iOS-2Step/VimeoUpload-iOS-2Step/Operations/SimplePrepareUploadOperation.swift:127-130 | a completion block that sees Cancelled only lets go of its sub-operation, and it can see Cancelled only after the pipeline's cancel() (same for lines 180-183, 234-237, 271-274) |
| `SimplePrepareUploadProofs.StoppedRunStartsNothing` | Example/VimeoUpload-iOS-2Step/VimeoUpload-iOS-2Step/Operations/SimplePrepareUploadOperation.swift:127-130 | once the pipeline and its outstanding sub-operation are flagged, no sequence of events starts a step or changes error, state, url or ticket |
| `SimplePrepareUploadProofs.CancelStopsQueuedStep` | Example/VimeoUpload-iOS-2Step/VimeoUpload-iOS-2Step/Operations/SimplePrepareUploadOperation.swift:99-109 | cancel() while the sub-operation is still queued (or before main) stops the pipeline: no later events start a step or change error, state, url or ticket |
| `SimplePrepareUploadProofs.FailureShortCircuits` | Example/VimeoUpload-iOS-2Step/VimeoUpload-iOS-2Step/Operations/SimplePrepareUploadOperation.swift:132-135 | a sub-operation error is copied unchanged into `error`; the state is Finished and no later step ever starts (same for lines 185-188, 239-242, 276-279) |
| `SimplePrepareUploadProofs.SizeFailureSkipsQuota` | Example/VimeoUpload-iOS-2Step/VimeoUpload-iOS-2Step/Operations/SimplePrepareUploadOperation.swift:205-222 | a thrown size error, or a nil size with the "filesize is nil" error, ends the run; the quota check is never enqueued |
| `SimplePrepareUploadProofs.ExportStartsQuotaCheck` | Example/VimeoUpload-iOS-2Step/VimeoUpload-iOS-2Step/Operations/SimplePrepareUploadOperation.swift:191-192 | a successful export with a measured size enqueues the quota check for exactly that size and output url |
| `SimplePrepareUploadProofs.QuotaRefusalNeverCreatesVideo` | Example/VimeoUpload-iOS-2Step/VimeoUpload-iOS-2Step/Operations/SimplePrepareUploadOperation.swift:243-246 | a quota result of false sets "Upload would exceed weekly quota." and record creation never starts |
| `SimplePrepareUploadProofs.QuotaPassCreatesVideo` | Example/VimeoUpload-iOS-2Step/VimeoUpload-iOS-2Step/Operations/SimplePrepareUploadOperation.swift:247-250 | any quota result other than false, nil included, enqueues record creation for the url the check was started with |
| `SimplePrepareUploadProofs.VideoCreatedFinishes` | Example/VimeoUpload-iOS-2Step/VimeoUpload-iOS-2Step/Operations/SimplePrepareUploadOperation.swift:280-285 | url and ticket are unset before record creation succeeds; then both are set, the state is Finished and there is no error |
| `SimplePrepareUploadProofs.CancelDeletesOnlyFinishedExport` | Example/VimeoUpload-iOS-2Step/VimeoUpload-iOS-2Step/Operations/SimplePrepareUploadOperation.swift:99-109 | cancel marks every queued sub-operation cancelled; it deletes the file at `url` when `url` is set and nothing otherwise; it changes no other field |
| `SimplePrepareUploadProofs.CompletionRacingCancelStillAdvances` | Example/VimeoUpload-iOS-2Step/VimeoUpload-iOS-2Step/Operations/SimplePrepareUploadOperation.swift:180-193 | an export that finished before cancel() is not flagged, and its block, which tests the sub-operation's flag and not the pipeline's, still enqueues the quota check after cancel() |
| `SimplePrepareUploadProofs.CancelBeforeFinishSeesCancelled` | Example/VimeoUpload-iOS-2Step/VimeoUpload-iOS-2Step/Operations/SimplePrepareUploadOperation.swift:103 | with cancel() before the export finishes, the export is flagged, its block can only see Cancelled, and only the export was ever started |
| `SimplePrepareUploadProofs.FullRun` | Example/VimeoUpload-iOS-2Step/VimeoUpload-iOS-2Step/Operations/SimplePrepareUploadOperation.swift:31-35 | a cloud asset that downloads, exports, measures, passes the quota and gets a record runs every step in order and ends Finished with url and ticket |
| `SimplePrepareUploadProofs.QuotaExceededScenario` | Example/VimeoUpload-iOS-2Step/VimeoUpload-iOS-2Step/Operations/SimplePrepareUploadOperation.swift:224-246 | a 5 GB export enqueues the quota check with exactly 5 000 000 000 bytes; a refusal ends the run with the quota error after export and quota only, with no url |
| `VideoSettingsModel.Init` | VimeoUpload/Operations/VideoSettingsOperation.swift:63-70 | a new operation is Ready with no error, result, queued or finished step and no deleted file, and satisfies the invariant |
| `VideoSettingsModel.ExactFilesize` | VimeoUpload/Operations/VideoSettingsOperation.swift:283-293 | succeeds exactly when a size was measured and returns it; a thrown error is rethrown unchanged; a nil size throws the "filesize is nil" error |
| `VideoSettings.VideoSettingsOperation.constructor` | VimeoUpload/Operations/VideoSettingsOperation.swift:63-70 | the object starts in the `Init` snapshot for its container |
| `VideoSettings.VideoSettingsOperation.SetError` | VimeoUpload/Operations/VideoSettingsOperation.swift:51-60 | assigning an error also sets `state` to Finished (`WithError`) |
| `VideoSettings.VideoSettingsOperation.AddOperation` | VimeoUpload/Operations/VideoSettingsOperation.swift:138 | `addOperation` appends the sub-operation, not cancelled, at the end of the queue, and records its kind as started; nothing else changes |
| `VideoSettings.VideoSettingsOperation.OperationMain` | VimeoUpload/Operations/VideoSettingsOperation.swift:79-94 | follows `MainStep`: on a cancelled operation nothing is enqueued; otherwise the export of the container's asset when it holds one, or else the download, is enqueued; keeps the invariant |
| `VideoSettings.VideoSettingsOperation.Cancel` | VimeoUpload/Operations/VideoSettingsOperation.swift:96-103 | follows `CancelStep`: sets `cancelled` and flags every queued sub-operation, nothing else; keeps the invariant |
| `VideoSettings.VideoSettingsOperation.SubOperationFinished` | VimeoUpload/Operations/VideoSettingsOperation.swift:112-114 | follows `FinishHead`: the head of the queue leaves it, keeping its flag, and its completion block waits on the main queue; keeps the invariant |
| `VideoSettings.VideoSettingsOperation.DownloadPHAsset` | VimeoUpload/Operations/VideoSettingsOperation.swift:107-139 | enqueues the download of the container's Photos asset |
| `VideoSettings.VideoSettingsOperation.ExportAsset` | VimeoUpload/Operations/VideoSettingsOperation.swift:141-145 | follows `ExportAssetStep`: enqueues the export of the container's asset, which every caller has set (the force unwrap cannot fail) |
| `VideoSettings.VideoSettingsOperation.CheckExactWeeklyQuota` | VimeoUpload/Operations/VideoSettingsOperation.swift:187-201 | follows `CheckExactWeeklyQuota`: a failed `ExactFilesize` sets its error; a measured size enqueues the quota check with that size |
| `VideoSettings.VideoSettingsOperation.CheckExactDiskSpace` | VimeoUpload/Operations/VideoSettingsOperation.swift:234-248 | follows `CheckExactDiskSpace`: a failed `ExactFilesize` sets its error; a measured size enqueues the disk space check with that size |
| `VideoSettings.VideoSettingsOperation.OnDownloadCompletion` | VimeoUpload/Operations/VideoSettingsOperation.swift:112-135 | follows `OnDownloaded`: Cancelled changes nothing else; an error is copied into `error`; an asset is written into the container in place and its export enqueued; keeps the invariant |
| `VideoSettings.VideoSettingsOperation.OnExportCompletion` | VimeoUpload/Operations/VideoSettingsOperation.swift:156-181 | follows `OnExported`: Cancelled changes nothing else; an error is copied; an output url becomes `result` and is measured for `CheckExactWeeklyQuota`; keeps the invariant |
| `VideoSettings.VideoSettingsOperation.OnQuotaCompletion` | VimeoUpload/Operations/VideoSettingsOperation.swift:202-228 | follows `OnQuotaChecked`: Cancelled changes nothing else; an error is copied; a present `false` sets "Upload would exceed weekly quota."; any other result measures again for `CheckExactDiskSpace`; keeps the invariant |
| `VideoSettings.VideoSettingsOperation.OnDiskSpaceCompletion` | VimeoUpload/Operations/VideoSettingsOperation.swift:249-275 | follows `OnDiskSpaceChecked`: Cancelled changes nothing else; an error is copied; a present `false` sets "Not enough disk space to export asset."; any other result sets Finished; keeps the invariant |
| `VideoSettingsProofs.StepPreservesValid` | VimeoUpload/Operations/VideoSettingsOperation.swift:51-60 | every deliverable event keeps the invariant: an error means Finished; at most one sub-operation is outstanding, queued or finished; it is flagged only after cancel(); steps start in one plan's order; the export only starts with an asset present; `result` is set before the quota check; Finished without error only after the disk check; no file is deleted |
| `VideoSettingsProofs.RunPreservesValid` | VimeoUpload/Operations/VideoSettingsOperation.swift:51-60 | every sequence of deliverable events keeps the invariant |
| `VideoSettingsProofs.RunFollowsPlan` | VimeoUpload/Operations/VideoSettingsOperation.swift:86-93 | the steps started always follow the plan that main chose from the container's asset |
| `VideoSettingsProofs.ReachableStates` | VimeoUpload/Operations/VideoSettingsOperation.swift:34-38 | in every reachable state: error implies Finished; at most one step is outstanding; the steps started are a prefix of download (only without a local asset)→export→quota→disk; Finished without error means every step ran and `result` is set; no file was deleted |
| `VideoSettingsProofs.ShortCircuit` | VimeoUpload/Operations/VideoSettingsOperation.swift:51-60 | once `error` is set, no later event changes anything but `cancelled` |
| `VideoSettingsProofs.ResultKept` | VimeoUpload/Operations/VideoSettingsOperation.swift:174-180 | once the export has set `result`, no later event changes it, even when a later check fails |
| `VideoSettingsProofs.MainStartsFirstStep` | VimeoUpload/Operations/VideoSettingsOperation.swift:79-94 | main on a cancelled operation starts nothing; otherwise it enqueues the export when the container holds an asset, else the download |
| `VideoSettingsProofs.DownloadStoresAsset` | VimeoUpload/Operations/VideoSettingsOperation.swift:130-134 | a successful download writes the asset into the container and then enqueues the export of that asset |
| `VideoSettingsProofs.ExportSetsResult` | VimeoUpload/Operations/VideoSettingsOperation.swift:174-199 | a successful export sets `result` to the output url; then a measured size enqueues the quota check with it and a failed measurement ends the run with `result` still set |
| `VideoSettingsProofs.CancelledCompletionIgnored` | VimeoUpload/Operations/VideoSettingsOperation.swift:121-124 | a completion block that sees Cancelled only lets go of its sub-operation, and it can see Cancelled only after the pipeline's cancel() (same for lines 165-168, 211-214, 258-261) |
| `VideoSettingsProofs.StoppedRunStartsNothing` | VimeoUpload/Operations/VideoSettingsOperation.swift:121-124 | once the pipeline and its outstanding sub-operation are flagged, no sequence of events starts a step or changes error, state, `result` or the container's asset |
| `VideoSettingsProofs.CancelStopsQueuedStep` | VimeoUpload/Operations/VideoSettingsOperation.swift:96-103 | cancel() while the sub-operation is still queued (or before main) stops the pipeline: no later events start a step or change error, state, `result` or the container's asset |
| `VideoSettingsProofs.FailureShortCircuits` | VimeoUpload/Operations/VideoSettingsOperation.swift:126-129 | a sub-operation error is copied unchanged into `error`; the state is Finished, no later step ever starts and `result` is unchanged (same for lines 170-173, 216-219, 263-266) |
| `VideoSettingsProofs.SizeFailureSkipsDiskCheck` | VimeoUpload/Operations/VideoSettingsOperation.swift:236-246 | when the second exact size fails, its error ends the run and the disk check never starts; `result` stays set |
| `VideoSettingsProofs.QuotaRefusalSkipsDiskCheck` | VimeoUpload/Operations/VideoSettingsOperation.swift:220-223 | a quota result of false sets "Upload would exceed weekly quota." and the disk check never starts; `result` stays set |
| `VideoSettingsProofs.DiskCheckDecides` | VimeoUpload/Operations/VideoSettingsOperation.swift:263-274 | a disk result of false sets "Not enough disk space to export asset."; any other result gives Finished with no error; either way `result` is set |
| `VideoSettingsProofs.CancelOnlyCancelsQueue` | VimeoUpload/Operations/VideoSettingsOperation.swift:96-103 | cancel marks the queued sub-operations cancelled and changes nothing else; it deletes no file, the exported `result` included |
| `VideoSettingsProofs.FullRun` | VimeoUpload/Operations/VideoSettingsOperation.swift:34-38 | a cloud asset that downloads, exports, measures twice and passes both checks runs every step in order and ends Finished with `result` set |
| `VideoSettingsProofs.ExactFilesizeMatchesSimpleVariant` | VimeoUpload/Operations/VideoSettingsOperation.swift:283-293 | both variants accept the same size readings and pass thrown errors through unchanged; they differ only in the nil-size error, whose domain and wording both differ |

## Behaviour worth noting

- `SimplePrepareUploadOperation.cancel()` deletes only the file at `url`, and `url` is
  set only after record creation succeeds. An exported file from an unfinished run is
  not deleted, and a fully prepared upload is deleted if `cancel()` comes after
  success. `VideoSettingsOperation.cancel()` deletes no file.
- The code shown assigns no `state` in `cancel()`; `super.cancel()` is taken to set only
  `cancelled` (see Left out). Both `cancel()` methods set `cancelled` and flag the queued
  sub-operations; the simple variant also deletes the file at `url`. When the flagged
  sub-operation's block then sees Cancelled, it returns, and the pipeline stays in its
  current state: the code shown never sets it to Finished.
- The completion blocks test the sub-operation's `cancelled` flag, not the
  pipeline's. A sub-operation that finished before `cancel()` is no longer in the
  queue, so it is not flagged, and its block still starts the next step
  (`CompletionRacingCancelStillAdvances`).
- The checks stop the run only on a result that is present and false; a nil result
  passes.

## Left out

- `ConcurrentOperation` (the base class) is not part of this model. `state` changes
  only where the shown code assigns it, and `cancel()`'s `super.cancel()` only sets
  `cancelled`. The Executing state is never entered.
- A finished sub-operation's `cancelled` flag is taken as final, and its completion block as
  seeing Cancelled exactly when the flag is set. How a flagged sub-operation finishes is
  up to `ConcurrentOperation`, which is not part of this model.
- A sub-operation's `cancelled` flag is set only by the pipeline's `cancelAllOperations`
  in `cancel()`. A capability operation that cancels itself is not modelled; in the code
  its block would return and leave the pipeline unfinished with no error.
- The shared `PHAssetContainer`'s `avAsset` is written only by the operation itself
  (VideoSettingsOperation's download handler). A write by another holder while the
  operation runs is not modelled: the invariants and `ReachableStates` take the plan from
  the asset the container held when the operation was created.
- The framework calls `main()` once. A ghost flag enforces this, because a second
  call would enqueue a second step.
- The capability sub-operations (export-session download, asset download, export,
  weekly quota, disk space, record creation) and `AVURLAsset.fileSize()` are not part
  of this model. Whether one that was not cancelled fails or succeeds, and its value,
  are parameters of the completion methods.
- Force unwraps of a sub-operation's `result!` or `outputURL!` are not modelled. A
  successful outcome always carries its value. A nil there would crash the app.
- Progress blocks and `filesize.doubleValue` are left out (floating point). Sizes are `nat`.
- The `[weak self]` guards are left out. An event dropped because the owner was
  deallocated changes nothing. Events, including the main-queue blocks, arrive one at
  a time.
- `deinit` (which cancels the queue) is left out. Dafny objects have no destructor.
- `me`, `sessionManager` and `videoSettings` are left out. They are only passed to
  sub-operations.
- File deletion is a ghost set of deleted urls, not real file-system I/O.
- `print` in `VideoSettingsOperation.cancel()` is left out (console output).
- The raw value of `UploadErrorDomain.PrepareUploadOperation` is not part of this
  model. The model uses the string "PrepareUploadOperation" for that domain.
- The descriptor registry and its delegate protocol are not part of this model. Only
  the protocol's declarations are available, with no behaviour.
