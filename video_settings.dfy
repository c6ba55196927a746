/** VideoSettingsOperation: download the asset if needed, export it, then check the weekly
    quota and the free disk space against the exact size of the export. Each method is
    proved to move the object's fields (and its asset container's `avAsset`) exactly as
    the matching transition of VideoSettingsModel moves a snapshot of them, and to keep
    its invariant. */
module VideoSettings {
  import opened PrepTypes
  import opened VideoSettingsModel
  import VideoSettingsProofs

  class VideoSettingsOperation {
    const phAssetContainer: PHAssetContainer

    var state: OperationState
    var cancelled: bool
    var error: Option<NSError>
    var result: Option<Url>
    /** The private NSOperationQueue (maxConcurrentOperationCount = 1). */
    var operationQueue: seq<Queued<SubOperation>>
    /** Sub-operations that have finished and left the queue, each captured by its
        completion block waiting on the main queue. */
    var pendingCompletions: seq<Queued<SubOperation>>

    ghost var mainCalled: bool
    /** The kinds of all sub-operations enqueued so far, in order. */
    ghost var started: seq<StepKind>
    /** The files this operation removed from disk. */
    ghost var deletedFiles: set<Url>

    ghost function Snapshot(): Pipeline
      reads this, phAssetContainer
    {
      Pipeline(phAssetContainer.phAsset, phAssetContainer.avAsset, state, cancelled, error,
               result, operationQueue, pendingCompletions, mainCalled, started, deletedFiles)
    }

    ghost predicate Valid()
      reads this, phAssetContainer
    {
      VideoSettingsModel.Valid(Snapshot())
    }

    constructor (phAssetContainer: PHAssetContainer)
      ensures this.phAssetContainer == phAssetContainer
      ensures Snapshot() == Init(phAssetContainer.phAsset, phAssetContainer.avAsset)
      ensures Valid()
    {
      this.phAssetContainer := phAssetContainer;
      state := Ready;
      cancelled := false;
      error := None;
      result := None;
      operationQueue := [];
      pendingCompletions := [];
      mainCalled := false;
      started := [];
      deletedFiles := {};
    }

    /** Assigning `error`, with its didSet observer. */
    method SetError(e: NSError)
      modifies this
      ensures Snapshot() == WithError(old(Snapshot()), e)
    {
      error := Some(e);
      state := Finished;
    }

    /** `operationQueue.addOperation(op)`. */
    method AddOperation(op: SubOperation)
      modifies this
      ensures Snapshot() == VideoSettingsModel.AddOperation(old(Snapshot()), op)
    {
      operationQueue := operationQueue + [Queued(op, false)];
      started := started + [KindOf(op)];
    }

    /** `main()`, the entry point NSOperation calls once. */
    method OperationMain()
      requires Valid() && !mainCalled
      modifies this
      ensures Snapshot() == Apply(old(Snapshot()), Event.Main)
      ensures Valid()
    {
      ghost var before := Snapshot();
      mainCalled := true;
      if !cancelled {
        if phAssetContainer.avAsset.Some? {
          ExportAsset();
        } else {
          DownloadPHAsset();
        }
      }
      VideoSettingsProofs.StepPreservesValid(before, Event.Main);
    }

    method Cancel()
      requires Valid()
      modifies this
      ensures Snapshot() == Apply(old(Snapshot()), Event.Cancel)
      ensures Valid()
    {
      ghost var before := Snapshot();
      cancelled := true;
      operationQueue := CancelAll(operationQueue);
      VideoSettingsProofs.StepPreservesValid(before, Event.Cancel);
    }

    /** The sub-operation at the head of the queue finishes: the queue lets go of it and
        its completion block is dispatched to the main queue. */
    method SubOperationFinished()
      requires Valid() && operationQueue != []
      modifies this
      ensures Snapshot() == Apply(old(Snapshot()), Event.SubOperationFinished)
      ensures Valid()
    {
      ghost var before := Snapshot();
      pendingCompletions := pendingCompletions + [operationQueue[0]];
      operationQueue := operationQueue[1..];
      VideoSettingsProofs.StepPreservesValid(before, Event.SubOperationFinished);
    }

    method DownloadPHAsset()
      modifies this
      ensures Snapshot() ==
        VideoSettingsModel.AddOperation(old(Snapshot()), PHAssetDownloadOperation(phAssetContainer.phAsset))
    {
      AddOperation(PHAssetDownloadOperation(phAssetContainer.phAsset));
    }

    /** `exportAsset()` force-unwraps the container's asset: every caller has set it. */
    method ExportAsset()
      requires phAssetContainer.avAsset.Some?
      modifies this
      ensures Snapshot() == ExportAssetStep(old(Snapshot()))
    {
      AddOperation(AVAssetExportOperation(phAssetContainer.avAsset.value));
    }

    method CheckExactWeeklyQuota(size: FileSizeReading)
      modifies this
      ensures Snapshot() == VideoSettingsModel.CheckExactWeeklyQuota(old(Snapshot()), size)
    {
      match ExactFilesize(size) {
        case Failure(e) => SetError(e);
        case Success(n) => AddOperation(WeeklyQuotaOperation(n));
      }
    }

    method CheckExactDiskSpace(size: FileSizeReading)
      modifies this
      ensures Snapshot() == VideoSettingsModel.CheckExactDiskSpace(old(Snapshot()), size)
    {
      match ExactFilesize(size) {
        case Failure(e) => SetError(e);
        case Success(n) => AddOperation(DiskSpaceOperation(n));
      }
    }

    /** The completion handler of PHAssetDownloadOperation: a downloaded asset is written
        into the container, in place, before the export starts. */
    method OnDownloadCompletion(outcome: Outcome<AVAsset>)
      requires Valid() && Enabled(Snapshot(), Downloaded(outcome))
      modifies this, phAssetContainer
      ensures Snapshot() == Apply(old(Snapshot()), Downloaded(outcome))
      ensures Valid()
    {
      ghost var before := Snapshot();
      pendingCompletions := pendingCompletions[1..];
      match outcome {
        case Cancelled =>
        case Failed(e) => SetError(e);
        case Succeeded(asset) =>
          phAssetContainer.avAsset := Some(asset);
          ExportAsset();
      }
      VideoSettingsProofs.StepPreservesValid(before, Downloaded(outcome));
    }

    /** The completion handler of AVAssetExportOperation: `result` is set before the exact
        size is measured for the quota check. */
    method OnExportCompletion(outcome: Outcome<Url>, size: FileSizeReading)
      requires Valid() && Enabled(Snapshot(), Exported(outcome, size))
      modifies this
      ensures Snapshot() == Apply(old(Snapshot()), Exported(outcome, size))
      ensures Valid()
    {
      ghost var before := Snapshot();
      pendingCompletions := pendingCompletions[1..];
      match outcome {
        case Cancelled =>
        case Failed(e) => SetError(e);
        case Succeeded(output) =>
          result := Some(output);
          CheckExactWeeklyQuota(size);
      }
      VideoSettingsProofs.StepPreservesValid(before, Exported(outcome, size));
    }

    /** The completion handler of WeeklyQuotaOperation; `size` is measured for the disk
        space check. */
    method OnQuotaCompletion(outcome: Outcome<Option<bool>>, size: FileSizeReading)
      requires Valid() && Enabled(Snapshot(), QuotaChecked(outcome, size))
      modifies this
      ensures Snapshot() == Apply(old(Snapshot()), QuotaChecked(outcome, size))
      ensures Valid()
    {
      ghost var before := Snapshot();
      pendingCompletions := pendingCompletions[1..];
      match outcome {
        case Cancelled =>
        case Failed(e) => SetError(e);
        case Succeeded(withinQuota) =>
          if Refuses(withinQuota) {
            SetError(WeeklyQuotaExceededError);
          } else {
            CheckExactDiskSpace(size);
          }
      }
      VideoSettingsProofs.StepPreservesValid(before, QuotaChecked(outcome, size));
    }

    /** The completion handler of DiskSpaceOperation. */
    method OnDiskSpaceCompletion(outcome: Outcome<Option<bool>>)
      requires Valid() && Enabled(Snapshot(), DiskSpaceChecked(outcome))
      modifies this
      ensures Snapshot() == Apply(old(Snapshot()), DiskSpaceChecked(outcome))
      ensures Valid()
    {
      ghost var before := Snapshot();
      pendingCompletions := pendingCompletions[1..];
      match outcome {
        case Cancelled =>
        case Failed(e) => SetError(e);
        case Succeeded(enoughSpace) =>
          if Refuses(enoughSpace) {
            SetError(NotEnoughDiskSpaceError);
          } else {
            state := Finished;
          }
      }
      VideoSettingsProofs.StepPreservesValid(before, DiskSpaceChecked(outcome));
    }
  }
}
