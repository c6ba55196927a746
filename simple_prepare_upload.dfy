/** SimplePrepareUploadOperation: download the cloud asset if needed, export it, measure
    the exact file size, check the weekly quota and create the video record. Each method
    is proved to move the object's fields exactly as the matching transition of
    SimplePrepareUploadModel moves a snapshot of them, and to keep its invariant. */
module SimplePrepareUpload {
  import opened PrepTypes
  import opened SimplePrepareUploadModel
  import SimplePrepareUploadProofs

  class SimplePrepareUploadOperation {
    const phAssetContainer: PHAssetContainer

    var state: OperationState
    var cancelled: bool
    var error: Option<NSError>
    var url: Option<Url>
    var uploadTicket: Option<UploadTicket>
    /** The private NSOperationQueue (maxConcurrentOperationCount = 1). */
    var operationQueue: seq<Queued<SubOperation>>
    /** Sub-operations that have finished and left the queue, each captured by its
        completion block waiting on the main queue. */
    var pendingCompletions: seq<Queued<SubOperation>>

    ghost var mainCalled: bool
    /** The kinds of all sub-operations enqueued so far, in order. */
    ghost var started: seq<StepKind>
    /** The files `cancel()` removed from disk. */
    ghost var deletedFiles: set<Url>

    ghost function Snapshot(): Pipeline
      reads this, phAssetContainer
    {
      Pipeline(phAssetContainer.phAsset, phAssetContainer.avAsset, state, cancelled, error,
               url, uploadTicket, operationQueue, pendingCompletions, mainCalled, started, deletedFiles)
    }

    ghost predicate Valid()
      reads this, phAssetContainer
    {
      SimplePrepareUploadModel.Valid(Snapshot())
    }

    constructor (phAssetContainer: PHAssetContainer)
      ensures this.phAssetContainer == phAssetContainer
      ensures Snapshot() == Init(phAssetContainer.phAsset, phAssetContainer.avAsset)
      ensures Valid()
    {
      this.phAssetContainer := phAssetContainer;
      state := Ready;
      cancelled := false;
      error := None;
      url := None;
      uploadTicket := None;
      operationQueue := [];
      pendingCompletions := [];
      mainCalled := false;
      started := [];
      deletedFiles := {};
    }

    /** Assigning `error`, with its didSet observer. */
    method SetError(e: NSError)
      modifies this
      ensures Snapshot() == WithError(old(Snapshot()), e)
    {
      error := Some(e);
      state := Finished;
    }

    /** `operationQueue.addOperation(op)`. */
    method AddOperation(op: SubOperation)
      modifies this
      ensures Snapshot() == SimplePrepareUploadModel.AddOperation(old(Snapshot()), op)
    {
      operationQueue := operationQueue + [Queued(op, false)];
      started := started + [KindOf(op)];
    }

    /** `main()`, the entry point NSOperation calls once. */
    method OperationMain()
      requires Valid() && !mainCalled
      modifies this
      ensures Snapshot() == Apply(old(Snapshot()), Event.Main)
      ensures Valid()
    {
      ghost var before := Snapshot();
      mainCalled := true;
      if !cancelled {
        match phAssetContainer.avAsset {
          case Some(asset) => ExportFromAsset(asset);
          case None => DownloadPHAssetExportSession();
        }
      }
      SimplePrepareUploadProofs.StepPreservesValid(before, Event.Main);
    }

    method Cancel()
      requires Valid()
      modifies this
      ensures Snapshot() == Apply(old(Snapshot()), Event.Cancel)
      ensures Valid()
    {
      ghost var before := Snapshot();
      cancelled := true;
      operationQueue := CancelAll(operationQueue);
      match url {
        case Some(u) => deletedFiles := deletedFiles + {u};
        case None =>
      }
      SimplePrepareUploadProofs.StepPreservesValid(before, Event.Cancel);
    }

    /** The sub-operation at the head of the queue finishes: the queue lets go of it and
        its completion block is dispatched to the main queue. */
    method SubOperationFinished()
      requires Valid() && operationQueue != []
      modifies this
      ensures Snapshot() == Apply(old(Snapshot()), Event.SubOperationFinished)
      ensures Valid()
    {
      ghost var before := Snapshot();
      pendingCompletions := pendingCompletions + [operationQueue[0]];
      operationQueue := operationQueue[1..];
      SimplePrepareUploadProofs.StepPreservesValid(before, Event.SubOperationFinished);
    }

    method DownloadPHAssetExportSession()
      modifies this
      ensures Snapshot() ==
        SimplePrepareUploadModel.AddOperation(old(Snapshot()), PHAssetExportSessionOperation(phAssetContainer.phAsset))
    {
      AddOperation(PHAssetExportSessionOperation(phAssetContainer.phAsset));
    }

    method ExportFromSession(session: ExportSession)
      modifies this
      ensures Snapshot() ==
        SimplePrepareUploadModel.AddOperation(old(Snapshot()), AVAssetExportOperation(FromExportSession(session)))
    {
      Export(FromExportSession(session));
    }

    method ExportFromAsset(asset: AVAsset)
      modifies this
      ensures Snapshot() ==
        SimplePrepareUploadModel.AddOperation(old(Snapshot()), AVAssetExportOperation(FromAsset(asset)))
    {
      Export(FromAsset(asset));
    }

    method Export(source: ExportSource)
      modifies this
      ensures Snapshot() == SimplePrepareUploadModel.AddOperation(old(Snapshot()), AVAssetExportOperation(source))
    {
      AddOperation(AVAssetExportOperation(source));
    }

    method CheckExactWeeklyQuota(exported: Url, size: FileSizeReading)
      modifies this
      ensures Snapshot() == SimplePrepareUploadModel.CheckExactWeeklyQuota(old(Snapshot()), exported, size)
    {
      match size {
        case Threw(e) => SetError(e);
        case Measured(None) => SetError(FilesizeNilError);
        case Measured(Some(n)) => AddOperation(WeeklyQuotaOperation(n, exported));
      }
    }

    method CreateVideo(exported: Url)
      modifies this
      ensures Snapshot() == SimplePrepareUploadModel.AddOperation(old(Snapshot()), CreateVideoOperation(exported))
    {
      AddOperation(CreateVideoOperation(exported));
    }

    /** The completion handler of PHAssetExportSessionOperation. */
    method OnDownloadCompletion(outcome: Outcome<ExportSession>)
      requires Valid() && Enabled(Snapshot(), Downloaded(outcome))
      modifies this
      ensures Snapshot() == Apply(old(Snapshot()), Downloaded(outcome))
      ensures Valid()
    {
      ghost var before := Snapshot();
      pendingCompletions := pendingCompletions[1..];
      match outcome {
        case Cancelled =>
        case Failed(e) => SetError(e);
        case Succeeded(session) => ExportFromSession(session);
      }
      SimplePrepareUploadProofs.StepPreservesValid(before, Downloaded(outcome));
    }

    /** The completion handler of AVAssetExportOperation; `size` is what `fileSize()`
        yields for the output url. */
    method OnExportCompletion(outcome: Outcome<Url>, size: FileSizeReading)
      requires Valid() && Enabled(Snapshot(), Exported(outcome, size))
      modifies this
      ensures Snapshot() == Apply(old(Snapshot()), Exported(outcome, size))
      ensures Valid()
    {
      ghost var before := Snapshot();
      pendingCompletions := pendingCompletions[1..];
      match outcome {
        case Cancelled =>
        case Failed(e) => SetError(e);
        case Succeeded(output) => CheckExactWeeklyQuota(output, size);
      }
      SimplePrepareUploadProofs.StepPreservesValid(before, Exported(outcome, size));
    }

    /** The completion handler of WeeklyQuotaOperation. */
    method OnQuotaCompletion(outcome: Outcome<Option<bool>>)
      requires Valid() && Enabled(Snapshot(), QuotaChecked(outcome))
      modifies this
      ensures Snapshot() == Apply(old(Snapshot()), QuotaChecked(outcome))
      ensures Valid()
    {
      ghost var before := Snapshot();
      var exported := pendingCompletions[0].op.url;
      pendingCompletions := pendingCompletions[1..];
      match outcome {
        case Cancelled =>
        case Failed(e) => SetError(e);
        case Succeeded(result) =>
          if Refuses(result) {
            SetError(WeeklyQuotaExceededError);
          } else {
            CreateVideo(exported);
          }
      }
      SimplePrepareUploadProofs.StepPreservesValid(before, QuotaChecked(outcome));
    }

    /** The completion handler of CreateVideoOperation. */
    method OnCreateVideoCompletion(outcome: Outcome<UploadTicket>)
      requires Valid() && Enabled(Snapshot(), VideoCreated(outcome))
      modifies this
      ensures Snapshot() == Apply(old(Snapshot()), VideoCreated(outcome))
      ensures Valid()
    {
      ghost var before := Snapshot();
      var exported := pendingCompletions[0].op.url;
      pendingCompletions := pendingCompletions[1..];
      match outcome {
        case Cancelled =>
        case Failed(e) => SetError(e);
        case Succeeded(ticket) =>
          url := Some(exported);
          uploadTicket := Some(ticket);
          state := Finished;
      }
      SimplePrepareUploadProofs.StepPreservesValid(before, VideoCreated(outcome));
    }
  }
}
