/** The state machine of VideoSettingsOperation as values: a snapshot of the operation's
    fields (and of the asset container it writes) and one transition function per entry
    point. The class in module VideoSettings is proved to follow these functions. */
module VideoSettingsModel {
  import opened PrepTypes

  /** The sub-operations the pipeline enqueues, with the values each one is built from. */
  datatype SubOperation =
    | PHAssetDownloadOperation(phAsset: PHAsset)
    | AVAssetExportOperation(asset: AVAsset)
    | WeeklyQuotaOperation(filesize: nat)
    | DiskSpaceOperation(filesize: nat)

  datatype StepKind = DownloadPHAsset | ExportAsset | CheckWeeklyQuota | CheckDiskSpace

  function KindOf(op: SubOperation): StepKind
  {
    match op
    case PHAssetDownloadOperation(_) => DownloadPHAsset
    case AVAssetExportOperation(_) => ExportAsset
    case WeeklyQuotaOperation(_) => CheckWeeklyQuota
    case DiskSpaceOperation(_) => CheckDiskSpace
  }

  /** The steps in the order the flow runs them; the download is skipped when the
      asset is already local. */
  function PlanFor(hasAsset: bool): seq<StepKind>
  {
    if hasAsset then [ExportAsset, CheckWeeklyQuota, CheckDiskSpace]
    else [DownloadPHAsset, ExportAsset, CheckWeeklyQuota, CheckDiskSpace]
  }

  const ErrorDomain: string := "VideoSettingsOperationErrorDomain"

  const FilesizeNilError: NSError :=
    NSError(ErrorDomain, 0, "Exact filesize calculation failed because filesize is nil.")

  const WeeklyQuotaExceededError: NSError :=
    NSError(ErrorDomain, 0, "Upload would exceed weekly quota.")

  const NotEnoughDiskSpaceError: NSError :=
    NSError(ErrorDomain, 0, "Not enough disk space to export asset.")

  /** `exactFilesize(avUrlAsset)`: rethrows what `fileSize()` throws, throws when the size
      is nil, and otherwise returns the size. */
  function ExactFilesize(reading: FileSizeReading): (r: Result<nat>)
    ensures r.Success? <==> reading.Measured? && reading.size.Some?
    ensures r.Success? ==> reading.size == Some(r.value)
    ensures reading == Measured(None) ==> r == Failure(FilesizeNilError)
    ensures reading.Threw? ==> r == Failure(reading.error)
  {
    match reading
    case Threw(e) => Failure(e)
    case Measured(None) => Failure(FilesizeNilError)
    case Measured(Some(n)) => Success(n)
  }

  /** The fields of a VideoSettingsOperation, with `avAsset` read from its
      PHAssetContainer. `queue` holds the sub-operations still in the NSOperationQueue;
      `finished` those that have finished and left it, whose completion block is
      waiting on the main queue. `mainCalled`, `started` (the kinds of all
      sub-operations ever enqueued, in order) and `deleted` (the files removed from
      disk) are bookkeeping for the proofs. */
  datatype Pipeline = Pipeline(
    phAsset: PHAsset,
    avAsset: Option<AVAsset>,
    state: OperationState,
    cancelled: bool,
    error: Option<NSError>,
    result: Option<Url>,
    queue: seq<Queued<SubOperation>>,
    finished: seq<Queued<SubOperation>>,
    mainCalled: bool,
    started: seq<StepKind>,
    deleted: set<Url>)

  /** Events the operation reacts to, one at a time. `SubOperationFinished`: the
      outstanding sub-operation finishes and leaves the queue, so `cancelAllOperations`
      no longer reaches it. The other completion events run its completion block on the
      main queue; their outcome is Cancelled exactly when its flag is set. A size
      reading is what `fileSize()` yields in the step the handler starts: the export
      handler measures for the quota check, the quota handler for the disk check. */
  datatype Event =
    | Main
    | Cancel
    | SubOperationFinished
    | Downloaded(asset: Outcome<AVAsset>)
    | Exported(outputURL: Outcome<Url>, size: FileSizeReading)
    | QuotaChecked(withinQuota: Outcome<Option<bool>>, size: FileSizeReading)
    | DiskSpaceChecked(enoughSpace: Outcome<Option<bool>>)

  function Init(phAsset: PHAsset, avAsset: Option<AVAsset>): (p: Pipeline)
    ensures Valid(p)
    ensures p.state == Ready && p.error == None && p.result == None
    ensures p.queue == [] && p.finished == [] && p.started == [] && p.deleted == {}
  {
    Pipeline(phAsset, avAsset, Ready, false, None, None, [], [], false, [], {})
  }

  function Last<T>(s: seq<T>): T
    requires s != []
  {
    s[|s| - 1]
  }

  /** The invariant every reachable snapshot keeps. */
  ghost predicate Valid(p: Pipeline)
  {
    // the `error` observer: an error means Finished
    && (p.error.Some? ==> p.state == Finished)
    // errors come only from the steps of a started run
    && (p.error.Some? ==> p.started != [])
    // Finished without an error only once the disk space check has passed
    && (p.state == Finished && p.error.None? ==>
          p.started != [] && Last(p.started) == CheckDiskSpace && p.result.Some?)
    // single flight: at most one sub-operation outstanding, queued or finished
    && |p.queue| + |p.finished| <= 1
    && (p.queue != [] ==> InFlight(p, p.queue[0]))
    && (p.finished != [] ==> InFlight(p, p.finished[0]))
    // steps start in plan order, and only after main
    && (p.started <= PlanFor(true) || p.started <= PlanFor(false))
    && (!p.mainCalled ==> p.started == [])
    // the export reads the container's asset, which is then present
    && (ExportAsset in p.started ==> p.avAsset.Some?)
    // `result` is set by the export's completion, before the quota check starts
    && (p.result.Some? ==> ExportAsset in p.started)
    && (CheckWeeklyQuota in p.started ==> p.result.Some?)
    // this operation deletes no file
    && p.deleted == {}
  }

  /** What holds while sub-operation `q` is outstanding: it is the step started last, the
      run has not ended, it is flagged cancelled only by the pipeline's cancel(), and an
      outstanding export has not set `result` yet. */
  ghost predicate InFlight(p: Pipeline, q: Queued<SubOperation>)
  {
    && p.error.None? && p.state != Finished
    && p.started != [] && KindOf(q.op) == Last(p.started)
    && (!p.cancelled ==> !q.cancelled)
    && (KindOf(q.op) == ExportAsset ==> p.result.None?)
  }

  /** The sub-operations enqueued whose completion block has not run yet. */
  function Outstanding(p: Pipeline): seq<Queued<SubOperation>>
  {
    p.queue + p.finished
  }

  // ----- the `error` property, the queue -----

  /** Assigning `error`: its didSet observer moves the operation to Finished. */
  function WithError(p: Pipeline, e: NSError): Pipeline
  {
    p.(error := Some(e), state := Finished)
  }

  /** `operationQueue.addOperation(op)`. */
  function AddOperation(p: Pipeline, op: SubOperation): Pipeline
  {
    p.(queue := p.queue + [Queued(op, false)], started := p.started + [KindOf(op)])
  }

  /** A sub-operation of the given kind has finished and its completion block is next. */
  predicate Awaits(p: Pipeline, kind: StepKind)
  {
    p.finished != [] && KindOf(p.finished[0].op) == kind
  }

  /** The sub-operation at the head of the queue finishes and leaves the queue. */
  function FinishHead(p: Pipeline): Pipeline
    requires p.queue != []
  {
    p.(queue := p.queue[1..], finished := p.finished + [p.queue[0]])
  }

  /** The completion block of the first finished sub-operation runs. */
  function Dequeue(p: Pipeline): Pipeline
    requires p.finished != []
  {
    p.(finished := p.finished[1..])
  }

  // ----- steps -----

  /** `exportAsset()`: exports the container's asset, which must be present. */
  function ExportAssetStep(p: Pipeline): Pipeline
    requires p.avAsset.Some?
  {
    AddOperation(p, AVAssetExportOperation(p.avAsset.value))
  }

  function CheckExactWeeklyQuota(p: Pipeline, size: FileSizeReading): Pipeline
  {
    match ExactFilesize(size)
    case Failure(e) => WithError(p, e)
    case Success(n) => AddOperation(p, WeeklyQuotaOperation(n))
  }

  function CheckExactDiskSpace(p: Pipeline, size: FileSizeReading): Pipeline
  {
    match ExactFilesize(size)
    case Failure(e) => WithError(p, e)
    case Success(n) => AddOperation(p, DiskSpaceOperation(n))
  }

  // ----- entry points -----

  function MainStep(p: Pipeline): Pipeline
  {
    var p := p.(mainCalled := true);
    if p.cancelled then p
    else if p.avAsset.Some? then ExportAssetStep(p)
    else AddOperation(p, PHAssetDownloadOperation(p.phAsset))
  }

  /** `cancel()` only cancels the queued sub-operations; it deletes no file. */
  function CancelStep(p: Pipeline): Pipeline
  {
    p.(cancelled := true, queue := CancelAll(p.queue))
  }

  // ----- completion handlers -----

  function OnDownloaded(p: Pipeline, o: Outcome<AVAsset>): Pipeline
    requires p.finished != []
  {
    var p := Dequeue(p);
    match o
    case Cancelled => p
    case Failed(e) => WithError(p, e)
    case Succeeded(asset) => ExportAssetStep(p.(avAsset := Some(asset)))
  }

  function OnExported(p: Pipeline, o: Outcome<Url>, size: FileSizeReading): Pipeline
    requires p.finished != []
  {
    var p := Dequeue(p);
    match o
    case Cancelled => p
    case Failed(e) => WithError(p, e)
    case Succeeded(url) => CheckExactWeeklyQuota(p.(result := Some(url)), size)
  }

  function OnQuotaChecked(p: Pipeline, o: Outcome<Option<bool>>, size: FileSizeReading): Pipeline
    requires p.finished != []
  {
    var p := Dequeue(p);
    match o
    case Cancelled => p
    case Failed(e) => WithError(p, e)
    case Succeeded(result) =>
      if Refuses(result) then WithError(p, WeeklyQuotaExceededError)
      else CheckExactDiskSpace(p, size)
  }

  function OnDiskSpaceChecked(p: Pipeline, o: Outcome<Option<bool>>): Pipeline
    requires p.finished != []
  {
    var p := Dequeue(p);
    match o
    case Cancelled => p
    case Failed(e) => WithError(p, e)
    case Succeeded(result) =>
      if Refuses(result) then WithError(p, NotEnoughDiskSpaceError)
      else p.(state := Finished)
  }

  // ----- runs -----

  /** An event can be delivered: main runs once, cancel at any time, the queued
      sub-operation may finish, and a completion block runs only for the sub-operation
      that finished, seeing Cancelled exactly when that sub-operation was flagged. */
  predicate Enabled(p: Pipeline, e: Event)
  {
    match e
    case Main => !p.mainCalled
    case Cancel => true
    case SubOperationFinished => p.queue != []
    case Downloaded(o) => Awaits(p, DownloadPHAsset) && SeenAs(o, p.finished[0].cancelled)
    case Exported(o, _) => Awaits(p, ExportAsset) && SeenAs(o, p.finished[0].cancelled)
    case QuotaChecked(o, _) => Awaits(p, CheckWeeklyQuota) && SeenAs(o, p.finished[0].cancelled)
    case DiskSpaceChecked(o) => Awaits(p, CheckDiskSpace) && SeenAs(o, p.finished[0].cancelled)
  }

  function Apply(p: Pipeline, e: Event): Pipeline
    requires Enabled(p, e)
  {
    match e
    case Main => MainStep(p)
    case Cancel => CancelStep(p)
    case SubOperationFinished => FinishHead(p)
    case Downloaded(o) => OnDownloaded(p, o)
    case Exported(o, size) => OnExported(p, o, size)
    case QuotaChecked(o, size) => OnQuotaChecked(p, o, size)
    case DiskSpaceChecked(o) => OnDiskSpaceChecked(p, o)
  }

  predicate Feasible(p: Pipeline, es: seq<Event>)
    decreases |es|
  {
    es == [] || (Enabled(p, es[0]) && Feasible(Apply(p, es[0]), es[1..]))
  }

  function Run(p: Pipeline, es: seq<Event>): Pipeline
    requires Feasible(p, es)
    decreases |es|
  {
    if es == [] then p else Run(Apply(p, es[0]), es[1..])
  }
}
