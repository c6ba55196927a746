/** The state machine of SimplePrepareUploadOperation as values: a snapshot of the
    operation's fields and one transition function per entry point (main, cancel and
    the completion handler of each sub-operation). The class in module
    SimplePrepareUpload is proved to follow these functions. */
module SimplePrepareUploadModel {
  import opened PrepTypes

  /** The AVAssetExportSession produced by PHAssetExportSessionOperation. */
  datatype ExportSession = ExportSession(phAsset: PHAsset)

  /** The VIMUploadTicket returned by CreateVideoOperation. */
  datatype UploadTicket = UploadTicket(uri: string)

  /** What AVAssetExportOperation is built from: the two public `export` overloads. */
  datatype ExportSource = FromExportSession(session: ExportSession) | FromAsset(asset: AVAsset)

  /** The sub-operations the pipeline enqueues, with the values each one is built from or
      its completion closure captures. */
  datatype SubOperation =
    | PHAssetExportSessionOperation(phAsset: PHAsset)
    | AVAssetExportOperation(source: ExportSource)
    | WeeklyQuotaOperation(filesize: nat, url: Url)
    | CreateVideoOperation(url: Url)

  datatype StepKind = DownloadExportSession | Export | CheckWeeklyQuota | CreateVideo

  function KindOf(op: SubOperation): StepKind
  {
    match op
    case PHAssetExportSessionOperation(_) => DownloadExportSession
    case AVAssetExportOperation(_) => Export
    case WeeklyQuotaOperation(_, _) => CheckWeeklyQuota
    case CreateVideoOperation(_) => CreateVideo
  }

  /** The steps in the order the flow runs them; the download is skipped when the
      asset is already local. */
  function PlanFor(hasAsset: bool): seq<StepKind>
  {
    if hasAsset then [Export, CheckWeeklyQuota, CreateVideo]
    else [DownloadExportSession, Export, CheckWeeklyQuota, CreateVideo]
  }

  /** The domain of the errors this operation creates itself
      (`UploadErrorDomain.PrepareUploadOperation`). */
  const PrepareUploadOperationDomain: string := "PrepareUploadOperation"

  const FilesizeNilError: NSError :=
    NSError(PrepareUploadOperationDomain, 0, "Exact filesize calculation failed, filesize is nil.")

  const WeeklyQuotaExceededError: NSError :=
    NSError(PrepareUploadOperationDomain, 0, "Upload would exceed weekly quota.")

  /** The fields of a SimplePrepareUploadOperation. `avAsset` is the container's
      `avAsset`; `queue` holds the sub-operations still in the NSOperationQueue;
      `finished` those that have finished and left it, whose completion block is
      waiting on the main queue (each block captures its sub-operation). `mainCalled`,
      `started` (the kinds of all sub-operations ever enqueued, in order) and `deleted`
      (the files removed from disk) are bookkeeping for the proofs. */
  datatype Pipeline = Pipeline(
    phAsset: PHAsset,
    avAsset: Option<AVAsset>,
    state: OperationState,
    cancelled: bool,
    error: Option<NSError>,
    url: Option<Url>,
    uploadTicket: Option<UploadTicket>,
    queue: seq<Queued<SubOperation>>,
    finished: seq<Queued<SubOperation>>,
    mainCalled: bool,
    started: seq<StepKind>,
    deleted: set<Url>)

  /** Events the operation reacts to, one at a time. `SubOperationFinished`: the
      outstanding sub-operation finishes and leaves the queue, so `cancelAllOperations`
      no longer reaches it. The other completion events run its completion block on the
      main queue; their outcome is Cancelled exactly when its flag is set. The size
      reading of `Exported` is what `fileSize()` yields inside
      `checkExactWeeklyQuota`, which the export handler calls synchronously. */
  datatype Event =
    | Main
    | Cancel
    | SubOperationFinished
    | Downloaded(session: Outcome<ExportSession>)
    | Exported(outputURL: Outcome<Url>, size: FileSizeReading)
    | QuotaChecked(withinQuota: Outcome<Option<bool>>)
    | VideoCreated(ticket: Outcome<UploadTicket>)

  function Init(phAsset: PHAsset, avAsset: Option<AVAsset>): (p: Pipeline)
    ensures Valid(p)
    ensures p.state == Ready && p.error == None && p.url == None && p.uploadTicket == None
    ensures p.queue == [] && p.finished == [] && p.started == []
  {
    Pipeline(phAsset, avAsset, Ready, false, None, None, None, [], [], false, [], {})
  }

  /** The invariant every reachable snapshot keeps. */
  ghost predicate Valid(p: Pipeline)
  {
    // the `error` observer: an error means Finished
    && (p.error.Some? ==> p.state == Finished)
    // errors come only from the steps of a started run
    && (p.error.Some? ==> p.started != [])
    // Finished is reached only through an error or a created video record
    && (p.state == Finished ==> p.error.Some? || p.url.Some?)
    // single flight: at most one sub-operation outstanding, queued or finished
    && |p.queue| + |p.finished| <= 1
    && (p.queue != [] ==> InFlight(p, p.queue[0]))
    && (p.finished != [] ==> InFlight(p, p.finished[0]))
    // steps start in plan order, and only after main
    && p.started <= PlanFor(p.avAsset.Some?)
    && (!p.mainCalled ==> p.started == [])
    // url and ticket are set together, and only by a successful record creation
    && (p.url.Some? <==> p.uploadTicket.Some?)
    && (p.url.Some? ==>
          p.error.None? && p.state == Finished && p.queue == [] && p.finished == []
          && p.started == PlanFor(p.avAsset.Some?))
    // the only file ever deleted is the url of a finished run
    && p.deleted <= (if p.url.Some? then {p.url.value} else {})
  }

  /** What holds while sub-operation `q` is outstanding: it is the step started last, the
      run has not ended, and it is flagged cancelled only by the pipeline's cancel(). */
  ghost predicate InFlight(p: Pipeline, q: Queued<SubOperation>)
  {
    && p.error.None? && p.state != Finished
    && p.started != [] && KindOf(q.op) == p.started[|p.started| - 1]
    && (!p.cancelled ==> !q.cancelled)
  }

  /** The sub-operations enqueued whose completion block has not run yet. */
  function Outstanding(p: Pipeline): seq<Queued<SubOperation>>
  {
    p.queue + p.finished
  }

  // ----- the `error` property, the queue -----

  /** Assigning `error`: its didSet observer moves the operation to Finished. */
  function WithError(p: Pipeline, e: NSError): Pipeline
  {
    p.(error := Some(e), state := Finished)
  }

  /** `operationQueue.addOperation(op)`. */
  function AddOperation(p: Pipeline, op: SubOperation): Pipeline
  {
    p.(queue := p.queue + [Queued(op, false)], started := p.started + [KindOf(op)])
  }

  /** A sub-operation of the given kind has finished and its completion block is next. */
  predicate Awaits(p: Pipeline, kind: StepKind)
  {
    p.finished != [] && KindOf(p.finished[0].op) == kind
  }

  /** The sub-operation at the head of the queue finishes and leaves the queue. */
  function FinishHead(p: Pipeline): Pipeline
    requires p.queue != []
  {
    p.(queue := p.queue[1..], finished := p.finished + [p.queue[0]])
  }

  /** The completion block of the first finished sub-operation runs. */
  function Dequeue(p: Pipeline): Pipeline
    requires p.finished != []
  {
    p.(finished := p.finished[1..])
  }

  // ----- entry points -----

  function MainStep(p: Pipeline): Pipeline
  {
    var p := p.(mainCalled := true);
    if p.cancelled then p
    else if p.avAsset.Some? then AddOperation(p, AVAssetExportOperation(FromAsset(p.avAsset.value)))
    else AddOperation(p, PHAssetExportSessionOperation(p.phAsset))
  }

  function CancelStep(p: Pipeline): Pipeline
  {
    p.(cancelled := true,
       queue := CancelAll(p.queue),
       deleted := if p.url.Some? then p.deleted + {p.url.value} else p.deleted)
  }

  // ----- completion handlers -----

  function OnDownloaded(p: Pipeline, o: Outcome<ExportSession>): Pipeline
    requires p.finished != []
  {
    var p := Dequeue(p);
    match o
    case Cancelled => p
    case Failed(e) => WithError(p, e)
    case Succeeded(session) => AddOperation(p, AVAssetExportOperation(FromExportSession(session)))
  }

  /** `checkExactWeeklyQuota(url)`: the exact size is measured before the quota check is
      enqueued; a thrown error or a nil size stops the pipeline. */
  function CheckExactWeeklyQuota(p: Pipeline, url: Url, size: FileSizeReading): Pipeline
  {
    match size
    case Threw(e) => WithError(p, e)
    case Measured(None) => WithError(p, FilesizeNilError)
    case Measured(Some(n)) => AddOperation(p, WeeklyQuotaOperation(n, url))
  }

  function OnExported(p: Pipeline, o: Outcome<Url>, size: FileSizeReading): Pipeline
    requires p.finished != []
  {
    var p := Dequeue(p);
    match o
    case Cancelled => p
    case Failed(e) => WithError(p, e)
    case Succeeded(url) => CheckExactWeeklyQuota(p, url, size)
  }

  function OnQuotaChecked(p: Pipeline, o: Outcome<Option<bool>>): Pipeline
    requires Awaits(p, CheckWeeklyQuota)
  {
    var url := p.finished[0].op.url;
    var p := Dequeue(p);
    match o
    case Cancelled => p
    case Failed(e) => WithError(p, e)
    case Succeeded(result) =>
      if Refuses(result) then WithError(p, WeeklyQuotaExceededError)
      else AddOperation(p, CreateVideoOperation(url))
  }

  function OnVideoCreated(p: Pipeline, o: Outcome<UploadTicket>): Pipeline
    requires Awaits(p, CreateVideo)
  {
    var url := p.finished[0].op.url;
    var p := Dequeue(p);
    match o
    case Cancelled => p
    case Failed(e) => WithError(p, e)
    case Succeeded(ticket) => p.(url := Some(url), uploadTicket := Some(ticket), state := Finished)
  }

  // ----- runs -----

  /** An event can be delivered: main runs once, cancel at any time, the queued
      sub-operation may finish, and a completion block runs only for the sub-operation
      that finished, seeing Cancelled exactly when that sub-operation was flagged. */
  predicate Enabled(p: Pipeline, e: Event)
  {
    match e
    case Main => !p.mainCalled
    case Cancel => true
    case SubOperationFinished => p.queue != []
    case Downloaded(o) => Awaits(p, DownloadExportSession) && SeenAs(o, p.finished[0].cancelled)
    case Exported(o, _) => Awaits(p, Export) && SeenAs(o, p.finished[0].cancelled)
    case QuotaChecked(o) => Awaits(p, CheckWeeklyQuota) && SeenAs(o, p.finished[0].cancelled)
    case VideoCreated(o) => Awaits(p, CreateVideo) && SeenAs(o, p.finished[0].cancelled)
  }

  function Apply(p: Pipeline, e: Event): Pipeline
    requires Enabled(p, e)
  {
    match e
    case Main => MainStep(p)
    case Cancel => CancelStep(p)
    case SubOperationFinished => FinishHead(p)
    case Downloaded(o) => OnDownloaded(p, o)
    case Exported(o, size) => OnExported(p, o, size)
    case QuotaChecked(o) => OnQuotaChecked(p, o)
    case VideoCreated(o) => OnVideoCreated(p, o)
  }

  predicate Feasible(p: Pipeline, es: seq<Event>)
    decreases |es|
  {
    es == [] || (Enabled(p, es[0]) && Feasible(Apply(p, es[0]), es[1..]))
  }

  function Run(p: Pipeline, es: seq<Event>): Pipeline
    requires Feasible(p, es)
    decreases |es|
  {
    if es == [] then p else Run(Apply(p, es[0]), es[1..])
  }
}
