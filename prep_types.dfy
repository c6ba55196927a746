/** Values and small helpers shared by the two upload-preparation pipelines
    (SimplePrepareUploadOperation and VideoSettingsOperation). */
module PrepTypes {

  datatype Option<+T> = None | Some(value: T)

  /** The outcome of a Swift call that either returns a value or throws an NSError. */
  datatype Result<+T> = Success(value: T) | Failure(error: NSError)

  /** An NSError: a domain, a code and a localized description. */
  datatype NSError = NSError(domain: string, code: int, description: string)

  /** The lifecycle state of a ConcurrentOperation. */
  datatype OperationState = Ready | Executing | Finished

  /** How a capability sub-operation ended, as its completion handler reads it:
      `operation.cancelled`, else `operation.error`, else `operation.result`. */
  datatype Outcome<+T> = Cancelled | Failed(error: NSError) | Succeeded(value: T)

  /** What `AVURLAsset.fileSize()` yields: it throws, or returns an optional byte count. */
  datatype FileSizeReading = Threw(error: NSError) | Measured(size: Option<nat>)

  datatype PHAsset = PHAsset(localIdentifier: string)
  datatype AVAsset = AVAsset(id: nat)
  datatype Url = Url(path: string)

  /** A sub-operation sitting in a pipeline's private NSOperationQueue, with its own
      `cancelled` flag. */
  datatype Queued<+Op> = Queued(op: Op, cancelled: bool)

  /** A completion handler reads `operation.cancelled` before anything else, so it sees
      the outcome Cancelled exactly when the sub-operation's flag is set. */
  predicate SeenAs<T>(outcome: Outcome<T>, cancelled: bool)
  {
    outcome.Cancelled? <==> cancelled
  }

  /** A quota or disk-space check refuses only when its result is present and false:
      `if let result = operation.result where result == false`. A nil result passes. */
  predicate Refuses(result: Option<bool>)
  {
    result == Some(false)
  }

  /** `cancelAllOperations()`: every queued operation is marked cancelled, nothing is
      removed and nothing is reordered. */
  function CancelAll<Op>(queue: seq<Queued<Op>>): (r: seq<Queued<Op>>)
    ensures |r| == |queue|
    ensures forall i :: 0 <= i < |r| ==> r[i].op == queue[i].op && r[i].cancelled
  {
    if queue == [] then [] else [queue[0].(cancelled := true)] + CancelAll(queue[1..])
  }

  /** The asset a pipeline prepares: the Photos asset and, when it is already local, its
      AVAsset. VideoSettingsOperation writes `avAsset` in place after a download. */
  class PHAssetContainer {
    const phAsset: PHAsset
    var avAsset: Option<AVAsset>

    constructor (phAsset: PHAsset, avAsset: Option<AVAsset>)
      ensures this.phAsset == phAsset && this.avAsset == avAsset
    {
      this.phAsset := phAsset;
      this.avAsset := avAsset;
    }
  }
}
