/** What SimplePrepareUploadOperation promises, proved about its state machine. */
module SimplePrepareUploadProofs {
  import opened PrepTypes
  import opened SimplePrepareUploadModel

  /** A completion event whose sub-operation reports `cancelled`. */
  predicate ReportsCancelled(e: Event)
  {
    match e
    case Downloaded(o) => o.Cancelled?
    case Exported(o, _) => o.Cancelled?
    case QuotaChecked(o) => o.Cancelled?
    case VideoCreated(o) => o.Cancelled?
    case _ => false
  }

  /** The error a completion event's sub-operation reports, if it reports one. */
  function ReportedError(e: Event): Option<NSError>
  {
    match e
    case Downloaded(Failed(err)) => Some(err)
    case Exported(Failed(err), _) => Some(err)
    case QuotaChecked(Failed(err)) => Some(err)
    case VideoCreated(Failed(err)) => Some(err)
    case _ => None
  }

  /** Extending a prefix of the plan by the plan's next step keeps it a prefix. */
  lemma PlanExtends(s: seq<StepKind>, hasAsset: bool, next: StepKind)
    requires s <= PlanFor(hasAsset) && |s| < |PlanFor(hasAsset)|
    requires next == PlanFor(hasAsset)[|s|]
    ensures s + [next] <= PlanFor(hasAsset)
  {
  }

  /** Running one enabled event and then the rest is running them all. */
  lemma RunCons(p: Pipeline, e: Event, rest: seq<Event>)
    requires Enabled(p, e) && Feasible(Apply(p, e), rest)
    ensures Feasible(p, [e] + rest) && Run(p, [e] + rest) == Run(Apply(p, e), rest)
  {
    assert ([e] + rest)[1..] == rest;
  }

  /** Every event the operation can receive keeps the invariant. */
  lemma StepPreservesValid(p: Pipeline, e: Event)
    requires Valid(p) && Enabled(p, e)
    ensures Valid(Apply(p, e))
  {
    match e
    case Main =>
    case Cancel =>
    case SubOperationFinished =>
    case Downloaded(o) => DownloadedPreservesValid(p, o);
    case Exported(o, size) => ExportedPreservesValid(p, o, size);
    case QuotaChecked(o) => QuotaCheckedPreservesValid(p, o);
    case VideoCreated(o) => VideoCreatedPreservesValid(p, o);
  }

  lemma DownloadedPreservesValid(p: Pipeline, o: Outcome<ExportSession>)
    requires Valid(p) && Awaits(p, DownloadExportSession)
    ensures Valid(OnDownloaded(p, o))
  {
    assert p.started == [DownloadExportSession];
    if o.Succeeded? { PlanExtends(p.started, p.avAsset.Some?, Export); }
  }

  lemma ExportedPreservesValid(p: Pipeline, o: Outcome<Url>, size: FileSizeReading)
    requires Valid(p) && Awaits(p, Export)
    ensures Valid(OnExported(p, o, size))
  {
    var plan := PlanFor(p.avAsset.Some?);
    assert p.started == plan[..|p.started|];
    assert |p.started| == |plan| - 2;
    if o.Succeeded? && size.Measured? && size.size.Some? {
      PlanExtends(p.started, p.avAsset.Some?, CheckWeeklyQuota);
    }
  }

  lemma QuotaCheckedPreservesValid(p: Pipeline, o: Outcome<Option<bool>>)
    requires Valid(p) && Awaits(p, CheckWeeklyQuota)
    ensures Valid(OnQuotaChecked(p, o))
  {
    var plan := PlanFor(p.avAsset.Some?);
    assert p.started == plan[..|p.started|];
    assert |p.started| == |plan| - 1;
    if o.Succeeded? && !Refuses(o.value) {
      PlanExtends(p.started, p.avAsset.Some?, CreateVideo);
    }
  }

  lemma VideoCreatedPreservesValid(p: Pipeline, o: Outcome<UploadTicket>)
    requires Valid(p) && Awaits(p, CreateVideo)
    ensures Valid(OnVideoCreated(p, o))
  {
    var plan := PlanFor(p.avAsset.Some?);
    assert p.started == plan[..|p.started|];
    assert |p.started| == |plan|;
  }

  lemma {:induction false} RunPreservesValid(p: Pipeline, es: seq<Event>)
    requires Valid(p) && Feasible(p, es)
    ensures Valid(Run(p, es))
    decreases |es|
  {
    if es != [] {
      StepPreservesValid(p, es[0]);
      RunPreservesValid(Apply(p, es[0]), es[1..]);
    }
  }

  /** Every state the operation can reach from its initializer: an error means Finished,
      at most one sub-operation is outstanding, steps have started in plan order, url and
      ticket are set together and only after every step has run, and no file is deleted
      before the run has finished successfully. */
  lemma ReachableStates(phAsset: PHAsset, avAsset: Option<AVAsset>, es: seq<Event>)
    requires Feasible(Init(phAsset, avAsset), es)
    ensures var p := Run(Init(phAsset, avAsset), es);
      && Valid(p)
      && (p.error.Some? ==> p.state == Finished)
      && |Outstanding(p)| <= 1
      && p.started <= PlanFor(avAsset.Some?)
      && (p.url.Some? <==> p.uploadTicket.Some?)
      && (p.url.Some? ==> p.error.None? && p.started == PlanFor(avAsset.Some?))
      && (p.url.None? ==> p.deleted == {})
  {
    RunPreservesValid(Init(phAsset, avAsset), es);
    AvAssetConstant(Init(phAsset, avAsset), es);
  }

  /** This variant never writes the container's asset. */
  lemma {:induction false} AvAssetConstant(p: Pipeline, es: seq<Event>)
    requires Feasible(p, es)
    ensures Run(p, es).avAsset == p.avAsset
    decreases |es|
  {
    if es != [] {
      AvAssetConstant(Apply(p, es[0]), es[1..]);
    }
  }

  /** Short circuit: once `error` is set, no later event changes anything but the
      `cancelled` flag; in particular no further step is started and the error stays. */
  lemma {:induction false} ShortCircuit(p: Pipeline, es: seq<Event>)
    requires Valid(p) && p.error.Some? && Feasible(p, es)
    ensures Run(p, es) == p.(cancelled := Run(p, es).cancelled)
    decreases |es|
  {
    if es != [] {
      StepPreservesValid(p, es[0]);
      ShortCircuit(Apply(p, es[0]), es[1..]);
    }
  }

  /** main() on a cancelled operation starts nothing; otherwise it starts the export
      when the asset is local, and the download of an export session when it is not. */
  lemma MainStartsFirstStep(p: Pipeline)
    requires Valid(p) && Enabled(p, Main)
    ensures var q := Apply(p, Main);
      && (p.cancelled ==> q == p.(mainCalled := true))
      && (!p.cancelled && p.avAsset.Some? ==>
            q.queue == [Queued(AVAssetExportOperation(FromAsset(p.avAsset.value)), false)]
            && q.started == [Export])
      && (!p.cancelled && p.avAsset.None? ==>
            q.queue == [Queued(PHAssetExportSessionOperation(p.phAsset), false)]
            && q.started == [DownloadExportSession])
      && q.error == p.error && q.state == p.state
  {
  }

  /** A completion whose sub-operation reports `cancelled` is ignored: its block only
      lets go of the sub-operation; error, url, ticket, state and the steps started are
      untouched. Such a completion comes only after the pipeline's own cancel(). */
  lemma CancelledCompletionIgnored(p: Pipeline, e: Event)
    requires Valid(p) && Enabled(p, e) && ReportsCancelled(e)
    ensures Apply(p, e) == p.(finished := [])
    ensures p.cancelled
  {
  }

  /** After cancel(): the pipeline is flagged and so is every sub-operation whose
      completion block has not run. */
  ghost predicate Stopped(p: Pipeline)
  {
    p.cancelled && forall i :: 0 <= i < |Outstanding(p)| ==> Outstanding(p)[i].cancelled
  }

  lemma StepKeepsStopped(p: Pipeline, e: Event)
    requires Valid(p) && Stopped(p) && Enabled(p, e)
    ensures Stopped(Apply(p, e))
    ensures var q := Apply(p, e);
      q.started == p.started && q.error == p.error && q.state == p.state
      && q.url == p.url && q.uploadTicket == p.uploadTicket
  {
    if e.SubOperationFinished? {
      assert Outstanding(Apply(p, e)) == Outstanding(p);
    } else if !e.Main? && !e.Cancel? {
      assert p.finished[0] == Outstanding(p)[|p.queue|];
    }
  }

  /** Once stopped, no event starts a step, sets an error, changes the state or sets the
      url and ticket. */
  lemma {:induction false} StoppedRunStartsNothing(p: Pipeline, es: seq<Event>)
    requires Valid(p) && Stopped(p) && Feasible(p, es)
    ensures var q := Run(p, es);
      q.started == p.started && q.error == p.error && q.state == p.state
      && q.url == p.url && q.uploadTicket == p.uploadTicket
    decreases |es|
  {
    if es != [] {
      StepPreservesValid(p, es[0]);
      StepKeepsStopped(p, es[0]);
      StoppedRunStartsNothing(Apply(p, es[0]), es[1..]);
    }
  }

  /** cancel() while no completion block is waiting (before main, or while a
      sub-operation is still in the queue): the queued sub-operation reports cancelled
      when it finishes, and no further step ever starts. */
  lemma CancelStopsQueuedStep(p: Pipeline, es: seq<Event>)
    requires Valid(p) && p.finished == []
    requires Feasible(Apply(p, Cancel), es)
    ensures var q := Run(Apply(p, Cancel), es);
      q.started == p.started && q.error == p.error && q.state == p.state
      && q.url == p.url && q.uploadTicket == p.uploadTicket
  {
    StepPreservesValid(p, Cancel);
    assert Outstanding(Apply(p, Cancel)) == CancelAll(p.queue);
    StoppedRunStartsNothing(Apply(p, Cancel), es);
  }

  /** A sub-operation's error is copied unchanged into `error`, the operation is Finished,
      and whatever happens afterwards no later step is ever started. */
  lemma FailureShortCircuits(p: Pipeline, e: Event, es: seq<Event>)
    requires Valid(p) && Enabled(p, e) && ReportedError(e).Some?
    requires Feasible(Apply(p, e), es)
    ensures var q := Run(Apply(p, e), es);
      q.error == ReportedError(e) && q.state == Finished && q.started == p.started
      && q.url.None? && q.uploadTicket.None?
  {
    StepPreservesValid(p, e);
    ShortCircuit(Apply(p, e), es);
  }

  /** If the exact file size throws or is nil, `error` is set (the thrown error, or the
      "filesize is nil" error) and the weekly quota check is never enqueued. */
  lemma SizeFailureSkipsQuota(p: Pipeline, url: Url, size: FileSizeReading, es: seq<Event>)
    requires Valid(p) && Enabled(p, Exported(Succeeded(url), size))
    requires !(size.Measured? && size.size.Some?)
    requires Feasible(Apply(p, Exported(Succeeded(url), size)), es)
    ensures var q := Run(Apply(p, Exported(Succeeded(url), size)), es);
      && q.error == Some(if size.Threw? then size.error else FilesizeNilError)
      && q.state == Finished
      && CheckWeeklyQuota !in q.started
  {
    var e := Exported(Succeeded(url), size);
    StepPreservesValid(p, e);
    ShortCircuit(Apply(p, e), es);
    assert p.started == PlanFor(p.avAsset.Some?)[..|p.started|];
    assert |p.started| == |PlanFor(p.avAsset.Some?)| - 2;
  }

  /** A measured size enqueues the weekly quota check with that size and the exported url. */
  lemma ExportStartsQuotaCheck(p: Pipeline, url: Url, n: nat)
    requires Valid(p) && Enabled(p, Exported(Succeeded(url), Measured(Some(n))))
    ensures var q := Apply(p, Exported(Succeeded(url), Measured(Some(n))));
      q.queue == [Queued(WeeklyQuotaOperation(n, url), false)]
      && q.started == p.started + [CheckWeeklyQuota] && q.error.None?
  {
  }

  /** A quota result of false sets the weekly quota error, and the video record is never
      created, whatever happens afterwards. */
  lemma QuotaRefusalNeverCreatesVideo(p: Pipeline, es: seq<Event>)
    requires Valid(p) && Enabled(p, QuotaChecked(Succeeded(Some(false))))
    requires Feasible(Apply(p, QuotaChecked(Succeeded(Some(false)))), es)
    ensures var q := Run(Apply(p, QuotaChecked(Succeeded(Some(false)))), es);
      q.error == Some(WeeklyQuotaExceededError) && q.state == Finished
      && CreateVideo !in q.started && q.url.None?
  {
    var e := QuotaChecked(Succeeded(Some(false)));
    StepPreservesValid(p, e);
    ShortCircuit(Apply(p, e), es);
    assert p.started == PlanFor(p.avAsset.Some?)[..|p.started|];
    assert |p.started| == |PlanFor(p.avAsset.Some?)| - 1;
  }

  /** Every quota result other than false, a nil one included, goes on to create the
      video record for the url the quota check was started with. */
  lemma QuotaPassCreatesVideo(p: Pipeline, result: Option<bool>)
    requires Valid(p) && Enabled(p, QuotaChecked(Succeeded(result))) && !Refuses(result)
    ensures var q := Apply(p, QuotaChecked(Succeeded(result)));
      q.queue == [Queued(CreateVideoOperation(p.finished[0].op.url), false)]
      && q.started == p.started + [CreateVideo] && q.error.None?
  {
  }

  /** url and ticket become set only when the record is created: both at once, with the
      operation Finished and no error. */
  lemma VideoCreatedFinishes(p: Pipeline, ticket: UploadTicket)
    requires Valid(p) && Enabled(p, VideoCreated(Succeeded(ticket)))
    ensures var q := Apply(p, VideoCreated(Succeeded(ticket)));
      && p.url.None? && p.uploadTicket.None?
      && q.url == Some(p.finished[0].op.url) && q.uploadTicket == Some(ticket)
      && q.state == Finished && q.error.None? && Outstanding(q) == []
  {
  }

  /** cancel() marks every queued sub-operation cancelled and deletes the file at `url`
      only when `url` is set, that is only after a fully successful run; it changes no
      other field. */
  lemma CancelDeletesOnlyFinishedExport(p: Pipeline)
    requires Valid(p)
    ensures var q := Apply(p, Cancel);
      && q.cancelled
      && |q.queue| == |p.queue|
      && (forall i :: 0 <= i < |q.queue| ==> q.queue[i].cancelled && q.queue[i].op == p.queue[i].op)
      && q.deleted == p.deleted + (if p.url.Some? then {p.url.value} else {})
      && q.(cancelled := p.cancelled, queue := p.queue, deleted := p.deleted) == p
  {
  }


  /** Running two event sequences one after the other is running their concatenation. */
  lemma {:induction false} RunAppend(p: Pipeline, a: seq<Event>, b: seq<Event>)
    requires Feasible(p, a) && Feasible(Run(p, a), b)
    ensures Feasible(p, a + b) && Run(p, a + b) == Run(Run(p, a), b)
    decreases |a|
  {
    if a != [] {
      assert (a + b)[0] == a[0] && (a + b)[1..] == a[1..] + b;
      RunAppend(Apply(p, a[0]), a[1..], b);
    } else {
      assert a + b == b;
    }
  }

  /** The outstanding sub-operation finishes, then its completion block runs. */
  lemma FinishThen(p: Pipeline, e: Event)
    requires p.queue != [] && Enabled(FinishHead(p), e)
    ensures Feasible(p, [SubOperationFinished, e])
    ensures Run(p, [SubOperationFinished, e]) == Apply(FinishHead(p), e)
  {
    RunCons(FinishHead(p), e, []);
    RunCons(p, SubOperationFinished, [e]);
  }

  /** cancel() does not stop a step whose sub-operation finished before cancel() ran: the
      sub-operation had already left the queue, so it is not flagged, and its completion
      block, which tests the sub-operation's flag and not the pipeline's, still enqueues
      the quota check. */
  lemma CompletionRacingCancelStillAdvances(phAsset: PHAsset, asset: AVAsset, url: Url, n: nat)
    ensures var es := [Main, SubOperationFinished, Cancel, Exported(Succeeded(url), Measured(Some(n)))];
      && Feasible(Init(phAsset, Some(asset)), es)
      && Run(Init(phAsset, Some(asset)), es).cancelled
      && Run(Init(phAsset, Some(asset)), es).queue == [Queued(WeeklyQuotaOperation(n, url), false)]
  {
    var p0 := Init(phAsset, Some(asset));
    var p1 := Apply(p0, Main);
    RunCons(p0, Main, []);
    var p2 := Apply(p1, SubOperationFinished);
    var e4 := Exported(Succeeded(url), Measured(Some(n)));
    RunCons(Apply(p2, Cancel), e4, []);
    RunCons(p2, Cancel, [e4]);
    RunCons(p1, SubOperationFinished, [Cancel, e4]);
    RunAppend(p0, [Main], [SubOperationFinished, Cancel, e4]);
    assert [Main] + [SubOperationFinished, Cancel, e4] == [Main, SubOperationFinished, Cancel, e4];
  }

  /** The same events with cancel() one step earlier, while the export is still queued:
      the export is flagged, its completion block can only see Cancelled, and nothing
      further starts. */
  lemma CancelBeforeFinishSeesCancelled(phAsset: PHAsset, asset: AVAsset, url: Url, size: FileSizeReading)
    ensures var es := [Main, Cancel, SubOperationFinished, Exported(Cancelled, size)];
      && Feasible(Init(phAsset, Some(asset)), es)
      && Feasible(Init(phAsset, Some(asset)), es[..3])
      && !Enabled(Run(Init(phAsset, Some(asset)), es[..3]), Exported(Succeeded(url), size))
      && Outstanding(Run(Init(phAsset, Some(asset)), es)) == []
      && Run(Init(phAsset, Some(asset)), es).started == [Export]
  {
    var p0 := Init(phAsset, Some(asset));
    var p1 := Apply(p0, Main);
    var r2 := Apply(p1, Cancel);
    var c4 := Exported(Cancelled, size);
    RunCons(p1, Cancel, []);
    RunCons(p0, Main, [Cancel]);
    FinishThen(r2, c4);
    RunCons(r2, SubOperationFinished, []);
    assert [Main] + [Cancel] == [Main, Cancel];
    RunAppend(p0, [Main, Cancel], [SubOperationFinished]);
    RunAppend(p0, [Main, Cancel], [SubOperationFinished, c4]);
    assert [Main, Cancel] + [SubOperationFinished, c4] == [Main, Cancel, SubOperationFinished, c4];
    assert [Main, Cancel, SubOperationFinished, c4][..3] == [Main, Cancel] + [SubOperationFinished];
  }

  /** A cloud asset downloaded, exported, measured, within quota and recorded: every step
      runs in plan order and the operation ends Finished with url and ticket set. */
  lemma FullRun(phAsset: PHAsset, session: ExportSession, url: Url, n: nat, ticket: UploadTicket)
    ensures var es := [Main, SubOperationFinished, Downloaded(Succeeded(session)),
                       SubOperationFinished, Exported(Succeeded(url), Measured(Some(n))),
                       SubOperationFinished, QuotaChecked(Succeeded(Some(true))),
                       SubOperationFinished, VideoCreated(Succeeded(ticket))];
      && Feasible(Init(phAsset, None), es)
      && var q := Run(Init(phAsset, None), es);
      && q.started == PlanFor(false)
      && q.url == Some(url) && q.uploadTicket == Some(ticket)
      && q.state == Finished && q.error.None? && Outstanding(q) == []
  {
    var f := SubOperationFinished;
    var e3, e5, e7, e9 := Downloaded(Succeeded(session)), Exported(Succeeded(url), Measured(Some(n))),
                          QuotaChecked(Succeeded(Some(true))), VideoCreated(Succeeded(ticket));
    var p0 := Init(phAsset, None);
    var p1 := Apply(p0, Main);
    RunCons(p0, Main, []);
    var p3 := Apply(FinishHead(p1), e3);
    FinishThen(p1, e3);
    var p5 := Apply(FinishHead(p3), e5);
    FinishThen(p3, e5);
    var p7 := Apply(FinishHead(p5), e7);
    FinishThen(p5, e7);
    FinishThen(p7, e9);
    assert [Main] + [f, e3] == [Main, f, e3];
    RunAppend(p0, [Main], [f, e3]);
    assert [Main, f, e3] + [f, e5] == [Main, f, e3, f, e5];
    RunAppend(p0, [Main, f, e3], [f, e5]);
    assert [Main, f, e3, f, e5] + [f, e7] == [Main, f, e3, f, e5, f, e7];
    RunAppend(p0, [Main, f, e3, f, e5], [f, e7]);
    assert [Main, f, e3, f, e5, f, e7] + [f, e9] == [Main, f, e3, f, e5, f, e7, f, e9];
    RunAppend(p0, [Main, f, e3, f, e5, f, e7], [f, e9]);
  }

  /** A 5 GB export against a quota the check refuses: the quota operation is enqueued
      with the exact size, 5 000 000 000 bytes, and the run ends with the weekly quota
      error and no record created. */
  lemma QuotaExceededScenario(phAsset: PHAsset, asset: AVAsset, url: Url)
    ensures var toExport := [Main, SubOperationFinished, Exported(Succeeded(url), Measured(Some(5_000_000_000)))];
      && Feasible(Init(phAsset, Some(asset)), toExport)
      && var p := Run(Init(phAsset, Some(asset)), toExport);
      && p.queue == [Queued(WeeklyQuotaOperation(5_000_000_000, url), false)]
      && Feasible(p, [SubOperationFinished, QuotaChecked(Succeeded(Some(false)))])
      && var q := Run(p, [SubOperationFinished, QuotaChecked(Succeeded(Some(false)))]);
      && q.started == [Export, CheckWeeklyQuota]
      && q.error == Some(WeeklyQuotaExceededError) && q.state == Finished && q.url.None?
  {
    var e3, e5 := Exported(Succeeded(url), Measured(Some(5_000_000_000))), QuotaChecked(Succeeded(Some(false)));
    var p0 := Init(phAsset, Some(asset));
    var p1 := Apply(p0, Main);
    RunCons(p0, Main, []);
    FinishThen(p1, e3);
    RunAppend(p0, [Main], [SubOperationFinished, e3]);
    assert [Main] + [SubOperationFinished, e3] == [Main, SubOperationFinished, e3];
    var p3 := Apply(FinishHead(p1), e3);
    FinishThen(p3, e5);
  }
}
