/** What VideoSettingsOperation promises, proved about its state machine. */
module VideoSettingsProofs {
  import opened PrepTypes
  import opened VideoSettingsModel
  import SimplePrepareUploadModel

  /** A completion event whose sub-operation reports `cancelled`. */
  predicate ReportsCancelled(e: Event)
  {
    match e
    case Downloaded(o) => o.Cancelled?
    case Exported(o, _) => o.Cancelled?
    case QuotaChecked(o, _) => o.Cancelled?
    case DiskSpaceChecked(o) => o.Cancelled?
    case _ => false
  }

  /** The error a completion event's sub-operation reports, if it reports one. */
  function ReportedError(e: Event): Option<NSError>
  {
    match e
    case Downloaded(Failed(err)) => Some(err)
    case Exported(Failed(err), _) => Some(err)
    case QuotaChecked(Failed(err), _) => Some(err)
    case DiskSpaceChecked(Failed(err)) => Some(err)
    case _ => None
  }

  /** Running one enabled event and then the rest is running them all. */
  lemma RunCons(p: Pipeline, e: Event, rest: seq<Event>)
    requires Enabled(p, e) && Feasible(Apply(p, e), rest)
    ensures Feasible(p, [e] + rest) && Run(p, [e] + rest) == Run(Apply(p, e), rest)
  {
    assert ([e] + rest)[1..] == rest;
  }

  /** A non-empty prefix of one of the two plans: which plan it follows is fixed by its
      first step, and the position of its last step fixes its length. */
  lemma PlanPosition(s: seq<StepKind>, k: StepKind)
    requires (s <= PlanFor(true) || s <= PlanFor(false)) && s != [] && Last(s) == k
    ensures var plan := PlanFor(s[0] == ExportAsset);
      s <= plan && s == plan[..|s|]
      && (k == DownloadPHAsset ==> s == [DownloadPHAsset])
      && (k == ExportAsset ==> |s| == |plan| - 2)
      && (k == CheckWeeklyQuota ==> |s| == |plan| - 1)
      && (k == CheckDiskSpace ==> s == plan && s[|s| - 2] == CheckWeeklyQuota)
  {
    if s <= PlanFor(true) {
      assert s[0] == ExportAsset;
    } else {
      assert s[0] == DownloadPHAsset;
    }
  }

  /** Every event the operation can receive keeps the invariant. */
  lemma StepPreservesValid(p: Pipeline, e: Event)
    requires Valid(p) && Enabled(p, e)
    ensures Valid(Apply(p, e))
  {
    match e
    case Main =>
    case Cancel =>
    case SubOperationFinished =>
    case Downloaded(o) => DownloadedPreservesValid(p, o);
    case Exported(o, size) => ExportedPreservesValid(p, o, size);
    case QuotaChecked(o, size) => QuotaCheckedPreservesValid(p, o, size);
    case DiskSpaceChecked(o) => DiskSpaceCheckedPreservesValid(p, o);
  }

  lemma DownloadedPreservesValid(p: Pipeline, o: Outcome<AVAsset>)
    requires Valid(p) && Awaits(p, DownloadPHAsset)
    ensures Valid(OnDownloaded(p, o))
  {
    PlanPosition(p.started, DownloadPHAsset);
  }

  lemma ExportedPreservesValid(p: Pipeline, o: Outcome<Url>, size: FileSizeReading)
    requires Valid(p) && Awaits(p, ExportAsset)
    ensures Valid(OnExported(p, o, size))
  {
    PlanPosition(p.started, ExportAsset);
    if o.Succeeded? && ExactFilesize(size).Success? {
      var plan := PlanFor(p.started[0] == ExportAsset);
      assert p.started + [CheckWeeklyQuota] == plan[..|p.started| + 1];
    }
  }

  lemma QuotaCheckedPreservesValid(p: Pipeline, o: Outcome<Option<bool>>, size: FileSizeReading)
    requires Valid(p) && Awaits(p, CheckWeeklyQuota)
    ensures Valid(OnQuotaChecked(p, o, size))
  {
    PlanPosition(p.started, CheckWeeklyQuota);
    if o.Succeeded? && !Refuses(o.value) && ExactFilesize(size).Success? {
      var plan := PlanFor(p.started[0] == ExportAsset);
      assert p.started + [CheckDiskSpace] == plan;
    }
  }

  lemma DiskSpaceCheckedPreservesValid(p: Pipeline, o: Outcome<Option<bool>>)
    requires Valid(p) && Awaits(p, CheckDiskSpace)
    ensures Valid(OnDiskSpaceChecked(p, o))
  {
    PlanPosition(p.started, CheckDiskSpace);
    assert p.started[|p.started| - 2] in p.started;
  }

  lemma {:induction false} RunPreservesValid(p: Pipeline, es: seq<Event>)
    requires Valid(p) && Feasible(p, es)
    ensures Valid(Run(p, es))
    decreases |es|
  {
    if es != [] {
      StepPreservesValid(p, es[0]);
      RunPreservesValid(Apply(p, es[0]), es[1..]);
    }
  }

  /** The plan chosen by main() from the asset it found: the steps started so far are a
      prefix of it. */
  ghost predicate FollowsPlan(p: Pipeline, hasAsset: bool)
  {
    && p.started <= PlanFor(hasAsset)
    && (!p.mainCalled ==> p.avAsset.Some? == hasAsset)
  }

  /** A non-empty prefix of one plan that grows into a prefix of either plan stays a
      prefix of the first: the plans differ in their first step. */
  lemma PlanFixedByFirstStep(s: seq<StepKind>, t: seq<StepKind>, hasAsset: bool)
    requires s <= PlanFor(hasAsset) && s != [] && s <= t
    requires t <= PlanFor(true) || t <= PlanFor(false)
    ensures t <= PlanFor(hasAsset)
  {
    assert t[0] == s[0] == PlanFor(hasAsset)[0];
  }

  /** No event takes back a started step. */
  lemma StartedGrows(p: Pipeline, e: Event)
    requires Enabled(p, e)
    ensures p.started <= Apply(p, e).started
  {
  }

  lemma StepFollowsPlan(p: Pipeline, hasAsset: bool, e: Event)
    requires Valid(p) && FollowsPlan(p, hasAsset) && Enabled(p, e)
    ensures FollowsPlan(Apply(p, e), hasAsset)
  {
    StepPreservesValid(p, e);
    if !e.Main? && !e.Cancel? {
      StartedGrows(p, e);
      PlanFixedByFirstStep(p.started, Apply(p, e).started, hasAsset);
    }
  }

  lemma {:induction false} RunFollowsPlan(p: Pipeline, hasAsset: bool, es: seq<Event>)
    requires Valid(p) && FollowsPlan(p, hasAsset) && Feasible(p, es)
    ensures FollowsPlan(Run(p, es), hasAsset)
    decreases |es|
  {
    if es != [] {
      StepPreservesValid(p, es[0]);
      StepFollowsPlan(p, hasAsset, es[0]);
      RunFollowsPlan(Apply(p, es[0]), hasAsset, es[1..]);
    }
  }

  /** Every state the operation can reach from its initializer: an error means Finished,
      at most one sub-operation is outstanding, steps start in the fixed order (the
      download only when the asset was absent), and Finished without an error only once
      every step has run and `result` is set. */
  lemma ReachableStates(phAsset: PHAsset, avAsset: Option<AVAsset>, es: seq<Event>)
    requires Feasible(Init(phAsset, avAsset), es)
    ensures var p := Run(Init(phAsset, avAsset), es);
      && Valid(p)
      && (p.error.Some? ==> p.state == Finished)
      && |Outstanding(p)| <= 1
      && p.started <= PlanFor(avAsset.Some?)
      && (p.state == Finished && p.error.None? ==>
            p.started == PlanFor(avAsset.Some?) && p.result.Some?)
      && p.deleted == {}
  {
    RunPreservesValid(Init(phAsset, avAsset), es);
    RunFollowsPlan(Init(phAsset, avAsset), avAsset.Some?, es);
    var p := Run(Init(phAsset, avAsset), es);
    if p.state == Finished && p.error.None? {
      PlanPosition(p.started, CheckDiskSpace);
    }
  }

  /** Short circuit: once `error` is set, no later event changes anything but the
      `cancelled` flag; in particular no further step is started, the error stays and
      `result` stays. */
  lemma {:induction false} ShortCircuit(p: Pipeline, es: seq<Event>)
    requires Valid(p) && p.error.Some? && Feasible(p, es)
    ensures Run(p, es) == p.(cancelled := Run(p, es).cancelled)
    decreases |es|
  {
    if es != [] {
      StepPreservesValid(p, es[0]);
      ShortCircuit(Apply(p, es[0]), es[1..]);
    }
  }

  /** Once the export has set `result`, it stays set, whatever later checks decide. */
  lemma {:induction false} ResultKept(p: Pipeline, es: seq<Event>)
    requires Valid(p) && p.result.Some? && Feasible(p, es)
    ensures Run(p, es).result == p.result
    decreases |es|
  {
    if es != [] {
      StepPreservesValid(p, es[0]);
      StepKeepsResult(p, es[0]);
      ResultKept(Apply(p, es[0]), es[1..]);
    }
  }

  /** Only the export's completion writes `result`, and that runs while `result` is unset. */
  lemma StepKeepsResult(p: Pipeline, e: Event)
    requires Valid(p) && p.result.Some? && Enabled(p, e)
    ensures Apply(p, e).result == p.result
  {
    if e.Exported? {
      assert false;
    }
  }

  /** main() on a cancelled operation starts nothing; otherwise it starts the export
      when the container holds an AVAsset, and the download when it does not. */
  lemma MainStartsFirstStep(p: Pipeline)
    requires Valid(p) && Enabled(p, Main)
    ensures var q := Apply(p, Main);
      && (p.cancelled ==> q == p.(mainCalled := true))
      && (!p.cancelled && p.avAsset.Some? ==>
            q.queue == [Queued(AVAssetExportOperation(p.avAsset.value), false)]
            && q.started == [ExportAsset])
      && (!p.cancelled && p.avAsset.None? ==>
            q.queue == [Queued(PHAssetDownloadOperation(p.phAsset), false)]
            && q.started == [DownloadPHAsset])
      && q.error == p.error && q.state == p.state && q.result == p.result
  {
  }

  /** A successful download stores the downloaded asset in the container before the
      export of that asset starts. */
  lemma DownloadStoresAsset(p: Pipeline, asset: AVAsset)
    requires Valid(p) && Enabled(p, Downloaded(Succeeded(asset)))
    ensures var q := Apply(p, Downloaded(Succeeded(asset)));
      q.avAsset == Some(asset)
      && q.queue == [Queued(AVAssetExportOperation(asset), false)]
      && q.started == p.started + [ExportAsset]
  {
  }

  /** A successful export sets `result` to the output url before the exact size is
      measured; a measured size enqueues the quota check with that size, a failed
      measurement sets the error but leaves `result` set. */
  lemma ExportSetsResult(p: Pipeline, url: Url, size: FileSizeReading)
    requires Valid(p) && Enabled(p, Exported(Succeeded(url), size))
    ensures var q := Apply(p, Exported(Succeeded(url), size));
      && q.result == Some(url)
      && (ExactFilesize(size).Success? ==>
            q.queue == [Queued(WeeklyQuotaOperation(ExactFilesize(size).value), false)]
            && q.error.None?)
      && (ExactFilesize(size).Failure? ==>
            q.error == Some(ExactFilesize(size).error) && q.state == Finished && Outstanding(q) == [])
  {
  }

  /** A completion whose sub-operation reports `cancelled` is ignored: its block only
      lets go of the sub-operation. Such a completion comes only after the pipeline's own
      cancel(). */
  lemma CancelledCompletionIgnored(p: Pipeline, e: Event)
    requires Valid(p) && Enabled(p, e) && ReportsCancelled(e)
    ensures Apply(p, e) == p.(finished := [])
    ensures p.cancelled
  {
  }

  /** After cancel(): the pipeline is flagged and so is every sub-operation whose
      completion block has not run. */
  ghost predicate Stopped(p: Pipeline)
  {
    p.cancelled && forall i :: 0 <= i < |Outstanding(p)| ==> Outstanding(p)[i].cancelled
  }

  lemma StepKeepsStopped(p: Pipeline, e: Event)
    requires Valid(p) && Stopped(p) && Enabled(p, e)
    ensures Stopped(Apply(p, e))
    ensures var q := Apply(p, e);
      q.started == p.started && q.error == p.error && q.state == p.state
      && q.result == p.result && q.avAsset == p.avAsset
  {
    if e.SubOperationFinished? {
      assert Outstanding(Apply(p, e)) == Outstanding(p);
    } else if !e.Main? && !e.Cancel? {
      assert p.finished[0] == Outstanding(p)[|p.queue|];
    }
  }

  /** Once stopped, no event starts a step, sets an error, changes the state, `result`
      or the container's asset. */
  lemma {:induction false} StoppedRunStartsNothing(p: Pipeline, es: seq<Event>)
    requires Valid(p) && Stopped(p) && Feasible(p, es)
    ensures var q := Run(p, es);
      q.started == p.started && q.error == p.error && q.state == p.state
      && q.result == p.result && q.avAsset == p.avAsset
    decreases |es|
  {
    if es != [] {
      StepPreservesValid(p, es[0]);
      StepKeepsStopped(p, es[0]);
      StoppedRunStartsNothing(Apply(p, es[0]), es[1..]);
    }
  }

  /** cancel() while no completion block is waiting (before main, or while a
      sub-operation is still in the queue): the queued sub-operation reports cancelled
      when it finishes, and no further step ever starts. */
  lemma CancelStopsQueuedStep(p: Pipeline, es: seq<Event>)
    requires Valid(p) && p.finished == []
    requires Feasible(Apply(p, Cancel), es)
    ensures var q := Run(Apply(p, Cancel), es);
      q.started == p.started && q.error == p.error && q.state == p.state
      && q.result == p.result && q.avAsset == p.avAsset
  {
    StepPreservesValid(p, Cancel);
    assert Outstanding(Apply(p, Cancel)) == CancelAll(p.queue);
    StoppedRunStartsNothing(Apply(p, Cancel), es);
  }

  /** A sub-operation's error is copied unchanged into `error`, the operation is Finished,
      and whatever happens afterwards no later step is ever started. */
  lemma FailureShortCircuits(p: Pipeline, e: Event, es: seq<Event>)
    requires Valid(p) && Enabled(p, e) && ReportedError(e).Some?
    requires Feasible(Apply(p, e), es)
    ensures var q := Run(Apply(p, e), es);
      q.error == ReportedError(e) && q.state == Finished && q.started == p.started
      && q.result == p.result
  {
    StepPreservesValid(p, e);
    ShortCircuit(Apply(p, e), es);
  }

  /** The exact size measured for the disk check: if it throws or is nil, `error` is set
      and the disk space check is never enqueued. */
  lemma SizeFailureSkipsDiskCheck(p: Pipeline, result: Option<bool>, size: FileSizeReading, es: seq<Event>)
    requires Valid(p) && Enabled(p, QuotaChecked(Succeeded(result), size)) && !Refuses(result)
    requires ExactFilesize(size).Failure?
    requires Feasible(Apply(p, QuotaChecked(Succeeded(result), size)), es)
    ensures var q := Run(Apply(p, QuotaChecked(Succeeded(result), size)), es);
      && q.error == Some(ExactFilesize(size).error) && q.state == Finished
      && CheckDiskSpace !in q.started
      && q.result == p.result && q.result.Some?
  {
    var e := QuotaChecked(Succeeded(result), size);
    StepPreservesValid(p, e);
    ShortCircuit(Apply(p, e), es);
    PlanPosition(p.started, CheckWeeklyQuota);
  }

  /** A quota result of false sets the weekly quota error and the disk space check never
      runs, whatever happens afterwards. */
  lemma QuotaRefusalSkipsDiskCheck(p: Pipeline, size: FileSizeReading, es: seq<Event>)
    requires Valid(p) && Enabled(p, QuotaChecked(Succeeded(Some(false)), size))
    requires Feasible(Apply(p, QuotaChecked(Succeeded(Some(false)), size)), es)
    ensures var q := Run(Apply(p, QuotaChecked(Succeeded(Some(false)), size)), es);
      && q.error == Some(WeeklyQuotaExceededError) && q.state == Finished
      && CheckDiskSpace !in q.started
      && q.result == p.result && q.result.Some?
  {
    var e := QuotaChecked(Succeeded(Some(false)), size);
    StepPreservesValid(p, e);
    ShortCircuit(Apply(p, e), es);
    PlanPosition(p.started, CheckWeeklyQuota);
  }

  /** The disk space check decides the end: false gives the disk space error, any other
      result (nil included) gives Finished with no error and `result` set. */
  lemma DiskCheckDecides(p: Pipeline, result: Option<bool>)
    requires Valid(p) && Enabled(p, DiskSpaceChecked(Succeeded(result)))
    ensures var q := Apply(p, DiskSpaceChecked(Succeeded(result)));
      && q.state == Finished && Outstanding(q) == [] && q.result.Some?
      && (Refuses(result) ==> q.error == Some(NotEnoughDiskSpaceError))
      && (!Refuses(result) ==> q.error.None?)
  {
    PlanPosition(p.started, CheckDiskSpace);
    assert p.started[|p.started| - 2] in p.started;
  }

  /** cancel() cancels the queued sub-operations and changes nothing else: in particular
      it deletes no file, not even the exported `result`. */
  lemma CancelOnlyCancelsQueue(p: Pipeline)
    requires Valid(p)
    ensures var q := Apply(p, Cancel);
      && q.cancelled
      && q.deleted == {}
      && |q.queue| == |p.queue|
      && (forall i :: 0 <= i < |q.queue| ==> q.queue[i].cancelled && q.queue[i].op == p.queue[i].op)
      && q.(cancelled := p.cancelled, queue := p.queue) == p
  {
  }

  /** Running two event sequences one after the other is running their concatenation. */
  lemma {:induction false} RunAppend(p: Pipeline, a: seq<Event>, b: seq<Event>)
    requires Feasible(p, a) && Feasible(Run(p, a), b)
    ensures Feasible(p, a + b) && Run(p, a + b) == Run(Run(p, a), b)
    decreases |a|
  {
    if a != [] {
      assert (a + b)[0] == a[0] && (a + b)[1..] == a[1..] + b;
      RunAppend(Apply(p, a[0]), a[1..], b);
    } else {
      assert a + b == b;
    }
  }

  /** The outstanding sub-operation finishes, then its completion block runs. */
  lemma FinishThen(p: Pipeline, e: Event)
    requires p.queue != [] && Enabled(FinishHead(p), e)
    ensures Feasible(p, [SubOperationFinished, e])
    ensures Run(p, [SubOperationFinished, e]) == Apply(FinishHead(p), e)
  {
    RunCons(FinishHead(p), e, []);
    RunCons(p, SubOperationFinished, [e]);
  }

  /** An asset still in the cloud downloaded, exported, measured twice, within quota and
      with enough disk space: every step runs in plan order and the operation ends
      Finished with no error and the exported url as `result`. */
  lemma FullRun(phAsset: PHAsset, asset: AVAsset, url: Url, n: nat)
    ensures var es := [Main, SubOperationFinished, Downloaded(Succeeded(asset)),
                       SubOperationFinished, Exported(Succeeded(url), Measured(Some(n))),
                       SubOperationFinished, QuotaChecked(Succeeded(Some(true)), Measured(Some(n))),
                       SubOperationFinished, DiskSpaceChecked(Succeeded(Some(true)))];
      && Feasible(Init(phAsset, None), es)
      && var q := Run(Init(phAsset, None), es);
      && q.started == PlanFor(false)
      && q.avAsset == Some(asset) && q.result == Some(url)
      && q.state == Finished && q.error.None? && Outstanding(q) == []
  {
    var f := SubOperationFinished;
    var e3, e5, e7, e9 := Downloaded(Succeeded(asset)), Exported(Succeeded(url), Measured(Some(n))),
                          QuotaChecked(Succeeded(Some(true)), Measured(Some(n))),
                          DiskSpaceChecked(Succeeded(Some(true)));
    var p0 := Init(phAsset, None);
    var p1 := Apply(p0, Main);
    RunCons(p0, Main, []);
    var p3 := Apply(FinishHead(p1), e3);
    FinishThen(p1, e3);
    var p5 := Apply(FinishHead(p3), e5);
    FinishThen(p3, e5);
    var p7 := Apply(FinishHead(p5), e7);
    FinishThen(p5, e7);
    FinishThen(p7, e9);
    assert [Main] + [f, e3] == [Main, f, e3];
    RunAppend(p0, [Main], [f, e3]);
    assert [Main, f, e3] + [f, e5] == [Main, f, e3, f, e5];
    RunAppend(p0, [Main, f, e3], [f, e5]);
    assert [Main, f, e3, f, e5] + [f, e7] == [Main, f, e3, f, e5, f, e7];
    RunAppend(p0, [Main, f, e3, f, e5], [f, e7]);
    assert [Main, f, e3, f, e5, f, e7] + [f, e9] == [Main, f, e3, f, e5, f, e7, f, e9];
    RunAppend(p0, [Main, f, e3, f, e5, f, e7], [f, e9]);
  }

  /** Both pipelines measure the exact size the same way: the quota check is enqueued
      with the measured size exactly when `exactFilesize` succeeds, a thrown error is
      passed on unchanged by both, and only the nil-size errors differ, in domain and in
      wording. */
  lemma ExactFilesizeMatchesSimpleVariant(s: SimplePrepareUploadModel.Pipeline, url: Url, reading: FileSizeReading)
    ensures var q := SimplePrepareUploadModel.CheckExactWeeklyQuota(s, url, reading);
      && (ExactFilesize(reading).Success? ==>
            q.queue == s.queue + [Queued(SimplePrepareUploadModel.WeeklyQuotaOperation(ExactFilesize(reading).value, url), false)]
            && q.error == s.error)
      && (ExactFilesize(reading).Failure? ==> q.queue == s.queue && q.error.Some?)
      && (reading.Threw? ==> ExactFilesize(reading) == Failure(reading.error) && q.error == Some(reading.error))
      && (reading == Measured(None) ==>
            q.error == Some(SimplePrepareUploadModel.FilesizeNilError)
            && ExactFilesize(reading).error.domain != SimplePrepareUploadModel.FilesizeNilError.domain
            && ExactFilesize(reading).error.description != SimplePrepareUploadModel.FilesizeNilError.description)
  {
  }
}
