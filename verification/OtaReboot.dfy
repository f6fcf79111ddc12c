/** Reboot discipline: when the machine may ask for a reboot, when it may call a job finished, and that the
    verification record of the next boot is about the job the reboot is for. */
module OtaReboot {
  import opened Wrappers
  import opened OtaTypes
  import opened OtaSpec
  import opened OtaLiveness

  /* ---------- What the outputs say about the current job ---------- */

  /** The job of the last pending-verification write since a job was last started. */
  function PendingSince(log: seq<Output>): Option<string>
    decreases |log|
  {
    if log == [] then None
    else
      match log[|log| - 1]
      case PendingVerification(id, _) => Some(id)
      case Started(_) => None
      case _ => PendingSince(log[..|log| - 1])
  }

  /** A terminal status was published or confirmed since a job was last started. */
  predicate TerminalSince(log: seq<Output>)
    decreases |log|
  {
    if log == [] then false
    else
      match log[|log| - 1]
      case TerminalStatus(_) => true
      case Started(_) => false
      case _ => TerminalSince(log[..|log| - 1])
  }

  lemma SinceAppend(log: seq<Output>, o: Output)
    ensures PendingSince(log + [o])
            == if o.PendingVerification? then Some(o.id) else if o.Started? then None else PendingSince(log)
    ensures TerminalSince(log + [o]) == (o.TerminalStatus? || (!o.Started? && TerminalSince(log)))
  {
    assert (log + [o])[..|log|] == log;
  }

  /** The two flags of the current job are backed by outputs. */
  predicate Tracks(m: Engine) {
    && (m.job.shouldReboot ==> PendingSince(m.log).Some?)
    && (m.job.finalReported ==> TerminalSince(m.log))
  }

  predicate Final(o: Output) {
    o.RebootRequested? || o.Finished?
  }

  /** Outside POST_DOWNLOAD a handler neither asks for a reboot nor finishes a job. */
  ghost predicate Tame(m: Engine, n: Engine) {
    && (n.log == m.log || (|m.log| < |n.log| && n.log == m.log + [n.log[|m.log|]] && !Final(n.log[|m.log|])))
    && (Tracks(m) ==> Tracks(n))
  }

  predicate SameJob(m: Engine, n: Engine) {
    n.job == m.job && n.log == m.log
  }

  lemma GoToSameJob(m: Engine, next: State, d: Data, e: Env)
    ensures SameJob(m, GoTo(m, next, d, e).m)
  {
  }

  lemma PassOnSameJob(m: Engine, next: State, c: Cell, e: Env)
    ensures SameJob(m, PassOn(m, next, c, e).m)
  {
  }

  lemma AfterPublishSameJob(m: Engine, sent: Outcome, c: Cell, retryState: State, e: Env)
    ensures SameJob(m, AfterPublish(m, sent, c, retryState, e).m)
  {
  }

  lemma NetworkInitTame(m: Engine, c: Cell, e: Env)
    ensures Tame(m, OnNetworkInit(m, c, e).m)
  {
    hide PostEvent, RaiseError, PendingSince, TerminalSince;
    SinceAppend(m.log, NvsCleared);
  }

  lemma Adds(m: Engine, n: Engine, o: Output)
    requires n.log == m.log + [o] && !Final(o)
    requires n.job.shouldReboot ==> o.PendingVerification? || (!o.Started? && m.job.shouldReboot)
    requires n.job.finalReported ==> o.TerminalStatus? || (!o.Started? && m.job.finalReported)
    ensures Tame(m, n)
  {
    SinceAppend(m.log, o);
    assert n.log[|m.log|] == o;
  }

  lemma RebootFinalStatusTame(m: Engine, c: Cell, e: Env)
    ensures Tame(m, OnRebootFinalStatus(m, c, e).m)
  {
    hide AfterPublish, Fail, PendingSince, TerminalSince, FinalOutcome, Tame;
    FailSameJob(m, FatalUnexpectedFormat, e.errorPost, true);
    if c.data.payload.FinalStatus? {
      AfterPublishSameJob(m, FinalOutcome(c.data.payload.details, e), c, RebootCheck, e);
      if FinalOutcome(c.data.payload.details, e).Fine? {
        Adds(m, OnRebootFinalStatus(m, c, e).m, TerminalStatus(m.job.jobId));
      } else {
        SameTame(m, OnRebootFinalStatus(m, c, e).m);
      }
    } else {
      SameTame(m, OnRebootFinalStatus(m, c, e).m);
    }
  }

  lemma SameTame(m: Engine, n: Engine)
    requires n.log == m.log
    requires (n.job.shouldReboot ==> m.job.shouldReboot) && (n.job.finalReported ==> m.job.finalReported)
    ensures Tame(m, n)
  {
  }

  lemma RebootVerdictTame(m: Engine, c: Cell, e: Env)
    ensures Tame(m, OnRebootVerdict(m, c, e).m)
  {
    hide AfterPublish, PendingSince, TerminalSince, VerdictFlags, Tame;
    var n := SetVerdict(m, VerdictFlags(e).isPassed, e);
    AfterPublishSameJob(n, e.publish, c, RebootCheck, e);
    SameTame(m, m);
    if e.publish.Fine? {
      Adds(m, n, TerminalStatus(m.job.jobId));
      TameSame(m, n, AfterPublish(n, e.publish, c, RebootCheck, e).m);
    } else {
      SameTame(m, AfterPublish(n, e.publish, c, RebootCheck, e).m);
    }
  }

  lemma TameSame(m: Engine, n: Engine, n': Engine)
    requires Tame(m, n) && SameFlags(n, n')
    ensures Tame(m, n')
  {
  }

  lemma RebootDropTame(m: Engine, e: Env)
    ensures Tame(m, DropRebootedJob(m))
    ensures Tame(m, OnRebootAccepted(m, e).m)
  {
    hide Fail, PendingSince, TerminalSince, Tame;
    var n := DropRebootedJob(m);
    Adds(m, n, NvsCleared);
    SameTame(m, m);
    FailSameJob(n, FatalUnexpectedFormat, e.errorPost, true);
    TameSame(m, n, Fail(n, FatalUnexpectedFormat, e.errorPost, true).m);
  }

  lemma RebootCheckTame(m: Engine, c: Cell, e: Env)
    ensures Tame(m, OnRebootCheck(m, c, e).m)
  {
    hide OnRebootFinalStatus, OnRebootVerdict, OnRebootAccepted, Tame, DropRebootedJob;
    RebootFinalStatusTame(m, c, e);
    RebootVerdictTame(m, c, e);
    RebootDropTame(m, e);
    SameTame(m, m);
    var n := DropRebootedJob(m);
    RejectedTame(m, n);
  }

  lemma RejectedTame(m: Engine, n: Engine)
    requires Tame(m, n)
    ensures Tame(m, n.(job := n.job.(details := DetailsRejected)))
  {
    TameSame(m, n, n.(job := n.job.(details := DetailsRejected)));
  }

  lemma FailSameJob(m: Engine, reason: ErrorReason, a: Alloc, free: bool)
    ensures SameJob(m, Fail(m, reason, a, free).m)
  {
  }

  lemma StartRoundTame(m: Engine, lists: JobLists, e: Env)
    ensures Tame(m, StartRound(m, lists, e).m)
  {
    hide GoTo, Fail, RoundIds, PendingSince, TerminalSince;
    FailSameJob(m, GetPendingInvalidFormat, e.errorPost, true);
    if lists.Lists? {
      GoToSameJob(Fill(m, lists), FetchingJobDoc, Plain(EmptyTransition), e);
    }
  }

  lemma FetchingJobDocTame(m: Engine, c: Cell, e: Env)
    ensures Tame(m, OnFetchingJobDoc(m, c, e).m)
  {
    hide GoTo, RaiseError, PendingSince, TerminalSince;
    GoToSameJob(m, JobExecution, Plain(EmptyTransition), e);
    if m.next < |m.ids| {
      SinceAppend(m.log, Described(m.ids[m.next]));
    }
  }

  /** The document handler changes which job is next, not the flags of the one before. */
  predicate SameFlags(m: Engine, n: Engine) {
    && n.log == m.log && n.job.shouldReboot == m.job.shouldReboot && n.job.finalReported == m.job.finalReported
    && n.job.hasActive == m.job.hasActive
  }

  lemma RejectDocSameJob(m: Engine, c: Cell, e: Env)
    ensures SameJob(m, RejectDoc(m, c, e).m)
  {
  }

  lemma DocumentSameFlags(m: Engine, d: Doc, c: Cell, e: Env)
    ensures SameFlags(m, OnDocument(m, d, c, e).m)
  {
    hide NextDoc, Fail, RejectDoc, JudgeInRound, Seen, ForeignDoc, SameFlags, Choose;
    SeenSameFlags(m, d, e.doc);
    var n := Seen(m, d, e.doc);
    match JudgeInRound(m.job, d, e.doc)
    case Ignore => NextDocSameFlags(m, n, e);
    case Accept(v) =>
      AcceptedHasImage(m.job, d, e.doc);
      ChooseSameFlags(m, n, d, v);
      NextDocSameFlags(m, Choose(n, d, v), e);
    case Broken => BrokenSameFlags(m, n, e);
    case Reject => RejectDocSameFlags(m, n, c, e);
    case Foreign => ForeignDocSameFlags(m, n, d, c, e);
  }

  lemma NextDocSameFlags(m: Engine, n: Engine, e: Env)
    requires SameFlags(m, n)
    ensures SameFlags(m, NextDoc(n, e).m)
  {
    hide GoTo;
    GoToSameJob(n, FetchingJobDoc, Plain(EmptyTransition), e);
  }

  lemma ChooseSameFlags(m: Engine, n: Engine, d: Doc, v: nat)
    requires SameFlags(m, n) && d.afr.Some?
    ensures SameFlags(m, Choose(n, d, v))
  {
  }

  lemma BrokenSameFlags(m: Engine, n: Engine, e: Env)
    requires SameFlags(m, n)
    ensures SameFlags(m, Fail(n.(job := n.job.(image := NO_IMAGE)), JobDocParseFailed, e.errorPost, true).m)
  {
    hide Fail;
    FailSameJob(n.(job := n.job.(image := NO_IMAGE)), JobDocParseFailed, e.errorPost, true);
  }

  lemma RejectDocSameFlags(m: Engine, n: Engine, c: Cell, e: Env)
    requires SameFlags(m, n)
    ensures SameFlags(m, RejectDoc(n, c, e).m)
  {
    hide RejectDoc;
    RejectDocSameJob(n, c, e);
  }

  lemma SeenSameFlags(m: Engine, d: Doc, e: DocEnv)
    ensures SameFlags(m, Seen(m, d, e)) && Seen(m, d, e).ev == m.ev
  {
    hide Judge, FiletypeAfter;
  }

  lemma ForeignDocSameFlags(m: Engine, n: Engine, d: Doc, c: Cell, e: Env)
    requires SameFlags(m, n)
    ensures SameFlags(m, ForeignDoc(n, d, c, e).m)
  {
    hide GoTo, RejectDoc;
    RejectDocSameJob(n, c, e);
    GoToSameJob(n.(job := n.job.(jobId := d.jobId), ids := [], next := 0, described := [], candidates := []),
                CustomJobExecution, Data(CustomJobExecutionRequested, Text, false), e);
  }

  lemma JobDocReceivedTame(m: Engine, c: Cell, e: Env)
    ensures SameFlags(m, OnJobDocReceived(m, c, e).m) && Tame(m, OnJobDocReceived(m, c, e).m)
  {
    hide OnDocument, GoTo, PendingSince, TerminalSince;
    GoToSameJob(m, FetchingJobDoc, Plain(EmptyTransition), e);
    if c.data.payload.Document? {
      DocumentSameFlags(m, c.data.payload.doc, c, e);
    }
  }

  lemma CustomSameFlags(m: Engine, c: Cell, e: Env)
    ensures SameFlags(m, OnCustomJobExecution(m, c, e).m)
  {
    hide GoTo, BackToIdle, ReportCustom;
    match c.data.event
    case CustomJobExecutionRequested =>
      GoToSameJob(m, CustomJobExecution, Data(CustomJobRejected, Text, false), e);
      GoToSameJob(m, CustomJobExecution, Data(CustomJobFailed, Text, false), e);
    case CustomJobProgress => ReportCustomSameFlags(m, InProgress, c, e);
    case CustomJobSucceeded => ReportCustomSameFlags(m, Succeeded, c, e);
    case CustomJobFailed => ReportCustomSameFlags(m, Failed, c, e);
    case CustomJobRejected => ReportCustomSameFlags(m, Rejected, c, e);
    case UpdateAccepted => BackToIdleSameJob(m, e);
    case _ =>
  }

  lemma BackToIdleSameJob(m: Engine, e: Env)
    ensures SameJob(m, BackToIdle(m, e).m)
  {
    hide PostEvent, RaiseError;
  }

  lemma ReportCustomSameFlags(m: Engine, status: JobStatus, c: Cell, e: Env)
    ensures SameFlags(m, ReportCustom(m, status, c, e).m)
  {
    hide AfterPublish;
    var n := if e.publish.Fine? then m.(job := m.job.(status := status)) else m;
    AfterPublishSameJob(n, e.publish, c, CustomJobExecution, e);
  }

  lemma ProgressedSameFlags(m: Engine, e: Env)
    ensures SameFlags(m, Progressed(m, e)) && Progressed(m, e).ev == m.ev && Progressed(m, e).state == m.state
    ensures Progressed(m, e).job.jobId == m.job.jobId
  {
  }

  lemma StartJobTame(m: Engine, e: Env)
    ensures Tame(m, StartJob(m, e)) && StartJob(m, e).ev == m.ev && StartJob(m, e).state == m.state
    ensures StartJob(m, e).job.hasActive && !StartJob(m, e).job.shouldReboot
  {
    hide Progressed, PendingSince, TerminalSince, Tame;
    var n := m.(job := m.job.(hasActive := true, shouldReboot := false, finalReported := false, finalQueued := false),
                log := m.log + [Started(m.job.jobId)]);
    Adds(m, n, Started(m.job.jobId));
    ProgressedSameFlags(n, e);
    TameSame(m, n, Progressed(n, e));
  }

  lemma FailDownloadSameJob(m: Engine, e: Env)
    ensures SameJob(m, FailDownload(m, e).m)
  {
    hide GoTo;
    GoToSameJob(m, PostDownload, Data(FinalStatusReportRequested, FinalStatus(DetailsFailed), false), e);
  }

  lemma JobExecutionTame(m: Engine, c: Cell, e: Env)
    ensures Tame(m, OnJobExecution(m, c, e).m)
  {
    hide FailDownload, PassOn, RaiseError, Tame, StartJob, Progressed;
    if !m.job.hasActive {
      StartJobTame(m, e);
      FailDownloadSameJob(StartJob(m, e), e);
      TameSame(m, StartJob(m, e), FailDownload(StartJob(m, e), e).m);
    } else {
      ActiveSameFlags(m, c, e);
      SameTame(m, OnJobExecution(m, c, e).m);
    }
  }

  lemma ActiveSameFlags(m: Engine, c: Cell, e: Env)
    requires m.job.hasActive
    ensures SameFlags(m, OnJobExecution(m, c, e).m)
  {
    hide FailDownload, PassOn, RaiseError, StartJob, Progressed;
    match c.data.event
    case ImageDownloadProgress => ProgressedSameFlags(m, e);
    case ImageDownloadSucceeded =>
      ProgressedSameFlags(m, e);
      PassOnSameJob(Progressed(m, e), PostDownload, c, e);
    case ImageDownloadFailed(_) => FailDownloadSameJob(m, e);
    case _ =>
  }

  lemma WaitingTame(m: Engine, c: Cell, e: Env, accepted: Event, rejected: Event, reason: ErrorReason, next: State)
    ensures SameJob(m, OnWaiting(m, c, e, accepted, rejected, reason, next).m)
  {
    hide PassOn, RaiseError;
    PassOnSameJob(StopTimer(m, e), next, c, e);
  }

  lemma IdleTame(m: Engine, c: Cell, e: Env)
    ensures SameJob(m, OnIdle(m, c, e).m)
    ensures SameJob(m, OnFetchingPendingJobs(m, c, e).m)
    ensures SameJob(m, OnError(m, c, e).m)
  {
    hide PassOn, GoTo, RaiseError, PostRecovery;
    GoToSameJob(m, FetchingPendingJobs, Plain(EmptyTransition), e);
    PassOnSameJob(m, JobsChangedState, c, e);
  }

  lemma HandleTame(m: Engine, c: Cell, e: Env)
    requires m.state != PostDownload
    ensures Tame(m, Handle(m, c, e).m)
  {
    hide OnNetworkInit, OnRebootCheck, OnIdle, OnFetchingPendingJobs, OnWaiting, OnFetchingJobDoc, OnJobDocReceived,
         OnJobExecution, OnCustomJobExecution, OnError, StartRound, RaiseError, PendingSince, TerminalSince;
    match m.state
    case Uninitialized =>
    case NetworkInit => NetworkInitTame(m, c, e);
    case RebootCheck => RebootCheckTame(m, c, e);
    case Idle => IdleTame(m, c, e);
    case JobsChangedState => if c.data.payload.Jobs? { StartRoundTame(m, c.data.payload.lists, e); }
    case FetchingPendingJobs => IdleTame(m, c, e);
    case WaitingForPendingJobs =>
      WaitingTame(m, c, e, PendingJobsAccepted, PendingJobsRejected, GetPendingRejected, PendingJobsReceived);
    case PendingJobsReceived => if c.data.payload.Jobs? { StartRoundTame(m, c.data.payload.lists, e); }
    case FetchingJobDoc => FetchingJobDocTame(m, c, e);
    case WaitingForJobDoc => WaitingTame(m, c, e, JobDocAccepted, JobDocRejected, DescribeJobRejected, JobDocReceived);
    case JobDocReceived => JobDocReceivedTame(m, c, e);
    case JobExecution => JobExecutionTame(m, c, e);
    case CustomJobExecution => CustomSameFlags(m, c, e); SameTame(m, Handle(m, c, e).m);
    case PostDownload =>
    case ErrorState => IdleTame(m, c, e);
  }

  /* ---------- POST_DOWNLOAD ---------- */

  /** What an output of a step must be backed by: a reboot is asked for only in POST_DOWNLOAD, on an accepted
      update, with nothing left in the status cache, by a job that wants one; a job is finished under the same
      circumstances when it wants no reboot and its final status is out. */
  predicate Licensed(m: Engine, c: Cell, e: Env, o: Output) {
    && (o.RebootRequested? ==>
          m.state == PostDownload && c.data.event == UpdateAccepted && e.cacheEmpty && m.job.shouldReboot
          && o.id == m.job.jobId)
    && (o.Finished? ==>
          m.state == PostDownload && c.data.event == UpdateAccepted && e.cacheEmpty && !m.job.shouldReboot
          && m.job.finalReported && o.id == m.job.jobId)
  }

  /** POST_DOWNLOAD is left for IDLE exactly by finishing the job, otherwise for ERROR. */
  predicate LeavesProperly(h: Handled) {
    || h.next == PostDownload
    || h.next == ErrorState
    || (h.next == Idle && h.m.log != [] && h.m.log[|h.m.log| - 1].Finished? && h.m.job == NO_JOB)
  }

  ghost predicate Adds1(m: Engine, c: Cell, e: Env, n: Engine) {
    n.log == m.log || (|m.log| < |n.log| && n.log == m.log + [n.log[|m.log|]] && Licensed(m, c, e, n.log[|m.log|]))
  }

  lemma FinalStatusStep(m: Engine, c: Cell, e: Env)
    requires m.state == PostDownload
    ensures var h := OnFinalStatus(m, c, e);
            Adds1(m, c, e, h.m) && (Tracks(m) ==> Tracks(h.m)) && LeavesProperly(h)
  {
    hide AfterPublish, Fail, PendingSince, TerminalSince, FinalOutcome, Plain;
    SinceAppend(m.log, TerminalStatus(m.job.jobId));
    FailSameJob(m, FatalUnexpectedFormat, e.errorPost, true);
    FailsToError(m, FatalUnexpectedFormat, e.errorPost, true);
    if c.data.payload.FinalStatus? {
      var sent := FinalOutcome(c.data.payload.details, e);
      AfterPublishSameJob(m, sent, c, Idle, e);
      AfterPublishStays(m, sent, c, Idle, e);
    }
  }

  lemma FailsToError(m: Engine, reason: ErrorReason, a: Alloc, free: bool)
    ensures Fail(m, reason, a, free).next == ErrorState
  {
  }

  lemma AfterPublishStays(m: Engine, sent: Outcome, c: Cell, retryState: State, e: Env)
    ensures var h := AfterPublish(m, sent, c, retryState, e);
            h.next == m.state || h.next == ErrorState
  {
  }

  lemma DownloadedStep(m: Engine, c: Cell, e: Env)
    requires m.state == PostDownload && c.data.event == ImageDownloadSucceeded
    ensures var n := OnDownloaded(m, c.data.flag);
            Adds1(m, c, e, n) && (Tracks(m) ==> Tracks(n))
  {
    hide PendingSince, TerminalSince;
    SinceAppend(m.log, PendingVerification(m.job.jobId, m.job.filetype));
  }

  lemma BackToIdleLeaves(m: Engine, e: Env)
    ensures BackToIdle(m, e).next == Idle || BackToIdle(m, e).next == ErrorState
  {
  }

  lemma UpdateAcceptedStep(m: Engine, c: Cell, e: Env)
    requires m.state == PostDownload && c.data.event == UpdateAccepted
    ensures var h := OnUpdateAccepted(m, e);
            Adds1(m, c, e, h.m) && (Tracks(m) ==> Tracks(h.m)) && LeavesProperly(h)
  {
    hide BackToIdle, PendingSince, TerminalSince;
    SinceAppend(m.log, RebootRequested(m.job.jobId));
    var n := m.(job := NO_JOB, log := m.log + [Finished(m.job.jobId)]);
    BackToIdleSameJob(n, e);
    BackToIdleLeaves(n, e);
  }

  lemma PostDownloadEventStep(m: Engine, c: Cell, e: Env)
    requires m.state == PostDownload
    ensures var h := OnPostDownloadEvent(m, c, e);
            Adds1(m, c, e, h.m) && (Tracks(m) ==> Tracks(h.m)) && LeavesProperly(h)
  {
    hide OnFinalStatus, OnUpdateAccepted, OnDownloaded, Adds1, Tracks;
    match c.data.event
    case FinalStatusReportRequested => FinalStatusStep(m, c, e);
    case ImageDownloadSucceeded => DownloadedStep(m, c, e); DownloadedStays(m, c.data.flag);
    case UpdateAccepted => UpdateAcceptedStep(m, c, e);
    case _ => SameAdds(m, c, e);
  }

  lemma DownloadedStays(m: Engine, reboot: bool)
    ensures OnDownloaded(m, reboot).state == m.state
  {
  }

  lemma SameAdds(m: Engine, c: Cell, e: Env)
    ensures Adds1(m, c, e, m)
  {
  }

  /** The status queued during the download goes out first; then the event is handled. */
  lemma PostDownloadStep(m: Engine, c: Cell, e: Env)
    requires m.state == PostDownload
    ensures var h := OnPostDownload(m, c, e);
            && m.log <= h.m.log && (Tracks(m) ==> Tracks(h.m)) && LeavesProperly(h)
            && forall p | |m.log| <= p < |h.m.log| :: Licensed(m, c, e, h.m.log[p])
  {
    hide OnPostDownloadEvent, AfterPublish, PendingSince, TerminalSince, FinalOutcome;
    PostDownloadEventStep(m, c, e);
    if m.job.finalQueued {
      var sent := FinalOutcome(m.job.details, e);
      AfterPublishSameJob(m, sent, c, PostDownload, e);
      AfterPublishStays(m, sent, c, PostDownload, e);
      if sent.Fine? {
        QueuedStatusStep(m, c, e);
      }
    }
  }

  lemma QueuedStatusStep(m: Engine, c: Cell, e: Env)
    requires m.state == PostDownload
    ensures var n := FinalSent(m, m.job.details);
            var h := OnPostDownloadEvent(n.(job := n.job.(finalQueued := false)), c, e);
            && m.log <= h.m.log && (Tracks(m) ==> Tracks(h.m)) && LeavesProperly(h)
            && forall p | |m.log| <= p < |h.m.log| :: Licensed(m, c, e, h.m.log[p])
  {
    hide OnPostDownloadEvent, PendingSince, TerminalSince;
    SinceAppend(m.log, TerminalStatus(m.job.jobId));
    var n := FinalSent(m, m.job.details);
    PostDownloadEventStep(n.(job := n.job.(finalQueued := false)), c, e);
  }

  /* ---------- Over runs ---------- */

  ghost predicate Disciplined(m: Engine, s: Step, n: Engine) {
    && m.log <= n.log
    && (forall p | |m.log| <= p < |n.log| && Final(n.log[p]) ::
          s.Run? && m.ev.queue != [] && Licensed(m, m.ev.queue[0], s.env, n.log[p]))
    && (m.state == PostDownload && n.state != PostDownload ==>
          n.state == ErrorState || (n.state == Idle && n.log != [] && n.log[|n.log| - 1].Finished? && n.job == NO_JOB))
  }

  lemma RunDisciplined(m: Engine, e: Env)
    requires m.ev.queue != []
    ensures Disciplined(m, Run(e), RunOnce(m, e)) && (Tracks(m) ==> Tracks(RunOnce(m, e)))
  {
    hide Handle, PendingSince, TerminalSince, Tame, LeavesProperly, Licensed, Disciplined;
    var n, c := m.(ev := Pop(m.ev)), m.ev.queue[0];
    if c.data.event == ErrorOccurred || !m.ev.initialized {
      QuietRun(m, e);
    } else if m.state == PostDownload {
      PostDownloadStep(n, c, e);
      HandlesPostDownload(n, c, e);
      PostDownloadRun(m, e);
    } else {
      HandleTame(n, c, e);
      TameRun(m, e);
    }
  }

  lemma QuietRun(m: Engine, e: Env)
    requires m.ev.queue != [] && (m.ev.queue[0].data.event == ErrorOccurred || !m.ev.initialized)
    ensures Disciplined(m, Run(e), RunOnce(m, e)) && (Tracks(m) ==> Tracks(RunOnce(m, e)))
  {
    hide Handle, PendingSince, TerminalSince;
  }

  lemma TameRun(m: Engine, e: Env)
    requires m.ev.queue != [] && m.ev.initialized && m.ev.queue[0].data.event != ErrorOccurred
    requires m.state != PostDownload
    requires Tame(m.(ev := Pop(m.ev)), Handle(m.(ev := Pop(m.ev)), m.ev.queue[0], e).m)
    ensures Disciplined(m, Run(e), RunOnce(m, e)) && (Tracks(m) ==> Tracks(RunOnce(m, e)))
  {
    hide Handle, PendingSince, TerminalSince;
  }

  lemma PostDownloadRun(m: Engine, e: Env)
    requires m.ev.queue != [] && m.ev.initialized && m.ev.queue[0].data.event != ErrorOccurred
    requires m.state == PostDownload
    requires var n, c := m.(ev := Pop(m.ev)), m.ev.queue[0];
             var h := Handle(n, c, e);
             && n.log <= h.m.log && (Tracks(n) ==> Tracks(h.m)) && LeavesProperly(h)
             && forall p | |n.log| <= p < |h.m.log| :: Licensed(n, c, e, h.m.log[p])
    ensures Disciplined(m, Run(e), RunOnce(m, e)) && (Tracks(m) ==> Tracks(RunOnce(m, e)))
  {
    hide Handle, PendingSince, TerminalSince;
  }

  lemma HandlesPostDownload(m: Engine, c: Cell, e: Env)
    requires m.state == PostDownload
    ensures Handle(m, c, e) == OnPostDownload(m, c, e)
  {
  }

  lemma NextDisciplined(m: Engine, s: Step)
    requires Enabled(m, s) && (m.ev.initialized || m.state == Uninitialized || m.state == NetworkInit)
    ensures Disciplined(m, s, Next(m, s)) && (Tracks(m) ==> Tracks(Next(m, s)))
  {
    hide RunOnce, PostEvent, PostIgnored, RaiseError, PendingSince, TerminalSince;
    match s
    case Run(e) => RunDisciplined(m, e);
    case TerminalConfirmed(id) => SinceAppend(m.log, TerminalStatus(id));
    case Initialize(a, accepted) => InitKeepsLog(m, a, accepted);
    case _ =>
  }

  lemma InitKeepsLog(m: Engine, a: Alloc, accepted: seq<bool>)
    requires |accepted| == |m.ev.preInit|
    ensures var n := Init(m, a, accepted);
            n.log == m.log && n.job.shouldReboot == m.job.shouldReboot && n.job.finalReported == m.job.finalReported
  {
    hide Open;
  }

  lemma {:induction false} TracksOverRuns(ms: seq<Engine>, steps: seq<Step>, k: nat)
    requires IsRun(ms, steps) && k < |ms|
    ensures Tracks(ms[k])
    decreases k
  {
    if k == 0 {
      var poolSize, hasCb :| ms[0] == Fresh(poolSize, hasCb);
    } else {
      hide Tracks, Disciplined, Next, Enabled;
      TracksOverRuns(ms, steps, k - 1);
      BeforeInit(ms, steps, k - 1);
      NextDisciplined(ms[k - 1], steps[k - 1]);
    }
  }

  /** Whatever the environment does: a reboot is requested only in POST_DOWNLOAD, on an accepted update, with the
      status cache empty, and after a pending-verification write since the job was started; a job is finished
      only there, with no reboot pending and a terminal status out; and POST_DOWNLOAD is left only by that or
      for ERROR. */
  lemma RebootDiscipline(ms: seq<Engine>, steps: seq<Step>, k: nat, p: nat)
    requires IsRun(ms, steps) && k < |steps| && |ms[k].log| <= p < |ms[k + 1].log|
    ensures var m, o := ms[k], ms[k + 1].log[p];
            && (o.RebootRequested? ==>
                  m.state == PostDownload && m.ev.queue[0].data.event == UpdateAccepted && steps[k].env.cacheEmpty
                  && PendingSince(m.log).Some? && o.id == m.job.jobId)
            && (o.Finished? ==>
                  m.state == PostDownload && m.ev.queue[0].data.event == UpdateAccepted && steps[k].env.cacheEmpty
                  && !m.job.shouldReboot && TerminalSince(m.log) && o.id == m.job.jobId)
  {
    hide PendingSince, TerminalSince;
    TracksOverRuns(ms, steps, k);
    BeforeInit(ms, steps, k);
    NextDisciplined(ms[k], steps[k]);
    assert ms[k + 1] == Next(ms[k], steps[k]);
  }

  lemma PostDownloadExits(ms: seq<Engine>, steps: seq<Step>, k: nat)
    requires IsRun(ms, steps) && k < |steps| && ms[k].state == PostDownload && ms[k + 1].state != PostDownload
    ensures ms[k + 1].state == ErrorState || ms[k + 1].state == Idle
    ensures ms[k + 1].state == Idle ==>
              |ms[k + 1].log| > 0 && ms[k + 1].log[|ms[k + 1].log| - 1].Finished? && ms[k + 1].job == NO_JOB
  {
    hide PendingSince, TerminalSince;
    BeforeInit(ms, steps, k);
    NextDisciplined(ms[k], steps[k]);
    assert ms[k + 1] == Next(ms[k], steps[k]);
  }

  lemma RebootReportLeaves(m: Engine, c: Cell, e: Env)
    requires m.state == RebootCheck
    ensures OnRebootFinalStatus(m, c, e).next == RebootCheck || OnRebootFinalStatus(m, c, e).next == ErrorState
    ensures OnRebootVerdict(m, c, e).next == RebootCheck || OnRebootVerdict(m, c, e).next == ErrorState
  {
    hide EnterError, RaiseErrorKeeping, FinalOutcome, VerdictFlags;
  }

  /** REBOOT_CHECK is left with the record cleared, or for ERROR. */
  lemma RebootCheckLeaves(m: Engine, c: Cell, e: Env)
    requires m.state == RebootCheck
    ensures var h := OnRebootCheck(m, c, e);
            || h.next == RebootCheck || h.next == ErrorState
            || (h.next == Idle && h.m.log == m.log + [NvsCleared] && h.m.job.jobId == "")
  {
    hide EnterError, OnRebootFinalStatus, OnRebootVerdict;
    RebootReportLeaves(m, c, e);
  }

  lemma HandlesRebootCheck(m: Engine, c: Cell, e: Env)
    requires m.state == RebootCheck
    ensures Handle(m, c, e) == OnRebootCheck(m, c, e)
  {
    hide OnRebootCheck;
  }

  lemma RebootCheckRun(m: Engine, e: Env)
    requires m.state == RebootCheck && m.ev.initialized && m.ev.queue != []
    ensures var n := RunOnce(m, e);
            || n.state == RebootCheck || n.state == ErrorState
            || (n.state == Idle && n.log == m.log + [NvsCleared] && n.job.jobId == "")
  {
    hide Handle, OnRebootCheck;
    if m.ev.queue[0].data.event != ErrorOccurred {
      HandlesRebootCheck(m.(ev := Pop(m.ev)), m.ev.queue[0], e);
      RebootCheckLeaves(m.(ev := Pop(m.ev)), m.ev.queue[0], e);
    }
  }

  /** The reboot check ends either with its record cleared and its job forgotten, or in ERROR. */
  lemma RebootCheckExits(ms: seq<Engine>, steps: seq<Step>, k: nat)
    requires IsRun(ms, steps) && k < |steps| && ms[k].state == RebootCheck && ms[k + 1].state != RebootCheck
    ensures ms[k + 1].state == ErrorState || ms[k + 1].state == Idle
    ensures ms[k + 1].state == Idle ==> ms[k + 1].log == ms[k].log + [NvsCleared] && ms[k + 1].job.jobId == ""
  {
    hide RunOnce;
    BeforeInit(ms, steps, k);
    assert ms[k + 1] == Next(ms[k], steps[k]);
    if steps[k].Run? {
      RebootCheckRun(ms[k], steps[k].env);
    }
  }
}
