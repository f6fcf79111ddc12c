/** Fetch rounds: the ids are described once each and in order, every round ends, and the job that is executed
    is the best document the round has seen. */
module OtaRounds {
  import opened Wrappers
  import opened OtaTypes
  import opened OtaSpec
  import opened OtaLiveness
  import Version
  import DownloadWindow

  /* ---------- What an acceptable document is ---------- */

  /** The running release, the offered release, and what the job demands of the running one. */
  ghost predicate Upgrade(running: string, offered: string, demanded: string, version: nat) {
    exists r, t ::
      && Version.Denotes(running, r) && Version.Denotes(offered, t) && r.Less(t) && version == Version.Pack(t)
      && (demanded != "" ==> exists q :: Version.Denotes(demanded, q) && !r.Less(q))
  }

  /** Under the default handler an accepted document offers a release strictly above the running one, in the
      order of the version triples, and the running one satisfies the demanded minimum. */
  lemma AcceptedIsUpgrade(d: Doc, e: DocEnv)
    requires Judge(d, e).Accept? && d.filetype == ""
    ensures Upgrade(e.runningVersion, d.fwVersion, d.minFwVersion, Judge(d, e).version)
  {
    var r, t := Version.Parse(e.runningVersion).value, Version.Parse(d.fwVersion).value;
    Version.ParseIsGrammar(e.runningVersion, r);
    Version.ParseIsGrammar(d.fwVersion, t);
    PackLess(r, t);
    if d.minFwVersion != "" {
      var q := Version.Parse(d.minFwVersion).value;
      Version.ParseIsGrammar(d.minFwVersion, q);
      PackLess(r, q);
    }
  }

  lemma PackLess(a: Version.Triple, b: Version.Triple)
    requires a.InRange() && b.InRange()
    ensures Version.Pack(a) < Version.Pack(b) <==> a.Less(b)
  {
    Version.PackIsOrder(a, b);
  }

  /* ---------- The best document so far ---------- */

  /** `i` is the last of the candidates with the greatest version. */
  ghost predicate LastGreatest(cs: seq<Candidate>, i: nat) {
    && i < |cs|
    && (forall j | 0 <= j < |cs| :: cs[j].version <= cs[i].version)
    && (forall j | i < j < |cs| :: cs[j].version < cs[i].version)
  }

  ghost predicate Genuine(c: Candidate) {
    Judge(c.doc, c.env) == Accept(c.version) && c.doc.afr.Some?
  }

  predicate Chosen(job: Job, c: Candidate) {
    job.jobId == c.doc.jobId && job.fwVersion == c.version && c.doc.afr == Some(job.image)
  }

  /** The pending job is the last acceptable document with the greatest version, if there is any. */
  ghost predicate Best(job: Job, cs: seq<Candidate>) {
    && (forall c | c in cs :: Genuine(c))
    && (job.hasPending <==> cs != [])
    && (job.hasPending ==> exists i: nat :: LastGreatest(cs, i) && Chosen(job, cs[i]))
  }

  predicate InRound(s: State) {
    s == FetchingJobDoc || s == WaitingForJobDoc || s == JobDocReceived
  }

  ghost predicate RoundInv(m: Engine) {
    && m.next <= |m.ids| <= OTA_JOB_ID_QUEUE_SIZE
    && m.described == m.ids[..m.next]
    && (InRound(m.state) || m.ev.recovery.state == JobDocReceived ==> Best(m.job, m.candidates))
  }

  lemma ChosenNext(m: Engine, d: Doc, e: DocEnv)
    requires Best(m.job, m.candidates) && JudgeInRound(m.job, d, e).Accept?
    ensures var n := Choose(Seen(m, d, e), d, JudgeInRound(m.job, d, e).version);
            Best(n.job, n.candidates)
  {
    var n := Choose(Seen(m, d, e), d, JudgeInRound(m.job, d, e).version);
    assert Judge(d, e) == JudgeInRound(m.job, d, e);
    var i := |m.candidates|;
    assert n.candidates[i] == Candidate(d, e, Judge(d, e).version);
    assert LastGreatest(n.candidates, i) && Chosen(n.job, n.candidates[i]);
  }

  /** A document that is not taken leaves the choice as it was, even if it was acceptable on its own. */
  lemma ChoiceStands(m: Engine, d: Doc, e: DocEnv)
    requires Best(m.job, m.candidates) && !JudgeInRound(m.job, d, e).Accept?
    ensures var n := Seen(m, d, e); Best(n.job, n.candidates)
  {
    var n := Seen(m, d, e);
    if n.candidates != m.candidates {
      var i: nat :| LastGreatest(m.candidates, i) && Chosen(m.job, m.candidates[i]);
      assert n.candidates[i] == m.candidates[i];
      assert LastGreatest(n.candidates, i) && Chosen(n.job, n.candidates[i]);
    }
  }

  /* ---------- Handlers and the round ---------- */

  /** The round data after a handler, in the state it moves to. */
  ghost predicate RoundKept(h: Handled) {
    RoundInv(h.m.(state := h.next))
  }

  lemma RecoveryStateAfterError(ev: Events, reason: ErrorReason, a: Alloc)
    ensures RaiseError(ev, reason, a).recovery.state != JobDocReceived
  {
    PostExtends(SetRecovery(ev, reason, RecoveryFor(reason)), Plain(ErrorOccurred), a);
  }

  lemma RecoveryStateKept(ev: Events, state: State, c: Cell, a: Alloc)
    ensures RaiseErrorKeeping(ev, state, c, a).recovery.state == state
  {
    PostExtends(SetRecovery(ev, RetryWithBackoff, Recovery(state, Some(c), ErrorOccurred)), Plain(ErrorOccurred), a);
  }

  /** The handler did not touch the round and stays out of it. */
  predicate OutOfRound(m: Engine, h: Handled) {
    && h.m.ids == m.ids && h.m.next == m.next && h.m.described == m.described
    && !InRound(h.next) && h.m.ev.recovery.state != JobDocReceived
  }

  lemma FailOut(m: Engine, reason: ErrorReason, a: Alloc, free: bool)
    ensures OutOfRound(m, Fail(m, reason, a, free))
    ensures EnterError(m, reason, a).ev.recovery.state != JobDocReceived
  {
    RecoveryStateAfterError(m.ev, reason, a);
  }

  lemma GoToOut(m: Engine, next: State, d: Data, e: Env)
    requires m.ev.recovery.state != JobDocReceived && !InRound(next)
    ensures OutOfRound(m, GoTo(m, next, d, e))
  {
    PostExtends(m.ev, d, e.post);
    FailOut(m.(ev := Post(m.ev, d, e.post).ev), RetryWithBackoff, e.errorPost, true);
  }

  lemma PassOnOut(m: Engine, next: State, c: Cell, e: Env)
    requires m.ev.recovery.state != JobDocReceived && !InRound(next)
    ensures OutOfRound(m, PassOn(m, next, c, e))
  {
    HandOverExtends(m.ev, c, e.handOverOk);
    FailOut(m.(ev := HandOver(m.ev, c, e.handOverOk).ev), RetryWithBackoff, e.errorPost, false);
  }

  lemma BackToIdleOut(m: Engine, e: Env)
    requires m.ev.recovery.state != JobDocReceived
    ensures OutOfRound(m, BackToIdle(m, e))
  {
    PostExtends(m.ev, Plain(FetchRequested), e.post);
    FailOut(m.(ev := PostEvent(m.ev, Plain(FetchRequested), e.post).ev), RetryWithBackoff, e.errorPost, true);
  }

  lemma AfterPublishOut(m: Engine, sent: Outcome, c: Cell, retryState: State, e: Env)
    requires m.ev.recovery.state != JobDocReceived && !InRound(m.state) && retryState != JobDocReceived
    ensures OutOfRound(m, AfterPublish(m, sent, c, retryState, e))
  {
    FailOut(m, FatalUnexpectedFormat, e.errorPost, true);
    RecoveryStateKept(m.ev, retryState, c, e.errorPost);
  }

  lemma NetworkInitOut(m: Engine, c: Cell, e: Env)
    requires m.state == NetworkInit && m.ev.recovery.state != JobDocReceived
    ensures OutOfRound(m, OnNetworkInit(m, c, e))
  {
    hide PostEvent, RaiseError;
    FailOut(m.(subIntended := true), SubscriptionFailed, e.errorPost, true);
    ToIdleRecovery(m.ev, e);
  }

  lemma ToIdleRecovery(ev: Events, e: Env)
    ensures PostEvent(ev, Plain(EmptyTransition), e.post).ev.recovery == ev.recovery
  {
    PostExtends(ev, Plain(EmptyTransition), e.post);
  }

  lemma RebootFinalStatusOut(m: Engine, c: Cell, e: Env)
    requires m.state == RebootCheck && m.ev.recovery.state != JobDocReceived
    ensures OutOfRound(m, OnRebootFinalStatus(m, c, e))
  {
    if !c.data.payload.FinalStatus? {
      FailOut(m, FatalUnexpectedFormat, e.errorPost, true);
    } else if !FinalOutcome(c.data.payload.details, e).Fine? {
      AfterPublishOut(m, FinalOutcome(c.data.payload.details, e), c, RebootCheck, e);
    }
  }

  lemma RebootVerdictOut(m: Engine, c: Cell, e: Env)
    requires m.state == RebootCheck && m.ev.recovery.state != JobDocReceived
    ensures OutOfRound(m, OnRebootVerdict(m, c, e))
  {
    hide AfterPublish;
    AfterPublishOut(SetVerdict(m, VerdictFlags(e).isPassed, e), e.publish, c, RebootCheck, e);
  }

  lemma RebootCheckOut(m: Engine, c: Cell, e: Env)
    requires m.state == RebootCheck && m.ev.recovery.state != JobDocReceived
    ensures OutOfRound(m, OnRebootCheck(m, c, e))
  {
    hide OnRebootFinalStatus, OnRebootVerdict, EnterError;
    match c.data.event
    case FinalStatusReportRequested => RebootFinalStatusOut(m, c, e);
    case RebootCheckRequested => RebootVerdictOut(m, c, e);
    case UpdateAccepted => FailOut(DropRebootedJob(m), FatalUnexpectedFormat, e.errorPost, true);
    case UpdateRejected =>
    case _ =>
  }

  lemma IdleOut(m: Engine, c: Cell, e: Env)
    requires m.state == Idle && m.ev.recovery.state != JobDocReceived
    ensures OutOfRound(m, OnIdle(m, c, e))
  {
    hide GoTo, PassOn;
    GoToOut(m, FetchingPendingJobs, Plain(EmptyTransition), e);
    PassOnOut(m, JobsChangedState, c, e);
  }

  lemma FetchingPendingJobsOut(m: Engine, c: Cell, e: Env)
    requires m.state == FetchingPendingJobs && m.ev.recovery.state != JobDocReceived
    ensures OutOfRound(m, OnFetchingPendingJobs(m, c, e))
  {
    hide RaiseError;
    RecoveryStateAfterError(m.ev, RetryWithBackoff, e.errorPost);
    RecoveryStateAfterError(m.ev, TimeoutHandlerRestartFailed, e.errorPost);
  }

  lemma WaitingForPendingJobsOut(m: Engine, c: Cell, e: Env)
    requires m.state == WaitingForPendingJobs && m.ev.recovery.state != JobDocReceived
    ensures OutOfRound(m, Handle(m, c, e))
  {
    hide EnterError, PassOn;
    match c.data.event
    case PendingJobsAccepted => PassOnOut(StopTimer(m, e), PendingJobsReceived, c, e);
    case PendingJobsRejected => StayFailedOut(m, StopTimer(m, e), GetPendingRejected, e);
    case Timeout => StayFailedOut(m, m, RetryWithBackoff, e);
    case _ =>
  }

  lemma StayFailedOut(m: Engine, n: Engine, reason: ErrorReason, e: Env)
    requires n.ids == m.ids && n.next == m.next && n.described == m.described && !InRound(n.state)
    ensures OutOfRound(m, Stay(EnterError(n, reason, e.errorPost)))
  {
    FailOut(n, reason, e.errorPost, true);
  }

  lemma ReportCustomOut(m: Engine, status: JobStatus, c: Cell, e: Env)
    requires m.state == CustomJobExecution && m.ev.recovery.state != JobDocReceived
    ensures OutOfRound(m, ReportCustom(m, status, c, e))
  {
    var n := if e.publish.Fine? then m.(job := m.job.(status := status)) else m;
    AfterPublishOut(n, e.publish, c, CustomJobExecution, e);
  }

  lemma CustomOut(m: Engine, c: Cell, e: Env)
    requires m.state == CustomJobExecution && m.ev.recovery.state != JobDocReceived
    ensures OutOfRound(m, OnCustomJobExecution(m, c, e))
  {
    match c.data.event
    case CustomJobExecutionRequested =>
      GoToOut(m, CustomJobExecution, Data(CustomJobRejected, Text, false), e);
      GoToOut(m, CustomJobExecution, Data(CustomJobFailed, Text, false), e);
    case CustomJobProgress => ReportCustomOut(m, InProgress, c, e);
    case CustomJobSucceeded => ReportCustomOut(m, Succeeded, c, e);
    case CustomJobFailed => ReportCustomOut(m, Failed, c, e);
    case CustomJobRejected => ReportCustomOut(m, Rejected, c, e);
    case UpdateAccepted => BackToIdleOut(m, e);
    case _ =>
  }

  lemma JobExecutionOut(m: Engine, c: Cell, e: Env)
    requires m.state == JobExecution && m.ev.recovery.state != JobDocReceived
    ensures OutOfRound(m, OnJobExecution(m, c, e))
  {
    var failed := Data(FinalStatusReportRequested, FinalStatus(DetailsFailed), false);
    if !m.job.hasActive {
      GoToOut(StartJob(m, e), PostDownload, failed, e);
    } else {
      match c.data.event
      case ImageDownloadSucceeded => PassOnOut(Progressed(m, e), PostDownload, c, e);
      case Timeout => FailOut(m, RetryWithBackoff, e.errorPost, true);
      case ImageDownloadFailed(_) => GoToOut(m, PostDownload, failed, e);
      case _ =>
    }
  }

  lemma FinalStatusOut(m: Engine, c: Cell, e: Env)
    requires m.state == PostDownload && m.ev.recovery.state != JobDocReceived
    ensures OutOfRound(m, OnFinalStatus(m, c, e))
  {
    hide AfterPublish, Fail, FinalOutcome;
    FailOut(m, FatalUnexpectedFormat, e.errorPost, true);
    if c.data.payload.FinalStatus? {
      AfterPublishOut(m, FinalOutcome(c.data.payload.details, e), c, Idle, e);
    }
  }

  lemma PostDownloadEventOut(m: Engine, c: Cell, e: Env)
    requires m.state == PostDownload && m.ev.recovery.state != JobDocReceived
    ensures OutOfRound(m, OnPostDownloadEvent(m, c, e))
  {
    hide OnFinalStatus, BackToIdle;
    match c.data.event
    case FinalStatusReportRequested => FinalStatusOut(m, c, e);
    case UpdateAccepted => BackToIdleOut(m.(job := NO_JOB, log := m.log + [Finished(m.job.jobId)]), e);
    case _ =>
  }

  lemma PostDownloadOut(m: Engine, c: Cell, e: Env)
    requires m.state == PostDownload && m.ev.recovery.state != JobDocReceived
    ensures OutOfRound(m, OnPostDownload(m, c, e))
  {
    hide OnPostDownloadEvent;
    PostDownloadEventOut(m, c, e);
    var n := FinalSent(m, m.job.details);
    PostDownloadEventOut(n.(job := n.job.(finalQueued := false)), c, e);
    AfterPublishOut(m, FinalOutcome(m.job.details, e), c, PostDownload, e);
  }


  lemma StartRoundKept(m: Engine, lists: JobLists, e: Env)
    requires RoundInv(m) && !Retained(m.ev.recovery)
    ensures RoundKept(StartRound(m, lists, e))
  {
    if lists.Malformed? {
      FailOut(m, GetPendingInvalidFormat, e.errorPost, true);
    } else {
      var n := Fill(m, lists);
      PostExtends(n.ev, Plain(EmptyTransition), e.post);
      FailOut(n.(ev := Post(n.ev, Plain(EmptyTransition), e.post).ev), RetryWithBackoff, e.errorPost, true);
    }
  }

  lemma NextDocKept(m: Engine, e: Env)
    requires RoundInv(m) && Best(m.job, m.candidates) && m.ev.recovery.state != JobDocReceived
    ensures RoundKept(NextDoc(m, e))
  {
    PostExtends(m.ev, Plain(EmptyTransition), e.post);
    FailOut(m.(ev := Post(m.ev, Plain(EmptyTransition), e.post).ev), RetryWithBackoff, e.errorPost, true);
  }

  lemma RejectDocKept(m: Engine, c: Cell, e: Env)
    requires RoundInv(m) && Best(m.job, m.candidates) && m.ev.recovery.state != JobDocReceived
    ensures RoundKept(RejectDoc(m, c, e))
  {
    FailOut(m, FatalUnexpectedFormat, e.errorPost, true);
    NextDocKept(m, e);
  }

  lemma ForeignDocKept(m: Engine, d: Doc, c: Cell, e: Env)
    requires RoundInv(m) && Best(m.job, m.candidates) && m.ev.recovery.state != JobDocReceived
    ensures RoundKept(ForeignDoc(m, d, c, e))
  {
    if m.hasCustomJobCb {
      GoToOut(m.(job := m.job.(jobId := d.jobId), ids := [], next := 0, described := [], candidates := []),
              CustomJobExecution, Data(CustomJobExecutionRequested, Text, false), e);
    } else {
      RejectDocKept(m, c, e);
    }
  }

  lemma DocumentKept(m: Engine, d: Doc, c: Cell, e: Env)
    requires RoundInv(m) && m.state == JobDocReceived && m.ev.recovery.state != JobDocReceived
    ensures RoundKept(OnDocument(m, d, c, e))
  {
    var n := Seen(m, d, e.doc);
    if JudgeInRound(m.job, d, e.doc).Accept? {
      ChosenNext(m, d, e.doc);
    } else {
      ChoiceStands(m, d, e.doc);
    }
    hide Best, RoundKept;
    match JudgeInRound(m.job, d, e.doc)
    case Ignore => NextDocKept(n, e);
    case Accept(v) => NextDocKept(Choose(n, d, v), e);
    case Broken => BrokenKept(n, e);
    case Reject => RejectDocKept(n, c, e);
    case Foreign => ForeignDocKept(n, d, c, e);
  }

  lemma BrokenKept(m: Engine, e: Env)
    requires RoundInv(m)
    ensures RoundKept(Fail(m.(job := m.job.(image := NO_IMAGE)), JobDocParseFailed, e.errorPost, true))
  {
    FailOut(m.(job := m.job.(image := NO_IMAGE)), JobDocParseFailed, e.errorPost, true);
  }

  lemma JobDocReceivedKept(m: Engine, c: Cell, e: Env)
    requires RoundInv(m) && m.state == JobDocReceived && m.ev.recovery.state != JobDocReceived
    ensures RoundKept(OnJobDocReceived(m, c, e))
  {
    if c.data.event == JobDocAccepted {
      if c.data.payload.Document? {
        DocumentKept(m, c.data.payload.doc, c, e);
      } else {
        NextDocKept(m, e);
      }
    }
  }

  lemma FetchingJobDocKept(m: Engine, c: Cell, e: Env)
    requires RoundInv(m) && m.state == FetchingJobDoc && m.ev.recovery.state != JobDocReceived
    ensures RoundKept(OnFetchingJobDoc(m, c, e))
  {
    if c.data.event == EmptyTransition {
      if m.next >= |m.ids| {
        GoToOut(m, JobExecution, Plain(EmptyTransition), e);
      } else {
        var id := m.ids[m.next];
        assert m.described + [id] == m.ids[..m.next + 1];
        RecoveryStateAfterError(m.ev, RetryWithBackoff, e.errorPost);
        RecoveryStateAfterError(m.ev, TimeoutHandlerRestartFailed, e.errorPost);
      }
    }
  }

  lemma PassOnDocKept(m: Engine, c: Cell, e: Env)
    requires RoundInv(m) && Best(m.job, m.candidates) && m.ev.recovery.state != JobDocReceived
    ensures RoundKept(PassOn(m, JobDocReceived, c, e))
  {
    hide Best;
    HandOverExtends(m.ev, c, e.handOverOk);
    FailOut(m.(ev := HandOver(m.ev, c, e.handOverOk).ev), RetryWithBackoff, e.errorPost, false);
  }

  lemma WaitingForJobDocKept(m: Engine, c: Cell, e: Env)
    requires RoundInv(m) && m.state == WaitingForJobDoc && m.ev.recovery.state != JobDocReceived
    ensures RoundKept(Handle(m, c, e))
  {
    hide Best, RaiseError, PassOn;
    if c.data.event == JobDocAccepted {
      PassOnDocKept(StopTimer(m, e), c, e);
    } else {
      RecoveryStateAfterError(m.ev, DescribeJobRejected, e.errorPost);
      RecoveryStateAfterError(m.ev, RetryWithBackoff, e.errorPost);
    }
  }

  lemma PostRecoveryState(ev: Events, e: Env)
    ensures PostRecovery(ev, e).ev.recovery.state == ev.recovery.state
  {
    var r := ev.recovery;
    if r.cell.Some? {
      HandOverExtends(ev.(recovery := r.(cell := None)), r.cell.value, e.handOverOk);
    } else {
      PostExtends(ev, Plain(r.event), e.post);
    }
  }

  lemma ErrorStateKept(m: Engine, c: Cell, e: Env)
    requires RoundInv(m) && m.state == ErrorState
    requires WellFormed(m.ev.recovery)
    ensures RoundKept(OnError(m, c, e))
  {
    hide Best, PostRecovery;
    PostRecoveryState(m.ev, e);
  }

  lemma OutOfRoundKept(m: Engine, h: Handled)
    requires RoundInv(m) && OutOfRound(m, h)
    ensures RoundKept(h)
  {
  }

  lemma HandleKept(m: Engine, c: Cell, e: Env)
    requires RoundInv(m) && Popped(m, c)
    ensures RoundKept(Handle(m, c, e))
  {
    hide RoundInv, RoundKept, OutOfRound;
    match m.state
    case Uninitialized => StayKept(m);
    case NetworkInit => NetworkInitOut(m, c, e); OutOfRoundKept(m, OnNetworkInit(m, c, e));
    case RebootCheck => RebootCheckOut(m, c, e); OutOfRoundKept(m, OnRebootCheck(m, c, e));
    case Idle => IdleOut(m, c, e); OutOfRoundKept(m, OnIdle(m, c, e));
    case JobsChangedState =>
      StayKept(m);
      if c.data.payload.Jobs? { StartRoundKept(m, c.data.payload.lists, e); }
      IdleKept(m);
    case FetchingPendingJobs => FetchingPendingJobsOut(m, c, e); OutOfRoundKept(m, OnFetchingPendingJobs(m, c, e));
    case WaitingForPendingJobs => WaitingForPendingJobsOut(m, c, e); OutOfRoundKept(m, Handle(m, c, e));
    case PendingJobsReceived =>
      StayKept(m);
      if c.data.payload.Jobs? { StartRoundKept(m, c.data.payload.lists, e); }
      StayFailedKept(m, GetPendingInvalidFormat, e);
    case FetchingJobDoc => FetchingJobDocKept(m, c, e);
    case WaitingForJobDoc => WaitingForJobDocKept(m, c, e);
    case JobDocReceived => JobDocReceivedKept(m, c, e);
    case JobExecution => JobExecutionOut(m, c, e); OutOfRoundKept(m, OnJobExecution(m, c, e));
    case CustomJobExecution => CustomOut(m, c, e); OutOfRoundKept(m, OnCustomJobExecution(m, c, e));
    case PostDownload => PostDownloadOut(m, c, e); OutOfRoundKept(m, OnPostDownload(m, c, e));
    case ErrorState => ErrorStateKept(m, c, e);
  }

  lemma StayKept(m: Engine)
    requires RoundInv(m)
    ensures RoundKept(Stay(m))
  {
  }

  lemma IdleKept(m: Engine)
    requires RoundInv(m)
    ensures RoundKept(Handled(m, Idle, true))
  {
  }

  lemma StayFailedKept(m: Engine, reason: ErrorReason, e: Env)
    requires RoundInv(m) && !InRound(m.state)
    ensures RoundKept(Stay(EnterError(m, reason, e.errorPost)))
  {
    FailOut(m, reason, e.errorPost, true);
  }

  /* ---------- Over runs ---------- */

  lemma RunOnceKeepsRound(m: Engine, e: Env)
    requires Inv(m) && RoundInv(m) && m.ev.queue != []
    ensures RoundInv(RunOnce(m, e))
  {
    hide Handle, Inv, Best;
    var c := m.ev.queue[0];
    if m.ev.initialized && c.data.event != ErrorOccurred {
      PoppedEvent(m);
      PoppedRound(m);
      HandleKept(m.(ev := Pop(m.ev)), c, e);
    } else {
      ErrorKeepsRound(m, e);
    }
  }

  lemma PoppedRound(m: Engine)
    requires RoundInv(m) && m.ev.queue != []
    ensures RoundInv(m.(ev := Pop(m.ev)))
  {
    hide Best;
  }

  lemma ErrorKeepsRound(m: Engine, e: Env)
    requires Inv(m) && RoundInv(m) && m.ev.queue != []
    requires !m.ev.initialized || m.ev.queue[0].data.event == ErrorOccurred
    ensures RoundInv(RunOnce(m, e))
  {
    hide Best, Handle, WellFormed, Alive;
    if InRound(m.state) || m.ev.recovery.state == JobDocReceived {
      ErrorKeepsBest(m.job, m.candidates, false, if e.publish.Fine? then Failed else m.job.status);
    }
  }

  lemma ErrorKeepsBest(job: Job, cs: seq<Candidate>, active: bool, status: JobStatus)
    requires Best(job, cs)
    ensures Best(job.(hasActive := active, status := status), cs)
  {
    if job.hasPending {
      var i: nat :| LastGreatest(cs, i) && Chosen(job, cs[i]);
      assert Chosen(job.(hasActive := active, status := status), cs[i]);
    }
  }

  lemma NextKeepsRound(m: Engine, s: Step)
    requires Inv(m) && RoundInv(m) && Enabled(m, s)
    ensures RoundInv(Next(m, s))
  {
    hide Best, RunOnce, Inv, Post, Drain;
    match s
    case Run(e) => RunOnceKeepsRound(m, e);
    case Initialize(a, accepted) => InitKeepsRound(m, a, accepted);
    case PostExternal(d, a) => PostExtends(m.ev, d, a);
    case TimerFires(a) => PostExtends(m.ev, Plain(Timeout), a);
    case RequestRecovery(a) => PostExtends(m.ev, Plain(RecoveryRequested), a);
    case FetchAfterSubscribeFailed(a) => RecoveryStateAfterError(m.ev, RetryWithBackoff, a);
    case TerminalConfirmed(_) =>
      if InRound(m.state) || m.ev.recovery.state == JobDocReceived {
        ConfirmationKeepsBest(m);
      }
  }

  lemma InitKeepsRound(m: Engine, a: Alloc, accepted: seq<bool>)
    requires Inv(m) && RoundInv(m) && !m.ev.initialized && |accepted| == |m.ev.preInit|
    ensures RoundInv(Init(m, a, accepted))
  {
    hide Best, Open;
    OpenKeepsRecovery(m.ev, a, accepted);
  }

  lemma OpenKeepsRecovery(ev: Events, a: Alloc, accepted: seq<bool>)
    requires |accepted| == |ev.preInit|
    ensures Open(ev, a, accepted).recovery == ev.recovery
  {
    hide Post, Drain;
    PostExtends(ev.(lastError := NoError), Plain(EmptyTransition), a);
    var posted := Post(ev.(lastError := NoError), Plain(EmptyTransition), a);
    if posted.ok {
      DrainQueues(posted.ev, accepted);
    }
  }

  lemma ConfirmationKeepsBest(m: Engine)
    requires Best(m.job, m.candidates)
    ensures Best(m.job.(finalReported := true), m.candidates)
  {
    if m.job.hasPending {
      var i: nat :| LastGreatest(m.candidates, i) && Chosen(m.job, m.candidates[i]);
      assert Chosen(m.job.(finalReported := true), m.candidates[i]);
    }
  }

  lemma {:induction false} RoundOverRuns(ms: seq<Engine>, steps: seq<Step>, k: nat)
    requires IsRun(ms, steps) && k < |ms|
    ensures Inv(ms[k]) && RoundInv(ms[k])
    decreases k
  {
    InvOverRuns(ms, steps, k);
    if k == 0 {
      var poolSize, hasCb :| ms[0] == Fresh(poolSize, hasCb);
    } else {
      hide Inv, RoundInv, Next, Enabled;
      RoundOverRuns(ms, steps, k - 1);
      NextKeepsRound(ms[k - 1], steps[k - 1]);
    }
  }

  /** The ids of a round are described in order and never twice: what has been described since the queue was
      filled is exactly the part of the queue before `next`, which never passes the end. */
  lemma DescribedInOrder(ms: seq<Engine>, steps: seq<Step>, k: nat)
    requires IsRun(ms, steps) && k < |ms|
    ensures ms[k].next <= |ms[k].ids| <= 50
    ensures ms[k].described == ms[k].ids[..ms[k].next]
  {
    RoundOverRuns(ms, steps, k);
  }

  /** `i` is the chosen candidate; under the default handler its release is an upgrade of the running one. */
  ghost predicate Winner(m: Engine, i: nat) {
    && LastGreatest(m.candidates, i)
    && Genuine(m.candidates[i])
    && Chosen(m.job, m.candidates[i])
    && (m.candidates[i].doc.filetype == "" ==> IsUpgrade(m.candidates[i]))
  }

  ghost predicate HasWinner(m: Engine) {
    exists i: nat :: Winner(m, i)
  }

  ghost predicate IsUpgrade(c: Candidate) {
    Upgrade(c.env.runningVersion, c.doc.fwVersion, c.doc.minFwVersion, c.version)
  }

  /** When a round ends in JOB_EXECUTION, every id has been described, and the job, its version and its image
      are those of the last of the acceptable documents with the greatest version; under the default handler
      that release is an upgrade of the running one. */
  lemma ExecutesBest(ms: seq<Engine>, steps: seq<Step>, k: nat)
    requires IsRun(ms, steps) && k < |steps|
    requires ms[k].state == FetchingJobDoc && ms[k + 1].state == JobExecution
    ensures ms[k + 1].described == ms[k + 1].ids
    ensures HasWinner(ms[k + 1])
  {
    RoundOverRuns(ms, steps, k);
    var m := ms[k];
    EntersExecution(m, steps[k]);
    var i: nat :| LastGreatest(m.candidates, i) && Chosen(m.job, m.candidates[i]);
    assert Genuine(m.candidates[i]);
    if m.candidates[i].doc.filetype == "" {
      AcceptedIsUpgrade(m.candidates[i].doc, m.candidates[i].env);
    }
    assert Winner(ms[k + 1], i);
  }

  lemma EntersExecution(m: Engine, s: Step)
    requires Inv(m) && RoundInv(m) && Enabled(m, s) && m.state == FetchingJobDoc && Next(m, s).state == JobExecution
    ensures m.next == |m.ids| && m.job.hasPending
    ensures var n := Next(m, s);
            n.job == m.job && n.candidates == m.candidates && n.ids == m.ids && n.described == m.described
  {
    hide Best, Inv, PostEvent, PostIgnored, RaiseError, OnFetchingJobDoc, Init;
    if s.Run? && m.ev.initialized {
      FetchingToExecution(m.(ev := Pop(m.ev)), m.ev.queue[0], s.env);
    }
    if s.Initialize? {
      InitLeaves(m, s.alloc, s.accepted);
    }
  }

  lemma InitLeaves(m: Engine, a: Alloc, accepted: seq<bool>)
    requires |accepted| == |m.ev.preInit|
    ensures Init(m, a, accepted).state == NetworkInit
  {
    hide Open;
  }

  lemma FetchingToExecution(m: Engine, c: Cell, e: Env)
    requires m.state == FetchingJobDoc && m.next <= |m.ids| && OnFetchingJobDoc(m, c, e).next == JobExecution
    ensures m.next == |m.ids| && m.job.hasPending
    ensures var n := OnFetchingJobDoc(m, c, e).m;
            n.job == m.job && n.candidates == m.candidates && n.ids == m.ids && n.described == m.described
  {
    hide Post, RaiseError;
  }

  /* ---------- The history ---------- */

  lemma GoToCandidates(m: Engine, next: State, d: Data, e: Env)
    ensures GoTo(m, next, d, e).m.candidates == m.candidates
  {
  }

  lemma RejectDocCandidates(m: Engine, c: Cell, e: Env)
    ensures RejectDoc(m, c, e).m.candidates == m.candidates
  {
  }

  lemma DocumentCandidates(m: Engine, d: Doc, c: Cell, e: Env)
    ensures var n := OnDocument(m, d, c, e).m;
            if JudgeInRound(m.job, d, e.doc).Foreign? && m.hasCustomJobCb then n.ids == [] && n.candidates == []
            else n.candidates == Note(m, d, e.doc).candidates
  {
    hide GoTo, RejectDoc, Judge, JudgeInRound, Fail, Plain;
    var n := Seen(m, d, e.doc);
    GoToCandidates(n, FetchingJobDoc, Plain(EmptyTransition), e);
    RejectDocCandidates(n, c, e);
    match JudgeInRound(m.job, d, e.doc)
    case Ignore =>
    case Accept(v) =>
      AcceptedHasImage(m.job, d, e.doc);
      GoToCandidates(Choose(n, d, v), FetchingJobDoc, Plain(EmptyTransition), e);
    case Broken => FailCandidates(n.(job := n.job.(image := NO_IMAGE)), JobDocParseFailed, e.errorPost);
    case Reject =>
    case Foreign => ForeignCandidates(n, d, c, e);
  }

  lemma FailCandidates(m: Engine, reason: ErrorReason, a: Alloc)
    ensures Fail(m, reason, a, true).m.candidates == m.candidates
  {
  }

  lemma ForeignCandidates(m: Engine, d: Doc, c: Cell, e: Env)
    ensures var n := ForeignDoc(m, d, c, e).m;
            if m.hasCustomJobCb then n.ids == [] && n.candidates == [] else n.candidates == m.candidates
  {
    RejectDocCandidates(m, c, e);
  }

  /** The history of a round is kept honestly: a document handled in a round is recorded exactly when it is
      acceptable on its own, and the record is cleared only together with the job-id queue. */
  lemma CandidatesAreHistory(m: Engine, e: Env)
    requires m.ev.initialized && m.ev.queue != [] && m.state == JobDocReceived
    requires m.ev.queue[0].data.event == JobDocAccepted && m.ev.queue[0].data.payload.Document?
    ensures var d := m.ev.queue[0].data.payload.doc;
            var n := RunOnce(m, e);
            if JudgeInRound(m.job, d, e.doc).Foreign? && m.hasCustomJobCb then n.ids == [] && n.candidates == []
            else n.candidates == m.candidates
                                 + if Judge(d, e.doc).Accept? then [Candidate(d, e.doc, Judge(d, e.doc).version)]
                                   else []
  {
    hide OnDocument, Judge, JudgeInRound;
    DocumentCandidates(m.(ev := Pop(m.ev)), m.ev.queue[0].data.payload.doc, m.ev.queue[0], e);
  }

  /* ---------- Every round ends ---------- */

  /** What a round still has to do: three moves for each id not yet described, and what is left of this one. */
  function Rank(m: Engine): int {
    3 * (|m.ids| - m.next) + if m.state == WaitingForJobDoc then 2 else if m.state == JobDocReceived then 1 else 0
  }

  /** Where a round can end: without a job, with the download, with the custom callback, or in an error. */
  predicate RoundEnd(s: State) {
    s == Idle || s == JobExecution || s == CustomJobExecution || s == ErrorState
  }

  predicate Resting(m: Engine, n: Engine) {
    n.state == m.state && n.ids == m.ids && n.next == m.next
  }

  predicate Advancing(m: Engine, n: Engine) {
    InRound(n.state) && n.ids == m.ids && Rank(n) < Rank(m)
  }

  predicate RoundMoves(m: Engine, n: Engine) {
    Resting(m, n) || Advancing(m, n) || RoundEnd(n.state)
  }

  /** Besides moving on, a handler given the event its state waits for may only report an error. */
  ghost predicate RoundActs(m: Engine, n: Engine) {
    RoundMoves(m, n) && (!Resting(m, n) || n.ev.lost || IsQueued(n.ev.queue, ErrorOccurred))
  }

  function Moved(h: Handled): Engine {
    h.m.(state := h.next)
  }

  lemma ErrorQueued(m: Engine, reason: ErrorReason, a: Alloc)
    requires m.ev.initialized
    ensures var n := EnterError(m, reason, a); n.ev.lost || IsQueued(n.ev.queue, ErrorOccurred)
  {
    PostedErrorQueued(SetRecovery(m.ev, reason, RecoveryFor(reason)), ErrorOccurred, a);
  }

  lemma FetchingActs(m: Engine, c: Cell, e: Env)
    requires m.state == FetchingJobDoc && m.next <= |m.ids| && m.ev.initialized
    requires c.data.event == EmptyTransition
    ensures RoundActs(m, Moved(OnFetchingJobDoc(m, c, e)))
  {
    hide Post, RaiseError, IsQueued;
    if m.next < |m.ids| && !e.requestOk {
      var id := m.ids[m.next];
      var n := m.(next := m.next + 1, described := m.described + [id], log := m.log + [Described(id)]);
      ErrorQueued(n, RetryWithBackoff, e.errorPost);
    }
  }

  lemma WaitingActs(m: Engine, c: Cell, e: Env)
    requires m.state == WaitingForJobDoc && m.ev.initialized
    requires c.data.event == JobDocAccepted || c.data.event == JobDocRejected || c.data.event == Timeout
    ensures RoundActs(m, Moved(Handle(m, c, e)))
  {
    hide RaiseError, IsQueued;
    ErrorQueued(StopTimer(m, e), DescribeJobRejected, e.errorPost);
    ErrorQueued(m, RetryWithBackoff, e.errorPost);
  }

  lemma NextDocMoves(m: Engine, n: Engine, e: Env)
    requires m.state == JobDocReceived && n.ids == m.ids && n.next == m.next
    ensures !Resting(m, Moved(NextDoc(n, e))) && RoundMoves(m, Moved(NextDoc(n, e)))
  {
    hide Post, RaiseError;
  }

  lemma RejectDocMoves(m: Engine, n: Engine, c: Cell, e: Env)
    requires m.state == JobDocReceived && n.ids == m.ids && n.next == m.next
    ensures !Resting(m, Moved(RejectDoc(n, c, e))) && RoundMoves(m, Moved(RejectDoc(n, c, e)))
  {
    hide NextDoc, RaiseError, RaiseErrorKeeping;
    NextDocMoves(m, n, e);
  }

  lemma DocumentMoves(m: Engine, d: Doc, c: Cell, e: Env)
    requires m.state == JobDocReceived
    ensures !Resting(m, Moved(OnDocument(m, d, c, e))) && RoundMoves(m, Moved(OnDocument(m, d, c, e)))
  {
    hide NextDoc, RejectDoc, RaiseError, JudgeInRound, Judge, Post;
    var n := Seen(m, d, e.doc);
    NextDocMoves(m, n, e);
    RejectDocMoves(m, n, c, e);
    if JudgeInRound(m.job, d, e.doc).Accept? {
      AcceptedHasImage(m.job, d, e.doc);
      NextDocMoves(m, Choose(n, d, JudgeInRound(m.job, d, e.doc).version), e);
    }
  }

  lemma ReceivedActs(m: Engine, c: Cell, e: Env)
    requires m.state == JobDocReceived && c.data.event == JobDocAccepted
    ensures RoundActs(m, Moved(OnJobDocReceived(m, c, e)))
  {
    hide NextDoc, OnDocument;
    NextDocMoves(m, m, e);
    if c.data.payload.Document? {
      DocumentMoves(m, c.data.payload.doc, c, e);
    }
  }

  /** The events a state of the round reacts to. */
  predicate Reacts(s: State, event: Event) {
    || event == ErrorOccurred
    || (s == FetchingJobDoc && event == EmptyTransition)
    || (s == WaitingForJobDoc && (event == JobDocAccepted || event == JobDocRejected || event == Timeout))
    || (s == JobDocReceived && event == JobDocAccepted)
  }

  lemma RunMovesRound(m: Engine, e: Env)
    requires InRound(m.state) && m.ev.initialized && m.next <= |m.ids| && m.ev.queue != []
    ensures RoundMoves(m, RunOnce(m, e))
    ensures Reacts(m.state, m.ev.queue[0].data.event) ==> RoundActs(m, RunOnce(m, e))
  {
    hide Handle, IsQueued;
    var n, c := m.(ev := Pop(m.ev)), m.ev.queue[0];
    if c.data.event != ErrorOccurred {
      HandleMovesRound(n, c, e);
    }
  }

  lemma HandleMovesRound(m: Engine, c: Cell, e: Env)
    requires InRound(m.state) && m.ev.initialized && m.next <= |m.ids| && c.data.event != ErrorOccurred
    ensures RoundMoves(m, Moved(Handle(m, c, e)))
    ensures Reacts(m.state, c.data.event) ==> RoundActs(m, Moved(Handle(m, c, e)))
  {
    hide OnFetchingJobDoc, OnJobDocReceived, OnWaiting, IsQueued;
    match m.state
    case FetchingJobDoc => FetchingIdles(m, c, e); if c.data.event == EmptyTransition { FetchingActs(m, c, e); }
    case WaitingForJobDoc =>
      if c.data.event == JobDocAccepted || c.data.event == JobDocRejected || c.data.event == Timeout {
        WaitingActs(m, c, e);
      } else {
        WaitingIdles(m, c, e);
      }
    case JobDocReceived => ReceivedIdles(m, c, e); if c.data.event == JobDocAccepted { ReceivedActs(m, c, e); }
  }

  lemma FetchingIdles(m: Engine, c: Cell, e: Env)
    ensures c.data.event != EmptyTransition ==> OnFetchingJobDoc(m, c, e) == Stay(m)
  {
  }

  lemma WaitingIdles(m: Engine, c: Cell, e: Env)
    requires m.state == WaitingForJobDoc
    requires c.data.event != JobDocAccepted && c.data.event != JobDocRejected && c.data.event != Timeout
    ensures Handle(m, c, e) == Stay(m)
  {
  }

  lemma ReceivedIdles(m: Engine, c: Cell, e: Env)
    ensures c.data.event != JobDocAccepted ==> OnJobDocReceived(m, c, e) == Stay(m)
  {
  }

  lemma StepMovesRound(m: Engine, s: Step)
    requires InRound(m.state) && m.ev.initialized && m.next <= |m.ids| && Enabled(m, s)
    ensures RoundMoves(m, Next(m, s))
  {
    hide PostEvent, PostIgnored, RaiseError;
    if s.Run? {
      hide RunOnce;
      RunMovesRound(m, s.env);
    }
  }

  /** How often the machine moves on (by state or by id) in the first `n` steps of a stretch of a run. */
  function Moves(ms: seq<Engine>, i: nat, j: nat): nat
    requires i <= j < |ms|
    decreases j
  {
    if i == j then 0 else Moves(ms, i, j - 1) + if Resting(ms[j - 1], ms[j]) then 0 else 1
  }

  predicate RankOk(m: Engine) {
    m.next <= |m.ids| <= 50
  }

  /** One step of a stretch that has stayed in the round so far. */
  lemma RoundStretchGrows(ms: seq<Engine>, i: nat, j: nat)
    requires i < j < |ms| && InRound(ms[j - 1].state) && RankOk(ms[j])
    requires RoundMoves(ms[j - 1], ms[j])
    requires Moves(ms, i, j - 1) + Rank(ms[j - 1]) <= Rank(ms[i])
    ensures InRound(ms[j].state) ==> Moves(ms, i, j) + Rank(ms[j]) <= Rank(ms[i])
    ensures InRound(ms[j].state) || RoundEnd(ms[j].state)
  {
  }

  /** Every round ends: while the machine stays in one, it can move on at most three times for each id and
      twice more, so at most 152 times; when it leaves, it is in IDLE, in execution, in a custom job, or in
      ERROR. Together with `NoSilentStall` and `RoundReacts` no round can go on forever. */
  lemma {:induction false} RoundEnds(ms: seq<Engine>, steps: seq<Step>, i: nat, j: nat)
    requires IsRun(ms, steps) && i <= j < |ms| && ms[i].ev.initialized && InRound(ms[i].state)
    requires forall k | i <= k < j :: InRound(ms[k].state)
    ensures ms[j].ev.initialized && RankOk(ms[j])
    ensures Rank(ms[i]) <= 152
    ensures InRound(ms[j].state) || RoundEnd(ms[j].state)
    ensures InRound(ms[j].state) ==> Moves(ms, i, j) + Rank(ms[j]) <= Rank(ms[i]) && 0 <= Rank(ms[j])
    decreases j
  {
    hide RoundMoves, Next, Enabled, Best, Inv;
    DescribedInOrder(ms, steps, i);
    DescribedInOrder(ms, steps, j);
    if i < j {
      RoundEnds(ms, steps, i, j - 1);
      StepInRun(ms, steps, j - 1);
      RoundStretchGrows(ms, i, j);
    }
  }

  lemma StepInRun(ms: seq<Engine>, steps: seq<Step>, k: nat)
    requires IsRun(ms, steps) && k < |steps| && ms[k].ev.initialized && InRound(ms[k].state)
    ensures ms[k + 1].ev.initialized && RoundMoves(ms[k], ms[k + 1])
  {
    hide RoundMoves, Next, Enabled;
    RoundOverRuns(ms, steps, k);
    InitializedStays(ms[k], steps[k]);
    StepMovesRound(ms[k], steps[k]);
  }

  /** The event a state of a round waits for moves the round on, ends it, or has an ERROR_OCCURRED queued that
      will end it. */
  lemma RoundReacts(ms: seq<Engine>, steps: seq<Step>, k: nat)
    requires IsRun(ms, steps) && k < |steps| && steps[k].Run?
    requires ms[k].ev.initialized && InRound(ms[k].state) && Reacts(ms[k].state, ms[k].ev.queue[0].data.event)
    ensures var m, n := ms[k], ms[k + 1];
            || Advancing(m, n) || RoundEnd(n.state)
            || (Resting(m, n) && (n.ev.lost || IsQueued(n.ev.queue, ErrorOccurred)))
  {
    RoundOverRuns(ms, steps, k);
    RunMovesRound(ms[k], steps[k].env);
  }
}
