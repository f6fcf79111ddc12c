/** The pending-verification record is about the job the reboot is requested for, provided every recovery request is
    served while no job is active or on the way back to POST_DOWNLOAD; and when a caller can be sure of that. */
module OtaSameJob {
  import opened Wrappers
  import opened OtaTypes
  import opened OtaSpec
  import opened OtaLiveness
  import opened OtaReboot

  /* ---------- What has to hold besides OtaLiveness.Inv ---------- */

  ghost predicate ErrorUp(ev: Events) {
    ev.lost || IsQueued(ev.queue, ErrorOccurred)
  }

  /** At most one recovery request is queued. */
  ghost predicate OneRequest(q: seq<Cell>)
    decreases |q|
  {
    if q == [] then true
    else if q[0].data.event == RecoveryRequested then !IsQueued(q[1..], RecoveryRequested)
    else OneRequest(q[1..])
  }

  /** At most one recovery request is queued, and an error before it. */
  ghost predicate Guarded(q: seq<Cell>)
    decreases |q|
  {
    if q == [] then true
    else if q[0].data.event == ErrorOccurred then OneRequest(q[1..])
    else q[0].data.event != RecoveryRequested && Guarded(q[1..])
  }

  lemma {:induction false} GuardedIsOne(q: seq<Cell>)
    requires Guarded(q)
    ensures OneRequest(q)
    decreases |q|
  {
    if q != [] && q[0].data.event != ErrorOccurred {
      GuardedIsOne(q[1..]);
    }
  }

  lemma {:induction false} AppendOne(q: seq<Cell>, c: Cell)
    requires OneRequest(q) && (c.data.event == RecoveryRequested ==> !IsQueued(q, RecoveryRequested))
    ensures OneRequest(q + [c])
    decreases |q|
  {
    if q == [] {
      assert [c][1..] == [];
    } else {
      assert (q + [c])[1..] == q[1..] + [c];
      QueuedSplit(q, RecoveryRequested);
      if q[0].data.event == RecoveryRequested {
        QueuedAppend(q[1..], c, RecoveryRequested);
      } else {
        AppendOne(q[1..], c);
      }
    }
  }

  lemma {:induction false} AppendGuarded(q: seq<Cell>, c: Cell)
    requires Guarded(q)
    requires c.data.event == RecoveryRequested ==> !IsQueued(q, RecoveryRequested) && IsQueued(q, ErrorOccurred)
    ensures Guarded(q + [c])
    decreases |q|
  {
    if q == [] {
      assert [c][1..] == [];
    } else {
      assert (q + [c])[1..] == q[1..] + [c];
      QueuedSplit(q, RecoveryRequested);
      QueuedSplit(q, ErrorOccurred);
      if q[0].data.event == ErrorOccurred {
        AppendOne(q[1..], c);
      } else {
        AppendGuarded(q[1..], c);
      }
    }
  }

  /** In a quiet run a recovery request under way comes after an error that is still queued; none is kept or waits for
      init. */
  ghost predicate Calm(quiet: bool, ev: Events) {
    quiet ==>
      && Guarded(ev.queue) && !IsQueued(ev.preInit, RecoveryRequested)
      && (!ev.initialized ==> !IsQueued(ev.queue, RecoveryRequested))
      && (ev.recovery.cell.Some? ==> ev.recovery.cell.value.data.event != RecoveryRequested)
  }

  /** A job stays active only where it is worked on, or until the queued error is handled. */
  ghost predicate ActiveInPlace(m: Engine) {
    m.job.hasActive ==> || m.state == JobExecution || m.state == PostDownload
                        || (m.state == ErrorState && ErrorUp(m.ev))
  }

  /** The record is about the current job wherever a wish to reboot can still be acted on. */
  ghost predicate RecordMatches(m: Engine) {
    && (m.state == JobExecution && m.job.hasActive ==> !m.job.shouldReboot)
    && (m.job.shouldReboot && (m.state == PostDownload || m.ev.recovery.state == PostDownload) ==>
          PendingSince(m.log) == Some(m.job.jobId))
  }

  /** In a quiet run a recovery request is handled in ERROR, with no job active. */
  ghost predicate RequestInPlace(quiet: bool, m: Engine) {
    || Calm(quiet, m.ev)
    || (OneRequest(m.ev.queue) && Calm(quiet, m.ev.(queue := [])) && m.state == ErrorState && !m.job.hasActive)
  }

  ghost predicate InPlace(quiet: bool, m: Engine) {
    (quiet && m.ev.lost) || (ActiveInPlace(m) && RecordMatches(m) && RequestInPlace(quiet, m))
  }

  /** `ota_job_state_recover` is not called while an earlier request is still queued. */
  ghost predicate Quiet(m: Engine, s: Step) {
    s.RequestRecovery? ==> !IsQueued(m.ev.queue, RecoveryRequested)
  }

  /** The turn serves a recovery request: the machine is in ERROR and the request is the oldest event. */
  predicate Serves(m: Engine, s: Step) {
    s.Run? && m.ev.initialized && m.state == ErrorState && m.ev.queue != []
    && m.ev.queue[0].data.event == RecoveryRequested
  }

  /** A recovery request is served only while no job is active, or when it leads back to POST_DOWNLOAD. */
  predicate SafeTurn(m: Engine, s: Step) {
    Serves(m, s) ==> !m.job.hasActive || m.ev.recovery.state == PostDownload
  }

  /** Of a run that is quiet, the quiet premise is asked for; of any other, that its turns are safe. */
  ghost predicate Allowed(quiet: bool, m: Engine, s: Step) {
    if quiet then Quiet(m, s) else SafeTurn(m, s)
  }

  /* ---------- The primitives ---------- */

  lemma PostCalm(quiet: bool, ev: Events, d: Data, a: Alloc)
    requires Calm(quiet, ev) && (quiet ==> d.event != RecoveryRequested)
    ensures Calm(quiet, Post(ev, d, a).ev)
    ensures Post(ev, d, a).ev.recovery == ev.recovery && Post(ev, d, a).ev.lost == ev.lost
    ensures IsQueued(ev.queue, ErrorOccurred) ==> IsQueued(Post(ev, d, a).ev.queue, ErrorOccurred)
  {
    PostExtends(ev, d, a);
    var q := Post(ev, d, a).ev.queue;
    if q != ev.queue {
      var c :| q == ev.queue + [c] && c.data.event == d.event;
      if quiet {
        AppendGuarded(ev.queue, c);
      }
      QueuedAppend(ev.queue, c, ErrorOccurred);
      QueuedAppend(ev.queue, c, RecoveryRequested);
    }
  }

  lemma PostEventCalm(quiet: bool, ev: Events, d: Data, a: Alloc)
    requires Calm(quiet, ev) && (quiet ==> d.event != RecoveryRequested)
    ensures Calm(quiet, PostEvent(ev, d, a).ev)
    ensures PostEvent(ev, d, a).ev.recovery == ev.recovery && PostEvent(ev, d, a).ev.lost == ev.lost
    ensures IsQueued(ev.queue, ErrorOccurred) ==> IsQueued(PostEvent(ev, d, a).ev.queue, ErrorOccurred)
    ensures ev.initialized && PostEvent(ev, d, a).ok ==> IsQueued(PostEvent(ev, d, a).ev.queue, d.event)
  {
    if ev.initialized {
      PostCalm(quiet, ev, d, a);
      PostExtends(ev, d, a);
    } else if AddPreInit(ev, d, a.heapOk).ok {
      var c := Copy(ev, d, a.heapOk).cell.value;
      QueuedAppend(ev.preInit, c, RecoveryRequested);
    }
  }

  lemma HandOverCalm(quiet: bool, ev: Events, c: Cell, addOk: bool)
    requires Calm(quiet, ev) && (quiet ==> c.data.event != RecoveryRequested)
    ensures Calm(quiet, HandOver(ev, c, addOk).ev)
    ensures HandOver(ev, c, addOk).ev.recovery == ev.recovery && HandOver(ev, c, addOk).ev.lost == ev.lost
    ensures IsQueued(ev.queue, ErrorOccurred) ==> IsQueued(HandOver(ev, c, addOk).ev.queue, ErrorOccurred)
  {
    if quiet {
      AppendGuarded(ev.queue, c);
    }
    QueuedAppend(ev.queue, c, ErrorOccurred);
    QueuedAppend(ev.queue, c, RecoveryRequested);
  }

  lemma RaiseErrorCalm(quiet: bool, ev: Events, reason: ErrorReason, a: Alloc)
    requires Calm(quiet, ev)
    ensures var ev' := RaiseError(ev, reason, a);
            && Calm(quiet, ev') && ev'.recovery.state != PostDownload && (ev.lost ==> ev'.lost)
            && (ev.initialized ==> ErrorUp(ev'))
            && (IsQueued(ev.queue, ErrorOccurred) ==> IsQueued(ev'.queue, ErrorOccurred))
  {
    PostEventCalm(quiet, SetRecovery(ev, reason, RecoveryFor(reason)), Plain(ErrorOccurred), a);
  }

  lemma RaiseErrorKeepingCalm(quiet: bool, ev: Events, state: State, c: Cell, a: Alloc)
    requires Calm(quiet, ev) && ev.initialized && (quiet ==> c.data.event != RecoveryRequested)
    ensures var ev' := RaiseErrorKeeping(ev, state, c, a);
            Calm(quiet, ev') && ErrorUp(ev') && ev'.recovery.state == state && (ev.lost ==> ev'.lost)
  {
    PostEventCalm(quiet, SetRecovery(ev, RetryWithBackoff, Recovery(state, Some(c), ErrorOccurred)),
                  Plain(ErrorOccurred), a);
  }

  /* ---------- What a handler must leave ---------- */

  /** The context of a handler outside ERROR, or of a recovery request in ERROR. */
  ghost predicate Start(quiet: bool, m: Engine, c: Cell) {
    && m.ev.initialized && Calm(quiet, m.ev) && c.data.event != ErrorOccurred
    && (m.state == ErrorState ==> c.data.event == RecoveryRequested)
    && (quiet && c.data.event == RecoveryRequested ==> m.state == ErrorState)
    && (m.state != ErrorState ==> m.ev.recovery.state != PostDownload)
    && (m.state == ErrorState ==> !m.job.hasActive || m.ev.recovery.state == PostDownload)
    && ActiveInPlace(m) && RecordMatches(m)
  }

  ghost predicate Done(quiet: bool, h: Handled) {
    var n := h.m.(state := h.next);
    Calm(quiet, n.ev) && ActiveInPlace(n) && RecordMatches(n)
  }

  /** The job is as in `m`, and the machine goes to `next` or, with an error raised, to ERROR. */
  ghost predicate Goes(quiet: bool, m: Engine, next: State, h: Handled) {
    && h.m.job == m.job && h.m.log == m.log && Calm(quiet, h.m.ev) && h.m.ev.recovery.state != PostDownload
    && (h.next == next || (h.next == ErrorState && ErrorUp(h.m.ev)))
  }

  lemma FailGoes(quiet: bool, m: Engine, reason: ErrorReason, a: Alloc, free: bool)
    requires m.ev.initialized && Calm(quiet, m.ev)
    ensures Goes(quiet, m, ErrorState, Fail(m, reason, a, free)) && ErrorUp(Fail(m, reason, a, free).m.ev)
    ensures Goes(quiet, m, m.state, Stay(EnterError(m, reason, a)))
  {
    RaiseErrorCalm(quiet, m.ev, reason, a);
  }

  lemma GoToGoes(quiet: bool, m: Engine, next: State, d: Data, e: Env)
    requires m.ev.initialized && Calm(quiet, m.ev) && m.ev.recovery.state != PostDownload
    requires d.event != RecoveryRequested
    ensures Goes(quiet, m, next, GoTo(m, next, d, e))
  {
    PostCalm(quiet, m.ev, d, e.post);
    PostExtends(m.ev, d, e.post);
    FailGoes(quiet, m.(ev := Post(m.ev, d, e.post).ev), RetryWithBackoff, e.errorPost, true);
  }

  lemma PassOnGoes(quiet: bool, m: Engine, next: State, c: Cell, e: Env)
    requires m.ev.initialized && Calm(quiet, m.ev) && m.ev.recovery.state != PostDownload
    requires quiet ==> c.data.event != RecoveryRequested
    ensures Goes(quiet, m, next, PassOn(m, next, c, e))
  {
    HandOverCalm(quiet, m.ev, c, e.handOverOk);
    HandOverExtends(m.ev, c, e.handOverOk);
    FailGoes(quiet, m.(ev := HandOver(m.ev, c, e.handOverOk).ev), RetryWithBackoff, e.errorPost, false);
  }

  lemma BackToIdleGoes(quiet: bool, m: Engine, e: Env)
    requires m.ev.initialized && Calm(quiet, m.ev) && m.ev.recovery.state != PostDownload
    ensures Goes(quiet, m, Idle, BackToIdle(m, e))
  {
    PostEventCalm(quiet, m.ev, Plain(FetchRequested), e.post);
    PostExtends(m.ev, Plain(FetchRequested), e.post);
    FailGoes(quiet, m.(ev := PostEvent(m.ev, Plain(FetchRequested), e.post).ev), RetryWithBackoff, e.errorPost, true);
  }

  /** After a publish the machine stays, or goes to ERROR; only then may PostDownload be the recovery state. */
  ghost predicate Publishes(quiet: bool, m: Engine, retryState: State, h: Handled) {
    && h.m.job == m.job && h.m.log == m.log && Calm(quiet, h.m.ev)
    && ((h.next == m.state && h.m.ev == m.ev)
        || (h.next == ErrorState && ErrorUp(h.m.ev)
            && (h.m.ev.recovery.state == retryState || h.m.ev.recovery.state != PostDownload)))
  }

  lemma AfterPublishPublishes(quiet: bool, m: Engine, sent: Outcome, c: Cell, retryState: State, e: Env)
    requires m.ev.initialized && Calm(quiet, m.ev) && (quiet ==> c.data.event != RecoveryRequested)
    ensures Publishes(quiet, m, retryState, AfterPublish(m, sent, c, retryState, e))
  {
    FailGoes(quiet, m, FatalUnexpectedFormat, e.errorPost, true);
    RaiseErrorKeepingCalm(quiet, m.ev, retryState, c, e.errorPost);
  }

  /** With no job active, a handler outside POST_DOWNLOAD is done once it stays out of POST_DOWNLOAD. */
  ghost predicate Idles(quiet: bool, m: Engine, h: Handled) {
    && !h.m.job.hasActive && Calm(quiet, h.m.ev) && h.m.ev.recovery.state != PostDownload && h.next != PostDownload
  }

  lemma IdlesDone(quiet: bool, m: Engine, h: Handled)
    requires Idles(quiet, m, h)
    ensures Done(quiet, h)
  {
  }

  /* ---------- The handlers ---------- */

  ghost predicate Passive(quiet: bool, m: Engine, c: Cell) {
    && m.ev.initialized && Calm(quiet, m.ev) && m.ev.recovery.state != PostDownload
    && (quiet ==> c.data.event != RecoveryRequested)
    && !m.job.hasActive && m.state != PostDownload
  }

  lemma NetworkInitIdles(quiet: bool, m: Engine, c: Cell, e: Env)
    requires Passive(quiet, m, c) && m.state == NetworkInit
    ensures Idles(quiet, m, OnNetworkInit(m, c, e))
  {
    hide RaiseError, PostEvent, IsQueued;
    RaiseErrorCalm(quiet, m.ev, SubscriptionFailed, e.errorPost);
    PostEventCalm(quiet, m.ev, Plain(EmptyTransition), e.post);
  }

  lemma PublishIdles(quiet: bool, m: Engine, n: Engine, sent: Outcome, c: Cell, retryState: State, e: Env)
    requires Passive(quiet, m, c) && n.ev == m.ev && !n.job.hasActive && n.state == m.state
    requires retryState != PostDownload
    ensures Idles(quiet, m, AfterPublish(n, sent, c, retryState, e))
  {
    hide AfterPublish;
    AfterPublishPublishes(quiet, n, sent, c, retryState, e);
  }

  lemma FailIdles(quiet: bool, m: Engine, n: Engine, reason: ErrorReason, a: Alloc, free: bool)
    requires m.ev.initialized && Calm(quiet, m.ev) && n.ev == m.ev && !n.job.hasActive
    requires m.state == n.state && m.state != PostDownload
    ensures Idles(quiet, m, Fail(n, reason, a, free)) && Idles(quiet, m, Stay(EnterError(n, reason, a)))
  {
    FailGoes(quiet, n, reason, a, free);
  }

  lemma RebootFinalStatusIdles(quiet: bool, m: Engine, c: Cell, e: Env)
    requires Passive(quiet, m, c) && m.state == RebootCheck
    ensures Idles(quiet, m, OnRebootFinalStatus(m, c, e))
  {
    hide AfterPublish, Fail, Calm, FinalOutcome, ErrorUp, IsQueued;
    FailIdles(quiet, m, m, FatalUnexpectedFormat, e.errorPost, true);
    if c.data.payload.FinalStatus? {
      PublishIdles(quiet, m, m, FinalOutcome(c.data.payload.details, e), c, RebootCheck, e);
    }
  }

  lemma RebootVerdictIdles(quiet: bool, m: Engine, c: Cell, e: Env)
    requires Passive(quiet, m, c) && m.state == RebootCheck
    ensures Idles(quiet, m, OnRebootVerdict(m, c, e))
  {
    hide AfterPublish, Calm, VerdictFlags, ErrorUp, IsQueued;
    PublishIdles(quiet, m, SetVerdict(m, VerdictFlags(e).isPassed, e), e.publish, c, RebootCheck, e);
  }

  lemma RebootAcceptedIdles(quiet: bool, m: Engine, c: Cell, e: Env)
    requires Passive(quiet, m, c) && m.state == RebootCheck
    ensures Idles(quiet, m, OnRebootAccepted(m, e))
  {
    hide Fail, Calm, ErrorUp, IsQueued;
    FailIdles(quiet, m, DropRebootedJob(m), FatalUnexpectedFormat, e.errorPost, true);
  }

  lemma RebootCheckIdles(quiet: bool, m: Engine, c: Cell, e: Env)
    requires Passive(quiet, m, c) && m.state == RebootCheck
    ensures Idles(quiet, m, OnRebootCheck(m, c, e))
  {
    hide OnRebootFinalStatus, OnRebootVerdict, OnRebootAccepted, Calm;
    match c.data.event
    case FinalStatusReportRequested => RebootFinalStatusIdles(quiet, m, c, e);
    case RebootCheckRequested => RebootVerdictIdles(quiet, m, c, e);
    case UpdateAccepted => RebootAcceptedIdles(quiet, m, c, e);
    case _ =>
  }

  lemma StartRoundIdles(quiet: bool, m: Engine, c: Cell, lists: JobLists, e: Env)
    requires Passive(quiet, m, c)
    ensures Idles(quiet, m, StartRound(m, lists, e))
  {
    hide GoTo, Fail, Calm, RoundIds;
    FailIdles(quiet, m, m, GetPendingInvalidFormat, e.errorPost, true);
    if lists.Lists? {
      GoToGoes(quiet, Fill(m, lists), FetchingJobDoc, Plain(EmptyTransition), e);
    }
  }

  lemma IdleIdles(quiet: bool, m: Engine, c: Cell, e: Env)
    requires Passive(quiet, m, c) && m.state == Idle
    ensures Idles(quiet, m, OnIdle(m, c, e))
  {
    hide GoTo, PassOn, Calm, ErrorUp;
    GoToGoes(quiet, m, FetchingPendingJobs, Plain(EmptyTransition), e);
    PassOnGoes(quiet, m, JobsChangedState, c, e);
  }

  lemma FetchingPendingJobsIdles(quiet: bool, m: Engine, c: Cell, e: Env)
    requires Passive(quiet, m, c) && m.state == FetchingPendingJobs
    ensures Idles(quiet, m, OnFetchingPendingJobs(m, c, e))
  {
    hide RaiseError, Calm, ErrorUp;
    RaiseErrorCalm(quiet, m.ev, RetryWithBackoff, e.errorPost);
    RaiseErrorCalm(quiet, m.ev, TimeoutHandlerRestartFailed, e.errorPost);
  }

  lemma ListIdles(quiet: bool, m: Engine, c: Cell, e: Env)
    requires Passive(quiet, m, c)
    ensures m.state == JobsChangedState ==> Idles(quiet, m, OnJobsChanged(m, c, e))
    ensures m.state == PendingJobsReceived ==> Idles(quiet, m, OnPendingJobsReceived(m, c, e))
  {
    hide StartRound, RaiseError, Calm, ErrorUp;
    RaiseErrorCalm(quiet, m.ev, GetPendingInvalidFormat, e.errorPost);
    if c.data.payload.Jobs? {
      StartRoundIdles(quiet, m, c, c.data.payload.lists, e);
    }
  }

  lemma StopTimerSame(m: Engine, e: Env)
    ensures StopTimer(m, e).ev == m.ev && StopTimer(m, e).job == m.job && StopTimer(m, e).state == m.state
  {
  }

  lemma WaitingIdles(quiet: bool, m: Engine, c: Cell, e: Env, accepted: Event, rejected: Event,
                     reason: ErrorReason, next: State)
    requires Passive(quiet, m, c) && next != PostDownload
    ensures Idles(quiet, m, OnWaiting(m, c, e, accepted, rejected, reason, next))
  {
    hide PassOn, EnterError, StopTimer, Calm, ErrorUp;
    StopTimerSame(m, e);
    if c.data.event == accepted {
      PassOnGoes(quiet, StopTimer(m, e), next, c, e);
    } else if c.data.event == rejected {
      FailIdles(quiet, m, StopTimer(m, e), reason, e.errorPost, true);
    } else if c.data.event == Timeout {
      FailIdles(quiet, m, m, RetryWithBackoff, e.errorPost, true);
    }
  }

  lemma FetchingJobDocIdles(quiet: bool, m: Engine, c: Cell, e: Env)
    requires Passive(quiet, m, c) && m.state == FetchingJobDoc
    ensures Idles(quiet, m, OnFetchingJobDoc(m, c, e))
  {
    hide GoTo, RaiseError, Calm;
    GoToGoes(quiet, m, JobExecution, Plain(EmptyTransition), e);
    RaiseErrorCalm(quiet, m.ev, RetryWithBackoff, e.errorPost);
    RaiseErrorCalm(quiet, m.ev, TimeoutHandlerRestartFailed, e.errorPost);
  }

  lemma NextDocIdles(quiet: bool, m: Engine, n: Engine, c: Cell, e: Env)
    requires Passive(quiet, m, c) && n.ev == m.ev && !n.job.hasActive
    ensures Idles(quiet, m, NextDoc(n, e))
  {
    hide GoTo, Calm;
    GoToGoes(quiet, n, FetchingJobDoc, Plain(EmptyTransition), e);
  }

  lemma RejectDocIdles(quiet: bool, m: Engine, n: Engine, c: Cell, e: Env)
    requires Passive(quiet, m, c) && n.ev == m.ev && !n.job.hasActive && n.state == m.state
    ensures Idles(quiet, m, RejectDoc(n, c, e))
  {
    hide NextDoc, Fail, Calm, RaiseErrorKeeping;
    NextDocIdles(quiet, m, n, c, e);
    FailIdles(quiet, m, n, FatalUnexpectedFormat, e.errorPost, true);
    RaiseErrorKeepingCalm(quiet, n.ev, JobDocReceived, c, e.errorPost);
  }

  lemma ForeignDocIdles(quiet: bool, m: Engine, n: Engine, d: Doc, c: Cell, e: Env)
    requires Passive(quiet, m, c) && n.ev == m.ev && !n.job.hasActive && n.state == m.state
    ensures Idles(quiet, m, ForeignDoc(n, d, c, e))
  {
    hide GoTo, RejectDoc, Calm;
    RejectDocIdles(quiet, m, n, c, e);
    GoToGoes(quiet, n.(job := n.job.(jobId := d.jobId), ids := [], next := 0, described := [], candidates := []),
             CustomJobExecution, Data(CustomJobExecutionRequested, Text, false), e);
  }

  lemma DocumentIdles(quiet: bool, m: Engine, d: Doc, c: Cell, e: Env)
    requires Passive(quiet, m, c) && m.state == JobDocReceived
    ensures Idles(quiet, m, OnDocument(m, d, c, e))
  {
    hide NextDoc, Fail, RejectDoc, ForeignDoc, JudgeInRound, Seen, Calm, Idles, Passive;
    SeenSameFlags(m, d, e.doc);
    SeenInactive(quiet, m, c, d, e.doc);
    var n := Seen(m, d, e.doc);
    match JudgeInRound(m.job, d, e.doc)
    case Ignore => NextDocIdles(quiet, m, n, c, e);
    case Accept(v) =>
      AcceptedHasImage(m.job, d, e.doc);
      NextDocIdles(quiet, m, Choose(n, d, v), c, e);
    case Broken => BrokenIdles(quiet, m, n, c, e);
    case Reject => RejectDocIdles(quiet, m, n, c, e);
    case Foreign => ForeignDocIdles(quiet, m, n, d, c, e);
  }

  lemma SeenInactive(quiet: bool, m: Engine, c: Cell, d: Doc, e: DocEnv)
    requires Passive(quiet, m, c)
    ensures !Seen(m, d, e).job.hasActive && Seen(m, d, e).state == m.state
  {
    hide Judge, FiletypeAfter, Calm;
  }

  lemma BrokenIdles(quiet: bool, m: Engine, n: Engine, c: Cell, e: Env)
    requires Passive(quiet, m, c) && n.ev == m.ev && !n.job.hasActive && n.state == m.state
    ensures Idles(quiet, m, Fail(n.(job := n.job.(image := NO_IMAGE)), JobDocParseFailed, e.errorPost, true))
  {
    FailIdles(quiet, m, n.(job := n.job.(image := NO_IMAGE)), JobDocParseFailed, e.errorPost, true);
  }

  lemma JobDocReceivedIdles(quiet: bool, m: Engine, c: Cell, e: Env)
    requires Passive(quiet, m, c) && m.state == JobDocReceived
    ensures Idles(quiet, m, OnJobDocReceived(m, c, e))
  {
    hide OnDocument, NextDoc, Calm;
    NextDocIdles(quiet, m, m, c, e);
    if c.data.payload.Document? {
      DocumentIdles(quiet, m, c.data.payload.doc, c, e);
    }
  }

  lemma CustomIdles(quiet: bool, m: Engine, c: Cell, e: Env)
    requires Passive(quiet, m, c) && m.state == CustomJobExecution
    ensures Idles(quiet, m, OnCustomJobExecution(m, c, e))
  {
    hide GoTo, BackToIdle, ReportCustom, Calm;
    match c.data.event
    case CustomJobExecutionRequested =>
      GoToGoes(quiet, m, CustomJobExecution, Data(CustomJobRejected, Text, false), e);
      GoToGoes(quiet, m, CustomJobExecution, Data(CustomJobFailed, Text, false), e);
    case CustomJobProgress => ReportCustomIdles(quiet, m, InProgress, c, e);
    case CustomJobSucceeded => ReportCustomIdles(quiet, m, Succeeded, c, e);
    case CustomJobFailed => ReportCustomIdles(quiet, m, Failed, c, e);
    case CustomJobRejected => ReportCustomIdles(quiet, m, Rejected, c, e);
    case UpdateAccepted => BackToIdleGoes(quiet, m, e);
    case _ =>
  }

  lemma ReportCustomIdles(quiet: bool, m: Engine, status: JobStatus, c: Cell, e: Env)
    requires Passive(quiet, m, c) && m.state == CustomJobExecution
    ensures Idles(quiet, m, ReportCustom(m, status, c, e))
  {
    hide AfterPublish, Calm;
    var n := if e.publish.Fine? then m.(job := m.job.(status := status)) else m;
    PublishIdles(quiet, m, n, e.publish, c, CustomJobExecution, e);
  }

  /** A job that is started wants no reboot, so the record matters only from POST_DOWNLOAD on. */
  lemma WorkingDone(quiet: bool, n: Engine, h: Handled)
    requires Goes(quiet, n, PostDownload, h) || Goes(quiet, n, JobExecution, h)
    requires !n.job.shouldReboot
    ensures Done(quiet, h)
  {
  }

  lemma JobExecutionDone(quiet: bool, m: Engine, c: Cell, e: Env)
    requires Start(quiet, m, c) && m.state == JobExecution
    ensures Done(quiet, OnJobExecution(m, c, e))
  {
    hide GoTo, PassOn, RaiseError, Done, Calm, StartJob, Progressed, Tame;
    var failed := Data(FinalStatusReportRequested, FinalStatus(DetailsFailed), false);
    if !m.job.hasActive {
      var n := StartJob(m, e);
      StartJobTame(m, e);
      GoToGoes(quiet, n, PostDownload, failed, e);
      StayWorks(quiet, n);
      WorkingDone(quiet, n, OnJobExecution(m, c, e));
    } else {
      ActiveDone(quiet, m, c, e);
    }
  }

  lemma StayWorks(quiet: bool, n: Engine)
    requires n.state == JobExecution && Calm(quiet, n.ev) && n.ev.recovery.state != PostDownload
    ensures Goes(quiet, n, JobExecution, Stay(n))
  {
  }

  lemma ActiveDone(quiet: bool, m: Engine, c: Cell, e: Env)
    requires Start(quiet, m, c) && m.state == JobExecution && m.job.hasActive
    ensures Done(quiet, OnJobExecution(m, c, e))
  {
    hide GoTo, PassOn, RaiseError, Done, Calm, StartJob, Progressed, ErrorUp;
    var failed := Data(FinalStatusReportRequested, FinalStatus(DetailsFailed), false);
    var n := Progressed(m, e);
    ProgressedSameFlags(m, e);
    match c.data.event
    case ImageDownloadProgress => StayWorks(quiet, n); WorkingDone(quiet, n, Stay(n));
    case ImageDownloadSucceeded =>
      PassOnGoes(quiet, n, PostDownload, c, e);
      WorkingDone(quiet, n, PassOn(n, PostDownload, c, e));
    case Timeout =>
      FailGoes(quiet, m, RetryWithBackoff, e.errorPost, true);
      WorkingDone(quiet, m, OnJobExecution(m, c, e));
    case ImageDownloadFailed(_) =>
      GoToGoes(quiet, m, PostDownload, failed, e);
      WorkingDone(quiet, m, GoTo(m, PostDownload, failed, e));
    case FinalStatusReportRequested =>
      var k := OnJobExecution(m, c, e).m;
      StayWorks(quiet, k);
      WorkingDone(quiet, k, Stay(k));
    case _ => StayWorks(quiet, m); WorkingDone(quiet, m, Stay(m));
  }

  /* ---------- POST_DOWNLOAD and ERROR ---------- */

  /** The job, the record and the flags a handler of POST_DOWNLOAD may leave in that state. */
  ghost predicate Holds(n: Engine) {
    n.job.shouldReboot ==> PendingSince(n.log) == Some(n.job.jobId)
  }

  lemma FailDone(quiet: bool, m: Engine, n: Engine, reason: ErrorReason, a: Alloc)
    requires m.ev.initialized && Calm(quiet, m.ev) && n.ev == m.ev && Holds(n)
    ensures Done(quiet, Fail(n, reason, a, true))
  {
    hide Calm, ErrorUp, Fail;
    FailGoes(quiet, n, reason, a, true);
    FailsToError(n, reason, a, true);
  }

  lemma StayDone(quiet: bool, m: Engine, n: Engine)
    requires m.ev.initialized && Calm(quiet, m.ev) && n.ev == m.ev && Holds(n) && n.state == PostDownload
    ensures Done(quiet, Stay(n))
  {
  }

  lemma PublishDone(quiet: bool, m: Engine, n: Engine, sent: Outcome, c: Cell, retryState: State, e: Env)
    requires m.ev.initialized && Calm(quiet, m.ev) && n.ev == m.ev && Holds(n) && n.state == PostDownload
    requires (quiet ==> c.data.event != RecoveryRequested)
    ensures Done(quiet, AfterPublish(n, sent, c, retryState, e))
  {
    hide AfterPublish, Calm, ErrorUp;
    AfterPublishPublishes(quiet, n, sent, c, retryState, e);
  }

  ghost predicate Downloaded(quiet: bool, m: Engine, c: Cell) {
    && m.ev.initialized && Calm(quiet, m.ev) && m.ev.recovery.state != PostDownload
    && (quiet ==> c.data.event != RecoveryRequested)
    && Holds(m) && m.state == PostDownload
  }

  lemma FinalStatusDone(quiet: bool, m: Engine, c: Cell, e: Env)
    requires Downloaded(quiet, m, c)
    ensures Done(quiet, OnFinalStatus(m, c, e))
  {
    hide AfterPublish, Fail, Calm, FinalOutcome, Done, PendingSince;
    FailDone(quiet, m, m, FatalUnexpectedFormat, e.errorPost);
    if c.data.payload.FinalStatus? {
      var sent := FinalOutcome(c.data.payload.details, e);
      PublishDone(quiet, m, m, sent, c, Idle, e);
      if sent.Fine? {
        SinceAppend(m.log, TerminalStatus(m.job.jobId));
        StayDone(quiet, m, OnFinalStatus(m, c, e).m);
      }
    }
  }

  /** The record is written for the very job that will ask for the reboot. */
  lemma OnDownloadedDone(quiet: bool, m: Engine, c: Cell, reboot: bool)
    requires Downloaded(quiet, m, c)
    ensures Done(quiet, Stay(OnDownloaded(m, reboot)))
  {
    hide Calm, Done, PendingSince;
    SinceAppend(m.log, PendingVerification(m.job.jobId, m.job.filetype));
    StayDone(quiet, m, OnDownloaded(m, reboot));
  }

  lemma UpdateAcceptedDone(quiet: bool, m: Engine, c: Cell, e: Env)
    requires Downloaded(quiet, m, c)
    ensures Done(quiet, OnUpdateAccepted(m, e))
  {
    hide Calm, Done, PendingSince, BackToIdle, Goes;
    StayDone(quiet, m, m);
    SinceAppend(m.log, RebootRequested(m.job.jobId));
    if e.cacheEmpty && m.job.shouldReboot {
      StayDone(quiet, m, m.(log := m.log + [RebootRequested(m.job.jobId)]));
    } else {
      var n := m.(job := NO_JOB, log := m.log + [Finished(m.job.jobId)]);
      BackToIdleGoes(quiet, n, e);
      DroppedDone(quiet, n, BackToIdle(n, e));
    }
  }

  lemma DroppedDone(quiet: bool, n: Engine, h: Handled)
    requires Goes(quiet, n, Idle, h) && n.job == NO_JOB
    ensures Done(quiet, h)
  {
  }

  lemma PostDownloadEventDone(quiet: bool, m: Engine, c: Cell, e: Env)
    requires Downloaded(quiet, m, c)
    ensures Done(quiet, OnPostDownloadEvent(m, c, e))
  {
    hide OnFinalStatus, OnUpdateAccepted, OnDownloaded, Done, Calm, PendingSince;
    match c.data.event
    case FinalStatusReportRequested => FinalStatusDone(quiet, m, c, e);
    case ImageDownloadSucceeded => OnDownloadedDone(quiet, m, c, c.data.flag);
    case UpdateAccepted => UpdateAcceptedDone(quiet, m, c, e);
    case _ => StayDone(quiet, m, m);
  }

  lemma PostDownloadDone(quiet: bool, m: Engine, c: Cell, e: Env)
    requires Downloaded(quiet, m, c)
    ensures Done(quiet, OnPostDownload(m, c, e))
  {
    hide OnPostDownloadEvent, AfterPublish, Calm, Done, PendingSince, FinalOutcome;
    PostDownloadEventDone(quiet, m, c, e);
    var sent := FinalOutcome(m.job.details, e);
    PublishDone(quiet, m, m, sent, c, PostDownload, e);
    SinceAppend(m.log, TerminalStatus(m.job.jobId));
    var n := FinalSent(m, m.job.details);
    PostDownloadEventDone(quiet, n.(job := n.job.(finalQueued := false)), c, e);
  }

  lemma PostRecoveryCalm(quiet: bool, ev: Events, e: Env)
    requires Calm(quiet, ev) && WellFormed(ev.recovery)
    ensures var posted := PostRecovery(ev, e);
            && Calm(quiet, posted.ev) && posted.ev.recovery.state == ev.recovery.state && posted.ev.lost == ev.lost
            && (IsQueued(ev.queue, ErrorOccurred) ==> IsQueued(posted.ev.queue, ErrorOccurred))
  {
    var r := ev.recovery;
    if r.cell.Some? {
      HandOverCalm(quiet, ev.(recovery := r.(cell := None)), r.cell.value, e.handOverOk);
    } else {
      PostCalm(quiet, ev, Plain(r.event), e.post);
    }
  }

  lemma ResetCalm(quiet: bool, ev: Events)
    requires Calm(quiet, ev)
    ensures Calm(quiet, ResetRecovery(ev)) && ResetRecovery(ev).recovery.state == Uninitialized
    ensures ResetRecovery(ev).queue == ev.queue && ResetRecovery(ev).lost == ev.lost
  {
  }

  lemma ErrorDone(quiet: bool, m: Engine, c: Cell, e: Env)
    requires Start(quiet, m, c) && m.state == ErrorState && WellFormed(m.ev.recovery)
    ensures Done(quiet, OnError(m, c, e))
  {
    hide PostRecovery, PendingSince, Calm, WellFormed, ResetRecovery, IsQueued;
    if c.data.event == RecoveryRequested {
      PostRecoveryCalm(quiet, m.ev, e);
      ResetCalm(quiet, PostRecovery(m.ev, e).ev);
    }
  }

  lemma HandleDone(quiet: bool, m: Engine, c: Cell, e: Env)
    requires Start(quiet, m, c) && WellFormed(m.ev.recovery)
    ensures Done(quiet, Handle(m, c, e))
  {
    hide OnNetworkInit, OnRebootCheck, OnIdle, OnJobsChanged, OnFetchingPendingJobs, OnWaiting, OnPendingJobsReceived,
         OnFetchingJobDoc, OnJobDocReceived, OnJobExecution, OnCustomJobExecution, OnPostDownload, OnError,
         Calm, ErrorUp, Done, Idles, PendingSince, WellFormed;
    match m.state
    case JobExecution => JobExecutionDone(quiet, m, c, e);
    case PostDownload => PostDownloadDone(quiet, m, c, e);
    case ErrorState => ErrorDone(quiet, m, c, e);
    case _ =>
      PassiveIdles(quiet, m, c, e);
      IdlesDone(quiet, m, Handle(m, c, e));
  }

  lemma PassiveIdles(quiet: bool, m: Engine, c: Cell, e: Env)
    requires Passive(quiet, m, c) && m.state != JobExecution && m.state != ErrorState
    ensures Idles(quiet, m, Handle(m, c, e))
  {
    hide OnNetworkInit, OnRebootCheck, OnIdle, OnJobsChanged, OnFetchingPendingJobs, OnWaiting, OnPendingJobsReceived,
         OnFetchingJobDoc, OnJobDocReceived, OnCustomJobExecution, Calm, PendingSince;
    match m.state
    case Uninitialized =>
    case NetworkInit => NetworkInitIdles(quiet, m, c, e);
    case RebootCheck => RebootCheckIdles(quiet, m, c, e);
    case Idle => IdleIdles(quiet, m, c, e);
    case JobsChangedState => ListIdles(quiet, m, c, e);
    case FetchingPendingJobs => FetchingPendingJobsIdles(quiet, m, c, e);
    case WaitingForPendingJobs =>
      WaitingIdles(quiet, m, c, e, PendingJobsAccepted, PendingJobsRejected, GetPendingRejected, PendingJobsReceived);
    case PendingJobsReceived => ListIdles(quiet, m, c, e);
    case FetchingJobDoc => FetchingJobDocIdles(quiet, m, c, e);
    case WaitingForJobDoc =>
      WaitingIdles(quiet, m, c, e, JobDocAccepted, JobDocRejected, DescribeJobRejected, JobDocReceived);
    case JobDocReceived => JobDocReceivedIdles(quiet, m, c, e);
    case CustomJobExecution => CustomIdles(quiet, m, c, e);
    case _ =>
  }

  /* ---------- Over quiet runs ---------- */

  lemma CalmRelease(quiet: bool, ev: Events, c: Cell)
    ensures Calm(quiet, Release(ev, c)) == Calm(quiet, ev) && Release(ev, c).queue == ev.queue
    ensures Release(ev, c).recovery == ev.recovery && Release(ev, c).lost == ev.lost
  {
  }

  lemma SettledInPlace(quiet: bool, h: Handled, c: Cell)
    requires Done(quiet, h)
    ensures InPlace(quiet, Settle(h, c))
  {
    hide Calm, PendingSince;
    CalmRelease(quiet, h.m.ev, c);
  }

  /** In a quiet run popping leaves no recovery request behind. */
  lemma PoppedStart(quiet: bool, m: Engine)
    requires Inv(m) && InPlace(quiet, m) && m.ev.queue != [] && m.ev.initialized && (quiet ==> !m.ev.lost)
    requires m.ev.queue[0].data.event != ErrorOccurred
    requires m.state != ErrorState || m.ev.queue[0].data.event == RecoveryRequested
    requires quiet || m.state != ErrorState || !m.job.hasActive || m.ev.recovery.state == PostDownload
    ensures Start(quiet, m.(ev := Pop(m.ev)), m.ev.queue[0])
  {
    hide PendingSince, Alive;
    QueuedSplit(m.ev.queue, ErrorOccurred);
    NoRequestIsGuarded(m.ev.queue[1..]);
  }

  lemma {:induction false} NoRequestIsGuarded(q: seq<Cell>)
    ensures !IsQueued(q, RecoveryRequested) ==> Guarded(q) && OneRequest(q)
    decreases |q|
  {
    if q != [] {
      QueuedSplit(q, RecoveryRequested);
      NoRequestIsGuarded(q[1..]);
    }
  }

  /** ERROR ignores everything but recovery requests and further errors. */
  lemma ErrorIgnoresKeepsPlace(quiet: bool, m: Engine, e: Env)
    requires InPlace(quiet, m) && m.ev.queue != [] && m.ev.initialized && m.state == ErrorState
    requires quiet ==> !m.ev.lost
    requires m.ev.queue[0].data.event != ErrorOccurred && m.ev.queue[0].data.event != RecoveryRequested
    ensures InPlace(quiet, RunOnce(m, e))
  {
    hide PendingSince;
    QueuedSplit(m.ev.queue, ErrorOccurred);
    CalmRelease(quiet, Pop(m.ev), m.ev.queue[0]);
  }

  lemma ErrorHandledKeepsPlace(quiet: bool, m: Engine, e: Env)
    requires Inv(m) && InPlace(quiet, m) && m.ev.queue != [] && m.ev.initialized && (quiet ==> !m.ev.lost)
    requires m.ev.queue[0].data.event == ErrorOccurred
    ensures InPlace(quiet, RunOnce(m, e))
  {
    hide PendingSince, Alive, Handle;
    CalmRelease(quiet, Pop(m.ev), m.ev.queue[0]);
    CalmRelease(quiet, Pop(m.ev).(queue := []), m.ev.queue[0]);
  }

  lemma LostStays(m: Engine, s: Step)
    requires Inv(m) && Enabled(m, s) && m.ev.lost
    ensures Next(m, s).ev.lost
  {
    match s
    case Run(e) => LostRun(m, e);
    case Initialize(a, accepted) =>
      PostExtends(m.ev.(lastError := NoError), Plain(EmptyTransition), a);
      var posted := Post(m.ev.(lastError := NoError), Plain(EmptyTransition), a);
      if posted.ok {
        DrainQueues(posted.ev, accepted);
      }
    case PostExternal(d, a) => PostExtends(m.ev, d, a);
    case TimerFires(a) => PostExtends(m.ev, Plain(Timeout), a);
    case RequestRecovery(a) => PostExtends(m.ev, Plain(RecoveryRequested), a);
    case FetchAfterSubscribeFailed(a) =>
      PostExtends(SetRecovery(m.ev, RetryWithBackoff, RecoveryFor(RetryWithBackoff)), Plain(ErrorOccurred), a);
    case TerminalConfirmed(_) =>
  }

  lemma LostRun(m: Engine, e: Env)
    requires Inv(m) && m.ev.queue != [] && m.ev.lost
    ensures RunOnce(m, e).ev.lost
  {
    if m.ev.initialized && m.ev.queue[0].data.event != ErrorOccurred {
      PoppedEvent(m);
      HandleSound(m.(ev := Pop(m.ev)), m.ev.queue[0], e);
      hide Handle, Inv;
    }
  }

  lemma RunKeepsPlace(quiet: bool, m: Engine, e: Env)
    requires Inv(m) && InPlace(quiet, m) && m.ev.queue != [] && m.ev.initialized && (quiet ==> !m.ev.lost)
    requires Allowed(quiet, m, Run(e))
    ensures InPlace(quiet, RunOnce(m, e))
  {
    hide Handle, Inv, Done, Start, InPlace, WellFormed;
    if m.ev.queue[0].data.event == ErrorOccurred {
      ErrorHandledKeepsPlace(quiet, m, e);
    } else if m.state == ErrorState && m.ev.queue[0].data.event != RecoveryRequested {
      ErrorIgnoresKeepsPlace(quiet, m, e);
    } else {
      PoppedStart(quiet, m);
      InvWellFormed(m);
      HandleDone(quiet, m.(ev := Pop(m.ev)), m.ev.queue[0], e);
      SettledInPlace(quiet, Handle(m.(ev := Pop(m.ev)), m.ev.queue[0], e), m.ev.queue[0]);
    }
  }

  lemma InvWellFormed(m: Engine)
    requires Inv(m)
    ensures WellFormed(m.ev.recovery)
  {
  }

  lemma RunUninitializedKeepsPlace(quiet: bool, m: Engine, e: Env)
    requires InPlace(quiet, m) && m.ev.queue != [] && !m.ev.initialized && (quiet ==> !m.ev.lost)
    requires m.state == Uninitialized || m.state == NetworkInit
    ensures InPlace(quiet, RunOnce(m, e))
  {
    hide PendingSince;
    QueuedSplit(m.ev.queue, RecoveryRequested);
    NoRequestIsGuarded(m.ev.queue[1..]);
    CalmRelease(quiet, Pop(m.ev), m.ev.queue[0]);
  }

  lemma PostKeepsPlace(quiet: bool, m: Engine, d: Data, a: Alloc)
    requires InPlace(quiet, m) && (quiet ==> !m.ev.lost) && d.event != RecoveryRequested
    ensures InPlace(quiet, m.(ev := PostEvent(m.ev, d, a).ev))
  {
    hide PendingSince, PostEvent;
    if Calm(quiet, m.ev) {
      PostEventCalm(quiet, m.ev, d, a);
    } else {
      PostKeepsOne(m.ev, d, a);
    }
  }

  lemma PostKeepsOne(ev: Events, d: Data, a: Alloc)
    requires OneRequest(ev.queue) && Calm(true, ev.(queue := [])) && d.event != RecoveryRequested
    ensures var ev' := PostEvent(ev, d, a).ev;
            OneRequest(ev'.queue) && Calm(true, ev'.(queue := [])) && ev'.recovery == ev.recovery && ev'.lost == ev.lost
  {
    if ev.initialized {
      PostExtends(ev, d, a);
      var q := Post(ev, d, a).ev.queue;
      if q != ev.queue {
        var c :| q == ev.queue + [c] && c.data.event == d.event;
        AppendOne(ev.queue, c);
      }
    } else if AddPreInit(ev, d, a.heapOk).ok {
      QueuedAppend(ev.preInit, Copy(ev, d, a.heapOk).cell.value, RecoveryRequested);
    }
  }

  lemma TimerKeepsPlace(quiet: bool, m: Engine, a: Alloc)
    requires InPlace(quiet, m) && (quiet ==> !m.ev.lost)
    ensures InPlace(quiet, m.(timerArmed := false, ev := PostIgnored(m.ev, Timeout, a)))
  {
    hide PostEvent, PendingSince, Guarded, OneRequest, IsQueued;
    PostKeepsPlace(quiet, m, Plain(Timeout), a);
  }

  lemma AsyncErrorKeepsPlace(quiet: bool, m: Engine, a: Alloc)
    requires InPlace(quiet, m) && (quiet ==> !m.ev.lost)
    ensures InPlace(quiet, EnterError(m, RetryWithBackoff, a))
  {
    hide PostEvent, PendingSince;
    var n := m.(ev := SetRecovery(m.ev, RetryWithBackoff, RecoveryFor(RetryWithBackoff)));
    assert InPlace(quiet, n);
    PostKeepsPlace(quiet, n, Plain(ErrorOccurred), a);
  }

  /** The request goes to the end of the queue, behind an error that was queued before. */
  lemma RequestGoesLast(ev: Events, a: Alloc)
    requires ev.initialized && !IsQueued(ev.queue, RecoveryRequested)
    ensures var ev' := PostEvent(ev, Plain(RecoveryRequested), a).ev;
            && OneRequest(ev'.queue) && (IsQueued(ev.queue, ErrorOccurred) ==> Guarded(ev'.queue))
            && ev'.(queue := []) == Post(ev, Plain(RecoveryRequested), a).ev.(queue := [])
            && ev'.initialized && ev'.preInit == ev.preInit && ev'.recovery == ev.recovery && ev'.lost == ev.lost
            && (IsQueued(ev.queue, ErrorOccurred) ==> IsQueued(ev'.queue, ErrorOccurred))
  {
    hide Post;
    PostExtends(ev, Plain(RecoveryRequested), a);
    NoRequestIsGuarded(ev.queue);
    var q := Post(ev, Plain(RecoveryRequested), a).ev.queue;
    if q != ev.queue {
      var c :| q == ev.queue + [c] && c.data.event == RecoveryRequested;
      QueuedAppend(ev.queue, c, ErrorOccurred);
      AppendOne(ev.queue, c);
      if IsQueued(ev.queue, ErrorOccurred) {
        AppendGuarded(ev.queue, c);
      }
    }
  }

  /** The error the recovery is for is handled before the request, wherever the two are in the queue. */
  lemma RequestKeepsPlace(quiet: bool, m: Engine, a: Alloc)
    requires Inv(m) && InPlace(quiet, m) && (quiet ==> !m.ev.lost) && Recoverable(m.ev.recovery)
    requires quiet ==> !IsQueued(m.ev.queue, RecoveryRequested)
    ensures InPlace(quiet, m.(ev := PostEvent(m.ev, Plain(RecoveryRequested), a).ev))
  {
    hide PendingSince, Alive, PostEvent, Recoverable;
    assert RouteGuarded(m);
    hide Inv;
    if quiet {
      RequestGoesLast(m.ev, a);
    } else {
      PostEventCalm(quiet, m.ev, Plain(RecoveryRequested), a);
    }
  }

  lemma {:induction false} DrainCalm(quiet: bool, ev: Events, accepted: seq<bool>)
    requires |accepted| == |ev.preInit| && Calm(quiet, ev)
    ensures Calm(quiet, Drain(ev, accepted).ev) && Drain(ev, accepted).ev.recovery == ev.recovery
    ensures Drain(ev, accepted).ev.lost == ev.lost && Drain(ev, accepted).ev.initialized == ev.initialized
    decreases |accepted|
  {
    if ev.preInit != [] {
      var rest := ev.(preInit := ev.preInit[1..]);
      QueuedSplit(ev.preInit, RecoveryRequested);
      HandOverCalm(quiet, rest, ev.preInit[0], accepted[0]);
      DrainCalm(quiet, HandOver(rest, ev.preInit[0], accepted[0]).ev, accepted[1..]);
    }
  }

  lemma InitKeepsPlace(quiet: bool, m: Engine, a: Alloc, accepted: seq<bool>)
    requires Inv(m) && InPlace(quiet, m) && (quiet ==> !m.ev.lost) && !m.ev.initialized && |accepted| == |m.ev.preInit|
    requires m.state == Uninitialized || m.state == NetworkInit
    ensures InPlace(quiet, Init(m, a, accepted))
  {
    hide PendingSince, Drain, Post, Guarded, OneRequest, IsQueued, Inv;
    var ev := m.ev.(lastError := NoError);
    PostCalm(quiet, ev, Plain(EmptyTransition), a);
    PostExtends(ev, Plain(EmptyTransition), a);
    var posted := Post(ev, Plain(EmptyTransition), a);
    if posted.ok {
      DrainCalm(quiet, posted.ev, accepted);
    }
  }

  lemma NextKeepsPlace(quiet: bool, m: Engine, s: Step)
    requires Inv(m) && InPlace(quiet, m) && Enabled(m, s) && Allowed(quiet, m, s)
    requires m.ev.initialized || m.state == Uninitialized || m.state == NetworkInit
    ensures InPlace(quiet, Next(m, s))
  {
    hide Inv, PostEvent, PostIgnored, RaiseError, RunOnce, Init, Calm, ActiveInPlace, RecordMatches, RequestInPlace,
         Recoverable;
    if quiet && m.ev.lost {
      LostStays(m, s);
    } else {
      match s
      case Run(e) =>
        if m.ev.initialized { RunKeepsPlace(quiet, m, e); } else { RunUninitializedKeepsPlace(quiet, m, e); }
      case Initialize(a, accepted) => InitKeepsPlace(quiet, m, a, accepted);
      case PostExternal(d, a) => PostKeepsPlace(quiet, m, d, a);
      case TimerFires(a) => TimerKeepsPlace(quiet, m, a);
      case RequestRecovery(a) => if Recoverable(m.ev.recovery) { RequestKeepsPlace(quiet, m, a); }
      case FetchAfterSubscribeFailed(a) => AsyncErrorKeepsPlace(quiet, m, a);
      case TerminalConfirmed(id) => ConfirmedKeepsPlace(quiet, m, id);
    }
  }

  lemma ConfirmedKeepsPlace(quiet: bool, m: Engine, id: string)
    requires InPlace(quiet, m)
    ensures InPlace(quiet, m.(job := m.job.(finalReported := true), log := m.log + [TerminalStatus(id)]))
  {
    hide Calm;
    SinceAppend(m.log, TerminalStatus(id));
  }

  lemma {:induction false} InPlaceOverRuns(quiet: bool, ms: seq<Engine>, steps: seq<Step>, k: nat)
    requires IsRun(ms, steps) && k < |ms| && forall i | 0 <= i < k :: Allowed(quiet, ms[i], steps[i])
    ensures Inv(ms[k]) && InPlace(quiet, ms[k])
    decreases k
  {
    InvOverRuns(ms, steps, k);
    if k == 0 {
      var poolSize, hasCb :| ms[0] == Fresh(poolSize, hasCb);
    } else {
      hide Inv, InPlace, Next, Enabled, Allowed;
      InPlaceOverRuns(quiet, ms, steps, k - 1);
      BeforeInit(ms, steps, k - 1);
      NextKeepsPlace(quiet, ms[k - 1], steps[k - 1]);
    }
  }

  /** When every recovery request is served with no job active, or on the way back to POST_DOWNLOAD, the job a reboot is
      requested for is the job of the last pending-verification write, whatever was posted, refused or lost. */
  lemma RebootForRecordedJob(ms: seq<Engine>, steps: seq<Step>, k: nat, p: nat)
    requires IsRun(ms, steps) && k < |steps| && forall i | 0 <= i < k :: SafeTurn(ms[i], steps[i])
    requires |ms[k].log| <= p < |ms[k + 1].log| && ms[k + 1].log[p].RebootRequested?
    ensures PendingSince(ms[k].log) == Some(ms[k + 1].log[p].id)
  {
    hide PendingSince, TerminalSince;
    InPlaceOverRuns(false, ms, steps, k);
    TracksOverRuns(ms, steps, k);
    BeforeInit(ms, steps, k);
    NextDisciplined(ms[k], steps[k]);
    assert ms[k + 1] == Next(ms[k], steps[k]);
  }

  /** A caller can see to that: as long as no recovery is requested while an earlier request is still queued, whatever
      else is queued, and no ignored post has failed, every request is served safely. */
  lemma QuietTurnsAreSafe(ms: seq<Engine>, steps: seq<Step>, k: nat)
    requires IsRun(ms, steps) && k < |steps| && forall i | 0 <= i < k :: Quiet(ms[i], steps[i])
    requires !ms[k].ev.lost
    ensures SafeTurn(ms[k], steps[k])
  {
    InPlaceOverRuns(true, ms, steps, k);
    hide ActiveInPlace, RecordMatches, Inv;
  }

  /** What a turn that serves a recovery request does to the job, exactly: the job stays only where it is worked on if
      and only if the turn was safe. */
  lemma ServedInPlaceExactlyWhenSafe(m: Engine, e: Env)
    requires Inv(m) && InPlace(false, m) && Serves(m, Run(e)) && RunOnce(m, e).state != ErrorState
    ensures ActiveInPlace(RunOnce(m, e)) && RecordMatches(RunOnce(m, e)) <==> SafeTurn(m, Run(e))
  {
    ServedState(m, e);
    InvWellFormed(m);
    hide PendingSince, Inv, RecordMatches, RunOnce;
    if SafeTurn(m, Run(e)) {
      RunKeepsPlace(false, m, e);
    }
  }

  lemma ServedState(m: Engine, e: Env)
    requires Serves(m, Run(e)) && RunOnce(m, e).state != ErrorState
    ensures var n := RunOnce(m, e);
            n.state == m.ev.recovery.state && n.job == m.job && n.ev.lost == m.ev.lost
  {
    hide Post, HandOver;
    var ev := Pop(m.ev);
    PostSameLost(ev, Plain(ev.recovery.event), e.post);
    if ev.recovery.cell.Some? {
      HandOverSameLost(ev.(recovery := ev.recovery.(cell := None)), ev.recovery.cell.value, e.handOverOk);
    }
  }

  lemma PostSameLost(ev: Events, d: Data, a: Alloc)
    ensures Post(ev, d, a).ev.lost == ev.lost
  {
  }

  lemma HandOverSameLost(ev: Events, c: Cell, addOk: bool)
    ensures HandOver(ev, c, addOk).ev.lost == ev.lost
  {
  }
}
