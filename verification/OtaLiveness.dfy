/** No silent stall: in every reachable state something is under way that moves the machine on. */
module OtaLiveness {
  import opened Wrappers
  import opened OtaTypes
  import opened OtaSpec

  ghost predicate IsQueued(q: seq<Cell>, event: Event) {
    exists i | 0 <= i < |q| :: q[i].data.event == event
  }

  /** The event a state is entered to handle; states that wait for the outside have none. */
  function Driver(s: State): Option<Event> {
    match s
    case NetworkInit => Some(EmptyTransition)
    case JobsChangedState => Some(JobsChanged)
    case FetchingPendingJobs => Some(EmptyTransition)
    case PendingJobsReceived => Some(PendingJobsAccepted)
    case FetchingJobDoc => Some(EmptyTransition)
    case JobDocReceived => Some(JobDocAccepted)
    case JobExecution => Some(EmptyTransition)
    case Uninitialized => Some(ErrorOccurred)
    case _ => None
  }

  predicate Waiting(s: State) {
    s == WaitingForPendingJobs || s == WaitingForJobDoc
  }

  /** A waiting state has a timer running or a time-out on its way, an active job belongs to the downloader,
      and every other state with a driving event has that event queued. */
  ghost predicate Driven(m: Engine) {
    if Waiting(m.state) then m.timerArmed || IsQueued(m.ev.queue, Timeout)
    else (m.state == JobExecution && m.job.hasActive)
         || Driver(m.state).None?
         || IsQueued(m.ev.queue, Driver(m.state).value)
  }

  /** Either the machine is driven, or an ERROR_OCCURRED is queued that will take it to ERROR. */
  ghost predicate Alive(m: Engine) {
    m.ev.lost || IsQueued(m.ev.queue, ErrorOccurred) || Driven(m)
  }

  /** The states an error context can lead back to. */
  predicate RecoveryTarget(s: State) {
    || s == Uninitialized || s == NetworkInit || s == Idle
    || s == RebootCheck || s == JobDocReceived || s == CustomJobExecution || s == PostDownload
  }

  /** A recovery context is the initial one, one of the two retry routes, or refuses `ota_job_state_recover`;
      a kept event is the driving event of the state it will be handed to. */
  ghost predicate WellFormed(r: Recovery) {
    && RecoveryTarget(r.state)
    && (r.cell.Some? ==> r.event == ErrorOccurred
                         && (Driver(r.state).None? || Driver(r.state) == Some(r.cell.value.data.event)))
    && (r.event == ErrorOccurred || r == RecoveryFor(SubscriptionFailed) || r == RecoveryFor(RetryWithBackoff)
        || r == Recovery(Uninitialized, None, RebootCheckRequested))
  }

  /** The initial recovery context is gone before the first error arrives. */
  ghost predicate ErrorSetsRecovery(m: Engine) {
    m.ev.recovery.event == RebootCheckRequested ==>
      && m.state != ErrorState
      && !IsQueued(m.ev.queue, ErrorOccurred) && !IsQueued(m.ev.preInit, ErrorOccurred)
  }

  /** Neither a kept event nor the state it is kept for survives outside ERROR. */
  predicate Retained(r: Recovery) {
    r.cell.Some? || !(r.state == Uninitialized || r.state == NetworkInit || r.state == Idle)
  }

  /** As long as a recovery route is set, the error it is for is still queued or the machine is in ERROR. */
  ghost predicate RouteGuarded(m: Engine) {
    Recoverable(m.ev.recovery) ==>
      m.ev.initialized && (m.ev.lost || m.state == ErrorState || IsQueued(m.ev.queue, ErrorOccurred))
  }

  ghost predicate Inv(m: Engine) {
    && (m.subIntended ==> m.ev.initialized)
    && RouteGuarded(m)
    && WellFormed(m.ev.recovery)
    && ErrorSetsRecovery(m)
    && (Retained(m.ev.recovery) ==> m.ev.initialized && m.state == ErrorState)
    && (m.ev.initialized ==> Alive(m))
  }

  lemma QueuedPrefix(q: seq<Cell>, q': seq<Cell>, event: Event)
    requires q <= q' && IsQueued(q, event)
    ensures IsQueued(q', event)
  {
    var i :| 0 <= i < |q| && q[i].data.event == event;
    assert q'[i] == q[i];
  }

  lemma QueuedSplit(q: seq<Cell>, event: Event)
    requires q != []
    ensures IsQueued(q, event) <==> q[0].data.event == event || IsQueued(q[1..], event)
  {
    if IsQueued(q, event) && q[0].data.event != event {
      var i :| 0 <= i < |q| && q[i].data.event == event;
      assert q[1..][i - 1] == q[i];
    }
    if IsQueued(q[1..], event) {
      var i :| 0 <= i < |q[1..]| && q[1..][i].data.event == event;
      assert q[i + 1] == q[1..][i];
    }
  }

  lemma QueuedAppend(q: seq<Cell>, c: Cell, event: Event)
    ensures IsQueued(q + [c], event) <==> IsQueued(q, event) || c.data.event == event
  {
    assert (q + [c])[|q|] == c;
    if IsQueued(q, event) {
      QueuedPrefix(q, q + [c], event);
    }
  }

  /* ---------- What the primitives do to the queue ---------- */

  /** Nothing is taken out of the queue, and only `added` is put in. */
  ghost predicate Extends(ev: Events, ev': Events, added: Event) {
    && ev'.initialized == ev.initialized && ev'.recovery == ev.recovery
    && ev'.leaked == ev.leaked && ev'.lost == ev.lost
    && (ev'.queue == ev.queue || exists c :: ev'.queue == ev.queue + [c] && c.data.event == added)
  }

  lemma PostExtends(ev: Events, d: Data, a: Alloc)
    ensures Extends(ev, Post(ev, d, a).ev, d.event)
    ensures Post(ev, d, a).ok ==> IsQueued(Post(ev, d, a).ev.queue, d.event)
    ensures !Post(ev, d, a).ok ==> Post(ev, d, a).ev.queue == ev.queue
    ensures Post(ev, d, a).ev.preInit == ev.preInit
  {
    var copied := Copy(ev, d, a.heapOk);
    if copied.cell.Some? {
      QueuedAppend(copied.ev.queue, copied.cell.value, d.event);
    }
  }

  lemma HandOverExtends(ev: Events, c: Cell, addOk: bool)
    ensures Extends(ev, HandOver(ev, c, addOk).ev, c.data.event)
    ensures addOk ==> IsQueued(HandOver(ev, c, addOk).ev.queue, c.data.event)
    ensures HandOver(ev, c, addOk).ev.preInit == ev.preInit
    ensures HandOver(ev, c, addOk).ok == addOk
    ensures !addOk ==> HandOver(ev, c, addOk).ev.queue == ev.queue
  {
    QueuedAppend(ev.queue, c, c.data.event);
  }

  lemma PostedErrorQueued(ev: Events, event: Event, a: Alloc)
    requires ev.initialized
    ensures var ev' := PostIgnored(ev, event, a);
            && ev'.initialized && ev.queue <= ev'.queue && ev'.recovery == ev.recovery && ev'.leaked == ev.leaked
            && (ev.lost ==> ev'.lost) && (ev'.lost || IsQueued(ev'.queue, event))
            && ev'.preInit == ev.preInit
  {
    PostExtends(ev, Plain(event), a);
  }

  /* ---------- What a handler may do ---------- */

  /** The handler only appends to the queue, leaks nothing, keeps the recovery context well formed, sets it
      before the first error, and leaves the machine alive in its next state. */
  ghost predicate Sound(ev: Events, h: Handled) {
    var ev' := h.m.ev;
    && ev'.initialized && ev.queue <= ev'.queue && ev'.preInit == ev.preInit && ev'.leaked == ev.leaked
    && (ev.lost ==> ev'.lost)
    && WellFormed(ev'.recovery)
    && RouteGuarded(h.m.(state := h.next))
    && (Retained(ev'.recovery) ==> h.next == ErrorState)
    && (ev'.recovery.event == RebootCheckRequested ==>
          h.next != ErrorState && ev'.recovery == ev.recovery
          && (IsQueued(ev'.queue, ErrorOccurred) ==> IsQueued(ev.queue, ErrorOccurred)))
    && Alive(h.m.(state := h.next))
  }

  /** `ev` is `ev0` up to the pool and the heap. */
  ghost predicate Same(ev0: Events, ev: Events) {
    && ev.initialized == ev0.initialized && ev.queue == ev0.queue && ev.preInit == ev0.preInit
    && ev.recovery == ev0.recovery && ev.leaked == ev0.leaked && ev.lost == ev0.lost
  }

  /** The state of affairs a handler starts from: the popped event `c` may have been the driving one. */
  ghost predicate Popped(m: Engine, c: Cell) {
    && m.ev.initialized && c.data.event != ErrorOccurred
    && WellFormed(m.ev.recovery) && RouteGuarded(m)
    && (Retained(m.ev.recovery) ==> m.state == ErrorState)
    && (m.ev.recovery.event == RebootCheckRequested ==> m.state != ErrorState && !IsQueued(m.ev.queue, ErrorOccurred))
    && (Alive(m) || if Waiting(m.state) then c.data.event == Timeout else Driver(m.state) == Some(c.data.event))
  }

  ghost predicate Ready(ev: Events) {
    && ev.initialized && !Retained(ev.recovery) && WellFormed(ev.recovery)
    && (Recoverable(ev.recovery) ==> ev.lost || IsQueued(ev.queue, ErrorOccurred))
  }

  lemma ErrorSound(ev: Events, m: Engine, reason: ErrorReason, a: Alloc)
    requires Ready(ev) && Same(ev, m.ev)
    ensures Sound(ev, Fail(m, reason, a, true)) && Sound(ev, Fail(m, reason, a, false))
    ensures Sound(ev, Stay(EnterError(m, reason, a)))
  {
    PostedErrorQueued(SetRecovery(m.ev, reason, RecoveryFor(reason)), ErrorOccurred, a);
  }

  lemma FailKeepingSound(ev: Events, m: Engine, state: State, c: Cell, e: Env)
    requires Ready(ev) && Same(ev, m.ev)
    requires RecoveryTarget(state) && (Driver(state).None? || Driver(state) == Some(c.data.event))
    ensures Sound(ev, FailKeeping(m, state, c, e))
  {
    PostedErrorQueued(SetRecovery(m.ev, RetryWithBackoff, Recovery(state, Some(c), ErrorOccurred)), ErrorOccurred,
                      e.errorPost);
  }

  lemma MovedSound(ev: Events, m: Engine, next: State, free: bool, event: Event)
    requires Ready(ev) && Extends(ev, m.ev, event) && m.ev.preInit == ev.preInit && event != ErrorOccurred
    requires ev.recovery.event == RebootCheckRequested ==> next != ErrorState
    requires !Waiting(next) && (Driver(next).None? || IsQueued(m.ev.queue, Driver(next).value))
    ensures Sound(ev, Handled(m, next, free))
  {
    if m.ev.queue != ev.queue {
      var c :| m.ev.queue == ev.queue + [c] && c.data.event == event;
      QueuedAppend(ev.queue, c, ErrorOccurred);
    }
  }

  lemma GoToSound(ev: Events, m: Engine, next: State, d: Data, e: Env)
    requires Ready(ev) && Same(ev, m.ev) && d.event != ErrorOccurred
    requires next != ErrorState && !Waiting(next) && (Driver(next).None? || Driver(next) == Some(d.event))
    ensures Sound(ev, GoTo(m, next, d, e))
  {
    PostExtends(m.ev, d, e.post);
    var posted := Post(m.ev, d, e.post);
    if posted.ok {
      MovedSound(ev, m.(ev := posted.ev), next, true, d.event);
    } else {
      ErrorSound(ev, m.(ev := posted.ev), RetryWithBackoff, e.errorPost);
    }
  }

  lemma PassOnSound(ev: Events, m: Engine, next: State, c: Cell, e: Env)
    requires Ready(ev) && Same(ev, m.ev) && c.data.event != ErrorOccurred
    requires next != ErrorState && !Waiting(next) && (Driver(next).None? || Driver(next) == Some(c.data.event))
    ensures Sound(ev, PassOn(m, next, c, e))
  {
    HandOverExtends(m.ev, c, e.handOverOk);
    var posted := HandOver(m.ev, c, e.handOverOk);
    if posted.ok {
      MovedSound(ev, m.(ev := posted.ev), next, false, c.data.event);
    } else {
      ErrorSound(ev, m.(ev := posted.ev), RetryWithBackoff, e.errorPost);
    }
  }

  lemma RestSound(ev: Events, m: Engine, next: State)
    requires Ready(ev) && Same(ev, m.ev) && next != ErrorState && !Waiting(next) && Driver(next).None?
    ensures Sound(ev, Handled(m, next, true))
  {
  }

  lemma BackToIdleSound(ev: Events, m: Engine, e: Env)
    requires Ready(ev) && Same(ev, m.ev)
    ensures Sound(ev, BackToIdle(m, e))
  {
    PostExtends(m.ev, Plain(FetchRequested), e.post);
    var posted := PostEvent(m.ev, Plain(FetchRequested), e.post);
    if posted.ok {
      MovedSound(ev, m.(ev := posted.ev), Idle, true, FetchRequested);
    } else {
      ErrorSound(ev, m.(ev := posted.ev), RetryWithBackoff, e.errorPost);
    }
  }

  lemma AfterPublishSound(ev: Events, m: Engine, sent: Outcome, c: Cell, retryState: State, e: Env)
    requires Ready(ev) && Same(ev, m.ev) && RecoveryTarget(retryState) && Driver(retryState).None?
    requires m.state != ErrorState && !Waiting(m.state) && Driver(m.state).None?
    ensures Sound(ev, AfterPublish(m, sent, c, retryState, e))
  {
    match sent
    case Fine => RestSound(ev, m, m.state);
    case InvalidArg => ErrorSound(ev, m, FatalUnexpectedFormat, e.errorPost);
    case Failure => FailKeepingSound(ev, m, retryState, c, e);
  }

  /** An ignored event changes nothing, and it was not the driving one. */
  lemma IgnoredSound(m: Engine, c: Cell)
    requires Popped(m, c) && Alive(m)
    ensures Sound(m.ev, Stay(m))
  {
  }

  /* ---------- The handlers, state by state ---------- */

  lemma NetworkInitSound(m: Engine, c: Cell, e: Env)
    requires Popped(m, c) && m.state == NetworkInit
    ensures Sound(m.ev, OnNetworkInit(m, c, e))
  {
    if c.data.event != EmptyTransition {
      IgnoredSound(m, c);
    } else if !m.subIntended && !e.subscribeOk {
      ErrorSound(m.ev, m.(subIntended := true), SubscriptionFailed, e.errorPost);
    } else {
      var h := OnNetworkInit(m, c, e);
      if h.next == Idle {
        PostExtends(m.ev, Plain(EmptyTransition), e.post);
        MovedSound(m.ev, h.m, Idle, true, EmptyTransition);
      } else {
        RestSound(m.ev, h.m, RebootCheck);
      }
    }
  }

  lemma RebootFinalStatusSound(m: Engine, c: Cell, e: Env)
    requires Ready(m.ev) && m.state == RebootCheck
    ensures Sound(m.ev, OnRebootFinalStatus(m, c, e))
  {
    if !c.data.payload.FinalStatus? {
      ErrorSound(m.ev, m, FatalUnexpectedFormat, e.errorPost);
    } else if FinalOutcome(c.data.payload.details, e).Fine? {
      RestSound(m.ev, OnRebootFinalStatus(m, c, e).m, RebootCheck);
    } else {
      AfterPublishSound(m.ev, m, FinalOutcome(c.data.payload.details, e), c, RebootCheck, e);
    }
  }

  lemma RebootVerdictSound(m: Engine, c: Cell, e: Env)
    requires Ready(m.ev) && m.state == RebootCheck
    ensures Sound(m.ev, OnRebootVerdict(m, c, e))
  {
    hide Sound, AfterPublish, VerdictFlags;
    RestSound(m.ev, m, RebootCheck);
    AfterPublishSound(m.ev, SetVerdict(m, VerdictFlags(e).isPassed, e), e.publish, c, RebootCheck, e);
  }

  lemma RebootCheckSound(m: Engine, c: Cell, e: Env)
    requires Popped(m, c) && m.state == RebootCheck
    ensures Sound(m.ev, OnRebootCheck(m, c, e))
  {
    hide Sound, OnRebootVerdict, OnRebootFinalStatus, EnterError;
    match c.data.event
    case FinalStatusReportRequested => RebootFinalStatusSound(m, c, e);
    case RebootCheckRequested => RebootVerdictSound(m, c, e);
    case UpdateAccepted =>
      RestSound(m.ev, m, RebootCheck);
      RestSound(m.ev, DropRebootedJob(m), Idle);
      ErrorSound(m.ev, DropRebootedJob(m), FatalUnexpectedFormat, e.errorPost);
    case UpdateRejected =>
      RestSound(m.ev, OnRebootCheck(m, c, e).m, OnRebootCheck(m, c, e).next);
    case _ => RestSound(m.ev, m, RebootCheck);
  }

  lemma IdleSound(m: Engine, c: Cell, e: Env)
    requires Popped(m, c) && m.state == Idle
    ensures Sound(m.ev, OnIdle(m, c, e))
  {
    match c.data.event
    case FetchRequested => GoToSound(m.ev, m, FetchingPendingJobs, Plain(EmptyTransition), e);
    case JobsChanged => PassOnSound(m.ev, m, JobsChangedState, c, e);
    case _ => RestSound(m.ev, m, Idle);
  }

  lemma StartRoundSound(m: Engine, lists: JobLists, e: Env)
    requires Ready(m.ev)
    ensures Sound(m.ev, StartRound(m, lists, e))
  {
    hide Sound;
    if lists.Malformed? {
      ErrorSound(m.ev, m, GetPendingInvalidFormat, e.errorPost);
    } else {
      RestSound(m.ev, Fill(m, lists), Idle);
      GoToSound(m.ev, Fill(m, lists), FetchingJobDoc, Plain(EmptyTransition), e);
    }
  }

  lemma JobsChangedSound(m: Engine, c: Cell, e: Env)
    requires Popped(m, c) && m.state == JobsChangedState
    ensures Sound(m.ev, OnJobsChanged(m, c, e))
  {
    if c.data.event != JobsChanged {
      IgnoredSound(m, c);
    } else if !c.data.payload.Jobs? {
      RestSound(m.ev, m, Idle);
    } else {
      StartRoundSound(m, c.data.payload.lists, e);
    }
  }

  lemma WaitSound(ev: Events, m: Engine, e: Env, next: State)
    requires Ready(ev) && Same(ev, m.ev) && Waiting(next)
    ensures Sound(ev, Handled(StartTimer(m, e), next, true))
  {
    if !e.timerOk {
      PostedErrorQueued(SetRecovery(m.ev, TimeoutHandlerRestartFailed, RecoveryFor(TimeoutHandlerRestartFailed)),
                        ErrorOccurred, e.errorPost);
    }
  }

  lemma FetchingPendingJobsSound(m: Engine, c: Cell, e: Env)
    requires Popped(m, c) && m.state == FetchingPendingJobs
    ensures Sound(m.ev, OnFetchingPendingJobs(m, c, e))
  {
    if c.data.event != EmptyTransition {
      IgnoredSound(m, c);
    } else {
      ErrorSound(m.ev, m, RetryWithBackoff, e.errorPost);
      WaitSound(m.ev, m, e, WaitingForPendingJobs);
    }
  }

  lemma AnsweredSound(m: Engine, c: Cell, e: Env, accepted: Event, rejected: Event, reason: ErrorReason, next: State)
    requires Ready(m.ev) && (c.data.event == accepted || c.data.event == rejected || c.data.event == Timeout)
    requires accepted != ErrorOccurred && next != ErrorState && !Waiting(next) && Driver(next) == Some(accepted)
    ensures Sound(m.ev, OnWaiting(m, c, e, accepted, rejected, reason, next))
  {
    hide Sound;
    if c.data.event == accepted {
      PassOnSound(m.ev, StopTimer(m, e), next, c, e);
    } else if c.data.event == rejected {
      ErrorSound(m.ev, StopTimer(m, e), reason, e.errorPost);
    } else {
      ErrorSound(m.ev, m, RetryWithBackoff, e.errorPost);
    }
  }

  lemma WaitingReady(m: Engine, c: Cell)
    requires Popped(m, c) && m.state != ErrorState
    ensures Ready(m.ev)
  {
  }

  lemma WaitingSound(m: Engine, c: Cell, e: Env, accepted: Event, rejected: Event, reason: ErrorReason, next: State)
    requires Popped(m, c) && Waiting(m.state)
    requires accepted != ErrorOccurred && next != ErrorState && !Waiting(next) && Driver(next) == Some(accepted)
    ensures Sound(m.ev, OnWaiting(m, c, e, accepted, rejected, reason, next))
  {
    if c.data.event == accepted || c.data.event == rejected || c.data.event == Timeout {
      WaitingReady(m, c);
      hide Sound, Popped;
      AnsweredSound(m, c, e, accepted, rejected, reason, next);
    } else {
      IgnoredSound(m, c);
    }
  }

  lemma PendingJobsReceivedSound(m: Engine, c: Cell, e: Env)
    requires Popped(m, c) && m.state == PendingJobsReceived
    ensures Sound(m.ev, OnPendingJobsReceived(m, c, e))
  {
    if c.data.event != PendingJobsAccepted {
      IgnoredSound(m, c);
    } else if !c.data.payload.Jobs? {
      ErrorSound(m.ev, m, GetPendingInvalidFormat, e.errorPost);
    } else {
      StartRoundSound(m, c.data.payload.lists, e);
    }
  }

  lemma FetchingJobDocSound(m: Engine, c: Cell, e: Env)
    requires Popped(m, c) && m.state == FetchingJobDoc
    ensures Sound(m.ev, OnFetchingJobDoc(m, c, e))
  {
    if c.data.event != EmptyTransition {
      IgnoredSound(m, c);
    } else if m.next >= |m.ids| {
      RestSound(m.ev, m, Idle);
      GoToSound(m.ev, m, JobExecution, Plain(EmptyTransition), e);
    } else {
      var id := m.ids[m.next];
      var n := m.(next := m.next + 1, described := m.described + [id], log := m.log + [Described(id)]);
      ErrorSound(m.ev, n, RetryWithBackoff, e.errorPost);
      WaitSound(m.ev, n, e, WaitingForJobDoc);
    }
  }

  lemma RejectDocSound(ev: Events, m: Engine, c: Cell, e: Env)
    requires Ready(ev) && Same(ev, m.ev) && c.data.event == JobDocAccepted
    ensures Sound(ev, RejectDoc(m, c, e))
  {
    hide Sound;
    ErrorSound(ev, m, FatalUnexpectedFormat, e.errorPost);
    FailKeepingSound(ev, m, JobDocReceived, c, e);
    GoToSound(ev, m, FetchingJobDoc, Plain(EmptyTransition), e);
  }

  lemma ForeignDocSound(ev: Events, m: Engine, d: Doc, c: Cell, e: Env)
    requires Ready(ev) && Same(ev, m.ev) && c.data.event == JobDocAccepted
    ensures Sound(ev, ForeignDoc(m, d, c, e))
  {
    hide Sound;
    if m.hasCustomJobCb {
      GoToSound(ev, m.(job := m.job.(jobId := d.jobId), ids := [], next := 0, described := [], candidates := []),
                CustomJobExecution, Data(CustomJobExecutionRequested, Text, false), e);
    } else {
      RejectDocSound(ev, m, c, e);
    }
  }

  lemma DocumentSound(m: Engine, d: Doc, c: Cell, e: Env)
    requires Ready(m.ev) && c.data.event == JobDocAccepted
    ensures Sound(m.ev, OnDocument(m, d, c, e))
  {
    hide Sound;
    var n := Seen(m, d, e.doc);
    assert Same(m.ev, n.ev);
    match JudgeInRound(m.job, d, e.doc)
    case Ignore => GoToSound(m.ev, n, FetchingJobDoc, Plain(EmptyTransition), e);
    case Accept(v) => GoToSound(m.ev, Choose(n, d, v), FetchingJobDoc, Plain(EmptyTransition), e);
    case Broken => ErrorSound(m.ev, n.(job := n.job.(image := NO_IMAGE)), JobDocParseFailed, e.errorPost);
    case Reject => RejectDocSound(m.ev, n, c, e);
    case Foreign => ForeignDocSound(m.ev, n, d, c, e);
  }

  lemma JobDocReceivedSound(m: Engine, c: Cell, e: Env)
    requires Popped(m, c) && m.state == JobDocReceived
    ensures Sound(m.ev, OnJobDocReceived(m, c, e))
  {
    if c.data.event != JobDocAccepted {
      IgnoredSound(m, c);
    } else if !c.data.payload.Document? {
      GoToSound(m.ev, m, FetchingJobDoc, Plain(EmptyTransition), e);
    } else {
      DocumentSound(m, c.data.payload.doc, c, e);
    }
  }

  lemma ReportCustomSound(m: Engine, status: JobStatus, c: Cell, e: Env)
    requires Ready(m.ev) && m.state == CustomJobExecution
    ensures Sound(m.ev, ReportCustom(m, status, c, e))
  {
    var n := if e.publish.Fine? then m.(job := m.job.(status := status)) else m;
    AfterPublishSound(m.ev, n, e.publish, c, CustomJobExecution, e);
  }

  lemma CustomRequestedSound(m: Engine, c: Cell, e: Env)
    requires Ready(m.ev) && m.state == CustomJobExecution && c.data.event == CustomJobExecutionRequested
    ensures Sound(m.ev, OnCustomJobExecution(m, c, e))
  {
    match e.customCb
    case Fine => RestSound(m.ev, m, CustomJobExecution);
    case InvalidArg => GoToSound(m.ev, m, CustomJobExecution, Data(CustomJobRejected, Text, false), e);
    case Failure => GoToSound(m.ev, m, CustomJobExecution, Data(CustomJobFailed, Text, false), e);
  }

  lemma CustomSound(m: Engine, c: Cell, e: Env)
    requires Ready(m.ev) && m.state == CustomJobExecution
    ensures Sound(m.ev, OnCustomJobExecution(m, c, e))
  {
    hide Sound;
    match c.data.event
    case CustomJobExecutionRequested => CustomRequestedSound(m, c, e);
    case CustomJobProgress => ReportCustomSound(m, InProgress, c, e);
    case CustomJobSucceeded => ReportCustomSound(m, Succeeded, c, e);
    case CustomJobFailed => ReportCustomSound(m, Failed, c, e);
    case CustomJobRejected => ReportCustomSound(m, Rejected, c, e);
    case UpdateAccepted =>
      if e.cacheEmpty && m.job.finalReported {
        BackToIdleSound(m.ev, m, e);
      } else {
        RestSound(m.ev, m, CustomJobExecution);
      }
    case _ => RestSound(m.ev, m, CustomJobExecution);
  }

  lemma ActiveSound(ev: Events, m: Engine)
    requires Ready(ev) && Same(ev, m.ev) && m.state == JobExecution && m.job.hasActive
    ensures Sound(ev, Stay(m))
  {
  }

  lemma FailDownloadSound(ev: Events, m: Engine, e: Env)
    requires Ready(ev) && Same(ev, m.ev)
    ensures Sound(ev, FailDownload(m, e))
  {
    GoToSound(ev, m, PostDownload, Data(FinalStatusReportRequested, FinalStatus(DetailsFailed), false), e);
  }

  lemma StartJobSound(m: Engine, c: Cell, e: Env)
    requires Ready(m.ev) && m.state == JobExecution && !m.job.hasActive
    ensures Sound(m.ev, OnJobExecution(m, c, e))
  {
    if e.downloadCbOk {
      ActiveSound(m.ev, StartJob(m, e));
    } else {
      FailDownloadSound(m.ev, StartJob(m, e), e);
    }
  }

  lemma ActiveJobSound(m: Engine, c: Cell, e: Env)
    requires Ready(m.ev) && m.state == JobExecution && m.job.hasActive && c.data.event != ErrorOccurred
    ensures Sound(m.ev, OnJobExecution(m, c, e))
  {
    hide Sound, FailDownload, PassOn, EnterError;
    match c.data.event
    case ImageDownloadProgress => ActiveSound(m.ev, Progressed(m, e));
    case ImageDownloadSucceeded => PassOnSound(m.ev, Progressed(m, e), PostDownload, c, e);
    case Timeout => ErrorSound(m.ev, m, RetryWithBackoff, e.errorPost);
    case ImageDownloadFailed(_) => FailDownloadSound(m.ev, m, e);
    case FinalStatusReportRequested => ActiveSound(m.ev, OnJobExecution(m, c, e).m);
    case _ => ActiveSound(m.ev, m);
  }

  lemma FinalStatusSound(ev: Events, m: Engine, c: Cell, e: Env)
    requires Ready(ev) && Same(ev, m.ev) && m.state == PostDownload
    ensures Sound(ev, OnFinalStatus(m, c, e))
  {
    if !c.data.payload.FinalStatus? {
      ErrorSound(ev, m, FatalUnexpectedFormat, e.errorPost);
    } else if FinalOutcome(c.data.payload.details, e).Fine? {
      RestSound(ev, OnFinalStatus(m, c, e).m, PostDownload);
    } else {
      AfterPublishSound(ev, m, FinalOutcome(c.data.payload.details, e), c, Idle, e);
    }
  }

  lemma UpdateAcceptedSound(ev: Events, m: Engine, e: Env)
    requires Ready(ev) && Same(ev, m.ev) && m.state == PostDownload
    ensures Sound(ev, OnUpdateAccepted(m, e))
  {
    hide Sound;
    if !e.cacheEmpty || (!m.job.shouldReboot && !m.job.finalReported) {
      RestSound(ev, m, PostDownload);
    } else if m.job.shouldReboot {
      RestSound(ev, m.(log := m.log + [RebootRequested(m.job.jobId)]), PostDownload);
    } else {
      BackToIdleSound(ev, m.(job := NO_JOB, log := m.log + [Finished(m.job.jobId)]), e);
    }
  }

  lemma PostDownloadEventSound(ev: Events, m: Engine, c: Cell, e: Env)
    requires Ready(ev) && Same(ev, m.ev) && m.state == PostDownload
    ensures Sound(ev, OnPostDownloadEvent(m, c, e))
  {
    hide Sound;
    match c.data.event
    case FinalStatusReportRequested => FinalStatusSound(ev, m, c, e);
    case ImageDownloadSucceeded => RestSound(ev, OnDownloaded(m, c.data.flag), PostDownload);
    case UpdateAccepted => UpdateAcceptedSound(ev, m, e);
    case _ => RestSound(ev, m, PostDownload);
  }

  lemma PostDownloadSound(m: Engine, c: Cell, e: Env)
    requires Popped(m, c) && m.state == PostDownload
    ensures Sound(m.ev, OnPostDownload(m, c, e))
  {
    hide Sound;
    if !m.job.finalQueued {
      PostDownloadEventSound(m.ev, m, c, e);
    } else if FinalOutcome(m.job.details, e).Fine? {
      var n := FinalSent(m, m.job.details);
      PostDownloadEventSound(m.ev, n.(job := n.job.(finalQueued := false)), c, e);
    } else {
      AfterPublishSound(m.ev, m, FinalOutcome(m.job.details, e), c, PostDownload, e);
    }
  }

  lemma PostRecoverySound(ev: Events, e: Env)
    requires ev.initialized && WellFormed(ev.recovery) && ev.recovery.event != RebootCheckRequested
    ensures var posted := PostRecovery(ev, e);
            && posted.ev.initialized && posted.ev.preInit == ev.preInit && posted.ev.leaked == ev.leaked
            && posted.ev.lost == ev.lost && ev.queue <= posted.ev.queue
            && WellFormed(posted.ev.recovery) && posted.ev.recovery.cell.None?
            && posted.ev.recovery.event == ev.recovery.event
            && (posted.ok ==> || IsQueued(posted.ev.queue, ErrorOccurred) || Driver(ev.recovery.state).None?
                              || IsQueued(posted.ev.queue, Driver(ev.recovery.state).value))
  {
    var r := ev.recovery;
    if r.cell.Some? {
      HandOverExtends(ev.(recovery := r.(cell := None)), r.cell.value, e.handOverOk);
    } else {
      PostExtends(ev, Plain(r.event), e.post);
    }
  }

  lemma ErrorStateSound(m: Engine, c: Cell, e: Env)
    requires Popped(m, c) && m.state == ErrorState
    ensures Sound(m.ev, OnError(m, c, e))
  {
    hide PostRecovery;
    if c.data.event == RecoveryRequested {
      PostRecoverySound(m.ev, e);
    }
  }

  lemma HandleSound(m: Engine, c: Cell, e: Env)
    requires Popped(m, c)
    ensures Sound(m.ev, Handle(m, c, e))
  {
    hide Sound;
    match m.state
    case Uninitialized => IgnoredSound(m, c);
    case NetworkInit => NetworkInitSound(m, c, e);
    case RebootCheck => RebootCheckSound(m, c, e);
    case Idle => IdleSound(m, c, e);
    case JobsChangedState => JobsChangedSound(m, c, e);
    case FetchingPendingJobs => FetchingPendingJobsSound(m, c, e);
    case WaitingForPendingJobs =>
      WaitingSound(m, c, e, PendingJobsAccepted, PendingJobsRejected, GetPendingRejected, PendingJobsReceived);
    case PendingJobsReceived => PendingJobsReceivedSound(m, c, e);
    case FetchingJobDoc => FetchingJobDocSound(m, c, e);
    case WaitingForJobDoc => WaitingSound(m, c, e, JobDocAccepted, JobDocRejected, DescribeJobRejected, JobDocReceived);
    case JobDocReceived => JobDocReceivedSound(m, c, e);
    case JobExecution =>
      if m.job.hasActive { ActiveJobSound(m, c, e); } else { StartJobSound(m, c, e); }
    case CustomJobExecution => CustomSound(m, c, e);
    case PostDownload => PostDownloadSound(m, c, e);
    case ErrorState => ErrorStateSound(m, c, e);
  }

  /* ---------- Every step keeps the invariant ---------- */

  lemma RunOnceKeepsInv(m: Engine, e: Env)
    requires Inv(m) && m.ev.queue != []
    ensures Inv(RunOnce(m, e))
  {
    var c := m.ev.queue[0];
    var n := m.(ev := Pop(m.ev));
    QueuedSplit(m.ev.queue, ErrorOccurred);
    if !m.ev.initialized || c.data.event == ErrorOccurred {
      ErrorOrReleaseKeepsInv(m, e);
    } else {
      hide Handle, Inv;
      PoppedEvent(m);
      HandleSound(n, c, e);
      SettledInv(n.ev, Handle(n, c, e), c);
    }
  }

  lemma ErrorOrReleaseKeepsInv(m: Engine, e: Env)
    requires Inv(m) && m.ev.queue != [] && (!m.ev.initialized || m.ev.queue[0].data.event == ErrorOccurred)
    ensures Inv(RunOnce(m, e))
  {
    hide Handle, WellFormed;
    if m.ev.initialized {
      ErrorKeepsInv(m, e);
    } else {
      ReleaseKeepsInv(m, e);
    }
  }

  lemma ReleaseKeepsInv(m: Engine, e: Env)
    requires Inv(m) && m.ev.queue != [] && !m.ev.initialized
    ensures Inv(RunOnce(m, e))
  {
    hide Handle, WellFormed, Alive;
    QueuedSplit(m.ev.queue, ErrorOccurred);
  }

  /** In ERROR the machine waits for a recovery request from outside. */
  lemma ErrorKeepsInv(m: Engine, e: Env)
    requires Inv(m) && m.ev.queue != [] && m.ev.initialized && m.ev.queue[0].data.event == ErrorOccurred
    ensures Inv(RunOnce(m, e))
  {
    hide Handle, WellFormed, Release;
    assert IsQueued(m.ev.queue, ErrorOccurred);
    var n := OnErrorOccurred(m.(ev := Pop(m.ev), state := ErrorState), e);
    ReleasedError(n, m.ev.queue[0]);
    hide IsQueued;
  }

  lemma ReleasedError(n: Engine, c: Cell)
    ensures var ev := Release(n.ev, c);
            && ev.initialized == n.ev.initialized && ev.queue == n.ev.queue && ev.preInit == n.ev.preInit
            && ev.recovery == n.ev.recovery && ev.lost == n.ev.lost
  {
  }

  lemma PoppedEvent(m: Engine)
    requires Inv(m) && m.ev.queue != [] && m.ev.initialized && m.ev.queue[0].data.event != ErrorOccurred
    ensures Popped(m.(ev := Pop(m.ev)), m.ev.queue[0])
    ensures m.ev.recovery.event == RebootCheckRequested ==>
              !IsQueued(Pop(m.ev).queue, ErrorOccurred) && !IsQueued(m.ev.preInit, ErrorOccurred)
  {
    QueuedSplit(m.ev.queue, ErrorOccurred);
    QueuedSplit(m.ev.queue, Timeout);
    if Driver(m.state).Some? {
      QueuedSplit(m.ev.queue, Driver(m.state).value);
    }
  }

  lemma SettledInv(ev: Events, h: Handled, c: Cell)
    requires Sound(ev, h)
    requires ev.recovery.event == RebootCheckRequested ==>
               !IsQueued(ev.queue, ErrorOccurred) && !IsQueued(ev.preInit, ErrorOccurred)
    ensures Inv(Settle(h, c))
  {
  }

  lemma {:induction false} DrainQueues(ev: Events, accepted: seq<bool>)
    requires |accepted| == |ev.preInit|
    ensures var ev' := Drain(ev, accepted).ev;
            && ev.queue <= ev'.queue && ev'.recovery == ev.recovery && ev'.lost == ev.lost && ev'.preInit == []
            && (IsQueued(ev'.queue, ErrorOccurred) ==>
                  IsQueued(ev.queue, ErrorOccurred) || IsQueued(ev.preInit, ErrorOccurred))
    decreases |accepted|
  {
    if ev.preInit != [] {
      var rest := ev.(preInit := ev.preInit[1..]);
      HandOverExtends(rest, ev.preInit[0], accepted[0]);
      QueuedAppend(ev.queue, ev.preInit[0], ErrorOccurred);
      QueuedSplit(ev.preInit, ErrorOccurred);
      DrainQueues(HandOver(rest, ev.preInit[0], accepted[0]).ev, accepted[1..]);
    }
  }

  lemma InitKeepsInv(m: Engine, a: Alloc, accepted: seq<bool>)
    requires Inv(m) && !m.ev.initialized && |accepted| == |m.ev.preInit|
    ensures Inv(Init(m, a, accepted))
  {
    hide Post, Drain, WellFormed;
    var ev := m.ev.(lastError := NoError);
    PostExtends(ev, Plain(EmptyTransition), a);
    PostQueuesNoError(ev, Plain(EmptyTransition), a);
    var posted := Post(ev, Plain(EmptyTransition), a);
    if posted.ok {
      DrainQueues(posted.ev, accepted);
      QueuedPrefix(posted.ev.queue, Drain(posted.ev, accepted).ev.queue, EmptyTransition);
    }
  }

  lemma PostQueuesNoError(ev: Events, d: Data, a: Alloc)
    requires d.event != ErrorOccurred
    ensures IsQueued(Post(ev, d, a).ev.queue, ErrorOccurred) <==> IsQueued(ev.queue, ErrorOccurred)
  {
    PostExtends(ev, d, a);
    var q := Post(ev, d, a).ev.queue;
    if q != ev.queue {
      var c :| q == ev.queue + [c] && c.data.event == d.event;
      QueuedAppend(ev.queue, c, ErrorOccurred);
    }
  }

  /** A post by anyone outside keeps the invariant, whatever becomes of it. */
  lemma PostKeepsInv(m: Engine, d: Data, a: Alloc)
    requires Inv(m) && d.event != ErrorOccurred
    ensures Inv(m.(ev := PostEvent(m.ev, d, a).ev))
    ensures PostEvent(m.ev, d, a).ok && m.ev.initialized ==> IsQueued(PostEvent(m.ev, d, a).ev.queue, d.event)
  {
    var n := m.(ev := PostEvent(m.ev, d, a).ev);
    if m.ev.initialized {
      PostExtends(m.ev, d, a);
      if n.ev.queue != m.ev.queue {
        var c :| n.ev.queue == m.ev.queue + [c] && c.data.event == d.event;
        QueuedAppend(m.ev.queue, c, ErrorOccurred);
        QueuedAppend(m.ev.queue, c, Timeout);
        if Driver(m.state).Some? {
          QueuedAppend(m.ev.queue, c, Driver(m.state).value);
        }
      }
    } else if n.ev.preInit != m.ev.preInit {
      QueuedAppend(m.ev.preInit, n.ev.preInit[|m.ev.preInit|], ErrorOccurred);
    }
  }

  lemma TimerKeepsInv(m: Engine, a: Alloc)
    requires Inv(m)
    ensures Inv(m.(timerArmed := false, ev := PostIgnored(m.ev, Timeout, a)))
  {
    PostKeepsInv(m, Plain(Timeout), a);
  }

  lemma AsyncErrorKeepsInv(m: Engine, a: Alloc)
    requires Inv(m) && m.subIntended
    ensures Inv(EnterError(m, RetryWithBackoff, a))
  {
    if m.ev.initialized {
      PostedErrorQueued(SetRecovery(m.ev, RetryWithBackoff, RecoveryFor(RetryWithBackoff)), ErrorOccurred, a);
    }
  }

  lemma NextKeepsInv(m: Engine, s: Step)
    requires Inv(m) && Enabled(m, s)
    ensures Inv(Next(m, s))
  {
    match s
    case Run(e) => RunOnceKeepsInv(m, e);
    case Initialize(a, accepted) => InitKeepsInv(m, a, accepted);
    case PostExternal(d, a) => PostKeepsInv(m, d, a);
    case TimerFires(a) => TimerKeepsInv(m, a);
    case RequestRecovery(a) => PostKeepsInv(m, Plain(RecoveryRequested), a);
    case FetchAfterSubscribeFailed(a) => AsyncErrorKeepsInv(m, a);
    case TerminalConfirmed(_) =>
  }

  lemma {:induction false} InvOverRuns(ms: seq<Engine>, steps: seq<Step>, k: nat)
    requires IsRun(ms, steps) && k < |ms|
    ensures Inv(ms[k])
    decreases k
  {
    if k == 0 {
      var poolSize, hasCb :| ms[0] == Fresh(poolSize, hasCb);
    } else {
      hide Inv, Next, Enabled;
      InvOverRuns(ms, steps, k - 1);
      NextKeepsInv(ms[k - 1], steps[k - 1]);
    }
  }

  /** No silent stall, over every run in which the two posts nobody checks have not failed: a state that must
      move on has its driving event queued, or ERROR_OCCURRED is queued; a waiting state has an armed timer, a
      queued time-out, or a queued ERROR_OCCURRED. Any other post, publish or timer call may have failed. */
  lemma NoSilentStall(ms: seq<Engine>, steps: seq<Step>, k: nat)
    requires IsRun(ms, steps) && k < |ms| && ms[k].ev.initialized && !ms[k].ev.lost
    ensures var m := ms[k];
            || IsQueued(m.ev.queue, ErrorOccurred)
            || if Waiting(m.state) then m.timerArmed || IsQueued(m.ev.queue, Timeout)
               else if m.state == JobExecution && m.job.hasActive then true
               else Driver(m.state).Some? ==> IsQueued(m.ev.queue, Driver(m.state).value)
  {
    InvOverRuns(ms, steps, k);
  }

  /** An event kept for a retry makes `ota_job_state_recover` refuse: the retry after a failed publish is
      never delivered through it. Recovery is possible exactly for the contexts of the two retry routes. */
  lemma RecoveryRoutes(ms: seq<Engine>, steps: seq<Step>, k: nat)
    requires IsRun(ms, steps) && k < |ms|
    ensures ms[k].ev.recovery.cell.Some? ==> !Recoverable(ms[k].ev.recovery) && ms[k].state == ErrorState
    ensures Recoverable(ms[k].ev.recovery) <==>
              ms[k].ev.recovery == RecoveryFor(SubscriptionFailed) || ms[k].ev.recovery == RecoveryFor(RetryWithBackoff)
  {
    InvOverRuns(ms, steps, k);
  }

  /** An event structure is leaked exactly when the subscribe handler's own error report overwrites a kept
      event; no handler of the state machine ever leaks one. */
  lemma LeakOnlyByAsyncError(ms: seq<Engine>, steps: seq<Step>, k: nat)
    requires IsRun(ms, steps) && k < |steps|
    ensures ms[k + 1].ev.leaked != ms[k].ev.leaked <==>
              steps[k].FetchAfterSubscribeFailed? && ms[k].ev.recovery.cell.Some?
  {
    InvOverRuns(ms, steps, k);
    StepLeaks(ms[k], steps[k]);
  }

  lemma StepLeaks(m: Engine, s: Step)
    requires Inv(m) && Enabled(m, s)
    ensures Next(m, s).ev.leaked != m.ev.leaked <==> s.FetchAfterSubscribeFailed? && m.ev.recovery.cell.Some?
  {
    match s
    case Run(e) => RunOnceLeaks(m, e);
    case Initialize(a, accepted) =>
      PostExtends(m.ev.(lastError := NoError), Plain(EmptyTransition), a);
      var posted := Post(m.ev.(lastError := NoError), Plain(EmptyTransition), a);
      if posted.ok {
        DrainLeaks(posted.ev, accepted);
      }
    case PostExternal(d, a) => PostExtends(m.ev, d, a);
    case TimerFires(a) => PostExtends(m.ev, Plain(Timeout), a);
    case RequestRecovery(a) => PostExtends(m.ev, Plain(RecoveryRequested), a);
    case FetchAfterSubscribeFailed(a) =>
      PostExtends(SetRecovery(m.ev, RetryWithBackoff, RecoveryFor(RetryWithBackoff)), Plain(ErrorOccurred), a);
    case TerminalConfirmed(_) =>
  }

  lemma RunOnceLeaks(m: Engine, e: Env)
    requires Inv(m) && m.ev.queue != []
    ensures RunOnce(m, e).ev.leaked == m.ev.leaked
  {
    hide Handle, Inv;
    if m.ev.initialized && m.ev.queue[0].data.event != ErrorOccurred {
      PoppedEvent(m);
      HandleSound(m.(ev := Pop(m.ev)), m.ev.queue[0], e);
    }
  }

  lemma {:induction false} DrainLeaks(ev: Events, accepted: seq<bool>)
    requires |accepted| == |ev.preInit|
    ensures Drain(ev, accepted).ev.leaked == ev.leaked
    decreases |accepted|
  {
    if ev.preInit != [] {
      DrainLeaks(HandOver(ev.(preInit := ev.preInit[1..]), ev.preInit[0], accepted[0]).ev, accepted[1..]);
    }
  }

  lemma InitializedStays(m: Engine, s: Step)
    requires Inv(m) && m.ev.initialized && Enabled(m, s)
    ensures Next(m, s).ev.initialized
  {
    match s
    case Run(e) => RunStaysInitialized(m, e);
    case PostExternal(d, a) => PostExtends(m.ev, d, a);
    case TimerFires(a) => PostExtends(m.ev, Plain(Timeout), a);
    case RequestRecovery(a) => PostExtends(m.ev, Plain(RecoveryRequested), a);
    case FetchAfterSubscribeFailed(a) =>
      PostExtends(SetRecovery(m.ev, RetryWithBackoff, RecoveryFor(RetryWithBackoff)), Plain(ErrorOccurred), a);
    case _ =>
  }

  lemma RunStaysInitialized(m: Engine, e: Env)
    requires Inv(m) && m.ev.initialized && m.ev.queue != []
    ensures RunOnce(m, e).ev.initialized
  {
    hide Handle, Inv;
    if m.ev.queue[0].data.event != ErrorOccurred {
      PoppedEvent(m);
      HandleSound(m.(ev := Pop(m.ev)), m.ev.queue[0], e);
    }
  }

  lemma StaysNetworkInit(m: Engine, s: Step)
    requires Inv(m) && Enabled(m, s) && !m.ev.initialized && (m.state == Uninitialized || m.state == NetworkInit)
    ensures Next(m, s).state == Uninitialized || Next(m, s).state == NetworkInit
  {
    hide Open, PostEvent, PostIgnored, RaiseError;
  }

  /** Nothing but NETWORK_INIT is reached before initialization. */
  lemma {:induction false} BeforeInit(ms: seq<Engine>, steps: seq<Step>, k: nat)
    requires IsRun(ms, steps) && k < |ms|
    ensures ms[k].ev.initialized || ms[k].state == Uninitialized || ms[k].state == NetworkInit
    decreases k
  {
    InvOverRuns(ms, steps, k);
    if k == 0 {
      var poolSize, hasCb :| ms[0] == Fresh(poolSize, hasCb);
    } else {
      hide Inv, Next, Enabled;
      BeforeInit(ms, steps, k - 1);
      InvOverRuns(ms, steps, k - 1);
      if ms[k - 1].ev.initialized {
        InitializedStays(ms[k - 1], steps[k - 1]);
      } else {
        StaysNetworkInit(ms[k - 1], steps[k - 1]);
      }
    }
  }
}
