/** What each turn of the state machine does, event by event: which state follows, which event is queued, what is
    reported as an error and with which way back, and what becomes of the job. */
module OtaBehaviour {
  import opened Wrappers
  import opened OtaTypes
  import opened OtaSpec
  import DownloadWindow
  import Version

  /* ---------- Posting ---------- */

  /** A post is served when the work queue has room and there is memory, or for an event without payload a slot of the
      pool. */
  predicate Room(ev: Events, d: Data, a: Alloc) {
    a.addOk && (a.heapOk || (d.payload.NoPayload? && ev.free != []))
  }

  /** `d` is the newest event; the older ones are as they were. */
  ghost predicate Adds(ev: Events, ev': Events, d: Data) {
    && |ev'.queue| == |ev.queue| + 1 && ev'.queue[..|ev.queue|] == ev.queue && ev'.queue[|ev.queue|].data == d
  }

  /** Nothing but the pool and the heap differs. */
  ghost predicate Alike(ev: Events, ev': Events) {
    && ev'.initialized == ev.initialized && ev'.preInit == ev.preInit && ev'.recovery == ev.recovery
    && ev'.lastError == ev.lastError && ev'.leaked == ev.leaked && ev'.lost == ev.lost
    && (ev'.free == [] <==> ev.free == [])
  }

  lemma PostServed(ev: Events, d: Data, a: Alloc)
    ensures var posted := Post(ev, d, a);
            && (posted.ok <==> Room(ev, d, a))
            && (posted.ok ==> Adds(ev, posted.ev, d))
            && (!posted.ok ==> posted.ev.queue == ev.queue && Alike(ev, posted.ev))
            && Alike(ev.(free := []), posted.ev.(free := []))
  {
  }

  /** A free slot saves the heap: an event without payload takes the oldest one, and its post cannot fail for want of
      memory. */
  lemma PoolFirst(ev: Events, d: Data, a: Alloc)
    requires d.payload.NoPayload? && ev.free != []
    ensures Post(ev, d, a).ok <==> a.addOk
    ensures Post(ev, d, a).ok ==>
              && Post(ev, d, a).ev.queue[|ev.queue|].origin == Slot(ev.free[0])
              && Post(ev, d, a).ev.free == ev.free[1..] && Post(ev, d, a).ev.heap == ev.heap
  {
  }

  /** Before initialization a post waits at the end of the list, if there is memory; the work queue is not touched. */
  lemma WaitsForInit(ev: Events, d: Data, a: Alloc)
    requires !ev.initialized
    ensures var posted := PostEvent(ev, d, a);
            && (posted.ok <==> a.heapOk) && posted.ev.queue == ev.queue
            && (!posted.ok ==> posted.ev == ev)
            && (posted.ok ==> |posted.ev.preInit| == |ev.preInit| + 1 && posted.ev.preInit[..|ev.preInit|] == ev.preInit
                              && posted.ev.preInit[|ev.preInit|].data == d)
  {
  }

  /* ---------- Errors ---------- */

  const ERROR := Plain(ErrorOccurred)

  /** The ERROR_OCCURRED of a report is queued, or lost. */
  ghost predicate Raised(ev: Events, ev': Events, a: Alloc) {
    if Room(ev, ERROR, a) then Adds(ev, ev', ERROR) && ev'.lost == ev.lost else ev'.queue == ev.queue && ev'.lost
  }

  /** The error `reason` is reported; the way back is through NETWORK_INIT for a failed subscription, closed for an
      unexpected format, and through a new fetch in IDLE for everything else. */
  ghost predicate Reports(ev: Events, ev': Events, reason: ErrorReason, a: Alloc) {
    && Raised(ev, ev', a) && ev'.lastError == reason && ev'.recovery.cell.None?
    && ev'.initialized == ev.initialized && ev'.preInit == ev.preInit
    && (reason == SubscriptionFailed ==> ev'.recovery.state == NetworkInit && ev'.recovery.event == EmptyTransition)
    && (reason == FatalUnexpectedFormat || reason == NoError ==> ev'.recovery.state == Uninitialized)
    && (reason != SubscriptionFailed && reason != FatalUnexpectedFormat && reason != NoError ==>
          ev'.recovery.state == Idle && ev'.recovery.event == FetchRequested)
  }

  /** The running event is kept for another try of `state`. */
  ghost predicate Retries(ev: Events, ev': Events, state: State, c: Cell, a: Alloc) {
    && Raised(ev, ev', a) && ev'.lastError == RetryWithBackoff
    && ev'.recovery.state == state && ev'.recovery.cell == Some(c) && ev'.recovery.event == ErrorOccurred
    && ev'.initialized == ev.initialized && ev'.preInit == ev.preInit
  }

  lemma ErrorReported(ev: Events, reason: ErrorReason, a: Alloc)
    requires ev.initialized
    ensures Reports(ev, RaiseError(ev, reason, a), reason, a)
  {
    hide Post;
    PostServed(SetRecovery(ev, reason, RecoveryFor(reason)), ERROR, a);
  }

  lemma ErrorKept(ev: Events, state: State, c: Cell, a: Alloc)
    requires ev.initialized
    ensures Retries(ev, RaiseErrorKeeping(ev, state, c, a), state, c, a)
  {
    hide Post;
    PostServed(SetRecovery(ev, RetryWithBackoff, Recovery(state, Some(c), ErrorOccurred)), ERROR, a);
  }

  /** A recovery is possible exactly after the reports that leave a way back. */
  lemma WayBack(ev: Events, reason: ErrorReason, a: Alloc)
    requires ev.initialized
    ensures Recoverable(RaiseError(ev, reason, a).recovery) <==> reason != NoError && reason != FatalUnexpectedFormat
  {
    ErrorReported(ev, reason, a);
  }

  /* ---------- Shapes of a turn ---------- */

  /** The turn does nothing. */
  ghost predicate Idles(m: Engine, h: Handled) {
    h == Handled(m, m.state, true)
  }

  /** The event `d` is queued and the machine goes to `next`, or the failure to queue it is an error. */
  ghost predicate Drives(m: Engine, h: Handled, next: State, d: Data, e: Env) {
    && h.m == m.(ev := h.m.ev) && h.free
    && if Room(m.ev, d, e.post) then
         h.next == next && Adds(m.ev, h.m.ev, d) && Alike(m.ev.(free := []), h.m.ev.(free := []))
       else h.next == ErrorState && Reports(m.ev, h.m.ev, RetryWithBackoff, e.errorPost)
  }

  /** The running event itself goes to the end of the queue, for the state `next`, or is freed with an error. */
  ghost predicate HandsOver(m: Engine, h: Handled, next: State, c: Cell, e: Env) {
    && h.m == m.(ev := h.m.ev) && !h.free
    && if e.handOverOk then h.next == next && h.m.ev == m.ev.(queue := m.ev.queue + [c])
       else h.next == ErrorState && Reports(Release(m.ev, c), h.m.ev, RetryWithBackoff, e.errorPost)
  }

  /** The machine goes to ERROR with a report. */
  ghost predicate Errs(m: Engine, h: Handled, reason: ErrorReason, e: Env) {
    h.m == m.(ev := h.m.ev) && h.free && h.next == ErrorState && Reports(m.ev, h.m.ev, reason, e.errorPost)
  }

  /** The machine stays, and its report takes it to ERROR later. */
  ghost predicate Complains(m: Engine, h: Handled, reason: ErrorReason, e: Env) {
    h.m == m.(ev := h.m.ev) && h.free && h.next == m.state && Reports(m.ev, h.m.ev, reason, e.errorPost)
  }

  /** A publish fails: for good, or with another try later. */
  ghost predicate Unpublished(m: Engine, h: Handled, sent: Outcome, state: State, c: Cell, e: Env) {
    && h.m == m.(ev := h.m.ev) && h.next == ErrorState
    && (sent == InvalidArg ==> h.free && Reports(m.ev, h.m.ev, FatalUnexpectedFormat, e.errorPost))
    && (sent == Failure ==> !h.free && Retries(m.ev, h.m.ev, state, c, e.errorPost))
  }

  lemma GoToDrives(m: Engine, next: State, d: Data, e: Env)
    requires m.ev.initialized
    ensures Drives(m, GoTo(m, next, d, e), next, d, e)
  {
    hide Post;
    PostServed(m.ev, d, e.post);
    hide RaiseError;
    ErrorReported(Post(m.ev, d, e.post).ev, RetryWithBackoff, e.errorPost);
  }

  lemma PassOnHandsOver(m: Engine, next: State, c: Cell, e: Env)
    requires m.ev.initialized
    ensures HandsOver(m, PassOn(m, next, c, e), next, c, e)
  {
    hide RaiseError;
    ErrorReported(Release(m.ev, c), RetryWithBackoff, e.errorPost);
  }

  lemma FailErrs(m: Engine, reason: ErrorReason, e: Env)
    requires m.ev.initialized
    ensures Errs(m, Fail(m, reason, e.errorPost, true), reason, e)
    ensures Complains(m, Stay(EnterError(m, reason, e.errorPost)), reason, e)
  {
    hide RaiseError;
    ErrorReported(m.ev, reason, e.errorPost);
  }

  lemma PublishFails(m: Engine, sent: Outcome, c: Cell, state: State, e: Env)
    requires m.ev.initialized
    ensures sent == Fine ==> Idles(m, AfterPublish(m, sent, c, state, e))
    ensures sent != Fine ==> Unpublished(m, AfterPublish(m, sent, c, state, e), sent, state, c, e)
  {
    hide RaiseError, RaiseErrorKeeping;
    ErrorReported(m.ev, FatalUnexpectedFormat, e.errorPost);
    ErrorKept(m.ev, state, c, e.errorPost);
  }

  lemma Dispatches(m: Engine, c: Cell, e: Env)
    ensures m.state == NetworkInit ==> Handle(m, c, e) == OnNetworkInit(m, c, e)
    ensures m.state == RebootCheck ==> Handle(m, c, e) == OnRebootCheck(m, c, e)
    ensures m.state == Idle ==> Handle(m, c, e) == OnIdle(m, c, e)
    ensures m.state == JobsChangedState ==> Handle(m, c, e) == OnJobsChanged(m, c, e)
    ensures m.state == FetchingPendingJobs ==> Handle(m, c, e) == OnFetchingPendingJobs(m, c, e)
    ensures m.state == PendingJobsReceived ==> Handle(m, c, e) == OnPendingJobsReceived(m, c, e)
    ensures m.state == FetchingJobDoc ==> Handle(m, c, e) == OnFetchingJobDoc(m, c, e)
    ensures m.state == JobDocReceived ==> Handle(m, c, e) == OnJobDocReceived(m, c, e)
    ensures m.state == JobExecution ==> Handle(m, c, e) == OnJobExecution(m, c, e)
    ensures m.state == CustomJobExecution ==> Handle(m, c, e) == OnCustomJobExecution(m, c, e)
    ensures m.state == PostDownload ==> Handle(m, c, e) == OnPostDownload(m, c, e)
    ensures m.state == ErrorState ==> Handle(m, c, e) == OnError(m, c, e)
  {
    hide OnNetworkInit, OnRebootCheck, OnIdle, OnJobsChanged, OnFetchingPendingJobs, OnWaiting, OnPendingJobsReceived,
         OnFetchingJobDoc, OnJobDocReceived, OnJobExecution, OnCustomJobExecution, OnPostDownload, OnError;
  }

  /* ---------- NETWORK_INIT ---------- */

  /** The record of the last boot names a job that can be verified. */
  predicate Verifiable(e: Env) {
    && e.boot.jobId.Some? && |e.boot.jobId.value| <= 64 && e.boot.version >= 0 && e.initialVersionOk
    && (e.boot.filetype.Some? ==> |e.boot.filetype.value| <= 32)
  }

  /** The topics are subscribed once; a failure is an error with a way back here, and nothing but the transition does
      anything. */
  lemma NetworkInitSubscribes(m: Engine, c: Cell, e: Env)
    requires m.state == NetworkInit && m.ev.initialized
    ensures var h := Handle(m, c, e);
            && (c.data.event != EmptyTransition ==> Idles(m, h))
            && (c.data.event == EmptyTransition && !m.subIntended && !e.subscribeOk ==>
                  Errs(m.(subIntended := true), h, SubscriptionFailed, e))
  {
    hide Handle, RaiseError, Reports;
    Dispatches(m, c, e);
    ErrorReported(m.ev, SubscriptionFailed, e.errorPost);
  }

  /** Then the record decides: REBOOT_CHECK for the job it names exactly when it is verifiable, else IDLE, and a record
      that is no good is cleared. */
  lemma BootRecordDecides(m: Engine, c: Cell, e: Env)
    requires m.state == NetworkInit && m.ev.initialized && c.data.event == EmptyTransition
    requires m.subIntended || e.subscribeOk
    ensures var h := Handle(m, c, e);
            if Verifiable(e) then
              h == Handled(m.(subIntended := true,
                              job := m.job.(jobId := e.boot.jobId.value,
                                            filetype := if e.boot.filetype.Some? then e.boot.filetype.value
                                                        else m.job.filetype)), RebootCheck, true)
            else
              && h.next == Idle && h.free
              && h.m == m.(subIntended := true, ev := h.m.ev, log := h.m.log,
                           job := if e.boot.jobId.Some? && |e.boot.jobId.value| <= 64 then m.job.(jobId := "")
                                  else m.job)
              && h.m.log == m.log + (if e.boot.jobId.Some? then [NvsCleared] else [])
              && if Room(m.ev, Plain(EmptyTransition), e.post) then Adds(m.ev, h.m.ev, Plain(EmptyTransition))
                 else h.m.ev.queue == m.ev.queue
  {
    hide Handle, ToIdle, Adds, Room;
    Dispatches(m, c, e);
    assert m.log + [] == m.log;
    var up := m.(subIntended := true);
    IdlePosts(up, e);
    IdlePosts(up.(log := m.log + [NvsCleared]), e);
    IdlePosts(up.(job := m.job.(jobId := ""), log := m.log + [NvsCleared]), e);
  }

  lemma IdlePosts(m: Engine, e: Env)
    requires m.ev.initialized
    ensures var h := ToIdle(m, e);
            && h.next == Idle && h.free && h.m == m.(ev := h.m.ev)
            && if Room(m.ev, Plain(EmptyTransition), e.post) then Adds(m.ev, h.m.ev, Plain(EmptyTransition))
               else h.m.ev.queue == m.ev.queue
  {
    hide Post;
    PostServed(m.ev, Plain(EmptyTransition), e.post);
  }

  /* ---------- REBOOT_CHECK ---------- */

  /** Status and details agree on an outcome. */
  predicate Agrees(job: Job) {
    || (job.status == Succeeded && job.details == DetailsSucceeded)
    || (job.status == Failed && job.details == DetailsFailed)
  }

  /** Whether and how a final status is published: the status timer is stopped first, and only the two outcomes can be
      published at all. */
  predicate Publishes(details: Details, e: Env, sent: Outcome) {
    if !e.statusTimerOk then sent == Failure
    else if details == DetailsSucceeded || details == DetailsFailed then sent == e.publish
    else sent == InvalidArg
  }

  function Ends(details: Details): JobStatus {
    if details == DetailsSucceeded then Succeeded else Failed
  }

  /** An application's final status is published with the status it stands for, and remembered; or the publish fails. */
  lemma RebootReportTurn(m: Engine, c: Cell, e: Env)
    requires m.state == RebootCheck && m.ev.initialized && c.data.event == FinalStatusReportRequested
    ensures var h := Handle(m, c, e);
            if !c.data.payload.FinalStatus? then Errs(m, h, FatalUnexpectedFormat, e)
            else
              var details := c.data.payload.details;
              && (Publishes(details, e, Fine) ==>
                    && h.next == RebootCheck && h.free
                    && h.m == m.(job := m.job.(status := Ends(details), details := details),
                                 log := m.log + [TerminalStatus(m.job.jobId)]))
              && (Publishes(details, e, InvalidArg) ==> Unpublished(m, h, InvalidArg, RebootCheck, c, e))
              && (Publishes(details, e, Failure) ==> Unpublished(m, h, Failure, RebootCheck, c, e))
  {
    hide Handle, Reports, Raised, AfterPublish, Fail;
    Dispatches(m, c, e);
    FailErrs(m, FatalUnexpectedFormat, e);
    PublishFails(m, InvalidArg, c, RebootCheck, e);
    PublishFails(m, Failure, c, RebootCheck, e);
  }

  /** The verdict on the default filetype is published once its flags are checked, or cannot be read; it is passed
      exactly when they can be read and say so. */
  lemma RebootVerdictTurn(m: Engine, c: Cell, e: Env)
    requires m.state == RebootCheck && m.ev.initialized && c.data.event == RebootCheckRequested
    ensures var h := Handle(m, c, e);
            var passed := e.flags.Some? && e.flags.value.isPassed;
            if m.job.filetype != "" || (e.flags.Some? && !e.flags.value.isChecked) then Idles(m, h)
            else
              && h.m.job == m.job.(status := if passed then Succeeded else Failed,
                                   details := if passed then DetailsSucceeded else DetailsFailed)
              && (e.publish == Fine ==>
                    && h.next == RebootCheck && h.free && h.m.ev == m.ev
                    && h.m.log == m.log + [TerminalStatus(m.job.jobId)])
              && (e.publish != Fine ==> Unpublished(m.(job := h.m.job), h, e.publish, RebootCheck, c, e))
  {
    hide Handle, Reports, Raised, AfterPublish;
    Dispatches(m, c, e);
    PublishFails(m.(job := SetVerdict(m, VerdictFlags(e).isPassed, e).job), e.publish, c, RebootCheck, e);
    PublishFails(SetVerdict(m, VerdictFlags(e).isPassed, e), e.publish, c, RebootCheck, e);
  }

  /** The record is cleared and the job forgotten. */
  ghost predicate Cleared(m: Engine, n: Engine) {
    && n.log == m.log + [NvsCleared] && n.job.jobId == "" && n.job.filetype == "" && !n.job.finalReported
  }

  /** An accepted update ends the check, for a custom filetype once its final status is confirmed: in IDLE, with nothing
      queued, exactly when status and details agree, and otherwise in an ERROR with no way back. */
  lemma RebootAcceptedTurn(m: Engine, c: Cell, e: Env)
    requires m.state == RebootCheck && m.ev.initialized && c.data.event == UpdateAccepted
    ensures var h := Handle(m, c, e);
            if m.job.filetype != "" && !m.job.finalReported then Idles(m, h)
            else
              && Cleared(m, h.m) && h.free
              && (h.next == Idle <==> Agrees(m.job)) && (h.next == ErrorState <==> !Agrees(m.job))
              && (Agrees(m.job) ==> h.m.ev == m.ev)
              && (!Agrees(m.job) ==> Reports(m.ev, h.m.ev, FatalUnexpectedFormat, e.errorPost))
  {
    hide Handle, RaiseError, Reports;
    Dispatches(m, c, e);
    ErrorReported(m.ev, FatalUnexpectedFormat, e.errorPost);
  }

  /** A rejected update ends the check exactly when it cannot be recovered. */
  lemma RebootRejectedTurn(m: Engine, c: Cell, e: Env)
    requires m.state == RebootCheck && c.data.event == UpdateRejected
    ensures var h := Handle(m, c, e);
            if !c.data.flag then Idles(m, h)
            else h.next == Idle && h.free && Cleared(m, h.m) && h.m.ev == m.ev && h.m.job.details == DetailsRejected
  {
    hide Handle;
    Dispatches(m, c, e);
  }

  lemma RebootOtherTurn(m: Engine, c: Cell, e: Env)
    requires m.state == RebootCheck
    requires c.data.event != FinalStatusReportRequested && c.data.event != RebootCheckRequested
    requires c.data.event != UpdateAccepted && c.data.event != UpdateRejected
    ensures Idles(m, Handle(m, c, e))
  {
    hide Handle;
    Dispatches(m, c, e);
  }

  /** Once status and details agree they do for as long as the check lasts: every turn that stays keeps it, and every
      verdict or final status that is published brings it about. */
  lemma AgreementStays(m: Engine, c: Cell, e: Env)
    requires m.state == RebootCheck && m.ev.initialized && c.data.event != ErrorOccurred
    requires Handle(m, c, e).next == RebootCheck
    requires Agrees(m.job) || Handle(m, c, e).m.log != m.log
    ensures Agrees(Handle(m, c, e).m.job)
  {
    hide Handle, Reports, Raised;
    match c.data.event
    case FinalStatusReportRequested =>
      RebootReportTurn(m, c, e);
      PublishesOne(m, c, e);
    case RebootCheckRequested => RebootVerdictTurn(m, c, e);
    case UpdateAccepted => RebootAcceptedTurn(m, c, e);
    case UpdateRejected => RebootRejectedTurn(m, c, e);
    case _ => RebootOtherTurn(m, c, e);
  }

  lemma PublishesOne(m: Engine, c: Cell, e: Env)
    requires c.data.payload.FinalStatus?
    ensures Publishes(c.data.payload.details, e, Fine) || Publishes(c.data.payload.details, e, InvalidArg)
            || Publishes(c.data.payload.details, e, Failure)
    ensures Publishes(c.data.payload.details, e, Fine) ==>
              c.data.payload.details == DetailsSucceeded || c.data.payload.details == DetailsFailed
  {
  }

  /** A good update ends well: after a published verdict or final status, whatever else came in while REBOOT_CHECK
      lasted, an accepted update (confirmed, for a custom filetype) goes to IDLE with the record cleared. */
  lemma VerifiedUpdateEndsInIdle(m: Engine, c: Cell, e: Env, n: Engine, c': Cell, e': Env)
    requires m.state == RebootCheck && m.ev.initialized && c.data.event != ErrorOccurred
    requires Handle(m, c, e).next == RebootCheck && Handle(m, c, e).m.log != m.log
    requires n.state == RebootCheck && n.ev.initialized && c'.data.event == UpdateAccepted
    requires n.job.status == Handle(m, c, e).m.job.status && n.job.details == Handle(m, c, e).m.job.details
    requires n.job.filetype == "" || n.job.finalReported
    ensures var h := Handle(n, c', e'); h.next == Idle && Cleared(n, h.m) && h.m.ev == n.ev
  {
    hide Handle;
    AgreementStays(m, c, e);
    RebootAcceptedTurn(n, c', e');
  }

  /* ---------- From IDLE to a list of jobs ---------- */

  /** IDLE is left by a fetch request, for a request of the job list, and by a change notice, which is handed over. */
  lemma IdleTurn(m: Engine, c: Cell, e: Env)
    requires m.state == Idle && m.ev.initialized
    ensures var h := Handle(m, c, e);
            && (c.data.event == FetchRequested ==> Drives(m, h, FetchingPendingJobs, Plain(EmptyTransition), e))
            && (c.data.event == JobsChanged ==> HandsOver(m, h, JobsChangedState, c, e))
            && (c.data.event != FetchRequested && c.data.event != JobsChanged ==> Idles(m, h))
  {
    hide Handle, GoTo, PassOn, Drives, HandsOver;
    Dispatches(m, c, e);
    GoToDrives(m, FetchingPendingJobs, Plain(EmptyTransition), e);
    PassOnHandsOver(m, JobsChangedState, c, e);
  }

  /** A list of jobs is an error if it cannot be read, the end in IDLE if it holds no usable id, and else the beginning
      of a round with no job pending. */
  ghost predicate Rounds(m: Engine, h: Handled, lists: JobLists, e: Env) {
    if lists.Malformed? then Errs(m, h, GetPendingInvalidFormat, e)
    else
      var n := m.(ids := RoundIds(lists), next := 0, job := m.job.(hasPending := false), described := [],
                  candidates := []);
      if RoundIds(lists) == [] then h == Handled(n, Idle, true)
      else Drives(n, h, FetchingJobDoc, Plain(EmptyTransition), e)
  }

  lemma ListRounds(m: Engine, lists: JobLists, e: Env)
    requires m.ev.initialized
    ensures Rounds(m, StartRound(m, lists, e), lists, e)
  {
    hide GoTo, Fail, Drives, Errs, RoundIds;
    FailErrs(m, GetPendingInvalidFormat, e);
    if lists.Lists? {
      GoToDrives(Fill(m, lists), FetchingJobDoc, Plain(EmptyTransition), e);
    }
  }

  /** A notice without a list ends in IDLE. */
  lemma JobsChangedTurn(m: Engine, c: Cell, e: Env)
    requires m.state == JobsChangedState && m.ev.initialized
    ensures var h := Handle(m, c, e);
            if c.data.event != JobsChanged then Idles(m, h)
            else if !c.data.payload.Jobs? then h == Handled(m, Idle, true)
            else Rounds(m, h, c.data.payload.lists, e)
  {
    hide Handle, StartRound, Rounds;
    Dispatches(m, c, e);
    if c.data.payload.Jobs? {
      ListRounds(m, c.data.payload.lists, e);
    }
  }

  lemma PendingJobsReceivedTurn(m: Engine, c: Cell, e: Env)
    requires m.state == PendingJobsReceived && m.ev.initialized
    ensures var h := Handle(m, c, e);
            if c.data.event != PendingJobsAccepted then Idles(m, h)
            else if !c.data.payload.Jobs? then Complains(m, h, GetPendingInvalidFormat, e)
            else Rounds(m, h, c.data.payload.lists, e)
  {
    hide Handle, StartRound, Rounds, RaiseError, Reports;
    Dispatches(m, c, e);
    ErrorReported(m.ev, GetPendingInvalidFormat, e.errorPost);
    if c.data.payload.Jobs? {
      ListRounds(m, c.data.payload.lists, e);
    }
  }

  /** A request was sent: the answer is waited for under a timer, or the missing timer is reported. */
  ghost predicate Awaits(m: Engine, h: Handled, next: State, e: Env) {
    && h.next == next && h.free
    && if e.timerOk then h.m == m.(timerArmed := true)
       else h.m == m.(ev := h.m.ev) && Reports(m.ev, h.m.ev, TimeoutHandlerRestartFailed, e.errorPost)
  }

  lemma FetchingPendingJobsTurn(m: Engine, c: Cell, e: Env)
    requires m.state == FetchingPendingJobs && m.ev.initialized
    ensures var h := Handle(m, c, e);
            if c.data.event != EmptyTransition then Idles(m, h)
            else if e.requestOk then Awaits(m, h, WaitingForPendingJobs, e)
            else Complains(m, h, RetryWithBackoff, e)
  {
    hide Handle, RaiseError, Reports;
    Dispatches(m, c, e);
    ErrorReported(m.ev, RetryWithBackoff, e.errorPost);
    ErrorReported(m.ev, TimeoutHandlerRestartFailed, e.errorPost);
  }

  /** The answer stops the timer and is handed over; a refusal stops it too and is an error; so is silence. */
  ghost predicate Waits(m: Engine, h: Handled, c: Cell, e: Env, accepted: Event, rejected: Event, reason: ErrorReason,
                        next: State)
  {
    var n := m.(timerArmed := m.timerArmed && !e.timerStopOk);
    if c.data.event == accepted then HandsOver(n, h, next, c, e)
    else if c.data.event == rejected then Complains(n, h, reason, e)
    else if c.data.event == Timeout then Complains(m, h, RetryWithBackoff, e)
    else Idles(m, h)
  }

  lemma WaitingWaits(m: Engine, c: Cell, e: Env, accepted: Event, rejected: Event, reason: ErrorReason, next: State)
    requires m.ev.initialized && accepted != rejected && accepted != Timeout && rejected != Timeout
    ensures Waits(m, OnWaiting(m, c, e, accepted, rejected, reason, next), c, e, accepted, rejected, reason, next)
  {
    hide PassOn, RaiseError, Reports, HandsOver;
    var n := StopTimer(m, e);
    assert n == m.(timerArmed := m.timerArmed && !e.timerStopOk);
    PassOnHandsOver(n, next, c, e);
    ErrorReported(n.ev, reason, e.errorPost);
    ErrorReported(m.ev, RetryWithBackoff, e.errorPost);
  }

  lemma WaitingTurns(m: Engine, c: Cell, e: Env)
    requires m.ev.initialized
    ensures m.state == WaitingForPendingJobs ==>
              Waits(m, Handle(m, c, e), c, e, PendingJobsAccepted, PendingJobsRejected, GetPendingRejected,
                    PendingJobsReceived)
    ensures m.state == WaitingForJobDoc ==>
              Waits(m, Handle(m, c, e), c, e, JobDocAccepted, JobDocRejected, DescribeJobRejected, JobDocReceived)
  {
    hide Waits, OnWaiting;
    WaitingWaits(m, c, e, PendingJobsAccepted, PendingJobsRejected, GetPendingRejected, PendingJobsReceived);
    WaitingWaits(m, c, e, JobDocAccepted, JobDocRejected, DescribeJobRejected, JobDocReceived);
  }

  /** The next id is described, once and in order; after the last one the pending job is executed, and without one the
      round ends in IDLE. */
  lemma FetchingJobDocTurn(m: Engine, c: Cell, e: Env)
    requires m.state == FetchingJobDoc && m.ev.initialized
    ensures var h := Handle(m, c, e);
            if c.data.event != EmptyTransition then Idles(m, h)
            else if m.next < |m.ids| then
              var id := m.ids[m.next];
              var n := m.(next := m.next + 1, described := m.described + [id], log := m.log + [Described(id)]);
              if e.requestOk then Awaits(n, h, WaitingForJobDoc, e) else Complains(n, h, RetryWithBackoff, e)
            else if m.job.hasPending then Drives(m, h, JobExecution, Plain(EmptyTransition), e)
            else h == Handled(m, Idle, true)
  {
    hide Handle, RaiseError, Reports, GoTo, Drives;
    Dispatches(m, c, e);
    ErrorReported(m.ev, RetryWithBackoff, e.errorPost);
    ErrorReported(m.ev, TimeoutHandlerRestartFailed, e.errorPost);
    GoToDrives(m, JobExecution, Plain(EmptyTransition), e);
  }

  /* ---------- Job documents ---------- */

  predicate Digits(s: string) {
    forall ch | ch in s :: '0' <= ch <= '9'
  }

  predicate Identified(d: Doc) {
    1 <= |d.jobId| <= 64 && d.hasDocument && Digits(d.executionVersion)
  }

  /** The format of an OTA document; a demanded version needs a version. */
  predicate OtaFormat(d: Doc) {
    d.hasRmngFields && (d.minFwVersion == "" || d.fwVersion != "")
  }

  predicate KnownFiletype(d: Doc, e: DocEnv) {
    |d.filetype| <= 32 && (d.filetype == "" || e.lookup.Handler?)
  }

  /** The default filetype, "", always tracks versions and parses them itself. */
  predicate Tracks(d: Doc, e: DocEnv)
    requires KnownFiletype(d, e)
  {
    d.filetype == "" || e.lookup.tracksVersion
  }

  function Running(d: Doc, e: DocEnv): Option<nat>
    requires KnownFiletype(d, e)
  {
    if d.filetype == "" then Version.Encode(e.runningVersion) else e.lookup.running
  }

  function Offered(d: Doc, e: DocEnv): Option<nat>
    requires KnownFiletype(d, e)
  {
    if d.filetype == "" then Version.Encode(d.fwVersion) else e.lookup.offered
  }

  function Demanded(d: Doc, e: DocEnv): Option<nat>
    requires KnownFiletype(d, e)
  {
    if d.filetype == "" then Version.Encode(d.minFwVersion) else e.lookup.demanded
  }

  /** The document is no upgrade unless its version can be read and is above the running one. */
  predicate Upgrade(d: Doc, e: DocEnv)
    requires KnownFiletype(d, e)
  {
    Tracks(d, e) ==>
      && d.fwVersion != "" && Running(d, e).Some? && Offered(d, e).Some?
      && Offered(d, e).value > Running(d, e).value
  }

  /** The running version meets what the document demands. */
  predicate Met(d: Doc, e: DocEnv)
    requires KnownFiletype(d, e) && Upgrade(d, e)
  {
    Tracks(d, e) && d.minFwVersion != "" ==>
      Demanded(d, e).Some? && Demanded(d, e).value <= Running(d, e).value
  }

  /** The download window admits the moment, or will within a minute; what a window with bounds that are no times of day
      admits is not defined. */
  predicate Timely(d: Doc, e: DocEnv) {
    var w := d.window;
    if DownloadWindow.Minute(e.minuteOfDay) && (DownloadWindow.DailyApplies(w, e.now) ==> DownloadWindow.Daily(w)) then
      || DownloadWindow.Admits(w, e.now, e.minuteOfDay)
      || (w.validFrom != 0 && w.validTo != 0 && w.validFrom <= w.validTo && w.validFrom - 60 < e.now < w.validFrom)
    else DownloadWindow.Delay(w, e.now, e.minuteOfDay) == 0
  }

  /** Everything that is checked before the document is compared with the best one so far. */
  predicate Eligible(d: Doc, e: DocEnv) {
    Identified(d) && OtaFormat(d) && KnownFiletype(d, e) && Upgrade(d, e) && Met(d, e) && Timely(d, e)
  }

  /** The image reference and the signature are as they should be. */
  predicate Genuine(e: DocEnv) {
    e.imageRefOk && e.signatureOk
  }

  predicate Fits(image: Image, e: DocEnv) {
    image.size <= 0x7fff_ffff && image.streamId != "" && e.copyOk
  }

  lemma DelayTimely(d: Doc, e: DocEnv)
    ensures !DownloadWindow.HasWindow(d.window) || DownloadWindow.Delay(d.window, e.now, e.minuteOfDay) == 0 <==>
              Timely(d, e)
  {
    var w := d.window;
    if DownloadWindow.Minute(e.minuteOfDay) && (DownloadWindow.DailyApplies(w, e.now) ==> DownloadWindow.Daily(w)) {
      DownloadWindow.RunsExactlyWhenAdmitted(w, e.now, e.minuteOfDay);
    }
  }

  lemma DigitsAlike(s: string)
    ensures AllDigits(s) <==> Digits(s)
  {
    if AllDigits(s) {
      assert forall i | 0 <= i < |s| :: '0' <= s[i] <= '9';
    } else {
      var i :| 0 <= i < |s| && !('0' <= s[i] <= '9');
      assert s[i] in s;
    }
  }

  /** What becomes of a document by itself, exactly. It is accepted if and only if it is identified, in the OTA format,
      of a known filetype, an upgrade whose demand is met, inside its download window, and its image is there, genuine
      and usable. */
  lemma Judged(d: Doc, e: DocEnv)
    ensures var v := Judge(d, e);
            && (v.Accept? <==> Eligible(d, e) && d.afr.Some? && Genuine(e) && Fits(d.afr.value, e))
            && (v.Accept? ==> v.version == if Tracks(d, e) then Offered(d, e).value else 0)
            && (v.Broken? <==> Eligible(d, e) && d.afr.Some? && Genuine(e) && !Fits(d.afr.value, e))
            && (v.Reject? <==>
                  && Identified(d) && OtaFormat(d)
                  && (|| !KnownFiletype(d, e) || !Upgrade(d, e) || (Eligible(d, e) && d.afr.Some? && !Genuine(e))))
            && (v.Foreign? <==> Identified(d) && (!OtaFormat(d) || (Eligible(d, e) && d.afr.None?)))
            && (v.Ignore? <==>
                  || !Identified(d)
                  || (OtaFormat(d) && KnownFiletype(d, e) && Upgrade(d, e) && (!Met(d, e) || !Timely(d, e))))
  {
    hide Timely, DownloadWindow.Delay, DownloadWindow.HasWindow, AllDigits, Digits, Version.Encode;
    DelayTimely(d, e);
    DigitsAlike(d.executionVersion);
  }

  /** In a round a document that is eligible but older than the best so far is passed over before its image is looked
      at; any other is judged by itself. */
  lemma JudgedInRound(job: Job, d: Doc, e: DocEnv)
    ensures var outdated := Eligible(d, e) && job.hasPending
                            && (if Tracks(d, e) then Offered(d, e).value else 0) < job.fwVersion;
            JudgeInRound(job, d, e) == if outdated then Ignore else Judge(d, e)
  {
    hide Timely, DownloadWindow.Delay, DownloadWindow.HasWindow, AllDigits, Digits, Version.Encode, Finish;
    DelayTimely(d, e);
    DigitsAlike(d.executionVersion);
  }

  /** What any document leaves behind: the filetype of one in the OTA format, and the history. */
  function Left(m: Engine, d: Doc, e: DocEnv): Engine {
    m.(job := m.job.(filetype := if !Identified(d) || !OtaFormat(d) then m.job.filetype
                                 else if |d.filetype| > 32 then "" else d.filetype),
       candidates := if Judge(d, e).Accept? then m.candidates + [Candidate(d, e, Judge(d, e).version)]
                     else m.candidates)
  }

  lemma SeenLeaves(m: Engine, d: Doc, e: DocEnv)
    ensures Seen(m, d, e) == Left(m, d, e)
  {
    hide Judge, Digits, AllDigits;
    DigitsAlike(d.executionVersion);
  }

  /** The rejection is published and the round goes on, or it cannot be. */
  ghost predicate Rejects(m: Engine, h: Handled, c: Cell, e: Env) {
    if !e.initialVersionOk then Errs(m, h, FatalUnexpectedFormat, e)
    else if e.publish == Fine then Drives(m, h, FetchingJobDoc, Plain(EmptyTransition), e)
    else Unpublished(m, h, e.publish, JobDocReceived, c, e)
  }

  lemma DocRejects(m: Engine, c: Cell, e: Env)
    requires m.ev.initialized
    ensures Rejects(m, RejectDoc(m, c, e), c, e)
  {
    hide GoTo, RaiseError, RaiseErrorKeeping, Drives, Reports, Retries;
    ErrorReported(m.ev, FatalUnexpectedFormat, e.errorPost);
    ErrorKept(m.ev, JobDocReceived, c, e.errorPost);
    GoToDrives(m, FetchingJobDoc, Plain(EmptyTransition), e);
  }

  /** What a document does to the round: an accepted one becomes the pending job, one in another format goes to the
      custom callback, if there is one, and ends the round, and the round goes on after any but a broken one. */
  lemma DocumentTurn(m: Engine, c: Cell, e: Env)
    requires m.state == JobDocReceived && m.ev.initialized
    requires c.data.event == JobDocAccepted && c.data.payload.Document?
    ensures var h, d := Handle(m, c, e), c.data.payload.doc;
            var n := Left(m, d, e.doc);
            match JudgeInRound(m.job, d, e.doc)
            case Ignore => Drives(n, h, FetchingJobDoc, Plain(EmptyTransition), e)
            case Accept(v) =>
              && d.afr.Some?
              && Drives(n.(job := n.job.(hasPending := true, fwVersion := v, jobId := d.jobId, image := d.afr.value)),
                        h, FetchingJobDoc, Plain(EmptyTransition), e)
            case Broken => Errs(n.(job := n.job.(image := NO_IMAGE)), h, JobDocParseFailed, e)
            case Reject => Rejects(n, h, c, e)
            case Foreign =>
              if !m.hasCustomJobCb then Rejects(n, h, c, e)
              else
                Drives(n.(job := n.job.(jobId := d.jobId), ids := [], next := 0, described := [], candidates := []), h,
                       CustomJobExecution, Data(CustomJobExecutionRequested, Text, false), e)
  {
    hide Handle, JudgeInRound, Judge, GoTo, RejectDoc, Fail, Drives, Rejects, Errs, Seen, Left;
    Dispatches(m, c, e);
    var d := c.data.payload.doc;
    SeenLeaves(m, d, e.doc);
    LeftSame(m, d, e.doc);
    var n := Left(m, d, e.doc);
    DocRejects(n, c, e);
    match JudgeInRound(m.job, d, e.doc)
    case Ignore => GoToDrives(n, FetchingJobDoc, Plain(EmptyTransition), e);
    case Accept(v) =>
      AcceptedHasImage(m.job, d, e.doc);
      GoToDrives(n.(job := n.job.(hasPending := true, fwVersion := v, jobId := d.jobId, image := d.afr.value)),
                 FetchingJobDoc, Plain(EmptyTransition), e);
    case Broken => FailErrs(n.(job := n.job.(image := NO_IMAGE)), JobDocParseFailed, e);
    case Foreign =>
      GoToDrives(n.(job := n.job.(jobId := d.jobId), ids := [], next := 0, described := [], candidates := []),
                 CustomJobExecution, Data(CustomJobExecutionRequested, Text, false), e);
    case _ =>
  }

  lemma LeftSame(m: Engine, d: Doc, e: DocEnv)
    ensures Left(m, d, e).ev == m.ev && Left(m, d, e).hasCustomJobCb == m.hasCustomJobCb
  {
  }

  lemma JobDocReceivedTurn(m: Engine, c: Cell, e: Env)
    requires m.state == JobDocReceived && m.ev.initialized
    ensures c.data.event != JobDocAccepted ==> Idles(m, Handle(m, c, e))
    ensures c.data.event == JobDocAccepted && !c.data.payload.Document? ==>
              Drives(m, Handle(m, c, e), FetchingJobDoc, Plain(EmptyTransition), e)
  {
    hide Handle, GoTo, OnDocument, Drives;
    Dispatches(m, c, e);
    GoToDrives(m, FetchingJobDoc, Plain(EmptyTransition), e);
  }

  /** A job keeps the filetype of the last document in the OTA format, whichever document was chosen: an older offer for
      the custom filetype "f", passed over, leaves the chosen job of the default filetype with filetype "f". */
  lemma PassedOverDocumentSetsFiletype(m: Engine, c: Cell, e: Env, d: Doc)
    requires m.state == JobDocReceived && m.ev.initialized && m.job.hasPending && m.job.filetype == ""
    requires m.job.fwVersion > 0 && c.data == Data(JobDocAccepted, Document(d), false)
    requires d.filetype == "f" && e.doc.lookup == Handler(false, None, None, None) && Eligible(d, e.doc)
    ensures var n := Handle(m, c, e).m; n.job == m.job.(filetype := "f")
  {
    hide Handle, Eligible, Judge, JudgeInRound, Drives, Version.Encode;
    DocumentTurn(m, c, e);
    JudgedInRound(m.job, d, e.doc);
    PassedOver(m, d, e);
    hide Left;
    DrivesKeepsJob(Left(m, d, e.doc), Handle(m, c, e), e);
  }

  lemma PassedOver(m: Engine, d: Doc, e: Env)
    requires d.filetype == "f" && Eligible(d, e.doc) && e.doc.lookup == Handler(false, None, None, None)
    ensures KnownFiletype(d, e.doc) && !Tracks(d, e.doc) && Left(m, d, e.doc).job == m.job.(filetype := "f")
  {
  }

  lemma DrivesKeepsJob(m: Engine, h: Handled, e: Env)
    requires Drives(m, h, FetchingJobDoc, Plain(EmptyTransition), e)
    ensures h.m.job == m.job
  {
  }

  /* ---------- Custom jobs ---------- */

  /** The status a report of the application stands for. */
  function Reported(event: Event): Option<JobStatus> {
    match event
    case CustomJobProgress => Some(InProgress)
    case CustomJobSucceeded => Some(Succeeded)
    case CustomJobFailed => Some(Failed)
    case CustomJobRejected => Some(Rejected)
    case _ => None
  }

  /** The callback takes the job, or its answer becomes a report; a report is published with its status, or kept for
      another try; and the job is over once an update is accepted with nothing left to send and its final status out. */
  lemma CustomTurn(m: Engine, c: Cell, e: Env)
    requires m.state == CustomJobExecution && m.ev.initialized
    ensures var h := Handle(m, c, e);
            if c.data.event == CustomJobExecutionRequested then
              && (e.customCb == Fine ==> Idles(m, h))
              && (e.customCb == InvalidArg ==>
                    Drives(m, h, CustomJobExecution, Data(CustomJobRejected, Text, false), e))
              && (e.customCb == Failure ==>
                    Drives(m, h, CustomJobExecution, Data(CustomJobFailed, Text, false), e))
            else if Reported(c.data.event).Some? then
              if e.publish == Fine then
                h == Handled(m.(job := m.job.(status := Reported(c.data.event).value)), m.state, true)
              else Unpublished(m, h, e.publish, CustomJobExecution, c, e)
            else if c.data.event == UpdateAccepted && e.cacheEmpty && m.job.finalReported then
              Drives(m, h, Idle, Plain(FetchRequested), e)
            else Idles(m, h)
  {
    hide Handle, GoTo, BackToIdle, AfterPublish, Drives, Unpublished;
    Dispatches(m, c, e);
    GoToDrives(m, CustomJobExecution, Data(CustomJobRejected, Text, false), e);
    GoToDrives(m, CustomJobExecution, Data(CustomJobFailed, Text, false), e);
    FetchDrives(m, e);
    if Reported(c.data.event).Some? {
      CustomReports(m, Reported(c.data.event).value, c, e);
    }
  }

  lemma CustomReports(m: Engine, status: JobStatus, c: Cell, e: Env)
    requires m.ev.initialized
    ensures var h := ReportCustom(m, status, c, e);
            if e.publish == Fine then h == Handled(m.(job := m.job.(status := status)), m.state, true)
            else Unpublished(m, h, e.publish, CustomJobExecution, c, e)
  {
    hide AfterPublish, Unpublished;
    PublishFails(m, e.publish, c, CustomJobExecution, e);
    PublishFails(m.(job := m.job.(status := status)), e.publish, c, CustomJobExecution, e);
  }

  lemma FetchDrives(m: Engine, e: Env)
    requires m.ev.initialized
    ensures Drives(m, BackToIdle(m, e), Idle, Plain(FetchRequested), e)
  {
    hide Post;
    PostServed(m.ev, Plain(FetchRequested), e.post);
    hide RaiseError;
    ErrorReported(Post(m.ev, Plain(FetchRequested), e.post).ev, RetryWithBackoff, e.errorPost);
  }

  /* ---------- JOB_EXECUTION ---------- */

  const DOWNLOAD_FAILED := Data(FinalStatusReportRequested, FinalStatus(DetailsFailed), false)

  function InWork(m: Engine, e: Env): Engine {
    if e.publish == Fine then m.(job := m.job.(status := InProgress)) else m
  }

  /** Whatever event comes first starts the pending job: it is active, wants no reboot and has nothing reported or
      queued; when its download cannot be started it goes on to POST_DOWNLOAD as failed. */
  lemma JobStartTurn(m: Engine, c: Cell, e: Env)
    requires m.state == JobExecution && m.ev.initialized && !m.job.hasActive
    ensures var h := Handle(m, c, e);
            var n := InWork(m.(job := m.job.(hasActive := true, shouldReboot := false, finalReported := false,
                                             finalQueued := false),
                               log := m.log + [Started(m.job.jobId)]), e);
            if e.downloadCbOk then h == Handled(n, JobExecution, true)
            else Drives(n, h, PostDownload, DOWNLOAD_FAILED, e)
  {
    hide Handle, GoTo, Drives;
    Dispatches(m, c, e);
    GoToDrives(StartJob(m, e), PostDownload, DOWNLOAD_FAILED, e);
  }

  predicate DoesNotMatter(event: Event) {
    && event != ImageDownloadProgress && event != ImageDownloadSucceeded && event != Timeout
    && !event.ImageDownloadFailed? && event != FinalStatusReportRequested
  }

  /** The events of an active job. A success is handed over to POST_DOWNLOAD, a failure goes there as a failed status, a
      timeout is an error, and a final status that comes too early is remembered. */
  lemma JobWorkTurn(m: Engine, c: Cell, e: Env)
    requires m.state == JobExecution && m.ev.initialized && m.job.hasActive
    ensures var h := Handle(m, c, e);
            && (c.data.event == ImageDownloadProgress ==> h == Handled(InWork(m, e), JobExecution, true))
            && (c.data.event == ImageDownloadSucceeded ==> HandsOver(InWork(m, e), h, PostDownload, c, e))
            && (c.data.event == Timeout ==> Complains(m, h, RetryWithBackoff, e))
            && (c.data.event.ImageDownloadFailed? ==> Drives(m, h, PostDownload, DOWNLOAD_FAILED, e))
            && (c.data.event == FinalStatusReportRequested ==>
                  && h.next == JobExecution && h.free
                  && h.m == m.(job := m.job.(finalQueued := true, details := h.m.job.details))
                  && (c.data.payload.FinalStatus? ==> h.m.job.details == c.data.payload.details))
            && (DoesNotMatter(c.data.event) ==> Idles(m, h))
  {
    hide Handle, GoTo, PassOn, Drives, HandsOver, RaiseError, Reports;
    Dispatches(m, c, e);
    assert Progressed(m, e) == InWork(m, e);
    GoToDrives(m, PostDownload, DOWNLOAD_FAILED, e);
    PassOnHandsOver(InWork(m, e), PostDownload, c, e);
    ErrorReported(m.ev, RetryWithBackoff, e.errorPost);
  }

  /* ---------- POST_DOWNLOAD ---------- */

  /** The final status is out, as the outcome its details stand for. */
  function Sent(m: Engine, details: Details): Engine {
    m.(job := m.job.(status := Ends(details)), log := m.log + [TerminalStatus(m.job.jobId)])
  }

  /** An accepted update with nothing left to send: the reboot is requested exactly when it is wanted, and otherwise the
      job is finished exactly when its final status is out. A finished job is gone, and the machine is in IDLE with a
      fetch requested, or in ERROR if that cannot be queued. */
  lemma UpdateAcceptedTurn(m: Engine, c: Cell, e: Env)
    requires m.state == PostDownload && m.ev.initialized && c.data.event == UpdateAccepted && !m.job.finalQueued
    ensures var h := Handle(m, c, e);
            && (h.m.log == m.log + [RebootRequested(m.job.jobId)] <==> e.cacheEmpty && m.job.shouldReboot)
            && (h.m.log == m.log + [Finished(m.job.jobId)] <==>
                  e.cacheEmpty && !m.job.shouldReboot && m.job.finalReported)
            && (e.cacheEmpty && !m.job.shouldReboot && m.job.finalReported ==>
                  Drives(m.(job := NO_JOB, log := h.m.log), h, Idle, Plain(FetchRequested), e))
            && (!(e.cacheEmpty && !m.job.shouldReboot && m.job.finalReported) ==>
                  h.m == m.(log := h.m.log) && h.next == PostDownload && h.free)
            && (!e.cacheEmpty || (!m.job.shouldReboot && !m.job.finalReported) ==> Idles(m, h))
  {
    hide Handle, BackToIdle, Drives;
    Dispatches(m, c, e);
    var n := m.(job := NO_JOB, log := m.log + [Finished(m.job.jobId)]);
    FetchDrives(n, e);
    DrivesKeepsLog(n, BackToIdle(n, e), Idle, Plain(FetchRequested), e);
    assert m.log + [RebootRequested(m.job.jobId)] != m.log + [Finished(m.job.jobId)] by {
      assert (m.log + [RebootRequested(m.job.jobId)])[|m.log|] != (m.log + [Finished(m.job.jobId)])[|m.log|];
    }
  }

  lemma DrivesKeepsLog(m: Engine, h: Handled, next: State, d: Data, e: Env)
    requires Drives(m, h, next, d, e)
    ensures h.m.log == m.log
  {
  }

  /** A final status is published and reported, with the outcome it stands for; otherwise it is kept for a try from
      IDLE, or the machine gives up. */
  lemma FinalStatusTurn(m: Engine, c: Cell, e: Env)
    requires m.state == PostDownload && m.ev.initialized && c.data.event == FinalStatusReportRequested
    requires !m.job.finalQueued
    ensures var h := Handle(m, c, e);
            if !c.data.payload.FinalStatus? then Errs(m, h, FatalUnexpectedFormat, e)
            else
              var details := c.data.payload.details;
              && (Publishes(details, e, Fine) ==>
                    var n := Sent(m, details);
                    h == Handled(n.(job := n.job.(finalReported := true)), PostDownload, true))
              && (Publishes(details, e, InvalidArg) ==> Unpublished(m, h, InvalidArg, Idle, c, e))
              && (Publishes(details, e, Failure) ==> Unpublished(m, h, Failure, Idle, c, e))
  {
    hide Handle, AfterPublish, Fail, Unpublished, Errs;
    Dispatches(m, c, e);
    FailErrs(m, FatalUnexpectedFormat, e);
    PublishFails(m, InvalidArg, c, Idle, e);
    PublishFails(m, Failure, c, Idle, e);
  }

  /** A finished download wants the reboot its event says, and then the record is written, for the current job. */
  lemma DownloadedTurn(m: Engine, c: Cell, e: Env)
    requires m.state == PostDownload && m.ev.initialized && c.data.event == ImageDownloadSucceeded && !m.job.finalQueued
    ensures var h := Handle(m, c, e);
            && h.next == PostDownload && h.free
            && h.m == m.(job := m.job.(shouldReboot := c.data.flag), log := h.m.log)
            && h.m.log == m.log + if c.data.flag then [PendingVerification(m.job.jobId, m.job.filetype)] else []
  {
    hide Handle;
    Dispatches(m, c, e);
    assert m.log + [] == m.log;
  }

  lemma PostDownloadOtherTurn(m: Engine, c: Cell, e: Env)
    requires m.state == PostDownload && m.ev.initialized && !m.job.finalQueued
    requires c.data.event != UpdateAccepted && c.data.event != FinalStatusReportRequested
    requires c.data.event != ImageDownloadSucceeded
    ensures Idles(m, Handle(m, c, e))
  {
    hide Handle;
    Dispatches(m, c, e);
  }

  /** A final status that came before the download was finished goes out first; then the event is handled as if it had
      not been queued. When it cannot go out, the event waits with it. */
  lemma QueuedStatusTurn(m: Engine, c: Cell, e: Env)
    requires m.state == PostDownload && m.ev.initialized && m.job.finalQueued
    ensures var h := Handle(m, c, e);
            var n := Sent(m, m.job.details);
            && (Publishes(m.job.details, e, Fine) ==> h == Handle(n.(job := n.job.(finalQueued := false)), c, e))
            && (Publishes(m.job.details, e, InvalidArg) ==> Unpublished(m, h, InvalidArg, PostDownload, c, e))
            && (Publishes(m.job.details, e, Failure) ==> Unpublished(m, h, Failure, PostDownload, c, e))
  {
    hide Handle, AfterPublish, Unpublished, OnPostDownloadEvent;
    Dispatches(m, c, e);
    var n := Sent(m, m.job.details);
    Dispatches(n.(job := n.job.(finalQueued := false)), c, e);
    PublishFails(m, InvalidArg, c, PostDownload, e);
    PublishFails(m, Failure, c, PostDownload, e);
  }

  /** A completed job leaves: once its final status is out and no reboot is wanted, the next accepted update with
      nothing left to send ends in IDLE, the job gone and a fetch requested. */
  lemma CompletedJobLeaves(m: Engine, c: Cell, e: Env, n: Engine, c': Cell, e': Env)
    requires m.state == PostDownload && m.ev.initialized && !m.job.finalQueued
    requires c.data.event == FinalStatusReportRequested && c.data.payload.FinalStatus?
    requires Publishes(c.data.payload.details, e, Fine)
    requires n == Handle(m, c, e).m.(ev := n.ev) && n.ev.initialized && !n.job.shouldReboot
    requires c'.data.event == UpdateAccepted && e'.cacheEmpty && Room(n.ev, Plain(FetchRequested), e'.post)
    ensures var h := Handle(n, c', e');
            && h.next == Idle && h.m.job == NO_JOB && h.m.log == n.log + [Finished(n.job.jobId)]
            && Adds(n.ev, h.m.ev, Plain(FetchRequested))
  {
    hide Handle;
    FinalStatusTurn(m, c, e);
    UpdateAcceptedTurn(n, c', e');
  }

  /* ---------- ERROR ---------- */

  /** ERROR_OCCURRED wins over every state: an active job is reported failed and is active no more. */
  lemma ErrorTurn(m: Engine, c: Cell, e: Env)
    requires c.data.event == ErrorOccurred
    ensures var h := Dispatch(m, c, e);
            && h.next == ErrorState && h.free
            && h.m == m.(state := ErrorState, job := h.m.job)
            && h.m.job == m.job.(hasActive := false,
                                 status := if m.job.hasActive && e.publish == Fine then Failed else m.job.status)
  {
    hide Handle;
  }

  lemma OtherEventsGoToTheState(m: Engine, c: Cell, e: Env)
    requires c.data.event != ErrorOccurred
    ensures Dispatch(m, c, e) == Handle(m, c, e)
  {
    hide Handle;
  }

  lemma RecoveryPosted(ev: Events, e: Env)
    ensures var r, posted := ev.recovery, PostRecovery(ev, e);
            var d := if r.cell.Some? then r.cell.value.data else Plain(r.event);
            && (posted.ok <==> if r.cell.Some? then e.handOverOk else Room(ev, d, e.post))
            && (posted.ok ==> Adds(ev, posted.ev, d))
            && (posted.ok && r.cell.Some? ==> posted.ev.queue == ev.queue + [r.cell.value])
            && (!posted.ok ==> posted.ev.queue == ev.queue)
            && posted.ev.lost == ev.lost && posted.ev.recovery == r.(cell := None)
  {
    hide Post;
    PostServed(ev, Plain(ev.recovery.event), e.post);
  }

  /** In ERROR only a recovery request does anything: it queues the kept event, or else the event of the way back, goes
      to its state and closes the way; when the event cannot be queued everything stays, but a kept event is gone. */
  lemma RecoveryTurn(m: Engine, c: Cell, e: Env)
    requires m.state == ErrorState
    ensures var h, r := Handle(m, c, e), m.ev.recovery;
            if c.data.event != RecoveryRequested then Idles(m, h)
            else
              var d := if r.cell.Some? then r.cell.value.data else Plain(r.event);
              && h.m == m.(ev := h.m.ev) && h.free && h.m.ev.lost == m.ev.lost
              && if (if r.cell.Some? then e.handOverOk else Room(m.ev, d, e.post)) then
                   && h.next == r.state && Adds(m.ev, h.m.ev, d)
                   && h.m.ev.lastError == NoError && !Recoverable(h.m.ev.recovery) && h.m.ev.recovery.cell.None?
                   && (r.cell.Some? ==> h.m.ev.queue == m.ev.queue + [r.cell.value])
                 else h.next == ErrorState && h.m.ev.queue == m.ev.queue && h.m.ev.recovery == r.(cell := None)
  {
    hide Handle, PostRecovery, Room;
    Dispatches(m, c, e);
    RecoveryPosted(m.ev, e);
  }

  /* ---------- What comes from outside ---------- */

  /** The machine starts with every slot of the pool free, once and in order, and with nothing else anywhere. */
  lemma Beginning(poolSize: nat, hasCustomJobCb: bool)
    ensures var m := Fresh(poolSize, hasCustomJobCb);
            && |m.ev.free| == poolSize && (forall i | 0 <= i < poolSize :: m.ev.free[i] == i)
            && m.ev.heap == {} && m.ev.queue == [] && m.ev.preInit == [] && m.ev.leaked == []
            && m.ev.recovery.cell == None && !Recoverable(m.ev.recovery)
            && m.state == Uninitialized && m.job == NO_JOB && m.ids == [] && m.log == []
            && !m.ev.initialized && !m.ev.lost && !m.timerArmed && !m.subIntended && m.hasCustomJobCb == hasCustomJobCb
  {
  }

  /** A recovery request is queued exactly when there is a way back and room for it. */
  lemma RequestStep(m: Engine, a: Alloc)
    requires m.ev.initialized
    ensures var n, r := Next(m, RequestRecovery(a)), m.ev.recovery;
            && n == m.(ev := n.ev)
            && if r.state != Uninitialized && r.event != ErrorOccurred && Room(m.ev, Plain(RecoveryRequested), a) then
                 Adds(m.ev, n.ev, Plain(RecoveryRequested))
               else n.ev.queue == m.ev.queue
  {
    hide Post;
    PostServed(m.ev, Plain(RecoveryRequested), a);
  }

  /** The timer fires once, as a TIMEOUT or, without room, as nothing. */
  lemma TimerStep(m: Engine, a: Alloc)
    requires m.ev.initialized && m.timerArmed
    ensures var n := Next(m, TimerFires(a));
            && n == m.(timerArmed := false, ev := n.ev)
            && if Room(m.ev, Plain(Timeout), a) then Adds(m.ev, n.ev, Plain(Timeout)) && n.ev.lost == m.ev.lost
               else n.ev.queue == m.ev.queue && n.ev.lost
  {
    hide Post;
    PostServed(m.ev, Plain(Timeout), a);
  }

  lemma SubackErrorStep(m: Engine, a: Alloc)
    requires m.ev.initialized && m.subIntended
    ensures var n := Next(m, FetchAfterSubscribeFailed(a));
            n == m.(ev := n.ev) && Reports(m.ev, n.ev, RetryWithBackoff, a)
  {
    hide RaiseError;
    ErrorReported(m.ev, RetryWithBackoff, a);
  }

  lemma ExternalStep(m: Engine, d: Data, a: Alloc)
    requires m.ev.initialized && External(d)
    ensures var n := Next(m, PostExternal(d, a));
            n == m.(ev := n.ev) && if Room(m.ev, d, a) then Adds(m.ev, n.ev, d) else n.ev.queue == m.ev.queue
  {
    hide Post;
    PostServed(m.ev, d, a);
  }

  /** A confirmed terminal status counts as reported. */
  lemma ConfirmedStep(m: Engine, id: string)
    requires id <= m.job.jobId
    ensures Next(m, TerminalConfirmed(id))
            == m.(job := m.job.(finalReported := true), log := m.log + [TerminalStatus(id)])
  {
  }

  predicate AllTaken(accepted: seq<bool>) {
    forall i | 0 <= i < |accepted| :: accepted[i]
  }

  lemma {:induction false} DrainedInOrder(ev: Events, accepted: seq<bool>)
    requires |accepted| == |ev.preInit|
    ensures var drained := Drain(ev, accepted);
            && (drained.ok <==> AllTaken(accepted))
            && (drained.ok ==> drained.ev == ev.(queue := ev.queue + ev.preInit, preInit := []))
            && drained.ev.preInit == []
    decreases |accepted|
  {
    if ev.preInit != [] {
      var first := HandOver(ev.(preInit := ev.preInit[1..]), ev.preInit[0], accepted[0]);
      DrainedInOrder(first.ev, accepted[1..]);
      assert AllTaken(accepted) <==> accepted[0] && AllTaken(accepted[1..]) by {
        if AllTaken(accepted[1..]) {
          assert forall i | 0 < i < |accepted| :: accepted[i] == accepted[1..][i - 1];
        }
      }
      assert ev.queue + [ev.preInit[0]] + ev.preInit[1..] == ev.queue + ev.preInit;
    } else {
      assert ev.queue + [] == ev.queue;
    }
  }

  /** Initialization goes to NETWORK_INIT with no job active; it succeeds exactly when its transition and every waiting
      event are taken, and then they are queued in that order, behind what was there. */
  lemma InitStep(m: Engine, a: Alloc, accepted: seq<bool>)
    requires !m.ev.initialized && |accepted| == |m.ev.preInit|
    ensures var n := Next(m, Initialize(a, accepted));
            && n.state == NetworkInit && n.job == m.job.(hasActive := false) && n.log == m.log
            && (n.ev.initialized <==> Room(m.ev, Plain(EmptyTransition), a) && AllTaken(accepted))
            && (n.ev.initialized ==>
                  && |n.ev.queue| == |m.ev.queue| + 1 + |m.ev.preInit| && n.ev.queue[..|m.ev.queue|] == m.ev.queue
                  && n.ev.queue[|m.ev.queue|].data == Plain(EmptyTransition)
                  && n.ev.queue[|m.ev.queue| + 1..] == m.ev.preInit)
  {
    hide Post, Drain;
    var ev := m.ev.(lastError := NoError);
    PostServed(ev, Plain(EmptyTransition), a);
    PostKeepsPreInit(ev, Plain(EmptyTransition), a);
    var posted := Post(ev, Plain(EmptyTransition), a);
    if posted.ok {
      DrainedInOrder(posted.ev, accepted);
    }
  }

  /** One turn of the dispatcher: before initialization the event is dropped; otherwise it is handled, the machine goes
      to the next state, and the event is freed unless it was handed over or kept. */
  lemma Turn(m: Engine, e: Env)
    requires m.ev.queue != []
    ensures var c, n := m.ev.queue[0], m.(ev := m.ev.(queue := m.ev.queue[1..]));
            if !m.ev.initialized then RunOnce(m, e) == n.(ev := Release(n.ev, c))
            else
              var h := Dispatch(n, c, e);
              RunOnce(m, e) == h.m.(state := h.next, ev := if h.free then Release(h.m.ev, c) else h.m.ev)
  {
    hide Dispatch, Release;
  }
}
