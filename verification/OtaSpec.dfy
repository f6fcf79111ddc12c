/** The OTA jobs state machine as functions on its context: one function per operation of ota_jobs.c. */
module OtaSpec {
  import opened Wrappers
  import opened OtaTypes
  import DownloadWindow
  import Version

  /* ---------- Event structures: pool, heap, queue ---------- */

  datatype Copied = Copied(ev: Events, cell: Option<Cell>)
  datatype Posted = Posted(ev: Events, ok: bool)

  function Plain(event: Event): Data {
    Data(event, NoPayload, false)
  }

  /** `copy_event_data`: a payload-free event prefers the pool, everything else needs the heap. */
  function Copy(ev: Events, d: Data, heapOk: bool): Copied {
    if d.payload.NoPayload? && ev.free != [] then
      Copied(ev.(free := ev.free[1..]), Some(Cell(Slot(ev.free[0]), d)))
    else if heapOk then
      Copied(ev.(heap := ev.heap + {ev.nextHeap}, nextHeap := ev.nextHeap + 1), Some(Cell(Heap(ev.nextHeap), d)))
    else Copied(ev, None)
  }

  /** `free_event_data`. */
  function Release(ev: Events, c: Cell): Events {
    match c.origin
    case Slot(i) => ev.(free := ev.free + [i])
    case Heap(h) => ev.(heap := ev.heap - {h})
  }

  /** `enqueue_event` with ownership passed in: on failure the structure is freed here. */
  function HandOver(ev: Events, c: Cell, addOk: bool): Posted {
    if addOk then Posted(ev.(queue := ev.queue + [c]), true) else Posted(Release(ev, c), false)
  }

  /** `enqueue_event` on a copy. */
  function Post(ev: Events, d: Data, a: Alloc): Posted {
    var copied := Copy(ev, d, a.heapOk);
    if copied.cell.None? then Posted(copied.ev, false) else HandOver(copied.ev, copied.cell.value, a.addOk)
  }

  lemma PostKeepsPreInit(ev: Events, d: Data, a: Alloc)
    ensures Post(ev, d, a).ev.preInit == ev.preInit
  {
  }

  /** `pre_init_event_queue_add_if_not_initialized`: the list node needs the heap as well. */
  function AddPreInit(ev: Events, d: Data, heapOk: bool): Posted {
    var copied := Copy(ev, d, heapOk);
    if !heapOk || copied.cell.None? then Posted(ev, false)
    else Posted(copied.ev.(preInit := copied.ev.preInit + [copied.cell.value]), true)
  }

  /** `ota_job_state_post_event`: before initialization the event waits in the pre-init list. */
  function PostEvent(ev: Events, d: Data, a: Alloc): Posted {
    if ev.initialized then Post(ev, d, a) else AddPreInit(ev, d, a.heapOk)
  }

  /* ---------- Errors and recovery ---------- */

  /** The recovery context is overwritten; a recovery event still pending there is lost. */
  function SetRecovery(ev: Events, reason: ErrorReason, recovery: Recovery): Events {
    ev.(recovery := recovery, lastError := reason,
        leaked := if ev.recovery.cell.Some? then ev.leaked + [ev.recovery.cell.value] else ev.leaked)
  }

  /** A post whose result nobody looks at. */
  function PostIgnored(ev: Events, event: Event, a: Alloc): Events {
    var posted := PostEvent(ev, Plain(event), a);
    posted.ev.(lost := posted.ev.lost || !posted.ok)
  }

  function RecoveryFor(reason: ErrorReason): Recovery {
    match reason
    case SubscriptionFailed => Recovery(NetworkInit, None, EmptyTransition)
    case RetryWithBackoff => Recovery(Idle, None, FetchRequested)
    case TimeoutHandlerRestartFailed => Recovery(Idle, None, FetchRequested)
    case GetPendingInvalidFormat => Recovery(Idle, None, FetchRequested)
    case GetPendingRejected => Recovery(Idle, None, FetchRequested)
    case DescribeJobRejected => Recovery(Idle, None, FetchRequested)
    case JobDocParseFailed => Recovery(Idle, None, FetchRequested)
    case NoError => Recovery(Uninitialized, None, ErrorOccurred)
    case FatalUnexpectedFormat => Recovery(Uninitialized, None, ErrorOccurred)
  }

  /** `enter_error_state`. */
  function RaiseError(ev: Events, reason: ErrorReason, a: Alloc): Events {
    PostIgnored(SetRecovery(ev, reason, RecoveryFor(reason)), ErrorOccurred, a)
  }

  /** `enter_error_state_custom`: the running event is kept for a retry of the same state. */
  function RaiseErrorKeeping(ev: Events, state: State, c: Cell, a: Alloc): Events {
    PostIgnored(SetRecovery(ev, RetryWithBackoff, Recovery(state, Some(c), ErrorOccurred)), ErrorOccurred, a)
  }

  function EnterError(m: Engine, reason: ErrorReason, a: Alloc): Engine {
    m.(ev := RaiseError(m.ev, reason, a))
  }

  /** The guard of `ota_job_state_recover`. */
  predicate Recoverable(r: Recovery) {
    !(r.state == Uninitialized || r.event == ErrorOccurred)
  }

  /* ---------- Response timer ---------- */

  function StartTimer(m: Engine, e: Env): Engine {
    if e.timerOk then m.(timerArmed := true) else EnterError(m, TimeoutHandlerRestartFailed, e.errorPost)
  }

  function StopTimer(m: Engine, e: Env): Engine {
    if e.timerStopOk then m.(timerArmed := false) else m
  }

  /* ---------- Job-id queue ---------- */

  /** Ids that are present and not too long, in order. */
  function Usable(ids: seq<string>): seq<string> {
    if ids == [] then []
    else if 0 < |ids[0]| <= JOBID_MAX_LENGTH then [ids[0]] + Usable(ids[1..])
    else Usable(ids[1..])
  }

  function Take(ids: seq<string>, n: nat): seq<string> {
    if |ids| <= n then ids else ids[..n]
  }

  /** The ids a fetch round works through: in-progress jobs first, then queued ones, at most 50. */
  function RoundIds(lists: JobLists): seq<string>
    requires lists.Lists?
  {
    Take(Usable(lists.inProgress + lists.queued), OTA_JOB_ID_QUEUE_SIZE)
  }

  function Fill(m: Engine, lists: JobLists): Engine
    requires lists.Lists?
  {
    m.(ids := RoundIds(lists), next := 0, job := m.job.(hasPending := false), described := [], candidates := [])
  }

  /* ---------- Job documents ---------- */

  datatype Verdict =
    | Ignore
    | Reject
    | Foreign
    | Broken
    | Accept(version: nat)

  predicate AllDigits(s: string) {
    forall i | 0 <= i < |s| :: '0' <= s[i] <= '9'
  }

  /** The filetype handler's view of the three versions; the default handler parses them itself. */
  function HandlerFor(d: Doc, e: DocEnv): Lookup {
    if d.filetype == "" then
      Handler(true, Version.Encode(e.runningVersion), Version.Encode(d.fwVersion), Version.Encode(d.minFwVersion))
    else e.lookup
  }

  function VersionCheck(d: Doc, h: Lookup): Verdict
    requires h.Handler?
  {
    if !h.tracksVersion then Accept(0)
    else if d.fwVersion == "" || h.running.None? || h.offered.None? then Reject
    else if h.offered.value <= h.running.value then Reject
    else if d.minFwVersion != "" && (h.demanded.None? || h.demanded.value > h.running.value) then Ignore
    else Accept(h.offered.value)
  }

  /** The checks up to the download window; they do not look at the other documents of the round. */
  function Screen(d: Doc, e: DocEnv): Verdict {
    if !(0 < |d.jobId| <= JOBID_MAX_LENGTH) || !d.hasDocument || !AllDigits(d.executionVersion) then Ignore
    else if !d.hasRmngFields || (d.minFwVersion != "" && d.fwVersion == "") then Foreign
    else if |d.filetype| > OTA_FILETYPE_MAX_LENGTH then Reject
    else
      var h := HandlerFor(d, e);
      if h.Missing? then Reject
      else
        var v := VersionCheck(d, h);
        if v.Accept? && DownloadWindow.HasWindow(d.window)
           && DownloadWindow.Delay(d.window, e.now, e.minuteOfDay) != 0 then Ignore
        else v
  }

  /** The checks after the comparison with the best document so far. */
  function Finish(d: Doc, e: DocEnv, version: nat): Verdict {
    if d.afr.None? then Foreign
    else if !e.imageRefOk || !e.signatureOk then Reject
    else if d.afr.value.size > INT_MAX || d.afr.value.streamId == "" || !e.copyOk then Broken
    else Accept(version)
  }

  /** Would the document be taken if it were the only one? */
  function Judge(d: Doc, e: DocEnv): Verdict {
    var v := Screen(d, e);
    if v.Accept? then Finish(d, e, v.version) else v
  }

  /** What actually happens: a version below the best one so far is dropped before the last checks. */
  function JudgeInRound(job: Job, d: Doc, e: DocEnv): Verdict {
    var v := Screen(d, e);
    if v.Accept? && job.hasPending && v.version < job.fwVersion then Ignore else Judge(d, e)
  }

  /** The filetype is overwritten by every document that gets as far as the handler lookup. */
  function FiletypeAfter(job: Job, d: Doc, e: DocEnv): string {
    if !(0 < |d.jobId| <= JOBID_MAX_LENGTH) || !d.hasDocument || !AllDigits(d.executionVersion)
       || !d.hasRmngFields || (d.minFwVersion != "" && d.fwVersion == "") then job.filetype
    else if |d.filetype| > OTA_FILETYPE_MAX_LENGTH then ""
    else d.filetype
  }

  /** Only a document with an image is ever accepted. */
  lemma AcceptedHasImage(job: Job, d: Doc, e: DocEnv)
    requires JudgeInRound(job, d, e).Accept?
    ensures d.afr.Some?
  {
  }

  /* ---------- State handlers ---------- */

  /** A handler's result: the context, the next state, and whether the caller still owns the event. */
  datatype Handled = Handled(m: Engine, next: State, free: bool)

  function Fail(m: Engine, reason: ErrorReason, a: Alloc, free: bool): Handled {
    Handled(EnterError(m, reason, a), ErrorState, free)
  }

  function FailKeeping(m: Engine, state: State, c: Cell, e: Env): Handled {
    Handled(m.(ev := RaiseErrorKeeping(m.ev, state, c, e.errorPost)), ErrorState, false)
  }

  function Stay(m: Engine): Handled {
    Handled(m, m.state, true)
  }

  /** Posts the event that drives the next state, or reports the error. */
  function GoTo(m: Engine, next: State, d: Data, e: Env): Handled {
    var posted := Post(m.ev, d, e.post);
    var m := m.(ev := posted.ev);
    if posted.ok then Handled(m, next, true) else Fail(m, RetryWithBackoff, e.errorPost, true)
  }

  /** Hands the running event itself to the next state. */
  function PassOn(m: Engine, next: State, c: Cell, e: Env): Handled {
    var posted := HandOver(m.ev, c, e.handOverOk);
    var m := m.(ev := posted.ev);
    if posted.ok then Handled(m, next, false) else Fail(m, RetryWithBackoff, e.errorPost, false)
  }

  /** The status manager's answer to a publish decides between going on, giving up, and trying again. */
  function AfterPublish(m: Engine, sent: Outcome, c: Cell, retryState: State, e: Env): Handled {
    match sent
    case Fine => Stay(m)
    case InvalidArg => Fail(m, FatalUnexpectedFormat, e.errorPost, true)
    case Failure => FailKeeping(m, retryState, c, e)
  }

  function OnNetworkInit(m: Engine, c: Cell, e: Env): Handled {
    if c.data.event != EmptyTransition then Stay(m)
    else if !m.subIntended && !e.subscribeOk then
      Fail(m.(subIntended := true), SubscriptionFailed, e.errorPost, true)
    else
      var m := m.(subIntended := true);
      var boot := e.boot;
      if boot.jobId.None? then ToIdle(m, e)
      else if |boot.jobId.value| > JOBID_MAX_LENGTH then ToIdle(m.(log := m.log + [NvsCleared]), e)
      else if boot.version < 0 || !e.initialVersionOk
              || (boot.filetype.Some? && |boot.filetype.value| > OTA_FILETYPE_MAX_LENGTH) then
        ToIdle(m.(job := m.job.(jobId := ""), log := m.log + [NvsCleared]), e)
      else
        var filetype := if boot.filetype.Some? then boot.filetype.value else m.job.filetype;
        Handled(m.(job := m.job.(jobId := boot.jobId.value, filetype := filetype)), RebootCheck, true)
  }

  function ToIdle(m: Engine, e: Env): Handled {
    Handled(m.(ev := PostEvent(m.ev, Plain(EmptyTransition), e.post).ev), Idle, true)
  }

  function FinalOutcome(details: Details, e: Env): Outcome {
    if !e.statusTimerOk then Failure
    else if details != DetailsSucceeded && details != DetailsFailed then InvalidArg
    else e.publish
  }

  /** `mqtt_publish_final_status`, on success. */
  function FinalSent(m: Engine, details: Details): Engine {
    m.(job := m.job.(status := if details == DetailsSucceeded then Succeeded else Failed),
       log := m.log + [TerminalStatus(m.job.jobId)])
  }

  function DropRebootedJob(m: Engine): Engine {
    m.(job := m.job.(jobId := "", filetype := "", finalReported := false), log := m.log + [NvsCleared])
  }

  /** The application reports the outcome of its custom filetype. */
  function OnRebootFinalStatus(m: Engine, c: Cell, e: Env): Handled {
    if !c.data.payload.FinalStatus? then Fail(m, FatalUnexpectedFormat, e.errorPost, true)
    else
      var details := c.data.payload.details;
      var sent := FinalOutcome(details, e);
      if sent.Fine? then
        var m := FinalSent(m, details);
        Stay(m.(job := m.job.(details := details)))
      else AfterPublish(m, sent, c, RebootCheck, e)
  }

  /** The flags the verdict is taken from; unreadable flags count as a failed check. */
  function VerdictFlags(e: Env): Flags {
    if e.flags.Some? then e.flags.value else Flags(true, false)
  }

  function SetVerdict(m: Engine, passed: bool, e: Env): Engine {
    m.(job := m.job.(status := if passed then Succeeded else Failed,
                     details := if passed then DetailsSucceeded else DetailsFailed),
       log := if e.publish.Fine? then m.log + [TerminalStatus(m.job.jobId)] else m.log)
  }

  function OnRebootVerdict(m: Engine, c: Cell, e: Env): Handled {
    if m.job.filetype != "" || !VerdictFlags(e).isChecked then Stay(m)
    else AfterPublish(SetVerdict(m, VerdictFlags(e).isPassed, e), e.publish, c, RebootCheck, e)
  }

  predicate StatusMatchesDetails(job: Job) {
    || (job.status == Succeeded && job.details == DetailsSucceeded)
    || (job.status == Failed && job.details == DetailsFailed)
  }

  function OnRebootAccepted(m: Engine, e: Env): Handled {
    if m.job.filetype != "" && !m.job.finalReported then Stay(m)
    else if StatusMatchesDetails(m.job) then Handled(DropRebootedJob(m), Idle, true)
    else Fail(DropRebootedJob(m), FatalUnexpectedFormat, e.errorPost, true)
  }

  function OnRebootCheck(m: Engine, c: Cell, e: Env): Handled {
    match c.data.event
    case FinalStatusReportRequested => OnRebootFinalStatus(m, c, e)
    case RebootCheckRequested => OnRebootVerdict(m, c, e)
    case UpdateAccepted => OnRebootAccepted(m, e)
    case UpdateRejected =>
      if !c.data.flag then Stay(m)
      else
        var m := DropRebootedJob(m);
        Handled(m.(job := m.job.(details := DetailsRejected)), Idle, true)
    case _ => Stay(m)
  }

  function OnIdle(m: Engine, c: Cell, e: Env): Handled {
    match c.data.event
    case FetchRequested => GoTo(m, FetchingPendingJobs, Plain(EmptyTransition), e)
    case JobsChanged => PassOn(m, JobsChangedState, c, e)
    case _ => Stay(m)
  }

  /** `pending_jobs_to_job_id_queue` and what both of its callers do with the result. */
  function StartRound(m: Engine, lists: JobLists, e: Env): Handled {
    if lists.Malformed? then Fail(m, GetPendingInvalidFormat, e.errorPost, true)
    else
      var m := Fill(m, lists);
      if m.ids == [] then Handled(m, Idle, true) else GoTo(m, FetchingJobDoc, Plain(EmptyTransition), e)
  }

  function OnJobsChanged(m: Engine, c: Cell, e: Env): Handled {
    if c.data.event != JobsChanged then Stay(m)
    else if !c.data.payload.Jobs? then Handled(m, Idle, true)
    else StartRound(m, c.data.payload.lists, e)
  }

  function OnFetchingPendingJobs(m: Engine, c: Cell, e: Env): Handled {
    if c.data.event != EmptyTransition then Stay(m)
    else if !e.requestOk then Stay(EnterError(m, RetryWithBackoff, e.errorPost))
    else Handled(StartTimer(m, e), WaitingForPendingJobs, true)
  }

  function OnWaiting(m: Engine, c: Cell, e: Env, accepted: Event, rejected: Event, reason: ErrorReason, next: State)
    : Handled
  {
    if c.data.event == accepted then PassOn(StopTimer(m, e), next, c, e)
    else if c.data.event == rejected then Stay(EnterError(StopTimer(m, e), reason, e.errorPost))
    else if c.data.event == Timeout then Stay(EnterError(m, RetryWithBackoff, e.errorPost))
    else Stay(m)
  }

  function OnPendingJobsReceived(m: Engine, c: Cell, e: Env): Handled {
    if c.data.event != PendingJobsAccepted then Stay(m)
    else if !c.data.payload.Jobs? then Stay(EnterError(m, GetPendingInvalidFormat, e.errorPost))
    else StartRound(m, c.data.payload.lists, e)
  }

  function OnFetchingJobDoc(m: Engine, c: Cell, e: Env): Handled {
    if c.data.event != EmptyTransition then Stay(m)
    else if m.next >= |m.ids| then
      if !m.job.hasPending then Handled(m, Idle, true)
      else GoTo(m, JobExecution, Plain(EmptyTransition), e)
    else
      var id := m.ids[m.next];
      var m := m.(next := m.next + 1, described := m.described + [id], log := m.log + [Described(id)]);
      if !e.requestOk then Stay(EnterError(m, RetryWithBackoff, e.errorPost))
      else Handled(StartTimer(m, e), WaitingForJobDoc, true)
  }

  /** The best document so far becomes the pending job. */
  function Choose(m: Engine, d: Doc, version: nat): Engine
    requires d.afr.Some?
  {
    m.(job := m.job.(hasPending := true, fwVersion := version, jobId := d.jobId, image := d.afr.value))
  }

  /** History: the document was acceptable on its own. */
  function Note(m: Engine, d: Doc, e: DocEnv): Engine {
    var v := Judge(d, e);
    if v.Accept? then m.(candidates := m.candidates + [Candidate(d, e, v.version)]) else m
  }

  function NextDoc(m: Engine, e: Env): Handled {
    GoTo(m, FetchingJobDoc, Plain(EmptyTransition), e)
  }

  function RejectDoc(m: Engine, c: Cell, e: Env): Handled {
    if !e.initialVersionOk then Fail(m, FatalUnexpectedFormat, e.errorPost, true)
    else
      match e.publish
      case Fine => NextDoc(m, e)
      case InvalidArg => Fail(m, FatalUnexpectedFormat, e.errorPost, true)
      case Failure => FailKeeping(m, JobDocReceived, c, e)
  }

  /** A document that is not an OTA document: the custom callback takes over and the round ends. */
  function ForeignDoc(m: Engine, d: Doc, c: Cell, e: Env): Handled {
    if !m.hasCustomJobCb then RejectDoc(m, c, e)
    else
      GoTo(m.(job := m.job.(jobId := d.jobId), ids := [], next := 0, described := [], candidates := []),
           CustomJobExecution, Data(CustomJobExecutionRequested, Text, false), e)
  }

  /** What every document leaves behind, whatever becomes of it. */
  function Seen(m: Engine, d: Doc, e: DocEnv): Engine {
    Note(m.(job := m.job.(filetype := FiletypeAfter(m.job, d, e))), d, e)
  }

  function OnDocument(m: Engine, d: Doc, c: Cell, e: Env): Handled {
    var verdict := JudgeInRound(m.job, d, e.doc);
    var m := Seen(m, d, e.doc);
    match verdict
    case Ignore => NextDoc(m, e)
    case Accept(version) => NextDoc(Choose(m, d, version), e)
    case Broken => Fail(m.(job := m.job.(image := NO_IMAGE)), JobDocParseFailed, e.errorPost, true)
    case Reject => RejectDoc(m, c, e)
    case Foreign => ForeignDoc(m, d, c, e)
  }

  function OnJobDocReceived(m: Engine, c: Cell, e: Env): Handled {
    if c.data.event != JobDocAccepted then Stay(m)
    else if !c.data.payload.Document? then NextDoc(m, e)
    else OnDocument(m, c.data.payload.doc, c, e)
  }

  function OnCustomJobExecution(m: Engine, c: Cell, e: Env): Handled {
    match c.data.event
    case CustomJobExecutionRequested =>
      match e.customCb {
        case Fine => Stay(m)
        case InvalidArg => GoTo(m, CustomJobExecution, Data(CustomJobRejected, Text, false), e)
        case Failure => GoTo(m, CustomJobExecution, Data(CustomJobFailed, Text, false), e)
      }
    case CustomJobProgress => ReportCustom(m, InProgress, c, e)
    case CustomJobSucceeded => ReportCustom(m, Succeeded, c, e)
    case CustomJobFailed => ReportCustom(m, Failed, c, e)
    case CustomJobRejected => ReportCustom(m, Rejected, c, e)
    case UpdateAccepted =>
      if !e.cacheEmpty || !m.job.finalReported then Stay(m)
      else BackToIdle(m, e)
    case _ => Stay(m)
  }

  function ReportCustom(m: Engine, status: JobStatus, c: Cell, e: Env): Handled {
    var reported := if e.publish.Fine? then m.(job := m.job.(status := status)) else m;
    AfterPublish(reported, e.publish, c, CustomJobExecution, e)
  }

  /** A fetch request is posted on the way back to IDLE. */
  function BackToIdle(m: Engine, e: Env): Handled {
    var posted := PostEvent(m.ev, Plain(FetchRequested), e.post);
    var m := m.(ev := posted.ev);
    if posted.ok then Handled(m, Idle, true) else Fail(m, RetryWithBackoff, e.errorPost, true)
  }

  function Progressed(m: Engine, e: Env): Engine {
    if e.publish.Fine? then m.(job := m.job.(status := InProgress)) else m
  }

  function StartJob(m: Engine, e: Env): Engine {
    Progressed(m.(job := m.job.(hasActive := true, shouldReboot := false, finalReported := false, finalQueued := false),
                  log := m.log + [Started(m.job.jobId)]), e)
  }

  function FailDownload(m: Engine, e: Env): Handled {
    GoTo(m, PostDownload, Data(FinalStatusReportRequested, FinalStatus(DetailsFailed), false), e)
  }

  function OnJobExecution(m: Engine, c: Cell, e: Env): Handled {
    if !m.job.hasActive then
      var m := StartJob(m, e);
      if e.downloadCbOk then Stay(m) else FailDownload(m, e)
    else
      match c.data.event
      case ImageDownloadProgress => Stay(Progressed(m, e))
      case ImageDownloadSucceeded => PassOn(Progressed(m, e), PostDownload, c, e)
      case Timeout => Stay(EnterError(m, RetryWithBackoff, e.errorPost))
      case ImageDownloadFailed(_) => FailDownload(m, e)
      case FinalStatusReportRequested =>
        var details := if c.data.payload.FinalStatus? then c.data.payload.details else NoDetails;
        Stay(m.(job := m.job.(details := details, finalQueued := true)))
      case _ => Stay(m)
  }

  function OnPostDownload(m: Engine, c: Cell, e: Env): Handled {
    if !m.job.finalQueued then OnPostDownloadEvent(m, c, e)
    else
      var sent := FinalOutcome(m.job.details, e);
      if sent.Fine? then
        var m := FinalSent(m, m.job.details);
        OnPostDownloadEvent(m.(job := m.job.(finalQueued := false)), c, e)
      else AfterPublish(m, sent, c, PostDownload, e)
  }

  function OnFinalStatus(m: Engine, c: Cell, e: Env): Handled {
    if !c.data.payload.FinalStatus? then Fail(m, FatalUnexpectedFormat, e.errorPost, true)
    else
      var sent := FinalOutcome(c.data.payload.details, e);
      if sent.Fine? then
        var m := FinalSent(m, c.data.payload.details);
        Stay(m.(job := m.job.(finalReported := true)))
      else AfterPublish(m, sent, c, Idle, e)
  }

  /** The pending-verification record is written before a reboot can be requested. */
  function OnDownloaded(m: Engine, reboot: bool): Engine {
    m.(job := m.job.(shouldReboot := reboot),
       log := if reboot then m.log + [PendingVerification(m.job.jobId, m.job.filetype)] else m.log)
  }

  function OnUpdateAccepted(m: Engine, e: Env): Handled {
    if !e.cacheEmpty then Stay(m)
    else if m.job.shouldReboot then Stay(m.(log := m.log + [RebootRequested(m.job.jobId)]))
    else if m.job.finalReported then BackToIdle(m.(job := NO_JOB, log := m.log + [Finished(m.job.jobId)]), e)
    else Stay(m)
  }

  function OnPostDownloadEvent(m: Engine, c: Cell, e: Env): Handled {
    match c.data.event
    case FinalStatusReportRequested => OnFinalStatus(m, c, e)
    case ImageDownloadSucceeded => Stay(OnDownloaded(m, c.data.flag))
    case UpdateAccepted => OnUpdateAccepted(m, e)
    case _ => Stay(m)
  }

  /** `handle_state_error` on ERROR_OCCURRED: an active job is reported failed. */
  function OnErrorOccurred(m: Engine, e: Env): Engine {
    if m.job.hasActive then
      m.(job := m.job.(hasActive := false, status := if e.publish.Fine? then Failed else m.job.status))
    else m
  }

  function OnError(m: Engine, c: Cell, e: Env): Handled {
    if c.data.event != RecoveryRequested then Stay(m)
    else
      var posted := PostRecovery(m.ev, e);
      if posted.ok then Handled(m.(ev := ResetRecovery(posted.ev)), m.ev.recovery.state, true)
      else Stay(m.(ev := posted.ev))
  }

  /** The kept event is handed over; without one, the recovery event is posted. */
  function PostRecovery(ev: Events, e: Env): Posted {
    if ev.recovery.cell.Some? then
      HandOver(ev.(recovery := ev.recovery.(cell := None)), ev.recovery.cell.value, e.handOverOk)
    else Post(ev, Plain(ev.recovery.event), e.post)
  }

  /** `recovery_reset_context`, called with no event pending. */
  function ResetRecovery(ev: Events): Events {
    ev.(recovery := Recovery(Uninitialized, None, ErrorOccurred), lastError := NoError)
  }

  function Handle(m: Engine, c: Cell, e: Env): Handled {
    match m.state
    case Uninitialized => Stay(m)
    case NetworkInit => OnNetworkInit(m, c, e)
    case RebootCheck => OnRebootCheck(m, c, e)
    case Idle => OnIdle(m, c, e)
    case JobsChangedState => OnJobsChanged(m, c, e)
    case FetchingPendingJobs => OnFetchingPendingJobs(m, c, e)
    case WaitingForPendingJobs =>
      OnWaiting(m, c, e, PendingJobsAccepted, PendingJobsRejected, GetPendingRejected, PendingJobsReceived)
    case PendingJobsReceived => OnPendingJobsReceived(m, c, e)
    case FetchingJobDoc => OnFetchingJobDoc(m, c, e)
    case WaitingForJobDoc => OnWaiting(m, c, e, JobDocAccepted, JobDocRejected, DescribeJobRejected, JobDocReceived)
    case JobDocReceived => OnJobDocReceived(m, c, e)
    case JobExecution => OnJobExecution(m, c, e)
    case CustomJobExecution => OnCustomJobExecution(m, c, e)
    case PostDownload => OnPostDownload(m, c, e)
    case ErrorState => OnError(m, c, e)
  }

  /** What the dispatcher does with a popped event; ERROR_OCCURRED wins over every state. */
  function Dispatch(m: Engine, c: Cell, e: Env): Handled {
    if c.data.event == ErrorOccurred then
      Handled(OnErrorOccurred(m.(state := ErrorState), e), ErrorState, true)
    else Handle(m, c, e)
  }

  function Settle(h: Handled, c: Cell): Engine {
    var m := h.m.(state := h.next);
    if h.free then m.(ev := Release(m.ev, c)) else m
  }

  function Pop(ev: Events): Events
    requires ev.queue != []
  {
    ev.(queue := ev.queue[1..])
  }

  /** `ota_job_state_run_once` on the oldest queued event. */
  function RunOnce(m: Engine, e: Env): Engine
    requires m.ev.queue != []
  {
    var c := m.ev.queue[0];
    var m := m.(ev := Pop(m.ev));
    if !m.ev.initialized then m.(ev := Release(m.ev, c)) else Settle(Dispatch(m, c, e), c)
  }

  /* ---------- The environment's steps ---------- */

  /** `event_pool_init` and `pre_init_event_queue_init`. */
  function Fresh(poolSize: nat, hasCustomJobCb: bool): Engine {
    var ev := Events(poolSize, false, seq(poolSize, i requires 0 <= i < poolSize => i), {}, 0, [], [],
                     Recovery(Uninitialized, None, RebootCheckRequested), NoError, [], false);
    Engine(hasCustomJobCb, ev, Uninitialized, false, false, [], 0, NO_JOB, [], [], [])
  }

  /** Ownership of each pre-init event passes to the work queue; entries that do not fit are freed. */
  function Drain(ev: Events, accepted: seq<bool>): Posted
    requires |accepted| == |ev.preInit|
    decreases |accepted|
  {
    if ev.preInit == [] then Posted(ev, true)
    else
      var first := HandOver(ev.(preInit := ev.preInit[1..]), ev.preInit[0], accepted[0]);
      var rest := Drain(first.ev, accepted[1..]);
      Posted(rest.ev, first.ok && rest.ok)
  }

  /** The event part of the end of `ota_job_state_init`: the first transition, then the pre-init list. */
  function Open(ev: Events, a: Alloc, accepted: seq<bool>): Events
    requires |accepted| == |ev.preInit|
  {
    var posted := Post(ev.(lastError := NoError), Plain(EmptyTransition), a);
    if !posted.ok then posted.ev
    else
      var drained := Drain(posted.ev, accepted);
      drained.ev.(initialized := drained.ok)
  }

  /** `ota_job_state_init` from its last fallible resource on. */
  function Init(m: Engine, a: Alloc, accepted: seq<bool>): Engine
    requires |accepted| == |m.ev.preInit|
  {
    m.(state := NetworkInit, job := m.job.(hasActive := false), ev := Open(m.ev, a, accepted))
  }

  /** Events the application, the broker, the downloader and the bootstrap may post. */
  predicate External(d: Data) {
    && !d.event.EmptyTransition? && !d.event.ErrorOccurred? && !d.event.RecoveryRequested?
    && !d.event.CustomJobExecutionRequested?
  }

  datatype Step =
    | Run(env: Env)
    | Initialize(alloc: Alloc, accepted: seq<bool>)
    | PostExternal(data: Data, alloc: Alloc)
    | TimerFires(alloc: Alloc)
    | RequestRecovery(alloc: Alloc)
    | FetchAfterSubscribeFailed(alloc: Alloc)
    | TerminalConfirmed(id: string)

  /** The response to a terminal update counts when its job id is a prefix of the current one. */
  predicate Enabled(m: Engine, s: Step) {
    match s
    case Run(_) => m.ev.queue != []
    case Initialize(_, accepted) => !m.ev.initialized && |accepted| == |m.ev.preInit|
    case PostExternal(d, _) => External(d)
    case TimerFires(_) => m.timerArmed
    case FetchAfterSubscribeFailed(_) => m.subIntended
    case TerminalConfirmed(id) => id <= m.job.jobId
    case _ => true
  }

  function Next(m: Engine, s: Step): Engine
    requires Enabled(m, s)
  {
    match s
    case Run(e) => RunOnce(m, e)
    case Initialize(a, accepted) => Init(m, a, accepted)
    case PostExternal(d, a) => m.(ev := PostEvent(m.ev, d, a).ev)
    case TimerFires(a) => m.(timerArmed := false, ev := PostIgnored(m.ev, Timeout, a))
    case RequestRecovery(a) =>
      if Recoverable(m.ev.recovery) then m.(ev := PostEvent(m.ev, Plain(RecoveryRequested), a).ev) else m
    case FetchAfterSubscribeFailed(a) => EnterError(m, RetryWithBackoff, a)
    case TerminalConfirmed(id) =>
      m.(job := m.job.(finalReported := true), log := m.log + [TerminalStatus(id)])
  }

  /** A run from a fresh pool: each state follows from the one before by an enabled step. */
  ghost predicate IsRun(ms: seq<Engine>, steps: seq<Step>) {
    && |ms| == |steps| + 1
    && (exists poolSize, hasCb :: ms[0] == Fresh(poolSize, hasCb))
    && forall i | 0 <= i < |steps| :: Enabled(ms[i], steps[i]) && ms[i + 1] == Next(ms[i], steps[i])
  }
}
