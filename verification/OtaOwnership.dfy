/** Linear ownership of event structures: every pool slot and every live heap block has exactly one holder. */
module OtaOwnership {
  import opened Wrappers
  import opened OtaTypes
  import opened OtaSpec

  /** One structure, and the size of the pool the books are kept for. */
  datatype Account = Account(origin: Origin, poolSize: nat)

  function InCell(c: Cell, o: Account): nat {
    if c.origin == o.origin then 1 else 0
  }

  function InCells(cells: seq<Cell>, o: Account): nat {
    if cells == [] then 0 else InCell(cells[0], o) + InCells(cells[1..], o)
  }

  function InPool(free: seq<nat>, o: Account): nat {
    if free == [] then 0 else (if Slot(free[0]) == o.origin then 1 else 0) + InPool(free[1..], o)
  }

  function InRecovery(r: Recovery, o: Account): nat {
    if r.cell.Some? then InCell(r.cell.value, o) else 0
  }

  /** In how many places a structure is held: the pool, the queues, the recovery context, the leak. */
  function Holders(ev: Events, o: Account): nat {
    InPool(ev.free, o) + InCells(ev.queue, o) + InCells(ev.preInit, o) + InRecovery(ev.recovery, o)
    + InCells(ev.leaked, o)
  }

  /** The structures that exist: the slots of the pool and the heap blocks not yet freed. */
  function Existing(ev: Events, o: Account): nat {
    match o.origin
    case Slot(i) => if i < ev.poolSize then 1 else 0
    case Heap(h) => if h in ev.heap then 1 else 0
  }

  /** The books balance for `o` when the running handler holds it `n` times besides the places counted above. */
  ghost predicate Books(ev: Events, n: nat, o: Account) {
    && ev.poolSize == o.poolSize
    && (forall h | h in ev.heap :: h < ev.nextHeap)
    && Holders(ev, o) + n == Existing(ev, o)
  }

  lemma {:induction false} InCellsAppend(cells: seq<Cell>, c: Cell, o: Account)
    ensures InCells(cells + [c], o) == InCells(cells, o) + InCell(c, o)
  {
    if cells == [] {
      assert InCells([c], o) == InCell(c, o) + InCells([], o);
    } else {
      assert (cells + [c])[1..] == cells[1..] + [c];
      InCellsAppend(cells[1..], c, o);
    }
  }

  lemma {:induction false} InPoolAppend(free: seq<nat>, i: nat, o: Account)
    ensures InPool(free + [i], o) == InPool(free, o) + if Slot(i) == o.origin then 1 else 0
  {
    if free == [] {
      assert InPool([i], o) == (if Slot(i) == o.origin then 1 else 0) + InPool([], o);
    } else {
      assert (free + [i])[1..] == free[1..] + [i];
      InPoolAppend(free[1..], i, o);
    }
  }

  /* ---------- The primitives keep the books ---------- */

  lemma CopyBooks(ev: Events, d: Data, heapOk: bool, n: nat, o: Account)
    requires Books(ev, n, o)
    ensures var copied := Copy(ev, d, heapOk);
            Books(copied.ev, n + if copied.cell.Some? then InCell(copied.cell.value, o) else 0, o)
  {
  }

  lemma ReleaseBooks(ev: Events, c: Cell, n: nat, o: Account)
    requires Books(ev, n + InCell(c, o), o)
    ensures Books(Release(ev, c), n, o)
  {
    if c.origin.Slot? {
      InPoolAppend(ev.free, c.origin.index, o);
    }
  }

  lemma HandOverBooks(ev: Events, c: Cell, addOk: bool, n: nat, o: Account)
    requires Books(ev, n + InCell(c, o), o)
    ensures Books(HandOver(ev, c, addOk).ev, n, o)
  {
    if addOk {
      InCellsAppend(ev.queue, c, o);
    } else {
      ReleaseBooks(ev, c, n, o);
    }
  }

  lemma PostBooks(ev: Events, d: Data, a: Alloc, n: nat, o: Account)
    requires Books(ev, n, o)
    ensures Books(Post(ev, d, a).ev, n, o)
  {
    CopyBooks(ev, d, a.heapOk, n, o);
    var copied := Copy(ev, d, a.heapOk);
    if copied.cell.Some? {
      HandOverBooks(copied.ev, copied.cell.value, a.addOk, n, o);
    }
  }

  lemma PostEventBooks(ev: Events, d: Data, a: Alloc, n: nat, o: Account)
    requires Books(ev, n, o)
    ensures Books(PostEvent(ev, d, a).ev, n, o)
  {
    if ev.initialized {
      PostBooks(ev, d, a, n, o);
    } else {
      CopyBooks(ev, d, a.heapOk, n, o);
      var copied := Copy(ev, d, a.heapOk);
      if copied.cell.Some? {
        InCellsAppend(copied.ev.preInit, copied.cell.value, o);
      }
    }
  }

  lemma PostIgnoredBooks(ev: Events, event: Event, a: Alloc, n: nat, o: Account)
    requires Books(ev, n, o)
    ensures Books(PostIgnored(ev, event, a), n, o)
  {
    PostEventBooks(ev, Plain(event), a, n, o);
  }

  lemma SetRecoveryBooks(ev: Events, reason: ErrorReason, r: Recovery, n: nat, o: Account)
    requires Books(ev, n + InRecovery(r, o), o)
    ensures Books(SetRecovery(ev, reason, r), n, o)
  {
    if ev.recovery.cell.Some? {
      InCellsAppend(ev.leaked, ev.recovery.cell.value, o);
    }
  }

  lemma RaiseErrorBooks(ev: Events, reason: ErrorReason, a: Alloc, n: nat, o: Account)
    requires Books(ev, n, o)
    ensures Books(RaiseError(ev, reason, a), n, o)
  {
    SetRecoveryBooks(ev, reason, RecoveryFor(reason), n, o);
    PostIgnoredBooks(SetRecovery(ev, reason, RecoveryFor(reason)), ErrorOccurred, a, n, o);
  }

  lemma RaiseErrorKeepingBooks(ev: Events, state: State, c: Cell, a: Alloc, n: nat, o: Account)
    requires Books(ev, n + InCell(c, o), o)
    ensures Books(RaiseErrorKeeping(ev, state, c, a), n, o)
  {
    var r := Recovery(state, Some(c), ErrorOccurred);
    SetRecoveryBooks(ev, RetryWithBackoff, r, n, o);
    PostIgnoredBooks(SetRecovery(ev, RetryWithBackoff, r), ErrorOccurred, a, n, o);
  }

  lemma PostRecoveryBooks(ev: Events, e: Env, n: nat, o: Account)
    requires Books(ev, n, o)
    ensures Books(PostRecovery(ev, e).ev, n, o)
    ensures PostRecovery(ev, e).ev.recovery.cell.None?
  {
    if ev.recovery.cell.Some? {
      HandOverBooks(ev.(recovery := ev.recovery.(cell := None)), ev.recovery.cell.value, e.handOverOk, n, o);
    } else {
      PostBooks(ev, Plain(ev.recovery.event), e.post, n, o);
    }
  }

  /* ---------- The handlers keep the books ---------- */

  /** After a handler, the event is either still with the caller or accounted for elsewhere. */
  ghost predicate Settled(h: Handled, c: Cell, o: Account) {
    Books(h.m.ev, if h.free then InCell(c, o) else 0, o)
  }

  lemma FailSettled(m: Engine, reason: ErrorReason, a: Alloc, free: bool, c: Cell, o: Account)
    requires Books(m.ev, if free then InCell(c, o) else 0, o)
    ensures Settled(Fail(m, reason, a, free), c, o)
    ensures Books(EnterError(m, reason, a).ev, if free then InCell(c, o) else 0, o)
  {
    RaiseErrorBooks(m.ev, reason, a, if free then InCell(c, o) else 0, o);
  }

  lemma GoToSettled(m: Engine, next: State, d: Data, e: Env, c: Cell, o: Account)
    requires Books(m.ev, InCell(c, o), o)
    ensures Settled(GoTo(m, next, d, e), c, o)
  {
    PostBooks(m.ev, d, e.post, InCell(c, o), o);
    var posted := Post(m.ev, d, e.post);
    FailSettled(m.(ev := posted.ev), RetryWithBackoff, e.errorPost, true, c, o);
  }

  lemma PassOnSettled(m: Engine, next: State, c: Cell, e: Env, o: Account)
    requires Books(m.ev, InCell(c, o), o)
    ensures Settled(PassOn(m, next, c, e), c, o)
  {
    HandOverBooks(m.ev, c, e.handOverOk, 0, o);
    var posted := HandOver(m.ev, c, e.handOverOk);
    FailSettled(m.(ev := posted.ev), RetryWithBackoff, e.errorPost, false, c, o);
  }

  lemma BackToIdleSettled(m: Engine, e: Env, c: Cell, o: Account)
    requires Books(m.ev, InCell(c, o), o)
    ensures Settled(BackToIdle(m, e), c, o)
  {
    PostEventBooks(m.ev, Plain(FetchRequested), e.post, InCell(c, o), o);
    var posted := PostEvent(m.ev, Plain(FetchRequested), e.post);
    FailSettled(m.(ev := posted.ev), RetryWithBackoff, e.errorPost, true, c, o);
  }

  lemma AfterPublishSettled(m: Engine, sent: Outcome, c: Cell, retryState: State, e: Env, o: Account)
    requires Books(m.ev, InCell(c, o), o)
    ensures Settled(AfterPublish(m, sent, c, retryState, e), c, o)
  {
    FailSettled(m, FatalUnexpectedFormat, e.errorPost, true, c, o);
    RaiseErrorKeepingBooks(m.ev, retryState, c, e.errorPost, 0, o);
  }

  lemma NetworkInitSettled(m: Engine, c: Cell, e: Env, o: Account)
    requires Books(m.ev, InCell(c, o), o)
    ensures Settled(OnNetworkInit(m, c, e), c, o)
  {
    FailSettled(m.(subIntended := true), SubscriptionFailed, e.errorPost, true, c, o);
    PostEventBooks(m.ev, Plain(EmptyTransition), e.post, InCell(c, o), o);
  }

  lemma RebootFinalStatusSettled(m: Engine, c: Cell, e: Env, o: Account)
    requires Books(m.ev, InCell(c, o), o)
    ensures Settled(OnRebootFinalStatus(m, c, e), c, o)
  {
    FailSettled(m, FatalUnexpectedFormat, e.errorPost, true, c, o);
    if c.data.payload.FinalStatus? {
      AfterPublishSettled(m, FinalOutcome(c.data.payload.details, e), c, RebootCheck, e, o);
    }
  }

  lemma RebootVerdictSettled(m: Engine, c: Cell, e: Env, o: Account)
    requires Books(m.ev, InCell(c, o), o)
    ensures Settled(OnRebootVerdict(m, c, e), c, o)
  {
    AfterPublishSettled(SetVerdict(m, VerdictFlags(e).isPassed, e), e.publish, c, RebootCheck, e, o);
  }

  lemma RebootCheckSettled(m: Engine, c: Cell, e: Env, o: Account)
    requires Books(m.ev, InCell(c, o), o)
    ensures Settled(OnRebootCheck(m, c, e), c, o)
  {
    match c.data.event
    case FinalStatusReportRequested => RebootFinalStatusSettled(m, c, e, o);
    case RebootCheckRequested => RebootVerdictSettled(m, c, e, o);
    case UpdateAccepted => FailSettled(DropRebootedJob(m), FatalUnexpectedFormat, e.errorPost, true, c, o);
    case UpdateRejected =>
    case _ =>
  }

  lemma StartRoundSettled(m: Engine, lists: JobLists, e: Env, c: Cell, o: Account)
    requires Books(m.ev, InCell(c, o), o)
    ensures Settled(StartRound(m, lists, e), c, o)
  {
    FailSettled(m, GetPendingInvalidFormat, e.errorPost, true, c, o);
    if lists.Lists? {
      GoToSettled(Fill(m, lists), FetchingJobDoc, Plain(EmptyTransition), e, c, o);
    }
  }

  lemma IdleSettled(m: Engine, c: Cell, e: Env, o: Account)
    requires Books(m.ev, InCell(c, o), o)
    ensures Settled(OnIdle(m, c, e), c, o)
  {
    hide GoTo, PassOn, Books;
    GoToSettled(m, FetchingPendingJobs, Plain(EmptyTransition), e, c, o);
    PassOnSettled(m, JobsChangedState, c, e, o);
  }

  lemma ListSettled(m: Engine, c: Cell, e: Env, o: Account)
    requires Books(m.ev, InCell(c, o), o)
    ensures Settled(OnJobsChanged(m, c, e), c, o)
    ensures Settled(OnPendingJobsReceived(m, c, e), c, o)
  {
    hide StartRound, EnterError, Books;
    if c.data.payload.Jobs? {
      StartRoundSettled(m, c.data.payload.lists, e, c, o);
    }
    FailSettled(m, GetPendingInvalidFormat, e.errorPost, true, c, o);
  }

  lemma WaitingSettled(m: Engine, c: Cell, e: Env, accepted: Event, rejected: Event, reason: ErrorReason, next: State,
                       o: Account)
    requires Books(m.ev, InCell(c, o), o)
    ensures Settled(OnWaiting(m, c, e, accepted, rejected, reason, next), c, o)
  {
    if c.data.event == accepted {
      PassOnSettled(StopTimer(m, e), next, c, e, o);
    } else if c.data.event == rejected {
      FailSettled(StopTimer(m, e), reason, e.errorPost, true, c, o);
    } else if c.data.event == Timeout {
      FailSettled(m, RetryWithBackoff, e.errorPost, true, c, o);
    }
  }

  lemma RequestSettled(m: Engine, c: Cell, e: Env, o: Account)
    requires Books(m.ev, InCell(c, o), o)
    ensures Settled(OnFetchingPendingJobs(m, c, e), c, o)
    ensures Settled(OnFetchingJobDoc(m, c, e), c, o)
  {
    RaiseErrorBooks(m.ev, RetryWithBackoff, e.errorPost, InCell(c, o), o);
    RaiseErrorBooks(m.ev, TimeoutHandlerRestartFailed, e.errorPost, InCell(c, o), o);
    GoToSettled(m, JobExecution, Plain(EmptyTransition), e, c, o);
  }

  lemma RejectDocSettled(m: Engine, c: Cell, e: Env, o: Account)
    requires Books(m.ev, InCell(c, o), o)
    ensures Settled(RejectDoc(m, c, e), c, o)
  {
    FailSettled(m, FatalUnexpectedFormat, e.errorPost, true, c, o);
    RaiseErrorKeepingBooks(m.ev, JobDocReceived, c, e.errorPost, 0, o);
    GoToSettled(m, FetchingJobDoc, Plain(EmptyTransition), e, c, o);
  }

  lemma DocumentSettled(m: Engine, d: Doc, c: Cell, e: Env, o: Account)
    requires Books(m.ev, InCell(c, o), o)
    ensures Settled(OnDocument(m, d, c, e), c, o)
  {
    var n := Seen(m, d, e.doc);
    match JudgeInRound(m.job, d, e.doc)
    case Ignore => GoToSettled(n, FetchingJobDoc, Plain(EmptyTransition), e, c, o);
    case Accept(v) => GoToSettled(Choose(n, d, v), FetchingJobDoc, Plain(EmptyTransition), e, c, o);
    case Broken => FailSettled(n.(job := n.job.(image := NO_IMAGE)), JobDocParseFailed, e.errorPost, true, c, o);
    case Reject => RejectDocSettled(n, c, e, o);
    case Foreign =>
      RejectDocSettled(n, c, e, o);
      GoToSettled(n.(job := n.job.(jobId := d.jobId), ids := [], next := 0, described := [], candidates := []),
                  CustomJobExecution, Data(CustomJobExecutionRequested, Text, false), e, c, o);
  }

  lemma JobDocReceivedSettled(m: Engine, c: Cell, e: Env, o: Account)
    requires Books(m.ev, InCell(c, o), o)
    ensures Settled(OnJobDocReceived(m, c, e), c, o)
  {
    if c.data.event == JobDocAccepted {
      if c.data.payload.Document? {
        DocumentSettled(m, c.data.payload.doc, c, e, o);
      } else {
        GoToSettled(m, FetchingJobDoc, Plain(EmptyTransition), e, c, o);
      }
    }
  }

  lemma ReportCustomSettled(m: Engine, status: JobStatus, c: Cell, e: Env, o: Account)
    requires Books(m.ev, InCell(c, o), o)
    ensures Settled(ReportCustom(m, status, c, e), c, o)
  {
    var n := if e.publish.Fine? then m.(job := m.job.(status := status)) else m;
    AfterPublishSettled(n, e.publish, c, CustomJobExecution, e, o);
  }

  lemma CustomSettled(m: Engine, c: Cell, e: Env, o: Account)
    requires Books(m.ev, InCell(c, o), o)
    ensures Settled(OnCustomJobExecution(m, c, e), c, o)
  {
    match c.data.event
    case CustomJobExecutionRequested =>
      GoToSettled(m, CustomJobExecution, Data(CustomJobRejected, Text, false), e, c, o);
      GoToSettled(m, CustomJobExecution, Data(CustomJobFailed, Text, false), e, c, o);
    case CustomJobProgress => ReportCustomSettled(m, InProgress, c, e, o);
    case CustomJobSucceeded => ReportCustomSettled(m, Succeeded, c, e, o);
    case CustomJobFailed => ReportCustomSettled(m, Failed, c, e, o);
    case CustomJobRejected => ReportCustomSettled(m, Rejected, c, e, o);
    case UpdateAccepted => BackToIdleSettled(m, e, c, o);
    case _ =>
  }

  lemma JobExecutionSettled(m: Engine, c: Cell, e: Env, o: Account)
    requires Books(m.ev, InCell(c, o), o)
    ensures Settled(OnJobExecution(m, c, e), c, o)
  {
    if !m.job.hasActive {
      FailDownloadSettled(StartJob(m, e), e, c, o);
    } else {
      match c.data.event
      case ImageDownloadSucceeded => PassOnSettled(Progressed(m, e), PostDownload, c, e, o);
      case Timeout => FailSettled(m, RetryWithBackoff, e.errorPost, true, c, o);
      case ImageDownloadFailed(_) => FailDownloadSettled(m, e, c, o);
      case _ =>
    }
  }

  lemma FailDownloadSettled(m: Engine, e: Env, c: Cell, o: Account)
    requires Books(m.ev, InCell(c, o), o)
    ensures Settled(FailDownload(m, e), c, o)
  {
    GoToSettled(m, PostDownload, Data(FinalStatusReportRequested, FinalStatus(DetailsFailed), false), e, c, o);
  }

  lemma FinalStatusSettled(m: Engine, c: Cell, e: Env, o: Account)
    requires Books(m.ev, InCell(c, o), o)
    ensures Settled(OnFinalStatus(m, c, e), c, o)
  {
    FailSettled(m, FatalUnexpectedFormat, e.errorPost, true, c, o);
    if c.data.payload.FinalStatus? {
      AfterPublishSettled(m, FinalOutcome(c.data.payload.details, e), c, Idle, e, o);
    }
  }

  lemma PostDownloadEventSettled(m: Engine, c: Cell, e: Env, o: Account)
    requires Books(m.ev, InCell(c, o), o)
    ensures Settled(OnPostDownloadEvent(m, c, e), c, o)
  {
    match c.data.event
    case FinalStatusReportRequested => FinalStatusSettled(m, c, e, o);
    case UpdateAccepted => BackToIdleSettled(m.(job := NO_JOB, log := m.log + [Finished(m.job.jobId)]), e, c, o);
    case _ =>
  }

  lemma PostDownloadSettled(m: Engine, c: Cell, e: Env, o: Account)
    requires Books(m.ev, InCell(c, o), o)
    ensures Settled(OnPostDownload(m, c, e), c, o)
  {
    PostDownloadEventSettled(m, c, e, o);
    var n := FinalSent(m, m.job.details);
    PostDownloadEventSettled(n.(job := n.job.(finalQueued := false)), c, e, o);
    AfterPublishSettled(m, FinalOutcome(m.job.details, e), c, PostDownload, e, o);
  }

  lemma ErrorSettled(m: Engine, c: Cell, e: Env, o: Account)
    requires Books(m.ev, InCell(c, o), o)
    ensures Settled(OnError(m, c, e), c, o)
  {
    PostRecoveryBooks(m.ev, e, InCell(c, o), o);
  }

  lemma DispatchSettled(m: Engine, c: Cell, e: Env, o: Account)
    requires Books(m.ev, InCell(c, o), o)
    ensures Settled(Dispatch(m, c, e), c, o)
  {
    if c.data.event != ErrorOccurred {
      match m.state
      case Uninitialized =>
      case NetworkInit => NetworkInitSettled(m, c, e, o);
      case RebootCheck => RebootCheckSettled(m, c, e, o);
      case Idle => IdleSettled(m, c, e, o);
      case JobsChangedState => ListSettled(m, c, e, o);
      case FetchingPendingJobs => RequestSettled(m, c, e, o);
      case WaitingForPendingJobs =>
        WaitingSettled(m, c, e, PendingJobsAccepted, PendingJobsRejected, GetPendingRejected, PendingJobsReceived, o);
      case PendingJobsReceived => ListSettled(m, c, e, o);
      case FetchingJobDoc => RequestSettled(m, c, e, o);
      case WaitingForJobDoc =>
        WaitingSettled(m, c, e, JobDocAccepted, JobDocRejected, DescribeJobRejected, JobDocReceived, o);
      case JobDocReceived => JobDocReceivedSettled(m, c, e, o);
      case JobExecution => JobExecutionSettled(m, c, e, o);
      case CustomJobExecution => CustomSettled(m, c, e, o);
      case PostDownload => PostDownloadSettled(m, c, e, o);
      case ErrorState => ErrorSettled(m, c, e, o);
    }
  }

  lemma RunOnceBooks(m: Engine, e: Env, o: Account)
    requires m.ev.queue != [] && Books(m.ev, 0, o)
    ensures Books(RunOnce(m, e).ev, 0, o)
  {
    var c := m.ev.queue[0];
    var n := m.(ev := Pop(m.ev));
    assert Books(n.ev, InCell(c, o), o);
    if m.ev.initialized {
      DispatchSettled(n, c, e, o);
      var h := Dispatch(n, c, e);
      if h.free {
        ReleaseBooks(h.m.ev, c, 0, o);
      }
    } else {
      ReleaseBooks(n.ev, c, 0, o);
    }
  }

  lemma {:induction false} DrainBooks(ev: Events, accepted: seq<bool>, o: Account)
    requires |accepted| == |ev.preInit| && Books(ev, 0, o)
    ensures Books(Drain(ev, accepted).ev, 0, o)
    decreases |accepted|
  {
    if ev.preInit != [] {
      var rest := ev.(preInit := ev.preInit[1..]);
      assert Books(rest, InCell(ev.preInit[0], o), o);
      HandOverBooks(rest, ev.preInit[0], accepted[0], 0, o);
      DrainBooks(HandOver(rest, ev.preInit[0], accepted[0]).ev, accepted[1..], o);
    }
  }

  lemma OpenBooks(ev: Events, a: Alloc, accepted: seq<bool>, o: Account)
    requires |accepted| == |ev.preInit| && Books(ev, 0, o)
    ensures Books(Open(ev, a, accepted), 0, o)
  {
    hide Drain, Post;
    PostKeepsPreInit(ev.(lastError := NoError), Plain(EmptyTransition), a);
    PostBooks(ev.(lastError := NoError), Plain(EmptyTransition), a, 0, o);
    var posted := Post(ev.(lastError := NoError), Plain(EmptyTransition), a);
    if posted.ok {
      DrainBooks(posted.ev, accepted, o);
    }
  }

  lemma NextBooks(m: Engine, s: Step, o: Account)
    requires Enabled(m, s) && Books(m.ev, 0, o)
    ensures Books(Next(m, s).ev, 0, o)
  {
    hide RunOnce, RaiseError, PostEvent, PostIgnored, Open, Books;
    match s
    case Run(e) => RunOnceBooks(m, e, o);
    case Initialize(a, accepted) => OpenBooks(m.ev, a, accepted, o);
    case PostExternal(d, a) => PostEventBooks(m.ev, d, a, 0, o);
    case TimerFires(a) => PostIgnoredBooks(m.ev, Timeout, a, 0, o);
    case RequestRecovery(a) => PostEventBooks(m.ev, Plain(RecoveryRequested), a, 0, o);
    case FetchAfterSubscribeFailed(a) => RaiseErrorBooks(m.ev, RetryWithBackoff, a, 0, o);
    case TerminalConfirmed(_) =>
  }

  lemma {:induction false} InPoolIota(first: nat, free: seq<nat>, o: Account)
    requires forall i | 0 <= i < |free| :: free[i] == first + i
    ensures InPool(free, o) == if o.origin.Slot? && first <= o.origin.index < first + |free| then 1 else 0
    decreases |free|
  {
    if free != [] {
      InPoolIota(first + 1, free[1..], o);
    }
  }

  /** Over every run, every structure that exists has exactly one holder and nothing else has any: no event is
      freed twice, queued twice, or dropped, except the recovery events counted in `leaked`. */
  lemma {:induction false} OneHolder(ms: seq<Engine>, steps: seq<Step>, k: nat, o: Account)
    requires IsRun(ms, steps) && k < |ms| && o.poolSize == ms[0].ev.poolSize
    ensures Books(ms[k].ev, 0, o)
    ensures Holders(ms[k].ev, o) <= 1
    ensures ms[k].ev.poolSize == ms[0].ev.poolSize
    decreases k
  {
    if k == 0 {
      var poolSize, hasCb :| ms[0] == Fresh(poolSize, hasCb);
      InPoolIota(0, ms[0].ev.free, o);
    } else {
      OneHolder(ms, steps, k - 1, o);
      NextBooks(ms[k - 1], steps[k - 1], o);
    }
  }

  lemma {:induction false} InPoolTwice(free: seq<nat>, i: nat, j: nat, o: Account)
    requires i < j < |free| && o.origin == Slot(free[i]) == Slot(free[j])
    ensures InPool(free, o) >= 2
  {
    if i == 0 {
      InPoolOnce(free[1..], j - 1, o);
    } else {
      InPoolTwice(free[1..], i - 1, j - 1, o);
    }
  }

  lemma {:induction false} InPoolOnce(free: seq<nat>, i: nat, o: Account)
    requires i < |free| && o.origin == Slot(free[i])
    ensures InPool(free, o) >= 1
  {
    if i > 0 {
      InPoolOnce(free[1..], i - 1, o);
    }
  }

  lemma FirstBelow(s: seq<nat>, n: nat)
    requires s != [] && forall i | 0 <= i < |s| :: s[i] < n
    ensures 0 < n
  {
    assert s[0] < n;
  }

  /** Distinct numbers below `n` are at most `n` many. */
  lemma {:induction false} Pigeonhole(s: seq<nat>, n: nat)
    requires forall i | 0 <= i < |s| :: s[i] < n
    requires forall i, j | 0 <= i < j < |s| :: s[i] != s[j]
    ensures |s| <= n
    decreases n
  {
    if n == 0 {
      if s != [] {
        FirstBelow(s, n);
        assert false;
      }
    } else if n - 1 in s {
      var k :| 0 <= k < |s| && s[k] == n - 1;
      Pigeonhole(s[..k] + s[k + 1..], n - 1);
    } else {
      Pigeonhole(s, n - 1);
    }
  }

  /** The pool's queue of free slots never holds a slot twice nor more slots than it was made for, so returning a
      slot cannot fail. */
  lemma PoolNeverOverflows(ms: seq<Engine>, steps: seq<Step>, k: nat)
    requires IsRun(ms, steps) && k < |ms|
    ensures forall i, j | 0 <= i < j < |ms[k].ev.free| :: ms[k].ev.free[i] != ms[k].ev.free[j]
    ensures |ms[k].ev.free| <= ms[0].ev.poolSize
  {
    var free, size := ms[k].ev.free, ms[0].ev.poolSize;
    forall i | 0 <= i < |free| ensures free[i] < size {
      OneHolder(ms, steps, k, Account(Slot(free[i]), size));
      InPoolOnce(free, i, Account(Slot(free[i]), size));
    }
    forall i, j | 0 <= i < j < |free| ensures free[i] != free[j] {
      if free[i] == free[j] {
        OneHolder(ms, steps, k, Account(Slot(free[i]), size));
        InPoolTwice(free, i, j, Account(Slot(free[i]), size));
      }
    }
    Pigeonhole(free, size);
  }
}
