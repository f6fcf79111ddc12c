/** The state machine of ota_jobs.c as a class over its global context: each operation updates the fields in
    place and is tied to the function of OtaSpec that says what the whole context becomes. */
module OtaJobs {
  import opened Wrappers
  import opened OtaTypes
  import opened OtaSpec
  import opened JobIds
  import DownloadWindow
  import Version

  datatype QueueResult = Filled | NoPendingJobs | InvalidJson

  class Machine {
    const hasCustomJobCb: bool

    // Event structures (the pool's free slots, the heap, the work queue, the pre-init list) and the error context.
    var ev: Events

    // The current state, the response timer, the subscription.
    var state: State
    var timerArmed: bool
    var subIntended: bool

    // The job-id queue and the current job.
    const jobIds: array<string>
    var next: nat
    var size: nat
    var job: Job

    // History.
    ghost var log: seq<Output>
    ghost var described: seq<string>
    ghost var candidates: seq<Candidate>

    ghost predicate Valid()
      reads `size
    {
      jobIds.Length == OTA_JOB_ID_QUEUE_SIZE && size <= OTA_JOB_ID_QUEUE_SIZE
    }

    ghost function Ids(): seq<string>
      requires Valid()
      reads `size, jobIds
    {
      jobIds[..size]
    }

    ghost function Abs(): Engine
      requires Valid()
      reads this, jobIds
    {
      Engine(hasCustomJobCb, ev, state, timerArmed, subIntended, Ids(), next, job, log, described, candidates)
    }

    constructor (poolSize: nat, hasCustomJobCb: bool)
      ensures Valid() && fresh(jobIds) && Abs() == Fresh(poolSize, hasCustomJobCb)
    {
      this.hasCustomJobCb := hasCustomJobCb;
      ev := Fresh(poolSize, hasCustomJobCb).ev;
      state, timerArmed, subIntended := Uninitialized, false, false;
      jobIds := new string[OTA_JOB_ID_QUEUE_SIZE](_ => "");
      next, size, job := 0, 0, NO_JOB;
      log, described, candidates := [], [], [];
    }

    /* ---------- Event structures ---------- */

    /** `event_pool_take` and the heap behind it. */
    method CopyEventData(d: Data, heapOk: bool) returns (copy: Option<Cell>)
      modifies `ev
      ensures Copied(ev, copy) == Copy(old(ev), d, heapOk)
    {
      if d.payload.NoPayload? && ev.free != [] {
        copy := Some(Cell(Slot(ev.free[0]), d));
        ev := ev.(free := ev.free[1..]);
        return;
      }
      if !heapOk {
        return None;
      }
      copy := Some(Cell(Heap(ev.nextHeap), d));
      ev := ev.(heap := ev.heap + {ev.nextHeap}, nextHeap := ev.nextHeap + 1);
    }

    /** A slot goes back to the pool, a heap block to the heap. */
    method FreeEventData(c: Cell)
      modifies `ev
      ensures ev == Release(old(ev), c)
    {
      match c.origin
      case Slot(i) => ev := ev.(free := ev.free + [i]);
      case Heap(h) => ev := ev.(heap := ev.heap - {h});
    }

    method EnqueueOwned(c: Cell, addOk: bool) returns (ok: bool)
      modifies `ev
      ensures Posted(ev, ok) == HandOver(old(ev), c, addOk)
    {
      if addOk {
        ev := ev.(queue := ev.queue + [c]);
        return true;
      }
      FreeEventData(c);
      ok := false;
    }

    method EnqueueCopy(d: Data, a: Alloc) returns (ok: bool)
      modifies `ev
      ensures Posted(ev, ok) == Post(old(ev), d, a)
    {
      var copy := CopyEventData(d, a.heapOk);
      if copy.None? {
        return false;
      }
      ok := EnqueueOwned(copy.value, a.addOk);
    }

    method PreInitAdd(d: Data, heapOk: bool) returns (ok: bool)
      modifies `ev
      ensures Posted(ev, ok) == AddPreInit(old(ev), d, heapOk)
    {
      if !heapOk {
        return false;
      }
      var copy := CopyEventData(d, heapOk);
      if copy.None? {
        return false;
      }
      ev := ev.(preInit := ev.preInit + [copy.value]);
      ok := true;
    }

    method PostEventData(d: Data, a: Alloc) returns (ok: bool)
      modifies `ev
      ensures Posted(ev, ok) == PostEvent(old(ev), d, a)
    {
      if ev.initialized {
        ok := EnqueueCopy(d, a);
      } else {
        ok := PreInitAdd(d, a.heapOk);
      }
    }

    /* ---------- Errors ---------- */

    /** Posts ERROR_OCCURRED without looking at the result. */
    method PostErrorEvent(reason: ErrorReason, a: Alloc)
      modifies `ev
      ensures ev == PostIgnored(old(ev).(lastError := reason), ErrorOccurred, a)
    {
      ev := ev.(lastError := reason);
      var ok := PostEventData(Plain(ErrorOccurred), a);
      ev := ev.(lost := ev.lost || !ok);
    }

    method EnterErrorState(reason: ErrorReason, a: Alloc)
      modifies `ev
      ensures ev == RaiseError(old(ev), reason, a)
    {
      hide PostIgnored;
      var recoveryState, recoveryEvent := Uninitialized, ErrorOccurred;
      match reason {
        case NoError =>
        case SubscriptionFailed => recoveryState, recoveryEvent := NetworkInit, EmptyTransition;
        case RetryWithBackoff => recoveryState, recoveryEvent := Idle, FetchRequested;
        case TimeoutHandlerRestartFailed => recoveryState, recoveryEvent := Idle, FetchRequested;
        case GetPendingInvalidFormat => recoveryState, recoveryEvent := Idle, FetchRequested;
        case GetPendingRejected => recoveryState, recoveryEvent := Idle, FetchRequested;
        case DescribeJobRejected => recoveryState, recoveryEvent := Idle, FetchRequested;
        case JobDocParseFailed => recoveryState, recoveryEvent := Idle, FetchRequested;
        case FatalUnexpectedFormat =>
      }
      NoteLeak();
      ev := ev.(recovery := Recovery(recoveryState, None, recoveryEvent));
      PostErrorEvent(reason, a);
    }

    /** History: the recovery context is about to be overwritten. */
    method NoteLeak()
      modifies `ev
      ensures ev == old(ev).(leaked := if old(ev).recovery.cell.Some?
                                       then old(ev).leaked + [old(ev).recovery.cell.value]
                                       else old(ev).leaked)
    {
      if ev.recovery.cell.Some? {
        ev := ev.(leaked := ev.leaked + [ev.recovery.cell.value]);
      }
    }

    method EnterErrorStateCustom(retryState: State, c: Cell, a: Alloc)
      modifies `ev
      ensures ev == RaiseErrorKeeping(old(ev), retryState, c, a)
    {
      hide PostIgnored;
      NoteLeak();
      ev := ev.(recovery := Recovery(retryState, Some(c), ErrorOccurred));
      PostErrorEvent(RetryWithBackoff, a);
    }

    /** `ota_job_state_recover`: refused unless a recovery route without a kept event is set. */
    method Recover(a: Alloc) returns (ok: bool)
      requires Valid()
      modifies `ev
      ensures Valid() && Abs() == OtaSpec.Next(old(Abs()), RequestRecovery(a))
      ensures ok ==> Recoverable(old(Abs()).ev.recovery)
    {
      if ev.recovery.state == Uninitialized || ev.recovery.event == ErrorOccurred {
        return false;
      }
      ok := PostEventData(Plain(RecoveryRequested), a);
    }

    /* ---------- The response timer ---------- */

    method StartResponseTimer(e: Env)
      requires Valid()
      modifies `ev, `timerArmed
      ensures Valid() && Abs() == StartTimer(old(Abs()), e)
    {
      hide RaiseError;
      if e.timerOk {
        timerArmed := true;
      } else {
        EnterErrorState(TimeoutHandlerRestartFailed, e.errorPost);
      }
    }

    method StopResponseTimer(e: Env)
      requires Valid()
      modifies `timerArmed
      ensures Valid() && Abs() == StopTimer(old(Abs()), e)
    {
      if e.timerStopOk {
        timerArmed := false;
      }
    }

    method TimeoutCallback(a: Alloc)
      requires Valid() && timerArmed
      modifies `ev, `timerArmed
      ensures Valid() && Abs() == OtaSpec.Next(old(Abs()), TimerFires(a))
    {
      hide PostEvent, OtaSpec.RunOnce, RaiseError, OtaSpec.Init, Open;
      timerArmed := false;
      var ok := PostEventData(Plain(Timeout), a);
      ev := ev.(lost := ev.lost || !ok);
    }

    /* ---------- The job-id queue ---------- */

    /** Appends the usable ids of one array to the queue until it is full. */
    method CopyJobIds(ids: seq<string>, from: nat, ghost done: seq<string>) returns (idx: nat)
      requires Valid() && from <= OTA_JOB_ID_QUEUE_SIZE
      requires jobIds[..from] == Take(Usable(done), OTA_JOB_ID_QUEUE_SIZE)
      modifies jobIds
      ensures idx <= OTA_JOB_ID_QUEUE_SIZE && jobIds[..idx] == Take(Usable(done + ids), OTA_JOB_ID_QUEUE_SIZE)
    {
      hide Usable;
      idx := from;
      var k := 0;
      assert done + ids[..0] == done;
      while k < |ids|
        invariant 0 <= k <= |ids| && idx <= OTA_JOB_ID_QUEUE_SIZE
        invariant jobIds[..idx] == Take(Usable(done + ids[..k]), OTA_JOB_ID_QUEUE_SIZE)
      {
        UsableNext(done, ids, k);
        var id := ids[k];
        if |id| != 0 {
          if idx >= OTA_JOB_ID_QUEUE_SIZE {
            FullQueue(done + ids[..k], ids[k..], OTA_JOB_ID_QUEUE_SIZE);
            assert done + ids[..k] + ids[k..] == done + ids;
            return;
          }
          if |id| <= JOBID_MAX_LENGTH {
            jobIds[idx] := id;
            idx := idx + 1;
          }
        }
        k := k + 1;
      }
      assert ids[..k] == ids;
    }

    /** Fills the queue from both arrays of the message, in-progress jobs first. */
    method PendingJobsToJobIdQueue(lists: JobLists) returns (result: QueueResult)
      requires Valid()
      modifies `next, `size, `job, `described, `candidates, jobIds
      ensures Valid()
      ensures result == InvalidJson <==> lists.Malformed?
      ensures lists.Malformed? ==> Abs() == old(Abs())
      ensures lists.Lists? ==> Abs() == Fill(old(Abs()), lists) && (result == NoPendingJobs <==> Abs().ids == [])
    {
      hide Usable;
      if lists.Malformed? {
        return InvalidJson;
      }
      job := job.(hasPending := false);
      UsableEmpty();
      var idx := CopyJobIds(lists.inProgress, 0, []);
      assert [] + lists.inProgress == lists.inProgress;
      idx := CopyJobIds(lists.queued, idx, lists.inProgress);
      next, size := 0, idx;
      described, candidates := [], [];
      result := if idx > 0 then Filled else NoPendingJobs;
    }

    method GetNextJobIdFromQueue() returns (id: Option<string>)
      requires Valid()
      modifies `next
      ensures next == if old(next) < size then old(next) + 1 else old(next)
      ensures id == if old(next) < size then Some(jobIds[old(next)]) else None
    {
      if next >= size {
        return None;
      }
      id := Some(jobIds[next]);
      next := next + 1;
    }

    /* ---------- Moving on ---------- */

    /** Posts the event that drives the next state; a failed post is an error with back-off. */
    method TransitionTo(target: State, d: Data, e: Env) returns (nextState: State, shouldFree: bool)
      requires Valid()
      modifies `ev
      ensures Valid() && Handled(Abs(), nextState, shouldFree) == GoTo(old(Abs()), target, d, e)
    {
      hide RaiseError, Post;
      var ok := EnqueueCopy(d, e.post);
      if !ok {
        EnterErrorState(RetryWithBackoff, e.errorPost);
        return ErrorState, true;
      }
      return target, true;
    }

    /** Hands the running event on; from here on it belongs to the work queue, or has been freed. */
    method HandOn(target: State, c: Cell, e: Env) returns (nextState: State, shouldFree: bool)
      requires Valid()
      modifies `ev
      ensures Valid() && Handled(Abs(), nextState, shouldFree) == PassOn(old(Abs()), target, c, e)
    {
      hide RaiseError, HandOver;
      var ok := EnqueueOwned(c, e.handOverOk);
      if !ok {
        EnterErrorState(RetryWithBackoff, e.errorPost);
        return ErrorState, false;
      }
      return target, false;
    }

    /** What follows a publish: stay, give up, or keep the event for a retry. */
    method Published(sent: Outcome, c: Cell, retryState: State, e: Env) returns (nextState: State, shouldFree: bool)
      requires Valid()
      modifies `ev
      ensures Valid() && Handled(Abs(), nextState, shouldFree) == AfterPublish(old(Abs()), sent, c, retryState, e)
    {
      hide RaiseError, RaiseErrorKeeping;
      if sent == InvalidArg {
        EnterErrorState(FatalUnexpectedFormat, e.errorPost);
        return ErrorState, true;
      } else if sent != Fine {
        EnterErrorStateCustom(retryState, c, e.errorPost);
        return ErrorState, false;
      }
      return state, true;
    }

    /** `ota_job_state_fetch`, and what its callers do when it fails. */
    method FetchAndIdle(e: Env) returns (nextState: State, shouldFree: bool)
      requires Valid()
      modifies `ev
      ensures Valid() && Handled(Abs(), nextState, shouldFree) == BackToIdle(old(Abs()), e)
    {
      hide RaiseError, PostEvent;
      var ok := PostEventData(Plain(FetchRequested), e.post);
      if !ok {
        EnterErrorState(RetryWithBackoff, e.errorPost);
        return ErrorState, true;
      }
      return Idle, true;
    }

    /* ---------- The state handlers ---------- */

    method HandleNetworkInit(c: Cell, e: Env) returns (nextState: State, shouldFree: bool)
      requires Valid()
      modifies `ev, `subIntended, `job, `log
      ensures Valid() && Handled(Abs(), nextState, shouldFree) == OnNetworkInit(old(Abs()), c, e)
    {
      hide RaiseError, PostEvent;
      if c.data.event != EmptyTransition {
        return state, true;
      }
      if !subIntended {
        subIntended := true;
        if !e.subscribeOk {
          EnterErrorState(SubscriptionFailed, e.errorPost);
          return ErrorState, true;
        }
      }
      nextState, shouldFree := state, true;
      var toIdle := e.boot.jobId.None?;
      if !toIdle {
        nextState := RebootCheck;
        var ok := LoadRebootedJob(e);
        if !ok {
          log := log + [NvsCleared];
          toIdle := true;
        }
      }
      if toIdle {
        nextState := Idle;
        var _ := PostEventData(Plain(EmptyTransition), e.post);
      }
    }

    /** Copies the record of the pre-reboot job into the context; a record that does not fit is dropped. */
    method LoadRebootedJob(e: Env) returns (ok: bool)
      requires Valid() && e.boot.jobId.Some?
      modifies `job
      ensures ok <==> |e.boot.jobId.value| <= JOBID_MAX_LENGTH && e.boot.version >= 0 && e.initialVersionOk
                      && (e.boot.filetype.Some? ==> |e.boot.filetype.value| <= OTA_FILETYPE_MAX_LENGTH)
      ensures ok ==> job == old(job).(jobId := e.boot.jobId.value,
                                      filetype := if e.boot.filetype.Some? then e.boot.filetype.value
                                                  else old(job).filetype)
      ensures !ok ==> job == if |e.boot.jobId.value| > JOBID_MAX_LENGTH then old(job) else old(job).(jobId := "")
    {
      var id := e.boot.jobId.value;
      if |id| > JOBID_MAX_LENGTH {
        return false;
      }
      job := job.(jobId := id);
      if e.boot.version < 0 || !e.initialVersionOk {
        job := job.(jobId := "");
        return false;
      }
      if e.boot.filetype.Some? {
        if |e.boot.filetype.value| > OTA_FILETYPE_MAX_LENGTH {
          job := job.(jobId := "");
          return false;
        }
        job := job.(filetype := e.boot.filetype.value);
      }
      ok := true;
    }

    /** `mqtt_publish_final_status`. */
    method PublishFinalStatus(details: Details, e: Env) returns (sent: Outcome)
      requires Valid()
      modifies `job, `log
      ensures Valid() && sent == FinalOutcome(details, e)
      ensures Abs() == if sent.Fine? then FinalSent(old(Abs()), details) else old(Abs())
    {
      if !e.statusTimerOk {
        return Failure;
      }
      var status := Queued;
      match details {
        case DetailsSucceeded => status := Succeeded;
        case DetailsFailed => status := Failed;
        case _ => return InvalidArg;
      }
      sent := e.publish;
      if sent == Fine {
        job := job.(status := status);
        log := log + [TerminalStatus(job.jobId)];
      }
    }

    method HandleRebootFinalStatus(c: Cell, e: Env) returns (nextState: State, shouldFree: bool)
      requires Valid()
      modifies `ev, `job, `log
      ensures Valid() && Handled(Abs(), nextState, shouldFree) == OnRebootFinalStatus(old(Abs()), c, e)
    {
      hide RaiseError, AfterPublish, FinalOutcome, FinalSent;
      if !c.data.payload.FinalStatus? {
        EnterErrorState(FatalUnexpectedFormat, e.errorPost);
        return ErrorState, true;
      }
      var sent := PublishFinalStatus(c.data.payload.details, e);
      if sent != Fine {
        nextState, shouldFree := Published(sent, c, RebootCheck, e);
        return;
      }
      job := job.(details := c.data.payload.details);
      return state, true;
    }

    method HandleRebootVerdict(c: Cell, e: Env) returns (nextState: State, shouldFree: bool)
      requires Valid()
      modifies `ev, `job, `log
      ensures Valid() && Handled(Abs(), nextState, shouldFree) == OnRebootVerdict(old(Abs()), c, e)
    {
      hide AfterPublish, SetVerdict;
      if job.filetype != "" {
        return state, true;
      }
      var flags := Flags(true, false);
      if e.flags.Some? {
        flags := e.flags.value;
      }
      if !flags.isChecked {
        return state, true;
      }
      FillVerdict(flags.isPassed, e);
      nextState, shouldFree := Published(e.publish, c, RebootCheck, e);
    }

    method FillVerdict(passed: bool, e: Env)
      requires Valid()
      modifies `job, `log
      ensures Valid() && Abs() == SetVerdict(old(Abs()), passed, e)
    {
      if passed {
        job := job.(status := Succeeded, details := DetailsSucceeded);
      } else {
        job := job.(status := Failed, details := DetailsFailed);
      }
      if e.publish == Fine {
        log := log + [TerminalStatus(job.jobId)];
      }
    }

    method ResetRebootedJob()
      requires Valid()
      modifies `job, `log
      ensures Valid() && Abs() == DropRebootedJob(old(Abs()))
    {
      job := job.(jobId := "", filetype := "", finalReported := false);
      log := log + [NvsCleared];
    }

    method HandleRebootAccepted(e: Env) returns (nextState: State, shouldFree: bool)
      requires Valid()
      modifies `ev, `job, `log
      ensures Valid() && Handled(Abs(), nextState, shouldFree) == OnRebootAccepted(old(Abs()), e)
    {
      hide EnterError, DropRebootedJob;
      if job.filetype != "" && !job.finalReported {
        return state, true;
      }
      var matches := VerdictMatches();
      ResetRebootedJob();
      if !matches {
        RaiseErrorFor(FatalUnexpectedFormat, e);
        return ErrorState, true;
      }
      return Idle, true;
    }

    method VerdictMatches() returns (matches: bool)
      ensures matches <==> StatusMatchesDetails(job)
    {
      match job.status
      case Succeeded => matches := job.details == DetailsSucceeded;
      case Failed => matches := job.details == DetailsFailed;
      case _ => matches := false;
    }

    method RaiseErrorFor(reason: ErrorReason, e: Env)
      requires Valid()
      modifies `ev
      ensures Valid() && Abs() == EnterError(old(Abs()), reason, e.errorPost)
    {
      hide RaiseError;
      EnterErrorState(reason, e.errorPost);
    }

    method HandleRebootCheck(c: Cell, e: Env) returns (nextState: State, shouldFree: bool)
      requires Valid()
      modifies `ev, `job, `log
      ensures Valid() && Handled(Abs(), nextState, shouldFree) == OnRebootCheck(old(Abs()), c, e)
    {
      hide OnRebootFinalStatus, OnRebootVerdict, OnRebootAccepted;
      nextState, shouldFree := state, true;
      match c.data.event {
        case FinalStatusReportRequested => nextState, shouldFree := HandleRebootFinalStatus(c, e);
        case RebootCheckRequested => nextState, shouldFree := HandleRebootVerdict(c, e);
        case UpdateAccepted => nextState, shouldFree := HandleRebootAccepted(e);
        case UpdateRejected =>
          if c.data.flag {
            ResetRebootedJob();
            job := job.(details := DetailsRejected);
            nextState := Idle;
          }
        case _ =>
      }
    }

    method HandleIdle(c: Cell, e: Env) returns (nextState: State, shouldFree: bool)
      requires Valid()
      modifies `ev
      ensures Valid() && Handled(Abs(), nextState, shouldFree) == OnIdle(old(Abs()), c, e)
    {
      hide GoTo, PassOn;
      nextState, shouldFree := state, true;
      match c.data.event {
        case FetchRequested => nextState, shouldFree := TransitionTo(FetchingPendingJobs, Plain(EmptyTransition), e);
        case JobsChanged => nextState, shouldFree := HandOn(JobsChangedState, c, e);
        case _ =>
      }
    }

    /** The end of both handlers that receive a list of jobs. */
    method BeginRound(lists: JobLists, e: Env) returns (nextState: State, shouldFree: bool)
      requires Valid()
      modifies `ev, `next, `size, `job, `described, `candidates, jobIds
      ensures Valid() && Handled(Abs(), nextState, shouldFree) == StartRound(old(Abs()), lists, e)
    {
      hide GoTo, RaiseError, RoundIds;
      var result := PendingJobsToJobIdQueue(lists);
      match result {
        case Filled => nextState, shouldFree := TransitionTo(FetchingJobDoc, Plain(EmptyTransition), e);
        case NoPendingJobs => nextState, shouldFree := Idle, true;
        case InvalidJson =>
          EnterErrorState(GetPendingInvalidFormat, e.errorPost);
          nextState, shouldFree := ErrorState, true;
      }
    }

    method HandleJobsChanged(c: Cell, e: Env) returns (nextState: State, shouldFree: bool)
      requires Valid()
      modifies `ev, `next, `size, `job, `described, `candidates, jobIds
      ensures Valid() && Handled(Abs(), nextState, shouldFree) == OnJobsChanged(old(Abs()), c, e)
    {
      hide StartRound;
      if c.data.event != JobsChanged {
        return state, true;
      }
      if !c.data.payload.Jobs? {
        return Idle, true;
      }
      nextState, shouldFree := BeginRound(c.data.payload.lists, e);
    }

    method HandleFetchingPendingJobs(c: Cell, e: Env) returns (nextState: State, shouldFree: bool)
      requires Valid()
      modifies `ev, `timerArmed
      ensures Valid() && Handled(Abs(), nextState, shouldFree) == OnFetchingPendingJobs(old(Abs()), c, e)
    {
      hide StartTimer, RaiseError;
      if c.data.event != EmptyTransition {
        return state, true;
      }
      if !e.requestOk {
        EnterErrorState(RetryWithBackoff, e.errorPost);
        return state, true;
      }
      StartResponseTimer(e);
      return WaitingForPendingJobs, true;
    }

    method HandleWaitingForPendingJobs(c: Cell, e: Env) returns (nextState: State, shouldFree: bool)
      requires Valid()
      modifies `ev, `timerArmed
      ensures Valid()
      ensures Handled(Abs(), nextState, shouldFree)
              == OnWaiting(old(Abs()), c, e, PendingJobsAccepted, PendingJobsRejected, GetPendingRejected,
                           PendingJobsReceived)
    {
      hide StopTimer, EnterError, PassOn;
      nextState, shouldFree := state, true;
      match c.data.event {
        case PendingJobsAccepted =>
          StopResponseTimer(e);
          nextState, shouldFree := HandOn(PendingJobsReceived, c, e);
        case PendingJobsRejected =>
          StopResponseTimer(e);
          RaiseErrorFor(GetPendingRejected, e);
        case Timeout => RaiseErrorFor(RetryWithBackoff, e);
        case _ =>
      }
    }

    method HandleWaitingForJobDoc(c: Cell, e: Env) returns (nextState: State, shouldFree: bool)
      requires Valid()
      modifies `ev, `timerArmed
      ensures Valid()
      ensures Handled(Abs(), nextState, shouldFree)
              == OnWaiting(old(Abs()), c, e, JobDocAccepted, JobDocRejected, DescribeJobRejected, JobDocReceived)
    {
      hide StopTimer, EnterError, PassOn;
      nextState, shouldFree := state, true;
      match c.data.event {
        case JobDocAccepted =>
          StopResponseTimer(e);
          nextState, shouldFree := HandOn(JobDocReceived, c, e);
        case JobDocRejected =>
          StopResponseTimer(e);
          RaiseErrorFor(DescribeJobRejected, e);
        case Timeout => RaiseErrorFor(RetryWithBackoff, e);
        case _ =>
      }
    }

    method HandlePendingJobsReceived(c: Cell, e: Env) returns (nextState: State, shouldFree: bool)
      requires Valid()
      modifies `ev, `next, `size, `job, `described, `candidates, jobIds
      ensures Valid() && Handled(Abs(), nextState, shouldFree) == OnPendingJobsReceived(old(Abs()), c, e)
    {
      hide StartRound, RaiseError;
      if c.data.event != PendingJobsAccepted {
        return state, true;
      }
      if !c.data.payload.Jobs? {
        EnterErrorState(GetPendingInvalidFormat, e.errorPost);
        return state, true;
      }
      nextState, shouldFree := BeginRound(c.data.payload.lists, e);
    }

    method HandleFetchingJobDoc(c: Cell, e: Env) returns (nextState: State, shouldFree: bool)
      requires Valid()
      modifies `ev, `timerArmed, `next, `described, `log
      ensures Valid() && Handled(Abs(), nextState, shouldFree) == OnFetchingJobDoc(old(Abs()), c, e)
    {
      hide StartTimer, RaiseError, GoTo;
      if c.data.event != EmptyTransition {
        return state, true;
      }
      var id := GetNextJobIdFromQueue();
      if id.None? {
        if !job.hasPending {
          return Idle, true;
        }
        nextState, shouldFree := TransitionTo(JobExecution, Plain(EmptyTransition), e);
        return;
      }
      described, log := described + [id.value], log + [Described(id.value)];
      if !e.requestOk {
        EnterErrorState(RetryWithBackoff, e.errorPost);
        return state, true;
      }
      StartResponseTimer(e);
      return WaitingForJobDoc, true;
    }

    /* ---------- Job documents ---------- */

    /** The version checks of a document against the running release. */
    method CheckVersions(d: Doc, h: Lookup) returns (verdict: Verdict)
      requires h.Handler?
      ensures verdict == VersionCheck(d, h)
    {
      if !h.tracksVersion {
        return Accept(0);
      }
      if d.fwVersion == "" || h.running.None? || h.offered.None? {
        return Reject;
      }
      if h.offered.value <= h.running.value {
        return Reject;
      }
      if d.minFwVersion != "" {
        if h.demanded.None? || h.demanded.value > h.running.value {
          return Ignore;
        }
      }
      verdict := Accept(h.offered.value);
    }

    /** The handler of the document's filetype; the default one parses the three versions itself. */
    method LookupHandler(d: Doc, e: DocEnv) returns (h: Lookup)
      ensures h == HandlerFor(d, e)
    {
      if d.filetype != "" {
        return e.lookup;
      }
      var running := Version.VersionToUint32(e.runningVersion);
      var offered := Version.VersionToUint32(d.fwVersion);
      var demanded := Version.VersionToUint32(d.minFwVersion);
      h := Handler(true, running, offered, demanded);
    }

    /** `execution_version_to_int32`: only digits are accepted. */
    method ExecutionVersionOk(s: string) returns (ok: bool)
      ensures ok <==> AllDigits(s)
    {
      for i := 0 to |s|
        invariant forall k | 0 <= k < i :: '0' <= s[k] <= '9'
      {
        if s[i] < '0' || s[i] > '9' {
          return false;
        }
      }
      ok := true;
    }

    /** The checks of a document up to the download window; the filetype is stored on the way. */
    method ScreenDocument(d: Doc, e: DocEnv) returns (verdict: Verdict)
      modifies `job
      ensures verdict == Screen(d, e)
      ensures job == old(job).(filetype := FiletypeAfter(old(job), d, e))
    {
      hide VersionCheck, HandlerFor;
      var numberOk := ExecutionVersionOk(d.executionVersion);
      if |d.jobId| == 0 || |d.jobId| > JOBID_MAX_LENGTH || !d.hasDocument || !numberOk {
        return Ignore;
      }
      if !d.hasRmngFields || (d.minFwVersion != "" && d.fwVersion == "") {
        return Foreign;
      }
      job := job.(filetype := "");
      if |d.filetype| > OTA_FILETYPE_MAX_LENGTH {
        return Reject;
      }
      job := job.(filetype := d.filetype);
      var h := LookupHandler(d, e);
      if h.Missing? {
        return Reject;
      }
      verdict := CheckVersions(d, h);
      if verdict.Accept? && DownloadWindow.HasWindow(d.window) {
        var delay := DownloadWindow.GetDownloadWindowDelayTime(d.window, e.now, e.minuteOfDay);
        if delay != 0 {
          verdict := Ignore;
        }
      }
    }

    /** The whole examination: screening, comparison with the best document so far, the remaining checks. */
    method ExamineDocument(d: Doc, e: DocEnv) returns (verdict: Verdict)
      requires Valid()
      modifies `job, `candidates
      ensures Valid() && verdict == JudgeInRound(old(job), d, e)
      ensures Abs() == Seen(old(Abs()), d, e)
    {
      hide Screen, FiletypeAfter;
      verdict := ScreenDocument(d, e);
      var v := Judge(d, e);
      candidates := if v.Accept? then candidates + [Candidate(d, e, v.version)] else candidates;
      if !verdict.Accept? {
        return;
      }
      if job.hasPending && verdict.version < job.fwVersion {
        return Ignore;
      }
      if d.afr.None? {
        return Foreign;
      }
      if !e.imageRefOk || !e.signatureOk {
        return Reject;
      }
      if d.afr.value.size > INT_MAX || d.afr.value.streamId == "" || !e.copyOk {
        return Broken;
      }
    }

    method RejectDocument(c: Cell, e: Env) returns (nextState: State, shouldFree: bool)
      requires Valid()
      modifies `ev
      ensures Valid() && Handled(Abs(), nextState, shouldFree) == RejectDoc(old(Abs()), c, e)
    {
      hide RaiseError, RaiseErrorKeeping, GoTo;
      if !e.initialVersionOk || e.publish == InvalidArg {
        EnterErrorState(FatalUnexpectedFormat, e.errorPost);
        return ErrorState, true;
      }
      if e.publish != Fine {
        EnterErrorStateCustom(JobDocReceived, c, e.errorPost);
        return ErrorState, false;
      }
      nextState, shouldFree := TransitionTo(FetchingJobDoc, Plain(EmptyTransition), e);
    }

    /** A document of another format goes to the custom callback, and the job-id queue is flushed. */
    method HandleForeignDocument(d: Doc, c: Cell, e: Env) returns (nextState: State, shouldFree: bool)
      requires Valid()
      modifies `ev, `job, `next, `size, `described, `candidates
      ensures Valid() && Handled(Abs(), nextState, shouldFree) == ForeignDoc(old(Abs()), d, c, e)
    {
      hide RejectDoc, GoTo;
      if !hasCustomJobCb {
        nextState, shouldFree := RejectDocument(c, e);
        return;
      }
      job := job.(jobId := d.jobId);
      next, size := 0, 0;
      described, candidates := [], [];
      nextState, shouldFree := TransitionTo(CustomJobExecution, Data(CustomJobExecutionRequested, Text, false), e);
    }

    method HandleDocument(d: Doc, c: Cell, e: Env) returns (nextState: State, shouldFree: bool)
      requires Valid()
      modifies `ev, `job, `next, `size, `described, `candidates
      ensures Valid() && Handled(Abs(), nextState, shouldFree) == OnDocument(old(Abs()), d, c, e)
    {
      hide JudgeInRound, Seen, NextDoc, RejectDoc, ForeignDoc, RaiseError;
      var verdict := ExamineDocument(d, e.doc);
      match verdict {
        case Ignore => nextState, shouldFree := FetchNextDocument(e);
        case Accept(version) =>
          AcceptedHasImage(old(job), d, e.doc);
          job := job.(hasPending := true, fwVersion := version, jobId := d.jobId, image := d.afr.value);
          nextState, shouldFree := FetchNextDocument(e);
        case Broken =>
          job := job.(image := NO_IMAGE);
          EnterErrorState(JobDocParseFailed, e.errorPost);
          nextState, shouldFree := ErrorState, true;
        case Reject => nextState, shouldFree := RejectDocument(c, e);
        case Foreign => nextState, shouldFree := HandleForeignDocument(d, c, e);
      }
    }

    method FetchNextDocument(e: Env) returns (nextState: State, shouldFree: bool)
      requires Valid()
      modifies `ev
      ensures Valid() && Handled(Abs(), nextState, shouldFree) == NextDoc(old(Abs()), e)
    {
      hide GoTo;
      nextState, shouldFree := TransitionTo(FetchingJobDoc, Plain(EmptyTransition), e);
    }

    method HandleJobDocReceived(c: Cell, e: Env) returns (nextState: State, shouldFree: bool)
      requires Valid()
      modifies `ev, `job, `next, `size, `described, `candidates
      ensures Valid() && Handled(Abs(), nextState, shouldFree) == OnJobDocReceived(old(Abs()), c, e)
    {
      hide OnDocument, NextDoc;
      if c.data.event != JobDocAccepted {
        return state, true;
      }
      if !c.data.payload.Document? {
        nextState, shouldFree := FetchNextDocument(e);
        return;
      }
      nextState, shouldFree := HandleDocument(c.data.payload.doc, c, e);
    }

    /* ---------- Execution ---------- */

    method ReportCustomStatus(status: JobStatus, c: Cell, e: Env) returns (nextState: State, shouldFree: bool)
      requires Valid()
      modifies `ev, `job
      ensures Valid() && Handled(Abs(), nextState, shouldFree) == ReportCustom(old(Abs()), status, c, e)
    {
      hide AfterPublish;
      if e.publish == Fine {
        job := job.(status := status);
      }
      nextState, shouldFree := Published(e.publish, c, CustomJobExecution, e);
    }

    method HandleCustomJobExecution(c: Cell, e: Env) returns (nextState: State, shouldFree: bool)
      requires Valid()
      modifies `ev, `job
      ensures Valid() && Handled(Abs(), nextState, shouldFree) == OnCustomJobExecution(old(Abs()), c, e)
    {
      hide GoTo, ReportCustom, BackToIdle;
      nextState, shouldFree := state, true;
      match c.data.event {
        case CustomJobExecutionRequested =>
          match e.customCb {
            case Fine =>
            case InvalidArg =>
              nextState, shouldFree := TransitionTo(CustomJobExecution, Data(CustomJobRejected, Text, false), e);
            case Failure =>
              nextState, shouldFree := TransitionTo(CustomJobExecution, Data(CustomJobFailed, Text, false), e);
          }
        case CustomJobProgress => nextState, shouldFree := ReportCustomStatus(InProgress, c, e);
        case CustomJobSucceeded => nextState, shouldFree := ReportCustomStatus(Succeeded, c, e);
        case CustomJobFailed => nextState, shouldFree := ReportCustomStatus(Failed, c, e);
        case CustomJobRejected => nextState, shouldFree := ReportCustomStatus(Rejected, c, e);
        case UpdateAccepted =>
          if e.cacheEmpty && job.finalReported {
            nextState, shouldFree := FetchAndIdle(e);
          }
        case _ =>
      }
    }

    method PublishProgress(e: Env)
      requires Valid()
      modifies `job
      ensures Valid() && Abs() == Progressed(old(Abs()), e)
    {
      if e.publish == Fine {
        job := job.(status := InProgress);
      }
    }

    /** The first event in JOB_EXECUTION, whatever it is, starts the job and resets its flags. */
    method StartCurrentJob(e: Env)
      requires Valid()
      modifies `job, `log
      ensures Valid() && Abs() == StartJob(old(Abs()), e)
    {
      hide Progressed;
      job := job.(hasActive := true);
      job := job.(shouldReboot := false, finalReported := false, finalQueued := false);
      log := log + [Started(job.jobId)];
      PublishProgress(e);
    }

    method DownloadFailed(e: Env) returns (nextState: State, shouldFree: bool)
      requires Valid()
      modifies `ev
      ensures Valid() && Handled(Abs(), nextState, shouldFree) == FailDownload(old(Abs()), e)
    {
      hide GoTo;
      nextState, shouldFree :=
        TransitionTo(PostDownload, Data(FinalStatusReportRequested, FinalStatus(DetailsFailed), false), e);
    }

    method HandleJobExecution(c: Cell, e: Env) returns (nextState: State, shouldFree: bool)
      requires Valid()
      modifies `ev, `job, `log
      ensures Valid() && Handled(Abs(), nextState, shouldFree) == OnJobExecution(old(Abs()), c, e)
    {
      hide StartJob, FailDownload, Progressed, PassOn, RaiseError;
      nextState, shouldFree := state, true;
      if !job.hasActive {
        StartCurrentJob(e);
        StartJobState(old(Abs()), e);
        if !e.downloadCbOk {
          nextState, shouldFree := DownloadFailed(e);
        }
        return;
      }
      match c.data.event {
        case ImageDownloadProgress => PublishProgress(e); ProgressedState(old(Abs()), e);
        case ImageDownloadSucceeded =>
          PublishProgress(e);
          nextState, shouldFree := HandOn(PostDownload, c, e);
        case Timeout => EnterErrorState(RetryWithBackoff, e.errorPost);
        case ImageDownloadFailed(_) => nextState, shouldFree := DownloadFailed(e);
        case FinalStatusReportRequested =>
          var details := NoDetails;
          if c.data.payload.FinalStatus? {
            details := c.data.payload.details;
          }
          job := job.(details := details);
          job := job.(finalQueued := true);
        case _ =>
      }
    }

    method HandleFinalStatus(c: Cell, e: Env) returns (nextState: State, shouldFree: bool)
      requires Valid()
      modifies `ev, `job, `log
      ensures Valid() && Handled(Abs(), nextState, shouldFree) == OnFinalStatus(old(Abs()), c, e)
    {
      hide RaiseError, AfterPublish, FinalOutcome, FinalSent;
      if !c.data.payload.FinalStatus? {
        EnterErrorState(FatalUnexpectedFormat, e.errorPost);
        return ErrorState, true;
      }
      var sent := PublishFinalStatus(c.data.payload.details, e);
      if sent != Fine {
        nextState, shouldFree := Published(sent, c, Idle, e);
        return;
      }
      FinalSentState(old(Abs()), c.data.payload.details);
      job := job.(finalReported := true);
      return state, true;
    }

    method HandleUpdateAccepted(e: Env) returns (nextState: State, shouldFree: bool)
      requires Valid()
      modifies `ev, `job, `log
      ensures Valid() && Handled(Abs(), nextState, shouldFree) == OnUpdateAccepted(old(Abs()), e)
    {
      hide BackToIdle;
      nextState, shouldFree := state, true;
      if !e.cacheEmpty {
        return;
      }
      if job.shouldReboot {
        log := log + [RebootRequested(job.jobId)];
      } else if job.finalReported {
        log := log + [Finished(job.jobId)];
        job := NO_JOB;
        nextState, shouldFree := FetchAndIdle(e);
      }
    }

    method HandlePostDownloadEvent(c: Cell, e: Env) returns (nextState: State, shouldFree: bool)
      requires Valid()
      modifies `ev, `job, `log
      ensures Valid() && Handled(Abs(), nextState, shouldFree) == OnPostDownloadEvent(old(Abs()), c, e)
    {
      hide OnFinalStatus, OnUpdateAccepted;
      nextState, shouldFree := state, true;
      match c.data.event {
        case FinalStatusReportRequested => nextState, shouldFree := HandleFinalStatus(c, e);
        case ImageDownloadSucceeded =>
          job := job.(shouldReboot := c.data.flag);
          if job.shouldReboot {
            log := log + [PendingVerification(job.jobId, job.filetype)];
          }
        case UpdateAccepted => nextState, shouldFree := HandleUpdateAccepted(e);
        case _ =>
      }
    }

    /** A status queued during the download is published before the event itself is handled. */
    method HandlePostDownload(c: Cell, e: Env) returns (nextState: State, shouldFree: bool)
      requires Valid()
      modifies `ev, `job, `log
      ensures Valid() && Handled(Abs(), nextState, shouldFree) == OnPostDownload(old(Abs()), c, e)
    {
      hide AfterPublish, FinalOutcome, FinalSent, OnPostDownloadEvent;
      if job.finalQueued {
        var sent := PublishFinalStatus(job.details, e);
        if sent != Fine {
          nextState, shouldFree := Published(sent, c, PostDownload, e);
          return;
        }
        job := job.(finalQueued := false);
      }
      nextState, shouldFree := HandlePostDownloadEvent(c, e);
    }

    method ReportErrorOccurred(e: Env)
      requires Valid()
      modifies `job
      ensures Valid() && Abs() == OnErrorOccurred(old(Abs()), e)
    {
      if job.hasActive {
        if e.publish == Fine {
          job := job.(status := Failed);
        }
        job := job.(hasActive := false);
      }
    }

    /** The kept event is handed over, or the recovery event is posted. */
    method PostRecoveryEvent(e: Env) returns (ok: bool)
      modifies `ev
      ensures Posted(ev, ok) == PostRecovery(old(ev), e)
    {
      hide HandOver, Post;
      if ev.recovery.cell.Some? {
        var c := ev.recovery.cell.value;
        ev := ev.(recovery := ev.recovery.(cell := None));
        ok := EnqueueOwned(c, e.handOverOk);
      } else {
        ok := EnqueueCopy(Plain(ev.recovery.event), e.post);
      }
    }

    method HandleError(c: Cell, e: Env) returns (nextState: State, shouldFree: bool)
      requires Valid()
      modifies `ev
      ensures Valid() && Handled(Abs(), nextState, shouldFree) == OnError(old(Abs()), c, e)
    {
      hide PostRecovery;
      nextState, shouldFree := state, true;
      if c.data.event != RecoveryRequested {
        return;
      }
      var target := ev.recovery.state;
      var ok := PostRecoveryEvent(e);
      if !ok {
        return;
      }
      nextState := target;
      ev := ev.(lastError := NoError, recovery := Recovery(Uninitialized, None, ErrorOccurred));
    }

    /* ---------- One turn of the work queue ---------- */

    method HandleState(c: Cell, e: Env) returns (nextState: State, shouldFree: bool)
      requires Valid()
      modifies this, jobIds
      ensures Valid() && Handled(Abs(), nextState, shouldFree) == Handle(old(Abs()), c, e)
    {
      hide OnNetworkInit, OnRebootCheck, OnIdle, OnJobsChanged, OnFetchingPendingJobs, OnWaiting, OnPendingJobsReceived,
           OnFetchingJobDoc, OnJobDocReceived, OnJobExecution, OnCustomJobExecution, OnPostDownload, OnError;
      match state {
        case Uninitialized => nextState, shouldFree := state, true;
        case NetworkInit => nextState, shouldFree := HandleNetworkInit(c, e);
        case RebootCheck => nextState, shouldFree := HandleRebootCheck(c, e);
        case Idle => nextState, shouldFree := HandleIdle(c, e);
        case JobsChangedState => nextState, shouldFree := HandleJobsChanged(c, e);
        case FetchingPendingJobs => nextState, shouldFree := HandleFetchingPendingJobs(c, e);
        case WaitingForPendingJobs => nextState, shouldFree := HandleWaitingForPendingJobs(c, e);
        case PendingJobsReceived => nextState, shouldFree := HandlePendingJobsReceived(c, e);
        case FetchingJobDoc => nextState, shouldFree := HandleFetchingJobDoc(c, e);
        case WaitingForJobDoc => nextState, shouldFree := HandleWaitingForJobDoc(c, e);
        case JobDocReceived => nextState, shouldFree := HandleJobDocReceived(c, e);
        case JobExecution => nextState, shouldFree := HandleJobExecution(c, e);
        case CustomJobExecution => nextState, shouldFree := HandleCustomJobExecution(c, e);
        case PostDownload => nextState, shouldFree := HandlePostDownload(c, e);
        case ErrorState => nextState, shouldFree := HandleError(c, e);
      }
    }

    /** ERROR_OCCURRED wins over every state. */
    method DispatchEvent(c: Cell, e: Env) returns (shouldFree: bool)
      requires Valid()
      modifies this, jobIds
      ensures Valid()
      ensures var h := Dispatch(old(Abs()), c, e);
              Abs() == h.m.(state := h.next) && shouldFree == h.free
    {
      hide Handle, OnErrorOccurred;
      if c.data.event == ErrorOccurred {
        state := ErrorState;
        ErrorOccurredState(Abs(), e);
        ReportErrorOccurred(e);
        return true;
      }
      var nextState;
      nextState, shouldFree := HandleState(c, e);
      state := nextState;
    }

    /** `ota_job_state_run_once` on the oldest entry of the work queue. */
    method RunOnce(e: Env)
      requires Valid() && ev.queue != []
      modifies this, jobIds
      ensures Valid() && Abs() == OtaSpec.RunOnce(old(Abs()), e)
    {
      hide Dispatch;
      var c := ev.queue[0];
      ev := ev.(queue := ev.queue[1..]);
      if !ev.initialized {
        FreeEventData(c);
        return;
      }
      var shouldFree := DispatchEvent(c, e);
      if shouldFree {
        FreeEventData(c);
      }
    }

    /* ---------- Initialization ---------- */

    /** `pre_init_event_queue_enqueue_all_and_set_state_initialized`: the list is handed over in order. */
    method EnqueueAllAndSetStateInitialized(accepted: seq<bool>) returns (ok: bool)
      requires |accepted| == |ev.preInit|
      modifies `ev
      ensures var drained := Drain(old(ev), accepted);
              ok == drained.ok && ev == drained.ev.(initialized := drained.ok)
    {
      hide HandOver;
      ghost var start := Drain(ev, accepted);
      var current, k := ev.preInit, 0;
      var failed := false;
      while k < |accepted|
        invariant 0 <= k <= |accepted| && ev.preInit == current[k..] && |current| == |accepted|
        invariant start.ev == Drain(ev, accepted[k..]).ev
        invariant start.ok == (!failed && Drain(ev, accepted[k..]).ok)
      {
        ghost var before, rest := ev, accepted[k..];
        var c := ev.preInit[0];
        ev := ev.(preInit := ev.preInit[1..]);
        var added := EnqueueOwned(c, accepted[k]);
        HandOverKeepsPreInit(before.(preInit := before.preInit[1..]), c, accepted[k]);
        DrainStep(before, rest);
        assert rest[1..] == accepted[k + 1..];
        failed := failed || !added;
        k := k + 1;
      }
      ev := ev.(initialized := !failed);
      ok := !failed;
    }

    /** The end of `ota_job_state_init`: the first transition is queued before anything posted earlier. */
    method Initialize(a: Alloc, accepted: seq<bool>) returns (ok: bool)
      requires Valid() && !ev.initialized && |accepted| == |ev.preInit|
      modifies this
      ensures Valid() && Abs() == OtaSpec.Next(old(Abs()), OtaSpec.Initialize(a, accepted))
      ensures ok ==> ev.initialized
    {
      hide Post, Drain, OtaSpec.RunOnce, PostEvent, PostIgnored, RaiseError;
      job := job.(hasActive := false);
      ev := ev.(lastError := NoError);
      state := NetworkInit;
      PostKeepsPreInit(ev, Plain(EmptyTransition), a);
      ok := EnqueueCopy(Plain(EmptyTransition), a);
      if !ok {
        return;
      }
      ok := EnqueueAllAndSetStateInitialized(accepted);
    }

    /** A fetch after a successful SUBACK that cannot be posted is an error with back-off. */
    method FetchFailedAfterSubscribe(a: Alloc)
      requires Valid() && subIntended
      modifies `ev
      ensures Valid() && Abs() == OtaSpec.Next(old(Abs()), FetchAfterSubscribeFailed(a))
    {
      hide RaiseError, OtaSpec.RunOnce, PostEvent, PostIgnored, OtaSpec.Init;
      EnterErrorState(RetryWithBackoff, a);
    }
  }

  lemma StartJobState(m: Engine, e: Env)
    ensures StartJob(m, e).state == m.state
  {
  }

  lemma ProgressedState(m: Engine, e: Env)
    ensures Progressed(m, e).state == m.state
  {
  }

  lemma FinalSentState(m: Engine, details: Details)
    ensures FinalSent(m, details).state == m.state
  {
  }

  lemma ErrorOccurredState(m: Engine, e: Env)
    ensures OnErrorOccurred(m, e).state == m.state
  {
  }

  lemma DrainStep(ev: Events, accepted: seq<bool>)
    requires |accepted| == |ev.preInit| && accepted != []
    ensures var first := HandOver(ev.(preInit := ev.preInit[1..]), ev.preInit[0], accepted[0]);
            var rest := Drain(first.ev, accepted[1..]);
            Drain(ev, accepted) == Posted(rest.ev, first.ok && rest.ok)
  {
  }

  lemma HandOverKeepsPreInit(ev: Events, c: Cell, addOk: bool)
    ensures HandOver(ev, c, addOk).ev.preInit == ev.preInit
  {
  }
}
