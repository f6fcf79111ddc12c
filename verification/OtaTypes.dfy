/** The data of the OTA jobs state machine: states, events, job documents, and the global context. */
module OtaTypes {
  import opened Wrappers
  import opened DownloadWindow

  const OTA_JOB_ID_QUEUE_SIZE: nat := 50
  const JOBID_MAX_LENGTH: nat := 64
  const OTA_FILETYPE_MAX_LENGTH: nat := 32
  const INT_MAX: nat := 0x7fff_ffff

  datatype State =
    | Uninitialized
    | NetworkInit
    | RebootCheck
    | Idle
    | JobsChangedState
    | FetchingPendingJobs
    | WaitingForPendingJobs
    | PendingJobsReceived
    | FetchingJobDoc
    | WaitingForJobDoc
    | JobDocReceived
    | JobExecution
    | CustomJobExecution
    | PostDownload
    | ErrorState

  datatype DownloadFailure =
    | Setup
    | StreamSubscription
    | PostDownloadChecks
    | ImageHeaderInvalid
    | SignatureInvalid
    | Md5Invalid
    | UnknownError

  datatype Event =
    | EmptyTransition
    | ErrorOccurred
    | RebootCheckRequested
    | FinalStatusReportRequested
    | FetchRequested
    | JobsChanged
    | PendingJobsAccepted
    | PendingJobsRejected
    | JobDocAccepted
    | JobDocRejected
    | UpdateAccepted
    | UpdateRejected
    | Timeout
    | ImageDownloadProgress
    | ImageDownloadSucceeded
    | ImageDownloadFailed(why: DownloadFailure)
    | CustomJobExecutionRequested
    | CustomJobProgress
    | CustomJobSucceeded
    | CustomJobFailed
    | CustomJobRejected
    | RecoveryRequested

  datatype JobStatus = Queued | InProgress | Failed | Succeeded | Rejected

  datatype Details = NoDetails | Starting | Progress | DetailsSucceeded | DetailsFailed | DetailsRejected

  /** A pending-jobs message as the JSON library presents it: the job ids of the two arrays in document
      order ("" for an entry without one); an absent or invalid array contributes none. */
  datatype JobLists = Malformed | Lists(inProgress: seq<string>, queued: seq<string>)

  datatype Image = Image(size: nat, fileId: nat, streamId: string)

  /** A job document as the JSON and AFR-OTA parsers present it; "" stands for an absent field. */
  datatype Doc = Doc(
    jobId: string,
    hasDocument: bool,
    executionVersion: string,
    hasRmngFields: bool,
    fwVersion: string,
    minFwVersion: string,
    filetype: string,
    window: Window,
    afr: Option<Image>)

  /** NoPayload is the NULL payload; EmptyPayload is a payload structure without data. */
  datatype Payload =
    | NoPayload
    | EmptyPayload
    | Jobs(lists: JobLists)
    | Document(doc: Doc)
    | FinalStatus(details: Details)
    | Text

  datatype Data = Data(event: Event, payload: Payload, flag: bool)

  /** An event structure is a slot of the static pool or a heap block. */
  datatype Origin = Slot(index: nat) | Heap(id: nat)

  datatype Cell = Cell(origin: Origin, data: Data)

  datatype Job = Job(
    jobId: string,
    hasPending: bool,
    hasActive: bool,
    shouldReboot: bool,
    finalReported: bool,
    finalQueued: bool,
    fwVersion: nat,
    image: Image,
    filetype: string,
    status: JobStatus,
    details: Details)

  const NO_IMAGE := Image(0, 0, "")
  const NO_JOB := Job("", false, false, false, false, false, 0, NO_IMAGE, "", Queued, NoDetails)

  datatype Recovery = Recovery(state: State, cell: Option<Cell>, event: Event)

  datatype ErrorReason =
    | NoError
    | RetryWithBackoff
    | FatalUnexpectedFormat
    | SubscriptionFailed
    | TimeoutHandlerRestartFailed
    | GetPendingInvalidFormat
    | GetPendingRejected
    | DescribeJobRejected
    | JobDocParseFailed

  /** What the machine does to the outside, as far as the properties speak about it. */
  datatype Output =
    | Described(id: string)
    | Started(id: string)
    | TerminalStatus(id: string)
    | PendingVerification(id: string, filetype: string)
    | RebootRequested(id: string)
    | Finished(id: string)
    | NvsCleared

  /** A document that was acceptable on its own, with the inputs it was judged by. */
  datatype Candidate = Candidate(doc: Doc, env: DocEnv, version: nat)

  /** Every place an event structure can be: the pool, the heap, this machine's share of the work queue, the
      pre-init list and the recovery context. `leaked` is history: recovery events overwritten without being
      freed; `lost` is history: a post whose result is ignored has failed. */
  datatype Events = Events(
    poolSize: nat,
    initialized: bool,
    free: seq<nat>,
    heap: set<nat>,
    nextHeap: nat,
    queue: seq<Cell>,
    preInit: seq<Cell>,
    recovery: Recovery,
    lastError: ErrorReason,
    leaked: seq<Cell>,
    lost: bool)

  /** The global context and the job-id queue. The last three fields are history: the outputs, and since the
      job-id queue was last filled the ids described and the documents that were acceptable on their own. */
  datatype Engine = Engine(
    hasCustomJobCb: bool,
    ev: Events,
    state: State,
    timerArmed: bool,
    subIntended: bool,
    ids: seq<string>,
    next: nat,
    job: Job,
    log: seq<Output>,
    described: seq<string>,
    candidates: seq<Candidate>)

  /** Whether the heap has room and the work queue takes the entry, for one post. */
  datatype Alloc = Alloc(heapOk: bool, addOk: bool)

  datatype Outcome = Fine | InvalidArg | Failure

  /** What the filetype lookup answers, with the three versions its handler converts (None: it fails). */
  datatype Lookup =
    | Missing
    | Handler(tracksVersion: bool, running: Option<nat>, offered: Option<nat>, demanded: Option<nat>)

  /** The device-side inputs of one document: running version, clock, handler, validators, memory. */
  datatype DocEnv = DocEnv(
    runningVersion: string,
    now: int,
    minuteOfDay: int,
    lookup: Lookup,
    imageRefOk: bool,
    signatureOk: bool,
    copyOk: bool)

  /** The NVS record a boot finds. */
  datatype BootRecord = BootRecord(jobId: Option<string>, version: int, filetype: Option<string>)

  datatype Flags = Flags(isChecked: bool, isPassed: bool)

  /** Everything one handler invocation learns from outside. */
  datatype Env = Env(
    post: Alloc,
    errorPost: Alloc,
    handOverOk: bool,
    publish: Outcome,
    requestOk: bool,
    timerOk: bool,
    timerStopOk: bool,
    statusTimerOk: bool,
    subscribeOk: bool,
    initialVersionOk: bool,
    cacheEmpty: bool,
    downloadCbOk: bool,
    customCb: Outcome,
    boot: BootRecord,
    flags: Option<Flags>,
    doc: DocEnv)
}
