# OTA state machine, work queue and storage of the device SDK: a verified model

This project models the over-the-air update logic of the ESP RainMaker Neo components and proves properties of it.

- `OtaTypes`, `OtaSpec`: the context of the OTA jobs state machine and one function per operation of `ota_jobs.c`, with
  the result of every call into MQTT, timers, NVS, the heap and the work queue as an input. A run is any sequence of
  worker turns, posts, timer expiries, recovery calls and SUBACK errors from a fresh pool.
- `OtaLiveness`, `OtaOwnership`, `OtaRounds`, `OtaReboot`, `OtaSameJob`: what holds over all of those runs: no
  silent stall, one holder per event structure, fetch rounds and the best job, reboot discipline. `OtaBehaviour`: what
  each turn does, event by event. `OtaStory`, `OtaStories`: concrete runs, receivable from downloader and broker, that
  show what those guarantees depend on.
- `OtaJobs`, `JobIds`: the same machine as a class that updates its context in place; each method ensures the
  function of `OtaSpec` that gives its whole new state, and the run theorems are about those functions. The table names
  only the methods that promise more than their handler's own branches.
- `WorkQueue`, `PreInit`, `Subscription`, `PostMqttDiag`: concurrent protocols as interleaved atomic steps.
- `Verdict`, `Resume`, `Bitmap`, `OtaNvs`: what is persisted across reboots, with a crash possible between any two writes.
- `Version`, `DownloadWindow`, `PosixRecords`: the version parser, the download window, the record stream of the
  file-backed storage.

`dafny verify dfyconfig.toml` checks everything.

## What the proofs brought out

- Drain on stop (`DrainOnStop`) fails not only between the empty receive and the loop test but also for a stop that
  comes before a fresh worker's first loop test. The comment in `work_queue.c:36` promises more than the code keeps.
- A first subscribe that fails locally is not retried by recovery, only by the next CONNECTED
  (`RecoverySkipsSubscribe`).
- A recovery requested while an event is kept by `enter_error_state_custom` is refused (`RecoveryRoutes`).
- A lost ERROR_OCCURRED during an active job makes the next job run without being started
  (`LostErrorRebootsOtherJob`), and a second recovery request queued beside the first can do the same
  (`SecondRequestRebootsOtherJob`).
- The verdict across reboots holds exactly as long as every install finds no passed flag and no verdict of another job
  under way (`InstallIsSafeExactlyWhenClean`). The state machine does not see to that: an error ends REBOOT_CHECK with
  the record in place (`RebootCheckExits`, `RecordOverUnclearedRecord`), and a crash in the next install then publishes
  success for a rolled back image (`StaleFlagPublishesSuccess`).
- A job is executed with the filetype, and so the filetype handler, of the last document in the OTA format, also when
  that document was passed over for an older version (`PassedOverDocumentSetsFiletype`).
- The resume data is safe exactly as long as no tracker is written beside the descriptor of a different image that
  would accept it (`SaveIsSafeExactlyWhenClean`); a failed erase, a failed read or a crash inside a wipe of the
  namespace breaks that (`HalfClearIsUnsound`, `UnseenDescriptorIsUnsound`, `CutWipeIsUnsound`).
- `docs/en/specs/ota/job_document.md:181` calls every field of the download window independently optional; the code
  ignores the whole window unless both validity bounds are set (`PartialWindowIgnored`,
  `DailyOnlyWindowAdmitsMidnight`). The model follows the code.

## Model

| member | source | states |
|---|---|---|
| OtaLiveness.NoSilentStall | components/esp_rmaker_neo_ota/src/ota_jobs.c:1389-3479 | over every run in which the two posts with ignored results have not failed: an unfinished state has its driving event or ERROR_OCCURRED queued, and a waiting state has an armed timer, a queued TIMEOUT or a queued ERROR_OCCURRED, whatever other post, publish or timer call failed |
| OtaLiveness.InvOverRuns | components/esp_rmaker_neo_ota/src/ota_jobs.c:566-655 | the inductive invariant behind it holds in every reachable context, for every interleaving of worker turns, posts from outside, timer, recovery calls and SUBACK errors |
| OtaLiveness.RecoveryRoutes | components/esp_rmaker_neo_ota/src/ota_jobs.c:2722-2739 | an event kept for a retry makes recovery refuse; recovery is possible exactly for the contexts of a failed subscription and of the back-off route |
| OtaLiveness.LeakOnlyByAsyncError | components/esp_rmaker_neo_ota/src/ota_jobs.c:3437-3487 | an event structure is leaked exactly when the SUBACK handler's own error report overwrites a kept event; no state handler ever leaks one |
| OtaLiveness.PostKeepsInv | components/esp_rmaker_neo_ota/src/ota_jobs.c:501-517 | a post by anyone outside keeps the invariant whatever becomes of it, and a successful one after initialization is in the queue |
| OtaLiveness.BeforeInit | components/esp_rmaker_neo_ota/src/ota_jobs.c:312-431 | before initialization no state beyond NETWORK_INIT is reached |
| OtaOwnership.OneHolder | components/esp_rmaker_neo_ota/src/ota_jobs.c:686-850 | over every run each pool slot and each live heap block has exactly one holder among pool, work queue, pre-init list, recovery context and leak, and no other structure has any |
| OtaOwnership.PoolNeverOverflows | components/esp_rmaker_neo_ota/src/ota_jobs.c:733-747 | the free queue never holds a slot twice nor more slots than it was made for, so a return cannot overflow it |
| OtaOwnership.DispatchSettled | components/esp_rmaker_neo_ota/src/ota_jobs.c:584-640 | after any handler the running event is either still with the dispatcher, to be freed, or held exactly once elsewhere |
| OtaOwnership.DrainBooks | components/esp_rmaker_neo_ota/src/ota_jobs.c:969-1003 | handing the pre-init list over keeps every structure at one holder, whichever entries the work queue takes |
| OtaRounds.DescribedInOrder | components/esp_rmaker_neo_ota/src/ota_jobs.c:1342-1348 | in every reachable context the ids described since the queue was filled are its first `next` ids, in order and once each, and next <= size <= 50 |
| OtaRounds.RoundEnds | components/esp_rmaker_neo_ota/src/ota_jobs.c:1859-1909 | a fetch round can move on at most three times per id and twice more (152 at most); it leaves only to IDLE, JOB_EXECUTION, a custom job or ERROR |
| OtaRounds.RoundReacts | components/esp_rmaker_neo_ota/src/ota_jobs.c:1859-2243 | the event a state of the round waits for moves the round on, ends it, or has an ERROR_OCCURRED queued that will |
| OtaRounds.ExecutesBest | components/esp_rmaker_neo_ota/src/ota_jobs.c:1868-1889 | a round that goes to execution has described every id and executes the last of the acceptable documents with the greatest version; under the default handler that is an upgrade whose minimum demand the running version meets |
| OtaRounds.AcceptedIsUpgrade | components/esp_rmaker_neo_ota/src/ota_jobs.c:2055-2126 | an accepted document of the default filetype names a release lexicographically above the running one and demands no higher one than the running one |
| OtaRounds.CandidatesAreHistory | components/esp_rmaker_neo_ota/src/ota_jobs.c:2020-2184 | the set the best document is taken from is exactly the documents of the round that were acceptable on their own |
| OtaRounds.RoundOverRuns | components/esp_rmaker_neo_ota/src/ota_jobs.c:2171-2184 | over every run, while a round is under way or a received document is kept for a retry, the pending job, its version, size, file id and stream id are those of the best document so far |
| OtaReboot.RebootDiscipline | components/esp_rmaker_neo_ota/src/ota_jobs.c:2600-2635 | whatever the environment does: a reboot is requested only in POST_DOWNLOAD, on an accepted update, with an empty status cache, after a pending-verification write since the job was started; a job is finished only there, with no reboot pending and a terminal status published since, or confirmed by a response whose job id is a prefix of the current one |
| OtaReboot.PostDownloadExits | components/esp_rmaker_neo_ota/src/ota_jobs.c:2526-2644 | POST_DOWNLOAD is left only for ERROR, or for IDLE by finishing the job and clearing its data |
| OtaReboot.RebootCheckExits | components/esp_rmaker_neo_ota/src/ota_jobs.c:1489-1671 | REBOOT_CHECK is left with the record cleared and the job forgotten, or for ERROR |
| OtaReboot.TracksOverRuns | components/esp_rmaker_neo_ota/src/ota_jobs.c:2377-2383 | the reboot and final-status flags of the current job are always backed by a record write and a terminal status since that job was started |
| OtaSameJob.RebootForRecordedJob | components/esp_rmaker_neo_ota/src/ota_jobs.c:2589-2618 | the job a reboot is requested for is the job of the last pending-verification write, in every run whose recovery requests are served while no job is active or on the way back to POST_DOWNLOAD, whatever is posted, refused or lost |
| OtaSameJob.QuietTurnsAreSafe | components/esp_rmaker_neo_ota/src/ota_jobs.c:2646-2739 | a caller can see to that: while no ignored post has failed and no recovery is requested while an earlier request is queued, every request is served so, whatever else is queued and whatever state it was made in |
| OtaSameJob.ServedInPlaceExactlyWhenSafe | components/esp_rmaker_neo_ota/src/ota_jobs.c:2671-2703 | the guard is exact for each turn: after a served request a job is active only where it is worked on, with the record about it, if and only if no job was active or the route leads back to POST_DOWNLOAD |
| OtaStories.LostErrorRebootsOtherJob | components/esp_rmaker_neo_ota/src/ota_jobs.c:3414-3435 | a run whose every event the downloader and the broker could have sent, without a second request: a lost ERROR_OCCURRED of a final status that cannot be published leaves the job active, the next job is not started, the late result of an earlier download is taken for it, and the reboot is requested for a job whose record was never written |
| OtaStories.SecondRequestRebootsOtherJob | components/esp_rmaker_neo_ota/src/ota_jobs.c:2646-2739 | another such run, with no post lost: a second recovery request queued beside the first is handled before the error that would end the active job, and the reboot is requested in the name of the next one |
| OtaStories.RecordOverUnclearedRecord | components/esp_rmaker_neo_ota/src/ota_jobs.c:3571-3577 | a run without any fault but one refused fetch: the error of a late SUBACK ends the reboot check of one job, and the record of the next is written over the one nobody cleared |
| OtaBehaviour.PostServed | components/esp_rmaker_neo_ota/src/ota_jobs.c:828-850 | a post is served exactly when the work queue has room and there is memory or, without payload, a pool slot; a served event is the newest, a refused one leaves queue and context as they were |
| OtaBehaviour.PoolFirst | components/esp_rmaker_neo_ota/src/ota_jobs.c:749-806 | an event without payload takes the oldest free slot and cannot fail for want of memory |
| OtaBehaviour.WaitsForInit | components/esp_rmaker_neo_ota/src/ota_jobs.c:933-967 | before initialization an event waits at the end of the list exactly when there is memory |
| OtaBehaviour.ErrorReported | components/esp_rmaker_neo_ota/src/ota_jobs.c:3437-3479 | every reported error queues ERROR_OCCURRED or loses it, and opens the way back through NETWORK_INIT for a failed subscription, none for an unexpected format, through a fetch in IDLE for the rest |
| OtaBehaviour.ErrorKept | components/esp_rmaker_neo_ota/src/ota_jobs.c:3481-3487 | the running event is kept for another try of its state, with a way back that recovery refuses |
| OtaBehaviour.WayBack | components/esp_rmaker_neo_ota/src/ota_jobs.c:2722-2739 | recovery is possible exactly after the errors that are not fatal |
| OtaBehaviour.NetworkInitSubscribes | components/esp_rmaker_neo_ota/src/ota_jobs.c:1389-1418 | the topics are subscribed once, a local failure is an error, and only the transition does anything |
| OtaBehaviour.BootRecordDecides | components/esp_rmaker_neo_ota/src/ota_jobs.c:1420-1487 | REBOOT_CHECK for the recorded job exactly when id, version, status manager and filetype are good, else IDLE, a bad record cleared |
| OtaBehaviour.RebootReportTurn | components/esp_rmaker_neo_ota/src/ota_jobs.c:1500-1525 | an application's final status is published as the outcome it stands for and remembered, kept for another try, or fatal |
| OtaBehaviour.RebootVerdictTurn | components/esp_rmaker_neo_ota/src/ota_jobs.c:1527-1573 | the verdict is given once the flags are checked or unreadable, passed exactly when they can be read and say so |
| OtaBehaviour.RebootAcceptedTurn | components/esp_rmaker_neo_ota/src/ota_jobs.c:1575-1627 | an accepted update (confirmed, for a custom filetype) clears the record and ends in IDLE with nothing queued exactly when status and details agree, else in an ERROR without a way back |
| OtaBehaviour.RebootRejectedTurn | components/esp_rmaker_neo_ota/src/ota_jobs.c:1628-1660 | a rejected update ends the check exactly when it cannot be recovered |
| OtaBehaviour.RebootOtherTurn | components/esp_rmaker_neo_ota/src/ota_jobs.c:1661-1671 | no other event does anything in REBOOT_CHECK |
| OtaBehaviour.AgreementStays | components/esp_rmaker_neo_ota/src/ota_jobs.c:1489-1671 | every published verdict or final status makes status and details agree, and every turn that stays keeps that |
| OtaBehaviour.VerifiedUpdateEndsInIdle | components/esp_rmaker_neo_ota/src/ota_jobs.c:1575-1627 | after a published verdict an accepted update goes to IDLE with the record cleared and no error |
| OtaBehaviour.IdleTurn | components/esp_rmaker_neo_ota/src/ota_jobs.c:1673-1708 | IDLE is left exactly by a fetch request and by a change notice, each the right way |
| OtaBehaviour.ListRounds | components/esp_rmaker_neo_ota/src/ota_jobs.c:1267-1340 | a list of jobs begins a round with nothing pending, ends in IDLE when it holds no usable id, or is an error |
| OtaBehaviour.JobsChangedTurn | components/esp_rmaker_neo_ota/src/ota_jobs.c:1710-1749 | a notice with a list begins a round, one without ends in IDLE |
| OtaBehaviour.PendingJobsReceivedTurn | components/esp_rmaker_neo_ota/src/ota_jobs.c:1813-1857 | an answer without a list is an error, one with a list begins a round |
| OtaBehaviour.FetchingPendingJobsTurn | components/esp_rmaker_neo_ota/src/ota_jobs.c:1751-1779 | the list is requested and waited for under a timer, or the failing request or timer is reported |
| OtaBehaviour.WaitingTurns | components/esp_rmaker_neo_ota/src/ota_jobs.c:1781-1941 | in both waiting states the answer stops the timer and is handed over, a refusal is an error with its own reason, and so is silence |
| OtaBehaviour.FetchingJobDocTurn | components/esp_rmaker_neo_ota/src/ota_jobs.c:1859-1909 | the next id is described, once and in order; after the last the pending job is executed, without one the round ends in IDLE |
| OtaBehaviour.Judged | components/esp_rmaker_neo_ota/src/ota_jobs.c:1968-2184 | a document is accepted if and only if it is identified, in the OTA format, of a known filetype, an upgrade whose demand is met, inside its download window (or less than a minute early), and its image is there, genuine and usable; and the same for each other outcome |
| OtaBehaviour.JudgedInRound | components/esp_rmaker_neo_ota/src/ota_jobs.c:2123-2126 | in a round an eligible document below the best version is passed over, any other judged by itself |
| OtaBehaviour.DocumentTurn | components/esp_rmaker_neo_ota/src/ota_jobs.c:1943-2243 | what each outcome does to the round: the pending job, the custom callback, the published rejection, the error |
| OtaBehaviour.JobDocReceivedTurn | components/esp_rmaker_neo_ota/src/ota_jobs.c:1943-1966 | an answer without a document is passed over, and no other event does anything |
| OtaBehaviour.PassedOverDocumentSetsFiletype | components/esp_rmaker_neo_ota/src/ota_jobs.c:2020-2053 | an older offer that is passed over leaves its filetype with the job chosen before it |
| OtaBehaviour.CustomTurn | components/esp_rmaker_neo_ota/src/ota_jobs.c:2246-2354 | the callback's answers become reports, a report is published with its status or kept, and the job is over on an accepted update with its final status out |
| OtaBehaviour.JobStartTurn | components/esp_rmaker_neo_ota/src/ota_jobs.c:2357-2418 | the first event in JOB_EXECUTION activates the job with all flags reset and starts its download, or goes on as failed |
| OtaBehaviour.JobWorkTurn | components/esp_rmaker_neo_ota/src/ota_jobs.c:2420-2524 | success is handed to POST_DOWNLOAD, failure goes there as a failed status, a timeout is an error, an early final status is remembered |
| OtaBehaviour.UpdateAcceptedTurn | components/esp_rmaker_neo_ota/src/ota_jobs.c:2600-2635 | on an accepted update with nothing left to send the reboot is requested exactly when wanted, and else the job is finished exactly when its final status is out: then it is gone, in IDLE with a fetch queued |
| OtaBehaviour.FinalStatusTurn | components/esp_rmaker_neo_ota/src/ota_jobs.c:2552-2574 | a final status is published as its outcome and counts as reported, is kept for another try, or is fatal |
| OtaBehaviour.DownloadedTurn | components/esp_rmaker_neo_ota/src/ota_jobs.c:2575-2599 | a finished download wants the reboot its event says, and exactly then the record is written |
| OtaBehaviour.QueuedStatusTurn | components/esp_rmaker_neo_ota/src/ota_jobs.c:2532-2549 | a status queued before goes out first, and the event is handled as if it had not been queued, or waits with it |
| OtaBehaviour.PostDownloadOtherTurn | components/esp_rmaker_neo_ota/src/ota_jobs.c:2636-2644 | no other event does anything in POST_DOWNLOAD |
| OtaBehaviour.CompletedJobLeaves | components/esp_rmaker_neo_ota/src/ota_jobs.c:2552-2635 | once its final status is out and no reboot wanted, the next accepted update ends the job in IDLE with a fetch queued |
| OtaBehaviour.ErrorTurn | components/esp_rmaker_neo_ota/src/ota_jobs.c:2646-2670 | ERROR_OCCURRED wins over every state; an active job is reported failed and is active no more |
| OtaBehaviour.RecoveryTurn | components/esp_rmaker_neo_ota/src/ota_jobs.c:2671-2708 | a recovery request queues the kept event or that of the way back, goes to its state and closes the way; a failure stays in ERROR |
| OtaBehaviour.RequestStep | components/esp_rmaker_neo_ota/src/ota_jobs.c:2722-2739 | a recovery request is queued exactly when there is a way back and room |
| OtaBehaviour.TimerStep | components/esp_rmaker_neo_ota/src/ota_jobs.c:3302-3310 | the timer fires once, as a TIMEOUT or lost |
| OtaBehaviour.SubackErrorStep | components/esp_rmaker_neo_ota/src/ota_jobs.c:3571-3577 | a fetch refused in the SUBACK handler is reported as an error with back-off |
| OtaBehaviour.InitStep | components/esp_rmaker_neo_ota/src/ota_jobs.c:312-431 | init succeeds exactly when its transition and every waiting event are taken, and queues them in that order |
| OtaBehaviour.Beginning | components/esp_rmaker_neo_ota/src/ota_jobs.c:686-710 | the machine starts with every pool slot free, once and in order, and nothing else anywhere |
| OtaBehaviour.ConfirmedStep | components/esp_rmaker_neo_ota/src/ota_jobs.c:3147-3156 | a confirmed terminal status counts as reported |
| OtaBehaviour.ExternalStep | components/esp_rmaker_neo_ota/src/ota_jobs.c:501-517 | a post from outside is queued exactly when there is room |
| OtaBehaviour.OtherEventsGoToTheState | components/esp_rmaker_neo_ota/src/ota_jobs.c:584-640 | every event but ERROR_OCCURRED goes to the handler of the state |
| OtaBehaviour.Turn | components/esp_rmaker_neo_ota/src/ota_jobs.c:566-655 | before initialization an event is dropped; afterwards it is handled, the next state entered, and the event freed unless handed over or kept |
| JobIds.RoundIdsAre | components/esp_rmaker_neo_ota/src/ota_jobs.c:1267-1340 | each usable id of the message stands in the queue at the number of usable ids before it while that is below 50, in-progress ids first, and nothing else is in the queue |
| OtaJobs.Machine.Recover | components/esp_rmaker_neo_ota/src/ota_jobs.c:2722-2739 | refused unless a recovery route is set and no event is kept; otherwise one RECOVERY_REQUESTED is posted |
| OtaJobs.Machine.PendingJobsToJobIdQueue | components/esp_rmaker_neo_ota/src/ota_jobs.c:1267-1340 | the array is filled from both arrays of the message until it holds 50 ids, next is reset, and an invalid message changes nothing |
| OtaJobs.Machine.CopyJobIds | components/esp_rmaker_neo_ota/src/ota_jobs.c:1306-1332 | one array of the message: absent ids are skipped, over-long ids are dropped, the loop stops when the queue is full |
| OtaJobs.Machine.LookupHandler | components/esp_rmaker_neo_ota/src/ota_jobs.c:2020-2053 | the default handler converts the three versions with the version parser |
| OtaJobs.Machine.ExecutionVersionOk | components/esp_rmaker_neo_ota/src/ota_jobs.c:1250-1265 | exactly the digit strings are accepted |
| OtaJobs.Machine.RunOnce | components/esp_rmaker_neo_ota/src/ota_jobs.c:566-655 | one turn of the worker: the oldest event is dispatched by state, ERROR_OCCURRED first, and freed unless handed on |
| OtaJobs.Machine.EnqueueAllAndSetStateInitialized | components/esp_rmaker_neo_ota/src/ota_jobs.c:969-1003 | the list is handed over in order and the flag is set exactly when every entry was taken |
| OtaJobs.Machine.Initialize | components/esp_rmaker_neo_ota/src/ota_jobs.c:312-431 | the first transition is queued before the list; success means initialized |
| Version.VersionToUint32 | components/esp_rmaker_neo_ota/src/ota_filetype_handler_internal.c:91-144 | the loop answers exactly the strings of the grammar, with the packed value of the release they denote |
| Version.ParseIsGrammar | components/esp_rmaker_neo_ota/src/ota_filetype_handler_internal.c:101-141 | accepted are exactly digits, dot, digits, optionally dot, digits and an ignored tail after a third dot, each field at most 1023; a string denotes one release |
| Version.PackIsOrder | components/esp_rmaker_neo_ota/src/ota_filetype_handler_internal.c:142 | the packed value is below 2^30, orders like the triples lexicographically, and determines the triple |
| Version.PackIsShiftOr | components/esp_rmaker_neo_ota/src/ota_filetype_handler_internal.c:142 | shifting and or-ing in 32 bits is the sum, without overflow |
| Version.PrintParse | components/esp_rmaker_neo_ota/src/ota_filetype_handler_internal.c:91-144 | printing a release and parsing it gives it back, with and without patch |
| DownloadWindow.GetDownloadWindowDelayTime | components/esp_rmaker_neo_ota/src/ota_jobs.c:3214-3274 | inside the validity period 0 exactly inside the daily window, else the least wait on the circle of the day that reaches it; an expired or inverted period is negative |
| DownloadWindow.RunsExactlyWhenAdmitted | components/esp_rmaker_neo_ota/src/ota_jobs.c:3200-3274 | the answer 0 is given exactly when the document admits the moment or in the 59 seconds before the validity period, and is right exactly outside those seconds |
| DownloadWindow.RunsBeforeValidity | components/esp_rmaker_neo_ota/src/ota_jobs.c:3232-3234 | a clock one second before the validity period gets the answer 0 |
| DownloadWindow.DailyDelayIsLeastWait | components/esp_rmaker_neo_ota/src/ota_jobs.c:3241-3273 | the wait is the least one that lands in the possibly midnight-crossing window |
| DownloadWindow.OpeningMinuteOfNightWindow | components/esp_rmaker_neo_ota/src/ota_jobs.c:3254-3262 | when a window across midnight opens right now the shift leaves the clock at 1440 and the answer is 0 all the same |
| DownloadWindow.PartialWindowIgnored | components/esp_rmaker_neo_ota/src/ota_jobs.c:3200-3203 | without both validity bounds the daily bounds impose nothing, at any time |
| DownloadWindow.DailyOnlyWindowAdmitsMidnight | components/esp_rmaker_neo_ota/src/ota_jobs.c:3200-3203 | a document that declares only 10:00 to 11:00 is let through at midnight |
| WorkQueue.WorkerIsAlone | components/esp_rmaker_neo_common/src/work_queue.c:60-71 | at most one worker touches the queue; there is none in DEINIT or PARKED and none beside a flush |
| WorkQueue.CurrentTaskIsWorker | components/esp_rmaker_neo_common/src/work_queue.c:215-219 | the published task handle is the worker's own while any work function runs |
| WorkQueue.DeinitNeverFails | components/esp_rmaker_neo_common/src/work_queue.c:147-177 | with init, start and deinit called one after the other a deinit never finds the worker still running |
| WorkQueue.EntriesConserved | components/esp_rmaker_neo_common/src/work_queue.c:73-115 | the entries sent are those executed or discarded for good followed by those queued, in order; the handle, once created, stays |
| WorkQueue.LifecycleIsolation | components/esp_rmaker_neo_common/src/work_queue.c:117-145 | nothing sent before an init's flush has ended is taken out, so executed, after it, through any later starts, stops and deinits |
| WorkQueue.DrainOnStop | components/esp_rmaker_neo_common/src/work_queue.c:49-71 | everything sent before a stop wins has been executed when the worker has stopped, exactly if the stop did not find the worker between its creation or an empty receive and the loop test with something queued; a stop from a work function always drains |
| WorkQueue.StopStrandsEntry | components/esp_rmaker_neo_common/src/work_queue.c:56-64 | a concrete run in that window: an accepted entry is still queued when the worker has stopped |
| WorkQueue.OneWakePerStop | components/esp_rmaker_neo_common/src/work_queue.c:203-213 | however many stops race, one wins per start, and the wake task of a win is sent at most once |
| WorkQueue.NextKeeps | components/esp_rmaker_neo_common/src/work_queue.c:49-213 | every atomic step of producers, stop callers, worker and control thread keeps the invariant |
| WorkQueue.AddTaskGate | components/esp_rmaker_neo_common/src/work_queue.c:73-87 | a call of add_task is refused at its gate, sending nothing, exactly when there is no queue or it is parked |
| WorkQueue.AddTaskSends | components/esp_rmaker_neo_common/src/work_queue.c:88-96 | past the gate the entry is sent exactly when the queue has room |
| WorkQueue.NoWorkAfterDeinit | components/esp_rmaker_neo_common/src/work_queue.c:80-87 | while the queue stays parked nothing is sent but by calls that were past the gate when it was parked |
| WorkQueue.InitOpens | components/esp_rmaker_neo_common/src/work_queue.c:117-145 | an init call does its work unless the queue is running or stopping, and returns with the queue open and empty or not created |
| WorkQueue.StartRuns | components/esp_rmaker_neo_common/src/work_queue.c:179-201 | a start call on an initialized queue returns with it running and a worker on its way, or unchanged |
| WorkQueue.DeinitParks | components/esp_rmaker_neo_common/src/work_queue.c:147-177 | a deinit call returns only with the queue parked, or never created |
| WorkQueue.WinnerWakes | components/esp_rmaker_neo_common/src/work_queue.c:203-213 | whoever wins a stop is next at the gate with its wake task |
| WorkQueue.ControlEnds | components/esp_rmaker_neo_common/src/work_queue.c:117-201 | every step of an init, start or deinit brings it closer to its end or empties the queue further, except a deinit waiting for a requested stop |
| WorkQueue.DeinitWakes | components/esp_rmaker_neo_common/src/work_queue.c:147-153 | a deinit that wins the stop sends the wake task if there is room |
| WorkQueue.WorkerTurns | components/esp_rmaker_neo_common/src/work_queue.c:39-71 | the worker leaves its loop exactly when it finds a stop requested there, and executes whatever it takes, oldest first |
| PreInit.DeliveryOrder | components/esp_rmaker_neo_ota/src/ota_jobs.c:933-1003 | after a successful init, for every interleaving of posters with the double-checked flag: the transition, then every event accepted before the flag, once each and in order, then later posts |
| PreInit.HandledFromTransition | components/esp_rmaker_neo_ota/src/esp_rmaker_ota.c:126-162 | for every interleaving, with init a work function of the only worker as its one caller makes it: the worker handles everything a successful init has delivered, the transition first; only events of earlier failed attempts are dropped |
| PreInit.PosterKeeps | components/esp_rmaker_neo_ota/src/ota_jobs.c:501-517 | every step of a poster, from the unlocked look at the flag on, keeps the invariant |
| PreInit.PostOutcome | components/esp_rmaker_neo_ota/src/ota_jobs.c:501-517 | before the flag a post is accepted at the end of the list or refused, after it put into the work queue or refused |
| PreInit.InitOutcome | components/esp_rmaker_neo_ota/src/ota_jobs.c:411-431 | an attempt ends without the flag when its transition is refused, and otherwise with the flag exactly when every entry was taken |
| PreInit.WorkerOutcome | components/esp_rmaker_neo_ota/src/ota_jobs.c:572-576 | the worker handles what it takes exactly if the flag is set by then |
| Subscription.SubscriptionLives | components/esp_rmaker_neo_ota/src/ota_jobs.c:3505-3590 | connected, intended and not subscribed: something is under way exactly unless the first subscribe call failed locally and no CONNECTED has come since; subscribed implies intended |
| Subscription.NeverOrphaned | components/esp_rmaker_neo_ota/src/ota_jobs.c:1404-1411 | a first call that succeeds locally rules the bad case out for good |
| Subscription.RecoverySkipsSubscribe | components/esp_rmaker_neo_ota/src/ota_jobs.c:1404-1411 | after a first call that failed, recovery through NETWORK_INIT does not subscribe |
| Subscription.FirstCall | components/esp_rmaker_neo_ota/src/ota_jobs.c:1404-1411 | the first call is made once, its intent recorded whatever becomes of it |
| Subscription.LinkEvents | components/esp_rmaker_neo_ota/src/ota_jobs.c:3541-3553 | a connection schedules an attempt exactly for an intended and missing subscription; a disconnection drops subscription, schedule and outstanding answers |
| Subscription.Subacks | components/esp_rmaker_neo_ota/src/ota_jobs.c:3555-3584 | a grant subscribes and cancels what is scheduled, a refusal schedules the next attempt |
| Subscription.Attempts | components/esp_rmaker_neo_ota/src/ota_jobs.c:3505-3532 | a scheduled attempt moves to the work queue or is scheduled again, and one that fails there schedules the next |
| Subscription.JobsSubscription.constructor | components/esp_rmaker_neo_ota/src/ota_jobs.c:312-431 | nothing is intended, subscribed or under way |
| Subscription.JobsSubscription.SubscribeJobsTopics | components/esp_rmaker_neo_ota/src/ota_jobs.c:2743-2779 | the intent is recorded before the call |
| Subscription.JobsSubscription.EnterNetworkInit | components/esp_rmaker_neo_ota/src/ota_jobs.c:1404-1411 | the call is made only if the subscription is not intended yet |
| Subscription.JobsSubscription.OnConnected | components/esp_rmaker_neo_ota/src/ota_jobs.c:3548-3553 | a missing subscription gets an immediate attempt |
| Subscription.JobsSubscription.OnDisconnected | components/esp_rmaker_neo_ota/src/ota_jobs.c:3541-3546 | the subscription is gone and the pending retry cancelled |
| Subscription.JobsSubscription.OnSuback | components/esp_rmaker_neo_ota/src/ota_jobs.c:3555-3584 | a granted subscription ends the retries, a refused one arms the next |
| Subscription.JobsSubscription.SubRetrySchedCb | components/esp_rmaker_neo_ota/src/ota_jobs.c:3505-3516 | the attempt moves to the work queue or is scheduled again |
| Subscription.JobsSubscription.SubRetryWork | components/esp_rmaker_neo_ota/src/ota_jobs.c:3518-3532 | the attempt is made if still intended; a local failure schedules the next |
| Verdict.CrashSafeVerdict | components/esp_rmaker_neo_ota/src/esp_rmaker_ota.c:164-276 | with a crash between any two writes and any number of mark calls, when every install is clean: a default-filetype job is published Succeeded only while its flag is persisted as passed and its image is VALID; the flag is never passed for a job whose image is pending or rolled back |
| Verdict.InstallIsSafeExactlyWhenClean | components/esp_rmaker_neo_ota/src/ota_nvs.c:73-114 | the condition is exact, for every world that satisfies the invariant and every install: the flag stays truthful until the next install, through every crash, boot and mark call, if and only if no passed flag, no verdict for another unconfirmed job and no mark call that may write passed is left over |
| Verdict.UncleanInstallViolates | components/esp_rmaker_neo_ota/src/esp_rmaker_ota.c:583-654 | every install that is not clean has a continuation without another install to a passed flag of a job whose image is not confirmed |
| Verdict.InheritedFlagIsPublished | components/esp_rmaker_neo_ota/src/ota_nvs.c:88-108 | from every world with a passed record, an install, two writes and a crash publish success for an image still pending |
| Verdict.NextKeeps | components/esp_rmaker_neo_ota/src/esp_rmaker_ota.c:583-654 | every single write of the reboot handler, of mark-valid and mark-invalid, and of the record, and every crash, keeps the invariant |
| Verdict.MachinePublishesVerdict | components/esp_rmaker_neo_ota/src/ota_jobs.c:1527-1573 | the verdict of the crash model is the one the REBOOT_CHECK handler publishes, status and details included, when it reads its flags from the record |
| Verdict.BootDecides | components/esp_rmaker_neo_ota/src/esp_rmaker_ota.c:200-215 | a boot on an image that is not pending leaves an unchecked record checked, passed exactly when the image was not rolled back |
| Verdict.StaleFlagPublishesSuccess | components/esp_rmaker_neo_ota/src/ota_nvs.c:89-108 | a run from the first boot in which no write fails: the record of a confirmed job is never cleared, the next install crashes between two writes, and a rolled back image is published as succeeded |
| Verdict.StatusGuard | components/esp_rmaker_neo_ota/src/ota_nvs.c:127-147 | a status is written only to a record with job, version and flags, and over a checked one only on demand |
| Verdict.StatusSet | components/esp_rmaker_neo_ota/src/ota_nvs.c:149-155 | the flags become checked and passed as told, and nothing else changes |
| Verdict.RestartDecides | components/esp_rmaker_neo_ota/src/esp_rmaker_ota.c:164-215 | a reboot leaves a new image unconfirmed and rolls an unconfirmed one back, and nothing stored is lost |
| Verdict.MarkValidDecides | components/esp_rmaker_neo_ota/src/esp_rmaker_ota.c:583-620 | a mark-valid call confirms the image and then writes whether it could into the record |
| Verdict.MarkInvalidDecides | components/esp_rmaker_neo_ota/src/esp_rmaker_ota.c:622-654 | a mark-invalid call writes failed into the record and then rolls the image back |
| Verdict.MarkWithoutRecord | components/esp_rmaker_neo_ota/src/esp_rmaker_ota.c:583-654 | without a usable record the rollback comes at once, and no call does anything to an image that is not pending |
| Verdict.BootPasses | components/esp_rmaker_neo_ota/src/esp_rmaker_ota.c:164-215 | the boot leaves a custom filetype and a pending image alone and else gives an unchecked record its status |
| Verdict.LoadAndClear | components/esp_rmaker_neo_ota/src/ota_nvs.c:73-114 | a usable record is loaded as it is, and each erase that takes effect removes its key |
| Verdict.InstallReplaces | components/esp_rmaker_neo_ota/src/ota_jobs.c:2589-2598 | an install replaces the image, remembers what had become of the last one, and changes nothing stored yet |
| OtaNvs.Namespace.constructor | components/esp_rmaker_neo_ota/src/ota_nvs.c:73-114 | no record and no resume data |
| OtaNvs.Namespace.SetJobPendingVerification | components/esp_rmaker_neo_ota/src/ota_nvs.c:73-114 | the keys are written in order up to the first failure, so what is left is a prefix of the new record over the old |
| OtaNvs.Namespace.SetStatusIfPendingVerification | components/esp_rmaker_neo_ota/src/ota_nvs.c:116-161 | a status is written only to a record with job, version and readable flags, and over an existing one only on demand |
| OtaNvs.Namespace.GetStatus | components/esp_rmaker_neo_ota/src/ota_nvs.c:163-178 | the persisted flags, or a failure |
| OtaNvs.Namespace.ResumeSave | components/esp_rmaker_neo_ota/src/ota_nvs.c:180-203 | tracker first, descriptor second; each failure leaves exactly what was written before it |
| OtaNvs.Namespace.ResumeLoad | components/esp_rmaker_neo_ota/src/ota_nvs.c:205-243 | both keys or nothing |
| OtaNvs.Namespace.ResumeClear | components/esp_rmaker_neo_ota/src/ota_nvs.c:245-260 | both erases are tried whatever becomes of the first; success of the first is enough for nothing to be loaded |
| OtaNvs.FlagsRoundTrip | components/esp_rmaker_neo_ota/src/ota_nvs.c:51-69 | flags survive the conversion to 16 bits and back; a stored value is read by its two lowest bits |
| OtaNvs.PrefixesAreSteps | components/esp_rmaker_neo_ota/src/ota_nvs.c:88-108 | the prefixes the method can leave are exactly the records between the steps of the crash model |
| Resume.MatchesIsPartialEquivalence | components/esp_rmaker_neo_ota/src/ota_nvs.c:262-281 | matching is symmetric and transitive, and reflexive for every transport but none |
| Resume.UsableMeans | components/esp_rmaker_neo_ota/src/image/ota_mqtt_downloader.c:1366-1394 | a tracker is usable exactly when it has one bit for every block, in whole bytes, with some block received and some not |
| Resume.BeginContinues | components/esp_rmaker_neo_ota/src/image/ota_mqtt_downloader.c:1343-1409 | a download goes on from the tracker exactly when it is found, matches and is usable; otherwise it begins anew, and a tracker that was found is cleared |
| Resume.DownloadEnds | components/esp_rmaker_neo_ota/src/image/ota_mqtt_downloader.c:873-878 | a download is complete exactly when no block is pending; a reset leaves what is stored |
| Resume.Erased | components/esp_rmaker_neo_ota/src/ota_nvs.c:245-260 | a clear tries both erases, a wipe stops at the first that fails |
| Resume.WipeBegins | components/esp_rmaker_neo_ota/src/ota_jobs.c:1594-1600 | a wipe of the namespace begins at rest and may take the two keys in either order |
| Resume.Saved | components/esp_rmaker_neo_ota/src/ota_nvs.c:180-203 | a save writes the tracker of the running download and then its descriptor |
| Resume.ResumesOwnImage | components/esp_rmaker_neo_ota/src/ota_nvs.c:180-243 | at every crash point of a run whose saves are clean, every session that was resumed, and every job that could be begun now, resumes from a tracker saved for the same digest, size and transport, and over MQTT the same block size |
| Resume.SaveIsSafeExactlyWhenClean | components/esp_rmaker_neo_ota/src/image/ota_mqtt_downloader.c:1343-1434 | the condition is exact: through every crash, download, clear and wipe until the next save no session resumes from the written tracker for another image, if and only if the stored descriptor was absent, of the same image, or of one that would not accept the tracker's length and count |
| Resume.UncleanSaveResumesForeign | components/esp_rmaker_neo_ota/src/ota_nvs.c:192-198 | every save that is not clean, followed by a crash and a job for the stored descriptor's image, makes that job resume from the wrong tracker |
| Resume.ReliableRunsAreSound | components/esp_rmaker_neo_ota/src/image/ota_mqtt_downloader.c:1343-1394 | as long as no read of a stored tracker and no erase fails, and no crash cuts a namespace wipe short between tracker and descriptor, the downloader clears a different image's descriptor before its first save |
| Resume.UnseenDescriptorIsUnsound | components/esp_rmaker_neo_ota/src/image/ota_mqtt_downloader.c:1358-1363 | from every world at rest whose descriptor the next download does not see, because its tracker is gone or the load fails, a job for that image resumes from the other image's tracker, for any two images of more than one block whose bitmaps have the same length |
| Resume.HalfClearIsUnsound | components/esp_rmaker_neo_ota/src/ota_nvs.c:253-256 | a clear whose first erase fails leads there, for any two such images |
| Resume.CutWipeIsUnsound | components/esp_rmaker_neo_ota/src/ota_jobs.c:1590-1600 | so does a crash inside the erase of the namespace although every erase succeeds |
| Bitmap.CountPending | components/esp_rmaker_neo_ota/src/image/ota_mqtt_downloader.c:1376-1388 | popcounts cell by cell with the padding masked out add up to the number of blocks still to be received |
| Bitmap.ProgressBitmap.constructor | components/esp_rmaker_neo_ota/src/image/ota_mqtt_downloader_bitmap.c:29-52 | every block is pending and counted |
| Bitmap.ProgressBitmap.IsProcessed | components/esp_rmaker_neo_ota/src/image/ota_mqtt_downloader_bitmap.c:63-74 | a block is processed exactly when it exists and is not pending |
| Bitmap.ProgressBitmap.SetProcessed | components/esp_rmaker_neo_ota/src/image/ota_mqtt_downloader_bitmap.c:76-96 | a pending block is processed once: it and no other changes, and the stored count stays the number of pending blocks |
| Bitmap.ProgressBitmap.Overlay | components/esp_rmaker_neo_ota/src/image/ota_mqtt_downloader.c:1366-1399 | a tracker replaces the bitmap exactly when it has its length and leaves some but not all blocks pending; the stored count stays right |
| Bitmap.ProcessedCount | components/esp_rmaker_neo_ota/src/image/ota_mqtt_downloader_bitmap.c:76-96 | processing a block lowers the count of any range by one exactly if the block is in it and was pending |
| PostMqttDiag.RunsExactlyOnce | components/esp_rmaker_neo_ota/src/esp_rmaker_ota.c:257-271 | for every interleaving of register-then-check with connects: never twice, and while the connection lasts started or about to start |
| PostMqttDiag.ConnectionRunsOnce | components/esp_rmaker_neo_ota/src/esp_rmaker_ota.c:257-333 | once a connection has been dispatched to the registered handler or seen by the check, the diagnostics are claimed or called in every later state, and have run exactly once when no call is under way, also after a disconnect |
| PostMqttDiag.RunsForGood | components/esp_rmaker_neo_ota/src/esp_rmaker_ota.c:284-333 | once run, no later connect or call runs the diagnostics again |
| PostMqttDiag.Registration | components/esp_rmaker_neo_ota/src/esp_rmaker_ota.c:257-271 | the claim is given back, the handler registered or not, and a connection that is there already followed by one call |
| PostMqttDiag.Connections | components/esp_rmaker_neo_ota/src/esp_rmaker_ota.c:257-271 | a connection is dispatched once, calling the diagnostics exactly if the handler is registered; a disconnection takes no call back |
| PostMqttDiag.Calls | components/esp_rmaker_neo_ota/src/esp_rmaker_ota.c:284-333 | of the calls that try the claim the first runs the diagnostics and then unregisters the handler |
| PosixRecords.UniquelyDecodable | tools/factory_nvs_gen/factory_nvs_gen.py:553-567 | a decoder of the seven-byte little-endian header recovers exactly the list written, accepts exactly the files such a list produces, and equal files mean equal lists |
| PosixRecords.DecodeStream | tools/factory_nvs_gen/factory_nvs_gen.py:646 | decoding the concatenated records gives the list back |
| PosixRecords.StreamDecoded | components/osal/storage/src/nvs_posix_impl.c:115-172 | a file that decodes is the encoding of what it decodes to |
| PosixRecords.GeneratePosixBinary | tools/factory_nvs_gen/factory_nvs_gen.py:578-647 | a file is produced exactly when every entry fits its header, decodes to the wanted records in order, and with eight different keys of up to fifteen bytes the device reads every entry back |
| PosixRecords.Writer.constructor | tools/factory_nvs_gen/factory_nvs_gen.py:586 | nothing written yet |
| PosixRecords.Writer.Append | tools/factory_nvs_gen/factory_nvs_gen.py:590-596 | one more record at the end, or the failure of the whole |
| PosixRecords.StorageGet | components/osal/storage/src/nvs_posix_impl.c:380-447 | the last record with the key wins; a file with a record that cannot be read, or a key of a length the reader refuses, fails as a whole |
| PosixRecords.WireFormat | tools/factory_nvs_gen/factory_nvs_gen.py:553-567 | a record is encoded exactly when its lengths fit 16 and 32 bits: the lengths least significant byte first, the type, the key, the value |
| PosixRecords.LookupAnswers | components/osal/storage/src/nvs_posix_impl.c:380-447 | a look-up is corrupt exactly when the file is not whole records with keys of one to fifteen bytes, and else answers the value of the last record with the key |
| PosixRecords.DeviceReadsBack | tools/factory_nvs_gen/factory_nvs_gen.py:588-645 | the device finds each entry of the factory data under its own key, an optional one exactly when it is there, nothing under any other key, and only binary entries |
| PosixRecords.NumberOfBytes | tools/factory_nvs_gen/factory_nvs_gen.py:563 | little-endian numbers of k bytes below 256^k read back |
| PosixRecords.BytesOfNumber | components/osal/storage/src/nvs_posix_impl.c:122-135 | every k bytes are the little-endian form of the number they denote |

## Left out

- OtaSameJob.RebootForRecordedJob: goes one way over runs; its guard is exact for each turn (`ServedInPlaceExactlyWhenSafe`), but not every run with an unsafe turn goes on to reboot for another job.
- OtaStories.SecondRequestRebootsOtherJob: the broker may answer a request more than once and late, but only what was asked; status reports and fetch requests of the application may come at any time.
- Resume.ReliableRunsAreSound: a wipe of the namespace and a save are not interleaved; the wipes are made in NETWORK_INIT and REBOOT_CHECK, where a download is under way only if it has outlived its job.
- Verdict.CrashSafeVerdict: an image cannot be installed while the running one is pending verification.
- OtaJobs.Machine.Initialize: is one step of a run; its interleaving with posters is modelled separately in `PreInit`.
- OtaJobs.Machine.HandOn: that no handler looks at an event again after handing it over is not stated, since events are values here; `DispatchSettled` says who owns it.
- OtaRounds.RoundEnds: bounds the moves of a round and names where it ends; that the queued events are eventually run is the work queue's matter.
- OtaRounds.ExecutesBest: says nothing about the filetype (see `DocumentTurn`), the filetype handler and the optional fields of the image data, which every document overwrites or leaves behind, chosen or not.
- WorkQueue.DeinitNeverFails: calls of init, start and deinit are serialized on a thread that is not the worker; a deinit on the worker would wait for itself.
- Deinitialization and a second lifetime of the event pool, which is reseeded while old slots may still be out.
- A NULL event structure, which the dispatcher accepts and no caller passes.
- JSON search and iteration, the jobs and OTA document parsers, base64 and signature checks: inputs that give parsed fields or a failure.
- MQTT, the status manager, the back-off delays, the image handler and downloader: inputs ("published", "cache empty", "armed"); the model does not say when they act.
- The texts of status details, the expected-version counter and events to the application's event loop.
- The re-delivery of terminal download events with back-off (`ota_jobs.c:519-564`): they arrive as posts from outside.
- Integer widths of file sizes, execution versions and window fields, except where the code checks a bound; the version fields stay below 10240 before their check.
- A mark call that ends early because the rollback timer cannot be taken down: like one that never gets to its next step.
- A published rejection or progress report leaves no output of its own, only the job's status and the way the round goes on.
- The longest job id is taken as 64, the limit of the jobs library; its header is not part of this model.
- Post-reboot handlers of custom filetypes, which are application code, and their status timer.
- The writer of the file-backed storage on the device (`osal_storage_set`) and partition slots.
- Core bring-up and teardown (`esp_rmaker_core.c`), system reset helpers, cloud registration and examples.
