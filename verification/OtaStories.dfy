/** Runs of the state machine whose every event the device and the broker could have sent: a reboot for another job than
    the one recorded, after a lost error and after a second recovery request, and a reboot check that is abandoned with
    the record still in place. */
module OtaStories {
  import opened Wrappers
  import opened OtaTypes
  import opened OtaSpec
  import opened OtaReboot
  import opened OtaSameJob
  import opened OtaStory

  const QUIET := Plot(true, START)
  const FREE := Plot(false, START)

  /* ---------- Common beginnings ---------- */

  lemma RunsFetch(t: Story, plot: Plot, id: string) returns (t': Story)
    requires Told(t, plot) && Sees(t).state == Idle && Sees(t).queue == [FETCH] && 0 < |id| <= JOBID_MAX_LENGTH
    ensures Reaches(t', plot, Sees(t).(state := FetchingJobDoc, queue := [TRANSITION], ids := [id], next := 0,
                                       pending := false, out := Sees(t).out.(listAsked := true)))
  {
    hide Told, Sees, Shift;
    t' := Turns(t, plot, FetchingPendingJobs);
    t' := AsksForList(t', plot);
    t' := Arrives(t', plot, JobList(id));
    t' := Turns(t', plot, PendingJobsReceived);
    t' := StartsRound(t', plot, id);
  }

  function Asked(o: Outside, id: string): Outside {
    o.(listAsked := true, docsAsked := o.docsAsked + {id})
  }

  /** From a fetch request to the execution of a job; what the last job left behind stays. */
  lemma RunsRound(t: Story, plot: Plot, id: string) returns (t': Story)
    requires Told(t, plot) && Sees(t).state == Idle && Sees(t).queue == [FETCH] && 0 < |id| <= JOBID_MAX_LENGTH
    ensures Reaches(t', plot, Sees(t).(state := JobExecution, queue := [TRANSITION], id := id, ids := [id], next := 1,
                                       pending := true, out := Asked(Sees(t).out, id)))
  {
    hide Told, Sees, Shift;
    t' := RunsFetch(t, plot, id);
    t' := AsksForDoc(t', plot);
    t' := Arrives(t', plot, JobDoc(id));
    t' := Turns(t', plot, JobDocReceived);
    t' := ChoosesJob(t', plot, id);
    t' := Turns(t', plot, JobExecution);
  }

  /** The fetch after a late SUBACK fails in an idle moment, the machine recovers, and asks for jobs again. */
  lemma Restarts(t: Story, plot: Plot) returns (t': Story)
    requires Told(t, plot) && Sees(t).queue == [] && Sees(t).subIntended
    ensures Reaches(t', plot, Sees(t).(state := Idle, queue := [FETCH], active := false, route := Uninitialized,
                                       event := ErrorOccurred, kept := None))
  {
    hide Told, Sees, Shift;
    t' := FetchFails(t, plot, true);
    t' := HearsError(t', plot);
    t' := AsksRecovery(t', plot);
    t' := Recovers(t', plot);
  }

  /** Job "A" is being downloaded. */
  lemma Downloads(quiet: bool) returns (t: Story)
    ensures Reaches(t, Plot(quiet, START),
                    View(JobExecution, [], "A", true, false, ["A"], 1, true, None, false, Uninitialized,
                         RebootCheckRequested, None, true, false, Outside(true, None, true, {"A"}, true)))
  {
    hide Told, Sees, Shift;
    var plot := Plot(quiet, START);
    t := Begins(quiet);
    t := ComesUp(t, plot);
    t := Turns(t, plot, Idle);
    t := Arrives(t, plot, FETCH);
    t := RunsRound(t, plot, "A");
    t := StartsJob(t, plot);
    assert {} + {"A"} == {"A"};
  }

  /* ---------- A lost error ---------- */

  /** The failure of the first download is delayed, and the job is fetched again. */
  lemma FetchesAgain() returns (t: Story)
    ensures Reaches(t, QUIET,
                    View(JobExecution, [TRANSITION], "A", false, false, ["A"], 1, true, None, false, Uninitialized,
                         ErrorOccurred, None, true, false, Outside(false, Some(FAILED), true, {"A"}, true)))
  {
    hide Told, Sees, Shift;
    t := Downloads(true);
    t := IsRefused(t, QUIET, FAILED);
    t := Restarts(t, QUIET);
    t := RunsRound(t, QUIET, "A");
    assert Sees(t).out.docsAsked == {"A"};
  }

  /** It is started a second time, this download succeeds, and its record is written. */
  lemma RunsToRecord() returns (t: Story)
    ensures Reaches(t, QUIET,
                    View(PostDownload, [], "A", true, true, ["A"], 1, true, Some("A"), false, Uninitialized,
                         ErrorOccurred, None, true, false, Outside(false, Some(FAILED), true, {"A"}, true)))
  {
    hide Told, Sees, Shift;
    t := FetchesAgain();
    t := StartsJob(t, QUIET);
    t := Arrives(t, QUIET, DOWNLOADED);
    t := Turns(t, QUIET, PostDownload);
    t := WritesRecord(t, QUIET);
  }

  /** The error of its final status is lost, the failed fetch of a late SUBACK sets a recovery route, and its error is
      lost too. */
  lemma RunsToStaleJob() returns (t: Story)
    ensures Reaches(t, QUIET,
                    View(Idle, [FETCH], "A", true, true, ["A"], 1, true, Some("A"), false, Uninitialized,
                         ErrorOccurred, None, true, true, Outside(false, Some(FAILED), true, {"A"}, true)))
  {
    hide Told, Sees, Shift;
    t := RunsToRecord();
    t := Arrives(t, QUIET, SUCCESS);
    t := StatusFailsUnheard(t, QUIET);
    t := FetchFails(t, QUIET, false);
    t := AsksRecovery(t, QUIET);
    t := Recovers(t, QUIET);
  }

  /** The second job is executed without being started; what comes in for it is the failure of the first download. */
  lemma RunsToSecondReport() returns (t: Story)
    ensures Told(t, QUIET) && Faces(t, PostDownload, ACCEPTED) && Sees(t).reboot
    ensures Sees(t).id == "B" && Sees(t).recorded == Some("A")
  {
    hide Told, Sees, Shift;
    t := RunsToStaleJob();
    t := RunsRound(t, QUIET, "B");
    t := Turns(t, QUIET, JobExecution);
    t := Arrives(t, QUIET, FAILED);
    t := Turns(t, QUIET, PostDownload);
    t := ReportsFailure(t, QUIET);
    t := Arrives(t, QUIET, ACCEPTED);
  }

  /** When an ignored post fails, and although no recovery is requested while another request is queued, the reboot can
      be for another job than the record: the lost error leaves the first job active, so the second is never started,
      and the first job's wish to reboot is acted on in its name. */
  lemma LostErrorRebootsOtherJob() returns (ms: seq<Engine>, steps: seq<Step>, k: nat)
    ensures Receivable(ms, steps) && k < |steps| && |ms| == |steps| + 1
    ensures forall i | 0 <= i < |steps| :: Quiet(ms[i], steps[i])
    ensures ms[k + 1].log == ms[k].log + [RebootRequested("B")] && PendingSince(ms[k].log) == Some("A")
  {
    var t := RunsToSecondReport();
    SeesLog(t);
    Remembers(t, QUIET);
    var t' := Reboots(t, Plot(true, t));
    Tells(t', Plot(true, t));
    hide Told, Sees, Receivable, Quiet;
    ms, steps, k := t'.ms, t'.steps, |t.steps|;
    assert ms[k] == End(t);
  }

  /* ---------- A second recovery request ---------- */

  /** A scene of the story: nothing was lost, and the record of the boot was not touched. */
  function Scene(state: State, queue: seq<Data>, active: bool, reboot: bool, ids: seq<string>, next: nat, pending: bool,
                 recorded: Option<string>, routed: bool, downloading: bool, stash: Option<Data>)
    : View
  {
    View(state, queue, "A", active, reboot, ids, next, pending, recorded, false, if routed then Idle else Uninitialized,
         if routed then FetchRequested else ErrorOccurred, None, true, false,
         Outside(downloading, stash, true, {"A", "B"}, true))
  }

  /** The success of the first download of "A" is delayed, and the document of "B" is asked for. */
  lemma AsksForOther() returns (t: Story)
    ensures Reaches(t, FREE, Scene(Idle, [FETCH], false, false, ["B"], 1, false, None, false, false, Some(DOWNLOADED)))
  {
    hide Told, Sees, Shift;
    t := Downloads(false);
    t := IsRefused(t, FREE, DOWNLOADED);
    t := Restarts(t, FREE);
    t := RunsFetch(t, FREE, "B");
    t := AsksForDoc(t, FREE);
    assert {"A"} + {"B"} == {"A", "B"};
    t := Restarts(t, FREE);
  }

  /** "A" is fetched and downloaded a second time. */
  lemma DownloadsAgain() returns (t: Story)
    ensures Reaches(t, FREE, Scene(Idle, [FETCH], false, false, ["A"], 1, true, None, false, true, Some(DOWNLOADED)))
  {
    hide Told, Sees, Shift;
    t := AsksForOther();
    t := RunsRound(t, FREE, "A");
    assert {"A", "B"} + {"A"} == {"A", "B"};
    t := StartsJob(t, FREE);
    t := Restarts(t, FREE);
  }

  const BETWEEN: seq<Data> := [FETCH, TRANSITION, FETCH]

  /** A transition that an error has overtaken is left between two fetch requests. */
  lemma LeavesTransition() returns (t: Story)
    ensures Reaches(t, FREE, Scene(Idle, BETWEEN, false, false, ["A"], 1, true, None, false, true, Some(DOWNLOADED)))
  {
    hide Told, Sees, Shift;
    t := DownloadsAgain();
    t := FetchFails(t, FREE, true);
    t := AsksRecovery(t, FREE);
    t := Arrives(t, FREE, FETCH);
    t := Turns(t, FREE, FetchingPendingJobs);
    t := HearsError(t, FREE);
    t := Recovers(t, FREE);
    assert Sees(t).queue == BETWEEN;
  }

  const REQUESTED: seq<Data> := [FETCH, TRANSITION, FETCH, JobList("A"), JobList("A"), ERROR, RECOVERY]

  /** Job list "A" arrives twice, and the fetch of the SUBACK fails: the error and a recovery request are queued. */
  lemma FirstRequest() returns (t: Story)
    ensures Reaches(t, FREE, Scene(Idle, REQUESTED, false, false, ["A"], 1, true, None, true, true, Some(DOWNLOADED)))
  {
    hide Told, Sees, Shift;
    t := LeavesTransition();
    t := Arrives(t, FREE, JobList("A"));
    t := Arrives(t, FREE, JobList("A"));
    t := FetchFails(t, FREE, true);
    t := AsksRecovery(t, FREE);
    assert Sees(t).queue == REQUESTED;
  }

  const BEHIND: seq<Data> := [ERROR, RECOVERY, Notice("A"), Notice("A"), TRANSITION, JobDoc("A"), JobDoc("A"),
    JobList("A"), TRANSITION]

  /** Behind the request, notices and documents of "A" are queued between the transitions of the round before it. */
  lemma BehindFirstRequest() returns (t: Story)
    ensures Reaches(t, FREE, Scene(FetchingJobDoc, BEHIND, false, false, ["A"], 0, false, None, true, true,
                                   Some(DOWNLOADED)))
  {
    hide Told, Sees, Shift;
    t := FirstRequest();
    t := Arrives(t, FREE, Notice("A"));
    t := Arrives(t, FREE, Notice("A"));
    t := Turns(t, FREE, FetchingPendingJobs);
    t := Arrives(t, FREE, JobDoc("A"));
    t := Arrives(t, FREE, JobDoc("A"));
    t := AsksForList(t, FREE);
    t := Turns(t, FREE, WaitingForPendingJobs);
    t := Turns(t, FREE, PendingJobsReceived);
    t := StartsRound(t, FREE, "A");
    assert Sees(t).queue == BEHIND;
  }

  const TWO_REQUESTS: seq<Data> := [ERROR, RECOVERY, Notice("A"), Notice("A"), TRANSITION, JobDoc("A"), JobDoc("A"),
    JobList("A"), TRANSITION, FETCH, DOWNLOADED, DOWNLOADED, SUCCESS, RECOVERY, Notice("B"), Notice("B")]

  /** Both downloads report their success, and the second request is queued while the first still is. */
  lemma SecondRequest() returns (t: Story)
    ensures Reaches(t, FREE, Scene(FetchingJobDoc, TWO_REQUESTS, false, false, ["A"], 0, false, None, true, false,
                                   None))
  {
    hide Told, Sees, Shift;
    t := BehindFirstRequest();
    t := Arrives(t, FREE, FETCH);
    t := Arrives(t, FREE, DOWNLOADED);
    t := Arrives(t, FREE, DOWNLOADED);
    t := Arrives(t, FREE, SUCCESS);
    t := AsksRecovery(t, FREE);
    t := Arrives(t, FREE, Notice("B"));
    t := Arrives(t, FREE, Notice("B"));
    assert Sees(t).queue == TWO_REQUESTS;
  }

  const RECOVERED: seq<Data> := [TRANSITION, JobDoc("A"), JobDoc("A"), JobList("A"), TRANSITION, FETCH, DOWNLOADED,
    DOWNLOADED, SUCCESS, RECOVERY, Notice("B"), Notice("B"), FETCH, Notice("A"), TRANSITION]

  lemma FirstRecovery() returns (t: Story)
    ensures Reaches(t, FREE, Scene(FetchingJobDoc, RECOVERED, false, false, ["A"], 0, false, None, false, false, None))
  {
    hide Told, Sees, Shift;
    t := SecondRequest();
    t := HearsError(t, FREE);
    t := Recovers(t, FREE);
    t := Turns(t, FREE, JobsChangedState);
    t := StartsRound(t, FREE, "A");
    assert Sees(t).queue == RECOVERED;
  }

  const CHOSEN: seq<Data> := [JobList("A"), TRANSITION, FETCH, DOWNLOADED, DOWNLOADED, SUCCESS, RECOVERY,
    Notice("B"), Notice("B"), FETCH, Notice("A"), TRANSITION, JobDoc("B"), JobDoc("B"), JobDoc("A"), TRANSITION]

  lemma FirstJobChosen() returns (t: Story)
    ensures Reaches(t, FREE, Scene(FetchingJobDoc, CHOSEN, false, false, ["A"], 1, true, None, false, false, None))
  {
    hide Told, Sees, Shift;
    t := FirstRecovery();
    t := Arrives(t, FREE, JobDoc("B"));
    t := Arrives(t, FREE, JobDoc("B"));
    t := AsksForDoc(t, FREE);
    assert {"A", "B"} + {"A"} == {"A", "B"};
    t := Turns(t, FREE, JobDocReceived);
    t := ChoosesJob(t, FREE, "A");
    assert Sees(t).queue == CHOSEN;
  }

  const COMPLETED: seq<Data> := [DOWNLOADED, SUCCESS, RECOVERY, Notice("B"), Notice("B"), FETCH, Notice("A"),
    TRANSITION, JobDoc("B"), JobDoc("B"), JobDoc("A"), TRANSITION, TRANSITION, DOWNLOADED, ACCEPTED]

  /** "A" is started a third time, and the queued successes are taken for this download. */
  lemma FirstJobDownloaded() returns (t: Story)
    ensures Reaches(t, FREE, Scene(PostDownload, COMPLETED, true, false, ["A"], 1, true, None, false, true, None))
  {
    hide Told, Sees, Shift;
    t := FirstJobChosen();
    t := Turns(t, FREE, FetchingJobDoc);
    t := Turns(t, FREE, JobExecution);
    t := StartsJob(t, FREE);
    t := Turns(t, FREE, PostDownload);
    t := Arrives(t, FREE, ACCEPTED);
    assert Sees(t).queue == COMPLETED;
  }

  const STALE: seq<Data> := [Notice("B"), Notice("B"), FETCH, Notice("A"), TRANSITION, JobDoc("B"), JobDoc("B"),
    JobDoc("A"), TRANSITION, TRANSITION, DOWNLOADED, ACCEPTED, ERROR, SUCCESS]

  /** The final status fails; its error is queued behind the second request, which so finds the job still active. */
  lemma SecondRecovery() returns (t: Story)
    ensures Reaches(t, FREE, Scene(Idle, STALE, true, true, ["A"], 1, true, Some("A"), false, true, None))
  {
    hide Told, Sees, Shift;
    t := FirstJobDownloaded();
    t := WritesRecord(t, FREE);
    t := StatusFails(t, FREE);
    t := Recovers(t, FREE);
    assert Sees(t).queue == STALE;
  }

  const ASKED: seq<Data> := [JobDoc("B"), JobDoc("B"), JobDoc("A"), TRANSITION, TRANSITION, DOWNLOADED, ACCEPTED,
    ERROR, SUCCESS, Notice("B"), TRANSITION]

  lemma SecondJobAsked() returns (t: Story)
    ensures Reaches(t, FREE, Scene(WaitingForJobDoc, ASKED, true, true, ["B"], 1, false, Some("A"), false, true, None))
  {
    hide Told, Sees, Shift;
    t := SecondRecovery();
    t := Turns(t, FREE, JobsChangedState);
    t := StartsRound(t, FREE, "B");
    t := Turns(t, FREE, FetchingJobDoc);
    t := Turns(t, FREE, FetchingJobDoc);
    t := AsksForDoc(t, FREE);
    assert {"A", "B"} + {"B"} == {"A", "B"};
    assert Sees(t).queue == ASKED;
  }

  lemma SecondJobAccepted() returns (t: Story)
    ensures Told(t, FREE) && Faces(t, PostDownload, ACCEPTED) && Sees(t).reboot
    ensures Sees(t).id == "B" && Sees(t).recorded == Some("A") && !Sees(t).lost
  {
    hide Told, Sees, Shift;
    t := SecondJobAsked();
    t := Turns(t, FREE, JobDocReceived);
    t := ChoosesJob(t, FREE, "B");
    t := Turns(t, FREE, FetchingJobDoc);
    t := Turns(t, FREE, JobExecution);
    t := Turns(t, FREE, JobExecution);
    t := Turns(t, FREE, PostDownload);
  }

  /** When a recovery is requested while another request is still queued, although no post is ever lost, the reboot can
      be for another job than the record: the second request is handled in ERROR before the error that would end the
      active job. */
  lemma SecondRequestRebootsOtherJob() returns (ms: seq<Engine>, steps: seq<Step>, k: nat)
    ensures Receivable(ms, steps) && k < |steps| && |ms| == |steps| + 1 && !ms[k].ev.lost
    ensures ms[k + 1].log == ms[k].log + [RebootRequested("B")] && PendingSince(ms[k].log) == Some("A")
  {
    var t := SecondJobAccepted();
    SeesLog(t);
    Remembers(t, FREE);
    var t' := Reboots(t, Plot(false, t));
    Tells(t', Plot(false, t));
    hide Told, Sees, Receivable;
    ms, steps, k := t'.ms, t'.steps, |t.steps|;
    assert ms[k] == End(t);
  }

  /* ---------- An abandoned reboot check ---------- */

  /** The verification of job "A" has begun. */
  lemma ChecksReboot() returns (t: Story)
    ensures t.ms[|t.steps|].state == RebootCheck && t.ms[|t.steps|].job.jobId == "A"
    ensures Reaches(t, Plot(true, t),
                    View(RebootCheck, [], "A", false, false, [], 0, false, None, false, Uninitialized,
                         RebootCheckRequested, None, true, false, NOTHING))
  {
    hide Told;
    t := Begins(true);
    t := BootsUnverified(t, QUIET, "A");
    Remembers(t, QUIET);
  }

  lemma InstallsOver(t0: Story) returns (t: Story)
    requires Reaches(t0, Plot(true, t0),
                     View(RebootCheck, [], "A", false, false, [], 0, false, None, false, Uninitialized,
                          RebootCheckRequested, None, true, false, NOTHING))
    ensures Told(t, Plot(true, t0)) && Faces(t, PostDownload, DOWNLOADED) && Sees(t).id == "B" && !Sees(t).cleared
    ensures !Sees(t).lost
  {
    hide Told, Sees, Shift;
    var plot := Plot(true, t0);
    t := Restarts(t0, plot);
    t := RunsRound(t, plot, "B");
    t := StartsJob(t, plot);
    t := Arrives(t, plot, DOWNLOADED);
    t := Turns(t, plot, PostDownload);
  }

  /** Nothing clears the record of a reboot check that ends in an error: without any storage fault or lost post, the
      next job's record is written over it. */
  lemma RecordOverUnclearedRecord() returns (ms: seq<Engine>, steps: seq<Step>, k: nat, n: nat)
    ensures Receivable(ms, steps) && k < n < |steps| && |ms| == |steps| + 1
    ensures ms[k].state == RebootCheck && ms[k].job.jobId == "A"
    ensures ms[n + 1].log == ms[n].log + [PendingVerification("B", ms[n].job.filetype)]
    ensures NvsCleared !in ms[n].log && !ms[n].ev.lost
  {
    hide IsRun, Surrounds, Quiet;
    var t := ChecksReboot();
    var t1 := InstallsOver(t);
    SeesLog(t1);
    Tells(t1, Plot(true, t));
    Remembers(t1, Plot(true, t));
    var t2 := WritesRecord(t1, Plot(true, t1));
    Tells(t2, Plot(true, t1));
    hide Told, Receivable, Sees;
    ms, steps, k, n := t2.ms, t2.steps, |t.steps|, |t1.steps|;
    assert ms[n] == End(t1) && ms[k] == t1.ms[k] == t.ms[k];
    assert ms[k].state != ms[n].state;
  }
}
