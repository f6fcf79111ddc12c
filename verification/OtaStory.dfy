/** Steps of concrete runs of the state machine, by what they show of its context, together with what the device
    around it knows: the downloader with its one pending result, and which answers the broker may send. */
module OtaStory {
  import opened Wrappers
  import opened OtaTypes
  import opened OtaSpec
  import opened OtaReboot
  import opened OtaSameJob
  import DownloadWindow

  /* ---------- The device around the machine ---------- */

  /** The downloader works on one image at a time (`active`) and reports each download once; a result that the state
      machine does not take is kept (`stash`) and delivered again later. The broker answers what was asked, at least
      once. */
  datatype Outside = Outside(active: bool, stash: Option<Data>, listAsked: bool, docsAsked: set<string>, updated: bool)

  const NOTHING := Outside(false, None, false, {}, false)

  predicate IsResult(d: Data) {
    d.event.ImageDownloadSucceeded? || d.event.ImageDownloadFailed? || d.event.Timeout?
  }

  predicate Takes(m: Engine, state: State) {
    m.ev.initialized && m.state == state && m.ev.queue != [] && m.ev.queue[0].data.event != ErrorOccurred
  }

  /** The turn starts the pending job. */
  predicate Starts(m: Engine) {
    Takes(m, JobExecution) && !m.job.hasActive
  }

  predicate Asks(m: Engine, e: Env, state: State) {
    Takes(m, state) && m.ev.queue[0].data.event == EmptyTransition && e.requestOk
  }

  /** May the device or the broker bring this event about now? */
  predicate Answers(o: Outside, d: Data) {
    match d.event
    case ImageDownloadProgress => o.active
    case ImageDownloadSucceeded => o.active || o.stash == Some(d)
    case ImageDownloadFailed(_) => o.active || o.stash == Some(d)
    case Timeout => o.active || o.stash == Some(d)
    case PendingJobsAccepted => o.listAsked
    case PendingJobsRejected => o.listAsked
    case JobDocAccepted => if d.payload.Document? then d.payload.doc.jobId in o.docsAsked else o.docsAsked != {}
    case JobDocRejected => o.docsAsked != {}
    case UpdateAccepted => o.updated
    case UpdateRejected => o.updated
    case _ => true
  }

  /** A download is started only while none is under way. */
  predicate Answerable(o: Outside, m: Engine, s: Step) {
    match s
    case Run(e) => Starts(m) && e.downloadCbOk ==> !o.active
    case PostExternal(d, _) => Answers(o, d)
    case TerminalConfirmed(_) => o.updated
    case _ => true
  }

  /** The end of a download, or another attempt to deliver the end of an earlier one. */
  function Reported(o: Outside, d: Data, taken: bool): Outside {
    if !IsResult(d) then o
    else if o.stash == Some(d) then o.(stash := if taken then None else o.stash)
    else o.(active := false, stash := if taken then o.stash else Some(d))
  }

  function Later(o: Outside, m: Engine, s: Step): Outside {
    match s
    case Run(e) =>
      if Starts(m) then o.(active := o.active || e.downloadCbOk, updated := o.updated || e.publish.Fine?)
      else if Asks(m, e, FetchingPendingJobs) then o.(listAsked := true)
      else if Asks(m, e, FetchingJobDoc) && m.next < |m.ids| then o.(docsAsked := o.docsAsked + {m.ids[m.next]})
      else o
    case PostExternal(d, a) => Reported(o, d, PostEvent(m.ev, d, a).ok)
    case _ => o
  }

  /** What the device around the machine knows in each state of a run. */
  ghost predicate Surrounds(outs: seq<Outside>, ms: seq<Engine>, steps: seq<Step>) {
    && |outs| == |ms| == |steps| + 1 && outs[0] == NOTHING
    && forall i | 0 <= i < |steps| ::
         Answerable(outs[i], ms[i], steps[i]) && outs[i + 1] == Later(outs[i], ms[i], steps[i])
  }

  /** A run whose events from outside the device and the broker could have sent. */
  ghost predicate Receivable(ms: seq<Engine>, steps: seq<Step>) {
    IsRun(ms, steps) && exists outs :: Surrounds(outs, ms, steps)
  }

  /* ---------- What a story shows of the context ---------- */

  datatype View = View(
    state: State,
    queue: seq<Data>,
    id: string,
    active: bool,
    reboot: bool,
    ids: seq<string>,
    next: nat,
    pending: bool,
    recorded: Option<string>,
    cleared: bool,
    route: State,
    event: Event,
    kept: Option<Data>,
    subIntended: bool,
    lost: bool,
    out: Outside)

  function Datas(q: seq<Cell>): (ds: seq<Data>)
    ensures |ds| == |q| && forall i | 0 <= i < |q| :: ds[i] == q[i].data
  {
    seq(|q|, i requires 0 <= i < |q| => q[i].data)
  }

  function ViewOf(m: Engine): View {
    View(m.state, Datas(m.ev.queue), m.job.jobId, m.job.hasActive, m.job.shouldReboot, m.ids, m.next, m.job.hasPending,
         PendingSince(m.log), NvsCleared in m.log, m.ev.recovery.state, m.ev.recovery.event,
         if m.ev.recovery.cell.Some? then Some(m.ev.recovery.cell.value.data) else None, m.subIntended, m.ev.lost,
         NOTHING)
  }

  predicate Running(m: Engine) {
    m.ev.initialized && !m.job.finalQueued
  }

  datatype Trace = Trace(ms: seq<Engine>, steps: seq<Step>, outs: seq<Outside>)

  type Story = t: Trace | |t.outs| == |t.ms| == |t.steps| + 1 witness Trace([Fresh(0, false)], [], [NOTHING])

  /** What is demanded of a story: whether recovery may be requested only when no request is queued, and how it
      begins. */
  datatype Plot = Plot(quiet: bool, past: Trace)

  const START := Trace([], [], [])

  ghost predicate Told(t: Story, plot: Plot) {
    && IsRun(t.ms, t.steps) && Running(t.ms[|t.steps|]) && Surrounds(t.outs, t.ms, t.steps)
    && (plot.quiet ==> forall i | 0 <= i < |t.steps| :: Quiet(t.ms[i], t.steps[i]))
    && plot.past.ms <= t.ms && plot.past.steps <= t.steps
  }

  function End(t: Story): Engine {
    t.ms[|t.steps|]
  }

  function Out(t: Story): Outside {
    t.outs[|t.steps|]
  }

  function Sees(t: Story): View {
    ViewOf(End(t)).(out := Out(t))
  }

  function Head(v: View): Data {
    if v.queue == [] then Plain(EmptyTransition) else v.queue[0]
  }

  /** The queue after its first event was taken and `added` was queued. */
  function Shift(q: seq<Data>, added: seq<Data>): (r: seq<Data>)
    requires q != []
    ensures |r| == |q| - 1 + |added|
    ensures forall i | 0 <= i < |q| - 1 :: r[i] == q[i + 1]
    ensures forall i | |q| - 1 <= i < |r| :: r[i] == added[i - (|q| - 1)]
  {
    q[1..] + added
  }

  /** The view after the first event was taken and `added` was queued. */
  function Moved(v: View, state: State, added: seq<Data>): View
    requires v.queue != []
  {
    v.(state := state, queue := Shift(v.queue, added))
  }

  lemma Extend(t: Story, plot: Plot, step: Step) returns (t': Story)
    requires Told(t, plot) && Enabled(End(t), step) && Answerable(Out(t), End(t), step)
    requires (plot.quiet ==> Quiet(End(t), step)) && Running(Next(End(t), step))
    ensures Told(t', plot) && t'.ms == t.ms + [Next(End(t), step)] && t'.steps == t.steps + [step]
    ensures End(t') == Next(End(t), step) && Out(t') == Later(Out(t), End(t), step)
  {
    hide Next, Quiet, Enabled, Answerable, Later;
    t' := Trace(t.ms + [Next(End(t), step)], t.steps + [step], t.outs + [Later(Out(t), End(t), step)]);
    assert t'.ms[0] == t.ms[0];
  }

  /* ---------- The environment ---------- */

  const OK := Alloc(true, true)
  const REFUSED := Alloc(true, false)

  /** Every call succeeds. */
  const ENV := Env(
    OK, OK, true, Fine, true, true, true, true, true, true, true, true, Fine,
    BootRecord(None, -1, None), None,
    DocEnv("1.0.0", 0, 0, Handler(false, None, None, None), true, true, true))

  /** A document of a custom filetype that does not track versions. */
  function Offer(id: string): Doc {
    Doc(id, true, "", true, "", "", "f", DownloadWindow.Window(-1, -1, 0, 0), Some(Image(1, 0, "s")))
  }

  const TRANSITION := Plain(EmptyTransition)
  const FETCH := Plain(FetchRequested)
  const ERROR := Plain(ErrorOccurred)
  const RECOVERY := Plain(RecoveryRequested)
  const ACCEPTED := Plain(UpdateAccepted)
  const DOWNLOADED := Data(ImageDownloadSucceeded, NoPayload, true)
  const FAILED := Data(ImageDownloadFailed(UnknownError), NoPayload, false)
  const SUCCESS := Data(FinalStatusReportRequested, FinalStatus(DetailsSucceeded), false)
  const FAILURE := Data(FinalStatusReportRequested, FinalStatus(DetailsFailed), false)

  function Notice(id: string): Data {
    Data(JobsChanged, Jobs(Lists([], [id])), false)
  }

  function JobList(id: string): Data {
    Data(PendingJobsAccepted, Jobs(Lists([], [id])), false)
  }

  function JobDoc(id: string): Data {
    Data(JobDocAccepted, Document(Offer(id)), false)
  }

  /* ---------- One turn of the dispatcher ---------- */

  lemma DatasPop(q: seq<Cell>)
    requires q != []
    ensures Datas(q[1..]) == Datas(q)[1..]
  {
  }

  lemma DatasAppend(q: seq<Cell>, c: Cell)
    ensures Datas(q + [c]) == Datas(q) + [c.data]
  {
  }

  lemma LogView(log: seq<Output>, o: Output)
    ensures PendingSince(log + [o])
            == if o.PendingVerification? then Some(o.id) else if o.Started? then None else PendingSince(log)
    ensures (NvsCleared in log + [o]) == (o.NvsCleared? || NvsCleared in log)
  {
    SinceAppend(log, o);
  }

  /** What a post that succeeds changes. */
  lemma PostView(ev: Events, d: Data)
    requires ev.initialized
    ensures var posted := Post(ev, d, OK);
            && posted.ok && Datas(posted.ev.queue) == Datas(ev.queue) + [d] && posted.ev.initialized
            && posted.ev.recovery == ev.recovery && posted.ev.lost == ev.lost
  {
    hide Release;
    DatasAppend(ev.queue, Copy(ev, d, true).cell.value);
  }

  /** A turn whose handler leaves `n` and the event queue, and then stays, moves on with a new event, or passes the
      event on. */
  datatype Ending = Stays | Goes(next: State) | Posts(next: State, data: Data) | Passes(next: State)

  function EndOf(n: Engine, c: Cell, ending: Ending): Handled {
    match ending
    case Stays => Stay(n)
    case Goes(next) => Handled(n, next, true)
    case Posts(next, d) => GoTo(n, next, d, ENV)
    case Passes(next) => PassOn(n, next, c, ENV)
  }

  function EndState(v: View, ending: Ending): State {
    if ending.Stays? then v.state else ending.next
  }

  function EndQueue(v: View, ending: Ending): seq<Data>
    requires v.queue != []
  {
    match ending
    case Posts(_, d) => [d]
    case Passes(_) => [v.queue[0]]
    case _ => []
  }

  /** Freeing the event changes nothing a story shows. */
  lemma FreedView(n: Engine, c: Cell)
    ensures ViewOf(n.(ev := Release(n.ev, c))) == ViewOf(n) && Running(n.(ev := Release(n.ev, c))) == Running(n)
  {
  }

  ghost predicate Took(m: Engine, e: Env, n: Engine, ending: Ending) {
    && m.ev.queue != [] && m.ev.queue[0].data.event != ErrorOccurred
    && Running(m) && Running(n) && n.ev == Pop(m.ev) && n.state == m.state
    && Handle(m.(ev := Pop(m.ev)), m.ev.queue[0], e) == EndOf(n, m.ev.queue[0], ending)
  }

  lemma TurnSettles(m: Engine, e: Env, n: Engine, ending: Ending)
    requires Took(m, e, n, ending)
    ensures RunOnce(m, e) == Settle(EndOf(n, m.ev.queue[0], ending), m.ev.queue[0])
    ensures Next(m, Run(e)) == RunOnce(m, e) && Quiet(m, Run(e))
  {
    hide Handle, EndOf, Settle;
  }

  lemma SettledView(n: Engine, c: Cell, ending: Ending)
    requires Running(n)
    ensures var m := Settle(EndOf(n, c, ending), c);
            && Running(m) && m.log == n.log
            && ViewOf(m) == ViewOf(n).(state := if ending.Stays? then n.state else ending.next,
                                       queue := Datas(n.ev.queue) + match ending { case Posts(_, d) => [d]
                                                                                   case Passes(_) => [c.data]
                                                                                   case _ => [] })
  {
    hide Post, Release, PendingSince, Datas;
    DatasAppend(n.ev.queue, c);
    if ending.Posts? {
      PostView(n.ev, ending.data);
    }
    var h := EndOf(n, c, ending);
    FreedView(h.m.(state := h.next), c);
  }

  lemma TurnView(m: Engine, e: Env, n: Engine, ending: Ending)
    requires Took(m, e, n, ending)
    ensures Running(Next(m, Run(e))) && Enabled(m, Run(e)) && Quiet(m, Run(e)) && Next(m, Run(e)).log == n.log
    ensures ViewOf(Next(m, Run(e))) == ViewOf(n).(state := EndState(ViewOf(m), ending),
                                                  queue := ViewOf(m).queue[1..] + EndQueue(ViewOf(m), ending))
  {
    TurnSettles(m, e, n, ending);
    SettledView(n, m.ev.queue[0], ending);
    DatasPop(m.ev.queue);
    hide RunOnce, Handle, Settle, Post, PendingSince, Quiet;
  }

  ghost predicate Reaches(t: Story, plot: Plot, v: View) {
    Told(t, plot) && Sees(t) == v
  }

  lemma Turn(t: Story, plot: Plot, e: Env, n: Engine, ending: Ending) returns (t': Story)
    requires Told(t, plot) && Took(End(t), e, n, ending) && Answerable(Out(t), End(t), Run(e))
    ensures Reaches(t', plot, ViewOf(n).(state := EndState(Sees(t), ending),
                                         queue := Sees(t).queue[1..] + EndQueue(Sees(t), ending),
                                         out := Later(Out(t), End(t), Run(e))))
    ensures |t'.steps| == |t.steps| + 1 && End(t').log == n.log
  {
    TurnView(End(t), e, n, ending);
    hide Next, Quiet, ViewOf, Enabled, Handle, Running, Answerable, Later;
    t' := Extend(t, plot, Run(e));
  }

  lemma TellsRunning(t: Story, plot: Plot)
    requires Told(t, plot)
    ensures Running(End(t))
  {
  }

  function Popped(t: Story): Engine
    requires End(t).ev.queue != []
  {
    End(t).(ev := Pop(End(t).ev))
  }

  predicate Faces(t: Story, state: State, d: Data) {
    Sees(t).queue != [] && Sees(t).state == state && Sees(t).queue[0] == d
  }

  /* ---------- Turns that only move on ---------- */

  /** What the oldest event does where it changes nothing but the state and the queue. */
  function Reaction(v: View): Option<Ending> {
    if v.queue == [] || v.queue[0].event == ErrorOccurred then None
    else
      match (v.state, v.queue[0].event)
      case (Idle, FetchRequested) => Some(Posts(FetchingPendingJobs, TRANSITION))
      case (Idle, JobsChanged) => Some(Passes(JobsChangedState))
      case (Idle, _) => Some(Stays)
      case (WaitingForPendingJobs, PendingJobsAccepted) => Some(Passes(PendingJobsReceived))
      case (WaitingForPendingJobs, FetchRequested) => Some(Stays)
      case (FetchingJobDoc, EmptyTransition) =>
        if v.next >= |v.ids| && v.pending then Some(Posts(JobExecution, TRANSITION)) else None
      case (FetchingJobDoc, _) => Some(Stays)
      case (WaitingForJobDoc, JobDocAccepted) => Some(Passes(JobDocReceived))
      case (JobExecution, EmptyTransition) => if v.active then Some(Stays) else None
      case (JobExecution, ImageDownloadSucceeded) => if v.active then Some(Passes(PostDownload)) else None
      case (JobExecution, ImageDownloadFailed(_)) => if v.active then Some(Posts(PostDownload, FAILURE)) else None
      case _ => None
  }

  /** What such a turn leaves of the context besides state and queue. */
  function Worked(m: Engine, ending: Ending): Engine {
    if m.state == JobExecution && ending.Passes? then Progressed(m, ENV)
    else if m.state == WaitingForPendingJobs && ending.Passes? then m.(timerArmed := false)
    else if m.state == WaitingForJobDoc then m.(timerArmed := false)
    else m
  }

  /** The handler of the state does what `Reaction` says. */
  ghost predicate Handles(m: Engine) {
    var ending := Reaction(ViewOf(m));
    Running(m) && ending.Some? ==>
      var n := m.(ev := Pop(m.ev));
      Handle(n, m.ev.queue[0], ENV) == EndOf(Worked(n, ending.value), m.ev.queue[0], ending.value)
  }

  lemma FetchingHandles(m: Engine)
    requires m.state == Idle || m.state == FetchingJobDoc
    ensures Handles(m)
  {
    hide PendingSince, Datas, GoTo, PassOn;
  }

  lemma WaitingHandles(m: Engine)
    requires m.state == WaitingForPendingJobs || m.state == WaitingForJobDoc
    ensures Handles(m)
  {
    hide PendingSince, Datas, GoTo, PassOn;
  }

  lemma ExecutionHandles(m: Engine)
    requires m.state == JobExecution
    ensures Handles(m)
  {
    hide PendingSince, Datas, GoTo, PassOn, StartJob;
  }

  lemma ReactionHandled(m: Engine)
    requires Reaction(ViewOf(m)).Some?
    ensures Handles(m)
  {
    hide Handles, ViewOf;
    match m.state
    case WaitingForPendingJobs => WaitingHandles(m);
    case WaitingForJobDoc => WaitingHandles(m);
    case JobExecution => ExecutionHandles(m);
    case Idle => FetchingHandles(m);
    case FetchingJobDoc => FetchingHandles(m);
    case _ => ReactionStates(m);
  }

  lemma ReactionStates(m: Engine)
    requires Reaction(ViewOf(m)).Some?
    ensures m.state == Idle || m.state == WaitingForPendingJobs || m.state == FetchingJobDoc
            || m.state == WaitingForJobDoc || m.state == JobExecution
  {
    hide PendingSince, Datas;
  }

  /** The turn asks for nothing and starts nothing. */
  lemma ReactionAsks(m: Engine)
    requires Reaction(ViewOf(m)).Some?
    ensures !Starts(m) && !Asks(m, ENV, FetchingPendingJobs) && !(Asks(m, ENV, FetchingJobDoc) && m.next < |m.ids|)
  {
    hide PendingSince;
  }

  lemma Reacts(m: Engine)
    requires Running(m) && Reaction(ViewOf(m)).Some?
    ensures var ending := Reaction(ViewOf(m)).value;
            var n := Worked(m.(ev := Pop(m.ev)), ending);
            Took(m, ENV, n, ending) && ViewOf(n) == ViewOf(m).(queue := ViewOf(n).queue)
  {
    hide PendingSince, Handle, EndOf;
    ReactionHandled(m);
  }

  lemma Turns(t: Story, plot: Plot, next: State) returns (t': Story)
    requires Told(t, plot) && Reaction(Sees(t)).Some? && EndState(Sees(t), Reaction(Sees(t)).value) == next
    ensures Reaches(t', plot, Moved(Sees(t), next, EndQueue(Sees(t), Reaction(Sees(t)).value)))
  {
    hide Told, Reaches, ViewOf, Took, Running;
    TellsRunning(t, plot);
    SeesView(t);
    Reacts(End(t));
    ReactionAsks(End(t));
    var ending := Reaction(Sees(t)).value;
    t' := Turn(t, plot, ENV, Worked(Popped(t), ending), ending);
  }

  lemma SeesView(t: Story)
    ensures Sees(t) == ViewOf(End(t)).(out := Out(t)) && Reaction(Sees(t)) == Reaction(ViewOf(End(t)))
    ensures ViewOf(End(t)).queue == Datas(End(t).ev.queue) && End(t).state == Sees(t).state
  {
  }

  /* ---------- Turns that change the job ---------- */

  /** In any other state a turn neither asks for anything nor starts a download. */
  lemma Aside(t: Story, e: Env)
    requires || (End(t).state != JobExecution && End(t).state != FetchingPendingJobs && End(t).state != FetchingJobDoc)
             || (End(t).ev.queue != [] && End(t).ev.queue[0].data == ERROR)
    ensures Answerable(Out(t), End(t), Run(e)) && Later(Out(t), End(t), Run(e)) == Out(t)
  {
  }

  lemma ComesUp(t: Story, plot: Plot) returns (t': Story)
    requires Told(t, plot) && Faces(t, NetworkInit, TRANSITION)
    ensures Reaches(t', plot, Moved(Sees(t), Idle, [TRANSITION]).(subIntended := true))
  {
    hide Told, Reaches, PendingSince, Datas, Answerable, Later;
    TellsRunning(t, plot);
    Aside(t, ENV);
    PostView(Pop(End(t).ev), TRANSITION);
    t' := Turn(t, plot, ENV, Popped(t).(subIntended := true), Posts(Idle, TRANSITION));
  }

  /** The boot finds the record of job `id`. */
  lemma BootsUnverified(t: Story, plot: Plot, id: string) returns (t': Story)
    requires Told(t, plot) && Faces(t, NetworkInit, TRANSITION) && |id| <= JOBID_MAX_LENGTH
    ensures Reaches(t', plot, Moved(Sees(t), RebootCheck, []).(subIntended := true, id := id))
  {
    hide Told, Reaches, PendingSince, Datas, Answerable, Later;
    TellsRunning(t, plot);
    var e, m := ENV.(boot := BootRecord(Some(id), 0, None)), Popped(t);
    Aside(t, e);
    t' := Turn(t, plot, e, m.(subIntended := true, job := m.job.(jobId := id)), Goes(RebootCheck));
  }

  lemma AsksForList(t: Story, plot: Plot) returns (t': Story)
    requires Told(t, plot) && Faces(t, FetchingPendingJobs, TRANSITION)
    ensures Reaches(t', plot, Moved(Sees(t), WaitingForPendingJobs, []).(out := Sees(t).out.(listAsked := true)))
  {
    hide Told, Reaches, PendingSince, Datas;
    TellsRunning(t, plot);
    t' := Turn(t, plot, ENV, Popped(t).(timerArmed := true), Goes(WaitingForPendingJobs));
  }

  lemma RoundOfOne(id: string)
    requires 0 < |id| <= JOBID_MAX_LENGTH
    ensures RoundIds(Lists([], [id])) == [id]
  {
    assert [] + [id] == [id] && [id][1..] == [];
    assert Usable([id]) == [id] + Usable([]);
  }

  lemma FillView(m: Engine, id: string)
    requires 0 < |id| <= JOBID_MAX_LENGTH
    ensures ViewOf(Fill(m, Lists([], [id]))) == ViewOf(m).(ids := [id], next := 0, pending := false)
  {
    hide PendingSince, RoundIds;
    RoundOfOne(id);
  }

  lemma RoundTook(m: Engine, id: string)
    requires Running(m) && m.ev.queue != [] && 0 < |id| <= JOBID_MAX_LENGTH
    requires || (m.state == JobsChangedState && m.ev.queue[0].data == Notice(id))
             || (m.state == PendingJobsReceived && m.ev.queue[0].data == JobList(id))
    ensures Took(m, ENV, Fill(m.(ev := Pop(m.ev)), Lists([], [id])), Posts(FetchingJobDoc, TRANSITION))
  {
    hide RoundIds, Datas, GoTo;
    RoundOfOne(id);
  }

  lemma StartsRound(t: Story, plot: Plot, id: string) returns (t': Story)
    requires Told(t, plot) && (Faces(t, JobsChangedState, Notice(id)) || Faces(t, PendingJobsReceived, JobList(id)))
    requires 0 < |id| <= JOBID_MAX_LENGTH
    ensures Reaches(t', plot,
                    Moved(Sees(t), FetchingJobDoc, [TRANSITION]).(ids := [id], next := 0, pending := false))
  {
    hide Told, Reaches, PendingSince, Datas, Answerable, Later, Took, Fill, Running;
    TellsRunning(t, plot);
    Aside(t, ENV);
    RoundTook(End(t), id);
    FillView(Popped(t), id);
    t' := Turn(t, plot, ENV, Fill(Popped(t), Lists([], [id])), Posts(FetchingJobDoc, TRANSITION));
  }

  lemma DocAsked(t: Story)
    requires Running(End(t)) && Faces(t, FetchingJobDoc, TRANSITION) && End(t).next < |End(t).ids|
    ensures var o := Out(t);
            && Answerable(o, End(t), Run(ENV))
            && Later(o, End(t), Run(ENV)) == o.(docsAsked := o.docsAsked + {End(t).ids[End(t).next]})
  {
    hide PendingSince;
  }

  lemma AsksForDoc(t: Story, plot: Plot) returns (t': Story)
    requires Told(t, plot) && Faces(t, FetchingJobDoc, TRANSITION) && Sees(t).next < |Sees(t).ids|
    ensures var v := Sees(t);
            Reaches(t', plot, Moved(v, WaitingForJobDoc, [])
                              .(next := v.next + 1, out := v.out.(docsAsked := v.out.docsAsked + {v.ids[v.next]})))
  {
    hide Told, Reaches, PendingSince, Datas, Answerable, Later;
    TellsRunning(t, plot);
    DocAsked(t);
    var m := Popped(t);
    var id := m.ids[m.next];
    LogView(m.log, Described(id));
    t' := Turn(t, plot, ENV, m.(next := m.next + 1, described := m.described + [id], log := m.log + [Described(id)],
                                timerArmed := true), Goes(WaitingForJobDoc));
  }

  lemma OfferAccepted(m: Engine, id: string)
    requires 0 < |id| <= JOBID_MAX_LENGTH && !m.job.hasPending
    ensures JudgeInRound(m.job, Offer(id), ENV.doc) == Accept(0)
  {
  }

  lemma OfferChosen(m: Engine, id: string)
    ensures var n := Choose(Seen(m, Offer(id), ENV.doc), Offer(id), 0);
            n.state == m.state && n.ev == m.ev && ViewOf(n) == ViewOf(m).(id := id, pending := true)
            && Running(n) == Running(m)
  {
    hide Judge, FiletypeAfter, PendingSince;
  }

  lemma ChoosesJob(t: Story, plot: Plot, id: string) returns (t': Story)
    requires Told(t, plot) && Faces(t, JobDocReceived, JobDoc(id)) && !Sees(t).pending
    requires 0 < |id| <= JOBID_MAX_LENGTH
    ensures Reaches(t', plot, Moved(Sees(t), FetchingJobDoc, [TRANSITION]).(id := id, pending := true))
  {
    hide Told, Reaches, PendingSince, JudgeInRound, Seen, Choose, Answerable, Later;
    TellsRunning(t, plot);
    Aside(t, ENV);
    OfferAccepted(Popped(t), id);
    OfferChosen(Popped(t), id);
    t' := Turn(t, plot, ENV, Choose(Seen(Popped(t), Offer(id), ENV.doc), Offer(id), 0),
               Posts(FetchingJobDoc, TRANSITION));
  }

  /** The job is started, and its download with it: none may be under way. */
  lemma StartsJob(t: Story, plot: Plot) returns (t': Story)
    requires Told(t, plot) && Sees(t).queue != [] && Sees(t).state == JobExecution && !Sees(t).active
    requires Head(Sees(t)).event != ErrorOccurred && !Sees(t).out.active
    ensures Reaches(t', plot, Moved(Sees(t), JobExecution, [])
                              .(active := true, reboot := false, recorded := None,
                                out := Sees(t).out.(active := true, updated := true)))
  {
    hide Told, Reaches, PendingSince, Datas;
    TellsRunning(t, plot);
    LogView(End(t).log, Started(End(t).job.jobId));
    t' := Turn(t, plot, ENV, StartJob(Popped(t), ENV), Stays);
  }

  lemma WritesRecord(t: Story, plot: Plot) returns (t': Story)
    requires Told(t, plot) && Faces(t, PostDownload, DOWNLOADED)
    ensures Reaches(t', plot, Moved(Sees(t), PostDownload, []).(reboot := true, recorded := Some(Sees(t).id)))
    ensures |t'.steps| == |t.steps| + 1
    ensures End(t').log == End(t).log + [PendingVerification(Sees(t).id, End(t).job.filetype)]
  {
    hide Told, Reaches, PendingSince, Datas, Answerable, Later;
    TellsRunning(t, plot);
    Aside(t, ENV);
    LogView(End(t).log, PendingVerification(End(t).job.jobId, End(t).job.filetype));
    t' := Turn(t, plot, ENV, OnDownloaded(Popped(t), true), Stays);
  }

  lemma ReportsFailure(t: Story, plot: Plot) returns (t': Story)
    requires Told(t, plot) && Faces(t, PostDownload, FAILURE)
    ensures Reaches(t', plot, Moved(Sees(t), PostDownload, []))
  {
    hide Told, Reaches, PendingSince, Datas, Answerable, Later;
    TellsRunning(t, plot);
    Aside(t, ENV);
    LogView(End(t).log, TerminalStatus(End(t).job.jobId));
    var n := FinalSent(Popped(t), DetailsFailed);
    t' := Turn(t, plot, ENV, n.(job := n.job.(finalReported := true)), Stays);
  }

  lemma Reboots(t: Story, plot: Plot) returns (t': Story)
    requires Told(t, plot) && Faces(t, PostDownload, ACCEPTED) && Sees(t).reboot
    ensures Reaches(t', plot, Moved(Sees(t), PostDownload, []))
    ensures |t'.steps| == |t.steps| + 1 && End(t').log == End(t).log + [RebootRequested(Sees(t).id)]
  {
    hide Told, Reaches, PendingSince, Datas, Answerable, Later;
    TellsRunning(t, plot);
    Aside(t, ENV);
    LogView(End(t).log, RebootRequested(End(t).job.jobId));
    t' := Turn(t, plot, ENV, Popped(t).(log := End(t).log + [RebootRequested(End(t).job.jobId)]), Stays);
  }

  /* ---------- Errors and recoveries ---------- */

  lemma Moves(t: Story, plot: Plot, step: Step) returns (t': Story)
    requires Told(t, plot) && Enabled(End(t), step) && (plot.quiet ==> Quiet(End(t), step))
    requires Running(Next(End(t), step)) && Answerable(Out(t), End(t), step)
    ensures Reaches(t', plot, ViewOf(Next(End(t), step)).(out := Later(Out(t), End(t), step)))
  {
    hide Next, Quiet, ViewOf, Enabled, Running, Answerable, Later;
    t' := Extend(t, plot, step);
  }

  lemma TakeNothing<T>(q: seq<T>)
    requires q != []
    ensures q[1..] == q[1..] + []
  {
  }

  /** The final status cannot be published now; its event is kept for a retry. */
  lemma StatusFails(t: Story, plot: Plot) returns (t': Story)
    requires Told(t, plot) && Faces(t, PostDownload, SUCCESS)
    ensures Reaches(t', plot,
                  Moved(Sees(t), ErrorState, [ERROR]).(route := Idle, event := ErrorOccurred, kept := Some(SUCCESS)))
  {
    hide Told, Reaches, PendingSince, Answerable, Later;
    TellsRunning(t, plot);
    var e := ENV.(publish := Failure);
    Aside(t, e);
    var m := End(t);
    PostView(SetRecovery(Pop(m.ev), RetryWithBackoff, Recovery(Idle, Some(m.ev.queue[0]), ErrorOccurred)), ERROR);
    DatasPop(m.ev.queue);
    t' := Moves(t, plot, Run(e));
  }

  lemma RefusedPost(ev: Events)
    requires ev.initialized
    ensures PostIgnored(ev, ErrorOccurred, REFUSED).(free := [], heap := {}, nextHeap := 0)
            == ev.(free := [], heap := {}, nextHeap := 0, lost := true)
  {
  }

  lemma SettledFree(n: Engine, next: State, c: Cell)
    ensures ViewOf(Settle(Handled(n, next, true), c)) == ViewOf(n).(state := next)
    ensures Running(Settle(Handled(n, next, true), c)) == Running(n)
  {
    hide PendingSince, Datas, Release;
    FreedView(n.(state := next), c);
  }

  const UNPUBLISHED := ENV.(publish := InvalidArg, errorPost := REFUSED)

  lemma UnheardSettles(m: Engine)
    requires Running(m) && m.state == PostDownload && m.ev.queue != [] && m.ev.queue[0].data == SUCCESS
    ensures RunOnce(m, UNPUBLISHED)
            == Settle(Fail(m.(ev := Pop(m.ev)), FatalUnexpectedFormat, REFUSED, true), m.ev.queue[0])
  {
    hide Fail, Settle;
  }

  lemma UnheardView(m: Engine)
    requires Running(m) && m.state == PostDownload && m.ev.queue != [] && m.ev.queue[0].data == SUCCESS
    ensures Running(RunOnce(m, UNPUBLISHED))
    ensures ViewOf(RunOnce(m, UNPUBLISHED))
            == Moved(ViewOf(m), ErrorState, []).(route := Uninitialized, event := ErrorOccurred, kept := None,
                                                 lost := true)
  {
    hide PostIgnored, PendingSince, Settle, RunOnce, Datas;
    RefusedPost(SetRecovery(Pop(m.ev), FatalUnexpectedFormat, RecoveryFor(FatalUnexpectedFormat)));
    DatasPop(m.ev.queue);
    TakeNothing(Datas(m.ev.queue));
    UnheardSettles(m);
    SettledFree(Fail(m.(ev := Pop(m.ev)), FatalUnexpectedFormat, REFUSED, true).m, ErrorState, m.ev.queue[0]);
  }

  /** The final status cannot be published for good, and the work queue does not take the error. */
  lemma StatusFailsUnheard(t: Story, plot: Plot) returns (t': Story)
    requires Told(t, plot) && Faces(t, PostDownload, SUCCESS)
    ensures Reaches(t', plot, Moved(Sees(t), ErrorState, []).(route := Uninitialized, event := ErrorOccurred,
                                                                kept := None, lost := true))
  {
    hide Told, Reaches, PendingSince, RunOnce, Answerable, Later;
    TellsRunning(t, plot);
    Aside(t, UNPUBLISHED);
    UnheardView(End(t));
    t' := Moves(t, plot, Run(UNPUBLISHED));
  }

  lemma HeardSettles(m: Engine)
    requires Running(m) && m.ev.queue != [] && m.ev.queue[0].data == ERROR
    ensures var n := OnErrorOccurred(m.(ev := Pop(m.ev), state := ErrorState), ENV);
            RunOnce(m, ENV) == Settle(Handled(n, ErrorState, true), m.ev.queue[0])
  {
    hide Handle, Settle;
  }

  lemma HeardView(m: Engine)
    requires Running(m) && m.ev.queue != [] && m.ev.queue[0].data == ERROR
    ensures Running(RunOnce(m, ENV))
    ensures ViewOf(RunOnce(m, ENV)) == Moved(ViewOf(m), ErrorState, []).(active := false)
  {
    hide PendingSince, RunOnce, Settle, Datas;
    DatasPop(m.ev.queue);
    TakeNothing(Datas(m.ev.queue));
    HeardSettles(m);
    SettledFree(OnErrorOccurred(m.(ev := Pop(m.ev), state := ErrorState), ENV), ErrorState, m.ev.queue[0]);
  }

  lemma HearsError(t: Story, plot: Plot) returns (t': Story)
    requires Told(t, plot) && Sees(t).queue != [] && Head(Sees(t)) == ERROR
    ensures Reaches(t', plot, Moved(Sees(t), ErrorState, []).(active := false))
  {
    hide Told, Reaches, PendingSince, RunOnce, Answerable, Later;
    TellsRunning(t, plot);
    Aside(t, ENV);
    HeardView(End(t));
    t' := Moves(t, plot, Run(ENV));
  }

  function Resumption(v: View): Data {
    if v.kept.Some? then v.kept.value else Plain(v.event)
  }

  lemma ResumedSettles(m: Engine)
    requires Running(m) && m.state == ErrorState && m.ev.queue != [] && m.ev.queue[0].data == RECOVERY
    ensures RunOnce(m, ENV) == Settle(OnError(m.(ev := Pop(m.ev)), m.ev.queue[0], ENV), m.ev.queue[0])
  {
    hide OnError, Settle;
  }

  lemma PostRecoveryView(ev: Events)
    requires ev.initialized
    ensures var posted := PostRecovery(ev, ENV);
            && posted.ok && posted.ev.initialized && posted.ev.lost == ev.lost
            && Datas(posted.ev.queue) == Datas(ev.queue) + [if ev.recovery.cell.Some? then ev.recovery.cell.value.data
                                                            else Plain(ev.recovery.event)]
  {
    hide Post, Datas;
    if ev.recovery.cell.Some? {
      DatasAppend(ev.queue, ev.recovery.cell.value);
    } else {
      PostView(ev, Plain(ev.recovery.event));
    }
  }

  lemma ResumedView(m: Engine)
    requires Running(m) && m.state == ErrorState && m.ev.queue != [] && m.ev.queue[0].data == RECOVERY
    ensures Running(RunOnce(m, ENV))
    ensures ViewOf(RunOnce(m, ENV)) == Moved(ViewOf(m), ViewOf(m).route, [Resumption(ViewOf(m))])
                                       .(route := Uninitialized, event := ErrorOccurred, kept := None)
  {
    hide PendingSince, RunOnce, Settle, Datas, PostRecovery;
    var n := m.(ev := ResetRecovery(PostRecovery(Pop(m.ev), ENV).ev));
    DatasPop(m.ev.queue);
    PostRecoveryView(Pop(m.ev));
    ResumedSettles(m);
    SettledFree(n, m.ev.recovery.state, m.ev.queue[0]);
  }

  lemma Recovers(t: Story, plot: Plot) returns (t': Story)
    requires Told(t, plot) && Faces(t, ErrorState, RECOVERY)
    ensures Reaches(t', plot, Moved(Sees(t), Sees(t).route, [Resumption(Sees(t))])
                                .(route := Uninitialized, event := ErrorOccurred, kept := None))
  {
    hide Told, Reaches, PendingSince, RunOnce, Answerable, Later;
    TellsRunning(t, plot);
    Aside(t, ENV);
    ResumedView(End(t));
    t' := Moves(t, plot, Run(ENV));
  }

  /** The fetch after a successful subscription cannot be posted; the error event may not be taken either. */
  lemma FetchFails(t: Story, plot: Plot, heard: bool) returns (t': Story)
    requires Told(t, plot) && Sees(t).subIntended
    ensures var v := Sees(t).(route := Idle, event := FetchRequested, kept := None);
            Reaches(t', plot, if heard then v.(queue := v.queue + [ERROR]) else v.(lost := true))
  {
    hide Told, Reaches, PendingSince, Post, PostIgnored, Datas;
    TellsRunning(t, plot);
    var ev := SetRecovery(End(t).ev, RetryWithBackoff, RecoveryFor(RetryWithBackoff));
    HeardPost(ev);
    RefusedPost(ev);
    t' := Moves(t, plot, FetchAfterSubscribeFailed(if heard then OK else REFUSED));
  }

  lemma HeardPost(ev: Events)
    requires ev.initialized
    ensures var ev' := PostIgnored(ev, ErrorOccurred, OK);
            && Datas(ev'.queue) == Datas(ev.queue) + [ERROR] && ev'.initialized && ev'.recovery == ev.recovery
            && ev'.lost == ev.lost
  {
    hide Post, Datas;
    PostView(ev, ERROR);
  }

  lemma Arrives(t: Story, plot: Plot, d: Data) returns (t': Story)
    requires Told(t, plot) && External(d) && Answers(Sees(t).out, d)
    ensures Reaches(t', plot, Sees(t).(queue := Sees(t).queue + [d], out := Reported(Sees(t).out, d, true)))
  {
    hide Told, Reaches, PendingSince, Datas, Answers, Reported;
    TellsRunning(t, plot);
    PostView(End(t).ev, d);
    t' := Moves(t, plot, PostExternal(d, OK));
  }

  /** The work queue does not take the event. */
  lemma IsRefused(t: Story, plot: Plot, d: Data) returns (t': Story)
    requires Told(t, plot) && External(d) && Answers(Sees(t).out, d)
    ensures Reaches(t', plot, Sees(t).(out := Reported(Sees(t).out, d, false)))
  {
    hide Told, Reaches, PendingSince, Datas, Answers, Reported;
    TellsRunning(t, plot);
    RefusedView(End(t).ev, d);
    t' := Moves(t, plot, PostExternal(d, REFUSED));
  }

  lemma RefusedView(ev: Events, d: Data)
    requires ev.initialized
    ensures var posted := Post(ev, d, REFUSED);
            && !posted.ok && posted.ev.queue == ev.queue && posted.ev.initialized && posted.ev.recovery == ev.recovery
            && posted.ev.lost == ev.lost
  {
  }

  lemma AsksRecovery(t: Story, plot: Plot) returns (t': Story)
    requires Told(t, plot) && Sees(t).route != Uninitialized && Sees(t).event != ErrorOccurred
    requires plot.quiet ==> Sees(t).queue == []
    ensures Reaches(t', plot, Sees(t).(queue := Sees(t).queue + [RECOVERY]))
  {
    hide Told, Reaches, PendingSince, Datas;
    TellsRunning(t, plot);
    PostView(End(t).ev, RECOVERY);
    t' := Moves(t, plot, RequestRecovery(OK));
  }

  /* ---------- Beginnings ---------- */

  lemma Opened(m: Engine)
    requires m == Fresh(0, false)
    ensures var n := Next(m, Initialize(OK, []));
            && Running(n)
            && ViewOf(n) == View(NetworkInit, [TRANSITION], "", false, false, [], 0, false, None, false, Uninitialized,
                                 RebootCheckRequested, None, false, false, NOTHING)
  {
    hide Post;
    var ev := m.ev.(lastError := NoError);
    PostKeepsPreInit(ev, TRANSITION, OK);
    assert Datas(Post(ev, TRANSITION, OK).ev.queue) == [TRANSITION] by {
      assert Post(ev, TRANSITION, OK).ev.queue == [Cell(Heap(0), TRANSITION)] by {
        assert ev.free == [];
        PostToEmpty(ev);
      }
    }
    OpenedPost(ev);
  }

  lemma PostToEmpty(ev: Events)
    requires ev.free == [] && ev.queue == [] && ev.nextHeap == 0
    ensures Post(ev, TRANSITION, OK).ev.queue == [Cell(Heap(0), TRANSITION)]
  {
  }

  lemma OpenedPost(ev: Events)
    ensures var posted := Post(ev, TRANSITION, OK);
            posted.ok && posted.ev.recovery == ev.recovery && posted.ev.lost == ev.lost
  {
  }

  lemma Begins(quiet: bool) returns (t: Story)
    ensures Told(t, Plot(quiet, START))
    ensures Sees(t) == View(NetworkInit, [TRANSITION], "", false, false, [], 0, false, None, false, Uninitialized,
                            RebootCheckRequested, None, false, false, NOTHING)
  {
    var m := Fresh(0, false);
    Opened(m);
    assert !m.ev.initialized && m.ev.preInit == [];
    hide Fresh, ViewOf, Running;
    t := Trace([m, Next(m, Initialize(OK, []))], [Initialize(OK, [])], [NOTHING, NOTHING]);
    assert t.ms[0] == Fresh(0, false);
    hide Next;
  }

  lemma SeesLog(t: Story)
    ensures Sees(t).cleared == (NvsCleared in End(t).log) && Sees(t).lost == End(t).ev.lost
    ensures Sees(t).recorded == PendingSince(End(t).log) && Sees(t).state == End(t).state
  {
    hide PendingSince;
  }

  lemma Tells(t: Story, plot: Plot)
    requires Told(t, plot)
    ensures Receivable(t.ms, t.steps) && plot.past.ms <= t.ms && plot.past.steps <= t.steps
    ensures plot.quiet ==> forall i | 0 <= i < |t.steps| :: Quiet(t.ms[i], t.steps[i])
  {
    hide IsRun, Surrounds;
    assert Surrounds(t.outs, t.ms, t.steps);
  }

  /** What was told so far may be demanded of everything told from here on. */
  lemma Remembers(t: Story, plot: Plot)
    requires Told(t, plot)
    ensures Told(t, plot.(past := t))
  {
  }
}
