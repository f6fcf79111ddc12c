/** The work queue of work_queue.c as interleaved atomic steps: one control thread that calls init, start and
    deinit one after the other, any number of producers and stop callers, and the worker tasks that start creates. */
module WorkQueue {
  import opened Wrappers

  datatype QueueState = Deinit | InitDone | Running | StopRequested | Parked

  /** A work function, or the empty task that wakes the worker for the stop with the given number. */
  datatype Entry = Task(id: nat) | Wake(stop: nat)

  datatype Fate = Executed | Discarded

  /** Where a worker is: before `atomic_store(&s_work_queue_task)`, at the loop test, in the blocking receive, in a
      work function, in the polling receive, and at the three steps of its exit. */
  datatype WorkerPc = Starting | LoopTest | Receiving | Executing(entry: Entry) | Polling | Clearing | Finishing | Dying

  /** Where a call of add_task is: before the gate, or past it and before the send. */
  datatype CallerPc = AtGate(entry: Entry) | PastGate(entry: Entry)

  /** Where the control thread is: outside any call, or before the named step of init, start or deinit. */
  datatype ControlPc =
    | Outside
    | InitCreate
    | InitOpen
    | InitFlush
    | StartCreate
    | StartStore
    | DeinitStop
    | DeinitGate(wake: Entry)
    | DeinitSend(wake: Entry)
    | DeinitWait
    | DeinitCheck
    | DeinitFlush
    | DeinitPark

  /** What held when the last RUNNING -> STOP_REQUESTED exchange succeeded. */
  datatype StopMark = StopMark(sent: nat, taken: nat, pc: WorkerPc)

  /** The shared variables and the places of all threads. History: every entry sent, every entry taken out of the
      queue with its fate, the number of RUNNING stores and of successful exchanges, the last exchange, how many
      entries had been sent at the worker's last empty receive, and whether a deinit ever failed. */
  datatype World = World(
    capacity: nat,
    handle: bool,
    state: QueueState,
    queue: seq<Entry>,
    task: Option<nat>,
    workers: map<nat, WorkerPc>,
    nextWorker: nat,
    callers: map<nat, CallerPc>,
    control: ControlPc,
    sent: seq<Entry>,
    taken: seq<Entry>,
    fates: seq<Fate>,
    starts: nat,
    stops: nat,
    mark: StopMark,
    emptyAt: nat,
    deinitFailed: bool)

  function Initial(capacity: nat): World {
    World(capacity, false, Deinit, [], None, map[], 0, map[], Outside, [], [], [], 0, 0, StopMark(0, 0, Dying), 0,
          false)
  }

  datatype Step =
    | Call(caller: nat, id: nat)
    | CallerMoves(caller: nat)
    | Stop(caller: nat)
    | WorkerMoves(worker: nat)
    | InitCalled
    | StartCalled
    | DeinitCalled
    | ControlMoves(ok: bool)

  predicate Enabled(s: World, step: Step) {
    match step
    case Call(c, _) => c !in s.callers
    case CallerMoves(c) => c in s.callers
    case Stop(c) => c !in s.callers
    case WorkerMoves(w) => w in s.workers
    case InitCalled => s.control == Outside
    case StartCalled => s.control == Outside
    case DeinitCalled => s.control == Outside
    case ControlMoves(_) => s.control != Outside
  }

  /* ---------- Shared operations ---------- */

  /** `osal_queue_send` without waiting. */
  function Send(s: World, e: Entry): World {
    if |s.queue| < s.capacity then s.(queue := s.queue + [e], sent := s.sent + [e]) else s
  }

  function Take(s: World, fate: Fate): World
    requires s.queue != []
  {
    s.(queue := s.queue[1..], taken := s.taken + [s.queue[0]], fates := s.fates + [fate])
  }

  predicate GateOpen(s: World) {
    s.handle && s.state != Parked
  }

  /** The worker that start created last; older ones can only be dying. */
  function Pc(s: World): WorkerPc {
    if s.nextWorker > 0 && s.nextWorker - 1 in s.workers then s.workers[s.nextWorker - 1] else Dying
  }

  /** The exchange of a stop; its winner owes the wake task. */
  function Exchange(s: World): World {
    if s.state == Running then
      s.(state := StopRequested, stops := s.stops + 1, mark := StopMark(|s.sent|, |s.taken|, Pc(s)))
    else s
  }

  /* ---------- Producers and stop callers ---------- */

  function MoveCaller(s: World, c: nat): World
    requires c in s.callers
  {
    match s.callers[c]
    case AtGate(e) => if GateOpen(s) then s.(callers := s.callers[c := PastGate(e)]) else s.(callers := s.callers - {c})
    case PastGate(e) => Send(s.(callers := s.callers - {c}), e)
  }

  function StopBy(s: World, c: nat): World {
    var n := Exchange(s);
    if s.state == Running then n.(callers := n.callers[c := AtGate(Wake(s.stops))]) else n
  }

  /* ---------- The worker ---------- */

  function Receive(s: World, w: nat): World {
    if s.queue != [] then Take(s, Executed).(workers := s.workers[w := Executing(s.queue[0])])
    else s.(workers := s.workers[w := LoopTest], emptyAt := |s.sent|)
  }

  function MoveWorker(s: World, w: nat): World
    requires w in s.workers
  {
    match s.workers[w]
    case Starting => s.(task := Some(w), workers := s.workers[w := LoopTest])
    case LoopTest => s.(workers := s.workers[w := if s.state == StopRequested then Clearing else Receiving])
    case Receiving => Receive(s, w)
    case Executing(_) => s.(workers := s.workers[w := Polling])
    case Polling => Receive(s, w)
    case Clearing => s.(task := None, workers := s.workers[w := Finishing])
    case Finishing => s.(state := InitDone, workers := s.workers[w := Dying])
    case Dying => s.(workers := s.workers - {w})
  }

  /* ---------- The control thread ---------- */

  function BeginInit(s: World): World {
    match s.state
    case Deinit => s.(control := InitCreate)
    case Parked => s.(control := InitOpen)
    case InitDone => s.(control := InitFlush)
    case _ => s
  }

  function BeginStart(s: World): World {
    if s.state == InitDone then s.(control := StartCreate) else s
  }

  function BeginDeinit(s: World): World {
    s.(control := if s.state != StopRequested then DeinitStop else DeinitWait)
  }

  /** One receive of `__flush_work_queue`. */
  function Flush(s: World, after: ControlPc): World {
    if s.queue != [] then Take(s, Discarded) else s.(control := after)
  }

  function MoveControl(s: World, ok: bool): World {
    match s.control
    case Outside => s
    case InitCreate => if ok then s.(handle := true, control := InitOpen) else s.(control := Outside)
    case InitOpen => s.(state := InitDone, control := InitFlush)
    case InitFlush => Flush(s, Outside)
    case StartCreate =>
      if ok then
        s.(workers := s.workers[s.nextWorker := Starting], nextWorker := s.nextWorker + 1, control := StartStore)
      else s.(control := Outside)
    case StartStore => s.(state := Running, starts := s.starts + 1, control := Outside)
    case DeinitStop =>
      var n := Exchange(s);
      n.(control := if s.state == Running then DeinitGate(Wake(s.stops)) else DeinitWait)
    case DeinitGate(e) => s.(control := if GateOpen(s) then DeinitSend(e) else DeinitWait)
    case DeinitSend(e) => Send(s.(control := DeinitWait), e)
    case DeinitWait => if s.state == StopRequested then s else s.(control := DeinitCheck)
    case DeinitCheck =>
      if s.state == Deinit || s.state == Parked then s.(control := Outside)
      else if s.state != InitDone then s.(control := Outside, deinitFailed := true)
      else s.(control := DeinitFlush)
    case DeinitFlush => Flush(s, DeinitPark)
    case DeinitPark => s.(state := Parked, control := Outside)
  }

  function Next(s: World, step: Step): World
    requires Enabled(s, step)
  {
    match step
    case Call(c, id) => s.(callers := s.callers[c := AtGate(Task(id))])
    case CallerMoves(c) => MoveCaller(s, c)
    case Stop(c) => StopBy(s, c)
    case WorkerMoves(w) => MoveWorker(s, w)
    case InitCalled => BeginInit(s)
    case StartCalled => BeginStart(s)
    case DeinitCalled => BeginDeinit(s)
    case ControlMoves(ok) => MoveControl(s, ok)
  }

  ghost predicate IsRun(ss: seq<World>, steps: seq<Step>) {
    && |ss| == |steps| + 1
    && (exists capacity :: ss[0] == Initial(capacity))
    && forall i | 0 <= i < |steps| :: Enabled(ss[i], steps[i]) && ss[i + 1] == Next(ss[i], steps[i])
  }

  /* ---------- The invariant ---------- */

  /** Only the worker created last can be anything but dying. */
  ghost predicate OneWorker(s: World) {
    forall w | w in s.workers :: w < s.nextWorker && (w + 1 != s.nextWorker ==> s.workers[w].Dying?)
  }

  predicate Exiting(pc: WorkerPc) {
    pc == Clearing || pc == Finishing
  }

  /** The worker will test the state before it looks at the queue again. */
  predicate BeforeTest(pc: WorkerPc) {
    pc == Starting || pc == LoopTest
  }

  /** Which worker there is in which state of the queue; start has created one before it stores RUNNING. */
  ghost predicate WorkerMatches(s: World) {
    if s.control == StartStore then s.state == InitDone && Pc(s) != Dying && !Exiting(Pc(s))
    else
      match s.state
      case Running => Pc(s) != Dying && !Exiting(Pc(s))
      case StopRequested => Pc(s) != Dying
      case _ => Pc(s) == Dying
  }

  /** The state the control thread can rely on at each of its steps. */
  ghost predicate ControlMatches(s: World) {
    match s.control
    case Outside => true
    case InitCreate => s.state == Deinit
    case InitOpen => s.handle && (s.state == Deinit || s.state == Parked)
    case InitFlush => s.state == InitDone
    case StartCreate => s.state == InitDone
    case StartStore => s.state == InitDone
    case DeinitStop => true
    case DeinitGate(_) => s.state == StopRequested || s.state == InitDone
    case DeinitSend(_) => s.state == StopRequested || s.state == InitDone
    case DeinitWait => s.state != Running
    case DeinitCheck => s.state != Running && s.state != StopRequested
    case DeinitFlush => s.state == InitDone
    case DeinitPark => s.state == InitDone
  }

  /** No handle, no traffic. */
  ghost predicate HandleMatches(s: World) {
    && (s.state != Deinit ==> s.handle)
    && (s.state == Deinit && s.control != InitOpen ==> !s.handle)
    && (!s.handle ==> s.sent == [] && forall c | c in s.callers :: s.callers[c].AtGate?)
  }

  /** The published task handle is the worker between its first and its last store. */
  ghost predicate TaskMatches(s: World) {
    s.task == if Pc(s) == Dying || Pc(s) == Starting || Pc(s) == Finishing then None else Some(s.nextWorker - 1)
  }

  /** What was sent is what was taken, followed by what is queued. */
  ghost predicate FifoMatches(s: World) {
    && s.sent == s.taken + s.queue
    && |s.fates| == |s.taken|
    && |s.queue| <= s.capacity
    && s.emptyAt <= |s.taken|
  }

  /** Every RUNNING store is ended by at most one exchange. */
  ghost predicate StopsMatch(s: World) {
    s.stops + (if s.state == Running then 1 else 0) == s.starts
  }

  /** After the exchange the worker still has a receive ahead of it, or it had none when the exchange came. */
  ghost predicate MarkMatches(s: World) {
    && s.mark.sent <= |s.sent| && s.mark.taken <= |s.taken|
    && (s.state == StopRequested ==>
          && s.mark.taken <= s.mark.sent
          && (forall i | s.mark.taken <= i < |s.fates| :: s.fates[i] == Executed)
          && (if BeforeTest(s.mark.pc) then
                (BeforeTest(Pc(s)) || Exiting(Pc(s))) && |s.taken| == s.mark.taken
              else
                BeforeTest(Pc(s)) || Exiting(Pc(s)) ==> Pc(s) != Starting && s.mark.sent <= |s.taken|))
  }

  ghost predicate Inv(s: World) {
    && OneWorker(s) && WorkerMatches(s) && ControlMatches(s) && HandleMatches(s) && TaskMatches(s)
    && FifoMatches(s) && StopsMatch(s) && MarkMatches(s) && !s.deinitFailed
  }

  lemma SendKeeps(s: World, e: Entry)
    requires Inv(s) && s.handle
    ensures Inv(Send(s, e))
  {
  }

  lemma CallerKeeps(s: World, c: nat)
    requires Inv(s) && c in s.callers
    ensures Inv(MoveCaller(s, c))
  {
    match s.callers[c]
    case AtGate(e) =>
    case PastGate(e) => SendKeeps(s.(callers := s.callers - {c}), e);
  }

  lemma ExchangeKeeps(s: World, c: nat)
    requires Inv(s)
    ensures Inv(StopBy(s, c))
  {
  }

  lemma WorkerKeeps(s: World, w: nat)
    requires Inv(s) && w in s.workers
    ensures Inv(MoveWorker(s, w))
  {
    hide Receive;
    match s.workers[w]
    case Starting => LoopStepKeeps(s, w);
    case LoopTest => LoopStepKeeps(s, w);
    case Receiving => ReceiveKeeps(s, w);
    case Polling => ReceiveKeeps(s, w);
    case _ =>
      assert s.workers[w].Dying? || w + 1 == s.nextWorker;
  }

  lemma LoopStepKeeps(s: World, w: nat)
    requires Inv(s) && w in s.workers && BeforeTest(s.workers[w])
    ensures Inv(MoveWorker(s, w))
  {
    hide Receive;
    assert w + 1 == s.nextWorker;
  }

  lemma ReceiveKeeps(s: World, w: nat)
    requires Inv(s) && w in s.workers && (s.workers[w] == Receiving || s.workers[w] == Polling)
    ensures Inv(Receive(s, w))
  {
    assert w + 1 == s.nextWorker && Pc(s) == s.workers[w];
    assert |s.sent| == |s.taken| + |s.queue|;
    if s.queue == [] {
      EmptyReceiveKeeps(s, w);
    } else {
      EntryReceiveKeeps(s, w);
    }
  }

  lemma EmptyReceiveKeeps(s: World, w: nat)
    requires Inv(s) && w in s.workers && w + 1 == s.nextWorker && s.queue == [] && |s.taken| == |s.sent|
    requires Pc(s) == Receiving || Pc(s) == Polling
    ensures Inv(s.(workers := s.workers[w := LoopTest], emptyAt := |s.sent|))
  {
    var n := s.(workers := s.workers[w := LoopTest], emptyAt := |s.sent|);
    assert Pc(n) == LoopTest;
  }

  lemma EntryReceiveKeeps(s: World, w: nat)
    requires Inv(s) && w in s.workers && w + 1 == s.nextWorker && s.queue != []
    requires Pc(s) == Receiving || Pc(s) == Polling
    ensures Inv(Take(s, Executed).(workers := s.workers[w := Executing(s.queue[0])]))
  {
    TakeKeepsFifo(s, Executed);
    var n := Take(s, Executed).(workers := s.workers[w := Executing(s.queue[0])]);
    assert Pc(n).Executing?;
  }

  lemma TakeKeepsFifo(s: World, fate: Fate)
    requires FifoMatches(s) && s.queue != []
    ensures FifoMatches(Take(s, fate))
  {
  }

  lemma FlushKeeps(s: World, after: ControlPc)
    requires Inv(s) && s.state == InitDone && s.control != StartStore
    requires after == Outside || after == DeinitPark
    ensures Inv(Flush(s, after))
  {
    if s.queue != [] {
      TakeKeepsFifo(s, Discarded);
    }
  }

  lemma InitStepKeeps(s: World, ok: bool)
    requires Inv(s) && (s.control == InitCreate || s.control == InitOpen || s.control == InitFlush)
    ensures Inv(MoveControl(s, ok))
  {
    if s.control == InitFlush {
      FlushKeeps(s, Outside);
    }
  }

  lemma StartStepKeeps(s: World, ok: bool)
    requires Inv(s) && (s.control == StartCreate || s.control == StartStore)
    ensures Inv(MoveControl(s, ok))
  {
  }

  lemma DeinitStopKeeps(s: World, ok: bool)
    requires Inv(s) && s.control == DeinitStop
    ensures Inv(MoveControl(s, ok))
  {
  }

  lemma DeinitWakeKeeps(s: World, ok: bool)
    requires Inv(s) && (s.control.DeinitGate? || s.control.DeinitSend?)
    ensures Inv(MoveControl(s, ok))
  {
    if s.control.DeinitSend? {
      SendKeeps(s.(control := DeinitWait), s.control.wake);
    }
  }

  lemma DeinitParkKeeps(s: World, ok: bool)
    requires Inv(s)
    requires s.control == DeinitWait || s.control == DeinitCheck || s.control == DeinitFlush || s.control == DeinitPark
    ensures Inv(MoveControl(s, ok))
  {
    if s.control == DeinitFlush {
      FlushKeeps(s, DeinitPark);
    }
  }

  lemma ControlKeeps(s: World, ok: bool)
    requires Inv(s) && s.control != Outside
    ensures Inv(MoveControl(s, ok))
  {
    hide Inv, MoveControl;
    match s.control
    case InitCreate => InitStepKeeps(s, ok);
    case InitOpen => InitStepKeeps(s, ok);
    case InitFlush => InitStepKeeps(s, ok);
    case StartCreate => StartStepKeeps(s, ok);
    case StartStore => StartStepKeeps(s, ok);
    case DeinitStop => DeinitStopKeeps(s, ok);
    case DeinitGate(_) => DeinitWakeKeeps(s, ok);
    case DeinitSend(_) => DeinitWakeKeeps(s, ok);
    case DeinitWait => DeinitParkKeeps(s, ok);
    case DeinitCheck => DeinitParkKeeps(s, ok);
    case DeinitFlush => DeinitParkKeeps(s, ok);
    case DeinitPark => DeinitParkKeeps(s, ok);
  }

  lemma NextKeeps(s: World, step: Step)
    requires Inv(s) && Enabled(s, step)
    ensures Inv(Next(s, step))
  {
    match step
    case CallerMoves(c) => CallerKeeps(s, c);
    case Stop(c) => ExchangeKeeps(s, c);
    case WorkerMoves(w) => WorkerKeeps(s, w);
    case ControlMoves(ok) => ControlKeeps(s, ok);
    case _ =>
  }

  lemma {:induction false} InvOverRuns(ss: seq<World>, steps: seq<Step>, k: nat)
    requires IsRun(ss, steps) && k < |ss|
    ensures Inv(ss[k])
    decreases k
  {
    if k == 0 {
      var capacity :| ss[0] == Initial(capacity);
    } else {
      InvOverRuns(ss, steps, k - 1);
      NextKeeps(ss[k - 1], steps[k - 1]);
    }
  }

  /* ---------- Safety under all interleavings ---------- */

  /** At most one worker task touches the queue; there is none while the queue is closed or being flushed. */
  lemma WorkerIsAlone(ss: seq<World>, steps: seq<Step>, k: nat)
    requires IsRun(ss, steps) && k < |ss|
    ensures forall v, w | v in ss[k].workers && w in ss[k].workers ::
              ss[k].workers[v].Dying? || ss[k].workers[w].Dying? || v == w
    ensures forall w | w in ss[k].workers :: ss[k].workers[w].Dying? ||
              !(|| ss[k].state == Deinit || ss[k].state == Parked
                || ss[k].control == InitFlush || ss[k].control == DeinitFlush)
  {
    InvOverRuns(ss, steps, k);
    var s := ss[k];
    forall v, w | v in s.workers && w in s.workers && !s.workers[v].Dying? && !s.workers[w].Dying? ensures v == w {
      assert v + 1 == s.nextWorker && w + 1 == s.nextWorker;
    }
    forall w | w in s.workers && !s.workers[w].Dying? ensures Pc(s) == s.workers[w] {
      assert w + 1 == s.nextWorker;
    }
  }

  /** `esp_rmaker_work_queue_is_current_task` answers yes to every work function, and to nobody else. */
  lemma CurrentTaskIsWorker(ss: seq<World>, steps: seq<Step>, k: nat, w: nat)
    requires IsRun(ss, steps) && k < |ss| && w in ss[k].workers
    ensures ss[k].workers[w].Executing? ==> ss[k].task == Some(w)
    ensures ss[k].task == Some(w) ==> !ss[k].workers[w].Dying?
  {
    InvOverRuns(ss, steps, k);
    assert ss[k].workers[w].Dying? || w + 1 == ss[k].nextWorker;
  }

  /** A deinit that gets to its end parks the queue; it never finds the worker still running. */
  lemma DeinitNeverFails(ss: seq<World>, steps: seq<Step>, k: nat)
    requires IsRun(ss, steps) && k < |ss|
    ensures !ss[k].deinitFailed
  {
    InvOverRuns(ss, steps, k);
  }

  /** What a step may do to the history: it only ever grows. */
  ghost predicate Grows(s: World, n: World) {
    && s.sent <= n.sent && s.taken <= n.taken && s.fates <= n.fates
    && (s.handle ==> n.handle) && s.stops <= n.stops && s.starts <= n.starts
    && (n.stops == s.stops ==> n.mark == s.mark)
  }

  lemma NextGrows(s: World, step: Step)
    requires Enabled(s, step)
    ensures Grows(s, Next(s, step))
  {
    hide MoveControl, Pc;
    match step
    case ControlMoves(ok) => ControlGrows(s, ok);
    case WorkerMoves(w) => WorkerGrows(s, w);
    case _ =>
  }

  lemma WorkerGrows(s: World, w: nat)
    requires w in s.workers
    ensures Grows(s, MoveWorker(s, w))
  {
    if s.queue != [] {
      TakeGrows(s, Executed);
    }
    hide Take;
  }

  lemma TakeGrows(s: World, fate: Fate)
    requires s.queue != []
    ensures Grows(s, Take(s, fate))
  {
  }

  lemma ControlGrows(s: World, ok: bool)
    ensures Grows(s, MoveControl(s, ok))
  {
    hide Take;
    if s.queue != [] {
      TakeGrows(s, Discarded);
    }
    match s.control
    case InitFlush =>
    case DeinitFlush =>
    case DeinitStop =>
    case DeinitSend(e) =>
    case _ =>
  }

  lemma {:induction false} RunGrows(ss: seq<World>, steps: seq<Step>, i: nat, j: nat)
    requires IsRun(ss, steps) && i <= j < |ss|
    ensures Grows(ss[i], ss[j])
    decreases j
  {
    if i < j {
      RunGrows(ss, steps, i, j - 1);
      NextGrows(ss[j - 1], steps[j - 1]);
      hide Next, Enabled;
    }
  }

  /** Conservation: at every moment the entries sent so far are those taken out, each executed or discarded for
      good, followed by those still queued; the order of sending is kept and the handle, once there, stays. */
  lemma EntriesConserved(ss: seq<World>, steps: seq<Step>, i: nat, j: nat)
    requires IsRun(ss, steps) && i <= j < |ss|
    ensures ss[j].sent == ss[j].taken + ss[j].queue && |ss[j].fates| == |ss[j].taken|
    ensures ss[i].sent <= ss[j].sent && ss[i].taken <= ss[j].taken && ss[i].fates <= ss[j].fates
    ensures ss[i].handle ==> ss[j].handle
    ensures |ss[j].queue| <= ss[j].capacity
  {
    InvOverRuns(ss, steps, j);
    RunGrows(ss, steps, i, j);
  }

  /** The flush of an init call has come to its end at step `k`. */
  ghost predicate InitFlushEnds(ss: seq<World>, steps: seq<Step>, k: nat)
    requires |ss| == |steps| + 1
  {
    k < |steps| && steps[k].ControlMoves? && ss[k].control == InitFlush && ss[k + 1].control == Outside
  }

  lemma FlushEndsEmpty(s: World, ok: bool)
    requires Inv(s) && s.control == InitFlush && MoveControl(s, ok).control == Outside
    ensures |s.taken| == |s.sent|
  {
    assert |s.sent| == |s.taken| + |s.queue|;
  }

  /** Lifecycle isolation: whatever is taken out of the queue, and so whatever is executed, after the flush of an
      init has ended was sent after that flush ended, through any later starts, stops and deinits. */
  lemma LifecycleIsolation(ss: seq<World>, steps: seq<Step>, k: nat, j: nat)
    requires IsRun(ss, steps) && InitFlushEnds(ss, steps, k) && k <= j < |ss|
    ensures |ss[k].sent| <= |ss[j].taken|
    ensures forall w | w in ss[k].workers :: ss[k].workers[w].Dying?
  {
    InvOverRuns(ss, steps, k);
    RunGrows(ss, steps, k, j);
    FlushEndsEmpty(ss[k], steps[k].ok);
    WorkerIsAlone(ss, steps, k);
  }

  /* ---------- Stopping ---------- */

  /** Step `k` is an exchange that succeeds: a stop call wins. */
  ghost predicate StopWins(ss: seq<World>, k: nat) {
    k + 1 < |ss| && ss[k + 1].stops != ss[k].stops
  }

  lemma ExchangeMarks(s: World, step: Step)
    requires Enabled(s, step) && Next(s, step).stops != s.stops
    ensures s.state == Running && Next(s, step).state == StopRequested && Next(s, step).stops == s.stops + 1
    ensures Next(s, step).mark == StopMark(|s.sent|, |s.taken|, Pc(s))
  {
    hide Pc, MoveControl;
    match step
    case ControlMoves(ok) => ControlExchangeMarks(s, ok);
    case _ =>
  }

  lemma ControlExchangeMarks(s: World, ok: bool)
    ensures s.control != DeinitStop ==> MoveControl(s, ok).stops == s.stops
    ensures s.control == DeinitStop ==>
              var n := MoveControl(s, ok);
              if s.state == Running then
                n.state == StopRequested && n.stops == s.stops + 1 && n.mark == StopMark(|s.sent|, |s.taken|, Pc(s))
              else n.stops == s.stops
  {
    hide Pc;
  }

  /** The worker's last store: the queue is stopped. */
  ghost predicate Stopped(ss: seq<World>, k: nat) {
    k + 1 < |ss| && ss[k].state == StopRequested && ss[k + 1].state == InitDone
  }

  lemma StoppedByWorker(s: World, step: Step)
    requires Inv(s) && Enabled(s, step) && s.state == StopRequested && Next(s, step).state == InitDone
    ensures Pc(s) == Finishing && Next(s, step).taken == s.taken && Next(s, step).fates == s.fates
  {
    match step
    case ControlMoves(ok) => ControlKeepsStop(s, ok);
    case WorkerMoves(w) => assert s.workers[w].Dying? || w + 1 == s.nextWorker;
    case _ =>
  }

  lemma ControlKeepsStop(s: World, ok: bool)
    requires Inv(s) && s.state == StopRequested
    ensures MoveControl(s, ok).state == StopRequested
  {
  }

  /** Drain on stop, exactly: after a stop call wins at step `j`, every entry sent before it has been taken out,
      and executed, by the time the worker has stopped at step `k`, if and only if the stop did not find the worker
      between its creation or an empty receive and the loop test with something in the queue already. A stop issued by
      a work function always drains, and so does everything sent up to the worker's last empty receive. */
  lemma DrainOnStop(ss: seq<World>, steps: seq<Step>, j: nat, k: nat)
    requires IsRun(ss, steps) && StopWins(ss, j) && j < k && Stopped(ss, k)
    requires ss[k].stops == ss[j + 1].stops
    ensures |ss[j].sent| <= |ss[k].taken| <==> !BeforeTest(Pc(ss[j])) || ss[j].queue == []
    ensures Pc(ss[j]).Executing? ==> |ss[j].sent| <= |ss[k].taken|
    ensures forall i | |ss[j].taken| <= i < |ss[k].fates| :: ss[k].fates[i] == Executed
    ensures |ss[k].fates| == |ss[k].taken|
    ensures ss[k].emptyAt <= |ss[k].taken|
  {
    InvOverRuns(ss, steps, j);
    InvOverRuns(ss, steps, k);
    assert ss[j + 1] == Next(ss[j], steps[j]);
    ExchangeMarks(ss[j], steps[j]);
    RunGrows(ss, steps, j + 1, k);
    assert ss[k + 1] == Next(ss[k], steps[k]);
    StoppedByWorker(ss[k], steps[k]);
    assert |ss[j].sent| == |ss[j].taken| + |ss[j].queue|;
  }

  /* ---------- One wake task per stop ---------- */

  function InControl(s: World): Option<Entry> {
    match s.control
    case DeinitGate(e) => Some(e)
    case DeinitSend(e) => Some(e)
    case _ => None
  }

  ghost predicate NoCaller(s: World, e: Entry) {
    forall c | c in s.callers :: s.callers[c].entry != e
  }

  ghost predicate OneCaller(s: World, e: Entry) {
    forall c, d | c in s.callers && d in s.callers && s.callers[c].entry == e && s.callers[d].entry == e :: c == d
  }

  ghost predicate SentOnce(sent: seq<Entry>, e: Entry) {
    forall i, j | 0 <= i < j < |sent| :: sent[i] != e || sent[j] != e
  }

  /** The wake task of stop `n` does not exist before that stop has won, and is then in one place only: owed by one
      caller, owed by deinit, or sent, once. */
  ghost predicate WakeOnce(s: World, n: nat) {
    var e := Wake(n);
    && OneCaller(s, e) && SentOnce(s.sent, e)
    && (n >= s.stops ==> e !in s.sent && NoCaller(s, e) && InControl(s) != Some(e))
    && (e in s.sent ==> NoCaller(s, e) && InControl(s) != Some(e))
    && (InControl(s) == Some(e) ==> NoCaller(s, e))
  }

  lemma SendWakesOnce(s: World, e: Entry, n: nat)
    requires WakeOnce(s, n)
    requires e == Wake(n) ==> n < s.stops && e !in s.sent && NoCaller(s, e) && InControl(s) != Some(e)
    ensures WakeOnce(Send(s, e), n)
  {
  }

  lemma CallerWakesOnce(s: World, c: nat, n: nat)
    requires WakeOnce(s, n) && c in s.callers
    ensures WakeOnce(MoveCaller(s, c), n)
  {
    match s.callers[c]
    case AtGate(e) =>
    case PastGate(e) => SendWakesOnce(s.(callers := s.callers - {c}), e, n);
  }

  lemma ExchangeWakesOnce(s: World, n: nat)
    requires WakeOnce(s, n)
    ensures var m := Exchange(s);
            && m.sent == s.sent && m.callers == s.callers && m.control == s.control && s.stops <= m.stops
            && (s.state == Running && n == s.stops ==>
                  n < m.stops && Wake(n) !in m.sent && NoCaller(m, Wake(n)) && InControl(m) != Some(Wake(n)))
  {
  }

  lemma StopWakesOnce(s: World, c: nat, n: nat)
    requires WakeOnce(s, n) && c !in s.callers
    ensures WakeOnce(StopBy(s, c), n)
  {
    hide Exchange;
    ExchangeWakesOnce(s, n);
  }

  lemma DeinitStopWakesOnce(s: World, n: nat)
    requires WakeOnce(s, n) && s.control == DeinitStop
    ensures WakeOnce(Exchange(s).(control := if s.state == Running then DeinitGate(Wake(s.stops)) else DeinitWait), n)
  {
    hide Exchange;
    ExchangeWakesOnce(s, n);
  }

  /** A step that moves the control thread without a wake task in hand. */
  lemma PlainWakesOnce(s: World, m: World, n: nat)
    requires WakeOnce(s, n) && m.sent == s.sent && m.callers == s.callers && m.stops == s.stops
    requires InControl(m).None? || InControl(m) == InControl(s)
    ensures WakeOnce(m, n)
  {
  }

  lemma ControlWakesOnce(s: World, ok: bool, n: nat)
    requires WakeOnce(s, n)
    ensures WakeOnce(MoveControl(s, ok), n)
  {
    hide WakeOnce, Send, Exchange;
    match s.control
    case DeinitSend(e) => DeinitSendWakesOnce(s, n);
    case DeinitStop => DeinitStopWakesOnce(s, n);
    case _ => PlainWakesOnce(s, MoveControl(s, ok), n);
  }

  lemma DeinitSendWakesOnce(s: World, n: nat)
    requires WakeOnce(s, n) && s.control.DeinitSend?
    ensures WakeOnce(Send(s.(control := DeinitWait), s.control.wake), n)
  {
    SendWakesOnce(s.(control := DeinitWait), s.control.wake, n);
  }

  lemma NextWakesOnce(s: World, step: Step, n: nat)
    requires WakeOnce(s, n) && Enabled(s, step)
    ensures WakeOnce(Next(s, step), n)
  {
    hide WakeOnce, StopBy, MoveCaller, MoveControl;
    match step
    case Call(c, id) => CallWakesOnce(s, c, id, n);
    case CallerMoves(c) => CallerWakesOnce(s, c, n);
    case Stop(c) => StopWakesOnce(s, c, n);
    case ControlMoves(ok) => ControlWakesOnce(s, ok, n);
    case _ => PlainWakesOnce(s, Next(s, step), n);
  }

  lemma CallWakesOnce(s: World, c: nat, id: nat, n: nat)
    requires WakeOnce(s, n) && c !in s.callers
    ensures WakeOnce(s.(callers := s.callers[c := AtGate(Task(id))]), n)
  {
  }

  lemma {:induction false} WakesOverRuns(ss: seq<World>, steps: seq<Step>, k: nat, n: nat)
    requires IsRun(ss, steps) && k < |ss|
    ensures WakeOnce(ss[k], n)
    decreases k
  {
    if k == 0 {
      var capacity :| ss[0] == Initial(capacity);
    } else {
      WakesOverRuns(ss, steps, k - 1, n);
      NextWakesOnce(ss[k - 1], steps[k - 1], n);
    }
  }

  /** However many stop calls race, each time the queue runs at most one of them wins, and the wake task of a win
      is sent at most once. */
  lemma OneWakePerStop(ss: seq<World>, steps: seq<Step>, k: nat, n: nat)
    requires IsRun(ss, steps) && k < |ss|
    ensures ss[k].stops <= ss[k].starts <= ss[k].stops + 1
    ensures ss[k].starts == ss[k].stops + 1 <==> ss[k].state == Running
    ensures SentOnce(ss[k].sent, Wake(n)) && (Wake(n) in ss[k].sent ==> n < ss[k].stops)
  {
    InvOverRuns(ss, steps, k);
    WakesOverRuns(ss, steps, k, n);
  }

  /* ---------- The window in which a stop strands work ---------- */

  /* ---------- What a call is answered ---------- */

  /** A call of add_task at its gate is refused exactly when no queue was ever created or the queue is parked: the call
      is over and nothing is sent. */
  lemma AddTaskGate(ss: seq<World>, steps: seq<Step>, k: nat, c: nat, e: Entry)
    requires IsRun(ss, steps) && k < |steps| && steps[k] == CallerMoves(c)
    requires c in ss[k].callers && ss[k].callers[c] == AtGate(e)
    ensures c !in ss[k + 1].callers <==> !ss[k].handle || ss[k].state == Parked
    ensures c in ss[k + 1].callers ==> ss[k + 1].callers[c] == PastGate(e)
    ensures ss[k + 1].sent == ss[k].sent && ss[k + 1].queue == ss[k].queue
  {
  }

  /** A call past the gate sends its entry exactly when the queue has room, and is over. */
  lemma AddTaskSends(ss: seq<World>, steps: seq<Step>, k: nat, c: nat, e: Entry)
    requires IsRun(ss, steps) && k < |steps| && steps[k] == CallerMoves(c)
    requires c in ss[k].callers && ss[k].callers[c] == PastGate(e)
    ensures c !in ss[k + 1].callers
    ensures ss[k + 1].sent == ss[k].sent + if |ss[k].queue| < ss[k].capacity then [e] else []
    ensures ss[k + 1].queue == ss[k].queue + if |ss[k].queue| < ss[k].capacity then [e] else []
  {
  }

  /** Some call was past its gate with this entry. */
  ghost predicate IsPast(s: World, e: Entry) {
    exists c :: c in s.callers && s.callers[c] == PastGate(e)
  }

  /** While the queue stays parked nothing is past the gate but what was, and only that can be sent. */
  ghost predicate OnlyOld(s: World, n: World) {
    && (forall c, e | c in n.callers && n.callers[c] == PastGate(e) :: c in s.callers && s.callers[c] == PastGate(e))
    && s.sent <= n.sent
    && forall i | |s.sent| <= i < |n.sent| :: IsPast(s, n.sent[i])
  }

  lemma WorkerSendsNothing(s: World, w: nat)
    requires w in s.workers
    ensures MoveWorker(s, w).sent == s.sent && MoveWorker(s, w).callers == s.callers
  {
  }

  lemma ControlSendsNothing(s: World, ok: bool)
    requires s.state == Parked && ControlMatches(s)
    ensures MoveControl(s, ok).sent == s.sent && MoveControl(s, ok).callers == s.callers
  {
    hide Send, Take;
    match s.control
    case InitOpen =>
    case DeinitStop =>
    case DeinitWait =>
    case DeinitCheck =>
    case _ =>
  }

  lemma OldStays(s: World, n: World, m: World)
    requires OnlyOld(s, n) && m.sent == n.sent
    requires forall c, e | c in m.callers && m.callers[c] == PastGate(e) ::
               c in n.callers && n.callers[c] == PastGate(e)
    ensures OnlyOld(s, m)
  {
  }

  lemma ParkedCaller(s: World, n: World, c: nat)
    requires OnlyOld(s, n) && n.state == Parked && c in n.callers
    ensures OnlyOld(s, MoveCaller(n, c))
  {
    var m := MoveCaller(n, c);
    if n.callers[c].PastGate? {
      var e := n.callers[c].entry;
      assert s.callers[c] == PastGate(e);
      assert m.sent == n.sent || m.sent == n.sent + [e];
      forall i | |s.sent| <= i < |m.sent| ensures IsPast(s, m.sent[i]) {
        if i < |n.sent| {
          assert m.sent[i] == n.sent[i];
        } else {
          assert m.sent[i] == e;
        }
      }
    } else {
      OldStays(s, n, m);
    }
  }

  lemma ParkedKeepsOld(s: World, n: World, step: Step)
    requires OnlyOld(s, n) && n.state == Parked && ControlMatches(n) && Enabled(n, step)
    ensures OnlyOld(s, Next(n, step))
  {
    hide MoveWorker, MoveControl, MoveCaller, OnlyOld, ControlMatches;
    match step
    case CallerMoves(c) => ParkedCaller(s, n, c);
    case WorkerMoves(w) =>
      WorkerSendsNothing(n, w);
      OldStays(s, n, MoveWorker(n, w));
    case ControlMoves(ok) =>
      ControlSendsNothing(n, ok);
      OldStays(s, n, MoveControl(n, ok));
    case _ => OldStays(s, n, Next(n, step));
  }

  /** No work after deinit: from the moment the queue is parked until it is opened again, nothing is sent except by
      calls that were past their gate when it was parked. */
  lemma {:induction false} NoWorkAfterDeinit(ss: seq<World>, steps: seq<Step>, i: nat, j: nat)
    requires IsRun(ss, steps) && i <= j < |ss| && forall k | i <= k < j :: ss[k].state == Parked
    ensures OnlyOld(ss[i], ss[j])
    decreases j
  {
    if i < j {
      NoWorkAfterDeinit(ss, steps, i, j - 1);
      InvOverRuns(ss, steps, j - 1);
      assert ControlMatches(ss[j - 1]) && Enabled(ss[j - 1], steps[j - 1]);
      hide Next, Inv, OnlyOld, Enabled, ControlMatches;
      ParkedKeepsOld(ss[i], ss[j - 1], steps[j - 1]);
    }
  }

  /** An init call begins its work unless the queue is running or stopping, and returns with the queue open and
      empty, or because the queue could not be created. */
  lemma InitOpens(ss: seq<World>, steps: seq<Step>, k: nat)
    requires IsRun(ss, steps) && k < |steps|
    ensures steps[k].InitCalled? ==>
              (ss[k + 1].control == Outside <==> ss[k].state == Running || ss[k].state == StopRequested)
    ensures (ss[k].control.InitCreate? || ss[k].control.InitOpen? || ss[k].control.InitFlush?)
            && ss[k + 1].control == Outside ==>
              || (ss[k + 1].handle && ss[k + 1].state == InitDone && ss[k + 1].queue == [])
              || (steps[k] == ControlMoves(false) && !ss[k + 1].handle && ss[k + 1].state == Deinit)
  {
    InvOverRuns(ss, steps, k);
    assert ss[k + 1] == Next(ss[k], steps[k]);
  }

  /** A start call does something exactly when the queue is initialized and not running; it returns with the queue
      running and a worker on its way, or because the task could not be created. */
  lemma StartRuns(ss: seq<World>, steps: seq<Step>, k: nat)
    requires IsRun(ss, steps) && k < |steps|
    ensures steps[k].StartCalled? ==> (ss[k + 1].control == Outside <==> ss[k].state != InitDone)
    ensures (ss[k].control.StartCreate? || ss[k].control.StartStore?) && ss[k + 1].control == Outside ==>
              || (ss[k + 1].state == Running && ss[k + 1].starts == ss[k].starts + 1 && Pc(ss[k + 1]) != Dying)
              || (steps[k] == ControlMoves(false) && ss[k + 1].state == InitDone && ss[k + 1].workers == ss[k].workers)
  {
    InvOverRuns(ss, steps, k);
    InvOverRuns(ss, steps, k + 1);
    assert ss[k + 1] == Next(ss[k], steps[k]);
  }

  /** A deinit call always does something, and returns only with the queue parked, or never created. */
  lemma DeinitParks(ss: seq<World>, steps: seq<Step>, k: nat)
    requires IsRun(ss, steps) && k < |steps|
    ensures steps[k].DeinitCalled? ==> InDeinit(ss[k + 1].control)
    ensures InDeinit(ss[k].control) && ss[k + 1].control == Outside ==>
              ss[k + 1].state == Parked || ss[k + 1].state == Deinit
  {
    InvOverRuns(ss, steps, k);
    assert ss[k + 1] == Next(ss[k], steps[k]);
  }

  predicate InDeinit(pc: ControlPc) {
    || pc.DeinitStop? || pc.DeinitGate? || pc.DeinitSend? || pc.DeinitWait? || pc.DeinitCheck? || pc.DeinitFlush?
    || pc.DeinitPark?
  }

  /** Whoever wins a stop, a call or a deinit, is next at the gate with the wake task of that stop. */
  lemma WinnerWakes(ss: seq<World>, steps: seq<Step>, k: nat)
    requires IsRun(ss, steps) && k < |steps| && ss[k].state == Running && ss[k + 1].state == StopRequested
    ensures ss[k + 1].stops == ss[k].stops + 1
    ensures steps[k].Stop? || steps[k].ControlMoves?
    ensures steps[k].Stop? ==>
              steps[k].caller in ss[k + 1].callers && ss[k + 1].callers[steps[k].caller] == AtGate(Wake(ss[k].stops))
    ensures steps[k].ControlMoves? ==> ss[k + 1].control == DeinitGate(Wake(ss[k].stops))
  {
    assert ss[k + 1] == Next(ss[k], steps[k]);
    hide MoveWorker, MoveControl, MoveCaller, Exchange;
    match steps[k]
    case CallerMoves(c) => CallerKeepsState(ss[k], c);
    case WorkerMoves(w) => WorkerRequestsNoStop(ss[k], w);
    case ControlMoves(ok) => ControlStops(ss[k], ok);
    case Stop(c) => ExchangeStops(ss[k]);
    case _ =>
  }

  lemma CallerKeepsState(s: World, c: nat)
    requires c in s.callers
    ensures MoveCaller(s, c).state == s.state
  {
  }

  lemma WorkerRequestsNoStop(s: World, w: nat)
    requires w in s.workers && s.state == Running
    ensures MoveWorker(s, w).state != StopRequested
  {
  }

  lemma ExchangeStops(s: World)
    requires s.state == Running
    ensures var n := Exchange(s); n.state == StopRequested && n.stops == s.stops + 1 && n.callers == s.callers
  {
  }

  lemma ControlStops(s: World, ok: bool)
    requires s.state == Running && MoveControl(s, ok).state == StopRequested
    ensures var n := MoveControl(s, ok);
            n.stops == s.stops + 1 && n.control == DeinitGate(Wake(s.stops))
  {
    hide Exchange, Send, Take;
    ExchangeStops(s);
    match s.control
    case DeinitSend(e) => SendKeepsState(s.(control := DeinitWait), e);
    case InitFlush => FlushKeepsState(s, Outside);
    case DeinitFlush => FlushKeepsState(s, DeinitPark);
    case _ =>
  }

  lemma SendKeepsState(s: World, e: Entry)
    ensures Send(s, e).state == s.state
  {
  }

  lemma FlushKeepsState(s: World, after: ControlPc)
    ensures Flush(s, after).state == s.state
  {
  }

  /** How far a control call is from its end. */
  function Stage(pc: ControlPc): nat {
    match pc
    case Outside => 0
    case InitCreate => 3
    case InitOpen => 2
    case InitFlush => 1
    case StartCreate => 2
    case StartStore => 1
    case DeinitStop => 7
    case DeinitGate(_) => 6
    case DeinitSend(_) => 5
    case DeinitWait => 4
    case DeinitCheck => 3
    case DeinitFlush => 2
    case DeinitPark => 1
  }

  /** Every step of a control call brings it closer to its end, or empties the queue further; only a deinit that waits
      for a requested stop does not move. */
  lemma ControlEnds(ss: seq<World>, steps: seq<Step>, k: nat)
    requires IsRun(ss, steps) && k < |steps| && steps[k].ControlMoves?
    ensures var s, n := ss[k], ss[k + 1];
            if s.control == DeinitWait && s.state == StopRequested then n == s
            else Stage(n.control) < Stage(s.control) || (n.control == s.control && |n.queue| < |s.queue|)
  {
    InvOverRuns(ss, steps, k);
    ControlMovesOn(ss[k], steps[k].ok);
    hide Inv;
    assert ss[k + 1] == Next(ss[k], steps[k]);
  }

  lemma ControlMovesOn(s: World, ok: bool)
    requires Inv(s) && s.control != Outside
    ensures var n := MoveControl(s, ok);
            if s.control == DeinitWait && s.state == StopRequested then n == s
            else Stage(n.control) < Stage(s.control) || (n.control == s.control && |n.queue| < |s.queue|)
  {
    assert ControlMatches(s);
    hide Inv, ControlMatches, Exchange;
    ExchangeKeepsControl(s);
  }

  lemma ExchangeKeepsControl(s: World)
    ensures Exchange(s).control == s.control
  {
  }

  /** A deinit that wins the stop goes on to send its wake task, which is sent if the queue has room. */
  lemma DeinitWakes(ss: seq<World>, steps: seq<Step>, k: nat)
    requires IsRun(ss, steps) && k < |steps| && steps[k].ControlMoves?
    ensures ss[k].control.DeinitGate? ==>
              ss[k + 1].control == DeinitSend(ss[k].control.wake) && ss[k + 1].sent == ss[k].sent
    ensures ss[k].control.DeinitSend? ==>
              ss[k + 1].sent == ss[k].sent + if |ss[k].queue| < ss[k].capacity then [ss[k].control.wake] else []
  {
    InvOverRuns(ss, steps, k);
    assert ControlMatches(ss[k]) && HandleMatches(ss[k]);
    hide Inv;
    assert ss[k + 1] == Next(ss[k], steps[k]);
  }

  /** The worker publishes its handle, leaves its loop exactly when it finds a stop requested there, executes whatever
      it takes out, the oldest first, and on its way out takes its handle back before it gives the queue free. */
  lemma WorkerTurns(ss: seq<World>, steps: seq<Step>, k: nat, w: nat)
    requires IsRun(ss, steps) && k < |steps| && steps[k] == WorkerMoves(w) && w in ss[k].workers
    ensures ss[k].workers[w] == LoopTest ==>
              w in ss[k + 1].workers
              && (ss[k + 1].workers[w] == Clearing <==> ss[k].state == StopRequested)
              && (ss[k + 1].workers[w] == Receiving <==> ss[k].state != StopRequested)
    ensures (ss[k].workers[w] == Receiving || ss[k].workers[w] == Polling) ==>
              w in ss[k + 1].workers
              && (ss[k].queue != [] ==> ss[k + 1].workers[w] == Executing(ss[k].queue[0])
                                        && ss[k + 1].fates == ss[k].fates + [Executed])
              && (ss[k].queue == [] ==> ss[k + 1].workers[w] == LoopTest && ss[k + 1].taken == ss[k].taken)
    ensures ss[k].workers[w] == Starting ==>
              ss[k + 1].task == Some(w) && ss[k + 1].workers == ss[k].workers[w := LoopTest]
    ensures ss[k].workers[w].Executing? ==> ss[k + 1].workers == ss[k].workers[w := Polling]
    ensures ss[k].workers[w] == Clearing ==>
              ss[k + 1].task == None && ss[k + 1].workers == ss[k].workers[w := Finishing]
    ensures ss[k].workers[w] == Finishing ==>
              ss[k + 1].state == InitDone && ss[k + 1].workers == ss[k].workers[w := Dying]
    ensures ss[k].workers[w] == Dying ==> ss[k + 1].workers == ss[k].workers - {w}
  {
    assert ss[k + 1] == Next(ss[k], steps[k]);
  }

  lemma ExtendRun(ss: seq<World>, steps: seq<Step>, step: Step) returns (ss': seq<World>, steps': seq<Step>)
    requires IsRun(ss, steps) && Enabled(ss[|steps|], step)
    ensures ss' == ss + [Next(ss[|steps|], step)] && steps' == steps + [step] && IsRun(ss', steps')
  {
    ss', steps' := ss + [Next(ss[|steps|], step)], steps + [step];
    assert ss'[0] == ss[0];
  }

  /** The world after `n` steps of a run in which one worker has been started and nothing has been sent. */
  function Started(state: QueueState, pc: WorkerPc, control: ControlPc): World {
    World(8, true, state, [], if pc == Starting then None else Some(0), map[0 := pc], 1, map[], control, [], [], [],
          if state == InitDone then 0 else 1, 0, StopMark(0, 0, Dying), 0, false)
  }

  lemma RunsToInit() returns (ss: seq<World>, steps: seq<Step>)
    ensures IsRun(ss, steps) && ss[|steps|] == Initial(8).(handle := true, state := InitDone)
  {
    ss, steps := [Initial(8)], [];
    assert ss[0] == Initial(8);
    hide IsRun;
    ss, steps := ExtendRun(ss, steps, InitCalled);
    ss, steps := ExtendRun(ss, steps, ControlMoves(true));
    ss, steps := ExtendRun(ss, steps, ControlMoves(true));
    ss, steps := ExtendRun(ss, steps, ControlMoves(true));
  }

  lemma RunsToStart() returns (ss: seq<World>, steps: seq<Step>)
    ensures IsRun(ss, steps) && ss[|steps|] == Started(InitDone, Starting, StartStore)
  {
    ss, steps := RunsToInit();
    hide IsRun;
    ss, steps := ExtendRun(ss, steps, StartCalled);
    ss, steps := ExtendRun(ss, steps, ControlMoves(true));
  }

  lemma RunsToEmptyReceive() returns (ss: seq<World>, steps: seq<Step>)
    ensures IsRun(ss, steps) && ss[|steps|] == Started(Running, LoopTest, Outside)
  {
    ss, steps := RunsToStart();
    hide IsRun;
    ss, steps := ExtendRun(ss, steps, ControlMoves(true));
    ss, steps := ExtendRun(ss, steps, WorkerMoves(0));
    ss, steps := ExtendRun(ss, steps, WorkerMoves(0));
    ss, steps := ExtendRun(ss, steps, WorkerMoves(0));
  }

  lemma RunsToSend() returns (ss: seq<World>, steps: seq<Step>)
    ensures IsRun(ss, steps)
    ensures ss[|steps|] == Started(Running, LoopTest, Outside).(queue := [Task(7)], sent := [Task(7)])
  {
    ss, steps := RunsToEmptyReceive();
    hide IsRun;
    ss, steps := ExtendRun(ss, steps, Call(5, 7));
    ss, steps := ExtendRun(ss, steps, CallerMoves(5));
    ss, steps := ExtendRun(ss, steps, CallerMoves(5));
  }

  /** A stop by another thread between the empty receive and the loop test: the entry sent before it is still in
      the queue when the worker has stopped, although add_task accepted it. */
  lemma StopStrandsEntry() returns (ss: seq<World>, steps: seq<Step>, j: nat, k: nat)
    ensures IsRun(ss, steps) && StopWins(ss, j) && j < k && Stopped(ss, k) && ss[k].stops == ss[j + 1].stops
    ensures ss[j].sent == [Task(7)] && ss[k + 1].queue == [Task(7)] && ss[k + 1].taken == []
  {
    ss, steps := RunsToSend();
    hide IsRun;
    j := |steps|;
    ss, steps := ExtendRun(ss, steps, Stop(6));
    ss, steps := ExtendRun(ss, steps, WorkerMoves(0));
    ss, steps := ExtendRun(ss, steps, WorkerMoves(0));
    k := |steps|;
    ss, steps := ExtendRun(ss, steps, WorkerMoves(0));
  }
}
