/** The subscription to the jobs topics: the first subscribe in NETWORK_INIT, the connection events, the SUBACKs and
    the retries through the back-off scheduler and the work queue. */
module Subscription {
  /** `inFlight` subscribe requests have no SUBACK yet; `armed` is the back-off's scheduled task; `started` callbacks
      have been started by the timer and cannot be cancelled any more; `work` retries are in the work queue.
      History: `orphaned` says that the first subscribe call failed and no CONNECTED has come since; `lost` says that
      the scheduler refused a task. */
  datatype Link = Link(
    connected: bool,
    intended: bool,
    subscribed: bool,
    inFlight: nat,
    armed: bool,
    started: nat,
    work: nat,
    orphaned: bool,
    lost: bool)

  const FRESH := Link(false, false, false, 0, false, 0, 0, false, false)

  datatype Step =
    | NetworkInit(callOk: bool)
    | Connected(armOk: bool)
    | Disconnected(dropped: nat)
    | Suback(granted: bool, armOk: bool)
    | TimerExpires
    | CallbackRuns(enqueueOk: bool, armOk: bool)
    | WorkRuns(callOk: bool, armOk: bool)

  predicate Enabled(s: Link, step: Step) {
    match step
    case NetworkInit(_) => true
    case Connected(_) => !s.connected
    case Disconnected(dropped) => s.connected && dropped <= s.inFlight
    case Suback(_, _) => s.inFlight > 0
    case TimerExpires => s.armed
    case CallbackRuns(_, _) => s.started > 0
    case WorkRuns(_, _) => s.work > 0
  }

  /** `esp_rmaker_backoff_retry` and `esp_rmaker_backoff_fire`: their result is ignored. */
  function Arm(s: Link, ok: bool): Link {
    if ok then s.(armed := true) else s.(lost := true)
  }

  /** `mqtt_subscribe_jobs_topics`: the intent is recorded before the call. */
  function Subscribe(s: Link, callOk: bool): Link {
    if callOk then s.(intended := true, inFlight := s.inFlight + 1) else s.(intended := true)
  }

  function Next(s: Link, step: Step): Link
    requires Enabled(s, step)
  {
    match step
    case NetworkInit(callOk) => if s.intended then s else Subscribe(s, callOk).(orphaned := !callOk)
    case Connected(armOk) =>
      var n := s.(connected := true, orphaned := false);
      if s.intended && !s.subscribed then Arm(n, armOk) else n
    case Disconnected(dropped) =>
      s.(connected := false, subscribed := false, armed := false, inFlight := s.inFlight - dropped)
    case Suback(granted, armOk) =>
      var n := s.(inFlight := s.inFlight - 1);
      if granted then n.(subscribed := true, armed := false)
      else if s.intended then Arm(n, armOk)
      else n
    case TimerExpires => s.(armed := false, started := s.started + 1)
    case CallbackRuns(enqueueOk, armOk) =>
      var n := s.(started := s.started - 1);
      if enqueueOk then n.(work := n.work + 1) else Arm(n, armOk)
    case WorkRuns(callOk, armOk) =>
      var n := s.(work := s.work - 1);
      if !s.intended then n
      else if callOk then Subscribe(n, callOk)
      else Arm(Subscribe(n, callOk), armOk)
  }

  ghost predicate IsRun(ss: seq<Link>, steps: seq<Step>) {
    && |ss| == |steps| + 1
    && ss[0] == FRESH
    && forall i | 0 <= i < |steps| :: Enabled(ss[i], steps[i]) && ss[i + 1] == Next(ss[i], steps[i])
  }

  /** Something is under way that leads to another subscribe call or to a SUBACK. */
  predicate UnderWay(s: Link) {
    s.inFlight > 0 || s.armed || s.started > 0 || s.work > 0
  }

  predicate Inv(s: Link) {
    && (s.subscribed ==> s.intended)
    && (!s.intended ==> !UnderWay(s) && !s.orphaned)
    && (s.orphaned ==> !UnderWay(s) && !s.subscribed)
    && (s.connected && s.intended && !s.subscribed && !s.lost && !s.orphaned ==> UnderWay(s))
  }

  lemma NextKeeps(s: Link, step: Step)
    requires Inv(s) && Enabled(s, step)
    ensures Inv(Next(s, step))
  {
  }

  lemma {:induction false} InvOverRuns(ss: seq<Link>, steps: seq<Step>, k: nat)
    requires IsRun(ss, steps) && k < |ss|
    ensures Inv(ss[k])
    decreases k
  {
    if k > 0 {
      hide Next, Enabled, Inv;
      InvOverRuns(ss, steps, k - 1);
      NextKeeps(ss[k - 1], steps[k - 1]);
    } else {
      assert ss[0] == FRESH;
    }
  }

  /** Liveness, exactly: connected, intended and not subscribed, with no task refused by the scheduler, something
      is under way if and only if it is not the case that the first subscribe call failed locally and no CONNECTED
      has come since. In every order of events a subscription is an intended one. */
  lemma SubscriptionLives(ss: seq<Link>, steps: seq<Step>, k: nat)
    requires IsRun(ss, steps) && k < |ss|
    ensures ss[k].subscribed ==> ss[k].intended
    ensures ss[k].connected && ss[k].intended && !ss[k].subscribed && !ss[k].lost ==>
              (UnderWay(ss[k]) <==> !ss[k].orphaned)
  {
    InvOverRuns(ss, steps, k);
  }

  /** A first call that succeeds locally rules the bad case out for good. */
  lemma {:induction false} NeverOrphaned(ss: seq<Link>, steps: seq<Step>, k: nat)
    requires IsRun(ss, steps) && k < |ss|
    requires forall i | 0 <= i < |steps| && !ss[i].intended && steps[i].NetworkInit? :: steps[i].callOk
    ensures !ss[k].orphaned
    decreases k
  {
    if k > 0 {
      NeverOrphaned(ss, steps, k - 1);
    }
  }

  /** After a first call that failed, recovering through NETWORK_INIT does not subscribe: the intent is already
      recorded, so the second pass skips the call although nothing is under way. */
  lemma RecoverySkipsSubscribe() returns (ss: seq<Link>, steps: seq<Step>)
    ensures IsRun(ss, steps) && |steps| == 3 && steps[1] == NetworkInit(false) && steps[2] == NetworkInit(true)
    ensures ss[3].connected && ss[3].intended && !ss[3].subscribed && !ss[3].lost && !UnderWay(ss[3])
  {
    steps := [Connected(true), NetworkInit(false), NetworkInit(true)];
    var s1 := Next(FRESH, steps[0]);
    var s2 := Next(s1, steps[1]);
    ss := [FRESH, s1, s2, Next(s2, steps[2])];
  }

  /* ---------- What each event does ---------- */

  /** A task is scheduled, or the scheduler refuses it. */
  predicate Arms(s: Link, n: Link, ok: bool) {
    n == s.(armed := s.armed || ok, lost := s.lost || !ok)
  }

  /** The intent is recorded whatever becomes of the call; a call that goes out is answered by a SUBACK. */
  predicate Asks(s: Link, n: Link, ok: bool) {
    n == s.(intended := true, inFlight := s.inFlight + (if ok then 1 else 0))
  }

  /** NETWORK_INIT makes the first call, and only that one; a local failure of it leaves nothing under way until the
      next connection. */
  lemma FirstCall(s: Link, callOk: bool)
    ensures var n := Next(s, NetworkInit(callOk));
            if s.intended then n == s else n.orphaned == !callOk && Asks(s, n.(orphaned := s.orphaned), callOk)
  {
  }

  /** A connection schedules an attempt exactly if a subscription is intended and missing; a disconnection drops the
      subscription, the scheduled attempt and the answers that can no longer come. */
  lemma LinkEvents(s: Link, armOk: bool, dropped: nat)
    ensures Enabled(s, Connected(armOk)) <==> !s.connected
    ensures !s.connected ==>
              var n, up := Next(s, Connected(armOk)), s.(connected := true, orphaned := false);
              if s.intended && !s.subscribed then Arms(up, n, armOk) else n == up
    ensures Enabled(s, Disconnected(dropped)) <==> s.connected && dropped <= s.inFlight
    ensures s.connected && dropped <= s.inFlight ==>
              var n := Next(s, Disconnected(dropped));
              && !n.connected && !n.subscribed && !n.armed && n.inFlight + dropped == s.inFlight
              && n.started == s.started && n.work == s.work && n.intended == s.intended
  {
  }

  /** A granted SUBACK subscribes and cancels what is scheduled; a refused one schedules the next attempt, if the
      subscription is still intended. */
  lemma Subacks(s: Link, armOk: bool)
    requires s.inFlight > 0
    ensures var n := Next(s, Suback(true, armOk)); n == s.(inFlight := n.inFlight, subscribed := true, armed := false)
    ensures Next(s, Suback(true, armOk)).inFlight + 1 == s.inFlight
    ensures var n, got := Next(s, Suback(false, armOk)), s.(inFlight := s.inFlight - 1);
            if s.intended then Arms(got, n, armOk) else n == got
  {
  }

  /** A scheduled attempt is started, moved to the work queue, or scheduled again if that is full, and made there, if
      the subscription is still intended; an attempt that fails locally schedules the next. */
  lemma Attempts(s: Link, ok: bool, armOk: bool)
    ensures Enabled(s, TimerExpires) <==> s.armed
    ensures s.armed ==> Next(s, TimerExpires) == s.(armed := !s.armed, started := s.started + 1)
    ensures s.started > 0 ==>
              var n, run := Next(s, CallbackRuns(ok, armOk)), s.(started := s.started - 1);
              if ok then n.work == s.work + 1 && n == run.(work := n.work) else Arms(run, n, armOk)
    ensures s.work > 0 ==>
              var n, run := Next(s, WorkRuns(ok, armOk)), s.(work := s.work - 1);
              && (!s.intended ==> n == run)
              && (s.intended && ok ==> Asks(run, n, ok))
              && (s.intended && !ok ==> Arms(run, n, armOk))
  {
  }

  /** The same protocol with its flags updated in place. */
  class JobsSubscription {
    var connected: bool
    var subIntended: bool
    var subscribed: bool
    var inFlight: nat
    var retryArmed: bool
    var started: nat
    var queued: nat
    ghost var orphaned: bool
    ghost var lost: bool

    ghost function Abs(): Link
      reads this
    {
      Link(connected, subIntended, subscribed, inFlight, retryArmed, started, queued, orphaned, lost)
    }

    constructor ()
      ensures Abs() == FRESH
    {
      connected, subIntended, subscribed, inFlight, retryArmed, started, queued := false, false, false, 0, false, 0, 0;
      orphaned, lost := false, false;
    }

    method BackoffSchedule(ok: bool)
      modifies `retryArmed, `lost
      ensures Abs() == Arm(old(Abs()), ok)
    {
      retryArmed := retryArmed || ok;
      lost := lost || !ok;
    }

    method SubscribeJobsTopics(callOk: bool) returns (ok: bool)
      modifies `subIntended, `inFlight
      ensures ok == callOk && Abs() == Subscribe(old(Abs()), callOk)
    {
      subIntended := true;
      if !callOk {
        return false;
      }
      inFlight := inFlight + 1;
      ok := true;
    }

    /** The subscribe part of the NETWORK_INIT handler. */
    method EnterNetworkInit(callOk: bool) returns (ok: bool)
      modifies `subIntended, `inFlight, `orphaned
      ensures Abs() == Next(old(Abs()), NetworkInit(callOk))
      ensures ok <==> old(subIntended) || callOk
    {
      if subIntended {
        return true;
      }
      ok := SubscribeJobsTopics(callOk);
      orphaned := !ok;
    }

    method OnConnected(armOk: bool)
      requires !connected
      modifies `connected, `orphaned, `retryArmed, `lost
      ensures Abs() == Next(old(Abs()), Connected(armOk))
    {
      connected, orphaned := true, false;
      if subIntended && !subscribed {
        BackoffSchedule(armOk);
      }
    }

    method OnDisconnected(dropped: nat)
      requires connected && dropped <= inFlight
      modifies `connected, `subscribed, `retryArmed, `inFlight
      ensures Abs() == Next(old(Abs()), Disconnected(dropped))
    {
      connected, inFlight := false, inFlight - dropped;
      subscribed := false;
      retryArmed := false;
    }

    method OnSuback(granted: bool, armOk: bool)
      requires inFlight > 0
      modifies `inFlight, `subscribed, `retryArmed, `lost
      ensures Abs() == Next(old(Abs()), Suback(granted, armOk))
    {
      inFlight := inFlight - 1;
      if granted {
        subscribed := true;
        retryArmed := false;
      } else if subIntended {
        BackoffSchedule(armOk);
      }
    }

    /** `sub_retry_sched_cb`: the subscribe call is moved to the work queue. */
    method SubRetrySchedCb(enqueueOk: bool, armOk: bool)
      requires started > 0
      modifies `started, `queued, `retryArmed, `lost
      ensures Abs() == Next(old(Abs()), CallbackRuns(enqueueOk, armOk))
    {
      started := started - 1;
      if enqueueOk {
        queued := queued + 1;
      } else {
        BackoffSchedule(armOk);
      }
    }

    method SubRetryWork(callOk: bool, armOk: bool)
      requires queued > 0
      modifies `queued, `subIntended, `inFlight, `retryArmed, `lost
      ensures Abs() == Next(old(Abs()), WorkRuns(callOk, armOk))
    {
      queued := queued - 1;
      if !subIntended {
        return;
      }
      var ok := SubscribeJobsTopics(callOk);
      if !ok {
        BackoffSchedule(armOk);
      }
    }
  }
}
