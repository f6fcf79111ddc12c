/** Delivery of events posted around initialization: any number of posters with the double-checked flag, and the
    worker of the work queue, which runs init as one of its own work functions and takes events before and after. */
module PreInit {
  datatype Item = Transition | Posted(id: nat)

  /** A poster is before the unlocked look at the flag, before the lock, inside it, or before the enqueue. */
  datatype PosterPc = Looking(id: nat) | Waiting(id: nat) | Holding(id: nat) | Enqueueing(id: nat)

  /** The init work function is not running, or before its transition event, before the lock, or draining the list. */
  datatype InitPc = Outside | Entering | Locking | Draining(failed: bool)

  datatype Owner = Nobody | Initializer | Poster(thread: nat)

  /** `sent` is everything ever put into the work queue, of which the worker has taken and checked the first
      |fates|. History: `accepted` is everything ever put into the list, in order, of which `drained` have been
      taken out again; `base` and `from` are |sent| and `drained` when the current attempt began; `seen` is how
      many events had been checked when the flag was set; `attempts` counts the calls of init. */
  datatype World = World(
    flag: bool,
    owner: Owner,
    list: seq<Item>,
    sent: seq<Item>,
    fates: seq<bool>,
    posters: map<nat, PosterPc>,
    init: InitPc,
    accepted: seq<Item>,
    drained: nat,
    base: nat,
    from: nat,
    seen: nat,
    attempts: nat)

  const INITIAL := World(false, Nobody, [], [], [], map[], Outside, [], 0, 0, 0, 0, 0)

  datatype Step =
    | Call(thread: nat, id: nat)
    | PosterMoves(thread: nat, ok: bool)
    | InitCalled
    | InitMoves(ok: bool)
    | WorkerChecks

  predicate Enabled(s: World, step: Step) {
    match step
    case Call(t, _) => t !in s.posters
    case PosterMoves(t, _) => t in s.posters && (s.posters[t].Waiting? ==> s.owner == Nobody)
    case InitCalled => s.init == Outside && !s.flag
    case InitMoves(_) => s.init != Outside && (s.init == Locking ==> s.owner == Nobody)
    case WorkerChecks => |s.fates| < |s.sent| && s.owner == Nobody && s.init == Outside
  }

  /** `ota_job_state_post_event` and `pre_init_event_queue_add_if_not_initialized`. */
  function MovePoster(s: World, t: nat, ok: bool): World
    requires t in s.posters
  {
    var rest := s.(posters := s.posters - {t});
    match s.posters[t]
    case Looking(id) => s.(posters := s.posters[t := if s.flag then Enqueueing(id) else Waiting(id)])
    case Waiting(id) => s.(owner := Poster(t), posters := s.posters[t := Holding(id)])
    case Holding(id) =>
      if s.flag then s.(owner := Nobody, posters := s.posters[t := Enqueueing(id)])
      else if ok then rest.(owner := Nobody, list := s.list + [Posted(id)], accepted := s.accepted + [Posted(id)])
      else rest.(owner := Nobody)
    case Enqueueing(id) => if ok then rest.(sent := s.sent + [Posted(id)]) else rest
  }

  /** The end of `ota_job_state_init`: the transition, then the list under the lock, then the flag. */
  function MoveInit(s: World, ok: bool): World {
    match s.init
    case Outside => s
    case Entering => if ok then s.(sent := s.sent + [Transition], init := Locking) else s.(init := Outside)
    case Locking => s.(owner := Initializer, init := Draining(false))
    case Draining(failed) =>
      if s.list != [] then
        s.(list := s.list[1..], drained := s.drained + 1, sent := if ok then s.sent + [s.list[0]] else s.sent,
           init := Draining(failed || !ok))
      else s.(flag := !failed, owner := Nobody, init := Outside, seen := |s.fates|)
  }

  function Next(s: World, step: Step): World
    requires Enabled(s, step)
  {
    match step
    case Call(t, id) => s.(posters := s.posters[t := Looking(id)])
    case PosterMoves(t, ok) => MovePoster(s, t, ok)
    case InitCalled => s.(init := Entering, base := |s.sent|, from := s.drained, attempts := s.attempts + 1)
    case InitMoves(ok) => MoveInit(s, ok)
    case WorkerChecks => s.(fates := s.fates + [s.flag])
  }

  ghost predicate IsRun(ss: seq<World>, steps: seq<Step>) {
    && |ss| == |steps| + 1
    && ss[0] == INITIAL
    && forall i | 0 <= i < |steps| :: Enabled(ss[i], steps[i]) && ss[i + 1] == Next(ss[i], steps[i])
  }

  /* ---------- The invariant ---------- */

  /** The list is what has been accepted and not yet drained. */
  ghost predicate ListMatches(s: World) {
    && s.from <= s.drained <= |s.accepted|
    && s.list == s.accepted[s.drained..]
    && s.base <= |s.sent| && |s.fates| <= |s.sent|
  }

  ghost predicate OwnerMatches(s: World) {
    && (s.owner == Initializer <==> s.init.Draining?)
    && (forall t | t in s.posters :: s.posters[t].Holding? <==> s.owner == Poster(t))
    && (s.owner.Poster? ==> s.owner.thread in s.posters)
    && (s.flag ==> s.init == Outside)
    && (!s.flag ==> forall t | t in s.posters :: !s.posters[t].Enqueueing?)
  }

  /** What the current attempt has put into the work queue so far, and what follows a successful one. */
  ghost predicate SentMatches(s: World)
    requires ListMatches(s)
  {
    && (s.init == Entering ==> |s.sent| == s.base && s.drained == s.from)
    && (s.init == Locking ==> s.sent[s.base..] == [Transition] && s.drained == s.from)
    && (s.init == Draining(false) ==> s.sent[s.base..] == [Transition] + s.accepted[s.from..s.drained])
    && (s.flag ==> s.drained == |s.accepted| && [Transition] + s.accepted[s.from..] <= s.sent[s.base..])
  }

  /** The worker drops what it checks before the flag is set and handles what it checks afterwards. */
  ghost predicate FatesMatch(s: World) {
    && (s.init != Outside ==> |s.fates| <= s.base)
    && if s.flag then
         s.seen <= |s.fates| && s.seen <= s.base && forall i | 0 <= i < |s.fates| :: s.fates[i] <==> i >= s.seen
    else forall i | 0 <= i < |s.fates| :: !s.fates[i]
  }

  /** Nothing reaches the work queue before the first attempt. */
  predicate AttemptsMatch(s: World) {
    && (s.attempts == 0 ==> s.sent == [] && s.drained == 0 && s.init == Outside && !s.flag)
    && (s.attempts <= 1 ==> s.base == 0 && s.from == 0)
  }

  ghost predicate Inv(s: World) {
    ListMatches(s) && OwnerMatches(s) && SentMatches(s) && FatesMatch(s) && AttemptsMatch(s)
  }

  lemma PosterKeeps(s: World, t: nat, ok: bool)
    requires Inv(s) && Enabled(s, PosterMoves(t, ok))
    ensures Inv(MovePoster(s, t, ok))
  {
  }

  lemma DrainKeeps(s: World, ok: bool)
    requires Inv(s) && s.init.Draining?
    ensures Inv(MoveInit(s, ok))
  {
    if s.list != [] {
      assert s.list[1..] == s.accepted[s.drained + 1..];
      assert s.accepted[s.from..s.drained + 1] == s.accepted[s.from..s.drained] + [s.list[0]];
      if ok {
        assert (s.sent + [s.list[0]])[s.base..] == s.sent[s.base..] + [s.list[0]];
      }
    } else {
      assert s.accepted[s.from..s.drained] == s.accepted[s.from..];
    }
  }

  lemma NextKeeps(s: World, step: Step)
    requires Inv(s) && Enabled(s, step)
    ensures Inv(Next(s, step))
  {
    match step
    case PosterMoves(t, ok) => PosterKeeps(s, t, ok);
    case InitMoves(ok) => if s.init.Draining? { DrainKeeps(s, ok); }
    case _ =>
  }

  lemma {:induction false} InvOverRuns(ss: seq<World>, steps: seq<Step>, k: nat)
    requires IsRun(ss, steps) && k < |ss|
    ensures Inv(ss[k])
    decreases k
  {
    if k > 0 {
      InvOverRuns(ss, steps, k - 1);
      NextKeeps(ss[k - 1], steps[k - 1]);
    }
  }

  /** Once set, the flag stays, nothing more is put into the list, and the work queue only grows. */
  ghost predicate OpenStays(s: World, n: World) {
    s.flag ==> n.flag && n.accepted == s.accepted && n.base == s.base && n.from == s.from && n.seen == s.seen
               && s.sent <= n.sent && s.fates <= n.fates
  }

  lemma NextOpenStays(s: World, step: Step)
    requires Inv(s) && Enabled(s, step)
    ensures OpenStays(s, Next(s, step))
  {
  }

  lemma {:induction false} RunOpenStays(ss: seq<World>, steps: seq<Step>, i: nat, j: nat)
    requires IsRun(ss, steps) && i <= j < |ss|
    ensures OpenStays(ss[i], ss[j])
    decreases j
  {
    if i < j {
      RunOpenStays(ss, steps, i, j - 1);
      InvOverRuns(ss, steps, j - 1);
      NextOpenStays(ss[j - 1], steps[j - 1]);
    }
  }

  /** After a successful init, from then on and for every interleaving: the work queue holds the transition first,
      then every event accepted before the flag was set, once each and in the order of acceptance, then later
      posts; nothing is accepted into the list any more, and nothing is left in it. */
  lemma DeliveryOrder(ss: seq<World>, steps: seq<Step>, i: nat, j: nat)
    requires IsRun(ss, steps) && i <= j < |ss| && ss[i].flag
    ensures ss[j].from <= |ss[i].accepted| && ss[j].base <= |ss[j].sent|
    ensures [Transition] + ss[i].accepted[ss[j].from..] <= ss[j].sent[ss[j].base..]
    ensures ss[j].accepted == ss[i].accepted && ss[j].list == []
    ensures ss[j].attempts <= 1 ==> [Transition] + ss[i].accepted <= ss[j].sent
  {
    InvOverRuns(ss, steps, j);
    RunOpenStays(ss, steps, i, j);
  }

  /** The worker handles everything a successful init has delivered, in order and starting with the transition:
      whatever was posted before the flag was set, an early reboot-check request say, is handled only after
      NETWORK_INIT's own transition. Only events of earlier attempts that failed are dropped. */
  lemma HandledFromTransition(ss: seq<World>, steps: seq<Step>, k: nat)
    requires IsRun(ss, steps) && k < |ss| && ss[k].flag
    ensures ss[k].base < |ss[k].sent| && ss[k].sent[ss[k].base] == Transition
    ensures forall i | ss[k].base <= i < |ss[k].fates| :: ss[k].fates[i]
    ensures ss[k].attempts <= 1 ==> forall i | 0 <= i < |ss[k].fates| :: ss[k].fates[i]
  {
    InvOverRuns(ss, steps, k);
    var s := ss[k];
    assert s.sent[s.base..][0] == Transition;
  }

  /** What becomes of a post: after the flag it is put into the work queue, or refused for want of room; before it, at
      the end of the list, or refused for want of memory. The flag is looked at again under the lock. */
  lemma PostOutcome(s: World, t: nat, ok: bool)
    requires t in s.posters && Enabled(s, PosterMoves(t, ok))
    ensures var n, id := Next(s, PosterMoves(t, ok)), s.posters[t].id;
            && (s.posters[t].Looking? ==>
                  n == s.(posters := s.posters[t := if s.flag then Enqueueing(id) else Waiting(id)]))
            && (s.posters[t].Waiting? ==>
                  s.owner == Nobody && n == s.(owner := Poster(t), posters := s.posters[t := Holding(id)]))
            && (s.posters[t].Holding? ==>
                  && n.owner == Nobody && n.sent == s.sent
                  && (t in n.posters <==> s.flag) && (s.flag ==> n.posters[t] == Enqueueing(id))
                  && n.accepted == s.accepted + (if !s.flag && ok then [Posted(id)] else [])
                  && n.list == s.list + (if !s.flag && ok then [Posted(id)] else []))
            && (s.posters[t].Enqueueing? ==>
                  && t !in n.posters && n.sent == s.sent + (if ok then [Posted(id)] else []) && n.list == s.list)
  {
    assert s.accepted + [] == s.accepted && s.list + [] == s.list && s.sent + [] == s.sent;
  }

  /** An attempt of init begins while none is under way and the flag is not set. It ends without the flag when its
      transition is refused, and otherwise at the end of the list, with the flag exactly if every entry was taken. */
  lemma InitOutcome(s: World, ok: bool)
    ensures Enabled(s, InitCalled) <==> s.init == Outside && !s.flag
    ensures Enabled(s, InitCalled) ==>
              Next(s, InitCalled).init == Entering && Next(s, InitCalled).attempts == s.attempts + 1
    ensures Enabled(s, InitMoves(ok)) <==> s.init != Outside && (s.init == Locking ==> s.owner == Nobody)
    ensures Enabled(s, InitMoves(ok)) ==>
              var n := Next(s, InitMoves(ok));
              && (s.init == Entering ==>
                    && n.flag == s.flag && (n.init == Locking <==> ok) && (n.init == Outside <==> !ok)
                    && n.sent == s.sent + (if ok then [Transition] else []))
              && (s.init == Locking ==>
                    s.owner == Nobody && n == s.(owner := Initializer, init := Draining(false)))
              && (s.init.Draining? && s.list != [] ==>
                    && n.flag == s.flag && n.owner == s.owner && n.list == s.list[1..]
                    && n.init == Draining(s.init.failed || !ok)
                    && n.sent == s.sent + (if ok then [s.list[0]] else []))
              && (s.init.Draining? && s.list == [] ==>
                    && n.init == Outside && n.owner == Nobody && (n.flag <==> !s.init.failed) && n.sent == s.sent)
  {
    assert s.sent + [] == s.sent;
  }

  /** The worker takes one event after the other, between work functions of its own, and handles it exactly if the flag
      is set by then. */
  lemma WorkerOutcome(s: World)
    ensures Enabled(s, WorkerChecks) <==> |s.fates| < |s.sent| && s.owner == Nobody && s.init == Outside
    ensures Enabled(s, WorkerChecks) ==> Next(s, WorkerChecks) == s.(fates := s.fates + [s.flag])
    ensures forall t, id | t !in s.posters ::
              Next(s, Call(t, id)) == s.(posters := s.posters[t := Looking(id)])
  {
  }
}
