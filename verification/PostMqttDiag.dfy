/** The diagnostics that follow the first MQTT connection of a pending image: registration on one thread, connects
    on another, and any number of calls of the run function in between. */
module PostMqttDiag {
  /** Where `esp_rmaker_ota_handle_reboot` is: before clearing the claim, before registering the handler, before
      looking at the connected bit, or past it; or the registration failed. */
  datatype RegisterPc = Clearing | Registering | Checking | Done | Failed

  /** `bit` is the connected bit, which a connect sets before it dispatches its event; `undelivered` connects have
      not dispatched yet. `calls` calls of the run function have not tried the claim yet, `running` have won it and
      not unregistered yet. History: how often the diagnostics have been run. */
  datatype World = World(
    bit: bool,
    undelivered: nat,
    registered: bool,
    claimed: bool,
    register: RegisterPc,
    calls: nat,
    running: nat,
    runs: nat)

  const INITIAL := World(false, 0, false, false, Clearing, 0, 0, 0)

  datatype Step =
    | RegisterMoves(ok: bool)
    | Connect
    | Dispatch
    | Disconnect
    | Claim
    | Unregister(ok: bool)

  predicate Enabled(s: World, step: Step) {
    match step
    case RegisterMoves(_) => s.register != Done && s.register != Failed
    case Connect => !s.bit
    case Dispatch => s.undelivered > 0
    case Disconnect => s.bit
    case Claim => s.calls > 0
    case Unregister(_) => s.running > 0
  }

  function Next(s: World, step: Step): World
    requires Enabled(s, step)
  {
    match step
    case RegisterMoves(ok) =>
      match s.register {
        case Clearing => s.(claimed := false, register := Registering)
        case Registering => if ok then s.(registered := true, register := Checking) else s.(register := Failed)
        case Checking => s.(calls := if s.bit then s.calls + 1 else s.calls, register := Done)
        case _ => s
      }
    case Connect => s.(bit := true, undelivered := s.undelivered + 1)
    case Dispatch => s.(undelivered := s.undelivered - 1, calls := if s.registered then s.calls + 1 else s.calls)
    case Disconnect => s.(bit := false)
    case Claim =>
      if s.claimed then s.(calls := s.calls - 1)
      else s.(calls := s.calls - 1, claimed := true, running := s.running + 1, runs := s.runs + 1)
    case Unregister(ok) => s.(running := s.running - 1, registered := s.registered && !ok)
  }

  ghost predicate IsRun(ss: seq<World>, steps: seq<Step>) {
    && |ss| == |steps| + 1
    && (ss[0] == INITIAL || ss[0] == INITIAL.(bit := true))
    && forall i | 0 <= i < |steps| :: Enabled(ss[i], steps[i]) && ss[i + 1] == Next(ss[i], steps[i])
  }

  predicate Inv(s: World) {
    && s.runs == (if s.claimed then 1 else 0)
    && (s.running > 0 ==> s.claimed)
    && (s.register == Clearing || s.register == Registering || s.register == Failed ==>
          !s.registered && s.calls == 0 && !s.claimed)
    && ((s.register == Checking || s.register == Done) && !s.claimed ==> s.registered)
    && (s.register == Done && s.bit && s.undelivered == 0 ==> s.claimed || s.calls > 0)
  }

  lemma {:induction false} InvOverRuns(ss: seq<World>, steps: seq<Step>, k: nat)
    requires IsRun(ss, steps) && k < |ss|
    ensures Inv(ss[k])
    decreases k
  {
    if k > 0 {
      InvOverRuns(ss, steps, k - 1);
    }
  }

  /** No double run and no lost wake-up, for every interleaving: the diagnostics never run twice, and once the
      registration is over, a connection whose event has been dispatched has started them or is about to. */
  lemma RunsExactlyOnce(ss: seq<World>, steps: seq<Step>, k: nat)
    requires IsRun(ss, steps) && k < |ss|
    ensures ss[k].runs <= 1
    ensures ss[k].register == Done && ss[k].bit && ss[k].undelivered == 0 && ss[k].calls == 0 ==> ss[k].runs == 1
    ensures ss[k].register == Failed ==> ss[k].runs == 0
  {
    InvOverRuns(ss, steps, k);
  }

  /** Once run, the diagnostics stay run: no later connect or call starts them again. */
  lemma {:induction false} RunsForGood(ss: seq<World>, steps: seq<Step>, i: nat, j: nat)
    requires IsRun(ss, steps) && i <= j < |ss| && ss[i].runs == 1
    ensures ss[j].runs == 1
    decreases j
  {
    if i < j {
      RunsForGood(ss, steps, i, j - 1);
      InvOverRuns(ss, steps, j - 1);
      InvOverRuns(ss, steps, j);
    }
  }

  /** Step `i` lets a connection reach the diagnostics: its event is dispatched to the registered handler, or the
      registration finds the connected bit. */
  predicate Reaches(s: World, step: Step) {
    || (step.Dispatch? && s.registered)
    || (step.RegisterMoves? && s.register == Checking && s.bit)
  }

  /** Exactly once if MQTT ever connects: from the step on at which a connection reaches the diagnostics, whatever
      disconnects follow, they have been run exactly once as soon as no call is waiting for the claim. */
  lemma {:induction false} ConnectionRunsOnce(ss: seq<World>, steps: seq<Step>, i: nat, j: nat)
    requires IsRun(ss, steps) && i < j < |ss| && Reaches(ss[i], steps[i])
    ensures ss[j].claimed || ss[j].calls > 0
    ensures ss[j].calls == 0 ==> ss[j].runs == 1
    decreases j
  {
    InvOverRuns(ss, steps, j - 1);
    InvOverRuns(ss, steps, j);
    if i + 1 < j {
      ConnectionRunsOnce(ss, steps, i, j - 1);
    }
  }

  /** The registration: the claim is given back, the handler registered or not, and then a connection that is there
      already is followed by exactly one call. */
  lemma Registration(s: World, ok: bool)
    requires s.register == Clearing || s.register == Registering || s.register == Checking
    ensures Enabled(s, RegisterMoves(ok))
    ensures var n := Next(s, RegisterMoves(ok));
            && (s.register == Clearing ==> n == s.(claimed := false, register := Registering))
            && (s.register == Registering ==>
                  (n.registered <==> s.registered || ok) && (n.register == Checking <==> ok)
                  && (n.register == Failed <==> !ok) && n == s.(registered := n.registered, register := n.register))
            && (s.register == Checking ==>
                  n.register == Done && n.calls == s.calls + (if s.bit then 1 else 0)
                  && n == s.(register := Done, calls := n.calls))
  {
  }

  /** A connection sets the bit and is dispatched once, which calls the diagnostics exactly if the handler is
      registered; a disconnection clears the bit and takes no call back. */
  lemma Connections(s: World)
    ensures Enabled(s, Connect) <==> !s.bit
    ensures Enabled(s, Disconnect) <==> s.bit
    ensures !s.bit ==> Next(s, Connect) == s.(bit := true, undelivered := s.undelivered + 1)
    ensures s.bit ==> Next(s, Disconnect) == s.(bit := !s.bit)
    ensures s.undelivered > 0 ==>
              var n := Next(s, Dispatch);
              && n.calls == s.calls + (if s.registered then 1 else 0) && n.undelivered == s.undelivered - 1
              && n == s.(calls := n.calls, undelivered := n.undelivered)
  {
  }

  /** Of the calls that try the claim the first runs the diagnostics, and then the handler is unregistered if that
      succeeds; any other call is over. */
  lemma Calls(s: World, ok: bool)
    ensures s.calls > 0 ==>
              var n := Next(s, Claim);
              && n.calls == s.calls - 1 && n.claimed
              && (n.runs == s.runs + 1 <==> !s.claimed) && (n.running == s.running + 1 <==> !s.claimed)
              && (s.claimed ==> n == s.(calls := n.calls))
    ensures s.running > 0 ==>
              var n := Next(s, Unregister(ok));
              && n.running == s.running - 1 && (n.registered <==> s.registered && !ok)
              && n == s.(running := n.running, registered := n.registered)
  {
  }
}
