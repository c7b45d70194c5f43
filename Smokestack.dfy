/**
 * The firmware's control layer (Smokestack.py): the mode state machine,
 * the igniter and auger rules run on every pass of the main loop, the PID
 * gate, and the cook-program sequencer.
 *
 * The module-level `smoker` object and the process around it become the
 * class Firmware. Each request to the remote service is recorded as an
 * event in a ghost trace; `sys.exit` and the exceptions the code can raise
 * become a terminal `exit` outcome, after which no operation runs.
 */
module Smokestack {
  import opened Wrappers
  import opened PIDController
  import opened SmokerState

  const FREQUENCY_LOG_TEMPS: real := 10.0
  const FREQUENCY_UPDATE_PID: int := 20
  const TEMPERATURE_IGNITER: real := 100.0
  const TIMEOUT_IGNITER: real := 900.0
  const TIMEOUT_SHUTDOWN: real := 600.0
  const U_MIN: real := 0.15
  const U_MAX: real := 1.0

  /** A request sent to the remote service. */
  datatype Event =
    | PutState(state: ControlState)   // PUT /state with the whole state
    | PatchPower(power: bool)         // PATCH /state {"power": ...}
    | PatchOff                        // PATCH /state {"mode": "Off", targets None}
    | DeleteProgram                   // DELETE /smoker/program
    | Boot(state: ControlState)       // POST /smoker/boot with the state
    | Heartbeat(state: ControlState)  // POST /smoker/heartbeat with the state

  /** How the remote service answered a request. */
  datatype Reply = Ok | Rejected | Unreachable

  /** Why the process ended. */
  datatype Exit =
    | ModeOff                         // set_mode("Off") restarts the smoker
    | InvalidProgramIndex             // next_program past the last step
    | UndefinedName(name: string)     // a NameError
    | IndexError
    | TypeError                       // arithmetic on None
    | KeyError                        // a relay that was never toggled
    | ZeroDivision                    // a PID update with no time elapsed
    | RequestFailed                   // a request that raised, reported with sys.exit

  /** A program as the remote service sends it. */
  datatype Program = Program(id: string, steps: seq<Step>)

  /** What manage_igniter does. */
  datatype Ignition = TimeOut | Ignite | Extinguish | Keep

  /**
   * The igniter rule: an igniter on for more than 15 minutes forces a
   * shutdown; otherwise it is lit below 100 °F and put out above 100 °F.
   * `onFor` is only looked at when the igniter is on.
   */
  function IgniterRule(on: bool, onFor: real, grill: real): (r: Ignition)
    ensures r == TimeOut || r == Extinguish ==> on
    ensures r == Ignite ==> !on
  {
    if on && onFor > TIMEOUT_IGNITER then TimeOut
    else if !on && grill < TEMPERATURE_IGNITER then Ignite
    else if on && grill > TEMPERATURE_IGNITER then Extinguish
    else Keep
  }

  /** The igniter level the igniter rule leaves, from level `on`. */
  function IgniterLevel(rule: Ignition, on: bool): bool {
    match rule
    case TimeOut => false
    case Ignite => true
    case Extinguish => false
    case Keep => on
  }

  /**
   * The auger level manage_auger leaves behind: an auger that has run
   * longer than its on-time stops (unless the duty is continuous), one
   * that has rested longer than its off-time starts.
   */
  function AugerNext(on: bool, elapsed: real, cycleTimer: real, u: real): (next: bool)
    ensures on && !next ==> elapsed > cycleTimer * u
    ensures !on && next ==> elapsed > cycleTimer * (1.0 - u)
  {
    if on then !(elapsed > cycleTimer * u && u < 1.0)
    else elapsed > cycleTimer * (1.0 - u)
  }

  /** Whether a program step's limit has been reached. */
  function StepFinished(step: Step, elapsed: real, probe: Option<real>): (done: bool)
    ensures done ==> step.trigger == Time || probe.Some?
  {
    match step.trigger
    case Time => elapsed > step.limit
    case Temp => probe.Some? && probe.value > step.limit
  }

  /** The PID output limited to the maintenance range [U_MIN, U_MAX]. */
  function ClampDuty(x: real): (r: real)
    ensures U_MIN <= r <= U_MAX
    ensures U_MIN <= x <= U_MAX ==> r == x
    ensures x < U_MIN ==> r == U_MIN
    ensures x > U_MAX ==> r == U_MAX
  {
    Min(Max(x, U_MIN), U_MAX)
  }

  /** The state document after the Shutdown entry actions. */
  function ShutdownOf(s: ControlState): ControlState {
    s.(mode := Shutdown, power := false, temps := s.temps.(grillTarget := None))
  }

  class Firmware {
    const smoker: Smoker
    ghost var trace: seq<Event>
    var exit: Option<Exit>

    ghost predicate Valid()
      reads smoker`levels, smoker`lastToggled, smoker`u, smoker`cycleTimer, smoker`grillHistory, smoker`averageForPid,
            smoker.pid`ki, smoker.pid`interMax
    {
      smoker.Valid()
    }

    /** The settings the entry actions write, grouped so that a frame can name them at once. */
    ghost function Settings(): (ControlState, seq<Step>, real, int, real)
      reads this, smoker
    {
      (smoker.state, smoker.programSteps, smoker.lastProgramStarted, smoker.cycleTimer, smoker.u)
    }

    /** What manage_igniter would do at time `now`. */
    ghost function IgnitionDue(now: real): Ignition
      reads this, smoker
    {
      var on := Igniter in smoker.levels && smoker.levels[Igniter];
      var onFor := if Igniter in smoker.lastToggled then now - smoker.lastToggled[Igniter] else 0.0;
      IgniterRule(on, onFor, smoker.state.temps.grillCurrent)
    }

    /** The smoker after the Shutdown entry actions at time `now`. */
    ghost predicate ShutDownAt(now: real)
      reads this, smoker
    {
      && smoker.state.mode == Shutdown && !smoker.state.power && smoker.state.temps.grillTarget == None
      && smoker.programSteps == [] && smoker.lastProgramStarted == now
      && Fan in smoker.levels && smoker.levels[Fan]
      && Auger in smoker.levels && !smoker.levels[Auger]
      && Igniter in smoker.levels && !smoker.levels[Igniter]
    }

    /**
     * What run_mode leaves after the igniter timeout in a heating mode:
     * the Shutdown entry actions (fan on, igniter and auger off, program
     * dropped), and then manage_auger, which still runs and starts the
     * auger again when it was off and had rested longer than its off-time.
     * `s0`, `l0`, `t0`, `cycle0`, `u0` and `trace0` are the values before.
     */
    ghost predicate TimedOutTend(s0: ControlState, l0: map<Relay, bool>, t0: map<Relay, real>, cycle0: int, u0: real,
                                 trace0: seq<Event>, now: real)
      reads this, smoker
    {
      && smoker.state == ShutdownOf(s0)
      && smoker.programSteps == [] && smoker.lastProgramStarted == now
      && smoker.cycleTimer == cycle0 && smoker.u == u0
      && Fan in smoker.levels && smoker.levels[Fan]
      && Igniter in smoker.levels && !smoker.levels[Igniter]
      && trace == trace0 + [DeleteProgram, PutState(smoker.state)]
      && (exit.None? ==>
            && Auger in smoker.levels
            && (smoker.levels[Auger] <==>
                  Auger in l0 && !l0[Auger] && Auger in t0 && now - t0[Auger] > cycle0 as real * (1.0 - u0)))
    }

    /** The program step set_program would apply, if any. */
    ghost predicate ProgramApplies()
      reads this, smoker
    {
      smoker.state.power && |smoker.programSteps| > 0 && smoker.programIndex.Some?
    }

    /**
     * What applying `step` leaves behind: the process ends exactly for an
     * Off step; otherwise the step's mode is entered (a Smoke or Hold step
     * may be cut short by the igniter timeout, which shuts down), the PID
     * and, unless shut down, the state carry the step's grill target, the
     * probe target follows the step's trigger, and a Temp step with no
     * probe connected switches program control off, patching the remote
     * state before anything else is sent. The entry actions of the mode
     * entered are carried (relays, duty cycle, Start's PID rebuild), and
     * unless the process ends the last request pushes the final state.
     * `traceBefore` is the length of the trace when the step began.
     */
    ghost predicate StepApplied(step: Step, probeWasConnected: bool, traceBefore: nat, now: real)
      reads this, smoker, smoker.pid
    {
      && (exit.Some? <==> step.mode == Off)
      && (step.mode !in {Off, Smoke, Hold} ==> smoker.state.mode == step.mode)
      && (step.mode in {Smoke, Hold} ==> smoker.state.mode == step.mode || ShutDownAt(now))
      && smoker.pid.targetTemp == step.targetGrill
      && smoker.state.temps.probeTarget == (if step.trigger == Temp then Some(step.limit) else None)
      && (smoker.state.mode != Shutdown ==> smoker.state.temps.grillTarget == Some(step.targetGrill))
      && (step.trigger == Temp && !probeWasConnected ==>
            && |trace| > traceBefore && trace[traceBefore] == PatchPower(false)
            && smoker.state.power == (step.mode == Start))
      && ((step.trigger == Time || probeWasConnected) && smoker.state.mode !in {Shutdown, Off} ==> smoker.state.power)
      && (step.mode == Start ==>
            && smoker.state.power
            && Fan in smoker.levels && smoker.levels[Fan]
            && Auger in smoker.levels && smoker.levels[Auger]
            && Igniter in smoker.levels && smoker.levels[Igniter]
            && smoker.cycleTimer == 60 && smoker.u == 0.25
            && smoker.pid.Snapshot() == Initial(60.0, 45.0, 180.0, step.targetGrill, now))
      && (step.mode == Smoke && smoker.state.mode == Smoke ==>
            && Fan in smoker.levels && smoker.levels[Fan]
            && Auger in smoker.levels && smoker.levels[Auger]
            && (smoker.cycleTimer, smoker.u) == PauseCycle(smoker.pSetting))
      && (step.mode == Hold && smoker.state.mode == Hold ==>
            && Fan in smoker.levels && smoker.levels[Fan]
            && Auger in smoker.levels && smoker.levels[Auger]
            && smoker.cycleTimer == FREQUENCY_UPDATE_PID && smoker.u == U_MIN)
      && (step.mode != Off ==> |trace| > traceBefore && trace[|trace| - 1] == PutState(smoker.state))
    }

    constructor (now: real, grillReading: real, probeConnected: bool, bootLevels: map<Relay, bool>)
      requires forall r :: r in bootLevels
      ensures Valid() && exit == None && trace == []
      ensures fresh(smoker) && fresh(smoker.pid)
      ensures smoker.state.mode == Idle && !smoker.state.power
    {
      smoker := new Smoker(now, grillReading, probeConnected, bootLevels);
      trace := [];
      exit := None;
    }

    /**
     * set_mode(mode): stores the mode, runs its entry actions, and pushes
     * the state; Off patches the remote state and ends the process.
     */
    method SetMode(mode: Mode, now: real)
      requires Valid() && exit.None?
      requires mode == Start ==> smoker.state.temps.grillTarget.Some?
      modifies this, smoker`state, smoker`levels, smoker`lastToggled, smoker`lastProgramStarted,
               smoker`programSteps, smoker`cycleTimer, smoker`u, smoker.pid
      decreases if mode == Smoke || mode == Hold then 4 else 0
      ensures Valid()
      ensures exit.Some? <==> mode == Off
      ensures ToggleStamped(old(smoker.levels), old(smoker.lastToggled), smoker.levels, smoker.lastToggled, now)
      ensures !((mode == Smoke || mode == Hold) && old(IgnitionDue(now)) == TimeOut) ==>
        ExactlyStamped(old(smoker.levels), old(smoker.lastToggled), smoker.levels, smoker.lastToggled, now)
      ensures (mode == Smoke || mode == Hold) && old(IgnitionDue(now)) == TimeOut ==>
        && StampKept(Fan, old(smoker.levels), old(smoker.lastToggled), smoker.levels, smoker.lastToggled)
        && StampKept(Igniter, old(smoker.levels), old(smoker.lastToggled), smoker.levels, smoker.lastToggled)
        && Auger in smoker.lastToggled && smoker.lastToggled[Auger] == now
      ensures mode == Off ==>
        && exit == Some(ModeOff) && trace == old(trace) + [PatchOff]
        && smoker.state == old(smoker.state).(mode := Off)
        && smoker.levels == old(smoker.levels) && smoker.lastToggled == old(smoker.lastToggled)
        && unchanged(smoker.pid)
      ensures mode == Shutdown ==>
        && smoker.state == ShutdownOf(old(smoker.state)) && ShutDownAt(now)
        && trace == old(trace) + [DeleteProgram, PutState(smoker.state)]
        && smoker.cycleTimer == old(smoker.cycleTimer) && smoker.u == old(smoker.u)
        && unchanged(smoker.pid)
      ensures mode == Start ==>
        && smoker.state == old(smoker.state).(mode := Start, power := true)
        && smoker.levels[Fan] && smoker.levels[Auger] && smoker.levels[Igniter]
        && smoker.cycleTimer == 60 && smoker.u == 0.25
        && smoker.pid.Snapshot() == Initial(60.0, 45.0, 180.0, old(smoker.state.temps.grillTarget).value, now)
        && smoker.programSteps == old(smoker.programSteps)
        && smoker.lastProgramStarted == old(smoker.lastProgramStarted)
        && trace == old(trace) + [PutState(smoker.state)]
      ensures mode == Smoke || mode == Hold ==>
        && smoker.levels[Fan]
        && (mode == Smoke ==> (smoker.cycleTimer, smoker.u) == PauseCycle(smoker.pSetting))
        && (mode == Hold ==> smoker.cycleTimer == FREQUENCY_UPDATE_PID && smoker.u == U_MIN)
        && unchanged(smoker.pid)
      ensures (mode == Smoke || mode == Hold) && old(IgnitionDue(now)) == TimeOut ==>
        && smoker.state == ShutdownOf(old(smoker.state)) && ShutDownAt(now)
        && trace == old(trace) + [DeleteProgram, PutState(smoker.state), PutState(smoker.state)]
      ensures (mode == Smoke || mode == Hold) && old(IgnitionDue(now)) != TimeOut ==>
        && smoker.state == old(smoker.state).(mode := mode)
        && smoker.levels[Auger]
        && smoker.programSteps == old(smoker.programSteps)
        && smoker.lastProgramStarted == old(smoker.lastProgramStarted)
        && trace == old(trace) + [PutState(smoker.state)]
      ensures (mode == Smoke || mode == Hold) && old(IgnitionDue(now)) == Ignite ==> smoker.levels[Igniter]
      ensures (mode == Smoke || mode == Hold) && old(IgnitionDue(now)) == Extinguish ==> !smoker.levels[Igniter]
      ensures (mode == Smoke || mode == Hold) && old(IgnitionDue(now)) == Keep ==>
        smoker.levels[Igniter] == old(smoker.levels[Igniter])
      ensures mode == Idle || mode == KeepWarm ==>
        && smoker.state == old(smoker.state).(mode := mode)
        && smoker.levels == old(smoker.levels) && smoker.lastToggled == old(smoker.lastToggled)
        && smoker.programSteps == old(smoker.programSteps)
        && smoker.lastProgramStarted == old(smoker.lastProgramStarted)
        && smoker.cycleTimer == old(smoker.cycleTimer) && smoker.u == old(smoker.u)
        && unchanged(smoker.pid)
        && trace == old(trace) + [PutState(smoker.state)]
    {
      smoker.state := smoker.state.(mode := mode);
      match mode {
        case Off =>
          trace := trace + [PatchOff];
          exit := Some(ModeOff);
          return;
        case Shutdown =>
          EnterShutdown(now);
        case Start =>
          EnterStart(now);
        case Smoke =>
          EnterSmoke(now);
        case Hold =>
          EnterHold(now);
        case Idle =>
        case KeepWarm =>
      }
      trace := trace + [PutState(smoker.state)];
    }

    /** The Shutdown entry actions: program control off, fan on, auger and igniter off, program and target dropped. */
    method EnterShutdown(now: real)
      requires Valid()
      modifies this`trace, smoker`state, smoker`levels, smoker`lastToggled, smoker`lastProgramStarted, smoker`programSteps
      ensures Valid()
      ensures ExactlyStamped(old(smoker.levels), old(smoker.lastToggled), smoker.levels, smoker.lastToggled, now)
      ensures smoker.state == old(smoker.state).(power := false, temps := old(smoker.state.temps).(grillTarget := None))
      ensures smoker.levels == old(smoker.levels)[Fan := true][Auger := false][Igniter := false]
      ensures smoker.programSteps == [] && smoker.lastProgramStarted == now
      ensures trace == old(trace) + [DeleteProgram]
    {
      // The relay writes and the field writes touch disjoint state, so the
      // relays are driven last.
      smoker.state := smoker.state.(power := false);
      smoker.lastProgramStarted := now;
      smoker.programSteps := [];
      smoker.state := smoker.state.(temps := smoker.state.temps.(grillTarget := None));
      trace := trace + [DeleteProgram];
      smoker.SetRelay(Fan, true, now);
      smoker.SetRelay(Auger, false, now);
      smoker.SetRelay(Igniter, false, now);
    }

    /**
     * The Start entry actions: program control on, every relay on, the
     * P0 duty (15 s in 60 s), and the PID rebuilt around the grill target.
     */
    method EnterStart(now: real)
      requires Valid() && smoker.state.temps.grillTarget.Some?
      modifies smoker`state, smoker`levels, smoker`lastToggled, smoker`cycleTimer, smoker`u, smoker.pid
      ensures Valid()
      ensures ExactlyStamped(old(smoker.levels), old(smoker.lastToggled), smoker.levels, smoker.lastToggled, now)
      ensures smoker.state == old(smoker.state).(power := true)
      ensures smoker.levels == old(smoker.levels)[Fan := true][Auger := true][Igniter := true]
      ensures smoker.cycleTimer == 60 && smoker.u == 0.25
      ensures smoker.pid.Snapshot() == Initial(60.0, 45.0, 180.0, old(smoker.state.temps.grillTarget).value, now)
    {
      smoker.state := smoker.state.(power := true);
      smoker.SetRelay(Fan, true, now);
      smoker.SetRelay(Auger, true, now);
      smoker.SetRelay(Igniter, true, now);
      smoker.cycleTimer := 15 + 45;
      smoker.u := 15.0 / (15.0 + 45.0);
      smoker.pid.Reset(smoker.state.temps.grillTarget.value, now);
    }

    /** The Smoke entry actions: fan, auger and igniter rule, then the pause cycle of the p-setting. */
    method EnterSmoke(now: real)
      requires Valid() && exit.None?
      modifies this, smoker`state, smoker`levels, smoker`lastToggled, smoker`lastProgramStarted,
               smoker`programSteps, smoker`cycleTimer, smoker`u, smoker.pid
      decreases 3
      ensures Valid() && exit.None?
      ensures ToggleStamped(old(smoker.levels), old(smoker.lastToggled), smoker.levels, smoker.lastToggled, now)
      ensures old(IgnitionDue(now)) != TimeOut ==> ExactlyStamped(old(smoker.levels), old(smoker.lastToggled), smoker.levels, smoker.lastToggled, now)
      ensures StampKept(Fan, old(smoker.levels), old(smoker.lastToggled), smoker.levels, smoker.lastToggled)
      ensures StampKept(Igniter, old(smoker.levels), old(smoker.lastToggled), smoker.levels, smoker.lastToggled)
      ensures old(IgnitionDue(now)) == TimeOut ==> Auger in smoker.lastToggled && smoker.lastToggled[Auger] == now
      ensures smoker.levels[Fan]
      ensures (smoker.cycleTimer, smoker.u) == PauseCycle(smoker.pSetting)
      ensures unchanged(smoker.pid)
      ensures old(IgnitionDue(now)) == TimeOut ==>
        && smoker.state == ShutdownOf(old(smoker.state)) && ShutDownAt(now)
        && trace == old(trace) + [DeleteProgram, PutState(smoker.state)]
      ensures old(IgnitionDue(now)) != TimeOut ==>
        && smoker.state == old(smoker.state)
        && smoker.levels[Auger]
        && smoker.programSteps == old(smoker.programSteps)
        && smoker.lastProgramStarted == old(smoker.lastProgramStarted)
        && trace == old(trace)
      ensures old(IgnitionDue(now)) == Ignite ==> smoker.levels[Igniter]
      ensures old(IgnitionDue(now)) == Extinguish ==> !smoker.levels[Igniter]
      ensures old(IgnitionDue(now)) == Keep ==> smoker.levels[Igniter] == old(smoker.levels[Igniter])
    {
      StokeFire(now);
      smoker.SetPauseCycle(smoker.pSetting);
    }

    /** The Hold entry actions: fan, auger and igniter rule, then the PID cycle at its minimum duty. */
    method EnterHold(now: real)
      requires Valid() && exit.None?
      modifies this, smoker`state, smoker`levels, smoker`lastToggled, smoker`lastProgramStarted,
               smoker`programSteps, smoker`cycleTimer, smoker`u, smoker.pid
      decreases 3
      ensures Valid() && exit.None?
      ensures ToggleStamped(old(smoker.levels), old(smoker.lastToggled), smoker.levels, smoker.lastToggled, now)
      ensures old(IgnitionDue(now)) != TimeOut ==> ExactlyStamped(old(smoker.levels), old(smoker.lastToggled), smoker.levels, smoker.lastToggled, now)
      ensures StampKept(Fan, old(smoker.levels), old(smoker.lastToggled), smoker.levels, smoker.lastToggled)
      ensures StampKept(Igniter, old(smoker.levels), old(smoker.lastToggled), smoker.levels, smoker.lastToggled)
      ensures old(IgnitionDue(now)) == TimeOut ==> Auger in smoker.lastToggled && smoker.lastToggled[Auger] == now
      ensures smoker.levels[Fan]
      ensures smoker.cycleTimer == FREQUENCY_UPDATE_PID && smoker.u == U_MIN
      ensures unchanged(smoker.pid)
      ensures old(IgnitionDue(now)) == TimeOut ==>
        && smoker.state == ShutdownOf(old(smoker.state)) && ShutDownAt(now)
        && trace == old(trace) + [DeleteProgram, PutState(smoker.state)]
      ensures old(IgnitionDue(now)) != TimeOut ==>
        && smoker.state == old(smoker.state)
        && smoker.levels[Auger]
        && smoker.programSteps == old(smoker.programSteps)
        && smoker.lastProgramStarted == old(smoker.lastProgramStarted)
        && trace == old(trace)
      ensures old(IgnitionDue(now)) == Ignite ==> smoker.levels[Igniter]
      ensures old(IgnitionDue(now)) == Extinguish ==> !smoker.levels[Igniter]
      ensures old(IgnitionDue(now)) == Keep ==> smoker.levels[Igniter] == old(smoker.levels[Igniter])
    {
      StokeFire(now);
      smoker.cycleTimer := FREQUENCY_UPDATE_PID;
      smoker.u := U_MIN;
    }

    /**
     * The entry actions Smoke and Hold share: fan and auger on, then the
     * igniter rule, which may force a shutdown.
     */
    method StokeFire(now: real)
      requires Valid() && exit.None?
      modifies this, smoker`state, smoker`levels, smoker`lastToggled, smoker`lastProgramStarted,
               smoker`programSteps, smoker`cycleTimer, smoker`u, smoker.pid
      decreases 2
      ensures Valid() && exit.None?
      ensures ToggleStamped(old(smoker.levels), old(smoker.lastToggled), smoker.levels, smoker.lastToggled, now)
      ensures old(IgnitionDue(now)) != TimeOut ==> ExactlyStamped(old(smoker.levels), old(smoker.lastToggled), smoker.levels, smoker.lastToggled, now)
      ensures StampKept(Fan, old(smoker.levels), old(smoker.lastToggled), smoker.levels, smoker.lastToggled)
      ensures StampKept(Igniter, old(smoker.levels), old(smoker.lastToggled), smoker.levels, smoker.lastToggled)
      ensures old(IgnitionDue(now)) == TimeOut ==> Auger in smoker.lastToggled && smoker.lastToggled[Auger] == now
      ensures smoker.levels[Fan]
      ensures smoker.cycleTimer == old(smoker.cycleTimer) && smoker.u == old(smoker.u)
      ensures unchanged(smoker.pid)
      ensures old(IgnitionDue(now)) == TimeOut ==>
        && smoker.state == ShutdownOf(old(smoker.state)) && ShutDownAt(now)
        && trace == old(trace) + [DeleteProgram, PutState(smoker.state)]
      ensures old(IgnitionDue(now)) != TimeOut ==>
        && smoker.state == old(smoker.state)
        && smoker.levels[Auger]
        && smoker.programSteps == old(smoker.programSteps)
        && smoker.lastProgramStarted == old(smoker.lastProgramStarted)
        && trace == old(trace)
      ensures old(IgnitionDue(now)) == Ignite ==> smoker.levels[Igniter]
      ensures old(IgnitionDue(now)) == Extinguish ==> !smoker.levels[Igniter]
      ensures old(IgnitionDue(now)) == Keep ==> smoker.levels[Igniter] == old(smoker.levels[Igniter])
    {
      ghost var due := IgnitionDue(now);
      smoker.SetRelay(Fan, true, now);
      smoker.SetRelay(Auger, true, now);
      assert IgnitionDue(now) == due;
      ManageIgniter(now);
    }

    /**
     * manage_igniter(): the igniter safety rule. Afterwards an igniter that
     * is on has been on for at most 15 minutes.
     */
    method ManageIgniter(now: real)
      requires Valid() && exit.None?
      modifies this, smoker`state, smoker`levels, smoker`lastToggled, smoker`lastProgramStarted,
               smoker`programSteps, smoker`cycleTimer, smoker`u, smoker.pid
      decreases 1
      ensures Valid() && exit.None?
      ensures ExactlyStamped(old(smoker.levels), old(smoker.lastToggled), smoker.levels, smoker.lastToggled, now)
      ensures smoker.levels[Igniter] ==> now - smoker.lastToggled[Igniter] <= TIMEOUT_IGNITER
      ensures old(IgnitionDue(now)) == TimeOut ==>
        && smoker.state == ShutdownOf(old(smoker.state)) && ShutDownAt(now)
        && trace == old(trace) + [DeleteProgram, PutState(smoker.state)]
        && smoker.cycleTimer == old(smoker.cycleTimer) && smoker.u == old(smoker.u)
        && unchanged(smoker.pid)
      ensures old(IgnitionDue(now)) == Ignite ==>
        && smoker.levels == old(smoker.levels)[Igniter := true]
        && smoker.lastToggled == old(smoker.lastToggled)[Igniter := now]
      ensures old(IgnitionDue(now)) == Extinguish ==>
        && smoker.levels == old(smoker.levels)[Igniter := false]
        && smoker.lastToggled == old(smoker.lastToggled)[Igniter := now]
      ensures old(IgnitionDue(now)) == Keep ==>
        smoker.levels == old(smoker.levels) && smoker.lastToggled == old(smoker.lastToggled)
      ensures old(IgnitionDue(now)) != TimeOut ==>
        Settings() == old(Settings()) && trace == old(trace) && unchanged(smoker.pid)
    {
      var on := smoker.levels[Igniter];
      if on && now - smoker.lastToggled[Igniter] > TIMEOUT_IGNITER {
        smoker.SetRelay(Igniter, false, now);
        SetMode(Shutdown, now);
        smoker.lastProgramStarted := now;
      } else if !on && smoker.state.temps.grillCurrent < TEMPERATURE_IGNITER {
        smoker.SetRelay(Igniter, true, now);
      } else if on && smoker.state.temps.grillCurrent > TEMPERATURE_IGNITER {
        smoker.SetRelay(Igniter, false, now);
      }
    }

    /**
     * manage_auger(): the duty cycle, timed from the auger's last toggle.
     * An auger that is off and was never toggled has no stamp to read.
     */
    method ManageAuger(now: real)
      requires Valid() && exit.None?
      modifies this`exit, smoker`levels, smoker`lastToggled
      ensures Valid()
      ensures exit.Some? <==> !old(smoker.levels[Auger]) && Auger !in old(smoker.lastToggled)
      ensures exit.Some? ==>
        exit == Some(KeyError) && smoker.levels == old(smoker.levels) && smoker.lastToggled == old(smoker.lastToggled)
      ensures exit.None? ==>
        smoker.levels == old(smoker.levels)[Auger := AugerNext(old(smoker.levels[Auger]),
          now - old(smoker.lastToggled[Auger]), smoker.cycleTimer as real, smoker.u)]
      ensures ExactlyStamped(old(smoker.levels), old(smoker.lastToggled), smoker.levels, smoker.lastToggled, now)
    {
      var on := smoker.levels[Auger];
      if on {
        if now - smoker.lastToggled[Auger] > smoker.cycleTimer as real * smoker.u && smoker.u < 1.0 {
          smoker.SetRelay(Auger, false, now);
        }
      } else {
        if Auger !in smoker.lastToggled {
          exit := Some(KeyError);
          return;
        }
        if now - smoker.lastToggled[Auger] > smoker.cycleTimer as real * (1.0 - smoker.u) {
          smoker.SetRelay(Auger, true, now);
        }
      }
    }

    /**
     * update_pid(): in Hold, at most every 20 s, feeds the average grill
     * reading to the PID and keeps its output within [U_MIN, U_MAX].
     */
    method UpdatePid(now: real)
      requires Valid() && exit.None?
      modifies this`exit, smoker`u, smoker`lastPidUpdate, smoker.pid
      ensures Valid()
      ensures !old(smoker.state.mode == Hold && smoker.TimerExpired(LastPidUpdate, FREQUENCY_UPDATE_PID as real, now)) ==>
        exit.None? && unchanged(smoker) && unchanged(smoker.pid)
      ensures old(smoker.state.mode == Hold && smoker.TimerExpired(LastPidUpdate, FREQUENCY_UPDATE_PID as real, now)) ==>
        && (old(smoker.averageForPid).None? ==> exit == Some(TypeError))
        && (old(smoker.averageForPid).Some? && now == old(smoker.pid.lastUpdatedTime) ==> exit == Some(ZeroDivision))
        && (old(smoker.averageForPid).Some? && now != old(smoker.pid.lastUpdatedTime) ==>
              && exit.None?
              && smoker.pid.Snapshot() == PIDController.Step(old(smoker.pid.Snapshot()), old(smoker.averageForPid).value, now)
              && smoker.u == ClampDuty(smoker.pid.u)
              && U_MIN <= smoker.u <= U_MAX
              && smoker.lastPidUpdate == Some(now))
    {
      if smoker.state.mode == Hold && smoker.TimerExpired(LastPidUpdate, FREQUENCY_UPDATE_PID as real, now) {
        if smoker.averageForPid.None? {
          exit := Some(TypeError);
          return;
        }
        if now == smoker.pid.lastUpdatedTime {
          exit := Some(ZeroDivision);
          return;
        }
        var output := smoker.pid.Update(smoker.averageForPid.value, now);
        smoker.u := output;
        smoker.u := Max(smoker.u, U_MIN);
        smoker.u := Min(smoker.u, U_MAX);
        smoker.lastPidUpdate := Some(now);
      }
    }

    /**
     * The first half of run_mode in a heating mode: the igniter rule, then
     * the auger duty cycle. Without an igniter timeout only the igniter and
     * the auger move; the auger fails with a KeyError exactly when it is
     * off and was never toggled.
     */
    method TendFire(now: real)
      requires Valid() && exit.None?
      modifies this, smoker`state, smoker`levels, smoker`lastToggled, smoker`lastProgramStarted,
               smoker`programSteps, smoker`cycleTimer, smoker`u, smoker.pid
      ensures Valid()
      ensures exit.Some? ==> exit == Some(KeyError)
      ensures exit == Some(KeyError) <==> !old(smoker.levels[Auger]) && Auger !in old(smoker.lastToggled)
      ensures exit.None? ==> smoker.levels[Igniter] ==> now - smoker.lastToggled[Igniter] <= TIMEOUT_IGNITER
      ensures ExactlyStamped(old(smoker.levels), old(smoker.lastToggled), smoker.levels, smoker.lastToggled, now)
      ensures old(IgnitionDue(now)) == TimeOut ==>
        && TimedOutTend(old(smoker.state), old(smoker.levels), old(smoker.lastToggled), old(smoker.cycleTimer),
                        old(smoker.u), old(trace), now)
        && unchanged(smoker.pid)
      ensures old(IgnitionDue(now)) != TimeOut ==>
        Settings() == old(Settings()) && trace == old(trace) && unchanged(smoker.pid)
      ensures old(IgnitionDue(now)) != TimeOut && old(Auger in smoker.lastToggled) ==>
        && smoker.levels == old(smoker.levels)
             [Igniter := IgniterLevel(old(IgnitionDue(now)), old(smoker.levels[Igniter]))]
             [Auger := AugerNext(old(smoker.levels[Auger]), now - old(smoker.lastToggled[Auger]),
                                 old(smoker.cycleTimer) as real, old(smoker.u))]
        && ExactlyStamped(old(smoker.levels), old(smoker.lastToggled), smoker.levels, smoker.lastToggled, now)
    {
      ghost var l0, t0 := smoker.levels, smoker.lastToggled;
      ManageIgniter(now);
      ghost var l1, t1 := smoker.levels, smoker.lastToggled;
      ghost var cycle := smoker.cycleTimer as real * (1.0 - smoker.u);
      assert cycle >= 0.0 by { NonNegativeProduct(smoker.cycleTimer as real, 1.0 - smoker.u); }
      ManageAuger(now);
      ExactlyStampedTrans(l0, t0, l1, t1, smoker.levels, smoker.lastToggled, now);
    }

    /**
     * TendFire as evidently intended: manage_auger runs only while the
     * smoker is still in a heating mode, so an igniter timeout leaves the
     * smoker exactly as the Shutdown entry actions do, auger off.
     */
    method TendFireIntended(now: real)
      requires Valid() && exit.None? && smoker.state.mode in {Start, Smoke, Hold, KeepWarm}
      modifies this, smoker`state, smoker`levels, smoker`lastToggled, smoker`lastProgramStarted,
               smoker`programSteps, smoker`cycleTimer, smoker`u, smoker.pid
      ensures Valid()
      ensures ExactlyStamped(old(smoker.levels), old(smoker.lastToggled), smoker.levels, smoker.lastToggled, now)
      ensures old(IgnitionDue(now)) == TimeOut ==>
        && exit.None? && ShutDownAt(now) && smoker.state == ShutdownOf(old(smoker.state))
        && trace == old(trace) + [DeleteProgram, PutState(smoker.state)]
        && unchanged(smoker.pid)
      ensures old(IgnitionDue(now)) != TimeOut ==>
        && (exit == Some(KeyError) <==> !old(smoker.levels[Auger]) && Auger !in old(smoker.lastToggled))
        && Settings() == old(Settings()) && trace == old(trace) && unchanged(smoker.pid)
    {
      ghost var l0, t0 := smoker.levels, smoker.lastToggled;
      ManageIgniter(now);
      if smoker.state.mode in {Start, Smoke, Hold, KeepWarm} {
        ghost var l1, t1 := smoker.levels, smoker.lastToggled;
        ManageAuger(now);
        ExactlyStampedTrans(l0, t0, l1, t1, smoker.levels, smoker.lastToggled, now);
      }
    }

    /** run_mode(): the per-pass actions of the heating modes. */
    method RunMode(now: real)
      requires Valid() && exit.None?
      modifies this, smoker`state, smoker`levels, smoker`lastToggled, smoker`lastProgramStarted,
               smoker`programSteps, smoker`cycleTimer, smoker`u, smoker`lastPidUpdate, smoker.pid
      ensures Valid()
      ensures old(smoker.state.mode) in {Idle, Shutdown, Off} ==>
        exit.None? && unchanged(smoker) && unchanged(smoker.pid) && trace == old(trace)
      ensures old(smoker.state.mode) != Hold ==>
        smoker.lastPidUpdate == old(smoker.lastPidUpdate) && unchanged(smoker.pid)
      ensures exit.Some? ==> exit.value in {KeyError, TypeError, ZeroDivision}
      ensures old(smoker.state.mode) in {Start, Smoke, Hold, KeepWarm} && exit.None? ==>
        smoker.levels[Igniter] ==> now - smoker.lastToggled[Igniter] <= TIMEOUT_IGNITER
      ensures old(smoker.state.mode) in {Start, Smoke, Hold, KeepWarm} ==>
        && (exit == Some(KeyError) <==> !old(smoker.levels[Auger]) && Auger !in old(smoker.lastToggled))
        && ExactlyStamped(old(smoker.levels), old(smoker.lastToggled), smoker.levels, smoker.lastToggled, now)
      ensures old(smoker.state.mode) in {Start, Smoke, Hold, KeepWarm} && old(IgnitionDue(now)) == TimeOut ==>
        && TimedOutTend(old(smoker.state), old(smoker.levels), old(smoker.lastToggled), old(smoker.cycleTimer),
                        old(smoker.u), old(trace), now)
        && smoker.lastPidUpdate == old(smoker.lastPidUpdate) && unchanged(smoker.pid)
      ensures old(smoker.state.mode) in {Start, Smoke, Hold, KeepWarm} && old(IgnitionDue(now)) != TimeOut &&
              old(Auger in smoker.lastToggled) ==>
        && smoker.levels == old(smoker.levels)
             [Igniter := IgniterLevel(old(IgnitionDue(now)), old(smoker.levels[Igniter]))]
             [Auger := AugerNext(old(smoker.levels[Auger]), now - old(smoker.lastToggled[Auger]),
                                 old(smoker.cycleTimer) as real, old(smoker.u))]
        && ExactlyStamped(old(smoker.levels), old(smoker.lastToggled), smoker.levels, smoker.lastToggled, now)
      ensures old(smoker.state.mode) == Hold && old(IgnitionDue(now)) != TimeOut && old(Auger in smoker.lastToggled) &&
              !old(smoker.TimerExpired(LastPidUpdate, FREQUENCY_UPDATE_PID as real, now)) ==>
        exit.None? && smoker.u == old(smoker.u) && smoker.lastPidUpdate == old(smoker.lastPidUpdate) && unchanged(smoker.pid)
      ensures old(smoker.state.mode) == Hold && old(IgnitionDue(now)) != TimeOut && old(Auger in smoker.lastToggled) &&
              old(smoker.TimerExpired(LastPidUpdate, FREQUENCY_UPDATE_PID as real, now)) ==>
        && (old(smoker.averageForPid).None? ==> exit == Some(TypeError))
        && (old(smoker.averageForPid).Some? && now == old(smoker.pid.lastUpdatedTime) ==> exit == Some(ZeroDivision))
        && (old(smoker.averageForPid).Some? && now != old(smoker.pid.lastUpdatedTime) ==>
              && exit.None?
              && smoker.pid.Snapshot() == PIDController.Step(old(smoker.pid.Snapshot()), old(smoker.averageForPid).value, now)
              && smoker.u == ClampDuty(smoker.pid.u)
              && smoker.lastPidUpdate == Some(now))
    {
      var mode := smoker.state.mode;
      if mode in {Start, Smoke, Hold, KeepWarm} {
        TendFire(now);
        if exit.Some? {
          return;
        }
      }
      if smoker.state.mode in {Hold, KeepWarm} {
        UpdatePid(now);
      }
    }

    /**
     * set_program(): applies the current step of the program, or, when
     * there is none to apply, drops program control and shuts down. In
     * every path that does not end the process the step's start time is
     * stamped.
     */
    method SetProgram(now: real)
      requires Valid() && exit.None?
      modifies this, smoker`state, smoker`levels, smoker`lastToggled, smoker`lastProgramStarted,
               smoker`programSteps, smoker`cycleTimer, smoker`u, smoker.pid
      ensures Valid()
      ensures exit.None? ==> smoker.lastProgramStarted == now
      ensures old(ProgramApplies()) && old(smoker.programIndex.value >= |smoker.programSteps|) ==>
        exit == Some(IndexError)
      ensures old(ProgramApplies()) && old(smoker.programIndex.value < |smoker.programSteps|) ==>
        StepApplied(old(smoker.programSteps[smoker.programIndex.value]), old(smoker.state.probeConnected), old(|trace|), now)
      ensures !old(ProgramApplies()) ==>
        && (old(|smoker.programSteps| > 0 && !smoker.state.power) ==>
              && exit.None? && smoker.programSteps == []
              && smoker.state.temps.probeTarget == None
              && (old(smoker.state.mode) in {Idle, Start, Hold, Smoke} ==> ShutDownAt(now)))
        && (old(|smoker.programSteps| == 0 && smoker.state.power) ==>
              exit.None? && ShutDownAt(now) && smoker.state.temps.probeTarget == None)
        && (old(smoker.state.power == (|smoker.programSteps| > 0)) ==> exit == Some(UndefinedName("smoke")))
      ensures old(|smoker.programSteps| > 0 && !smoker.state.power && smoker.state.mode !in {Idle, Start, Hold, Smoke}) ==>
        && smoker.state == old(smoker.state).(temps := old(smoker.state.temps).(probeTarget := None))
        && smoker.levels == old(smoker.levels) && smoker.lastToggled == old(smoker.lastToggled)
        && smoker.cycleTimer == old(smoker.cycleTimer) && smoker.u == old(smoker.u)
        && unchanged(smoker.pid) && trace == old(trace)
    {
      if smoker.state.power && |smoker.programSteps| > 0 && smoker.programIndex.Some? {
        ApplyStep(now);
      } else {
        DropProgram(now);
      }
      if exit.Some? {
        return;
      }
      smoker.lastProgramStarted := now;
    }

    /**
     * The branch of set_program that applies the current step: its grill
     * target, its probe target, the PID target and its mode. A Temp step
     * with no probe connected switches program control off, yet the step
     * is still applied.
     */
    method ApplyStep(now: real)
      requires Valid() && exit.None? && ProgramApplies()
      modifies this, smoker`state, smoker`levels, smoker`lastToggled, smoker`lastProgramStarted,
               smoker`programSteps, smoker`cycleTimer, smoker`u, smoker.pid
      ensures Valid()
      ensures old(smoker.programIndex.value >= |smoker.programSteps|) ==> exit == Some(IndexError)
      ensures old(smoker.programIndex.value < |smoker.programSteps|) ==>
        StepApplied(old(smoker.programSteps[smoker.programIndex.value]), old(smoker.state.probeConnected), old(|trace|), now)
    {
      var i := smoker.programIndex.value;
      if i >= |smoker.programSteps| {
        exit := Some(IndexError);
        return;
      }
      var step := smoker.programSteps[i];
      smoker.state := smoker.state.(temps := smoker.state.temps.(grillTarget := Some(step.targetGrill)));
      if step.trigger == Temp {
        if !smoker.state.probeConnected {
          smoker.state := smoker.state.(power := false);
          trace := trace + [PatchPower(false)];
        }
        smoker.state := smoker.state.(temps := smoker.state.temps.(probeTarget := Some(step.limit)));
      } else {
        smoker.state := smoker.state.(temps := smoker.state.temps.(probeTarget := None));
      }
      smoker.pid.SetPidTarget(step.targetGrill, now);
      SetMode(step.mode, now);
    }

    /**
     * The branch of set_program taken when no step can be applied: a
     * program left with control off is cleared, control on with no
     * program falls back to Hold, and either way a heating smoker shuts
     * down. The remaining case names an undefined variable.
     */
    method DropProgram(now: real)
      requires Valid() && exit.None? && !ProgramApplies()
      modifies this, smoker`state, smoker`levels, smoker`lastToggled, smoker`lastProgramStarted,
               smoker`programSteps, smoker`cycleTimer, smoker`u, smoker.pid
      ensures Valid()
      ensures old(|smoker.programSteps| > 0 && !smoker.state.power) ==>
        && exit.None? && smoker.programSteps == []
        && smoker.state.temps.probeTarget == None
        && (old(smoker.state.mode) in {Idle, Start, Hold, Smoke} ==> ShutDownAt(now))
      ensures old(|smoker.programSteps| == 0 && smoker.state.power) ==>
        exit.None? && ShutDownAt(now) && smoker.state.temps.probeTarget == None
      ensures old(smoker.state.power == (|smoker.programSteps| > 0)) ==> exit == Some(UndefinedName("smoke"))
      ensures old(|smoker.programSteps| > 0 && !smoker.state.power && smoker.state.mode !in {Idle, Start, Hold, Smoke}) ==>
        && smoker.state == old(smoker.state).(temps := old(smoker.state.temps).(probeTarget := None))
        && smoker.levels == old(smoker.levels) && smoker.lastToggled == old(smoker.lastToggled)
        && smoker.cycleTimer == old(smoker.cycleTimer) && smoker.u == old(smoker.u)
        && smoker.lastProgramStarted == old(smoker.lastProgramStarted)
        && unchanged(smoker.pid) && trace == old(trace)
    {
      if |smoker.programSteps| > 0 && !smoker.state.power {
        smoker.programSteps := [];
      } else if |smoker.programSteps| == 0 && smoker.state.power {
        smoker.state := smoker.state.(power := false);
        SetMode(Hold, now);
      } else {
        exit := Some(UndefinedName("smoke"));
        return;
      }
      smoker.state := smoker.state.(temps := smoker.state.temps.(probeTarget := None));
      if smoker.state.mode in {Idle, Start, Hold, Smoke} {
        SetMode(Shutdown, now);
      }
    }

    /**
     * next_program(): advances to the next step and applies it, shuts
     * down after the last step, and ends the process on an index past the
     * end.
     */
    method NextProgram(now: real)
      requires Valid() && exit.None?
      modifies this, smoker`state, smoker`levels, smoker`lastToggled, smoker`lastProgramStarted,
               smoker`programSteps, smoker`cycleTimer, smoker`u, smoker`programIndex, smoker.pid
      ensures Valid()
      ensures old(smoker.programIndex).None? ==> exit == Some(TypeError)
      ensures old(smoker.programIndex).Some? && old(smoker.programIndex.value + 1 < |smoker.programSteps|) ==>
        smoker.programIndex == Some(old(smoker.programIndex.value) + 1)
      ensures old(smoker.programIndex).Some? && old(smoker.programIndex.value + 1 < |smoker.programSteps|) &&
              old(smoker.state.power) ==>
        && StepApplied(old(smoker.programSteps[smoker.programIndex.value + 1]), old(smoker.state.probeConnected), old(|trace|), now)
        && (exit.None? ==> smoker.lastProgramStarted == now)
      ensures old(smoker.programIndex).Some? && old(smoker.programIndex.value + 1 < |smoker.programSteps|) &&
              !old(smoker.state.power) ==>
        && exit.None? && smoker.programSteps == [] && smoker.state.temps.probeTarget == None
        && smoker.lastProgramStarted == now
        && (old(smoker.state.mode) in {Idle, Start, Hold, Smoke} ==> ShutDownAt(now))
      ensures old(smoker.programIndex).Some? && old(smoker.programIndex.value + 1 == |smoker.programSteps|) ==>
        exit.None? && ShutDownAt(now) && smoker.programIndex == old(smoker.programIndex)
      ensures old(smoker.programIndex).Some? && old(smoker.programIndex.value + 1 > |smoker.programSteps|) ==>
        exit == Some(InvalidProgramIndex)
    {
      if smoker.programIndex.None? {
        exit := Some(TypeError);
        return;
      }
      var i := smoker.programIndex.value;
      if |smoker.programSteps| > i + 1 {
        smoker.programIndex := Some(i + 1);
        SetProgram(now);
      } else if |smoker.programSteps| == i + 1 {
        SetMode(Shutdown, now);
      } else {
        exit := Some(InvalidProgramIndex);
      }
    }

    /**
     * monitor_limits(): ends the current step once its time or probe
     * limit is passed, and turns the smoker off 10 minutes into Shutdown.
     */
    method MonitorLimits(now: real)
      requires Valid() && exit.None?
      modifies this, smoker`state, smoker`levels, smoker`lastToggled, smoker`lastProgramStarted,
               smoker`programSteps, smoker`cycleTimer, smoker`u, smoker`programIndex, smoker.pid
      ensures Valid()
      ensures old(smoker.state.power && smoker.programIndex.None?) ==> exit == Some(TypeError)
      ensures old(!smoker.state.power || (smoker.programIndex.Some? && !(ProgramRunning() && StepDue(now)))) ==>
        && smoker.programIndex == old(smoker.programIndex)
        && (old(smoker.state.mode) == Shutdown && old(smoker.TimerExpired(LastProgramStarted, TIMEOUT_SHUTDOWN, now)) ==>
              exit == Some(ModeOff) && trace == old(trace) + [PatchOff])
        && (!(old(smoker.state.mode) == Shutdown && old(smoker.TimerExpired(LastProgramStarted, TIMEOUT_SHUTDOWN, now))) ==>
              exit.None? && unchanged(smoker) && unchanged(smoker.pid) && trace == old(trace))
      ensures old(ProgramRunning() && StepDue(now)) ==>
        && (old(smoker.programIndex.value + 1 < |smoker.programSteps|) ==>
              && smoker.programIndex == Some(old(smoker.programIndex.value) + 1)
              && StepApplied(old(smoker.programSteps[smoker.programIndex.value + 1]), old(smoker.state.probeConnected), old(|trace|), now)
              && (exit.None? ==> smoker.lastProgramStarted == now))
        && (old(smoker.programIndex.value + 1 == |smoker.programSteps|) ==>
              exit.None? && ShutDownAt(now) && smoker.programIndex == old(smoker.programIndex))
    {
      if smoker.state.power {
        if smoker.programIndex.None? {
          exit := Some(TypeError);
          return;
        }
        var i := smoker.programIndex.value;
        if |smoker.programSteps| >= i + 1 {
          var step := smoker.programSteps[i];
          if StepFinished(step, now - smoker.lastProgramStarted, smoker.state.temps.probeCurrent) {
            NextProgram(now);
            if exit.Some? {
              return;
            }
          }
        }
      }
      if smoker.state.mode == Shutdown && smoker.TimerExpired(LastProgramStarted, TIMEOUT_SHUTDOWN, now) {
        SetMode(Off, now);
      }
    }

    /** Program control is on and its index names a step. */
    ghost predicate ProgramRunning()
      reads this, smoker
    {
      && smoker.state.power && smoker.programIndex.Some?
      && smoker.programIndex.value < |smoker.programSteps|
    }

    /** The running step's limit has been reached at time `now`. */
    ghost predicate StepDue(now: real)
      requires ProgramRunning()
      reads this, smoker
    {
      StepFinished(smoker.programSteps[smoker.programIndex.value], now - smoker.lastProgramStarted,
                   smoker.state.temps.probeCurrent)
    }

    /**
     * handle_program_update(new_program): a program with a new id replaces
     * the current one from its first step, and is applied when program
     * control is on; the same id changes nothing.
     */
    method HandleProgramUpdate(p: Program, now: real)
      requires Valid() && exit.None?
      modifies this, smoker`state, smoker`levels, smoker`lastToggled, smoker`lastProgramStarted,
               smoker`programSteps, smoker`cycleTimer, smoker`u, smoker`programIndex, smoker`programId, smoker.pid
      ensures Valid()
      ensures old(smoker.programId) == Some(p.id) ==>
        exit.None? && unchanged(smoker) && unchanged(smoker.pid) && trace == old(trace)
      ensures old(smoker.programId) != Some(p.id) ==>
        smoker.programId == Some(p.id) && smoker.programIndex == Some(0)
      ensures old(smoker.programId) != Some(p.id) && old(smoker.state.power) && old(smoker.state.mode) in {Smoke, Hold} ==>
        exit == Some(UndefinedName("new_program_data"))
      ensures old(smoker.programId) != Some(p.id) && !old(smoker.state.power) ==>
        && exit.None? && smoker.programSteps == p.steps
        && Settings() == old(Settings()).(1 := p.steps)
        && smoker.levels == old(smoker.levels) && unchanged(smoker.pid) && trace == old(trace)
      ensures old(smoker.programId) != Some(p.id) && old(smoker.state.power) && old(smoker.state.mode) !in {Smoke, Hold} ==>
        && (p.steps != [] ==> StepApplied(p.steps[0], old(smoker.state.probeConnected), old(|trace|), now))
        && (p.steps == [] ==> exit.None? && ShutDownAt(now) && smoker.state.temps.probeTarget == None)
        && (exit.None? ==> smoker.lastProgramStarted == now)
    {
      if Some(p.id) != smoker.programId {
        smoker.programId := Some(p.id);
        smoker.programIndex := Some(0);
        smoker.programSteps := p.steps;
        var skipStartMode := smoker.state.power && smoker.state.mode in {Smoke, Hold};
        if skipStartMode {
          exit := Some(UndefinedName("new_program_data"));
          return;
        }
        if smoker.state.power {
          SetProgram(now);
        }
      }
    }

    /**
     * post_boot(): marks the smoker online and posts its state; the reply
     * decides whether the service counts as connected. An unreachable
     * service ends the process, since the error message reads a response
     * that was never assigned.
     */
    method PostBoot(reply: Reply)
      requires Valid()
      modifies this`trace, this`exit, smoker`state, smoker`connected
      ensures Valid()
      ensures smoker.state == old(smoker.state).(online := true)
      ensures trace == old(trace) + [Boot(smoker.state)]
      ensures reply == Unreachable ==> exit == Some(UndefinedName("response")) && smoker.connected == old(smoker.connected)
      ensures reply != Unreachable ==> exit == old(exit) && smoker.connected == (reply == Ok)
    {
      smoker.state := smoker.state.(online := true);
      trace := trace + [Boot(smoker.state)];
      match reply {
        case Unreachable =>
          exit := Some(UndefinedName("response"));
        case Ok =>
          smoker.connected := true;
        case Rejected =>
          smoker.connected := false;
      }
    }

    /**
     * post_heartbeat(): at most every 10 s, stamps the heartbeat timer and
     * posts the state. The stamp is the only write of that timer, so it
     * also holds off read_temps for the next 10 s. An unreachable service
     * marks the smoker disconnected, a rejection leaves the flag alone.
     */
    method PostHeartbeat(now: real, reply: Reply)
      requires Valid()
      modifies this`trace, smoker`connected, smoker`lastHeartbeat
      ensures Valid()
      ensures !old(smoker.TimerExpired(LastHeartbeat, FREQUENCY_LOG_TEMPS, now)) ==>
        unchanged(smoker) && trace == old(trace)
      ensures old(smoker.TimerExpired(LastHeartbeat, FREQUENCY_LOG_TEMPS, now)) ==>
        && smoker.lastHeartbeat == Some(now)
        && !smoker.TimerExpired(LastHeartbeat, FREQUENCY_LOG_TEMPS, now)
        && trace == old(trace) + [Heartbeat(smoker.state)]
        && smoker.connected == (if reply == Rejected then old(smoker.connected) else reply == Ok)
    {
      if smoker.TimerExpired(LastHeartbeat, FREQUENCY_LOG_TEMPS, now) {
        smoker.lastHeartbeat := Some(now);
        trace := trace + [Heartbeat(smoker.state)];
        if reply == Unreachable {
          smoker.connected := false;
        } else if reply == Ok {
          smoker.connected := true;
        }
      }
    }

    /**
     * check_for_program_id() followed by get_steps_for_id(id): asks the
     * service for a program id, then for that program's steps, and adopts
     * the program from its first step when both requests succeed. `p` is
     * what the two replies carry. A request that raises ends the process;
     * a rejected one changes nothing.
     */
    method CheckForProgram(lookup: Reply, fetch: Reply, p: Program)
      requires Valid()
      modifies this`exit, smoker`programId, smoker`programIndex, smoker`programSteps
      ensures Valid()
      ensures lookup == Unreachable || (lookup == Ok && fetch == Unreachable) ==>
        exit == Some(RequestFailed) && unchanged(smoker)
      ensures lookup == Rejected || (lookup == Ok && fetch == Rejected) ==>
        exit == old(exit) && unchanged(smoker)
      ensures lookup == Ok && fetch == Ok ==>
        && exit == old(exit)
        && smoker.programId == Some(p.id) && smoker.programIndex == Some(0) && smoker.programSteps == p.steps
    {
      if lookup == Unreachable {
        exit := Some(RequestFailed);
      } else if lookup == Ok {
        if fetch == Unreachable {
          exit := Some(RequestFailed);
        } else if fetch == Ok {
          smoker.programId := Some(p.id);
          smoker.programIndex := Some(0);
          smoker.programSteps := p.steps;
        }
      }
    }

    /**
     * read_temps(): takes new readings when the last heartbeat is more than
     * 10 s old (the grill reading is never None here, since initialize
     * stores one).
     */
    method ReadTemps(now: real, grill: real, probe: Option<real>)
      requires Valid()
      modifies smoker`state, smoker`grillHistory, smoker`averageForPid
      ensures Valid()
      ensures old(smoker.TimerExpired(LastHeartbeat, FREQUENCY_LOG_TEMPS, now)) ==>
        && smoker.grillHistory == Window(old(smoker.grillHistory), grill)
        && smoker.averageForPid == Some(Mean(smoker.grillHistory))
        && smoker.state == old(smoker.state).(temps := old(smoker.state.temps).(grillCurrent := grill, probeCurrent := probe))
      ensures !old(smoker.TimerExpired(LastHeartbeat, FREQUENCY_LOG_TEMPS, now)) ==> unchanged(smoker)
    {
      if smoker.TimerExpired(LastHeartbeat, FREQUENCY_LOG_TEMPS, now) {
        smoker.ReadTemps(grill, probe);
      }
    }
  }
  // ---------------------------------------------------------------------
  // Lemmas about the per-pass rules

  /**
   * The igniter rule in full: a timeout exactly when an igniter has been
   * on for more than 15 minutes; it is lit only when off and below
   * 100 °F, put out only when on and above it; and an igniter it leaves
   * on has been on for at most 15 minutes.
   */
  lemma IgniterRuleCases(on: bool, onFor: real, grill: real)
    ensures IgniterRule(on, onFor, grill) == TimeOut <==> on && onFor > TIMEOUT_IGNITER
    ensures IgniterRule(on, onFor, grill) == Ignite <==> !on && grill < TEMPERATURE_IGNITER
    ensures IgniterRule(on, onFor, grill) == Extinguish <==>
      on && onFor <= TIMEOUT_IGNITER && grill > TEMPERATURE_IGNITER
    ensures on && IgniterRule(on, onFor, grill) == Keep ==> onFor <= TIMEOUT_IGNITER
  {
  }

  /** At exactly 100 °F an igniter that has not timed out is left as it is. */
  lemma IgniterIdleAtThreshold(on: bool, onFor: real)
    requires !on || onFor <= TIMEOUT_IGNITER
    ensures IgniterRule(on, onFor, TEMPERATURE_IGNITER) == Keep
  {
  }

  /** With continuous duty (u = 1) the auger rule never stops a running auger. */
  lemma AugerContinuousAtFullDuty(elapsed: real, cycleTimer: real)
    ensures AugerNext(true, elapsed, cycleTimer, U_MAX)
  {
  }

  /**
   * The auger runs for cycleTimer*u seconds and rests for
   * cycleTimer*(1-u): it changes level only once the strict bound for its
   * current level is passed.
   */
  lemma AugerPhases(on: bool, elapsed: real, cycleTimer: real, u: real)
    requires u < 1.0
    ensures AugerNext(on, elapsed, cycleTimer, u) != on <==>
      elapsed > (if on then cycleTimer * u else cycleTimer * (1.0 - u))
  {
  }

  /** At the Hold minimum (u = 0.15 over 20 s) the auger runs 3 s and rests 17 s. */
  lemma HoldMinimumDuty()
    ensures AugerNext(true, 3.0, FREQUENCY_UPDATE_PID as real, U_MIN)
    ensures !AugerNext(true, 3.5, FREQUENCY_UPDATE_PID as real, U_MIN)
    ensures !AugerNext(false, 17.0, FREQUENCY_UPDATE_PID as real, U_MIN)
    ensures AugerNext(false, 17.5, FREQUENCY_UPDATE_PID as real, U_MIN)
  {
  }

  /** A Time step, once finished, stays finished as time passes, whatever the probe reads. */
  lemma TimeStepStaysFinished(step: Step, elapsed: real, later: real, probe: Option<real>, probeLater: Option<real>)
    requires step.trigger == Time && elapsed <= later
    requires StepFinished(step, elapsed, probe)
    ensures StepFinished(step, later, probeLater)
  {
  }

  /** A Temp step never finishes without a probe reading, and finishes on a reading above its limit. */
  lemma TempStepNeedsProbe(step: Step, elapsed: real, probe: Option<real>)
    requires step.trigger == Temp
    ensures StepFinished(step, elapsed, probe) <==> probe.Some? && probe.value > step.limit
  {
  }

  /**
   * A PID rebuilt by the Start entry actions and fed the target
   * temperature asks for half duty, which the maintenance range passes
   * unchanged.
   */
  lemma StartThenHoldAtTargetHalfDuty(target: real, t0: real, now: real)
    requires now != t0
    ensures ClampDuty(PIDController.Step(Initial(60.0, 45.0, 180.0, target, t0), target, now).u) == 0.5
  {
    InitialAtTargetGivesHalf(60.0, 45.0, 180.0, target, t0, now);
  }

  /**
   * As written, the auger can run in Shutdown. In Smoke at p-setting 2
   * (an 80 s cycle at duty 0.1875) with the igniter lit at 0 s and the
   * auger stopped at 20 s, the pass at 1000 s times the igniter out and
   * shuts down, and manage_auger then starts the auger, which has rested
   * 980 s, longer than its 65 s off-time.
   */
  lemma AugerRestartsInShutdown(f: Firmware, s0: ControlState, trace0: seq<Event>)
    requires f.exit.None?
    requires f.TimedOutTend(s0, map[Fan := true, Auger := false, Igniter := true],
                            map[Fan := 0.0, Auger := 20.0, Igniter := 0.0], 80, 0.1875, trace0, 1000.0)
    ensures f.smoker.state.mode == Shutdown && !f.smoker.state.power
    ensures f.smoker.levels[Auger]
  {
  }
}
