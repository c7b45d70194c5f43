/**
 * The smoker object of the firmware (Smoker.py): the relay bank, the
 * timers, the duty-cycle settings, the program slots and the grill-reading
 * history. GPIO pins become a map from relay to level; sensor readings and
 * the clock are parameters.
 */
module SmokerState {
  import opened Wrappers
  import opened PIDController

  datatype Relay = Auger | Fan | Igniter

  /** The modes the remote service and the program steps use ("Keep Warm" is KeepWarm). */
  datatype Mode = Idle | Start | Smoke | Hold | KeepWarm | Shutdown | Off

  datatype Trigger = Time | Temp

  /** One step of a cook program: the mode to run, the grill target, and when the step ends. */
  datatype Step = Step(mode: Mode, targetGrill: real, trigger: Trigger, limit: real)

  datatype Temps = Temps(grillCurrent: real, grillTarget: Option<real>, probeCurrent: Option<real>, probeTarget: Option<real>)

  /** The state document shared with the remote service. */
  datatype ControlState = ControlState(mode: Mode, online: bool, power: bool, temps: Temps, probeConnected: bool)

  /** The timers that timer_expired is asked about. */
  datatype Timer = LastPidUpdate | LastHeartbeat | LastProgramStarted

  /** A timer fires when it was never stamped or when more than `timeout` seconds have passed. */
  predicate Expired(stamp: Option<real>, timeout: real, now: real) {
    stamp.None? || now - stamp.value > timeout
  }

  /**
   * set_pause_cycle(p): the auger runs 15 s in every cycle of 60 + 10p
   * seconds. The result is (cycle_timer, u).
   */
  function PauseCycle(p: nat): (c: (int, real))
    ensures c.0 == 60 + 10 * p
    ensures c.0 as real * c.1 == 15.0
    ensures 0.0 < c.1 <= 0.25
  {
    var augerOn, augerOff := 15, 45 + p * 10;
    (augerOn + augerOff, augerOn as real / (augerOn + augerOff) as real)
  }

  /** The grill history after a reading: `(h + [x])[-6:]`. */
  function Window(h: seq<real>, x: real): (w: seq<real>)
    ensures 0 < |w| <= 6
    ensures |w| == if |h| < 6 then |h| + 1 else 6
    ensures w[|w| - 1] == x
    ensures forall k :: 0 <= k < |w| - 1 ==> w[k] == h[|h| - |w| + 1 + k]
  {
    var e := h + [x];
    if |e| <= 6 then e else e[|e| - 6..]
  }

  function Sum(h: seq<real>): real {
    if h == [] then 0.0 else Sum(h[..|h| - 1]) + h[|h| - 1]
  }

  /** sum(h) / len(h) */
  function Mean(h: seq<real>): real
    requires h != []
  {
    Sum(h) / |h| as real
  }

  /** Every relay has a level. */
  predicate HasLevels(l: map<Relay, bool>) {
    Auger in l && Fan in l && Igniter in l
  }

  /**
   * Relay `r` was stamped `now` if its level changed, keeps any stamp it
   * had, and its stamp is either the old one or `now`.
   */
  predicate RelayStamped(r: Relay, l0: map<Relay, bool>, t0: map<Relay, real>, l1: map<Relay, bool>, t1: map<Relay, real>, now: real) {
    && (r in l0 && r in l1 && l0[r] != l1[r] ==> r in t1 && t1[r] == now)
    && (r in t0 ==> r in t1)
    && (r in t1 ==> t1[r] == now || (r in t0 && t1[r] == t0[r]))
  }

  /** Every relay whose level changed was stamped `now`, and every other stamp is kept or restamped `now`. */
  predicate ToggleStamped(l0: map<Relay, bool>, t0: map<Relay, real>, l1: map<Relay, bool>, t1: map<Relay, real>, now: real) {
    && RelayStamped(Auger, l0, t0, l1, t1, now)
    && RelayStamped(Fan, l0, t0, l1, t1, now)
    && RelayStamped(Igniter, l0, t0, l1, t1, now)
  }

  /** Relay `r` kept its level, and with it its stamp or its lack of one. */
  predicate StampKept(r: Relay, l0: map<Relay, bool>, t0: map<Relay, real>, l1: map<Relay, bool>, t1: map<Relay, real>) {
    r in l0 && r in l1 && l0[r] == l1[r] ==> (r in t1 <==> r in t0) && (r in t0 ==> t1[r] == t0[r])
  }

  /**
   * What set_relay calls that change each relay at most once leave behind:
   * exactly the relays whose level changed are stamped `now`, and every
   * other stamp is as it was.
   */
  predicate ExactlyStamped(l0: map<Relay, bool>, t0: map<Relay, real>, l1: map<Relay, bool>, t1: map<Relay, real>, now: real) {
    && ToggleStamped(l0, t0, l1, t1, now)
    && StampKept(Auger, l0, t0, l1, t1)
    && StampKept(Fan, l0, t0, l1, t1)
    && StampKept(Igniter, l0, t0, l1, t1)
  }

  /** Relay `r` has a level in `l` and it is on. */
  predicate WasOn(l: map<Relay, bool>, r: Relay) {
    r in l && l[r]
  }

  /** A relay that is on has a toggle stamp. */
  predicate OnRelaysStamped(l: map<Relay, bool>, t: map<Relay, real>)
    requires HasLevels(l)
  {
    && (l[Auger] ==> Auger in t)
    && (l[Fan] ==> Fan in t)
    && (l[Igniter] ==> Igniter in t)
  }

  class Smoker {
    var state: ControlState
    var levels: map<Relay, bool>
    var lastToggled: map<Relay, real>
    var lastPidUpdate: Option<real>
    var lastHeartbeat: Option<real>
    var boot: real
    var lastProgramStarted: real
    var u: real
    var cycleTimer: int
    var programId: Option<string>
    var programIndex: Option<nat>
    var programSteps: seq<Step>
    var pSetting: nat
    var grillHistory: seq<real>
    var averageForPid: Option<real>
    var connected: bool
    var thermocoupleConnected: bool
    const pid: PID

    /**
     * Every relay has a level, a relay that is on has a toggle stamp, the
     * auger cycle is positive with a duty in (0, 1], the history holds at
     * most six readings, and the average is their mean.
     */
    ghost predicate Valid()
      reads this`levels, this`lastToggled, this`u, this`cycleTimer, this`grillHistory, this`averageForPid, pid`ki, pid`interMax
    {
      && HasLevels(levels)
      && OnRelaysStamped(levels, lastToggled)
      && 0.0 < u <= 1.0 && cycleTimer > 0
      && |grillHistory| <= 6
      && (averageForPid.Some? <==> grillHistory != [])
      && (grillHistory != [] ==> averageForPid.value == Mean(grillHistory))
      && pid.Valid()
    }

    /**
     * __init__ followed by initialize: `bootLevels` are the relay levels
     * found at power-up and `grillReading` the first grill reading.
     */
    constructor (now: real, grillReading: real, probeConnected: bool, bootLevels: map<Relay, bool>)
      requires forall r :: r in bootLevels
      ensures Valid()
      ensures fresh(pid)
      ensures state == ControlState(Idle, false, false, Temps(grillReading, None, None, None), probeConnected)
      ensures forall r :: r in levels && !levels[r]
      ensures forall r :: r in lastToggled <==> bootLevels[r]
      ensures forall r :: r in lastToggled ==> lastToggled[r] == now
      ensures u == 0.15 && cycleTimer == 20 && pSetting == 2
      ensures boot == now && lastProgramStarted == boot
      ensures programId == None && programIndex == None && programSteps == []
      ensures lastPidUpdate == None && lastHeartbeat == None
      ensures grillHistory == [] && averageForPid == None
      ensures !connected && thermocoupleConnected == probeConnected
      ensures pid.Snapshot() == Initial(60.0, 180.0, 45.0, 0.0, now)
    {
      connected := false;
      programId := None;
      programIndex := None;
      programSteps := [];
      pSetting := 2;
      lastPidUpdate := None;
      lastHeartbeat := None;
      lastToggled := map[];
      grillHistory := [];
      averageForPid := None;
      thermocoupleConnected := probeConnected;
      boot := now;
      lastProgramStarted := now;
      state := ControlState(Idle, false, false, Temps(grillReading, None, None, None), probeConnected);
      u := 0.15;
      cycleTimer := 20;
      pid := new PID(60.0, 180.0, 45.0, 0.0, now);
      levels := bootLevels;
      new;
      AllRelaysOff(now);
    }

    /**
     * The loop at the end of initialize: set_relay(key, False) for every
     * relay in turn, which stamps exactly the relays that were on.
     */
    method AllRelaysOff(now: real)
      requires HasLevels(levels)
      modifies this`levels, this`lastToggled
      ensures forall r :: r in levels && !levels[r]
      ensures forall r :: r in lastToggled <==> r in old(lastToggled) || WasOn(old(levels), r)
      ensures forall r :: r in lastToggled ==> lastToggled[r] == if WasOn(old(levels), r) then now else old(lastToggled)[r]
    {
      forall r: Relay
        ensures r in levels
      {
        match r
        case Auger =>
        case Fan =>
        case Igniter =>
      }
      var relays := [Auger, Fan, Igniter];
      var i := 0;
      while i < |relays|
        invariant 0 <= i <= |relays|
        invariant forall r :: r in levels && levels[r] == (WasOn(old(levels), r) && r !in relays[..i])
        invariant forall r :: r in lastToggled <==> r in old(lastToggled) || (WasOn(old(levels), r) && r in relays[..i])
        invariant forall r :: r in lastToggled ==>
          lastToggled[r] == if WasOn(old(levels), r) && r in relays[..i] then now else old(lastToggled)[r]
      {
        SetRelay(relays[i], false, now);
        i := i + 1;
      }
      assert relays[..i] == relays;
      forall r: Relay
        ensures r in relays
      {
        assert r == relays[0] || r == relays[1] || r == relays[2];
      }
    }

    /** timer_expired(timer, timeout) */
    predicate TimerExpired(t: Timer, timeout: real, now: real)
      reads this
      ensures t == LastPidUpdate ==>
        (TimerExpired(t, timeout, now) <==> lastPidUpdate.None? || now - lastPidUpdate.value > timeout)
      ensures t == LastHeartbeat ==>
        (TimerExpired(t, timeout, now) <==> lastHeartbeat.None? || now - lastHeartbeat.value > timeout)
      ensures t == LastProgramStarted ==> (TimerExpired(t, timeout, now) <==> now - lastProgramStarted > timeout)
    {
      match t
      case LastPidUpdate => Expired(lastPidUpdate, timeout, now)
      case LastHeartbeat => Expired(lastHeartbeat, timeout, now)
      case LastProgramStarted => Expired(Some(lastProgramStarted), timeout, now)
    }

    /**
     * set_relay(relay, target): drives the relay to `target` and stamps it
     * only when its level really changes.
     */
    method SetRelay(r: Relay, target: bool, now: real)
      requires r in levels
      modifies this`levels, this`lastToggled
      ensures levels == old(levels)[r := target]
      ensures ToggleStamped(old(levels), old(lastToggled), levels, lastToggled, now)
      ensures old(levels)[r] == target ==> lastToggled == old(lastToggled)
      ensures old(levels)[r] != target ==> lastToggled == old(lastToggled)[r := now]
      ensures old(Valid()) ==> Valid()
    {
      if levels[r] != target {
        lastToggled := lastToggled[r := now];
        levels := levels[r := target];
      }
    }

    /** set_pause_cycle(p) */
    method SetPauseCycle(p: nat)
      modifies this`cycleTimer, this`u
      ensures (cycleTimer, u) == PauseCycle(p)
    {
      var augerOn, augerOff := 15, 45 + p * 10;
      cycleTimer := augerOn + augerOff;
      u := augerOn as real / (augerOn + augerOff) as real;
    }

    /**
     * read_temps(): records a grill reading in the six-sample history,
     * recomputes the average, and stores both readings in the state.
     */
    method ReadTemps(grill: real, probe: Option<real>)
      requires Valid()
      modifies this`state, this`grillHistory, this`averageForPid
      ensures Valid()
      ensures grillHistory == Window(old(grillHistory), grill)
      ensures averageForPid == Some(Mean(grillHistory))
      ensures state == old(state).(temps := old(state).temps.(grillCurrent := grill, probeCurrent := probe))
    {
      state := state.(temps := state.temps.(grillCurrent := grill));
      var h := grillHistory + [grill];
      if |h| > 6 {
        h := h[|h| - 6..];
      }
      grillHistory := h;
      averageForPid := Some(Sum(grillHistory) / |grillHistory| as real);
      state := state.(temps := state.temps.(probeCurrent := probe));
    }
  }

  // ---------------------------------------------------------------------
  // Lemmas

  /** For the default p-setting 2 the cycle is 80 s with duty 0.1875. */
  lemma DefaultPauseCycle()
    ensures PauseCycle(2) == (80, 0.1875)
  {
  }

  /** The sum of readings that all lie in [lo, hi] lies in [n*lo, n*hi]. */
  lemma {:induction false} SumBounds(h: seq<real>, lo: real, hi: real)
    requires forall k :: 0 <= k < |h| ==> lo <= h[k] <= hi
    ensures |h| as real * lo <= Sum(h) <= |h| as real * hi
  {
    if h != [] {
      SumBounds(h[..|h| - 1], lo, hi);
    }
  }

  /** The average lies between the lowest and the highest reading averaged. */
  lemma MeanBounds(h: seq<real>, lo: real, hi: real)
    requires h != []
    requires forall k :: 0 <= k < |h| ==> lo <= h[k] <= hi
    ensures lo <= Mean(h) <= hi
  {
    SumBounds(h, lo, hi);
    var n := |h| as real;
    assert n * lo <= Sum(h) <= n * hi;
    assert Sum(h) / n >= lo by {
      assert Sum(h) >= n * lo;
    }
    assert Sum(h) / n <= hi by {
      assert Sum(h) <= n * hi;
    }
  }

  /** Six equal readings average to that reading. */
  lemma {:induction false} SteadyReadingsMean(h: seq<real>, x: real)
    requires h != []
    requires forall k :: 0 <= k < |h| ==> h[k] == x
    ensures Mean(h) == x
  {
    MeanBounds(h, x, x);
  }

  /** The window keeps the newest readings in order: a reading older than six is dropped. */
  lemma WindowSlides(h: seq<real>, x: real)
    requires |h| == 6
    ensures Window(h, x) == h[1..] + [x]
  {
  }

  /** A timer that has fired stays fired as time goes on. */
  lemma ExpiredStaysExpired(stamp: Option<real>, timeout: real, now: real, later: real)
    requires now <= later
    requires Expired(stamp, timeout, now)
    ensures Expired(stamp, timeout, later)
  {
  }

  /** A timer stamped just now has not fired for a non-negative timeout; one never stamped always has. */
  lemma FreshStampNotExpired(timeout: real, now: real)
    requires timeout >= 0.0
    ensures !Expired(Some(now), timeout, now)
    ensures Expired(None, timeout, now)
  {
  }

  /** Stamps composed over several relay changes at one time are again stamped at that time. */
  lemma ToggleStampedTrans(l0: map<Relay, bool>, t0: map<Relay, real>, l1: map<Relay, bool>, t1: map<Relay, real>,
                           l2: map<Relay, bool>, t2: map<Relay, real>, now: real)
    requires HasLevels(l0) && HasLevels(l1) && HasLevels(l2)
    requires ToggleStamped(l0, t0, l1, t1, now) && ToggleStamped(l1, t1, l2, t2, now)
    ensures ToggleStamped(l0, t0, l2, t2, now)
  {
  }

  /** Relay `r` changes level in at most one of two steps. */
  predicate ChangesOnce(r: Relay, l0: map<Relay, bool>, l1: map<Relay, bool>, l2: map<Relay, bool>) {
    r in l0 && r in l1 && r in l2 ==> l0[r] == l1[r] || l1[r] == l2[r]
  }

  /** Two exact stampings at one time compose when no relay changes level in both. */
  lemma ExactlyStampedTrans(l0: map<Relay, bool>, t0: map<Relay, real>, l1: map<Relay, bool>, t1: map<Relay, real>,
                            l2: map<Relay, bool>, t2: map<Relay, real>, now: real)
    requires HasLevels(l0) && HasLevels(l1) && HasLevels(l2)
    requires ExactlyStamped(l0, t0, l1, t1, now) && ExactlyStamped(l1, t1, l2, t2, now)
    requires ChangesOnce(Auger, l0, l1, l2) && ChangesOnce(Fan, l0, l1, l2) && ChangesOnce(Igniter, l0, l1, l2)
    ensures ExactlyStamped(l0, t0, l2, t2, now)
  {
  }
}
