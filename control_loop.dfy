/**
 * One tick of the main loop (main.py:310-383): read the sensors, convert and
 * classify, run the email logic, and swallow any exception at the tick
 * boundary.  The model represents two exceptions that reach that boundary:
 * one from the DHT11 read that is not an OSError, and the domain error of
 * math.pow inside get_mq135_ppm.  When either is raised the rest of the tick,
 * the email logic included, is skipped and both flags are unchanged.  The
 * display calls are assumed not to raise.
 *
 * The AirMonitor class holds the two flags the loop updates in place; the
 * functions LoopStep, LoopRun and LoopOutcomes specify its methods.
 */
module ControlLoop {
  import opened Config
  import opened Sensors
  import opened Classifier
  import opened Notification

  datatype Option<T> = None | Some(value: T)

  /**
   * The DHT11 read of main.py:316-322: a measurement, an OSError (caught at
   * main.py:320), or any other exception, which only the tick-level handler
   * of main.py:381-383 catches.
   */
  datatype DhtRead = DhtOk(temperature: real, humidity: real) | DhtOsError | DhtOtherError

  /** Everything a tick takes from the hardware, the network and the transport. */
  datatype Environment = Environment(
    dht: DhtRead,
    dustRaw: Raw,
    gasRaw: Raw,
    connectedForInitial: bool,
    initialSendResult: bool,
    connectedForAlert: bool,
    alertSendResult: bool)

  /** The readings of one tick. */
  datatype Reading = Reading(temperature: real, humidity: real, gasPpm: real, dustDensity: real)

  /** A tick either faults (main.py:381-383) or runs to its end. */
  datatype TickOutcome =
    | Faulted
    | Completed(reading: Reading, gas: GasQuality, dust: DustQuality, decision: Decision)

  /**
   * The sensor half of a tick (main.py:312-332): temperature and humidity
   * reset to 0.0 and kept there when the DHT11 read raises OSError; None when
   * the DHT11 read raises anything else or the gas conversion raises.
   */
  function Measure(cal: Calibration, pow: PowFn, env: Environment): (m: Option<Reading>)
    ensures m.None? <==>
              env.dht.DhtOtherError? || GasPpm(cal, pow, SensorResistance(env.gasRaw)).MathDomainError?
    ensures m.Some? ==> m.value.gasPpm == GasPpm(cal, pow, SensorResistance(env.gasRaw)).value
    ensures m.Some? ==> m.value.dustDensity == DustDensity(env.dustRaw) && m.value.dustDensity >= 0.0
    ensures m.Some? && env.dht.DhtOsError? ==> m.value.temperature == 0.0 && m.value.humidity == 0.0
    ensures m.Some? && env.dht.DhtOk? ==>
              m.value.temperature == env.dht.temperature && m.value.humidity == env.dht.humidity
  {
    var temp := if env.dht.DhtOk? then env.dht.temperature else 0.0;
    var hum := if env.dht.DhtOk? then env.dht.humidity else 0.0;
    var density := DustDensity(env.dustRaw);
    if env.dht.DhtOtherError? then None
    else
      match GasPpm(cal, pow, SensorResistance(env.gasRaw))
      case Value(ppm) => Some(Reading(temp, hum, ppm, density))
      case MathDomainError => None
  }

  /** What the email logic of a completed tick sees. */
  function ObservationOf(reading: Reading, env: Environment): Observation {
    Observation(ClassifyGas(reading.gasPpm), ClassifyDust(reading.dustDensity),
                env.connectedForInitial, env.initialSendResult,
                env.connectedForAlert, env.alertSendResult)
  }

  /** The observation of a tick, or None if the tick faults. */
  function Observe(cal: Calibration, pow: PowFn, env: Environment): Option<Observation> {
    match Measure(cal, pow, env)
    case Some(reading) => Some(ObservationOf(reading, env))
    case None => None
  }

  /**
   * One whole tick: a faulted tick leaves the flags as they were and sends
   * nothing; a completed tick classifies its readings and applies the email
   * logic of Step to them.
   */
  function LoopStep(cal: Calibration, pow: PowFn, f: Flags, env: Environment): (r: (TickOutcome, Flags))
    ensures r.0.Faulted? <==>
              env.dht.DhtOtherError? || GasPpm(cal, pow, SensorResistance(env.gasRaw)).MathDomainError?
    ensures r.0.Faulted? ==> r.1 == f
    ensures r.0.Completed? ==>
              && Measure(cal, pow, env) == Some(r.0.reading)
              && r.0.gas == ClassifyGas(r.0.reading.gasPpm)
              && r.0.dust == ClassifyDust(r.0.reading.dustDensity)
              && Step(f, ObservationOf(r.0.reading, env)) == StepResult(r.0.decision, r.1)
  {
    match Measure(cal, pow, env)
    case None => (Faulted, f)
    case Some(reading) =>
      var o := ObservationOf(reading, env);
      var s := Step(f, o);
      (Completed(reading, o.gas, o.dust, s.decision), s.next)
  }

  /**
   * With the shipped calibration a tick faults exactly when the DHT11 read
   * raises something other than OSError or the gas reading is 0 or ADC_MAX.
   */
  lemma DeviceTickFaults(pow: PowFn, f: Flags, env: Environment)
    ensures LoopStep(DeviceCalibration, pow, f, env).0.Faulted? <==>
              env.dht.DhtOtherError? || env.gasRaw == 0 || env.gasRaw == AdcMax
  {
    DeviceGasFault(pow, env.gasRaw);
  }

  /**
   * The particulate sensor can never report SMOKE/CRITICAL: at full scale the
   * density is 0.172 * 3.3 - 0.0999 < 0.50.  So on the device only the gas
   * level can make the air bad.
   */
  lemma DustNeverCritical(raw: Raw)
    ensures ClassifyDust(DustDensity(raw)) != SmokeCritical
  {
    DustDensityBelowSmoke(raw);
  }

  lemma BadAirOnlyFromGas(cal: Calibration, pow: PowFn, env: Environment)
    requires Observe(cal, pow, env).Some?
    ensures Observe(cal, pow, env).value.Bad() <==> Observe(cal, pow, env).value.gas == Bad
  {
    DustNeverCritical(env.dustRaw);
  }

  // ---------------------------------------------------------------------
  // Traces of ticks
  // ---------------------------------------------------------------------

  /** The flags after the ticks `envs`, starting from `f`. */
  function LoopRun(cal: Calibration, pow: PowFn, f: Flags, envs: seq<Environment>): Flags
    decreases |envs|
  {
    if envs == [] then f else LoopStep(cal, pow, LoopRun(cal, pow, f, Front(envs)), Last(envs)).1
  }

  /**
   * The outcome of every tick of `envs`, in order: tick i is LoopStep on the
   * flags the earlier ticks left, and it faults exactly when its DHT11 read
   * raises a non-OSError exception or its gas conversion raises.
   */
  function LoopOutcomes(cal: Calibration, pow: PowFn, f: Flags, envs: seq<Environment>): (outs: seq<TickOutcome>)
    ensures |outs| == |envs|
    ensures forall i :: 0 <= i < |envs| ==>
              outs[i] == LoopStep(cal, pow, LoopRun(cal, pow, f, envs[..i]), envs[i]).0
    ensures forall i :: 0 <= i < |envs| ==>
              (outs[i].Faulted? <==>
                 envs[i].dht.DhtOtherError?
                 || GasPpm(cal, pow, SensorResistance(envs[i].gasRaw)).MathDomainError?)
    decreases |envs|
  {
    if envs == [] then []
    else
      var front := Front(envs);
      assert forall i :: 0 <= i < |front| ==> front[..i] == envs[..i];
      LoopOutcomes(cal, pow, f, front) + [LoopStep(cal, pow, LoopRun(cal, pow, f, front), Last(envs)).0]
  }

  /** The observations of the ticks that completed; faulted ticks are dropped. */
  function Observations(cal: Calibration, pow: PowFn, envs: seq<Environment>): seq<Observation>
    decreases |envs|
  {
    if envs == [] then []
    else
      Observations(cal, pow, Front(envs))
      + match Observe(cal, pow, Last(envs)) { case Some(o) => [o] case None => [] }
  }

  /** The decisions of the completed ticks among `outs`, in order. */
  function CompletedDecisions(outs: seq<TickOutcome>): seq<Decision>
    decreases |outs|
  {
    if outs == [] then []
    else
      CompletedDecisions(Front(outs))
      + match Last(outs) { case Completed(_, _, _, d) => [d] case Faulted => [] }
  }

  /** Alerts attempted by the ticks whose outcomes are `outs`. */
  function AlertsAttemptedIn(outs: seq<TickOutcome>): nat
    decreases |outs|
  {
    if outs == [] then 0
    else
      AlertsAttemptedIn(Front(outs))
      + (if Last(outs).Completed? && Last(outs).decision.alertAttempted then 1 else 0)
  }

  /** Alerts delivered by the ticks `envs`, whose outcomes are `outs`. */
  function AlertsDeliveredIn(outs: seq<TickOutcome>, envs: seq<Environment>): nat
    requires |outs| == |envs|
    decreases |outs|
  {
    if outs == [] then 0
    else
      AlertsDeliveredIn(Front(outs), Front(envs))
      + (if Last(outs).Completed? && Last(outs).decision.alertAttempted && Last(envs).alertSendResult
         then 1 else 0)
  }

  /**
   * Faulted ticks are invisible to the email logic: running the loop leaves
   * the flags that running the policy on the completed ticks alone leaves.
   */
  lemma {:induction false} LoopRunIsPolicyRun(cal: Calibration, pow: PowFn, f: Flags, envs: seq<Environment>)
    ensures LoopRun(cal, pow, f, envs) == Run(f, Observations(cal, pow, envs))
  {
    if envs != [] {
      var front := Front(envs);
      LoopRunIsPolicyRun(cal, pow, f, front);
      var obs := Observations(cal, pow, front);
      match Observe(cal, pow, Last(envs))
      case None =>
        assert Observations(cal, pow, envs) == obs;
      case Some(o) =>
        assert Observations(cal, pow, envs) == obs + [o];
        assert Front(obs + [o]) == obs;
    }
  }

  /**
   * The outcomes the loop returns record the policy's own decisions on the
   * completed ticks, one per completed tick and in order; so the alerts they
   * attempt and deliver are the policy's.
   */
  lemma {:induction false} LoopOutcomesArePolicyDecisions(
    cal: Calibration, pow: PowFn, f: Flags, envs: seq<Environment>)
    ensures CompletedDecisions(LoopOutcomes(cal, pow, f, envs))
            == PolicyDecisions(f, Observations(cal, pow, envs))
    ensures AlertsAttemptedIn(LoopOutcomes(cal, pow, f, envs))
            == AlertsAttempted(f, Observations(cal, pow, envs))
    ensures AlertsDeliveredIn(LoopOutcomes(cal, pow, f, envs), envs)
            == AlertsDelivered(f, Observations(cal, pow, envs))
  {
    if envs != [] {
      var front := Front(envs);
      LoopOutcomesArePolicyDecisions(cal, pow, f, front);
      LoopRunIsPolicyRun(cal, pow, f, front);
      var outs := LoopOutcomes(cal, pow, f, envs);
      assert Front(outs) == LoopOutcomes(cal, pow, f, front);
      var obs := Observations(cal, pow, front);
      match Observe(cal, pow, Last(envs))
      case None =>
        assert Observations(cal, pow, envs) == obs;
      case Some(o) =>
        assert Observations(cal, pow, envs) == obs + [o];
        assert Front(obs + [o]) == obs;
        assert Last(obs + [o]) == o;
    }
  }

  /**
   * Over any run of the device from startup, the outcomes the loop returns
   * deliver at most one alert per bad-air episode of the completed ticks.
   */
  lemma LoopAlertsAtMostOnePerEpisode(cal: Calibration, pow: PowFn, envs: seq<Environment>)
    ensures AlertsDeliveredIn(LoopOutcomes(cal, pow, Startup, envs), envs)
            <= Episodes(Observations(cal, pow, envs))
  {
    LoopOutcomesArePolicyDecisions(cal, pow, Startup, envs);
    AlertsAtMostOnePerEpisode(Observations(cal, pow, envs));
  }

  // ---------------------------------------------------------------------
  // The device
  // ---------------------------------------------------------------------

  /** The state the main loop carries across ticks: the two email flags. */
  class AirMonitor {
    const calibration: Calibration
    const pow: PowFn
    var initialEmailSent: bool
    var alertEmailSent: bool

    function State(): Flags
      reads this
    {
      Flags(initialEmailSent, alertEmailSent)
    }

    /** The loop is only entered when the calibration is complete (main.py:296, 305, 308). */
    constructor (calibration: Calibration, pow: PowFn)
      requires calibration.complete
      ensures this.calibration == calibration && this.pow == pow
      ensures State() == Startup
    {
      this.calibration := calibration;
      this.pow := pow;
      initialEmailSent := false;
      alertEmailSent := false;
    }

    /** One iteration of the while loop (main.py:311-383). */
    method Tick(env: Environment) returns (outcome: TickOutcome)
      modifies this
      ensures (outcome, State()) == LoopStep(calibration, pow, old(State()), env)
    {
      var temp, hum := 0.0, 0.0;
      match env.dht {
        case DhtOk(t, h) =>
          temp, hum := t, h;
        case DhtOsError =>
        case DhtOtherError =>
          outcome := Faulted;
          return;
      }
      var density := DustDensity(env.dustRaw);
      var dustStatus := ClassifyDust(density);
      var ppmOutcome := GasPpm(calibration, pow, SensorResistance(env.gasRaw));
      if ppmOutcome.MathDomainError? {
        outcome := Faulted;
        return;
      }
      var ppm := ppmOutcome.value;
      var gasStatus := ClassifyGas(ppm);
      var isBadAir := IsBadAir(gasStatus, dustStatus);
      var initialAttempted, alertAttempted, alertReset := false, false, false;
      // A. startup report
      if !initialEmailSent && env.connectedForInitial {
        initialAttempted := true;
        if env.initialSendResult {
          initialEmailSent := true;
        }
      }
      // B. alert once per bad-air episode, or C. reset when the air improves
      if isBadAir && !alertEmailSent && env.connectedForAlert {
        alertAttempted := true;
        if env.alertSendResult {
          alertEmailSent := true;
        }
      } else if !isBadAir && alertEmailSent {
        alertEmailSent := false;
        alertReset := true;
      }
      outcome := Completed(Reading(temp, hum, ppm, density), gasStatus, dustStatus,
                           Decision(initialAttempted, alertAttempted, alertReset));
    }

    /** The first |envs| iterations of the endless main loop (main.py:310). */
    method RunTicks(envs: seq<Environment>) returns (outcomes: seq<TickOutcome>)
      modifies this
      ensures State() == LoopRun(calibration, pow, old(State()), envs)
      ensures outcomes == LoopOutcomes(calibration, pow, old(State()), envs)
    {
      outcomes := [];
      var i := 0;
      while i < |envs|
        invariant 0 <= i <= |envs|
        invariant State() == LoopRun(calibration, pow, old(State()), envs[..i])
        invariant outcomes == LoopOutcomes(calibration, pow, old(State()), envs[..i])
      {
        assert Front(envs[..i + 1]) == envs[..i];
        var outcome := Tick(envs[i]);
        outcomes := outcomes + [outcome];
        i := i + 1;
      }
      assert envs[..i] == envs;
    }
  }
}
