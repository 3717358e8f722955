/**
 * The notification policy of the main loop: two flags carried across ticks
 * (initial_email_sent, alert_email_sent, main.py:305-308) and the per-tick
 * decision of main.py:348-377.  The transport (send_email) and the
 * connectivity poll (wlan.isconnected) are inputs: each tick observes the
 * result each call would return.
 *
 * Step is the specification of one tick; Run, the count functions and the
 * lemmas below describe whole traces of ticks.
 */
module Notification {
  import opened Classifier

  datatype Flags = Flags(initialEmailSent: bool, alertEmailSent: bool)

  /** Both flags start false (main.py:305 and 308). */
  const Startup: Flags := Flags(false, false)

  /**
   * What one tick observes.  Connectivity is polled separately for the
   * startup report (main.py:351) and for the alert (main.py:362); each send
   * result is what send_email returns if that step calls it.
   */
  datatype Observation = Observation(
    gas: GasQuality,
    dust: DustQuality,
    connectedForInitial: bool,
    initialSendResult: bool,
    connectedForAlert: bool,
    alertSendResult: bool)
  {
    predicate Bad() {
      IsBadAir(gas, dust)
    }
  }

  /** Which reports a tick attempts, and whether it clears the alert flag silently. */
  datatype Decision = Decision(initialAttempted: bool, alertAttempted: bool, alertReset: bool)

  datatype StepResult = StepResult(decision: Decision, next: Flags)

  /**
   * One tick of the email logic (main.py:348-377).  Step A (the startup
   * report) and step B (the alert) are independent, so both may be attempted
   * in one tick; step C (the silent reset) is the alternative of step B.
   */
  function Step(f: Flags, o: Observation): (r: StepResult)
    ensures r.decision.initialAttempted <==> !f.initialEmailSent && o.connectedForInitial
    ensures r.next.initialEmailSent <==>
              f.initialEmailSent || (o.connectedForInitial && o.initialSendResult)
    ensures r.decision.alertAttempted <==> o.Bad() && !f.alertEmailSent && o.connectedForAlert
    ensures r.decision.alertReset <==> !o.Bad() && f.alertEmailSent
    ensures !(r.decision.alertAttempted && r.decision.alertReset)
    ensures r.next.alertEmailSent <==>
              o.Bad() && (f.alertEmailSent || (o.connectedForAlert && o.alertSendResult))
  {
    // A. startup report
    var initialAttempted := !f.initialEmailSent && o.connectedForInitial;
    var initialSent := if initialAttempted && o.initialSendResult then true else f.initialEmailSent;
    // B. alert, or C. reset when the air is no longer bad
    var alertAttempted := o.Bad() && !f.alertEmailSent && o.connectedForAlert;
    var alertReset := !alertAttempted && !o.Bad() && f.alertEmailSent;
    var alertSent :=
      if alertAttempted then (if o.alertSendResult then true else f.alertEmailSent)
      else if alertReset then false
      else f.alertEmailSent;
    StepResult(Decision(initialAttempted, alertAttempted, alertReset), Flags(initialSent, alertSent))
  }

  /** Both reports go out on one tick when the device first sees bad air online. */
  lemma BothReportsInOneTick(o: Observation)
    requires o.Bad() && o.connectedForInitial && o.connectedForAlert
    ensures Step(Startup, o).decision.initialAttempted && Step(Startup, o).decision.alertAttempted
  {
  }

  // ---------------------------------------------------------------------
  // Traces
  // ---------------------------------------------------------------------

  function Front<T>(s: seq<T>): seq<T>
    requires |s| > 0
  {
    s[..|s| - 1]
  }

  function Last<T>(s: seq<T>): T
    requires |s| > 0
  {
    s[|s| - 1]
  }

  /** The flags after the ticks `os`, starting from `f`. */
  function Run(f: Flags, os: seq<Observation>): Flags
    decreases |os|
  {
    if os == [] then f else Step(Run(f, Front(os)), Last(os)).next
  }

  /** The decision of the last tick of a non-empty trace. */
  function LastDecision(f: Flags, os: seq<Observation>): Decision
    requires |os| > 0
  {
    Step(Run(f, Front(os)), Last(os)).decision
  }

  /** The decision of every tick of `os`, in order. */
  function PolicyDecisions(f: Flags, os: seq<Observation>): (ds: seq<Decision>)
    ensures |ds| == |os|
    ensures forall i :: 0 <= i < |os| ==> ds[i] == LastDecision(f, os[..i + 1])
    decreases |os|
  {
    if os == [] then []
    else
      var front := Front(os);
      assert forall j :: 0 < j <= |front| ==> front[..j] == os[..j];
      assert os[..|os|] == os;
      PolicyDecisions(f, front) + [LastDecision(f, os)]
  }

  function InitialsAttempted(f: Flags, os: seq<Observation>): nat
    decreases |os|
  {
    if os == [] then 0
    else InitialsAttempted(f, Front(os)) + (if LastDecision(f, os).initialAttempted then 1 else 0)
  }

  function InitialsDelivered(f: Flags, os: seq<Observation>): nat
    decreases |os|
  {
    if os == [] then 0
    else
      InitialsDelivered(f, Front(os))
      + (if LastDecision(f, os).initialAttempted && Last(os).initialSendResult then 1 else 0)
  }

  function AlertsAttempted(f: Flags, os: seq<Observation>): nat
    decreases |os|
  {
    if os == [] then 0
    else AlertsAttempted(f, Front(os)) + (if LastDecision(f, os).alertAttempted then 1 else 0)
  }

  function AlertsDelivered(f: Flags, os: seq<Observation>): nat
    decreases |os|
  {
    if os == [] then 0
    else
      AlertsDelivered(f, Front(os))
      + (if LastDecision(f, os).alertAttempted && Last(os).alertSendResult then 1 else 0)
  }

  /** Ticks on which the connectivity poll of step A is up. */
  function ConnectedTicks(os: seq<Observation>): nat
    decreases |os|
  {
    if os == [] then 0
    else ConnectedTicks(Front(os)) + (if Last(os).connectedForInitial then 1 else 0)
  }

  /** True when the last tick of `os` begins a bad-air episode. */
  predicate EpisodeStartsAtEnd(os: seq<Observation>)
    requires |os| > 0
  {
    Last(os).Bad() && (|os| == 1 || !os[|os| - 2].Bad())
  }

  /** The number of maximal runs of consecutive bad-air ticks in `os`. */
  function Episodes(os: seq<Observation>): nat
    decreases |os|
  {
    if os == [] then 0
    else Episodes(Front(os)) + (if EpisodeStartsAtEnd(os) then 1 else 0)
  }

  // ---------------------------------------------------------------------
  // The startup report
  // ---------------------------------------------------------------------

  /**
   * The startup flag is set after a trace exactly when it was set before or
   * some tick was connected and its send succeeded; in particular it never resets.
   */
  lemma {:induction false} InitialSentIff(f: Flags, os: seq<Observation>)
    ensures Run(f, os).initialEmailSent <==>
              f.initialEmailSent
              || exists i :: 0 <= i < |os| && os[i].connectedForInitial && os[i].initialSendResult
  {
    if os != [] {
      var front := Front(os);
      InitialSentIff(f, front);
      if exists i :: 0 <= i < |front| && front[i].connectedForInitial && front[i].initialSendResult {
        var i :| 0 <= i < |front| && front[i].connectedForInitial && front[i].initialSendResult;
        assert os[i] == front[i];
      }
      if exists i :: 0 <= i < |os| && os[i].connectedForInitial && os[i].initialSendResult {
        var i :| 0 <= i < |os| && os[i].connectedForInitial && os[i].initialSendResult;
        if i < |front| {
          assert front[i] == os[i];
        }
      }
    }
  }

  /**
   * The startup report is delivered at most once over any trace: once,
   * exactly when the flag goes from false to true.
   */
  lemma {:induction false} InitialDeliveredAtMostOnce(f: Flags, os: seq<Observation>)
    ensures InitialsDelivered(f, os) ==
              if !f.initialEmailSent && Run(f, os).initialEmailSent then 1 else 0
  {
    if os != [] {
      InitialDeliveredAtMostOnce(f, Front(os));
      InitialSentIff(f, Front(os));
      InitialSentIff(f, os);
    }
  }

  /**
   * When every send fails the startup flag stays false and a startup report
   * is attempted on every tick whose connectivity poll is up.
   */
  lemma {:induction false} InitialRetriedWhileUndelivered(f: Flags, os: seq<Observation>)
    requires !f.initialEmailSent
    requires forall i :: 0 <= i < |os| ==> !os[i].initialSendResult
    ensures !Run(f, os).initialEmailSent
    ensures InitialsAttempted(f, os) == ConnectedTicks(os)
  {
    if os != [] {
      InitialRetriedWhileUndelivered(f, Front(os));
    }
  }

  /**
   * Always online with good air and a working transport, the startup report
   * is attempted exactly once and no alert is ever attempted.
   */
  lemma {:induction false} QuietStartup(os: seq<Observation>)
    requires |os| > 0
    requires forall i :: 0 <= i < |os| ==> os[i].connectedForInitial && os[i].initialSendResult
    requires forall i :: 0 <= i < |os| ==> !os[i].Bad()
    ensures InitialsAttempted(Startup, os) == 1
    ensures AlertsAttempted(Startup, os) == 0
    ensures Run(Startup, os) == Flags(true, false)
  {
    if |os| > 1 {
      QuietStartup(Front(os));
    }
  }

  // ---------------------------------------------------------------------
  // The bad-air alert
  // ---------------------------------------------------------------------

  /**
   * Invariant of any trace from startup: the alert flag is set only after a
   * bad tick, and the delivered alerts, plus one for a current episode that
   * has not been alerted yet, never exceed the number of episodes.
   */
  lemma {:induction false} AlertInvariant(os: seq<Observation>)
    ensures Run(Startup, os).alertEmailSent ==> |os| > 0 && Last(os).Bad()
    ensures AlertsDelivered(Startup, os)
            + (if |os| > 0 && Last(os).Bad() && !Run(Startup, os).alertEmailSent then 1 else 0)
            <= Episodes(os)
  {
    if os != [] {
      var front := Front(os);
      AlertInvariant(front);
      if |front| > 0 {
        assert Last(front) == os[|os| - 2];
      }
    }
  }

  /** At most one alert is delivered per bad-air episode, whatever the connectivity and transport do. */
  lemma AlertsAtMostOnePerEpisode(os: seq<Observation>)
    ensures AlertsDelivered(Startup, os) <= Episodes(os)
  {
    AlertInvariant(os);
  }

  /**
   * Always online with a working transport, the alert flag mirrors the last
   * tick's air and exactly one alert is attempted per bad-air episode.
   */
  lemma {:induction false} AlertsOnePerEpisodeWhenReliable(os: seq<Observation>)
    requires forall i :: 0 <= i < |os| ==> os[i].connectedForAlert && os[i].alertSendResult
    ensures Run(Startup, os).alertEmailSent <==> |os| > 0 && Last(os).Bad()
    ensures AlertsAttempted(Startup, os) == Episodes(os)
  {
    if os != [] {
      var front := Front(os);
      AlertsOnePerEpisodeWhenReliable(front);
      if |front| > 0 {
        assert Last(front) == os[|os| - 2];
      }
    }
  }

  /** GOOD, BAD, BAD, GOOD, BAD: two bad-air episodes, so two alerts rather than three. */
  lemma HysteresisExample(good: Observation, bad: Observation)
    requires good.gas == Good && good.dust == Clean && bad.gas == Bad
    requires good.connectedForAlert && good.alertSendResult
    requires bad.connectedForAlert && bad.alertSendResult
    ensures AlertsAttempted(Startup, [good, bad, bad, good, bad]) == 2
  {
    var os := [good, bad, bad, good, bad];
    AlertsOnePerEpisodeWhenReliable(os);
    assert Front(os) == [good, bad, bad, good];
    assert Front(Front(os)) == [good, bad, bad];
    assert Front(Front(Front(os))) == [good, bad];
    assert Front(Front(Front(Front(os)))) == [good];
    assert Front([good]) == [];
    assert Episodes([good]) == 0;
    assert Episodes([good, bad]) == 1;
    assert Episodes([good, bad, bad]) == 1;
    assert Episodes([good, bad, bad, good]) == 1;
    assert Episodes(os) == 2;
  }
}
