/**
 * The stateful controller (controller.go): setters that store a reading, mark it
 * observed and say whether the decision loop is to be woken; getters; the
 * variadic `seen`; one decision cycle; and the decision loop over a sequence of
 * setter calls.
 */
module Controller {
  import opened Wrappers
  import opened Temperatures
  import opened OperationModes
  import opened Budget

  // ---------------------------------------------------------------------------
  // updateSensor

  /** The field's new value, the new bitmask, and whether the setter signals. */
  datatype Update<T> = Update(value: T, seenValues: ObservedValues, notify: bool)

  /**
   * `updateSensor`: the field ends up holding `newValue`, the bits of `obs` are
   * ORed in, and the waiting decision loop is signalled only when the value changed.
   */
  function UpdateSensor<T(==)>(oldValue: T, newValue: T, seenValues: ObservedValues, obs: ObservedValues): (u: Update<T>)
    ensures u.value == newValue
    ensures u.seenValues == seenValues + obs
    ensures u.notify <==> oldValue != newValue
  {
    var shouldNotify := oldValue != newValue;
    Update(if shouldNotify then newValue else oldValue, seenValues + obs, shouldNotify)
  }

  /** A repeated identical reading changes nothing more and does not signal. */
  lemma UpdateSensorIdempotent<T>(oldValue: T, newValue: T, seenValues: ObservedValues, obs: ObservedValues)
    ensures var u := UpdateSensor(oldValue, newValue, seenValues, obs);
            UpdateSensor(u.value, newValue, u.seenValues, obs) == u.(notify := false)
  {
    var u := UpdateSensor(oldValue, newValue, seenValues, obs);
    assert u.seenValues + obs == u.seenValues;
  }

  /** The update marks `obs` observed and forgets nothing observed before. */
  lemma UpdateSensorObserves<T>(oldValue: T, newValue: T, seenValues: ObservedValues, obs: ObservedValues, check: ObservedValues)
    ensures var u := UpdateSensor(oldValue, newValue, seenValues, obs);
            Observed(u.seenValues, obs) && (Observed(seenValues, check) ==> Observed(u.seenValues, check))
  {
  }

  // ---------------------------------------------------------------------------
  // Setter calls as values

  /** One call of a `Set*` method, with its argument. */
  datatype Reading =
    | EVBatteryLevelPercent(batt: real)
    | PowerwallBatteryLevelPercent(batt: real)
    | ExportedBatteryW(batteryW: real)
    | ExportedSolarW(solarW: real)
    | SolarW(solarW: real)
    | LoadW(loadW: real)
    | OperationModeReading(mode: OperationMode)
    | LoadReduction(enabled: bool)
    | ControllerStrategy(strategy: Strategy)
    | EVSETemp(temp: Temperature)
    | EVSECurrent(milliAmp: int)
    | EVConnected(connected: bool)

  /**
   * The bit each setter ORs in. As written, `SetLoadW` marks `observedOperationMode`
   * and `SetOperationMode` marks `observedLoad`.
   */
  function ObservedBit(r: Reading): (b: ObservedValues)
    ensures |b| == 1
    ensures b == ObservedStrategy <==> r.ControllerStrategy?
    ensures b == ObservedTemp <==> r.EVSETemp?
    ensures b == ObservedLR <==> r.LoadReduction?
    ensures b == ObservedBattery <==> r.ExportedBatteryW?
    ensures b == ObservedEVBattery <==> r.EVBatteryLevelPercent?
    ensures b == ObservedExportedSolar <==> r.ExportedSolarW?
  {
    match r
    case EVBatteryLevelPercent(_) => ObservedEVBattery
    case PowerwallBatteryLevelPercent(_) => ObservedBatteryLevel
    case ExportedBatteryW(_) => ObservedBattery
    case ExportedSolarW(_) => ObservedExportedSolar
    case SolarW(_) => ObservedSolar
    case LoadW(_) => ObservedOperationMode
    case OperationModeReading(_) => ObservedLoad
    case LoadReduction(_) => ObservedLR
    case ControllerStrategy(_) => ObservedStrategy
    case EVSETemp(_) => ObservedTemp
    case EVSECurrent(_) => ObservedEVCurrent
    case EVConnected(_) => ObservedEVConnected
  }

  /** The snapshot after a setter call, and whether the call signals. */
  datatype Transition = Transition(snapshot: Snapshot, notify: bool)

  /** The snapshot with the setter's field overwritten; the bitmask untouched. */
  function Store(s: Snapshot, r: Reading): (t: Snapshot)
    ensures t.seenValues == s.seenValues
    ensures !r.ControllerStrategy? ==> t.controllerStrategy == s.controllerStrategy
    ensures !r.EVSETemp? ==> t.temp == s.temp
    ensures !r.LoadReduction? ==> t.loadReductionEnabled == s.loadReductionEnabled
    ensures !r.ExportedBatteryW? ==> t.exportedBatteryW == s.exportedBatteryW
    ensures !r.EVBatteryLevelPercent? ==> t.evBatteryLevelPercent == s.evBatteryLevelPercent
    ensures !r.ExportedSolarW? ==> t.exportedSolarW == s.exportedSolarW
  {
    match r
    case EVBatteryLevelPercent(x) => s.(evBatteryLevelPercent := x)
    case PowerwallBatteryLevelPercent(x) => s.(pwBatteryLevelPercent := x)
    case ExportedBatteryW(x) => s.(exportedBatteryW := x)
    case ExportedSolarW(x) => s.(exportedSolarW := x)
    case SolarW(x) => s.(solarW := x)
    case LoadW(x) => s.(loadW := x)
    case OperationModeReading(x) => s.(operationMode := x)
    case LoadReduction(x) => s.(loadReductionEnabled := x)
    case ControllerStrategy(x) => s.(controllerStrategy := x)
    case EVSETemp(x) => s.(temp := x)
    case EVSECurrent(x) => s.(evseMilliAmp := x)
    case EVConnected(x) => s.(evConnected := x)
  }

  /** Whether the setter's new value differs from the stored one. */
  function Changes(s: Snapshot, r: Reading): (c: bool)
    ensures c <==> Store(s, r) != s
  {
    match r
    case EVBatteryLevelPercent(x) => s.evBatteryLevelPercent != x
    case PowerwallBatteryLevelPercent(x) => s.pwBatteryLevelPercent != x
    case ExportedBatteryW(x) => s.exportedBatteryW != x
    case ExportedSolarW(x) => s.exportedSolarW != x
    case SolarW(x) => s.solarW != x
    case LoadW(x) => s.loadW != x
    case OperationModeReading(x) => s.operationMode != x
    case LoadReduction(x) => s.loadReductionEnabled != x
    case ControllerStrategy(x) => s.controllerStrategy != x
    case EVSETemp(x) => s.temp != x
    case EVSECurrent(x) => s.evseMilliAmp != x
    case EVConnected(x) => s.evConnected != x
  }

  /**
   * The effect of one setter call: the field stored, its bit ORed in, and a
   * signal exactly when the stored value differs from the old one.
   */
  function Next(s: Snapshot, r: Reading): (t: Transition)
    ensures t.snapshot.seenValues == s.seenValues + ObservedBit(r)
    ensures t.notify <==> Store(s, r) != s
  {
    Transition(Store(s, r).(seenValues := s.seenValues + ObservedBit(r)), Changes(s, r))
  }

  /** A setter signals exactly when it changed a stored reading (the bitmask aside). */
  lemma NextNotifiesIffChanged(s: Snapshot, r: Reading)
    ensures var n := Next(s, r);
            n.notify <==> n.snapshot.(seenValues := s.seenValues) != s
  {
    var n := Next(s, r);
    if !n.notify {
      assert n.snapshot.(seenValues := s.seenValues) == s;
    }
  }

  /** A setter marks its own bit observed and keeps every bit observed before. */
  lemma NextObserves(s: Snapshot, r: Reading, check: ObservedValues)
    ensures var n := Next(s, r);
            Observed(n.snapshot.seenValues, ObservedBit(r)) &&
            (Observed(s.seenValues, check) ==> Observed(n.snapshot.seenValues, check))
  {
  }

  /** Repeating a setter call with the same value changes nothing and does not signal. */
  lemma NextIdempotent(s: Snapshot, r: Reading)
    ensures var n := Next(s, r);
            Next(n.snapshot, r) == Transition(n.snapshot, false)
  {
    var n := Next(s, r);
    assert n.snapshot.seenValues + ObservedBit(r) == n.snapshot.seenValues;
  }

  /** The load and operation-mode setters mark each other's bit, as written. */
  lemma LoadBitsSwapped(s: Snapshot, x: real, m: OperationMode)
    ensures Observed(s.seenValues, ObservedLoad) <==>
            Observed(Next(s, LoadW(x)).snapshot.seenValues, ObservedLoad)
    ensures Observed(s.seenValues, ObservedOperationMode) <==>
            Observed(Next(s, OperationModeReading(m)).snapshot.seenValues, ObservedOperationMode)
    ensures Observed(Next(s, LoadW(x)).snapshot.seenValues, ObservedOperationMode)
    ensures Observed(Next(s, OperationModeReading(m)).snapshot.seenValues, ObservedLoad)
  {
  }

  /** Readings that are only reported never change the budget. */
  predicate IsReportOnly(r: Reading) {
    r.PowerwallBatteryLevelPercent? || r.SolarW? || r.LoadW? ||
    r.OperationModeReading? || r.EVSECurrent? || r.EVConnected?
  }

  /** The budget does not depend on report-only readings or their bits. */
  lemma ReportOnlyKeepsBudget(s: Snapshot, r: Reading, hour: Hour)
    requires IsReportOnly(r)
    ensures ComputeMaxPower(Next(s, r).snapshot, hour) == ComputeMaxPower(s, hour)
  {
    var t := Next(s, r).snapshot;
    assert Ceiling(t) == Ceiling(s);
  }

  // ---------------------------------------------------------------------------
  // The decision loop as a trace

  /**
   * One event seen by the decision loop: a setter call, the hour of the wall
   * clock if the call wakes the loop, and what `setEcoPowerLimit` would return.
   */
  datatype Step = Step(reading: Reading, hour: Hour, callbackResult: Option<string>)

  /** The snapshot after one step, the value handed to the callback (if any), and its error. */
  datatype CycleResult = CycleResult(snapshot: Snapshot, sent: seq<int>, err: Option<string>)

  /**
   * One step: the setter call, then, if it signalled, one decision cycle whose
   * budget goes to the callback unless it is below `MinSitePowerW`.
   */
  function Cycle(s: Snapshot, st: Step): (c: CycleResult)
    ensures |c.sent| <= 1
    ensures c.err.Some? ==> |c.sent| == 1
    ensures forall i :: 0 <= i < |c.sent| ==> MinSitePowerW <= c.sent[i] <= Volts * MaxAmps
  {
    var n := Next(s, st.reading);
    var out := if n.notify then Dispatched(ComputeMaxPower(n.snapshot, st.hour)) else None;
    if out.Some? then CycleResult(n.snapshot, [out.value], st.callbackResult)
    else CycleResult(n.snapshot, [], None)
  }

  /** A setter call that repeats the stored value wakes nothing: no dispatch, no error. */
  lemma CycleQuietOnRepeat(s: Snapshot, st: Step)
    requires !Changes(s, st.reading)
    ensures Cycle(s, st) == CycleResult(Next(s, st.reading).snapshot, [], None)
  {
  }

  /** Final snapshot, values handed to the callback, the error `Loop` returns, steps consumed. */
  datatype Trace = Trace(final: Snapshot, sent: seq<int>, err: Option<string>, consumed: nat)

  /** The loop over a sequence of steps; the first callback error ends it. */
  function Run(s: Snapshot, steps: seq<Step>): (t: Trace)
    ensures t.consumed <= |steps| && |t.sent| <= t.consumed
    ensures t.err.None? ==> t.consumed == |steps|
    ensures t.err.Some? ==> 1 <= t.consumed
    decreases |steps|
  {
    if steps == [] then Trace(s, [], None, 0)
    else
      var c := Cycle(s, steps[0]);
      if c.err.Some? then Trace(c.snapshot, c.sent, c.err, 1)
      else
        var rest := Run(c.snapshot, steps[1..]);
        Trace(rest.final, c.sent + rest.sent, rest.err, rest.consumed + 1)
  }

  /**
   * Loop state after `i` steps without error: the steps so far sent `sent`, and
   * the rest of the run starts from `cur`.
   */
  ghost predicate Pending(s0: Snapshot, steps: seq<Step>, i: nat, sent: seq<int>, cur: Snapshot)
    requires i <= |steps|
  {
    var t := Run(cur, steps[i..]);
    Run(s0, steps) == Trace(t.final, sent + t.sent, t.err, i + t.consumed)
  }

  /** One more step keeps the loop state, or ends the run with the callback's error. */
  lemma LoopStep(s0: Snapshot, steps: seq<Step>, i: nat, sent: seq<int>, cur: Snapshot, c: CycleResult)
    requires i < |steps| && Pending(s0, steps, i, sent, cur) && c == Cycle(cur, steps[i])
    ensures c.err.None? ==> Pending(s0, steps, i + 1, sent + c.sent, c.snapshot)
    ensures c.err.Some? ==> Run(s0, steps) == Trace(c.snapshot, sent + c.sent, c.err, i + 1)
  {
    assert steps[i..][0] == steps[i] && steps[i..][1..] == steps[i + 1..];
    if c.err.None? {
      var t := Run(c.snapshot, steps[i + 1..]);
      assert sent + (c.sent + t.sent) == (sent + c.sent) + t.sent;
    }
  }

  /** Every value handed to the callback lies in `[MinSitePowerW, Volts * MaxAmps]`. */
  lemma {:induction false} RunSentBounded(s: Snapshot, steps: seq<Step>)
    ensures var t := Run(s, steps);
            forall i :: 0 <= i < |t.sent| ==> MinSitePowerW <= t.sent[i] <= Volts * MaxAmps
    decreases |steps|
  {
    if steps != [] {
      var c := Cycle(s, steps[0]);
      var t := Run(s, steps);
      var rest := Run(c.snapshot, steps[1..]);
      RunSentBounded(c.snapshot, steps[1..]);
      forall i | 0 <= i < |t.sent|
        ensures MinSitePowerW <= t.sent[i] <= Volts * MaxAmps
      {
        if i < |c.sent| {
          assert t.sent[i] == c.sent[i];
        } else {
          assert t.sent[i] == Run(c.snapshot, steps[1..]).sent[i - |c.sent|];
        }
      }
    }
  }

  /** A prefix of a run whose first step did not fail: that step, then a prefix of the rest. */
  lemma RunPrefixAfterCycle(s: Snapshot, steps: seq<Step>, j: nat)
    requires 1 <= j <= |steps| && Cycle(s, steps[0]).err.None?
    ensures var c := Cycle(s, steps[0]);
            var r := Run(c.snapshot, steps[1..][..j - 1]);
            Run(s, steps[..j]) == Trace(r.final, c.sent + r.sent, r.err, r.consumed + 1)
  {
    assert steps[..j][0] == steps[0];
    assert steps[..j][1..] == steps[1..][..j - 1];
  }

  /**
   * A failing callback ends the loop with its own error: the run stops right after
   * that step, and the steps after it play no part.
   */
  lemma {:induction false} RunStopsAtFirstError(s: Snapshot, steps: seq<Step>)
    ensures var t := Run(s, steps);
            t.err.Some? ==> Run(s, steps[..t.consumed]) == t &&
                            t.err == steps[t.consumed - 1].callbackResult
    decreases |steps|
  {
    if steps != [] {
      var c := Cycle(s, steps[0]);
      var t := Run(s, steps);
      if c.err.Some? {
        assert steps[..1][0] == steps[0];
        assert steps[..1][1..] == [];
      } else if t.err.Some? {
        RunStopsAtFirstError(c.snapshot, steps[1..]);
        RunPrefixAfterCycle(s, steps, t.consumed);
      }
    }
  }

  /** The error the loop reports is the first one: no shorter prefix of the run fails. */
  lemma {:induction false} RunErrorIsFirst(s: Snapshot, steps: seq<Step>)
    ensures var t := Run(s, steps);
            t.err.Some? ==> forall j :: 0 <= j < t.consumed ==> Run(s, steps[..j]).err.None?
    decreases |steps|
  {
    if steps != [] {
      var c := Cycle(s, steps[0]);
      var t := Run(s, steps);
      if c.err.None? && t.err.Some? {
        var rest := steps[1..];
        RunErrorIsFirst(c.snapshot, rest);
        forall j | 0 <= j < t.consumed
          ensures Run(s, steps[..j]).err.None?
        {
          if j == 0 {
            assert steps[..0] == [];
          } else {
            RunPrefixAfterCycle(s, steps, j);
          }
        }
      } else if c.err.Some? {
        assert steps[..0] == [];
      }
    }
  }

  /**
   * The loop ends without error exactly when no decision cycle fails, each cycle
   * taken from the state the steps before it reached.
   */
  lemma {:induction false} RunSucceedsIff(s: Snapshot, steps: seq<Step>)
    ensures Run(s, steps).err.None? <==>
            forall j :: 0 <= j < |steps| ==> Cycle(Run(s, steps[..j]).final, steps[j]).err.None?
    decreases |steps|
  {
    if steps != [] {
      var c := Cycle(s, steps[0]);
      var rest := steps[1..];
      assert steps[..0] == [];
      assert Cycle(Run(s, steps[..0]).final, steps[0]) == c;
      if c.err.None? {
        RunSucceedsIff(c.snapshot, rest);
        forall j | 1 <= j < |steps|
          ensures Cycle(Run(s, steps[..j]).final, steps[j]) ==
                  Cycle(Run(c.snapshot, rest[..j - 1]).final, rest[j - 1])
        {
          RunPrefixAfterCycle(s, steps, j);
        }
        if Run(s, steps).err.None? {
          forall j | 0 <= j < |steps|
            ensures Cycle(Run(s, steps[..j]).final, steps[j]).err.None?
          {
            if j > 0 {
              assert Cycle(Run(c.snapshot, rest[..j - 1]).final, rest[j - 1]).err.None?;
            }
          }
        } else {
          var k :| 0 <= k < |rest| && Cycle(Run(c.snapshot, rest[..k]).final, rest[k]).err.Some?;
          assert Cycle(Run(s, steps[..k + 1]).final, steps[k + 1]).err.Some?;
        }
      }
    }
  }

  /** Until the strategy is set, no decision cycle dispatches anything and nothing fails. */
  lemma {:induction false} RunColdStart(s: Snapshot, steps: seq<Step>)
    requires !Observed(s.seenValues, ObservedStrategy)
    requires forall i :: 0 <= i < |steps| ==> !steps[i].reading.ControllerStrategy?
    ensures Run(s, steps).sent == [] && Run(s, steps).err == None
    decreases |steps|
  {
    if steps != [] {
      var n := Next(s, steps[0].reading);
      assert !Observed(n.snapshot.seenValues, ObservedStrategy);
      RunColdStart(n.snapshot, steps[1..]);
    }
  }

  // ---------------------------------------------------------------------------
  // The controller object

  class Controller {
    var seenValues: ObservedValues
    var evBatteryLevelPercent: real
    var pwBatteryLevelPercent: real
    var exportedBatteryW: real
    var exportedSolarW: real
    var solarW: real
    var loadW: real
    var operationMode: OperationMode
    var temp: Temperature
    var evseMilliAmp: int
    var evConnected: bool
    var loadReductionEnabled: bool
    var controllerStrategy: Strategy

    /** The fields as a snapshot value. */
    function State(): Snapshot
      reads this
    {
      Snapshot(seenValues, evBatteryLevelPercent, pwBatteryLevelPercent, exportedBatteryW,
               exportedSolarW, solarW, loadW, operationMode, temp, evseMilliAmp,
               evConnected, loadReductionEnabled, controllerStrategy)
    }

    /** `NewController`: every reading zero and nothing observed. */
    constructor ()
      ensures State() == InitialSnapshot
    {
      seenValues := {};
      evBatteryLevelPercent, pwBatteryLevelPercent := 0.0, 0.0;
      exportedBatteryW, exportedSolarW, solarW, loadW := 0.0, 0.0, 0.0, 0.0;
      operationMode, temp, evseMilliAmp := OperationUnknown, 0, 0;
      evConnected, loadReductionEnabled := false, false;
      controllerStrategy := StrategyUnknown;
    }

    method SetEVBatteryLevelPercent(batt: real) returns (notify: bool)
      modifies this
      ensures State() == old(State()).(evBatteryLevelPercent := batt,
                                       seenValues := old(seenValues) + ObservedEVBattery)
      ensures notify <==> old(evBatteryLevelPercent) != batt
    {
      var u := UpdateSensor(evBatteryLevelPercent, batt, seenValues, ObservedEVBattery);
      evBatteryLevelPercent, seenValues, notify := u.value, u.seenValues, u.notify;
    }

    method SetPowerwallBatteryLevelPercent(batt: real) returns (notify: bool)
      modifies this
      ensures State() == old(State()).(pwBatteryLevelPercent := batt,
                                       seenValues := old(seenValues) + ObservedBatteryLevel)
      ensures notify <==> old(pwBatteryLevelPercent) != batt
    {
      var u := UpdateSensor(pwBatteryLevelPercent, batt, seenValues, ObservedBatteryLevel);
      pwBatteryLevelPercent, seenValues, notify := u.value, u.seenValues, u.notify;
    }

    method SetExportedBatteryW(batteryW: real) returns (notify: bool)
      modifies this
      ensures State() == old(State()).(exportedBatteryW := batteryW,
                                       seenValues := old(seenValues) + ObservedBattery)
      ensures notify <==> old(exportedBatteryW) != batteryW
    {
      var u := UpdateSensor(exportedBatteryW, batteryW, seenValues, ObservedBattery);
      exportedBatteryW, seenValues, notify := u.value, u.seenValues, u.notify;
    }

    method SetExportedSolarW(w: real) returns (notify: bool)
      modifies this
      ensures State() == old(State()).(exportedSolarW := w,
                                       seenValues := old(seenValues) + ObservedExportedSolar)
      ensures notify <==> old(exportedSolarW) != w
    {
      var u := UpdateSensor(exportedSolarW, w, seenValues, ObservedExportedSolar);
      exportedSolarW, seenValues, notify := u.value, u.seenValues, u.notify;
    }

    method SetSolarW(w: real) returns (notify: bool)
      modifies this
      ensures State() == old(State()).(solarW := w, seenValues := old(seenValues) + ObservedSolar)
      ensures notify <==> old(solarW) != w
    {
      var u := UpdateSensor(solarW, w, seenValues, ObservedSolar);
      solarW, seenValues, notify := u.value, u.seenValues, u.notify;
    }

    /** As written, the bit marked is `observedOperationMode`. */
    method SetLoadW(w: real) returns (notify: bool)
      modifies this
      ensures State() == old(State()).(loadW := w, seenValues := old(seenValues) + ObservedOperationMode)
      ensures notify <==> old(loadW) != w
    {
      var u := UpdateSensor(loadW, w, seenValues, ObservedOperationMode);
      loadW, seenValues, notify := u.value, u.seenValues, u.notify;
    }

    /** As written, the bit marked is `observedLoad`. */
    method SetOperationMode(mode: OperationMode) returns (notify: bool)
      modifies this
      ensures State() == old(State()).(operationMode := mode, seenValues := old(seenValues) + ObservedLoad)
      ensures notify <==> old(operationMode) != mode
    {
      var u := UpdateSensor(operationMode, mode, seenValues, ObservedLoad);
      operationMode, seenValues, notify := u.value, u.seenValues, u.notify;
    }

    method SetLoadReduction(enabled: bool) returns (notify: bool)
      modifies this
      ensures State() == old(State()).(loadReductionEnabled := enabled,
                                       seenValues := old(seenValues) + ObservedLR)
      ensures notify <==> old(loadReductionEnabled) != enabled
    {
      var u := UpdateSensor(loadReductionEnabled, enabled, seenValues, ObservedLR);
      loadReductionEnabled, seenValues, notify := u.value, u.seenValues, u.notify;
    }

    method SetControllerStrategy(strategy: Strategy) returns (notify: bool)
      modifies this
      ensures State() == old(State()).(controllerStrategy := strategy,
                                       seenValues := old(seenValues) + ObservedStrategy)
      ensures notify <==> old(controllerStrategy) != strategy
    {
      var u := UpdateSensor(controllerStrategy, strategy, seenValues, ObservedStrategy);
      controllerStrategy, seenValues, notify := u.value, u.seenValues, u.notify;
    }

    method SetEVSETemp(t: Temperature) returns (notify: bool)
      modifies this
      ensures State() == old(State()).(temp := t, seenValues := old(seenValues) + ObservedTemp)
      ensures notify <==> old(temp) != t
    {
      var u := UpdateSensor(temp, t, seenValues, ObservedTemp);
      temp, seenValues, notify := u.value, u.seenValues, u.notify;
    }

    method SetEVSECurrent(milliAmp: int) returns (notify: bool)
      modifies this
      ensures State() == old(State()).(evseMilliAmp := milliAmp,
                                       seenValues := old(seenValues) + ObservedEVCurrent)
      ensures notify <==> old(evseMilliAmp) != milliAmp
    {
      var u := UpdateSensor(evseMilliAmp, milliAmp, seenValues, ObservedEVCurrent);
      evseMilliAmp, seenValues, notify := u.value, u.seenValues, u.notify;
    }

    method SetEVConnected(connected: bool) returns (notify: bool)
      modifies this
      ensures State() == old(State()).(evConnected := connected,
                                       seenValues := old(seenValues) + ObservedEVConnected)
      ensures notify <==> old(evConnected) != connected
    {
      var u := UpdateSensor(evConnected, connected, seenValues, ObservedEVConnected);
      evConnected, seenValues, notify := u.value, u.seenValues, u.notify;
    }

    /** Dispatches a setter call to its `Set*` method. */
    method Apply(r: Reading) returns (notify: bool)
      modifies this
      ensures Transition(State(), notify) == Next(old(State()), r)
    {
      ghost var s := State();
      match r
      case EVBatteryLevelPercent(x) =>
        notify := SetEVBatteryLevelPercent(x);
      case PowerwallBatteryLevelPercent(x) =>
        notify := SetPowerwallBatteryLevelPercent(x);
      case ExportedBatteryW(x) =>
        notify := SetExportedBatteryW(x);
      case ExportedSolarW(x) =>
        notify := SetExportedSolarW(x);
      case SolarW(x) =>
        notify := SetSolarW(x);
      case LoadW(x) =>
        notify := SetLoadW(x);
      case OperationModeReading(x) =>
        notify := SetOperationMode(x);
      case LoadReduction(x) =>
        notify := SetLoadReduction(x);
      case ControllerStrategy(x) =>
        notify := SetControllerStrategy(x);
      case EVSETemp(x) =>
        notify := SetEVSETemp(x);
      case EVSECurrent(x) =>
        notify := SetEVSECurrent(x);
      case EVConnected(x) =>
        notify := SetEVConnected(x);
    }

    method GetSolarW() returns (w: real)
      ensures w == State().solarW
    {
      w := solarW;
    }

    method GetLoadW() returns (w: real)
      ensures w == State().loadW
    {
      w := loadW;
    }

    method GetPowerwallBatteryLevel() returns (batt: real)
      ensures batt == State().pwBatteryLevelPercent
    {
      batt := pwBatteryLevelPercent;
    }

    method GetExportedSolarW() returns (w: real)
      ensures w == State().exportedSolarW
    {
      w := exportedSolarW;
    }

    method GetOperationMode() returns (mode: OperationMode)
      ensures mode == State().operationMode
    {
      mode := operationMode;
    }

    method GetEVSETemp() returns (t: Temperature)
      ensures t == State().temp
    {
      t := temp;
    }

    method GetEVSECurrent() returns (milliAmp: int)
      ensures milliAmp == State().evseMilliAmp
    {
      milliAmp := evseMilliAmp;
    }

    method GetEVConnected() returns (connected: bool)
      ensures connected == State().evConnected
    {
      connected := evConnected;
    }

    /** `seen(checks...)`: every bit of every check is present; true for no checks. */
    method Seen(checks: seq<ObservedValues>) returns (ok: bool)
      ensures ok <==> forall i :: 0 <= i < |checks| ==> Observed(seenValues, checks[i])
    {
      var i := 0;
      while i < |checks|
        invariant 0 <= i <= |checks|
        invariant forall j :: 0 <= j < i ==> Observed(seenValues, checks[j])
      {
        if seenValues * checks[i] != checks[i] {
          return false;
        }
        i := i + 1;
      }
      return true;
    }

    /**
     * `singleLoop` after a wake: the value handed to `setEcoPowerLimit` (none for a
     * budget below `MinSitePowerW`) and the error returned, which is the callback's.
     */
    method SingleLoop(hour: Hour, callbackResult: Option<string>) returns (sent: Option<int>, err: Option<string>)
      ensures sent == Dispatched(ComputeMaxPower(State(), hour))
      ensures err == if sent.Some? then callbackResult else None
    {
      var maxPower := ComputeMaxPower(State(), hour);
      if maxPower < MinSitePowerW {
        return None, None;
      }
      if maxPower > Volts * MaxAmps {
        maxPower := Volts * MaxAmps;
      }
      sent := Some(maxPower);
      err := callbackResult;
    }

    /** One step of the loop: a setter call, then a decision cycle if the call signalled. */
    method Deliver(st: Step) returns (sent: seq<int>, err: Option<string>)
      modifies this
      ensures CycleResult(State(), sent, err) == Cycle(old(State()), st)
    {
      var notify := Apply(st.reading);
      sent, err := [], None;
      if notify {
        var out, e := SingleLoop(st.hour, st.callbackResult);
        if out.Some? {
          sent := [out.value];
        }
        err := e;
      }
    }

    /**
     * `Loop` together with the setter calls that wake it: each call that signals
     * runs one decision cycle, and the first callback error ends the loop.
     */
    method Loop(steps: seq<Step>) returns (sent: seq<int>, err: Option<string>)
      modifies this
      ensures var t := Run(old(State()), steps);
              State() == t.final && sent == t.sent && err == t.err
    {
      sent, err := [], None;
      var i := 0;
      while i < |steps| && err.None?
        invariant 0 <= i <= |steps|
        invariant err.None? ==> Pending(old(State()), steps, i, sent, State())
        invariant err.Some? ==> Run(old(State()), steps) == Trace(State(), sent, err, i)
      {
        ghost var before := State();
        var more, e := Deliver(steps[i]);
        LoopStep(old(State()), steps, i, sent, before, CycleResult(State(), more, e));
        sent, err := sent + more, e;
        i := i + 1;
      }
      if err.None? {
        assert steps[i..] == [];
      }
    }
  }
}
