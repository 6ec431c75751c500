/**
 * The decision engine's pure part (controller.go): the sensor snapshot, the
 * observed-value bitmask, the priority ladder that turns a snapshot into a
 * power budget, and the output clamp applied before dispatch.
 */
module Budget {
  import opened Wrappers
  import opened Temperatures
  import opened OperationModes

  // ---------------------------------------------------------------------------
  // Constants

  const MinInt32: int := -0x8000_0000
  const MaxAmps: int := 40
  const MinAmps: int := 8
  /** Below this a budget is taken to mean "not enough data": 100 kW drawn from the grid. */
  const MinSitePowerW: int := -100000

  /** Go's `type strategy int`. */
  type Strategy = int

  const StrategyUnknown: Strategy := 0
  const StrategyAuto: Strategy := 1
  const StrategyFullSpeed: Strategy := 2
  const StrategyOvernight: Strategy := 3

  /** `time.Now().Hour()`. */
  type Hour = h: int | 0 <= h < 24

  // ---------------------------------------------------------------------------
  // Observed values. Go keeps them in an `int` bitmask, one bit per reading,
  // `1 << iota` in the order below; the model keeps the set of bits that are on,
  // so `a | b` is `a + b` and `a & b` is `a * b`.

  /** One bit of `observedValues`, in declaration order (bit 0 first). */
  datatype Observation =
    | EVBatteryBit | ExportedSolarBit | BatteryBit | LRBit | StrategyBit | TempBit
    | LoadBit | SolarBit | OperationModeBit | BatteryLevelBit | EVCurrentBit | EVConnectedBit

  /** A bitmask: the bits that are on. */
  type ObservedValues = set<Observation>

  const ObservedEVBattery: ObservedValues := {EVBatteryBit}
  const ObservedExportedSolar: ObservedValues := {ExportedSolarBit}
  const ObservedBattery: ObservedValues := {BatteryBit}
  const ObservedLR: ObservedValues := {LRBit}
  const ObservedStrategy: ObservedValues := {StrategyBit}
  const ObservedTemp: ObservedValues := {TempBit}
  const ObservedLoad: ObservedValues := {LoadBit}
  const ObservedSolar: ObservedValues := {SolarBit}
  const ObservedOperationMode: ObservedValues := {OperationModeBit}
  const ObservedBatteryLevel: ObservedValues := {BatteryLevelBit}
  const ObservedEVCurrent: ObservedValues := {EVCurrentBit}
  const ObservedEVConnected: ObservedValues := {EVConnectedBit}

  /** One check of `seen`: every bit of `check` is present in `seenValues`. */
  predicate Observed(seenValues: ObservedValues, check: ObservedValues)
    ensures Observed(seenValues, check) <==> check <= seenValues
  {
    seenValues * check == check
  }

  // ---------------------------------------------------------------------------
  // Sensor snapshot

  /** The controller's fields, float64 readings as reals, integer types as int. */
  datatype Snapshot = Snapshot(
    seenValues: ObservedValues,
    evBatteryLevelPercent: real,
    pwBatteryLevelPercent: real,
    exportedBatteryW: real,
    exportedSolarW: real,
    solarW: real,
    loadW: real,
    operationMode: OperationMode,
    temp: Temperature,
    evseMilliAmp: int,
    evConnected: bool,
    loadReductionEnabled: bool,
    controllerStrategy: Strategy)

  /** The zero value a new controller starts with: nothing observed. */
  const InitialSnapshot: Snapshot :=
    Snapshot({}, 0.0, 0.0, 0.0, 0.0, 0.0, 0.0, OperationUnknown, 0, 0, false, false, StrategyUnknown)

  /** `int32(x)` for a float in range: truncation toward zero. */
  function Int32Of(x: real): (r: int)
    ensures x >= 0.0 ==> 0 <= r && r as real <= x < r as real + 1.0
    ensures x < 0.0 ==> r <= 0 && r as real - 1.0 < x <= r as real
  {
    if x >= 0.0 then x.Floor else -((-x).Floor)
  }

  /** The temperature-derated ceiling; unclamped while the temperature is unobserved. */
  function Ceiling(s: Snapshot): (c: int)
    ensures 1920 <= c <= MaxInt32
    ensures !Observed(s.seenValues, ObservedTemp) ==> c == MaxInt32
  {
    if Observed(s.seenValues, ObservedTemp) then TempCeiling(s.temp) else MaxInt32
  }

  /**
   * `computeMaxPower`: the sentinel `MinInt32` until the strategy is observed,
   * otherwise the first rule of the ladder that applies.
   */
  function ComputeMaxPower(s: Snapshot, hour: Hour): (r: int)
    ensures !Observed(s.seenValues, ObservedStrategy) ==> r == MinInt32
    ensures Observed(s.seenValues, ObservedStrategy) ==> r <= Ceiling(s)
    ensures Observed(s.seenValues, ObservedStrategy) && r < 0 ==>
              Observed(s.seenValues, ObservedExportedSolar) && r == Int32Of(s.exportedSolarW)
  {
    if !Observed(s.seenValues, ObservedStrategy) then MinInt32
    else
      var maxPower := Ceiling(s);
      if s.controllerStrategy == StrategyFullSpeed then maxPower
      else if s.controllerStrategy == StrategyOvernight && hour < 6 then maxPower
      else if Observed(s.seenValues, ObservedLR) && s.loadReductionEnabled then 0
      else if Observed(s.seenValues, ObservedBattery) && s.exportedBatteryW > 200.0 then 0
      else if Observed(s.seenValues, ObservedEVBattery) && s.evBatteryLevelPercent < 60.0 then maxPower
      else if Observed(s.seenValues, ObservedExportedSolar) then
        if maxPower < Int32Of(s.exportedSolarW) then maxPower else Int32Of(s.exportedSolarW)
      else maxPower
  }

  // ---------------------------------------------------------------------------
  // The ladder as a list of guard/budget rules, evaluated first-match-wins.

  datatype Rule = Rule(applies: bool, budget: int)

  /** The first applicable rule's budget, or `fallback` when none applies. */
  function FirstMatch(rules: seq<Rule>, fallback: int): (r: int)
    ensures r == fallback || exists i :: 0 <= i < |rules| && rules[i].applies && r == rules[i].budget
    decreases |rules|
  {
    if rules == [] then fallback
    else if rules[0].applies then rules[0].budget
    else FirstMatch(rules[1..], fallback)
  }

  /** The rules that follow the cold-start gate, in priority order. */
  function Rules(s: Snapshot, hour: Hour): (rules: seq<Rule>)
    ensures |rules| == 6
    ensures forall i :: 0 <= i < |rules| ==> rules[i].budget <= Ceiling(s)
  {
    var seen := s.seenValues;
    var ceiling := Ceiling(s);
    [ Rule(s.controllerStrategy == StrategyFullSpeed, ceiling),
      Rule(s.controllerStrategy == StrategyOvernight && hour < 6, ceiling),
      Rule(Observed(seen, ObservedLR) && s.loadReductionEnabled, 0),
      Rule(Observed(seen, ObservedBattery) && s.exportedBatteryW > 200.0, 0),
      Rule(Observed(seen, ObservedEVBattery) && s.evBatteryLevelPercent < 60.0, ceiling),
      Rule(Observed(seen, ObservedExportedSolar),
           if ceiling < Int32Of(s.exportedSolarW) then ceiling else Int32Of(s.exportedSolarW)) ]
  }

  lemma {:induction false} FirstMatchSkip(rules: seq<Rule>, fallback: int, k: nat)
    requires k <= |rules|
    requires forall i :: 0 <= i < k ==> !rules[i].applies
    ensures FirstMatch(rules, fallback) == FirstMatch(rules[k..], fallback)
    decreases k
  {
    if k > 0 {
      assert rules[1..][k - 1..] == rules[k..];
      FirstMatchSkip(rules[1..], fallback, k - 1);
    }
  }

  /** With every earlier rule skipped, rule `k` decides when it applies. */
  lemma FirstMatchAt(rules: seq<Rule>, fallback: int, k: nat)
    requires k < |rules| && rules[k].applies
    requires forall i :: 0 <= i < k ==> !rules[i].applies
    ensures FirstMatch(rules, fallback) == rules[k].budget
  {
    FirstMatchSkip(rules, fallback, k);
  }

  /** No rule applies: the fallback is the result. */
  lemma FirstMatchNone(rules: seq<Rule>, fallback: int)
    requires forall i :: 0 <= i < |rules| ==> !rules[i].applies
    ensures FirstMatch(rules, fallback) == fallback
  {
    FirstMatchSkip(rules, fallback, |rules|);
  }

  /** Once the strategy is observed, the budget is the first-match evaluation of the rule list. */
  lemma ComputeMaxPowerIsFirstMatch(s: Snapshot, hour: Hour)
    requires Observed(s.seenValues, ObservedStrategy)
    ensures ComputeMaxPower(s, hour) == FirstMatch(Rules(s, hour), Ceiling(s))
  {
    var rules, c := Rules(s, hour), Ceiling(s);
    if rules[0].applies {
      FirstMatchAt(rules, c, 0);
    } else if rules[1].applies {
      FirstMatchAt(rules, c, 1);
    } else if rules[2].applies {
      FirstMatchAt(rules, c, 2);
    } else if rules[3].applies {
      FirstMatchAt(rules, c, 3);
    } else if rules[4].applies {
      FirstMatchAt(rules, c, 4);
    } else if rules[5].applies {
      FirstMatchAt(rules, c, 5);
    } else {
      FirstMatchNone(rules, c);
    }
  }

  /** Full speed overrides every economic rule; only the temperature derate applies. */
  lemma FullSpeedPrecedence(s: Snapshot, hour: Hour)
    requires Observed(s.seenValues, ObservedStrategy) && s.controllerStrategy == StrategyFullSpeed
    ensures ComputeMaxPower(s, hour) == Ceiling(s)
    ensures !Observed(s.seenValues, ObservedTemp) ==> ComputeMaxPower(s, hour) == MaxInt32
  {
  }

  /** A load-reduction event zeroes the budget unless an override rule came first. */
  lemma LoadReductionZeroes(s: Snapshot, hour: Hour)
    requires Observed(s.seenValues, ObservedStrategy)
    requires s.controllerStrategy != StrategyFullSpeed
    requires !(s.controllerStrategy == StrategyOvernight && hour < 6)
    requires Observed(s.seenValues, ObservedLR) && s.loadReductionEnabled
    ensures ComputeMaxPower(s, hour) == 0
  {
  }

  /** With no earlier rule applying, the budget is the exported solar power capped by the ceiling. */
  lemma SolarExportLimit(s: Snapshot, hour: Hour)
    requires Observed(s.seenValues, ObservedStrategy)
    requires s.controllerStrategy != StrategyFullSpeed
    requires !(s.controllerStrategy == StrategyOvernight && hour < 6)
    requires !(Observed(s.seenValues, ObservedLR) && s.loadReductionEnabled)
    requires !(Observed(s.seenValues, ObservedBattery) && s.exportedBatteryW > 200.0)
    requires !(Observed(s.seenValues, ObservedEVBattery) && s.evBatteryLevelPercent < 60.0)
    requires Observed(s.seenValues, ObservedExportedSolar)
    ensures var x := Int32Of(s.exportedSolarW);
            ComputeMaxPower(s, hour) == if x <= Ceiling(s) then x else Ceiling(s)
  {
  }

  /**
   * A reading is never trusted before its bit is set: two snapshots with the same
   * bits that agree on every observed input of the budget get the same budget.
   */
  lemma UnobservedReadingsIgnored(s: Snapshot, t: Snapshot, hour: Hour)
    requires s.seenValues == t.seenValues
    requires Observed(s.seenValues, ObservedStrategy) ==> s.controllerStrategy == t.controllerStrategy
    requires Observed(s.seenValues, ObservedTemp) ==> s.temp == t.temp
    requires Observed(s.seenValues, ObservedLR) ==> s.loadReductionEnabled == t.loadReductionEnabled
    requires Observed(s.seenValues, ObservedBattery) ==> s.exportedBatteryW == t.exportedBatteryW
    requires Observed(s.seenValues, ObservedEVBattery) ==> s.evBatteryLevelPercent == t.evBatteryLevelPercent
    requires Observed(s.seenValues, ObservedExportedSolar) ==> s.exportedSolarW == t.exportedSolarW
    ensures ComputeMaxPower(s, hour) == ComputeMaxPower(t, hour)
  {
    assert Ceiling(s) == Ceiling(t);
  }

  // ---------------------------------------------------------------------------
  // Output clamp

  /**
   * What `singleLoop` hands to `setEcoPowerLimit` for a raw budget: nothing below
   * `MinSitePowerW`, otherwise the budget capped at `Volts * MaxAmps` (no lower clamp).
   */
  function Dispatched(raw: int): (out: Option<int>)
    ensures out.None? <==> raw < MinSitePowerW
    ensures out.Some? ==> MinSitePowerW <= out.value <= Volts * MaxAmps
    ensures out.Some? && raw <= Volts * MaxAmps ==> out.value == raw
    ensures out.Some? && raw > Volts * MaxAmps ==> out.value == Volts * MaxAmps
  {
    if raw < MinSitePowerW then None
    else if raw > Volts * MaxAmps then Some(Volts * MaxAmps)
    else Some(raw)
  }

  /** The cold-start sentinel is never dispatched. */
  lemma ColdStartNotDispatched(s: Snapshot, hour: Hour)
    requires !Observed(s.seenValues, ObservedStrategy)
    ensures Dispatched(ComputeMaxPower(s, hour)) == None
  {
  }

  /** Clamping is idempotent: a dispatched value dispatches as itself. */
  lemma DispatchedIdempotent(raw: int)
    requires Dispatched(raw).Some?
    ensures Dispatched(Dispatched(raw).value) == Dispatched(raw)
  {
  }
}
