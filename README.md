# EV charge controller: the decision engine

This project models the decision engine of a home EV-charging controller. The engine lives in
`controller.go`, and a small piece comes from `tesla.go`. External pollers report sensor readings
through `Set*` calls. The controller stores each value and marks it as observed in a bitmask. When
the stored value changed, it wakes the decision loop.

The decision loop:
- computes a power budget (`computeMaxPower`) from the latest snapshot and the hour;
- drops the cycle when the budget is below the "not enough data" floor;
- caps the budget at `volts * maxAmps`;
- hands the result to the injected `setEcoPowerLimit` callback.

The first callback error ends the loop.

The model has five modules:

- `Wrappers`: the `Option` type.
- `OperationModes` (`tesla.go`): the Powerwall operation-mode enum, its `String`, and its
  `UnmarshalJSON`.
  - `UnmarshalJSON` strips every leading and trailing `"`, then accepts `autonomous`,
    `self_consumption` and `backup`.
  - A rejected input leaves the mode unchanged and yields `Unknown operation mode <token>`.
  - A lemma shows that the printed form `self-consumption` does not parse back.
- `Temperatures` (`controller.go`): tenths-of-a-degree temperatures, and `Temperature.String`
  with Go's truncating `/` and `%`.
  - It also holds the `tempClamps` derate table, its first-match ceiling and `maxPowerForTemp`,
    kept as the loop it is in the source.
- `Budget` (`controller.go`): the constants, the strategy enum, the observed-bit set, the
  controller's fields as a `Snapshot` value, `computeMaxPower` as a pure function of the snapshot
  and the hour, and the output clamp of `singleLoop` (`Dispatched`).
  - `computeMaxPower` is also stated as "first matching rule of an ordered list, else the ceiling".
  - The two forms are proved equal.
- `Controller` (`controller.go`): `updateSensor`, setter calls as values (`Reading`), and their
  effect on a snapshot (`Next`).
  - A `Controller` class has the source's sensor fields and the observed bitmask, its twelve setters (`modifies this`, each
    returning whether it signalled), getters, the variadic `seen`, and `singleLoop`.
  - `Loop` runs over a finite sequence of setter calls, each with the hour and the callback's
    outcome for the cycle it may wake. It is proved against the specification function `Run`.

Behaviour kept as written:
- `SetLoadW` marks `observedOperationMode` and `SetOperationMode` marks `observedLoad`
  (`controller.go:132-138`). `LoadBitsSwapped` states this. `ReportOnlyKeepsBudget` shows the
  swap has no effect on the budget, because `computeMaxPower` reads neither bit.
- `singleLoop` has no lower clamp (`controller.go:291-300`): a budget in `[minSitePowerW, 0)`
  reaches the callback unchanged (`Dispatched`).
- The derate compares with a strict `>` (`controller.go:222`), so exactly 50.0 °C falls in the
  12 A band, not the 8 A band (`TableCeilingValues`).

The bitmask `observedValues` (one bit per `1 << iota` constant) is modelled as a set of
`Observation` bits:
- `|=` becomes set union;
- the test `seenValues & check == check` becomes `seenValues * check == check`.

The twelve constants are singleton sets in the same order as the source.

## Model

| member | source | states |
|---|---|---|
| OperationModes.ToString | tesla.go:218-229 | the three known modes print as `self-consumption`, `autonomous`, `backup`; every other value prints `unknown`, and only those do |
| OperationModes.ToStringInjective | tesla.go:218-229 | distinct known modes print differently |
| OperationModes.TrimLeadingQuotes | tesla.go:232 | the result is a suffix of the input that does not start with `"`, and only quotes were removed |
| OperationModes.TrimTrailingQuotes | tesla.go:232 | the result is a prefix of the input that does not end with `"`, and only quotes were removed |
| OperationModes.TrimQuotes | tesla.go:232 | `strings.Trim(s, "\"")`: the result neither starts nor ends with a quote |
| OperationModes.UnmarshalJSON | tesla.go:231-246 | success exactly for the three tokens after trimming quotes, each mapped to its mode (never `OperationUnknown`); on failure the mode is unchanged and the error text is `Unknown operation mode ` followed by the trimmed token |
| OperationModes.TrimLeadingAppendQuote | tesla.go:232 | a quote appended at the end survives trimming of leading quotes, unless the input is empty or only quotes, when everything is trimmed |
| OperationModes.TrimTrailingAppendQuote | tesla.go:232 | trimming trailing quotes removes an appended quote |
| OperationModes.TrimLeadingPrependQuote | tesla.go:232 | trimming leading quotes removes a prepended quote |
| OperationModes.TrimQuotesQuoted | tesla.go:232 | wrapping a string in quotes does not change what trimming yields |
| OperationModes.TrimQuotesBare | tesla.go:232 | a non-empty string that neither starts nor ends with a quote trims to itself |
| OperationModes.UnmarshalQuotedSame | tesla.go:231-246 | a JSON string and its bare token unmarshal identically, whatever the input |
| OperationModes.PrintAfterUnmarshal | tesla.go:218-246 | parsing a quoted accepted token and printing the mode gives the token back, except `self_consumption`, which prints as `self-consumption` |
| OperationModes.UnmarshalAfterPrint | tesla.go:218-246 | printing a known mode and parsing the JSON string restores that mode for `autonomous` and `backup`; for self-consumption the printed name is rejected with the error `Unknown operation mode self-consumption`, and the mode is left unchanged |
| Temperatures.GoQuot | controller.go:39 | Go's truncating quotient: Euclidean for non-negative dividends; for negative ones it is not positive and `a <= q*b < a + b`, so it rounds toward zero |
| Temperatures.GoRem | controller.go:39 | Go's remainder: `a == q*b + r`, with `0 <= r < b` for non-negative and `-b < r <= 0` for negative dividends |
| Temperatures.Digits | controller.go:39 | the decimal rendering `%d` uses for naturals is non-empty and made only of the digits `0`-`9` |
| Temperatures.DigitsRoundTrip | controller.go:39 | reading the decimal digits of `n` back gives `n` |
| Temperatures.DigitChar | controller.go:39 | one decimal digit character, whose value reads back as the digit |
| Temperatures.FormatInt | controller.go:39 | `%d`: starts with `-` exactly for negative values, followed by the digits of the magnitude |
| Temperatures.ToString | controller.go:38-40 | for `t >= 0` the whole degrees, a dot, the single tenths digit and ` C`; for `-10 < t < 0` the as-written `0.-d C`; for `t <= -10` a leading minus sign |
| Temperatures.ToStringRoundTrip | controller.go:38-40 | for `t >= 0`, `String` is the digits of `t/10`, a dot, one digit, then ` C`, and parsing it back gives `t` |
| Temperatures.ToStringInjective | controller.go:38-40 | distinct non-negative temperatures print differently |
| Temperatures.FirstClamp | controller.go:218-229 | with no threshold exceeded the ceiling is `MaxInt32`; otherwise it is `volts * maxAmps` of the first entry whose threshold the temperature strictly exceeds |
| Temperatures.TempCeiling | controller.go:218-229 | the value of `maxPowerForTemp`: between 1920 and `MaxInt32`, and `MaxInt32` exactly up to 46.0 °C |
| Temperatures.FirstClampAtLeast | controller.go:218-229 | the ceiling of a derate table is at least any lower bound of all its entries' powers that is at most `MaxInt32` |
| Temperatures.FirstClampMonotone | controller.go:218-229 | on a table ordered hottest-first with non-increasing currents, a hotter temperature never gets a higher ceiling |
| Temperatures.TempClampsIsDerateTable | controller.go:54-63 | the `tempClamps` table is ordered hottest-first and its currents do not increase with temperature |
| Temperatures.TableCeilingValues | controller.go:54-63 | the closed form of the derate band by band: unclamped up to 46.0 °C, then 7680, 5760, 3840, 2880 and 1920 W above 46, 47, 48, 49, 50 °C |
| Temperatures.TempCeilingMonotone | controller.go:218-229 | hotter hardware never gets a higher ceiling |
| Temperatures.MaxPowerForTemp | controller.go:218-229 | the loop returns the first-match ceiling of the table; the value lies in `[1920, MaxInt32]`, and is `MaxInt32` exactly when the temperature is at most 46.0 °C |
| Budget.Int32Of | controller.go:273-277 | `int32(x)` truncates toward zero: the result lies within 1 of `x`, between 0 and `x` |
| Budget.Observed | controller.go:210 | one `seen` check: the bits of `check` are all present, i.e. `check` is a subset of the observed bits |
| Budget.Ceiling | controller.go:237-241 | the temperature ceiling is `MaxInt32` while the temperature is unobserved and always lies in `[1920, MaxInt32]` |
| Budget.ComputeMaxPower | controller.go:231-281 | `MinInt32` until the strategy is observed; after that never above the temperature ceiling, and negative only as the truncated exported solar power when that is observed |
| Budget.FirstMatch | controller.go:243-280 | the result is the fallback or the budget of some applying rule |
| Budget.Rules | controller.go:243-278 | the six rules of the ladder after the cold-start gate, none with a budget above the temperature ceiling |
| Budget.FirstMatchSkip | controller.go:243-280 | rules that do not apply can be skipped in the first-match evaluation |
| Budget.FirstMatchAt | controller.go:243-280 | the first applying rule decides the budget |
| Budget.FirstMatchNone | controller.go:280 | when no rule applies, the budget is the fallback (the ceiling) |
| Budget.ComputeMaxPowerIsFirstMatch | controller.go:231-281 | once the strategy is observed, `computeMaxPower` is the first match of the ordered rules (full speed, overnight before 06:00, load reduction, battery export above 200 W, EV battery below 60 %, exported solar capped by the ceiling), else the ceiling |
| Budget.FullSpeedPrecedence | controller.go:243-245 | under full speed the budget is the temperature ceiling whatever the other readings; with temperature unobserved it is `MaxInt32` |
| Budget.LoadReductionZeroes | controller.go:254-256 | an observed, enabled load reduction gives budget 0 unless full speed or the overnight window came first |
| Budget.SolarExportLimit | controller.go:272-278 | when no earlier rule applies and exported solar is observed, the budget is the truncated exported solar power capped by the ceiling |
| Budget.UnobservedReadingsIgnored | controller.go:231-281 | a reading is never trusted before its bit is set: snapshots with the same bits that agree on every observed input (strategy, temperature, load reduction, battery export, EV battery, exported solar) get the same budget at every hour |
| Budget.Dispatched | controller.go:289-300 | nothing is sent exactly when the budget is below `minSitePowerW`; otherwise the value sent lies in `[minSitePowerW, 9600]`, equals the budget up to 9600 and is 9600 above it |
| Budget.ColdStartNotDispatched | controller.go:232-235 | the cold-start sentinel `MinInt32` is never handed to the callback |
| Budget.DispatchedIdempotent | controller.go:296-298 | clamping a value already sent yields the same value |
| Controller.UpdateSensor | controller.go:97-110 | the field ends up holding the new value, the observed bits are added, and the setter signals exactly when the value differed |
| Controller.UpdateSensorIdempotent | controller.go:97-110 | repeating the same update changes nothing further and does not signal |
| Controller.UpdateSensorObserves | controller.go:106 | the update marks its bits observed and keeps every bit observed before |
| Controller.ObservedBit | controller.go:112-158 | each setter marks exactly one bit, and each bit the budget reads (strategy, temperature, load reduction, battery export, EV battery, exported solar) is marked by its own setter only |
| Controller.Store | controller.go:103 | storing a reading leaves the bitmask and every budget input other than its own field unchanged |
| Controller.Changes | controller.go:102 | the setter's value differs from the stored one exactly when storing it changes the snapshot |
| Controller.Next | controller.go:97-158 | a setter call ORs in its bit and signals exactly when storing the value changes the snapshot |
| Controller.NextNotifiesIffChanged | controller.go:97-158 | a setter call signals exactly when it changed the stored readings (apart from the observed bits) |
| Controller.NextObserves | controller.go:106 | a setter call marks its own bit and never clears one |
| Controller.NextIdempotent | controller.go:97-158 | repeating a setter call with the same value leaves the snapshot unchanged and does not signal |
| Controller.LoadBitsSwapped | controller.go:132-138 | `SetLoadW` marks the operation-mode bit and leaves the load bit as it was; `SetOperationMode` marks the load bit and leaves the operation-mode bit as it was |
| Controller.ReportOnlyKeepsBudget | controller.go:231-281 | readings the budget does not use (Powerwall battery level, solar, load, operation mode, EVSE current, connection) never change `computeMaxPower`, bits included |
| Controller.Cycle | controller.go:283-301 | one setter call plus, when it signalled, one decision cycle: at most one value is sent, and an error occurs only when one was sent; every value sent lies in `[minSitePowerW, 9600]` |
| Controller.CycleQuietOnRepeat | controller.go:101-109 | a setter call that repeats the stored value runs no decision cycle, so nothing is sent and no error occurs |
| Controller.Run | controller.go:303-309 | the loop over the steps consumes at most all of them, and all of them unless a callback fails; at most one value is sent per step consumed, and a failed run consumed at least one step |
| Controller.LoopStep | controller.go:303-309 | one more step either keeps the loop's progress or ends it with the callback's error |
| Controller.RunSentBounded | controller.go:291-300 | every value the loop hands to the callback lies in `[minSitePowerW, 9600]` |
| Controller.RunStopsAtFirstError | controller.go:303-309 | a failed run stops right after the failing step: its error is that step's callback result, and the run of the steps up to it is the whole run |
| Controller.RunPrefixAfterCycle | controller.go:303-309 | after a first step that did not fail, a prefix of the run is that step followed by the run of the rest's prefix |
| Controller.RunErrorIsFirst | controller.go:305-306 | the reported error is the first: every shorter prefix of a failed run ends without error |
| Controller.RunSucceedsIff | controller.go:303-309 | the loop ends without error exactly when no decision cycle fails, each cycle run from the state its preceding steps reached |
| Controller.RunColdStart | controller.go:232-235 | while no strategy is ever set, the loop sends nothing and never fails |
| Controller.Controller.constructor | controller.go:86-95 | `NewController` starts with every reading zero and nothing observed |
| Controller.Controller.SetEVBatteryLevelPercent | controller.go:112-114 | stores the value, adds `observedEVBattery`, and signals exactly on change; nothing else changes |
| Controller.Controller.SetPowerwallBatteryLevelPercent | controller.go:116-118 | stores the value, adds `observedBatteryLevel`, and signals exactly on change; nothing else changes |
| Controller.Controller.SetExportedBatteryW | controller.go:120-122 | stores the value, adds `observedBattery`, and signals exactly on change; nothing else changes |
| Controller.Controller.SetExportedSolarW | controller.go:124-126 | stores the value, adds `observedExportedSolar`, and signals exactly on change; nothing else changes |
| Controller.Controller.SetSolarW | controller.go:128-130 | stores the value, adds `observedSolar`, and signals exactly on change; nothing else changes |
| Controller.Controller.SetLoadW | controller.go:132-134 | stores the load, adds `observedOperationMode` (as written), and signals exactly on change; nothing else changes |
| Controller.Controller.SetOperationMode | controller.go:136-138 | stores the mode, adds `observedLoad` (as written), and signals exactly on change; nothing else changes |
| Controller.Controller.SetLoadReduction | controller.go:140-142 | stores the flag, adds `observedLR`, and signals exactly on change; nothing else changes |
| Controller.Controller.SetControllerStrategy | controller.go:144-146 | stores the strategy, adds `observedStrategy`, and signals exactly on change; nothing else changes |
| Controller.Controller.SetEVSETemp | controller.go:148-150 | stores the temperature, adds `observedTemp`, and signals exactly on change; nothing else changes |
| Controller.Controller.SetEVSECurrent | controller.go:152-154 | stores the current, adds `observedEVCurrent`, and signals exactly on change; nothing else changes |
| Controller.Controller.SetEVConnected | controller.go:156-158 | stores the flag, adds `observedEVConnected`, and signals exactly on change; nothing else changes |
| Controller.Controller.Apply | controller.go:112-158 | calling the setter a `Reading` names has exactly the effect `Next` gives: the new state and whether it signalled |
| Controller.Controller.GetSolarW | controller.go:160-164 | returns the stored solar power and changes nothing |
| Controller.Controller.GetLoadW | controller.go:166-170 | returns the stored load and changes nothing |
| Controller.Controller.GetPowerwallBatteryLevel | controller.go:172-176 | returns the stored Powerwall charge and changes nothing |
| Controller.Controller.GetExportedSolarW | controller.go:178-182 | returns the stored exported solar power and changes nothing |
| Controller.Controller.GetOperationMode | controller.go:184-188 | returns the stored operation mode and changes nothing |
| Controller.Controller.GetEVSETemp | controller.go:190-194 | returns the stored temperature and changes nothing |
| Controller.Controller.GetEVSECurrent | controller.go:196-200 | returns the stored EVSE current and changes nothing |
| Controller.Controller.GetEVConnected | controller.go:202-206 | returns the stored connection flag and changes nothing |
| Controller.Controller.Seen | controller.go:208-216 | true exactly when every bit of every check has been observed (true for no checks) |
| Controller.Controller.SingleLoop | controller.go:283-301 | after a wake: nothing is sent and no error is returned when the budget is below `minSitePowerW`; otherwise the clamped budget is sent and the callback's result is returned |
| Controller.Controller.Deliver | controller.go:97-301 | one setter call followed by a decision cycle when it signalled; the new state, the values sent and the error agree with `Cycle` |
| Controller.Controller.Loop | controller.go:303-309 | running the steps leaves the state, the values sent and the error that `Run` gives; by `RunStopsAtFirstError`, `RunErrorIsFirst` and `RunSucceedsIff` that error is the first failing callback's, and there is none exactly when no cycle fails |

## Left out

- The mutex and the condition variable are not modelled. A setter's `Signal` is its `notify` result, and each signalling setter call is followed by exactly one decision cycle. A signal lost while the loop is busy, and concurrent interleavings, are not modelled.
- `time.Now().Hour()` becomes a parameter, the hour of the cycle (an `Hour` in 0..23).
- float64 readings are modelled as mathematical reals. NaN, infinities, negative zero and rounding are not modelled. `int32(x)` is modelled as truncation toward zero with no range limit; Go leaves out-of-range conversions implementation-defined.
- Int32Of: does not model the implementation-defined result of converting a float64 outside the int32 range.
- The `setEcoPowerLimit` callback is not called. Its outcome is a parameter of each step, and the value it would have received is an output. `float64(maxPower)` is exact for these values, so the value sent is kept as an integer.
- Temperature.String for negative temperatures is modelled as written (Go's truncating `/` and `%`, so -5 prints `0.-5 C`). No lemma states anything about negative temperatures.
- `UnmarshalJSON` treats the input bytes as characters; UTF-8 decoding is not modelled.
- Controller.Controller.Loop: the source's loop never ends unless the callback fails. The model runs over a finite sequence of steps, and returns no error when they run out.
- The getters take the lock in the source; without concurrency the lock has no effect in the model.
- The rest of `tesla.go` (HTTP polling of the gateway and the JSON response types), `openevse.go`, `main.go` and `mqtt.go` are collaborators outside the decision engine and are not part of this model.
