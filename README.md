# Drivetrain compatibility engine, in Dafny

This project models the compatibility engine of a hobby-robotics drivetrain checker (botcalc-pro). Given a
candidate motor, ESC, battery and drivetrain, the engine:

- derives the motor constants, the battery limits and sag, the top speeds and a rough current demand;
- runs the ESC rules (voltage, current/thermal, ERPM, BEC), the battery-lead wire-gauge selector and
  the protection advisor (fuse size, anti-spark advice, connector rating check);
- aggregates every leveled reason into one verdict, FAIL > WARN > PASS, with the reasons stably
  sorted by category.

Every quantity is a Dafny `real`. `Math.PI` is its decimal value, and the proofs assume only that it
is positive.

One module per source file:

| module | file | form |
|---|---|---|
| `Compatibility` | `compatibility.dfy` | worst-of loop (`method Overall`, with an early exit at the first FAIL), array copy and in-place stable insertion sort (`SortByCategory`) |
| `Esc` | `esc.dfy` | class `ReasonList` whose `Push` appends to a `seq` field; one method per check, each specified by the function that lists what it appends |
| `Awg`, `Wiring` | `awg.dfy`, `wiring.dfy` | the gauge table, and the map / filter / first-or-last selection as functions |
| `Connectors`, `Protection` | `connectors.dfy`, `protection.dfy` | the connector table, its case-insensitive `find`, and the advisor functions |
| `Motor`, `Battery`, `Drivetrain`, `EngineDrivetrain` | `motor.dfy`, `battery.dfy`, `drivetrain.dfy`, `engine_drivetrain.dfy` | closed-form physics as functions |
| `System` | `system.dfy` | `BuildReport`, a method, because the ESC summary and the aggregation it calls are methods |
| `Optional` | `optional.dfy` | `Option`, for the fields the source leaves `undefined` |

## Model

| member | source | states |
|---|---|---|
| Compatibility.Worst | src/engine/compatibility.ts:8-9 | the combined verdict is one of the two and at least as severe as both |
| Compatibility.WorstOfIsWorstVerdict | src/engine/compatibility.ts:6-10 | the fold gives FAIL iff some reason is FAIL; WARN iff none is FAIL and some is WARN; PASS otherwise, including for the empty list |
| Compatibility.HasLevelSnoc | src/engine/compatibility.ts:7-10 | appending one reason adds exactly its level to the levels present |
| Compatibility.SamePermutationSameWorst | src/engine/compatibility.ts:12-13 | the worst-of characterisation carries over to any reordering of the reasons |
| Compatibility.Overall | src/engine/compatibility.ts:6-10 | the loop with its early `break` computes the worst-of fold and satisfies the FAIL/WARN/PASS characterisation |
| Compatibility.CategoryLeReflexive | src/engine/compatibility.ts:12 | the category order (code-point order standing in for `localeCompare`) is reflexive |
| Compatibility.CategoryLeTotal | src/engine/compatibility.ts:12 | any two categories are comparable |
| Compatibility.CategoryLeAntisymmetric | src/engine/compatibility.ts:12 | categories that compare both ways are equal |
| Compatibility.CategoryLeTransitive | src/engine/compatibility.ts:12 | the order is transitive |
| Compatibility.AdjacentSortedStep | src/engine/compatibility.ts:12 | when every neighbour pair is ordered, every earlier element is at most every later one |
| Compatibility.AdjacentSortedIsSorted | src/engine/compatibility.ts:12 | neighbour-wise order implies full sortedness |
| Compatibility.SelectConcat | src/engine/compatibility.ts:12 | the subsequence of one category in a concatenation is the concatenation of the subsequences |
| Compatibility.SwapKeepsSelect | src/engine/compatibility.ts:12 | swapping neighbours of different categories keeps each category's order |
| Compatibility.SwapNeighbours | src/engine/compatibility.ts:12 | the swap exchanges exactly the two elements and keeps both the multiset and each category's order |
| Compatibility.InsertingStep | src/engine/compatibility.ts:12 | one swap of the element being inserted keeps the insertion invariant |
| Compatibility.InsertingDone | src/engine/compatibility.ts:12 | when the inserted element stops, the prefix is sorted |
| Compatibility.InsertLast | src/engine/compatibility.ts:12 | one insertion extends the sorted prefix by one, keeping the multiset and each category's order, and leaves the cells after it untouched |
| Compatibility.SortByCategory | src/engine/compatibility.ts:12 | the in-place sort leaves the array sorted by category, a permutation of the input, with equal categories in input order (stable) |
| Compatibility.Aggregate | src/engine/compatibility.ts:5-14 | `overall` is the worst-of fold; `reasons` is a sorted, stable permutation of the input, of the same length; the input is not changed |
| Compatibility.SelectNonEmpty | src/engine/compatibility.ts:12 | a non-empty category subsequence comes from an element of that category |
| Compatibility.SelectHead | src/engine/compatibility.ts:12 | the first element's category subsequence starts with that element |
| Compatibility.StableSortIsUnique | src/engine/compatibility.ts:12 | two sorted sequences with the same per-category subsequences are equal |
| Compatibility.AggregateOrderIsDetermined | src/engine/compatibility.ts:12 | the stable sorted order of `aggregate` is unique |
| Compatibility.AggregateExample | tests/compatibility.test.ts:5-12 | [Voltage FAIL, Current/Thermal WARN] gives FAIL with Current/Thermal first |
| Compatibility.OverallExamples | tests/compatibility.test.ts:14-17 | a lone PASS gives PASS; PASS with WARN gives WARN |
| Esc.ReasonList.constructor | src/engine/esc.ts:155 | a new list is empty |
| Esc.ReasonList.Push | src/engine/esc.ts:37-39 | `push` appends exactly one reason and leaves the earlier entries unchanged |
| Esc.VoltageReasons | src/engine/esc.ts:41-60 | only Voltage FAILs: one for cells outside [min, max] (emitted first), one more for a defined abs-max below the charged voltage |
| Esc.CheckVoltage | src/engine/esc.ts:41-60 | the list grows by exactly the voltage reasons |
| Esc.ContinuousReasons | src/engine/esc.ts:68-86 | at most one reason: FAIL iff demand > rating; WARN iff demand ≤ rating and demand > rating·(1 − headroom), headroom 0.15 by default |
| Esc.BurstReasons | src/engine/esc.ts:88-97 | one burst WARN iff a burst rating is defined and strictly exceeded, else none |
| Esc.CurrentReasons | src/engine/esc.ts:62-98 | at most two Current/Thermal reasons |
| Esc.CheckCurrent | src/engine/esc.ts:62-98 | the list grows by exactly the continuous reason followed by the burst reason |
| Esc.ErpmReasons | src/engine/esc.ts:100-125 | none without a limit; FAIL iff above the limit; WARN iff within it but above limit·(1 − headroom), headroom 0.10 by default |
| Esc.CheckErpm | src/engine/esc.ts:100-125 | the list grows by exactly the ERPM reasons |
| Esc.BecReasons | src/engine/esc.ts:127-147 | none without a rating; FAIL iff load > rating; WARN iff load ≤ rating and load/rating·100 > 90 |
| Esc.BecAbove90Means | src/engine/esc.ts:137-138 | for a positive rating, the WARN test means load > 0.9·rating |
| Esc.CheckBec | src/engine/esc.ts:127-147 | the list grows by exactly the BEC reasons |
| Esc.EscReasons | src/engine/esc.ts:155-159 | the emitted reasons (voltage, current, ERPM, BEC, in that order) number at most 6 |
| Esc.SummarizeEsc | src/engine/esc.ts:149-168 | the summary lists the four checks' reasons in order, at most 6, and `overall` is their worst-of fold |
| Esc.HasLevelConcat | src/engine/esc.ts:162-166 | a level occurs in a concatenation iff it occurs in one of the parts |
| Esc.HasLevelShort | src/engine/esc.ts:162-166 | in a list of at most one reason, a level occurs iff that reason has it |
| Esc.EscFailIff | src/engine/esc.ts:41-166 | the ESC verdict is FAIL iff cells are out of range, or the abs-max is exceeded, or continuous demand exceeds the rating, or ERPM exceeds its limit, or BEC load exceeds its rating |
| Esc.CellsOutOfRangeFails | src/engine/esc.ts:43-50 | cells outside the range force FAIL, with the Voltage FAIL as first reason |
| Esc.FourCellsOnThreeCellEsc | tests/esc.test.ts:15-22 | 4S on a 2–3S ESC gives FAIL with a Voltage FAIL |
| Esc.NearContinuousLimitWarns | tests/esc.test.ts:24-34 | 55 A on a 60 A ESC warns; 65 A fails |
| Esc.ErpmOverLimitFails | tests/esc.test.ts:36-43 | 250000 ERPM against a 200000 limit fails |
| Esc.BecCases | tests/esc.test.ts:45-56 | 2.8 A on a 3 A BEC warns; 3.5 A fails |
| Awg.OhmsPerFt | src/data/awg.ts:16 | resistance per foot is the per-1000-ft figure over 1000, positive when that is |
| Awg.TableShape | src/data/awg.ts:4-15 | ten rows, from "18" to "1/0" |
| Awg.TableIsOrdered | src/data/awg.ts:4-15 | resistance strictly decreases and ampacity strictly increases along the table; resistance is positive |
| Awg.AdjacentRowsOrdered | src/data/awg.ts:5-14 | the same order for any two rows i < j, by induction over the gap |
| Wiring.Evaluate | src/engine/wiring.ts:21-31 | vDrop = I·ohmsPerFt·L, dropPct·V = vDrop·100, wPerFt = I²·ohmsPerFt; each of the three pass flags holds iff its limit holds, and `passes` iff all three do |
| Wiring.HeatIndependentOfLength | src/engine/wiring.ts:25 | heat per foot is the same for any length |
| Wiring.Results | src/engine/wiring.ts:21-31 | one metrics record per table row, in table order |
| Wiring.Passing | src/engine/wiring.ts:34 | the filter keeps exactly the passing results, is no longer than its input, and is empty iff none passes |
| Wiring.PassingConcat | src/engine/wiring.ts:34 | the filter keeps input order: filtering a concatenation concatenates the filtered parts |
| Wiring.PassingHead | src/engine/wiring.ts:34-36 | the filter is empty iff no row passes, and otherwise starts with the first passing row |
| Wiring.SelectedIndex | src/engine/wiring.ts:34-54 | the selected index is a table index |
| Wiring.FirstPassingFrom | src/engine/wiring.ts:34-54 | from position i: the first passing row, or the last row when none from i on passes |
| Wiring.SelectedIndexIsFirstPassing | src/engine/wiring.ts:34-54 | no row before the selected one passes; the selected one passes if any does; with none passing it is the last (thickest) |
| Wiring.EvaluateAwg | src/engine/wiring.ts:12-55 | `evaluateAwg` reports the gauge and metrics of exactly the selected row (the first passing row, else the thickest), with the "meets" reason iff that row passes |
| Wiring.PassingHeadIsSelected | src/engine/wiring.ts:34-36 | a non-empty filter starts with the selected row, which passes; an empty one means the last row is selected and fails |
| Wiring.PassesAtLowerCurrent | src/engine/wiring.ts:22-29 | a row that passes at some current passes at any lower non-negative current |
| Wiring.PassesAtShorterLength | src/engine/wiring.ts:22-29 | a row that passes at some length passes at any shorter non-negative length |
| Wiring.SelectionMonotone | src/engine/wiring.ts:34-54 | if every row passing under q passes under p, the choice under p is no later than under q |
| Wiring.MoreCurrentNeverThinner | src/engine/wiring.ts:21-54 | for V > 0, raising the current never selects an earlier (thinner) row |
| Wiring.LongerRunNeverThinner | src/engine/wiring.ts:21-54 | for V > 0, a longer round trip never selects an earlier row |
| Wiring.PassesOnThickerRow | src/engine/wiring.ts:26-29 | a row with no more resistance and no less ampacity passes whenever the other does |
| Wiring.ThickerRowsPass | src/engine/wiring.ts:26-29 | once a table row passes, every thicker row passes too |
| Wiring.RecommendBatteryLeads | src/engine/wiring.ts:57-69 | battery leads are `evaluateAwg` with round trip 2·one-way, a 3 % drop target and 3 W/ft, so their gauge is the row the selection rule picks for those parameters |
| Wiring.HigherCurrentExample | tests/wiring.test.ts:5-10 | 20 A and 60 A over 2 ft at 12 V select different gauges ("12" and "6") |
| Wiring.EightyAmpSelection | tests/wiring.test.ts:19-23 | 80 A over a 3 ft round trip at 12 V selects row 7 (gauge "4") |
| Wiring.BatteryLeadsExample | tests/wiring.test.ts:19-23 | 80 A leads of 1.5 ft at 12 V get gauge "4", with a drop of at most 3.5 % |
| Connectors.LowerChar | src/data/connectors.ts:11 | an upper-case ASCII letter maps to the lower-case letter at the same alphabet position; every other character is unchanged |
| Connectors.ToLower | src/data/connectors.ts:11 | lower-casing keeps the length and maps each character |
| Connectors.FindFrom | src/data/connectors.ts:10-12 | `find` over a table from position i: the first matching index, or none iff no entry from i on matches |
| Connectors.GetConnector | src/data/connectors.ts:10-12 | a spec is returned iff some family matches case-insensitively; it is the first match; its ratings satisfy 0 < cont < burst |
| Connectors.TableRatingsOrdered | src/data/connectors.ts:3-9 | every entry has 0 < contA < burstA |
| Connectors.FamiliesDistinct | src/data/connectors.ts:3-9 | no two families coincide once lower-cased |
| Connectors.AtMostOneMatch | src/data/connectors.ts:10-12 | at most one entry matches any query |
| Connectors.FindsEntry | src/data/connectors.ts:10-12 | a query that matches entry k returns entry k |
| Connectors.Xt60Lookup | src/data/connectors.ts:6 | "XT60" and "xt60" both find XT60 at 60 A / 80 A |
| Protection.Ceil | src/engine/protection.ts:6 | `Math.ceil`: the least integer at or above x |
| Protection.RoundHalfUp | src/engine/protection.ts:27 | `Math.round`: the integer within half a unit, halves rounding up |
| Protection.SuggestFuse | src/engine/protection.ts:4-8 | a slow-blow fuse with 1.25·contA ≤ rating < 1.25·contA + 1 |
| Protection.NeedsAntiSpark | src/engine/protection.ts:10-14 | anti-spark is advised iff the charged voltage is at least 16.8 V |
| Protection.AntiSparkMonotone | src/engine/protection.ts:13 | a higher charged voltage never withdraws the advice |
| Protection.CheckConnector | src/engine/protection.ts:16-29 | unknown family → WARN; FAIL iff known and cont > rating (checked before burst); cont within but burst above → WARN; otherwise WARN iff round(cont/rating·100) ≥ 90 |
| Protection.RoundedPercentReaches90 | src/engine/protection.ts:27-28 | the rounded percentage reaches 90 iff the exact one reaches 89.5 |
| Protection.ConnectorPassIff | src/engine/protection.ts:16-29 | PASS iff the family is known, both ratings hold, and cont < 0.895·rating |
| Protection.SummarizeProtection | src/engine/protection.ts:31-41 | the same contA is given to the fuse and to the connector check, and the bundle holds the three results |
| Protection.FuseExamples | tests/protection.test.ts:5-7 | 60 A gives a 75 A fuse, 50 A a 63 A fuse |
| Protection.AntiSparkExamples | tests/protection.test.ts:9-12 | 16.8 V gives true and 12.6 V false |
| Protection.Xt60Examples | tests/protection.test.ts:14-17 | XT60 fails at 80 A and passes at 40 A |
| Protection.SummaryExample | tests/protection.test.ts:19-24 | XT90 at 50 A / 80 A and 16.8 V: 63 A fuse, anti-spark, connector PASS |
| Motor.Max | src/engine/motor.ts:31 | `Math.max` is the larger of the two |
| Motor.Min | src/engine/motor.ts:34 | `Math.min` is the smaller of the two |
| Motor.KvToKt | src/engine/motor.ts:4-7 | Kt·2π·Kv = 60; positive for positive Kv; never zero |
| Motor.KtToKv | src/engine/motor.ts:9-11 | Kv·2π·Kt = 60; positive for positive Kt; never zero |
| Motor.KvKtRoundTrip | src/engine/motor.ts:4-11 | Kv → Kt → Kv returns Kv exactly |
| Motor.KtKvRoundTrip | src/engine/motor.ts:4-11 | Kt → Kv → Kt returns Kt exactly |
| Motor.SmokeRoundTrip | tests/smoke.test.ts:5-10 | 1900 rpm/V survives the round trip |
| Motor.EstimatePhaseResistance | src/engine/motor.ts:13-20 | the estimate is positive |
| Motor.PhaseResistanceIgnoresInputs | src/engine/motor.ts:19 | the estimate is 0.05 Ω whatever the inputs |
| Motor.TorqueSpeed | src/engine/motor.ts:22-37 | current·Kt = torque; rpm = max(0, back-EMF·ktToKv(Kt)), so rpm ≥ 0 and 0 at or past stall; P_shaft = torque·rpm·2π/60; P_elec = current·V; 0 ≤ eff ≤ 1, and eff = 0 when P_elec ≤ 0 |
| Motor.EfficiencyIsVoltageRatio | src/engine/motor.ts:28-34 | below stall, with positive torque and supply, efficiency is back-EMF over supply voltage |
| Motor.NoLoadPoint | src/engine/motor.ts:28-34 | at zero torque: no current, zero efficiency, rpm = max(0, V·Kv) |
| Motor.Erpm | src/engine/motor.ts:39-42 | ERPM·2 = rpm·poles; with poles absent, ERPM = 7·rpm |
| Motor.ErpmZeroPoles | src/engine/motor.ts:40 | an explicit pole count of 0 is used as given (`??` falls back only when it is absent) |
| Battery.ContinuousCurrent | engine/battery.ts:2-5 | A·1000 = mAh·C |
| Battery.BurstCurrent | engine/battery.ts:7-10 | an absent or zero C gives capacity/1000 (1C); otherwise capacity/1000·C |
| Battery.SagFromIR | engine/battery.ts:12-17 | R_total·1000 = IR·S and V_drop = I·R_total |
| Battery.IrSagMonotone | engine/battery.ts:15 | with non-negative resistance, more load never gives less drop |
| Battery.LoadRatio | engine/battery.ts:24 | ratio = min(1, load/I_cont) for I_cont > 0: ratio·I_cont ≤ load, and either ratio = 1 or ratio·I_cont = load; ratio = 1 when I_cont ≤ 0; ratio ≥ 0 for a non-negative load |
| Battery.SagFromC | engine/battery.ts:20-27 | up to the rating the per-cell drop is linear, (drop − 0.12)·I_cont = 0.08·load; drop ≤ 0.20, ≥ 0.12 for a non-negative load, and exactly 0.20 when I_cont ≤ 0 or the load reaches I_cont |
| Battery.SagFromCMonotone | engine/battery.ts:24-25 | the C-based drop is non-decreasing in load current |
| Battery.SagFromCNegativeLoad | engine/battery.ts:24-25 | a negative load gives less than 0.12 V/cell, so the 0.12 floor needs a non-negative load |
| Battery.RuntimeAt | engine/battery.ts:29-36 | unbounded iff I·duty ≤ 0; otherwise minutes·I·duty = capacity/1000·60, positive for a positive capacity |
| Battery.RuntimeDecreasing | engine/battery.ts:33-35 | at a positive duty, a higher current strictly shortens the runtime |
| Battery.CRatingExamples | tests/battery.test.ts:5-8 | 5000 mAh at 50C gives 250 A, at 100C burst 500 A; absent or zero burst C gives 5 A |
| Battery.IrSagExample | tests/battery.test.ts:10-14 | 3S at 12 mΩ and 60 A: 0.036 Ω and 2.16 V |
| Battery.RuntimeExample | tests/battery.test.ts:22-26 | 10 A outlasts 20 A at duty 0.5 (60 vs 30 minutes); no load is unbounded |
| Drivetrain.WheelCircumference | src/engine/drivetrain.ts:4-7 | circumference = π·0.0254·diameter (inches to metres), positive for a positive diameter |
| Drivetrain.CircumferenceIncreasing | src/engine/drivetrain.ts:4-7 | a larger wheel has a strictly larger circumference |
| Drivetrain.TopSpeedMph | src/engine/drivetrain.ts:9-19 | mph·gear·60 = Kv(Kt)·V·circumference·2.23694 |
| Drivetrain.SpeedPerVolt | src/engine/drivetrain.ts:14-18 | the speed-per-volt factor is positive for positive Kt, gear and wheel |
| Drivetrain.TopSpeedLinearInVoltage | src/engine/drivetrain.ts:15-18 | top speed is that factor times V (linear in V, no floor) |
| Drivetrain.NegativeVoltageNegativeSpeed | src/engine/drivetrain.ts:15-18 | on a real drivetrain the speed is negative iff V < 0 and positive iff V > 0 |
| Drivetrain.GearLowersTopSpeed | src/engine/drivetrain.ts:16 | a larger gear ratio strictly lowers top speed (positive inputs) |
| Drivetrain.WheelRaisesTopSpeed | src/engine/drivetrain.ts:17 | a larger wheel strictly raises top speed (positive inputs) |
| Drivetrain.DrivetrainExamples | tests/drivetrain.test.ts:7-17 | gear 6 is slower than gear 3; a 4 in wheel is faster than a 2.5 in one |
| Drivetrain.CurrentAtSpeedPerMotor | src/engine/drivetrain.ts:21-34 | the torque model's current at 0.05 N·m, so current·Kt = 0.05 |
| Drivetrain.CurrentIgnoresOperatingPoint | src/engine/drivetrain.ts:26-33 | the current does not depend on target speed, wheel, gear, voltage or resistance (so a bigger wheel needs no less current) |
| EngineDrivetrain.WheelCircumference | engine/drivetrain.ts:5-8 | the same circumference as src/engine/drivetrain.ts, positive for a positive diameter |
| EngineDrivetrain.TopSpeed | engine/drivetrain.ts:10-21 | the result is ≥ 0 and equals max(0, the unfloored formula of src/engine/drivetrain.ts) |
| EngineDrivetrain.TopSpeedZeroIff | engine/drivetrain.ts:20 | on a real drivetrain the floor applies iff V ≤ 0; for V > 0 both formulas agree |
| EngineDrivetrain.TopSpeedNonIncreasingInGear | engine/drivetrain.ts:16-20 | a larger gear ratio never raises the floored top speed |
| EngineDrivetrain.CurrentAtSpeed | engine/drivetrain.ts:23-35 | current·Kt = 0.05, the same value as `currentAtSpeed_perMotor` |
| System.ChooseKv | src/engine/system.ts:29 | the given Kv, else ktToKv(kt) for a non-zero kt, else 1900 |
| System.ChooseKt | src/engine/system.ts:30 | the given Kt, else kvToKt of the chosen Kv; never zero when defined |
| System.MotorConstantsConsistent | src/engine/system.ts:29-30 | when only one of Kv and Kt is given, ktToKv(Kt) = Kv |
| System.KtPositive | src/engine/system.ts:29-30 | positive datasheet constants give a positive Kt |
| System.ChargedVoltage | src/engine/system.ts:38 | chargedV = 4.2 V per cell, so the pack needs anti-spark protection iff it has at least 4 cells |
| System.ContinuousMax | src/engine/system.ts:40 | I_cont_max = capacity·cCont/1000 for a non-zero cCont, else 0 |
| System.BurstMax | src/engine/system.ts:41 | I_burst_max from cBurst when it is non-zero, else I_cont_max |
| System.SagAtCont | src/engine/system.ts:43-48 | with IR given, the sag is the smaller of chargedV − 0.1 and the IR drop at max(1, I_cont_max); otherwise the C-based heuristic with cCont defaulting to 10 |
| System.TopSpeeds | src/engine/system.ts:51-63 | both top speeds are one per-volt factor times the voltage: the nominal voltage, and max(0, nominal − sag); with no sag they agree |
| System.SagNeverRaisesTopSpeed | src/engine/system.ts:52-63 | with positive inputs, 0 ≤ sag-adjusted top speed ≤ nominal top speed |
| System.EstimateDemand | src/engine/system.ts:66-80 | cruise ≤ 10 mph and ≤ 0.6·top speed; per-motor current·Kt = 0.05; cont ≥ 1 and ≥ per-motor·count; burst ≥ 1 and ≥ 1.5·cont; ERPM = erpm(Kv·chargedV, poles); BEC load 0.5 A |
| System.EscSpecOf | src/engine/system.ts:83-93 | the ESC rules see the candidate's cell range, current ratings, ERPM limit and BEC rating, and no absolute voltage limit, so the only Voltage reason possible is the cell-range FAIL |
| System.AllReasons | src/engine/system.ts:115-119 | the merged list is the ESC reasons followed by a Wiring PASS and a Protection reason carrying the connector verdict |
| System.AllReasonsFail | src/engine/system.ts:115-119 | the merged reasons contain a FAIL iff the ESC reasons do or the connector check fails |
| System.DefaultConnectorFails | src/engine/system.ts:108-112 | with the default XT60, the connector check fails iff cont > 60 A |
| System.PermutationKeepsReason | src/engine/system.ts:120 | every merged reason appears in the sorted report |
| System.BuildReport | src/engine/system.ts:27-134 | the computed figures are those of the derivations above; the rules see that demand; the reasons are a sorted stable permutation of ESC reasons + Wiring PASS + Protection reason, so there are 2 more than the ESC reasons; `overall` is their worst-of, FAIL iff the ESC reasons fail or cont > 60 A; cells outside the ESC range force FAIL with a Voltage FAIL among the reasons |

## Left out

- IEEE-754 effects are not modelled. Quantities are exact reals. Divisions by zero are excluded by `requires`: a zero Kv or Kt, a zero gear ratio, a zero system voltage. One exception: the BEC check's division by a zero rating is modelled, because the resulting NaN or −Infinity decides the verdict (no WARN).
- `Computable` (the precondition of `System.BuildReport`) excludes a zero Kt, a zero Kv when Kt is absent, a zero gear ratio and a zero nominal voltage. The source would produce Infinity or NaN figures for those.
- `localeCompare` is replaced by code-point order on category names. For the category names the engine emits, the two orders agree.
- `toLowerCase` is modelled for ASCII letters only.
- Message texts are fixed strings per rule. The numbers `toFixed` formats into them are not modelled. The Wiring reason's message carries only the gauge.
- Unused values are not computed:
  - `rpm_motor` and the target-speed arithmetic of both current-at-speed functions;
  - `burstSeconds`, `becVoltageV` and `burstHeadroom` (carried in the records, never read);
  - the motor mass, `maxContinuousCurrentA` and `robotMass_lb`;
  - names, chemistry, season and notes, which are not in the candidate record at all.
- `sagFromC` of src/engine/battery.ts is not part of this model. `System.BuildReport` takes it as a function parameter and uses it as `sagFromC(capacity, cCont, load, S)`. The properties of engine/battery.ts's `sagFromC` are proved in `Battery`.
- src/engine/battery.ts is not part of this model. `System` takes its `continuousCurrent`, `burstCurrent` and `sagFromIR` to be those of engine/battery.ts (`Battery`). Only `sagFromC` differs, and it is a parameter.
- engine/motor.ts is not part of this model. engine/drivetrain.ts is modelled against `Motor` (src/engine/motor.ts).
- The CLI (src/cli/report.ts) is file and console I/O and is not modelled. Neither are the JSON fixtures of the system tests. The overvoltage case is covered by the general cells-out-of-range clause of `System.BuildReport`.
- `makeTorqueSpeed` returns a closure. It is modelled as `Motor.TorqueSpeed`, which takes the captured parameters and the torque together.
- Battery.SagFromC: the 0.12 V/cell lower bound is stated only for a non-negative load. A negative load gives less, as `Battery.SagFromCNegativeLoad` shows.
- Three behaviours follow the code as written:
  - the pole count is not validated;
  - with `I_cont ≤ 0` the `sagFromC` load ratio is 1, not 0;
  - a zero burst C-rating falls back to 1C, like an absent one, because the test is JavaScript falsiness.
