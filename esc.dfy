/**
 * The ESC rule checker: four threshold checks (voltage, current/thermal,
 * ERPM, BEC) that append leveled reasons to a shared list, in a fixed
 * order, followed by the worst-of reduction.
 */
module Esc {
  import opened Optional
  import opened Compatibility

  /** ESC ratings; optional fields are `None` when undefined. */
  datatype EscSpec = EscSpec(
    cellsMin: real,
    cellsMax: real,
    absMaxVoltageV: Option<real>,
    contCurrentA: real,
    burstCurrentA: Option<real>,
    burstSeconds: Option<real>,   // carried, no rule reads it
    erpmLimit: Option<real>,
    becVoltageV: Option<real>,    // carried, no rule reads it
    becCurrentA: Option<real>)

  datatype BatteryInfo = BatteryInfo(cellsS: real, chargedVoltageV: real)

  datatype DemandInfo = DemandInfo(
    predictedContA: real,
    predictedBurstA: real,
    predictedErpm: real,
    becLoadA: real)

  /** Optional headroom fractions; an omitted `Thresholds` argument is `NoThresholds`. */
  datatype Thresholds = Thresholds(
    contHeadroom: Option<real>,
    burstHeadroom: Option<real>,  // carried, no rule reads it
    erpmHeadroom: Option<real>)

  const NoThresholds := Thresholds(None, None, None)

  const DefaultContHeadroom: real := 0.15
  const DefaultErpmHeadroom: real := 0.10

  const VOLTAGE := "Voltage"
  const CURRENT := "Current/Thermal"
  const ERPM := "ERPM/Speed"
  const SIGNAL := "Signal/Control"

  // Message texts: the source formats numbers into them; here each rule has one fixed text.
  const MsgCellRange := "Battery cells outside ESC range."
  const MsgAbsMax := "Charged pack exceeds ESC abs max voltage."
  const MsgContOver := "Predicted continuous current exceeds ESC rating."
  const MsgContNear := "Continuous current within headroom of ESC rating."
  const MsgBurstOver := "Burst current exceeds ESC burst rating."
  const MsgErpmOver := "Predicted ERPM exceeds ESC limit."
  const MsgErpmNear := "Predicted ERPM near limit."
  const MsgBecOver := "BEC load exceeds BEC rating."
  const MsgBecNear := "BEC load above 90% of BEC rating."

  /** The shared, growing list of reasons that every check pushes onto. */
  class ReasonList {
    var items: seq<Reason>

    constructor ()
      ensures items == []
    {
      items := [];
    }

    /** `push`: appends one reason; nothing already in the list changes. */
    method Push(category: string, level: Verdict, message: string)
      modifies this
      ensures items == old(items) + [Reason(category, level, message)]
    {
      items := items + [Reason(category, level, message)];
    }
  }

  // ---------------------------------------------------------------------
  // What each check appends

  predicate CellsOutOfRange(esc: EscSpec, bat: BatteryInfo) {
    bat.cellsS < esc.cellsMin || bat.cellsS > esc.cellsMax
  }

  predicate OverAbsMax(esc: EscSpec, bat: BatteryInfo) {
    esc.absMaxVoltageV.Some? && bat.chargedVoltageV > esc.absMaxVoltageV.value
  }

  /** The reasons `checkVoltage` appends. */
  function VoltageReasons(esc: EscSpec, bat: BatteryInfo): (r: seq<Reason>)
    ensures forall k :: 0 <= k < |r| ==> r[k].category == VOLTAGE && r[k].level == FAIL
    ensures |r| == (if CellsOutOfRange(esc, bat) then 1 else 0) + (if OverAbsMax(esc, bat) then 1 else 0)
    ensures CellsOutOfRange(esc, bat) ==> r[0].message == MsgCellRange
  {
    (if CellsOutOfRange(esc, bat) then [Reason(VOLTAGE, FAIL, MsgCellRange)] else [])
    + (if OverAbsMax(esc, bat) then [Reason(VOLTAGE, FAIL, MsgAbsMax)] else [])
  }

  /** The WARN threshold for continuous current: the rating less the headroom fraction. */
  function ContWarnThreshold(esc: EscSpec, t: Thresholds): real {
    esc.contCurrentA * (1.0 - t.contHeadroom.GetOr(DefaultContHeadroom))
  }

  /** The continuous-current reason: FAIL above the rating, else WARN above the threshold. */
  function ContinuousReasons(esc: EscSpec, demand: DemandInfo, t: Thresholds): (r: seq<Reason>)
    ensures |r| <= 1
    ensures forall k :: 0 <= k < |r| ==> r[k].category == CURRENT
    ensures (|r| == 1 && r[0].level == FAIL) <==> demand.predictedContA > esc.contCurrentA
    ensures (|r| == 1 && r[0].level == WARN) <==>
      demand.predictedContA <= esc.contCurrentA && demand.predictedContA > ContWarnThreshold(esc, t)
  {
    if demand.predictedContA > esc.contCurrentA then [Reason(CURRENT, FAIL, MsgContOver)]
    else if demand.predictedContA > ContWarnThreshold(esc, t) then [Reason(CURRENT, WARN, MsgContNear)]
    else []
  }

  /** The burst reason: a WARN only when a burst rating is given and strictly exceeded. */
  function BurstReasons(esc: EscSpec, demand: DemandInfo): (r: seq<Reason>)
    ensures forall k :: 0 <= k < |r| ==> r[k] == Reason(CURRENT, WARN, MsgBurstOver)
    ensures |r| == (if esc.burstCurrentA.Some? && demand.predictedBurstA > esc.burstCurrentA.value then 1 else 0)
  {
    if esc.burstCurrentA.Some? && demand.predictedBurstA > esc.burstCurrentA.value
    then [Reason(CURRENT, WARN, MsgBurstOver)]
    else []
  }

  /** The reasons `checkCurrent` appends: continuous first, then burst. */
  function CurrentReasons(esc: EscSpec, demand: DemandInfo, t: Thresholds): (r: seq<Reason>)
    ensures |r| <= 2
    ensures forall k :: 0 <= k < |r| ==> r[k].category == CURRENT
  {
    ContinuousReasons(esc, demand, t) + BurstReasons(esc, demand)
  }

  /** The reasons `checkErpm` appends: none without a limit; FAIL above it; WARN above the headroom threshold. */
  function ErpmReasons(esc: EscSpec, demand: DemandInfo, t: Thresholds): (r: seq<Reason>)
    ensures |r| <= 1
    ensures forall k :: 0 <= k < |r| ==> r[k].category == ERPM
    ensures esc.erpmLimit.None? ==> r == []
    ensures (|r| == 1 && r[0].level == FAIL) <==> esc.erpmLimit.Some? && demand.predictedErpm > esc.erpmLimit.value
    ensures (|r| == 1 && r[0].level == WARN) <==>
      && esc.erpmLimit.Some?
      && demand.predictedErpm <= esc.erpmLimit.value
      && demand.predictedErpm > esc.erpmLimit.value * (1.0 - t.erpmHeadroom.GetOr(DefaultErpmHeadroom))
  {
    match esc.erpmLimit
    case None => []
    case Some(limit) =>
      var warnThreshold := limit * (1.0 - t.erpmHeadroom.GetOr(DefaultErpmHeadroom));
      if demand.predictedErpm > limit then [Reason(ERPM, FAIL, MsgErpmOver)]
      else if demand.predictedErpm > warnThreshold then [Reason(ERPM, WARN, MsgErpmNear)]
      else []
  }

  /**
   * The BEC load as a percentage of the rating exceeds 90. With a zero rating the
   * source divides by zero and gets NaN or -Infinity, neither of which exceeds 90.
   */
  predicate BecAbove90(load: real, rating: real) {
    rating != 0.0 && load / rating * 100.0 > 90.0
  }

  /** The reasons `checkBec` appends: none without a rating; FAIL above it; else WARN above 90%. */
  function BecReasons(esc: EscSpec, demand: DemandInfo): (r: seq<Reason>)
    ensures |r| <= 1
    ensures forall k :: 0 <= k < |r| ==> r[k].category == SIGNAL
    ensures esc.becCurrentA.None? ==> r == []
    ensures (|r| == 1 && r[0].level == FAIL) <==> esc.becCurrentA.Some? && demand.becLoadA > esc.becCurrentA.value
    ensures (|r| == 1 && r[0].level == WARN) <==>
      && esc.becCurrentA.Some?
      && demand.becLoadA <= esc.becCurrentA.value
      && BecAbove90(demand.becLoadA, esc.becCurrentA.value)
  {
    match esc.becCurrentA
    case None => []
    case Some(rating) =>
      if demand.becLoadA > rating then [Reason(SIGNAL, FAIL, MsgBecOver)]
      else if BecAbove90(demand.becLoadA, rating) then [Reason(SIGNAL, WARN, MsgBecNear)]
      else []
  }

  /** With a positive rating, the WARN condition is "load more than 90% of the rating". */
  lemma BecAbove90Means(load: real, rating: real)
    requires rating > 0.0
    ensures BecAbove90(load, rating) <==> load > 0.9 * rating
  {
    if BecAbove90(load, rating) {
      assert load / rating > 0.9;
      assert load == (load / rating) * rating;
    } else {
      assert load / rating <= 0.9;
      assert load == (load / rating) * rating;
    }
  }

  /** Every reason `summarizeEsc` produces, in emission order. */
  function EscReasons(esc: EscSpec, bat: BatteryInfo, demand: DemandInfo, t: Thresholds): (r: seq<Reason>)
    ensures |r| <= 6
  {
    VoltageReasons(esc, bat) + CurrentReasons(esc, demand, t) + ErpmReasons(esc, demand, t) + BecReasons(esc, demand)
  }

  // ---------------------------------------------------------------------
  // The checks, as they run against the shared list

  method CheckVoltage(esc: EscSpec, bat: BatteryInfo, reasons: ReasonList)
    modifies reasons
    ensures reasons.items == old(reasons.items) + VoltageReasons(esc, bat)
  {
    if bat.cellsS < esc.cellsMin || bat.cellsS > esc.cellsMax {
      reasons.Push(VOLTAGE, FAIL, MsgCellRange);
    }
    if esc.absMaxVoltageV.Some? && bat.chargedVoltageV > esc.absMaxVoltageV.value {
      reasons.Push(VOLTAGE, FAIL, MsgAbsMax);
    }
  }

  method CheckCurrent(esc: EscSpec, demand: DemandInfo, reasons: ReasonList, t: Thresholds)
    modifies reasons
    ensures reasons.items == old(reasons.items) + CurrentReasons(esc, demand, t)
  {
    var contHeadroom := t.contHeadroom.GetOr(DefaultContHeadroom);
    var warnThreshold := esc.contCurrentA * (1.0 - contHeadroom);
    if demand.predictedContA > esc.contCurrentA {
      reasons.Push(CURRENT, FAIL, MsgContOver);
    } else if demand.predictedContA > warnThreshold {
      reasons.Push(CURRENT, WARN, MsgContNear);
    }
    if esc.burstCurrentA.Some? {
      if demand.predictedBurstA > esc.burstCurrentA.value {
        reasons.Push(CURRENT, WARN, MsgBurstOver);
      }
    }
  }

  method CheckErpm(esc: EscSpec, demand: DemandInfo, reasons: ReasonList, t: Thresholds)
    modifies reasons
    ensures reasons.items == old(reasons.items) + ErpmReasons(esc, demand, t)
  {
    if esc.erpmLimit.None? {
      return;
    }
    var erpmHeadroom := t.erpmHeadroom.GetOr(DefaultErpmHeadroom);
    var warnThreshold := esc.erpmLimit.value * (1.0 - erpmHeadroom);
    if demand.predictedErpm > esc.erpmLimit.value {
      reasons.Push(ERPM, FAIL, MsgErpmOver);
    } else if demand.predictedErpm > warnThreshold {
      reasons.Push(ERPM, WARN, MsgErpmNear);
    }
  }

  method CheckBec(esc: EscSpec, demand: DemandInfo, reasons: ReasonList)
    modifies reasons
    ensures reasons.items == old(reasons.items) + BecReasons(esc, demand)
  {
    if esc.becCurrentA.None? {
      return;
    }
    if demand.becLoadA > esc.becCurrentA.value {
      reasons.Push(SIGNAL, FAIL, MsgBecOver);
    } else if esc.becCurrentA.value != 0.0 {
      var pct := demand.becLoadA / esc.becCurrentA.value * 100.0;
      if pct > 90.0 {
        reasons.Push(SIGNAL, WARN, MsgBecNear);
      }
    }
  }

  datatype EscSummary = EscSummary(overall: Verdict, reasons: seq<Reason>)

  /** `summarizeEsc`: runs the four checks in order on a fresh list, then the worst-of loop. */
  method SummarizeEsc(esc: EscSpec, bat: BatteryInfo, demand: DemandInfo, t: Thresholds)
    returns (summary: EscSummary)
    ensures summary.reasons == EscReasons(esc, bat, demand, t)
    ensures |summary.reasons| <= 6
    ensures summary.overall == WorstOf(summary.reasons)
    ensures IsWorstVerdict(summary.overall, summary.reasons)
  {
    var reasons := new ReasonList();
    CheckVoltage(esc, bat, reasons);
    assert reasons.items == VoltageReasons(esc, bat);
    CheckCurrent(esc, demand, reasons, t);
    CheckErpm(esc, demand, reasons, t);
    CheckBec(esc, demand, reasons);
    assert reasons.items == EscReasons(esc, bat, demand, t);
    var overall := Overall(reasons.items);
    summary := EscSummary(overall, reasons.items);
  }

  // ---------------------------------------------------------------------
  // Properties of the summary

  lemma HasLevelConcat(a: seq<Reason>, b: seq<Reason>, v: Verdict)
    ensures HasLevel(a + b, v) <==> HasLevel(a, v) || HasLevel(b, v)
  {
    if HasLevel(a + b, v) {
      var i :| 0 <= i < |a + b| && (a + b)[i].level == v;
      if i >= |a| {
        assert b[i - |a|] == (a + b)[i];
      }
    }
    if HasLevel(a, v) {
      var i :| 0 <= i < |a| && a[i].level == v;
      assert (a + b)[i] == a[i];
    }
    if HasLevel(b, v) {
      var i :| 0 <= i < |b| && b[i].level == v;
      assert (a + b)[i + |a|] == b[i];
    }
  }

  /** A list of at most one reason has level `v` exactly when its one reason does. */
  lemma HasLevelShort(r: seq<Reason>, v: Verdict)
    requires |r| <= 1
    ensures HasLevel(r, v) <==> |r| == 1 && r[0].level == v
  {
  }

  /** The summary is FAIL exactly when one of the four checks found a hard violation. */
  lemma EscFailIff(esc: EscSpec, bat: BatteryInfo, demand: DemandInfo, t: Thresholds)
    ensures WorstOf(EscReasons(esc, bat, demand, t)) == FAIL <==>
      || CellsOutOfRange(esc, bat)
      || OverAbsMax(esc, bat)
      || demand.predictedContA > esc.contCurrentA
      || (esc.erpmLimit.Some? && demand.predictedErpm > esc.erpmLimit.value)
      || (esc.becCurrentA.Some? && demand.becLoadA > esc.becCurrentA.value)
  {
    var v, c, b, e, s := VoltageReasons(esc, bat), ContinuousReasons(esc, demand, t),
      BurstReasons(esc, demand), ErpmReasons(esc, demand, t), BecReasons(esc, demand);
    assert EscReasons(esc, bat, demand, t) == v + (c + b) + e + s;
    HasLevelConcat(c, b, FAIL);
    HasLevelConcat(v, c + b, FAIL);
    HasLevelConcat(v + (c + b), e, FAIL);
    HasLevelConcat(v + (c + b) + e, s, FAIL);
    HasLevelShort(c, FAIL);
    HasLevelShort(e, FAIL);
    HasLevelShort(s, FAIL);
    assert HasLevel(v, FAIL) <==> |v| > 0 by {
      if |v| > 0 {
        assert v[0].level == FAIL;
      }
    }
    assert !HasLevel(b, FAIL);
    WorstOfIsWorstVerdict(EscReasons(esc, bat, demand, t));
  }

  /** Cells outside the supported range force FAIL with a Voltage FAIL among the reasons. */
  lemma CellsOutOfRangeFails(esc: EscSpec, bat: BatteryInfo, demand: DemandInfo, t: Thresholds)
    requires CellsOutOfRange(esc, bat)
    ensures WorstOf(EscReasons(esc, bat, demand, t)) == FAIL
    ensures EscReasons(esc, bat, demand, t)[0] == Reason(VOLTAGE, FAIL, MsgCellRange)
  {
    EscFailIff(esc, bat, demand, t);
    assert EscReasons(esc, bat, demand, t)[0] == Reason(VOLTAGE, FAIL, MsgCellRange);
  }

  // ---------------------------------------------------------------------
  // The documented cases

  const BaseEsc := EscSpec(2.0, 4.0, None, 60.0, Some(80.0), None, Some(200000.0), Some(5.0), Some(3.0))

  /** 4S on a 2-3S ESC: FAIL with a Voltage FAIL. */
  lemma FourCellsOnThreeCellEsc()
    ensures
      var r := EscReasons(BaseEsc.(cellsMax := 3.0), BatteryInfo(4.0, 16.8), DemandInfo(30.0, 50.0, 100000.0, 0.5), NoThresholds);
      WorstOf(r) == FAIL && r[0] == Reason(VOLTAGE, FAIL, MsgCellRange)
  {
    CellsOutOfRangeFails(BaseEsc.(cellsMax := 3.0), BatteryInfo(4.0, 16.8), DemandInfo(30.0, 50.0, 100000.0, 0.5), NoThresholds);
  }

  /** 55 A on a 60 A ESC with 15% headroom: WARN; 65 A: FAIL. */
  lemma NearContinuousLimitWarns()
    ensures WorstOf(EscReasons(BaseEsc, BatteryInfo(3.0, 12.6), DemandInfo(55.0, 60.0, 100000.0, 0.5),
                               Thresholds(Some(0.15), None, None))) == WARN
    ensures WorstOf(EscReasons(BaseEsc, BatteryInfo(3.0, 12.6), DemandInfo(65.0, 60.0, 100000.0, 0.5), NoThresholds)) == FAIL
  {
    var r := EscReasons(BaseEsc, BatteryInfo(3.0, 12.6), DemandInfo(55.0, 60.0, 100000.0, 0.5), Thresholds(Some(0.15), None, None));
    assert r == [Reason(CURRENT, WARN, MsgContNear)];
    EscFailIff(BaseEsc, BatteryInfo(3.0, 12.6), DemandInfo(65.0, 60.0, 100000.0, 0.5), NoThresholds);
  }

  /** ERPM 250000 against a 200000 limit: FAIL. */
  lemma ErpmOverLimitFails()
    ensures WorstOf(EscReasons(BaseEsc, BatteryInfo(3.0, 12.6), DemandInfo(30.0, 50.0, 250000.0, 0.5), NoThresholds)) == FAIL
  {
    EscFailIff(BaseEsc, BatteryInfo(3.0, 12.6), DemandInfo(30.0, 50.0, 250000.0, 0.5), NoThresholds);
  }

  /** 2.8 A on a 3 A BEC: WARN; 3.5 A: FAIL. */
  lemma BecCases()
    ensures WorstOf(EscReasons(BaseEsc, BatteryInfo(3.0, 12.6), DemandInfo(10.0, 20.0, 100000.0, 2.8), NoThresholds)) == WARN
    ensures WorstOf(EscReasons(BaseEsc, BatteryInfo(3.0, 12.6), DemandInfo(10.0, 20.0, 100000.0, 3.5), NoThresholds)) == FAIL
  {
    var r := EscReasons(BaseEsc, BatteryInfo(3.0, 12.6), DemandInfo(10.0, 20.0, 100000.0, 2.8), NoThresholds);
    assert r == [Reason(SIGNAL, WARN, MsgBecNear)];
    EscFailIff(BaseEsc, BatteryInfo(3.0, 12.6), DemandInfo(10.0, 20.0, 100000.0, 3.5), NoThresholds);
  }
}
