/** The orchestrator: derives the motor, battery and drivetrain figures of a candidate, runs every rule and aggregates. */
module System {
  import opened Optional
  import opened Compatibility
  import opened Motor
  import Battery
  import Drivetrain
  import Esc
  import Wiring
  import Connectors
  import Protection

  // ---------------------------------------------------------------------
  // The candidate record (names, chemistry and notes carry no behaviour and are left out)

  datatype MotorInfo = MotorInfo(
    kv: Option<real>,
    kt: Option<real>,
    nominalVoltageV: real,
    noLoadRpm: real,
    noLoadCurrentA: real,
    maxContinuousCurrentA: Option<real>,
    massG: Option<real>,
    poles: Option<real>)

  datatype EscInfo = EscInfo(
    supportedCellsMin: real,
    supportedCellsMax: real,
    continuousCurrentA: real,
    burstCurrentA: Option<real>,
    burstSeconds: Option<real>,
    erpmLimit: Option<real>,
    becVoltageV: Option<real>,
    becCurrentA: Option<real>)

  datatype BatteryPack = BatteryPack(
    cellsS: real,
    nominalVoltageV: real,
    capacityMah: real,
    cCont: Option<real>,
    cBurst: Option<real>,
    internalResistanceMohmPerCell: Option<real>)

  datatype DrivetrainInfo = DrivetrainInfo(wheelDiameterIn: real, gearRatio: real, motorCount: real, robotMassLb: real)

  datatype Candidate = Candidate(motor: MotorInfo, esc: EscInfo, battery: BatteryPack, drivetrain: DrivetrainInfo)

  /**
   * The candidates whose figures are finite: no zero Kt to divide by (given, or
   * derived from a zero Kv), no zero gear ratio and no zero nominal voltage.
   */
  predicate Computable(c: Candidate) {
    && c.motor.kt != Some(0.0)
    && (c.motor.kt.None? ==> c.motor.kv != Some(0.0))
    && c.drivetrain.gearRatio != 0.0
    && c.battery.nominalVoltageV != 0.0
  }

  /** JavaScript truthiness of an optional number (NaN is not modelled). */
  predicate Truthy(x: Option<real>) {
    x.Some? && x.value != 0.0
  }

  // ---------------------------------------------------------------------
  // Motor derivations

  /** Kv: the given value, else derived from a non-zero Kt, else 1900 rpm/V. */
  function ChooseKv(m: MotorInfo): (kv: real)
    ensures m.kv.Some? ==> kv == m.kv.value
    ensures m.kv.None? && Truthy(m.kt) ==> kv * (2.0 * PI * m.kt.value) == 60.0
    ensures m.kv.None? && !Truthy(m.kt) ==> kv == 1900.0
    ensures m.kv.None? ==> kv != 0.0
  {
    match m.kv
    case Some(k) => k
    case None => if Truthy(m.kt) then KtToKv(m.kt.value) else 1900.0
  }

  /** Kt: the given value, else derived from the chosen Kv. */
  function ChooseKt(m: MotorInfo): (kt: real)
    requires m.kt != Some(0.0) && (m.kt.None? ==> m.kv != Some(0.0))
    ensures kt != 0.0
    ensures m.kt.Some? ==> kt == m.kt.value
    ensures m.kt.None? ==> kt * (2.0 * PI * ChooseKv(m)) == 60.0
  {
    match m.kt
    case Some(k) => k
    case None => KvToKt(ChooseKv(m))
  }

  /** When only one of Kv and Kt is given, the other is derived from it, so the pair is consistent. */
  lemma MotorConstantsConsistent(m: MotorInfo)
    requires (m.kv.None? && m.kt.Some? && m.kt.value != 0.0) || (m.kt.None? && m.kv != Some(0.0))
    ensures KtToKv(ChooseKt(m)) == ChooseKv(m)
  {
    if m.kt.Some? {
      KtKvRoundTrip(m.kt.value);
      KvKtRoundTrip(ChooseKv(m));
    } else {
      KvKtRoundTrip(ChooseKv(m));
    }
  }

  /** Positive motor constants on the datasheet give a positive Kt, as the baseline report expects. */
  lemma KtPositive(m: MotorInfo)
    requires m.kt.Some? ==> m.kt.value > 0.0
    requires m.kv.Some? ==> m.kv.value > 0.0
    ensures ChooseKt(m) > 0.0
  {
    if m.kt.None? {
      var kv := ChooseKv(m);
      assert kv > 0.0;
    }
  }

  // ---------------------------------------------------------------------
  // Battery limits and sag

  function ChargedVoltage(b: BatteryPack): (v: real)
    ensures v == b.cellsS * 4.2
    ensures Protection.NeedsAntiSpark(v) <==> b.cellsS >= 4.0
  {
    b.cellsS * 4.2
  }

  /** I_cont_max: the continuous C-rating times the capacity, or 0 without a (non-zero) rating. */
  function ContinuousMax(b: BatteryPack): (a: real)
    ensures Truthy(b.cCont) ==> a * 1000.0 == b.capacityMah * b.cCont.value
    ensures !Truthy(b.cCont) ==> a == 0.0
  {
    if Truthy(b.cCont) then Battery.ContinuousCurrent(b.capacityMah, b.cCont.value) else 0.0
  }

  /** I_burst_max: from the burst C-rating when one is given, else the continuous limit. */
  function BurstMax(b: BatteryPack): (a: real)
    ensures Truthy(b.cBurst) ==> a * 1000.0 == b.capacityMah * b.cBurst.value
    ensures !Truthy(b.cBurst) ==> a == ContinuousMax(b)
  {
    if Truthy(b.cBurst) then Battery.BurstCurrent(b.capacityMah, b.cBurst) else ContinuousMax(b)
  }

  /**
   * The sag at the continuous limit (at least 1 A): from the per-cell IR when it is
   * given, capped 0.1 V below the charged voltage, else from the C-rating heuristic
   * `sagFromC(capacity, cCont or 10, load, S)`, which is not part of this model.
   */
  function SagAtCont(b: BatteryPack, sagFromC: (real, real, real, real) -> real): (v: real)
    ensures b.internalResistanceMohmPerCell.Some? ==>
      && v <= ChargedVoltage(b) - 0.1
      && v <= Battery.SagFromIR(b.cellsS, b.internalResistanceMohmPerCell.value, Max(1.0, ContinuousMax(b))).vDrop
      && (v == ChargedVoltage(b) - 0.1 ||
          v == Battery.SagFromIR(b.cellsS, b.internalResistanceMohmPerCell.value, Max(1.0, ContinuousMax(b))).vDrop)
    ensures b.internalResistanceMohmPerCell.None? ==>
      v == sagFromC(b.capacityMah, b.cCont.GetOr(10.0), Max(1.0, ContinuousMax(b)), b.cellsS)
  {
    var load := Max(1.0, ContinuousMax(b));
    match b.internalResistanceMohmPerCell
    case Some(ir) => Min(ChargedVoltage(b) - 0.1, Battery.SagFromIR(b.cellsS, ir, load).vDrop)
    case None => sagFromC(b.capacityMah, b.cCont.GetOr(10.0), load, b.cellsS)
  }

  // ---------------------------------------------------------------------
  // Drivetrain and demand

  function Model(c: Candidate): MotorModel
    requires Computable(c)
  {
    MotorModel(ChooseKt(c.motor), EstimatePhaseResistance(Some(ChooseKv(c.motor)), None, c.motor.nominalVoltageV,
                                                          c.motor.noLoadRpm, c.motor.noLoadCurrentA))
  }

  datatype DrivetrainFigures = DrivetrainFigures(topSpeedNomMph: real, topSpeedSagMph: real)

  function TopSpeeds(c: Candidate, sagV: real): (f: DrivetrainFigures)
    requires Computable(c)
    ensures f.topSpeedNomMph ==
      Drivetrain.SpeedPerVolt(c.drivetrain.wheelDiameterIn, c.drivetrain.gearRatio, Model(c)) * c.battery.nominalVoltageV
    ensures f.topSpeedSagMph ==
      Drivetrain.SpeedPerVolt(c.drivetrain.wheelDiameterIn, c.drivetrain.gearRatio, Model(c))
        * Max(0.0, c.battery.nominalVoltageV - sagV)
    ensures sagV == 0.0 && c.battery.nominalVoltageV >= 0.0 ==> f.topSpeedSagMph == f.topSpeedNomMph
  {
    var d := c.drivetrain;
    Drivetrain.TopSpeedLinearInVoltage(d.wheelDiameterIn, d.gearRatio, c.battery.nominalVoltageV, Model(c));
    Drivetrain.TopSpeedLinearInVoltage(d.wheelDiameterIn, d.gearRatio, Max(0.0, c.battery.nominalVoltageV - sagV), Model(c));
    DrivetrainFigures(
      Drivetrain.TopSpeedMph(d.wheelDiameterIn, d.gearRatio, c.battery.nominalVoltageV, Model(c)),
      Drivetrain.TopSpeedMph(d.wheelDiameterIn, d.gearRatio, Max(0.0, c.battery.nominalVoltageV - sagV), Model(c)))
  }

  /** With a positive motor constant, gear, wheel and voltage, a non-negative sag never raises the top speed. */
  lemma SagNeverRaisesTopSpeed(c: Candidate, sagV: real)
    requires Computable(c) && sagV >= 0.0
    requires ChooseKt(c.motor) > 0.0 && c.drivetrain.gearRatio > 0.0 && c.drivetrain.wheelDiameterIn > 0.0
    requires c.battery.nominalVoltageV > 0.0
    ensures 0.0 <= TopSpeeds(c, sagV).topSpeedSagMph <= TopSpeeds(c, sagV).topSpeedNomMph
  {
    var d := c.drivetrain;
    var v := c.battery.nominalVoltageV;
    var vs := Max(0.0, v - sagV);
    var k := Drivetrain.SpeedPerVolt(d.wheelDiameterIn, d.gearRatio, Model(c));
    Drivetrain.TopSpeedLinearInVoltage(d.wheelDiameterIn, d.gearRatio, v, Model(c));
    Drivetrain.TopSpeedLinearInVoltage(d.wheelDiameterIn, d.gearRatio, vs, Model(c));
    assert k > 0.0 && 0.0 <= vs <= v;
    assert k * vs <= k * v;
  }

  datatype Estimates = Estimates(cruiseMph: real, perMotorCruiseA: real, demand: Esc.DemandInfo)

  /** The rough demand: a cruise speed of at most 10 mph, per-motor cruise current, and the floors on the predictions. */
  function EstimateDemand(c: Candidate, topSpeedNomMph: real): (e: Estimates)
    requires Computable(c)
    ensures e.cruiseMph <= 10.0 && e.cruiseMph <= topSpeedNomMph * 0.6
    ensures e.cruiseMph == 10.0 || e.cruiseMph == topSpeedNomMph * 0.6
    ensures e.perMotorCruiseA * ChooseKt(c.motor) == Drivetrain.CruiseTorqueNm
    ensures e.demand.predictedContA >= 1.0 && e.demand.predictedContA >= e.perMotorCruiseA * c.drivetrain.motorCount
    ensures e.demand.predictedContA == 1.0 || e.demand.predictedContA == e.perMotorCruiseA * c.drivetrain.motorCount
    ensures e.demand.predictedBurstA >= 1.0 && e.demand.predictedBurstA >= 1.5 * e.demand.predictedContA
    ensures e.demand.predictedBurstA == 1.0 || e.demand.predictedBurstA == 1.5 * e.demand.predictedContA
    ensures e.demand.predictedErpm == Erpm(ChooseKv(c.motor) * ChargedVoltage(c.battery), c.motor.poles)
    ensures e.demand.becLoadA == 0.5
  {
    var d := c.drivetrain;
    var cruise := Min(10.0, topSpeedNomMph * 0.6);
    var perMotor := Drivetrain.CurrentAtSpeedPerMotor(cruise, d.wheelDiameterIn, d.gearRatio,
                                                      c.battery.nominalVoltageV, Model(c));
    var cont := Max(1.0, perMotor * d.motorCount);
    var burst := Max(cont * 1.5, 1.0);
    var poles := c.motor.poles.GetOr(14.0);
    var erpm := ChooseKv(c.motor) * ChargedVoltage(c.battery) * (poles / 2.0);
    Estimates(cruise, perMotor, Esc.DemandInfo(cont, burst, erpm, 0.5))
  }

  /** The ESC record handed to the rules: no absolute maximum voltage, the rest copied from the candidate. */
  function EscSpecOf(c: Candidate): (s: Esc.EscSpec)
    ensures s.cellsMin == c.esc.supportedCellsMin && s.cellsMax == c.esc.supportedCellsMax
    ensures s.contCurrentA == c.esc.continuousCurrentA && s.burstCurrentA == c.esc.burstCurrentA
    ensures s.erpmLimit == c.esc.erpmLimit && s.becCurrentA == c.esc.becCurrentA
    ensures forall bat :: |Esc.VoltageReasons(s, bat)| == if Esc.CellsOutOfRange(s, bat) then 1 else 0
  {
    var e := c.esc;
    Esc.EscSpec(e.supportedCellsMin, e.supportedCellsMax, None, e.continuousCurrentA, e.burstCurrentA,
                e.burstSeconds, e.erpmLimit, e.becVoltageV, e.becCurrentA)
  }

  function BatteryInfoOf(c: Candidate): Esc.BatteryInfo {
    Esc.BatteryInfo(c.battery.cellsS, ChargedVoltage(c.battery))
  }

  const WIRING := "Wiring"
  const PROTECTION := "Protection"
  const DefaultConnector := "XT60"
  const DefaultOneWayLengthFt: real := 1.5

  /** The reason list before sorting: the ESC reasons, then a Wiring PASS, then the connector verdict. */
  function AllReasons(esc: Esc.EscSummary, wiring: Wiring.WireAdvice, protection: Protection.ProtectionSummary): (rs: seq<Reason>)
    ensures |rs| == |esc.reasons| + 2 && rs[..|esc.reasons|] == esc.reasons
    ensures rs[|esc.reasons|].category == WIRING && rs[|esc.reasons|].level == PASS
    ensures rs[|esc.reasons| + 1].category == PROTECTION && rs[|esc.reasons| + 1].level == protection.connector.verdict
  {
    esc.reasons + [Reason(WIRING, PASS, wiring.awg), Reason(PROTECTION, protection.connector.verdict, protection.connector.reason)]
  }

  /** The report's reasons hold a FAIL exactly when the ESC reasons do or the connector check fails. */
  lemma AllReasonsFail(esc: Esc.EscSummary, wiring: Wiring.WireAdvice, protection: Protection.ProtectionSummary)
    ensures HasLevel(AllReasons(esc, wiring, protection), FAIL) <==>
      HasLevel(esc.reasons, FAIL) || protection.connector.verdict == FAIL
  {
    var tail := [Reason(WIRING, PASS, wiring.awg), Reason(PROTECTION, protection.connector.verdict, protection.connector.reason)];
    Esc.HasLevelConcat(esc.reasons, tail, FAIL);
    if protection.connector.verdict == FAIL {
      assert tail[1].level == FAIL;
    }
  }

  /** With the default XT60 connector, the connector check fails exactly above 60 A continuous. */
  lemma DefaultConnectorFails(chargedV: real, contA: real, burstA: real)
    ensures Protection.SummarizeProtection(chargedV, contA, burstA, DefaultConnector).connector.verdict == FAIL <==> contA > 60.0
  {
    Connectors.Xt60Lookup();
  }

  /** A reason of the unsorted list is somewhere in its sorted permutation. */
  lemma PermutationKeepsReason(all: seq<Reason>, ordered: seq<Reason>, i: nat)
    requires multiset(ordered) == multiset(all) && i < |all|
    ensures exists k :: 0 <= k < |ordered| && ordered[k] == all[i]
  {
    assert all[i] in multiset(ordered);
    var k :| 0 <= k < |ordered| && ordered[k] == all[i];
  }

  // ---------------------------------------------------------------------
  // The report

  datatype MotorFigures = MotorFigures(kt: real, kv: real, rEst: real)

  datatype BatteryFigures = BatteryFigures(iContMax: real, iBurstMax: real, sagVAtCont: real, chargedV: real, nominalV: real)

  datatype Computed = Computed(
    motor: MotorFigures,
    battery: BatteryFigures,
    drivetrain: DrivetrainFigures,
    esc: Esc.EscSummary,
    wiring: Wiring.WireAdvice,
    protection: Protection.ProtectionSummary)

  datatype SystemReport = SystemReport(overall: Verdict, reasons: seq<Reason>, computed: Computed)

  /** `buildReport`; the unseen `sagFromC` of the battery module is a parameter. */
  method BuildReport(c: Candidate, sagFromC: (real, real, real, real) -> real) returns (report: SystemReport)
    requires Computable(c)
    ensures report.computed.motor == MotorFigures(ChooseKt(c.motor), ChooseKv(c.motor), 0.05)
    ensures report.computed.battery ==
      BatteryFigures(ContinuousMax(c.battery), BurstMax(c.battery), SagAtCont(c.battery, sagFromC),
                     ChargedVoltage(c.battery), c.battery.nominalVoltageV)
    ensures report.computed.drivetrain == TopSpeeds(c, SagAtCont(c.battery, sagFromC))
    ensures var demand := EstimateDemand(c, report.computed.drivetrain.topSpeedNomMph).demand;
      && report.computed.esc.reasons == Esc.EscReasons(EscSpecOf(c), BatteryInfoOf(c), demand, Esc.NoThresholds)
      && report.computed.esc.overall == WorstOf(report.computed.esc.reasons)
      && report.computed.wiring ==
         Wiring.RecommendBatteryLeads(demand.predictedContA, DefaultOneWayLengthFt, c.battery.nominalVoltageV)
      && report.computed.protection ==
         Protection.SummarizeProtection(ChargedVoltage(c.battery), demand.predictedContA, demand.predictedBurstA, DefaultConnector)
      && (report.overall == FAIL <==>
          HasLevel(report.computed.esc.reasons, FAIL) || demand.predictedContA > 60.0)
    ensures var all := AllReasons(report.computed.esc, report.computed.wiring, report.computed.protection);
      && report.overall == WorstOf(all)
      && multiset(report.reasons) == multiset(all)
      && SortedByCategory(report.reasons)
      && SameByCategory(report.reasons, all)
    ensures |report.reasons| == |report.computed.esc.reasons| + 2
    ensures IsWorstVerdict(report.overall, report.reasons)
    ensures c.battery.cellsS < c.esc.supportedCellsMin || c.battery.cellsS > c.esc.supportedCellsMax ==>
      && report.overall == FAIL
      && exists k :: 0 <= k < |report.reasons| && report.reasons[k] == Reason(Esc.VOLTAGE, FAIL, Esc.MsgCellRange)
  {
    // Motor derivations
    var kv := ChooseKv(c.motor);
    var kt := ChooseKt(c.motor);
    var rEst := EstimatePhaseResistance(Some(kv), None, c.motor.nominalVoltageV,
                                        c.motor.noLoadRpm, c.motor.noLoadCurrentA);

    // Battery limits and sag
    var chargedV := ChargedVoltage(c.battery);
    var nominalV := c.battery.nominalVoltageV;
    var iContMax := ContinuousMax(c.battery);
    var iBurstMax := BurstMax(c.battery);
    var sagV := SagAtCont(c.battery, sagFromC);

    // Drivetrain and demand
    var speeds := TopSpeeds(c, sagV);
    var estimates := EstimateDemand(c, speeds.topSpeedNomMph);
    var demand := estimates.demand;

    // The rules
    var escSummary := Esc.SummarizeEsc(EscSpecOf(c), BatteryInfoOf(c), demand, Esc.NoThresholds);
    var wiring := Wiring.RecommendBatteryLeads(demand.predictedContA, DefaultOneWayLengthFt, nominalV);
    var protection := Protection.SummarizeProtection(chargedV, demand.predictedContA, demand.predictedBurstA, DefaultConnector);

    // Aggregate
    var all := AllReasons(escSummary, wiring, protection);
    var overall, ordered := Aggregate(all);
    SamePermutationSameWorst(overall, all, ordered);

    AllReasonsFail(escSummary, wiring, protection);
    DefaultConnectorFails(chargedV, demand.predictedContA, demand.predictedBurstA);
    if Esc.CellsOutOfRange(EscSpecOf(c), BatteryInfoOf(c)) {
      Esc.CellsOutOfRangeFails(EscSpecOf(c), BatteryInfoOf(c), demand, Esc.NoThresholds);
      PermutationKeepsReason(all, ordered, 0);
    }

    report := SystemReport(overall, ordered,
      Computed(MotorFigures(kt, kv, rEst),
               BatteryFigures(iContMax, iBurstMax, sagV, chargedV, nominalV),
               speeds, escSummary, wiring, protection));
  }
}
