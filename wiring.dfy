/**
 * The wiring advisor: per-gauge voltage drop and heat, and selection of the
 * first (thinnest) gauge that meets ampacity, drop and heat limits, falling
 * back to the thickest gauge when none does.
 */
module Wiring {
  import opened Awg

  datatype WireParams = WireParams(
    currentA: real,
    lengthFtRoundtrip: real,
    systemVoltageV: real,
    dropTargetPct: real,   // e.g. 3 for 3 %
    maxWPerFt: real)

  /** The metrics of one table row under the given load. */
  datatype RowResult = RowResult(
    row: AwgRow,
    vDrop: real,
    dropPct: real,
    wPerFt: real,
    passes: bool,
    passAmpacity: bool,
    passDrop: bool,
    passW: bool)

  datatype WireAdvice = WireAdvice(awg: string, vDropV: real, dropPct: real, wPerFt: real, reason: string)

  const MsgMeets := "Meets ampacity, drop, and W/ft."
  const MsgNoneMeets := "No AWG meets all constraints; the thickest gauge minimizes drop/heat."

  /** The three constraints on one row. */
  predicate Passes(row: AwgRow, p: WireParams)
    requires p.systemVoltageV != 0.0
  {
    && p.currentA <= row.ampacityA
    && p.currentA * (OhmsPerFt(row) * p.lengthFtRoundtrip) / p.systemVoltageV * 100.0 <= p.dropTargetPct
    && p.currentA * p.currentA * OhmsPerFt(row) <= p.maxWPerFt
  }

  /** Per-row metrics: round-trip drop, drop as a percentage of the system voltage, one-way heat per foot. */
  function Evaluate(row: AwgRow, p: WireParams): (m: RowResult)
    requires p.systemVoltageV != 0.0
    ensures m.row == row
    ensures m.vDrop == p.currentA * OhmsPerFt(row) * p.lengthFtRoundtrip
    ensures m.dropPct * p.systemVoltageV == m.vDrop * 100.0
    ensures m.wPerFt == p.currentA * p.currentA * OhmsPerFt(row)
    ensures m.passes <==> Passes(row, p)
    ensures m.passAmpacity <==> p.currentA <= row.ampacityA
    ensures m.passDrop <==> m.dropPct <= p.dropTargetPct
    ensures m.passW <==> m.wPerFt <= p.maxWPerFt
    ensures m.passes <==> m.passAmpacity && m.passDrop && m.passW
  {
    var r := OhmsPerFt(row) * p.lengthFtRoundtrip;
    var vDrop := p.currentA * r;
    var dropPct := (vDrop / p.systemVoltageV) * 100.0;
    var wPerFt := (p.currentA * p.currentA) * OhmsPerFt(row);
    var passAmpacity := p.currentA <= row.ampacityA;
    var passDrop := dropPct <= p.dropTargetPct;
    var passW := wPerFt <= p.maxWPerFt;
    RowResult(row, vDrop, dropPct, wPerFt, passAmpacity && passDrop && passW, passAmpacity, passDrop, passW)
  }

  /** Heat per foot does not depend on the length. */
  lemma HeatIndependentOfLength(row: AwgRow, p: WireParams, length: real)
    requires p.systemVoltageV != 0.0
    ensures Evaluate(row, p.(lengthFtRoundtrip := length)).wPerFt == Evaluate(row, p).wPerFt
  {
  }

  /** `AWG_TABLE.map(...)`. */
  function Results(p: WireParams): (rs: seq<RowResult>)
    requires p.systemVoltageV != 0.0
    ensures |rs| == |AWG_TABLE|
    ensures forall i :: 0 <= i < |rs| ==> rs[i] == Evaluate(AWG_TABLE[i], p)
  {
    seq(|AWG_TABLE|, i requires 0 <= i < |AWG_TABLE| => Evaluate(AWG_TABLE[i], p))
  }

  /** `results.filter(r => r.passes)`: every passing result and nothing else. */
  function Passing(rs: seq<RowResult>): (ps: seq<RowResult>)
    ensures |ps| <= |rs|
    ensures forall m :: m in ps <==> m in rs && m.passes
    ensures ps == [] <==> forall i :: 0 <= i < |rs| ==> !rs[i].passes
  {
    if rs == [] then []
    else (if rs[0].passes then [rs[0]] else []) + Passing(rs[1..])
  }

  /** The filter keeps input order: filtering a concatenation concatenates the filtered parts. */
  lemma {:induction false} PassingConcat(xs: seq<RowResult>, ys: seq<RowResult>)
    ensures Passing(xs + ys) == Passing(xs) + Passing(ys)
  {
    if xs != [] {
      assert (xs + ys)[1..] == xs[1..] + ys;
      PassingConcat(xs[1..], ys);
    } else {
      assert xs + ys == ys;
    }
  }

  /** The filter is empty exactly when no row passes, and otherwise starts with the first passing row. */
  lemma {:induction false} PassingHead(rs: seq<RowResult>)
    ensures Passing(rs) == [] <==> forall i :: 0 <= i < |rs| ==> !rs[i].passes
    ensures Passing(rs) != [] ==>
      exists k :: 0 <= k < |rs| && rs[k].passes && Passing(rs)[0] == rs[k] && forall j :: 0 <= j < k ==> !rs[j].passes
  {
    if rs != [] {
      PassingHead(rs[1..]);
      if !rs[0].passes {
        if Passing(rs) != [] {
          var k :| 0 <= k < |rs[1..]| && rs[1..][k].passes && Passing(rs[1..])[0] == rs[1..][k]
            && forall j :: 0 <= j < k ==> !rs[1..][j].passes;
          assert rs[k + 1] == rs[1..][k];
          forall j | 0 <= j < k + 1
            ensures !rs[j].passes
          {
            if j > 0 {
              assert rs[j] == rs[1..][j - 1];
            }
          }
        }
        forall i | 0 <= i < |rs| && (forall i' :: 0 <= i' < |rs[1..]| ==> !rs[1..][i'].passes)
          ensures !rs[i].passes
        {
          if i > 0 {
            assert rs[i] == rs[1..][i - 1];
          }
        }
      }
    }
  }

  /** The advice reported for one row's metrics. */
  function Advice(m: RowResult, reason: string): WireAdvice {
    WireAdvice(m.row.awg, m.vDrop, m.dropPct, m.wPerFt, reason)
  }

  /**
   * `evaluateAwg`: the first passing row in table order, else the last (thickest) row;
   * the advice carries that row's metrics and the "meets" reason exactly when it passes.
   */
  function EvaluateAwg(p: WireParams): (a: WireAdvice)
    requires p.systemVoltageV != 0.0
    ensures a.awg == AWG_TABLE[SelectedIndex(p)].awg
    ensures a == Advice(Evaluate(AWG_TABLE[SelectedIndex(p)], p), a.reason)
    ensures a.reason == MsgMeets <==> Passes(AWG_TABLE[SelectedIndex(p)], p)
  {
    var results := Results(p);
    var passing := Passing(results);
    PassingHeadIsSelected(p);
    if |passing| > 0 then
      Advice(passing[0], MsgMeets)
    else
      Advice(results[|results| - 1], MsgNoneMeets)
  }

  /** The selection rule as an index into the table: the least passing index, else the last one. */
  function SelectedIndex(p: WireParams): (k: nat)
    requires p.systemVoltageV != 0.0
    ensures k < |AWG_TABLE|
  {
    FirstPassingFrom(p, 0)
  }

  function FirstPassingFrom(p: WireParams, i: nat): (k: nat)
    requires p.systemVoltageV != 0.0 && i < |AWG_TABLE|
    ensures i <= k < |AWG_TABLE|
    ensures forall j :: i <= j < k ==> !Passes(AWG_TABLE[j], p)
    ensures Passes(AWG_TABLE[k], p) || (k == |AWG_TABLE| - 1 && forall j :: i <= j < |AWG_TABLE| ==> !Passes(AWG_TABLE[j], p))
    decreases |AWG_TABLE| - i
  {
    if Passes(AWG_TABLE[i], p) || i == |AWG_TABLE| - 1 then i else FirstPassingFrom(p, i + 1)
  }

  /** The selection rule in full: the chosen row passes and none before it does, or none passes and it is the last. */
  lemma SelectedIndexIsFirstPassing(p: WireParams)
    requires p.systemVoltageV != 0.0
    ensures forall j :: 0 <= j < SelectedIndex(p) ==> !Passes(AWG_TABLE[j], p)
    ensures (exists i :: 0 <= i < |AWG_TABLE| && Passes(AWG_TABLE[i], p)) ==> Passes(AWG_TABLE[SelectedIndex(p)], p)
    ensures (forall i :: 0 <= i < |AWG_TABLE| ==> !Passes(AWG_TABLE[i], p)) ==> SelectedIndex(p) == |AWG_TABLE| - 1
  {
  }

  /** The head of the filtered results is the selected row; an empty filter means the last row was selected and fails. */
  lemma PassingHeadIsSelected(p: WireParams)
    requires p.systemVoltageV != 0.0
    ensures Passing(Results(p)) != [] ==>
      Passing(Results(p))[0] == Evaluate(AWG_TABLE[SelectedIndex(p)], p) && Passes(AWG_TABLE[SelectedIndex(p)], p)
    ensures Passing(Results(p)) == [] ==>
      SelectedIndex(p) == |AWG_TABLE| - 1 && !Passes(AWG_TABLE[SelectedIndex(p)], p)
  {
    var results := Results(p);
    PassingHead(results);
    var k := SelectedIndex(p);
    if Passing(results) != [] {
      var k' :| 0 <= k' < |results| && results[k'].passes && Passing(results)[0] == results[k']
        && forall j :: 0 <= j < k' ==> !results[j].passes;
      assert results[k'] == Evaluate(AWG_TABLE[k'], p);
      assert k == k';
    } else {
      assert !results[k].passes;
    }
  }

  // ---------------------------------------------------------------------
  // Monotonicity of the choice

  lemma MulLeft(a: real, b: real, c: real)
    requires 0.0 <= c && a <= b
    ensures a * c <= b * c
  {
  }

  lemma DivPositive(a: real, b: real, v: real)
    requires v > 0.0 && a <= b
    ensures a / v * 100.0 <= b / v * 100.0
  {
    assert a / v <= b / v;
  }

  lemma SquareMonotone(a: real, b: real)
    requires 0.0 <= a <= b
    ensures a * a <= b * b
  {
    MulLeft(a, b, a);
    MulLeft(a, b, b);
    assert b * a == a * b;
  }

  /** A row that passes at a higher current also passes at a lower non-negative current. */
  lemma PassesAtLowerCurrent(row: AwgRow, p: WireParams, lower: real)
    requires p.systemVoltageV > 0.0 && p.lengthFtRoundtrip >= 0.0 && row.ohmsPerKuft > 0.0
    requires 0.0 <= lower <= p.currentA
    requires Passes(row, p)
    ensures Passes(row, p.(currentA := lower))
  {
    var ohm := OhmsPerFt(row);
    MulLeft(lower, p.currentA, ohm * p.lengthFtRoundtrip);
    DivPositive(lower * (ohm * p.lengthFtRoundtrip), p.currentA * (ohm * p.lengthFtRoundtrip), p.systemVoltageV);
    SquareMonotone(lower, p.currentA);
    MulLeft(lower * lower, p.currentA * p.currentA, ohm);
  }

  /** A row that passes with a longer run also passes with a shorter non-negative one. */
  lemma PassesAtShorterLength(row: AwgRow, p: WireParams, shorter: real)
    requires p.systemVoltageV > 0.0 && p.currentA >= 0.0 && row.ohmsPerKuft > 0.0
    requires 0.0 <= shorter <= p.lengthFtRoundtrip
    requires Passes(row, p)
    ensures Passes(row, p.(lengthFtRoundtrip := shorter))
  {
    var ohm := OhmsPerFt(row);
    MulLeft(shorter, p.lengthFtRoundtrip, ohm);
    assert ohm * shorter <= ohm * p.lengthFtRoundtrip;
    MulLeft(ohm * shorter, ohm * p.lengthFtRoundtrip, p.currentA);
    assert p.currentA * (ohm * shorter) <= p.currentA * (ohm * p.lengthFtRoundtrip);
    DivPositive(p.currentA * (ohm * shorter), p.currentA * (ohm * p.lengthFtRoundtrip), p.systemVoltageV);
  }

  /** If every row passing under `q` also passes under `p`, the choice under `p` is no thicker. */
  lemma SelectionMonotone(p: WireParams, q: WireParams)
    requires p.systemVoltageV != 0.0 && q.systemVoltageV != 0.0
    requires forall i :: 0 <= i < |AWG_TABLE| && Passes(AWG_TABLE[i], q) ==> Passes(AWG_TABLE[i], p)
    ensures SelectedIndex(p) <= SelectedIndex(q)
  {
    SelectedIndexIsFirstPassing(p);
    SelectedIndexIsFirstPassing(q);
    var k := SelectedIndex(q);
    if Passes(AWG_TABLE[k], q) {
      assert Passes(AWG_TABLE[k], p);
    }
  }

  /** For V > 0 and non-negative length, raising the current never selects a thinner gauge. */
  lemma MoreCurrentNeverThinner(p: WireParams, higher: real)
    requires p.systemVoltageV > 0.0 && p.lengthFtRoundtrip >= 0.0
    requires 0.0 <= p.currentA <= higher
    ensures SelectedIndex(p) <= SelectedIndex(p.(currentA := higher))
  {
    var q := p.(currentA := higher);
    TableIsOrdered();
    forall i | 0 <= i < |AWG_TABLE| && Passes(AWG_TABLE[i], q)
      ensures Passes(AWG_TABLE[i], p)
    {
      PassesAtLowerCurrent(AWG_TABLE[i], q, p.currentA);
      assert q.(currentA := p.currentA) == p;
    }
    SelectionMonotone(p, q);
  }

  /** For V > 0 and non-negative current, a longer round trip never selects a thinner gauge. */
  lemma LongerRunNeverThinner(p: WireParams, longer: real)
    requires p.systemVoltageV > 0.0 && p.currentA >= 0.0
    requires 0.0 <= p.lengthFtRoundtrip <= longer
    ensures SelectedIndex(p) <= SelectedIndex(p.(lengthFtRoundtrip := longer))
  {
    var q := p.(lengthFtRoundtrip := longer);
    TableIsOrdered();
    forall i | 0 <= i < |AWG_TABLE| && Passes(AWG_TABLE[i], q)
      ensures Passes(AWG_TABLE[i], p)
    {
      PassesAtShorterLength(AWG_TABLE[i], q, p.lengthFtRoundtrip);
      assert q.(lengthFtRoundtrip := p.lengthFtRoundtrip) == p;
    }
    SelectionMonotone(p, q);
  }

  /** A row with no more resistance and no less ampacity passes whenever the other one does. */
  lemma PassesOnThickerRow(thin: AwgRow, thick: AwgRow, p: WireParams)
    requires p.systemVoltageV > 0.0 && p.currentA >= 0.0 && p.lengthFtRoundtrip >= 0.0
    requires 0.0 <= thick.ohmsPerKuft <= thin.ohmsPerKuft && thin.ampacityA <= thick.ampacityA
    requires Passes(thin, p)
    ensures Passes(thick, p)
  {
    var a, b := OhmsPerFt(thick), OhmsPerFt(thin);
    var len, cur := p.lengthFtRoundtrip, p.currentA;
    assert a <= b;
    MulLeft(a, b, len);
    var aLen, bLen := a * len, b * len;
    MulLeft(aLen, bLen, cur);
    assert cur * aLen <= cur * bLen;
    DivPositive(cur * aLen, cur * bLen, p.systemVoltageV);
    var sq := cur * cur;
    assert sq >= 0.0;
    MulLeft(a, b, sq);
    assert sq * a <= sq * b;
  }

  /** Thicker gauges keep passing: once a row passes, every later row passes too. */
  lemma ThickerRowsPass(p: WireParams, i: nat, j: nat)
    requires p.systemVoltageV > 0.0 && p.currentA >= 0.0 && p.lengthFtRoundtrip >= 0.0
    requires i < j < |AWG_TABLE| && Passes(AWG_TABLE[i], p)
    ensures Passes(AWG_TABLE[j], p)
  {
    AdjacentRowsOrdered(i, j);
    TableIsOrdered();
    PassesOnThickerRow(AWG_TABLE[i], AWG_TABLE[j], p);
  }

  /** `recommendBatteryLeads`: round trip twice the one-way length, 3 % drop target, 3 W/ft cap. */
  function RecommendBatteryLeads(currentA: real, oneWayLengthFt: real, systemVoltageV: real): (a: WireAdvice)
    requires systemVoltageV != 0.0
    ensures a == EvaluateAwg(WireParams(currentA, oneWayLengthFt * 2.0, systemVoltageV, 3.0, 3.0))
    ensures a.awg == AWG_TABLE[SelectedIndex(WireParams(currentA, oneWayLengthFt * 2.0, systemVoltageV, 3.0, 3.0))].awg
  {
    EvaluateAwg(WireParams(currentA, oneWayLengthFt * 2.0, systemVoltageV, 3.0, 3.0))
  }

  /** 20 A and 60 A over 2 ft at 12 V pick different gauges (12 and 6). */
  lemma HigherCurrentExample()
    ensures SelectedIndex(WireParams(20.0, 2.0, 12.0, 3.0, 3.0)) == 3
    ensures SelectedIndex(WireParams(60.0, 2.0, 12.0, 3.0, 3.0)) == 6
  {
    var p, q := WireParams(20.0, 2.0, 12.0, 3.0, 3.0), WireParams(60.0, 2.0, 12.0, 3.0, 3.0);
    assert !Passes(AWG_TABLE[0], p) && !Passes(AWG_TABLE[1], p) && !Passes(AWG_TABLE[2], p);
    assert Passes(AWG_TABLE[3], p);
    assert FirstPassingFrom(p, 3) == 3;
    assert forall j :: 0 <= j < 6 ==> !Passes(AWG_TABLE[j], q);
    assert Passes(AWG_TABLE[6], q);
    assert FirstPassingFrom(q, 6) == 6;
    assert FirstPassingFrom(q, 5) == 6;
    assert FirstPassingFrom(q, 4) == 6;
    assert FirstPassingFrom(q, 3) == 6;
  }

  /** 80 A over a 3 ft round trip at 12 V: the first gauge that carries it is 4 (index 7). */
  lemma EightyAmpSelection()
    ensures SelectedIndex(WireParams(80.0, 3.0, 12.0, 3.0, 3.0)) == 7
  {
    var p := WireParams(80.0, 3.0, 12.0, 3.0, 3.0);
    assert forall j :: 0 <= j < 7 ==> !Passes(AWG_TABLE[j], p);
    assert Passes(AWG_TABLE[7], p);
    assert FirstPassingFrom(p, 7) == 7;
    assert FirstPassingFrom(p, 6) == 7;
    assert FirstPassingFrom(p, 5) == 7;
    assert FirstPassingFrom(p, 4) == 7;
    assert FirstPassingFrom(p, 3) == 7;
    assert FirstPassingFrom(p, 2) == 7;
    assert FirstPassingFrom(p, 1) == 7;
  }

  /** 80 A battery leads of 1.5 ft at 12 V: gauge 4, well inside the 3.5 % drop the test allows. */
  lemma BatteryLeadsExample()
    ensures RecommendBatteryLeads(80.0, 1.5, 12.0).awg == "4"
    ensures RecommendBatteryLeads(80.0, 1.5, 12.0).dropPct <= 3.5
  {
    var p := WireParams(80.0, 3.0, 12.0, 3.0, 3.0);
    EightyAmpSelection();
    var m := Evaluate(AWG_TABLE[7], p);
    assert m.vDrop == 80.0 * OhmsPerFt(AWG_TABLE[7]) * 3.0;
    assert m.dropPct * 12.0 == m.vDrop * 100.0;
  }
}
