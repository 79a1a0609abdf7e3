/** Battery limits, voltage sag and runtime from capacity, C-ratings and internal resistance. */
module Battery {
  import opened Optional

  /** `continuousCurrent`: amp-hours times the C-rating. */
  function ContinuousCurrent(capacityMah: real, cCont: real): (a: real)
    ensures a * 1000.0 == capacityMah * cCont
  {
    (capacityMah / 1000.0) * cCont
  }

  /** `burstCurrent`: an absent or zero burst C-rating falls back to 1C (JavaScript falsiness). */
  function BurstCurrent(capacityMah: real, cBurst: Option<real>): (a: real)
    ensures cBurst.None? || cBurst.value == 0.0 ==> a * 1000.0 == capacityMah
    ensures cBurst.Some? && cBurst.value != 0.0 ==> a * 1000.0 == capacityMah * cBurst.value
  {
    if cBurst.None? || cBurst.value == 0.0 then ContinuousCurrent(capacityMah, 1.0)
    else (capacityMah / 1000.0) * cBurst.value
  }

  datatype IrSag = IrSag(vDrop: real, rTotal: real)

  /** `sagFromIR`: the pack resistance is the per-cell milliohms of S cells in series; the drop is Ohm's law. */
  function SagFromIR(cellsS: real, irPerCellMohm: real, loadA: real): (s: IrSag)
    ensures s.rTotal * 1000.0 == irPerCellMohm * cellsS
    ensures s.vDrop == loadA * s.rTotal
  {
    var rTotal := (irPerCellMohm / 1000.0) * cellsS;
    IrSag(loadA * rTotal, rTotal)
  }

  /** With a non-negative pack resistance, a larger load never gives a smaller drop. */
  lemma IrSagMonotone(cellsS: real, ir: real, load1: real, load2: real)
    requires cellsS >= 0.0 && ir >= 0.0 && load1 <= load2
    ensures SagFromIR(cellsS, ir, load1).vDrop <= SagFromIR(cellsS, ir, load2).vDrop
  {
    var rt := SagFromIR(cellsS, ir, load1).rTotal;
    assert rt >= 0.0;
    assert load1 * rt <= load2 * rt;
  }

  /** The load ratio of `sagFromC`: load over continuous rating, capped at 1, and 1 when the rating is not positive. */
  function LoadRatio(capacityMah: real, cCont: real, loadA: real): (q: real)
    ensures q <= 1.0
    ensures ContinuousCurrent(capacityMah, cCont) <= 0.0 ==> q == 1.0
    ensures loadA >= 0.0 ==> q >= 0.0
    ensures ContinuousCurrent(capacityMah, cCont) > 0.0 ==>
      q * ContinuousCurrent(capacityMah, cCont) <= loadA
      && (q == 1.0 || q * ContinuousCurrent(capacityMah, cCont) == loadA)
  {
    var iCont := ContinuousCurrent(capacityMah, cCont);
    if iCont > 0.0 then (if loadA / iCont <= 1.0 then loadA / iCont else 1.0) else 1.0
  }

  /** `sagFromC`: a per-cell drop that grows linearly from 0.12 V at no load to 0.20 V at the continuous rating. */
  function SagFromC(capacityMah: real, cCont: real, loadA: real): (perCellV: real)
    ensures perCellV <= 0.20
    ensures loadA >= 0.0 ==> 0.12 <= perCellV
    ensures ContinuousCurrent(capacityMah, cCont) <= 0.0 ==> perCellV == 0.20
    ensures loadA >= ContinuousCurrent(capacityMah, cCont) ==> perCellV == 0.20
    ensures 0.0 < ContinuousCurrent(capacityMah, cCont) && loadA <= ContinuousCurrent(capacityMah, cCont) ==>
      (perCellV - 0.12) * ContinuousCurrent(capacityMah, cCont) == 0.08 * loadA
  {
    0.12 + 0.08 * LoadRatio(capacityMah, cCont, loadA)
  }

  /** A larger load never gives a smaller C-based drop. */
  lemma SagFromCMonotone(capacityMah: real, cCont: real, load1: real, load2: real)
    requires load1 <= load2
    ensures SagFromC(capacityMah, cCont, load1) <= SagFromC(capacityMah, cCont, load2)
  {
    var iCont := ContinuousCurrent(capacityMah, cCont);
    if iCont > 0.0 {
      DivideByPositive(load1, load2, iCont);
    }
  }

  lemma DivideByPositive(a: real, b: real, c: real)
    requires a <= b && c > 0.0
    ensures a / c <= b / c
  {
    assert b / c - a / c == (b - a) / c;
    assert (b - a) / c >= 0.0;
  }

  /** The 0.12 V floor needs a non-negative load: a negative load gives a smaller drop. */
  lemma SagFromCNegativeLoad()
    ensures SagFromC(5000.0, 50.0, -250.0) < 0.12
  {
    assert ContinuousCurrent(5000.0, 50.0) == 250.0;
    assert LoadRatio(5000.0, 50.0, -250.0) == -1.0;
  }

  /** `Infinity` in `runtimeAt` becomes its own case. */
  datatype Runtime = Unbounded | Minutes(minutes: real)

  /** `runtimeAt`: minutes until the pack is empty at the duty-weighted average current. */
  function RuntimeAt(capacityMah: real, avgCurrentA: real, duty: real): (t: Runtime)
    ensures t.Unbounded? <==> avgCurrentA * duty <= 0.0
    ensures t.Minutes? ==> t.minutes * (avgCurrentA * duty) == capacityMah / 1000.0 * 60.0
    ensures t.Minutes? && capacityMah > 0.0 ==> t.minutes > 0.0
  {
    var ah := capacityMah / 1000.0;
    var effectiveI := avgCurrentA * duty;
    if effectiveI <= 0.0 then Unbounded else Minutes((ah / effectiveI) * 60.0)
  }

  /** At a positive duty, a higher average current strictly shortens the runtime. */
  lemma RuntimeDecreasing(capacityMah: real, i1: real, i2: real, duty: real)
    requires capacityMah > 0.0 && duty > 0.0 && 0.0 < i1 < i2
    ensures RuntimeAt(capacityMah, i1, duty).Minutes? && RuntimeAt(capacityMah, i2, duty).Minutes?
    ensures RuntimeAt(capacityMah, i1, duty).minutes > RuntimeAt(capacityMah, i2, duty).minutes
  {
    var e1 := i1 * duty;
    var e2 := i2 * duty;
    assert 0.0 < e1 < e2;
    var ah := capacityMah / 1000.0;
    assert ah / e1 > ah / e2 by {
      assert ah / e1 * e1 == ah == ah / e2 * e2;
      assert ah / e2 * e1 < ah / e2 * e2;
    }
  }

  // ---------------------------------------------------------------------
  // The documented cases

  lemma CRatingExamples()
    ensures ContinuousCurrent(5000.0, 50.0) == 250.0
    ensures BurstCurrent(5000.0, Some(100.0)) == 500.0
    ensures BurstCurrent(5000.0, None) == BurstCurrent(5000.0, Some(0.0)) == 5.0
  {
  }

  lemma IrSagExample()
    ensures SagFromIR(3.0, 12.0, 60.0) == IrSag(2.16, 0.036)
  {
  }

  lemma RuntimeExample()
    ensures RuntimeAt(5000.0, 10.0, 0.5) == Minutes(60.0)
    ensures RuntimeAt(5000.0, 20.0, 0.5) == Minutes(30.0)
    ensures RuntimeAt(5000.0, 0.0, 0.5) == Unbounded
  {
  }
}
