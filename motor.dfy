/** The motor math: Kv/Kt conversion, the placeholder phase resistance, the linear torque-speed model and ERPM. */
module Motor {
  import opened Optional

  /** `Math.PI` as a decimal; the proofs only rely on it being positive. */
  const PI: real := 3.141592653589793

  function Max(a: real, b: real): (m: real)
    ensures m >= a && m >= b && (m == a || m == b)
  {
    if a >= b then a else b
  }

  function Min(a: real, b: real): (m: real)
    ensures m <= a && m <= b && (m == a || m == b)
  {
    if a <= b then a else b
  }

  /** `kvToKt`: torque constant in N·m/A from a speed constant in rpm/V. */
  function KvToKt(kv: real): (kt: real)
    requires kv != 0.0
    ensures kt * (2.0 * PI * kv) == 60.0
    ensures kv > 0.0 ==> kt > 0.0
    ensures kt != 0.0
  {
    60.0 / (2.0 * PI * kv)
  }

  /** `ktToKv`: the same reciprocal formula in the other direction. */
  function KtToKv(kt: real): (kv: real)
    requires kt != 0.0
    ensures kv * (2.0 * PI * kt) == 60.0
    ensures kt > 0.0 ==> kv > 0.0
    ensures kv != 0.0
  {
    60.0 / (2.0 * PI * kt)
  }

  /** Converting Kv to Kt and back gives Kv again (the smoke test's round trip is exact over the reals). */
  lemma KvKtRoundTrip(kv: real)
    requires kv != 0.0
    ensures KtToKv(KvToKt(kv)) == kv
  {
    var kt := KvToKt(kv);
    var back := KtToKv(kt);
    assert back * (2.0 * PI * kt) == 60.0;
    assert kv * (2.0 * PI * kt) == 60.0;
    assert (back - kv) * (2.0 * PI * kt) == 0.0;
  }

  /** And Kt to Kv and back gives Kt again. */
  lemma KtKvRoundTrip(kt: real)
    requires kt != 0.0
    ensures KvToKt(KtToKv(kt)) == kt
  {
    var kv := KtToKv(kt);
    var back := KvToKt(kv);
    assert back * (2.0 * PI * kv) == 60.0;
    assert kt * (2.0 * PI * kv) == 60.0;
    assert (back - kt) * (2.0 * PI * kv) == 0.0;
  }

  /** `estimatePhaseResistance`: a placeholder that ignores its inputs and returns 50 mΩ. */
  function EstimatePhaseResistance(kv: Option<real>, kt: Option<real>, nominalVoltageV: real,
                                   noLoadRpm: real, noLoadCurrentA: real): (r: real)
    ensures r > 0.0
  {
    0.05
  }

  /** The estimate is the same for every motor, at 0.05 Ω. */
  lemma PhaseResistanceIgnoresInputs(kv: Option<real>, kt: Option<real>, v: real, rpm: real, i: real,
                                     kv': Option<real>, kt': Option<real>, v': real, rpm': real, i': real)
    ensures EstimatePhaseResistance(kv, kt, v, rpm, i) == EstimatePhaseResistance(kv', kt', v', rpm', i') == 0.05
  {
  }

  /** The motor parameters of the drivetrain formulas. */
  datatype MotorModel = MotorModel(kt: real, r: real)

  datatype OperatingPoint = OperatingPoint(rpm: real, current: real, pShaft: real, pElec: real, eff: real)

  function BackEmf(kt: real, r: real, v: real, torque: real): real
    requires kt != 0.0
  {
    v - (torque / kt) * r
  }

  /**
   * `makeTorqueSpeed({Kt, R, V})` applied to a torque: the closure's captured
   * parameters become the first three arguments.
   */
  function TorqueSpeed(kt: real, r: real, v: real, torque: real): (p: OperatingPoint)
    requires kt != 0.0
    ensures p.current * kt == torque
    ensures p.rpm >= 0.0 && p.rpm >= BackEmf(kt, r, v, torque) * KtToKv(kt)
    ensures p.rpm == Max(0.0, BackEmf(kt, r, v, torque) * KtToKv(kt))
    ensures p.pShaft == torque * (p.rpm * 2.0 * PI / 60.0)
    ensures BackEmf(kt, r, v, torque) <= 0.0 && kt > 0.0 ==> p.rpm == 0.0 && p.pShaft == 0.0
    ensures p.pElec == p.current * v
    ensures 0.0 <= p.eff <= 1.0
    ensures p.pElec > 0.0 ==>
      p.eff * p.pElec == p.pShaft || (p.eff == 0.0 && p.pShaft <= 0.0) || (p.eff == 1.0 && p.pShaft >= p.pElec)
    ensures p.pElec <= 0.0 ==> p.eff == 0.0
  {
    var current := torque / kt;
    var backEmfV := v - current * r;
    var kv := KtToKv(kt);
    var rpm := Max(0.0, backEmfV * kv);
    var pShaft := torque * (rpm * 2.0 * PI / 60.0);
    var pElec := current * v;
    var eff := if pElec > 0.0 then Max(0.0, Min(1.0, pShaft / pElec)) else 0.0;
    ClampedRatio(pShaft, pElec);
    OperatingPoint(rpm, current, pShaft, pElec, eff)
  }

  /** Clamping s/e to [0, 1] for e > 0 either keeps the ratio exactly or sits at the bound that s crossed. */
  lemma ClampedRatio(s: real, e: real)
    ensures e > 0.0 ==> var q := Max(0.0, Min(1.0, s / e));
      q * e == s || (q == 0.0 && s <= 0.0) || (q == 1.0 && s >= e)
  {
    if e > 0.0 {
      var q := s / e;
      assert q * e == s;
      if q > 1.0 { assert s >= e; }
      if q < 0.0 { assert s <= 0.0; }
    }
  }

  /** Below stall the shaft power is current times back-EMF, so efficiency is back-EMF over supply voltage. */
  lemma EfficiencyIsVoltageRatio(kt: real, r: real, v: real, torque: real)
    requires kt > 0.0 && r >= 0.0 && v > 0.0 && torque > 0.0
    requires BackEmf(kt, r, v, torque) >= 0.0
    ensures TorqueSpeed(kt, r, v, torque).eff == BackEmf(kt, r, v, torque) / v
  {
    var p := TorqueSpeed(kt, r, v, torque);
    var e := BackEmf(kt, r, v, torque);
    var kv := KtToKv(kt);
    assert p.rpm == e * kv;
    BelowStallPowers(torque, kt, kv, r, v, e);
    assert p.pShaft / p.pElec == e / v;
  }

  /**
   * The algebra behind the efficiency: with current i = torque/Kt and Kv·2π·Kt = 60,
   * torque·(E·Kv·2π/60) over i·V is E/V, a ratio in [0, 1] below stall.
   */
  lemma BelowStallPowers(torque: real, kt: real, kv: real, r: real, v: real, e: real)
    requires kt > 0.0 && r >= 0.0 && v > 0.0 && torque > 0.0 && e >= 0.0
    requires kv * 2.0 * PI * kt == 60.0 && e == v - (torque / kt) * r
    ensures (torque / kt) * v > 0.0
    ensures torque * (e * kv * 2.0 * PI / 60.0) / ((torque / kt) * v) == e / v
    ensures 0.0 <= e / v <= 1.0
  {
    var i := torque / kt;
    assert i > 0.0;
    ShaftPowerBelowStall(torque, kt, kv, e);
    RatioCancels(i, e, v);
    assert i * r >= 0.0;
  }

  /** torque·(E·Kv·2π/60) = (torque/Kt)·E when Kv·2π·Kt = 60. */
  lemma ShaftPowerBelowStall(torque: real, kt: real, kv: real, e: real)
    requires kt > 0.0 && kv * 2.0 * PI * kt == 60.0
    ensures torque * (e * kv * 2.0 * PI / 60.0) == torque / kt * e
  {
    assert kv * 2.0 * PI / 60.0 == 1.0 / kt;
  }

  /** (i·e)/(i·v) = e/v for positive i and v. */
  lemma RatioCancels(i: real, e: real, v: real)
    requires i > 0.0 && v > 0.0
    ensures (i * e) / (i * v) == e / v
  {
  }

  /** At zero torque no current flows and efficiency is zero, whatever the supply. */
  lemma NoLoadPoint(kt: real, r: real, v: real)
    requires kt != 0.0
    ensures TorqueSpeed(kt, r, v, 0.0).current == 0.0
    ensures TorqueSpeed(kt, r, v, 0.0).eff == 0.0
    ensures TorqueSpeed(kt, r, v, 0.0).rpm == Max(0.0, v * KtToKv(kt))
  {
  }

  /** `erpm`: electrical rpm is mechanical rpm times pole pairs; an absent pole count means 14 poles. */
  function Erpm(rpm: real, poles: Option<real>): (e: real)
    ensures poles.None? ==> e == 7.0 * rpm
    ensures poles.Some? ==> e * 2.0 == rpm * poles.value
  {
    rpm * (poles.GetOr(14.0) / 2.0)
  }

  /** An explicit pole count is used even when it is zero: only an absent count falls back to 14. */
  lemma ErpmZeroPoles(rpm: real)
    ensures Erpm(rpm, Some(0.0)) == 0.0
  {
  }

  /** The smoke test's motor: 1900 rpm/V survives the round trip exactly. */
  lemma SmokeRoundTrip()
    ensures KtToKv(KvToKt(1900.0)) == 1900.0
  {
    KvKtRoundTrip(1900.0);
  }
}
