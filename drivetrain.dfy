/** No-load top speed and cruise current per motor (the orchestrator's drivetrain module). */
module Drivetrain {
  import opened Motor

  const MetresPerInch: real := 0.0254
  const MphPerMps: real := 2.23694

  /** `wheelCircumference_m`: π times the diameter, converted from inches to metres. */
  function WheelCircumference(diameterIn: real): (c: real)
    ensures diameterIn > 0.0 ==> c > 0.0
    ensures c == PI * MetresPerInch * diameterIn
  {
    PI * (diameterIn * 0.0254)
  }

  /** A larger wheel has a strictly larger circumference. */
  lemma CircumferenceIncreasing(d1: real, d2: real)
    requires d1 < d2
    ensures WheelCircumference(d1) < WheelCircumference(d2)
  {
    assert WheelCircumference(d2) - WheelCircumference(d1) == WheelCircumference(d2 - d1);
  }

  /** `topSpeed_mph`: no-load motor rpm, through the gear reduction and round the wheel, in mph. No floor. */
  function TopSpeedMph(diameterIn: real, gearRatio: real, v: real, motor: MotorModel): (mph: real)
    requires motor.kt != 0.0 && gearRatio != 0.0
    ensures mph * gearRatio * 60.0 == KtToKv(motor.kt) * v * WheelCircumference(diameterIn) * MphPerMps
  {
    var kv := KtToKv(motor.kt);
    var rpmMotorNl := kv * v;
    var rpmWheelNl := rpmMotorNl / gearRatio;
    var mps := (rpmWheelNl / 60.0) * WheelCircumference(diameterIn);
    mps * 2.23694
  }

  /** The speed per volt for one drivetrain: top speed is this factor times the supply voltage. */
  function SpeedPerVolt(diameterIn: real, gearRatio: real, motor: MotorModel): (k: real)
    requires motor.kt != 0.0 && gearRatio != 0.0
    ensures motor.kt > 0.0 && gearRatio > 0.0 && diameterIn > 0.0 ==> k > 0.0
  {
    KtToKv(motor.kt) / gearRatio / 60.0 * WheelCircumference(diameterIn) * MphPerMps
  }

  /** Top speed is linear in the supply voltage. */
  lemma TopSpeedLinearInVoltage(diameterIn: real, gearRatio: real, v: real, motor: MotorModel)
    requires motor.kt != 0.0 && gearRatio != 0.0
    ensures TopSpeedMph(diameterIn, gearRatio, v, motor) == SpeedPerVolt(diameterIn, gearRatio, motor) * v
  {
  }

  /** Since nothing clamps the result, a negative voltage gives a negative top speed on a real drivetrain. */
  lemma NegativeVoltageNegativeSpeed(diameterIn: real, gearRatio: real, v: real, motor: MotorModel)
    requires motor.kt > 0.0 && gearRatio > 0.0 && diameterIn > 0.0
    ensures TopSpeedMph(diameterIn, gearRatio, v, motor) < 0.0 <==> v < 0.0
    ensures TopSpeedMph(diameterIn, gearRatio, v, motor) > 0.0 <==> v > 0.0
  {
    TopSpeedLinearInVoltage(diameterIn, gearRatio, v, motor);
    var k := SpeedPerVolt(diameterIn, gearRatio, motor);
    assert k > 0.0;
    if v < 0.0 { assert k * v < 0.0; }
    if v > 0.0 { assert k * v > 0.0; }
  }

  /** A larger reduction strictly lowers the top speed (positive voltage, motor constant and wheel). */
  lemma GearLowersTopSpeed(diameterIn: real, g1: real, g2: real, v: real, motor: MotorModel)
    requires motor.kt > 0.0 && diameterIn > 0.0 && v > 0.0 && 0.0 < g1 < g2
    ensures TopSpeedMph(diameterIn, g2, v, motor) < TopSpeedMph(diameterIn, g1, v, motor)
  {
    var n := KtToKv(motor.kt) * v / 60.0 * WheelCircumference(diameterIn) * MphPerMps;
    assert n > 0.0;
    assert TopSpeedMph(diameterIn, g1, v, motor) == n / g1;
    assert TopSpeedMph(diameterIn, g2, v, motor) == n / g2;
    assert n / g2 < n / g1 by {
      assert n / g1 * g1 == n == n / g2 * g2;
      assert n / g2 * g1 < n / g2 * g2;
    }
  }

  /** A larger wheel strictly raises the top speed (positive voltage, motor constant and gear). */
  lemma WheelRaisesTopSpeed(d1: real, d2: real, gearRatio: real, v: real, motor: MotorModel)
    requires motor.kt > 0.0 && gearRatio > 0.0 && v > 0.0 && d1 < d2
    ensures TopSpeedMph(d1, gearRatio, v, motor) < TopSpeedMph(d2, gearRatio, v, motor)
  {
    var f := KtToKv(motor.kt) * v / gearRatio / 60.0 * MphPerMps;
    assert f > 0.0;
    CircumferenceIncreasing(d1, d2);
    var c1 := WheelCircumference(d1);
    var c2 := WheelCircumference(d2);
    var s1 := TopSpeedMph(d1, gearRatio, v, motor);
    var s2 := TopSpeedMph(d2, gearRatio, v, motor);
    assert s1 == f * c1;
    assert s2 == f * c2;
    assert f * c1 < f * c2;
  }

  /** The test drivetrains: 3 in wheel at 11.1 V; gear 6 is slower than gear 3, and a 4 in wheel faster than 2.5 in. */
  lemma DrivetrainExamples(motor: MotorModel)
    requires motor.kt > 0.0
    ensures TopSpeedMph(3.0, 6.0, 11.1, motor) < TopSpeedMph(3.0, 3.0, 11.1, motor)
    ensures TopSpeedMph(2.5, 4.0, 11.1, motor) < TopSpeedMph(4.0, 4.0, 11.1, motor)
  {
    GearLowersTopSpeed(3.0, 3.0, 6.0, 11.1, motor);
    WheelRaisesTopSpeed(2.5, 4.0, 4.0, 11.1, motor);
  }

  /** The fixed cruise torque of the current estimate, in N·m. */
  const CruiseTorqueNm: real := 0.05

  /**
   * `currentAtSpeed_perMotor`: the torque model's current at the fixed cruise torque.
   * The target-speed rpm it works out is never used, so it is not computed here.
   */
  function CurrentAtSpeedPerMotor(targetMph: real, diameterIn: real, gearRatio: real, v: real, motor: MotorModel): (a: real)
    requires motor.kt != 0.0
    ensures a == TorqueSpeed(motor.kt, motor.r, v, CruiseTorqueNm).current
    ensures a * motor.kt == CruiseTorqueNm
  {
    TorqueSpeed(motor.kt, motor.r, v, 0.05).current
  }

  /** The estimate depends on the motor constant alone: target speed, wheel, gear, voltage and resistance do not matter. */
  lemma CurrentIgnoresOperatingPoint(t1: real, d1: real, g1: real, v1: real, r1: real,
                                     t2: real, d2: real, g2: real, v2: real, r2: real, kt: real)
    requires kt != 0.0
    ensures CurrentAtSpeedPerMotor(t1, d1, g1, v1, MotorModel(kt, r1))
         == CurrentAtSpeedPerMotor(t2, d2, g2, v2, MotorModel(kt, r2))
  {
    var a1 := CurrentAtSpeedPerMotor(t1, d1, g1, v1, MotorModel(kt, r1));
    var a2 := CurrentAtSpeedPerMotor(t2, d2, g2, v2, MotorModel(kt, r2));
    assert (a1 - a2) * kt == 0.0;
  }
}
