/** The second drivetrain module: the same no-load formula, floored at zero, and the same cruise current. */
module EngineDrivetrain {
  import opened Motor
  import Drivetrain

  /** `wheelCircumference_m`: written out again in this file, with the same value as `Drivetrain`'s. */
  function WheelCircumference(diameterIn: real): (c: real)
    ensures c == Drivetrain.WheelCircumference(diameterIn)
    ensures diameterIn > 0.0 ==> c > 0.0
  {
    PI * (diameterIn * 0.0254)
  }

  /** `topSpeed`: the no-load top speed in mph, never negative. */
  function TopSpeed(diameterIn: real, gearRatio: real, v: real, motor: MotorModel): (mph: real)
    requires motor.kt != 0.0 && gearRatio != 0.0
    ensures mph >= 0.0
    ensures mph == Max(0.0, Drivetrain.TopSpeedMph(diameterIn, gearRatio, v, motor))
  {
    var kv := KtToKv(motor.kt);
    var rpmMotor := kv * v;
    var rpmWheel := rpmMotor / gearRatio;
    var mps := (rpmWheel / 60.0) * WheelCircumference(diameterIn);
    var mph := mps * 2.23694;
    Max(0.0, mph)
  }

  /** On a real drivetrain the floor only bites for a non-positive voltage. */
  lemma TopSpeedZeroIff(diameterIn: real, gearRatio: real, v: real, motor: MotorModel)
    requires motor.kt > 0.0 && gearRatio > 0.0 && diameterIn > 0.0
    ensures TopSpeed(diameterIn, gearRatio, v, motor) == 0.0 <==> v <= 0.0
    ensures v > 0.0 ==> TopSpeed(diameterIn, gearRatio, v, motor) == Drivetrain.TopSpeedMph(diameterIn, gearRatio, v, motor)
  {
    Drivetrain.NegativeVoltageNegativeSpeed(diameterIn, gearRatio, v, motor);
  }

  /** A larger reduction never raises the floored top speed. */
  lemma TopSpeedNonIncreasingInGear(diameterIn: real, g1: real, g2: real, v: real, motor: MotorModel)
    requires motor.kt > 0.0 && diameterIn > 0.0 && 0.0 < g1 <= g2
    ensures TopSpeed(diameterIn, g2, v, motor) <= TopSpeed(diameterIn, g1, v, motor)
  {
    if v > 0.0 && g1 < g2 {
      Drivetrain.GearLowersTopSpeed(diameterIn, g1, g2, v, motor);
    } else if v <= 0.0 {
      TopSpeedZeroIff(diameterIn, g2, v, motor);
    }
  }

  /** `currentAtSpeed`: the torque model's current at the 0.05 N·m cruise torque. */
  function CurrentAtSpeed(targetMph: real, diameterIn: real, gearRatio: real, v: real, motor: MotorModel): (a: real)
    requires motor.kt != 0.0
    ensures a * motor.kt == Drivetrain.CruiseTorqueNm
    ensures a == Drivetrain.CurrentAtSpeedPerMotor(targetMph, diameterIn, gearRatio, v, motor)
  {
    var point := TorqueSpeed(motor.kt, motor.r, v, 0.05);
    point.current
  }
}
