// The turret controller of the testing variant: it keeps no pose at all. Motor adjustments
// are only reported, and the fire gate is a strict pixel interval on the aim column plus, for
// automatic shots, the precision radius.
module TestingTurret {
  import opened Base
  import opened AlphaTurret

  /** DEADZONE and PRECISION_RADIUS of the testing configuration. */
  const TESTING_DEADZONE: int := 2
  const TESTING_PRECISION_RADIUS: int := 15

  /** A reported motor command: a direction and the pixel offset behind it. */
  datatype Motion = Motion(dir: Direction, pixels: nat)

  datatype MotorReport = MotorReport(pan: Option<Motion>, tilt: Option<Motion>)

  /** `calculate_motor_adjustments`: what the controller reports for a target at (cx, cy);
      an offset inside the deadzone reports nothing on that axis. */
  function ReportMotors(cx: int, cy: int, center: Point, deadzone: int): (r: MotorReport)
    ensures r.pan.Some? <==> AbsInt(cx - center.0) > deadzone
    ensures r.pan.Some? ==> (r.pan.value.pixels == AbsInt(cx - center.0)
      && (r.pan.value.dir == Right <==> cx > center.0) && (r.pan.value.dir == Left <==> cx <= center.0))
    ensures r.tilt.Some? <==> AbsInt(cy - center.1) > deadzone
    ensures r.tilt.Some? ==> (r.tilt.value.pixels == AbsInt(cy - center.1)
      && (r.tilt.value.dir == Down <==> cy > center.1) && (r.tilt.value.dir == Up <==> cy <= center.1))
  {
    var dx, dy := cx - center.0, cy - center.1;
    MotorReport(
      if AbsInt(dx) > deadzone then Some(Motion(if dx > 0 then Right else Left, AbsInt(dx))) else None,
      if AbsInt(dy) > deadzone then Some(Motion(if dy > 0 then Down else Up, AbsInt(dy))) else None)
  }

  /** The report and the alpha controller's pan nudge agree: no pan report means the alpha
      angle would not move, a RIGHT report never turns it left and a LEFT one never right. */
  lemma ReportAgreesWithNudge(cx: int, cy: int, center: Point, deadzone: int, angle: real)
    requires InDomain(angle)
    ensures var r := ReportMotors(cx, cy, center, deadzone);
      && (r.pan.None? ==> NudgeAngle(angle, cx - center.0, deadzone) == angle)
      && (r.pan.Some? && r.pan.value.dir == Right ==> NudgeAngle(angle, cx - center.0, deadzone) >= angle)
      && (r.pan.Some? && r.pan.value.dir == Left ==> NudgeAngle(angle, cx - center.0, deadzone) <= angle)
  {
  }

  /** `validate_safety`: the aim column must lie strictly between the two limits, and an
      automatic shot must also be within the precision radius of the centre. */
  function ValidateSafety(aim: Point, center: Point, limits: (int, int), isManual: bool, radius: int): (ok: bool)
    ensures ok ==> limits.0 < aim.0 < limits.1
    ensures ok && !isManual ==> WithinRadius(SqDist(aim, center), radius)
    ensures !ok ==> !(limits.0 < aim.0 < limits.1) || (!isManual && !WithinRadius(SqDist(aim, center), radius))
  {
    if !(limits.0 < aim.0 && aim.0 < limits.1) then false
    else if !isManual && !WithinRadius(SqDist(aim, center), radius) then false
    else true
  }

  /** An aim column on either limit is blocked: the interval is open. */
  lemma LimitsAreExclusive(aim: Point, center: Point, limits: (int, int), isManual: bool, radius: int)
    requires aim.0 == limits.0 || aim.0 == limits.1
    ensures !ValidateSafety(aim, center, limits, isManual, radius)
  {
  }

  /** A manual shot is judged on the limits alone; the radius never blocks it. */
  lemma ManualIgnoresRadius(aim: Point, center: Point, limits: (int, int), radius: int)
    ensures ValidateSafety(aim, center, limits, true, radius) <==> limits.0 < aim.0 < limits.1
  {
  }

  /** `discharge`: the shot goes off exactly when `validate_safety` passes. */
  function Discharge(aim: Point, center: Point, limits: (int, int), isManual: bool, radius: int): (fired: bool)
    ensures fired <==> limits.0 < aim.0 < limits.1 && (isManual || WithinRadius(SqDist(aim, center), radius))
  {
    ValidateSafety(aim, center, limits, isManual, radius)
  }
}
