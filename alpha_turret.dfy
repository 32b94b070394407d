// The turret controller of the alpha variant: a pan pose (current and target angle, in
// degrees, domain [-90, 90]) that steps toward a target, jogs by joystick, follows a pixel
// offset outside a deadzone, and gates firing on a no-fire-angle tolerance and a precision
// radius. Log lines and the (commented-out) serial link are effects the model drops.
module AlphaTurret {
  import opened Base

  /** Settings read from the alpha configuration: DEADZONE, PRECISION_RADIUS and the
      values of NO_FIRE_ANGLES (their names only appear in log lines). */
  datatype TurretConfig = TurretConfig(deadzone: int, precisionRadius: int, noFireAngles: seq<real>)

  const ALPHA_CONFIG := TurretConfig(5, 20, [-90.0, 90.0])

  const ANGLE_LIMIT: real := 90.0
  const ARRIVAL_TOLERANCE: real := 1.0
  const FAR_GAP: real := 10.0
  const FAR_STEP: real := 2.0
  const NEAR_STEP: real := 0.5
  const JOG_STEP: real := 5.0
  const DEGREES_PER_PIXEL: real := 0.05
  const NO_FIRE_TOLERANCE: real := 2.0

  predicate InDomain(a: real) {
    -ANGLE_LIMIT <= a <= ANGLE_LIMIT
  }

  /** `max(-90, min(90, a))`. */
  function Clamp(a: real): (r: real)
    ensures InDomain(r)
    ensures InDomain(a) ==> r == a
    ensures !InDomain(a) ==> r == (if a < 0.0 then -ANGLE_LIMIT else ANGLE_LIMIT)
  {
    if a > ANGLE_LIMIT then ANGLE_LIMIT else if a < -ANGLE_LIMIT then -ANGLE_LIMIT else a
  }

  /** The step a pan takes for a given remaining gap: fast when far, slow when near. */
  function PanStepSize(gap: real): real {
    if gap > FAR_GAP then FAR_STEP else NEAR_STEP
  }

  datatype PanResult = PanResult(arrived: bool, angle: real)

  /** One call of `pan_to_angle`: arrival (and a snap onto the target) inside 1 degree,
      otherwise one step toward the target that never passes it. */
  function PanStep(current: real, target: real): (r: PanResult)
    ensures r.arrived <==> Abs(current - target) < ARRIVAL_TOLERANCE
    ensures r.arrived ==> r.angle == target
    ensures !r.arrived ==> Abs(r.angle - target) == Abs(current - target) - PanStepSize(Abs(current - target))
    ensures !r.arrived && current < target ==> current < r.angle < target
    ensures !r.arrived && current > target ==> target < r.angle < current
    ensures InDomain(current) && InDomain(target) ==> InDomain(r.angle)
  {
    var gap := Abs(current - target);
    if gap < ARRIVAL_TOLERANCE then PanResult(true, target)
    else
      var step := PanStepSize(gap);
      if current < target then
        PanResult(false, if current + step < target then current + step else target)
      else
        PanResult(false, if current - step > target then current - step else target)
  }

  /** The angle after `n` further calls of `pan_to_angle(target)`. */
  function PanAfter(current: real, target: real, n: nat): real
    decreases n
  {
    if n == 0 then current else PanAfter(PanStep(current, target).angle, target, n - 1)
  }

  /** Every call that does not arrive closes the gap by at least half a degree, so a pan
      that starts `g` degrees away reports arrival within 2 * g calls. */
  lemma {:induction false} PanArrivesWithin(current: real, target: real, n: nat)
    requires Abs(current - target) < ARRIVAL_TOLERANCE + (n as real) * NEAR_STEP
    ensures PanStep(PanAfter(current, target, n), target).arrived
    decreases n
  {
    if n > 0 {
      var next := PanStep(current, target).angle;
      assert Abs(next - target) < ARRIVAL_TOLERANCE + ((n - 1) as real) * NEAR_STEP;
      PanArrivesWithin(next, target, n - 1);
    }
  }

  /** The angle after one joystick command (`manual_move`), clamped to the domain. */
  function JogAngle(current: real, dir: Direction): (r: real)
    ensures InDomain(r)
    ensures (dir.Up? || dir.Down?) ==> r == Clamp(current)
    ensures InDomain(current) && dir.Left? ==> r <= current && (r == current - JOG_STEP || r == -ANGLE_LIMIT)
    ensures InDomain(current) && dir.Right? ==> r >= current && (r == current + JOG_STEP || r == ANGLE_LIMIT)
  {
    match dir
    case Left => Clamp(current - JOG_STEP)
    case Right => Clamp(current + JOG_STEP)
    case Up => Clamp(current)
    case Down => Clamp(current)
  }

  /** The angle after `calculate_motor_adjustments` with horizontal pixel offset `dx`. */
  function NudgeAngle(current: real, dx: int, deadzone: int): (r: real)
    ensures AbsInt(dx) <= deadzone ==> r == current
    ensures AbsInt(dx) > deadzone ==> InDomain(r)
    ensures AbsInt(dx) > deadzone && InDomain(current) && dx > 0 ==> current <= r <= current + (dx as real) * DEGREES_PER_PIXEL
    ensures AbsInt(dx) > deadzone && InDomain(current) && dx < 0 ==> current + (dx as real) * DEGREES_PER_PIXEL <= r <= current
    ensures AbsInt(dx) > deadzone && InDomain(current + (dx as real) * DEGREES_PER_PIXEL) ==> r == current + (dx as real) * DEGREES_PER_PIXEL
    ensures AbsInt(dx) > deadzone && current + (dx as real) * DEGREES_PER_PIXEL > ANGLE_LIMIT ==> r == ANGLE_LIMIT
    ensures AbsInt(dx) > deadzone && current + (dx as real) * DEGREES_PER_PIXEL < -ANGLE_LIMIT ==> r == -ANGLE_LIMIT
  {
    if AbsInt(dx) > deadzone then Clamp(current + (dx as real) * DEGREES_PER_PIXEL) else current
  }

  /** An angle is safe when it keeps at least 2 degrees from every no-fire angle. */
  predicate AngleSafe(noFire: seq<real>, angle: real) {
    forall i :: 0 <= i < |noFire| ==> Abs(angle - noFire[i]) >= NO_FIRE_TOLERANCE
  }

  /** `validate_safety` on a turret configured by `tc` and standing at `angle`: the angle
      check applies to every shot, the precision radius only to automatic ones. */
  predicate ShotValid(tc: TurretConfig, angle: real, aim: Point, center: Point, isManual: bool) {
    && AngleSafe(tc.noFireAngles, angle)
    && (isManual || WithinRadius(SqDist(aim, center), tc.precisionRadius))
  }

  class TurretController {
    const cfg: TurretConfig
    var currentAngle: real
    var targetAngle: real

    constructor (cfg: TurretConfig)
      ensures this.cfg == cfg
      ensures currentAngle == 0.0 && targetAngle == 0.0
    {
      this.cfg := cfg;
      currentAngle := 0.0;
      targetAngle := 0.0;
    }

    method PanToAngle(target: real) returns (arrived: bool)
      modifies this
      ensures targetAngle == target
      ensures PanResult(arrived, currentAngle) == PanStep(old(currentAngle), target)
      ensures InDomain(old(currentAngle)) && InDomain(target) ==> InDomain(currentAngle)
    {
      targetAngle := target;
      var angleDiff := Abs(currentAngle - target);
      if angleDiff < ARRIVAL_TOLERANCE {
        currentAngle := target;
        return true;
      }
      var step := if angleDiff > FAR_GAP then FAR_STEP else NEAR_STEP;
      if currentAngle < target {
        currentAngle := if currentAngle + step < target then currentAngle + step else target;
      } else {
        currentAngle := if currentAngle - step > target then currentAngle - step else target;
      }
      return false;
    }

    method ManualMove(dir: Direction)
      modifies this`currentAngle
      ensures currentAngle == JogAngle(old(currentAngle), dir)
    {
      match dir {
        case Left => currentAngle := currentAngle - JOG_STEP;
        case Right => currentAngle := currentAngle + JOG_STEP;
        case Up =>
        case Down =>
      }
      currentAngle := Clamp(currentAngle);
    }

    method CalculateMotorAdjustments(cx: int, cy: int, center: Point)
      modifies this`currentAngle
      ensures currentAngle == NudgeAngle(old(currentAngle), cx - center.0, cfg.deadzone)
    {
      var dx := cx - center.0;
      if AbsInt(dx) > cfg.deadzone {
        currentAngle := currentAngle + (dx as real) * DEGREES_PER_PIXEL;
        currentAngle := Clamp(currentAngle);
      }
    }

    /** `is_angle_safe(angle)`: checks the given angle, or the current one when none is given,
        against each no-fire angle in turn and stops at the first one within tolerance. */
    method IsAngleSafe(angle: Option<real>) returns (safe: bool)
      ensures safe <==> AngleSafe(cfg.noFireAngles, angle.GetOr(currentAngle))
    {
      var check := angle.GetOr(currentAngle);
      var i := 0;
      while i < |cfg.noFireAngles|
        invariant 0 <= i <= |cfg.noFireAngles|
        invariant forall j :: 0 <= j < i ==> Abs(check - cfg.noFireAngles[j]) >= NO_FIRE_TOLERANCE
      {
        if Abs(check - cfg.noFireAngles[i]) < NO_FIRE_TOLERANCE {
          return false;
        }
        i := i + 1;
      }
      return true;
    }

    /** `validate_safety` of this turret at its current angle. */
    predicate ValidateSafety(aim: Point, center: Point, isManual: bool)
      reads this
    {
      ShotValid(cfg, currentAngle, aim, center, isManual)
    }

    /** `discharge`: the shot goes off exactly when `validate_safety` passes. */
    method Discharge(aim: Point, center: Point, isManual: bool) returns (fired: bool)
      ensures fired <==> ValidateSafety(aim, center, isManual)
      ensures !AngleSafe(cfg.noFireAngles, currentAngle) ==> !fired
      ensures isManual ==> (fired <==> AngleSafe(cfg.noFireAngles, currentAngle))
    {
      var angleOk := IsAngleSafe(None);
      if !angleOk {
        return false;
      }
      if !isManual {
        if !WithinRadius(SqDist(aim, center), cfg.precisionRadius) {
          return false;
        }
      }
      return true;
    }
  }
}
