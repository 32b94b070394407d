// The mission controller of the Stable variant: the state shared by its two modes (lock
// counter, HUD status, active target, sticky id, the memory mission) and the commands that
// change it directly — the global fire control that runs after every tick, EXECUTE, RETURN
// HOME, the mode-change reset, and the per-tick reset at the start of the loop. The Stable
// variant's own turret module is not part of this model; its controller is the alpha
// TurretController configured with the Stable settings.
module StableControl {
  import opened Base
  import opened AlphaTurret
  import opened Mission
  import opened Dwell

  /** Settings the controller reads itself: LOCK_FRAMES, HOME_ANGLE, the platform angles and
      the crosshair of the 1280x720 working frame. */
  datatype ControlConfig = ControlConfig(lockFrames: nat, homeAngle: real, platformAngles: map<char, real>, crosshair: Point)

  const STABLE_CONTROL := ControlConfig(5, 0.0, PLATFORM_ANGLES, (640, 360))

  /** DEADZONE 5, PRECISION_RADIUS 40 and the NO_FIRE limits of the Stable configuration. */
  const STABLE_TURRET := TurretConfig(5, 40, [-90.0, 90.0])

  /** Everything the controller and its turret hold. */
  datatype ControlState = ControlState(
    lockCount: nat, status: Status, activeTarget: Option<Point>, sticky: Option<string>,
    mission: MissionRec, angle: real, targetAngle: real)

  // ---------------------------------------------------------------------------------
  // The commands, as functions of the state.

  /** EXECUTE: only in MEMORY mode, only from WAITING, and then straight to SEEKING. */
  function ExecuteStep(m: MissionRec, mode: Mode): MissionRec {
    if mode.Memory? && m.phase.Waiting? then m.(phase := Seeking) else m
  }

  lemma ExecuteStepMeaning(m: MissionRec, mode: Mode)
    ensures var n := ExecuteStep(m, mode);
      && (n != m <==> mode.Memory? && m.phase.Waiting?)
      && (n != m ==> n == m.(phase := Seeking))
      && (MissionReady(m) ==> MissionReady(n))
  {
  }

  /** RETURN HOME: one pan step toward the home angle; unless that arrives, the mission
      switches to RETURNING so that the memory tick finishes the trip. */
  function ReturnHomeStep(s: ControlState, home: real): ControlState {
    var r := PanStep(s.angle, home);
    s.(angle := r.angle, targetAngle := home,
       mission := if r.arrived then s.mission else s.mission.(phase := Returning))
  }

  lemma ReturnHomeStepMeaning(s: ControlState, home: real)
    ensures var n := ReturnHomeStep(s, home);
      && n.targetAngle == home
      && (Abs(s.angle - home) < ARRIVAL_TOLERANCE ==> n.angle == home && n.mission == s.mission)
      && (Abs(s.angle - home) >= ARRIVAL_TOLERANCE ==>
            n.mission == s.mission.(phase := Returning) && Abs(n.angle - home) < Abs(s.angle - home))
      && n.lockCount == s.lockCount && n.sticky == s.sticky
  {
  }

  /** The result of the global fire control: the new state, and the verdict of `discharge`
      when it was called (None when no shot was attempted). */
  datatype FireOutcome = FireOutcome(state: ControlState, shot: Option<bool>)

  /** The lock condition of the global fire control: strictly inside the precision radius,
      and a safe turret angle. */
  predicate GlobalLock(target: Point, crosshair: Point, angle: real, tc: TurretConfig) {
    InsideRadius(SqDist(target, crosshair), tc.precisionRadius) && AngleSafe(tc.noFireAngles, angle)
  }

  function GlobalFireStep(s: ControlState, tc: TurretConfig, cfg: ControlConfig): FireOutcome {
    match s.activeTarget
    case None => FireOutcome(s.(lockCount := 0), None)
    case Some(target) =>
      if GlobalLock(target, cfg.crosshair, s.angle, tc) then
        var d := DwellStep(s.lockCount, true, cfg.lockFrames);
        FireOutcome(s.(lockCount := d.count, status := Locked), if d.fire then Some(ShotValid(tc, s.angle, target, cfg.crosshair, false)) else None)
      else FireOutcome(s.(lockCount := 0), None)
  }

  /** Global fire control: no target or a broken lock zeroes the counter; a lock counts up
      and shows LOCKED; a shot is attempted exactly when the count reaches LOCK_FRAMES, and
      then the counter restarts; the counter stays below LOCK_FRAMES; nothing but the counter
      and the status changes. */
  lemma GlobalFireStepMeaning(s: ControlState, tc: TurretConfig, cfg: ControlConfig)
    ensures var o := GlobalFireStep(s, tc, cfg);
      && (s.activeTarget.None? ==> o.state == s.(lockCount := 0) && o.shot.None?)
      && (s.activeTarget.Some? && !GlobalLock(s.activeTarget.value, cfg.crosshair, s.angle, tc) ==>
            o.state == s.(lockCount := 0) && o.shot.None?)
      && (s.activeTarget.Some? && GlobalLock(s.activeTarget.value, cfg.crosshair, s.angle, tc) ==>
            o.state.status == Locked
            && (o.shot.Some? <==> s.lockCount + 1 >= cfg.lockFrames)
            && o.state.lockCount == (if s.lockCount + 1 >= cfg.lockFrames then 0 else s.lockCount + 1))
      && (s.lockCount < cfg.lockFrames ==> o.state.lockCount < cfg.lockFrames)
      && o.state == s.(lockCount := o.state.lockCount, status := o.state.status)
  {
  }

  /** A shot the global fire control attempts always passes `validate_safety`: the strict
      lock radius implies the non-strict firing radius, and the angle is the one just checked. */
  lemma GlobalShotsAlwaysFire(s: ControlState, tc: TurretConfig, cfg: ControlConfig)
    ensures GlobalFireStep(s, tc, cfg).shot.Some? ==> GlobalFireStep(s, tc, cfg).shot == Some(true)
  {
  }

  /** The mode-change reset: no sticky id and a fresh mission. */
  function ResetStep(s: ControlState): ControlState {
    s.(sticky := None, mission := INITIAL_MISSION)
  }

  /** The per-tick reset at the start of the loop. */
  function BeginTickStep(s: ControlState): ControlState {
    s.(status := Scanning, activeTarget := None)
  }

  lemma ResetStepMeaning(s: ControlState)
    ensures var n := ResetStep(s);
      && n.sticky.None? && n.mission.phase == ScanOcr && n.mission.platform.None?
      && n.mission.targetClass.None? && n.mission.ocrStreak == 0 && MissionReady(n.mission)
      && n.lockCount == s.lockCount && n.angle == s.angle
  {
  }

  class MissionControl {
    const cfg: ControlConfig
    const turret: TurretController
    var lockCount: nat
    var currentStatus: Status
    var activeTarget: Option<Point>
    var stickyId: Option<string>
    var memState: Phase
    var memPlatform: Option<char>
    var memClass: Option<string>
    var memOcrCounter: nat

    function Mission(): MissionRec
      reads this
    {
      MissionRec(memState, memPlatform, memClass, memOcrCounter)
    }

    function State(): ControlState
      reads this, turret
    {
      ControlState(lockCount, currentStatus, activeTarget, stickyId, Mission(), turret.currentAngle, turret.targetAngle)
    }

    constructor (cfg: ControlConfig, turretCfg: TurretConfig)
      ensures this.cfg == cfg && turret.cfg == turretCfg && fresh(turret)
      ensures State() == ControlState(0, Scanning, None, None, INITIAL_MISSION, 0.0, 0.0)
    {
      this.cfg := cfg;
      turret := new TurretController(turretCfg);
      lockCount := 0;
      currentStatus := Scanning;
      activeTarget := None;
      stickyId := None;
      memState := ScanOcr;
      memPlatform := None;
      memClass := None;
      memOcrCounter := 0;
    }

    /** `joy_cmd`: a jog of the turret, in MANUAL mode only. */
    method JoyCmd(mode: Mode, dir: Direction)
      modifies turret`currentAngle
      ensures turret.currentAngle == (if mode.Manual? then JogAngle(old(turret.currentAngle), dir) else old(turret.currentAngle))
    {
      if mode.Manual? {
        turret.ManualMove(dir);
      }
    }

    /** `manual_fire`: in MANUAL mode only, a manual discharge at the crosshair, which fires
        exactly when the turret angle is safe; None when no shot was attempted. */
    method ManualFire(mode: Mode) returns (shot: Option<bool>)
      ensures shot.Some? <==> mode.Manual?
      ensures shot.Some? ==> (shot.value <==> AngleSafe(turret.cfg.noFireAngles, turret.currentAngle))
    {
      if mode.Manual? {
        var fired := turret.Discharge(cfg.crosshair, cfg.crosshair, true);
        return Some(fired);
      }
      return None;
    }

    method ExecuteMemoryMission(mode: Mode)
      modifies this`memState
      ensures State() == old(State()).(mission := ExecuteStep(old(Mission()), mode))
    {
      if !mode.Memory? {
        return;
      }
      if memState == Waiting {
        memState := Seeking;
      }
    }

    method ReturnHome()
      modifies turret, this`memState
      ensures State() == ReturnHomeStep(old(State()), cfg.homeAngle)
    {
      var arrived := turret.PanToAngle(cfg.homeAngle);
      if !arrived {
        memState := Returning;
      }
    }

    method ResetMemoryState()
      modifies this`memState, this`memPlatform, this`memClass, this`memOcrCounter
      ensures State() == old(State()).(mission := INITIAL_MISSION)
    {
      memState := ScanOcr;
      memPlatform := None;
      memClass := None;
      memOcrCounter := 0;
    }

    method ResetSystem()
      modifies this`stickyId, this`memState, this`memPlatform, this`memClass, this`memOcrCounter
      ensures State() == ResetStep(old(State()))
    {
      stickyId := None;
      ResetMemoryState();
    }

    method BeginTick()
      modifies this`currentStatus, this`activeTarget
      ensures State() == BeginTickStep(old(State()))
    {
      currentStatus := Scanning;
      activeTarget := None;
    }

    method HandleGlobalFire() returns (shot: Option<bool>)
      modifies this`lockCount, this`currentStatus
      ensures FireOutcome(State(), shot) == GlobalFireStep(old(State()), turret.cfg, cfg)
    {
      if activeTarget.None? {
        lockCount := 0;
        return None;
      }
      var target := activeTarget.value;
      var angleOk := turret.IsAngleSafe(None);
      if InsideRadius(SqDist(target, cfg.crosshair), turret.cfg.precisionRadius) && angleOk {
        lockCount := lockCount + 1;
        currentStatus := Locked;
        shot := None;
        if lockCount >= cfg.lockFrames {
          var fired := turret.Discharge(target, cfg.crosshair, false);
          shot := Some(fired);
          lockCount := 0;
        }
      } else {
        lockCount := 0;
        shot := None;
      }
    }
  }
}
