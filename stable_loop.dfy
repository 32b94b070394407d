// The main loop of the Stable variant: each camera frame resets the per-frame status,
// delegates to the memory tick or the standard tick by mode, and then runs the global fire
// control. Between frames the operator's commands (mode change, EXECUTE, RETURN HOME, the
// jog keys and the manual trigger) change the same state. The lemmas state what holds after
// any tick and across any run of ticks and commands.
module StableLoop {
  import opened Base
  import opened AlphaTurret
  import opened Mission
  import opened Targeting
  import opened StableControl
  import opened StableModes

  /** One pass of `update_loop` on a frame that was read. */
  function TickStep(s: ControlState, f: Frame<int>, tc: TurretConfig, cfg: ControlConfig): FireOutcome {
    var b := BeginTickStep(s);
    var t := if f.mode.Memory? then MemoryStep(b, f.tracks, f.letter, f.selection, tc, cfg)
             else StandardStep(b, f.mode, f.tracks, f.selection, tc.deadzone, cfg.crosshair);
    GlobalFireStep(t, tc, cfg)
  }

  /** `update_loop`: a failed camera read leaves everything as it was. */
  method UpdateLoop(ctrl: MissionControl, frame: Option<Frame<int>>) returns (shot: Option<bool>)
    modifies ctrl, ctrl.turret
    ensures frame.None? ==> ctrl.State() == old(ctrl.State()) && shot.None?
    ensures frame.Some? ==> FireOutcome(ctrl.State(), shot) == TickStep(old(ctrl.State()), frame.value, ctrl.turret.cfg, ctrl.cfg)
  {
    if frame.None? {
      return None;
    }
    var f := frame.value;
    ctrl.BeginTick();
    if f.mode.Memory? {
      MemoryTick(ctrl, f.tracks, f.letter, f.selection);
    } else {
      StandardTick(ctrl, f.mode, f.tracks, f.selection);
    }
    shot := ctrl.HandleGlobalFire();
  }

  /** What the controller keeps between frames: the lock counter and the OCR streak stay
      below LOCK_FRAMES, and the mission knows what its phase needs. */
  predicate ControlInv(s: ControlState, cfg: ControlConfig) {
    && s.lockCount < cfg.lockFrames
    && s.mission.ocrStreak < cfg.lockFrames
    && MissionReady(s.mission)
  }

  /** The configured home and platform angles lie within the turret's range. */
  predicate AnglesInRange(cfg: ControlConfig) {
    && InDomain(cfg.homeAngle)
    && forall p :: p in cfg.platformAngles ==> InDomain(cfg.platformAngles[p])
  }

  /** The Stable configuration (home 0, platforms at -45 and +45) is in range. */
  lemma StableAnglesInRange()
    ensures AnglesInRange(STABLE_CONTROL)
  {
  }

  /** Within a configuration in range every platform lookup is in range, the 0.0 default included. */
  lemma PlatformAngleInRange(cfg: ControlConfig, platform: Option<char>)
    requires AnglesInRange(cfg)
    ensures InDomain(PlatformAngle(cfg.platformAngles, platform))
  {
  }

  /** Every shot the loop attempts fires. */
  lemma TickShotsFire(s: ControlState, f: Frame<int>, tc: TurretConfig, cfg: ControlConfig)
    ensures TickStep(s, f, tc, cfg).shot.Some? ==> TickStep(s, f, tc, cfg).shot == Some(true)
  {
    var b := BeginTickStep(s);
    var t := if f.mode.Memory? then MemoryStep(b, f.tracks, f.letter, f.selection, tc, cfg)
             else StandardStep(b, f.mode, f.tracks, f.selection, tc.deadzone, cfg.crosshair);
    GlobalShotsAlwaysFire(t, tc, cfg);
  }

  /** A MANUAL frame never fires: nothing is tracked, so the counter drops to zero, the HUD
      shows MANUAL, the sticky id is cleared and the turret is not moved. */
  lemma ManualTickNeverFires(s: ControlState, f: Frame<int>, tc: TurretConfig, cfg: ControlConfig)
    requires f.mode.Manual?
    ensures var o := TickStep(s, f, tc, cfg);
      && o.shot.None? && o.state.lockCount == 0 && o.state.status == ManualStatus
      && o.state.sticky.None? && o.state.activeTarget.None? && o.state.angle == s.angle
  {
    var b := BeginTickStep(s);
    StandardStepMeaning(b, f.mode, f.tracks, f.selection, tc.deadzone, cfg.crosshair);
  }

  /** In MEMORY mode a shot is attempted only while ENGAGING, on a track of the mission's
      class, and the mission stays in ENGAGING afterwards: only RETURN HOME ends it. */
  lemma MemoryShotsOnlyWhileEngaging(s: ControlState, f: Frame<int>, tc: TurretConfig, cfg: ControlConfig)
    requires f.mode.Memory?
    ensures var o := TickStep(s, f, tc, cfg);
      && (o.shot.Some? ==> s.mission.phase.Engaging? && o.state.mission == s.mission)
      && (o.state.activeTarget.Some? ==> o.state.activeTarget == FirstEngaged(f.tracks, s.mission.targetClass))
  {
    var b := BeginTickStep(s);
    var t := MemoryStep(b, f.tracks, f.letter, f.selection, tc, cfg);
    GlobalFireStepMeaning(t, tc, cfg);
  }

  /** In a standard mode other than MANUAL, a sticky id after the tick is a visible confirmed
      track, and that track is the one the fire control judged: the active target is its
      centre and the HUD shows TRACKING or LOCKED. Without a sticky id nothing fires. */
  lemma StandardTickTargetsSticky(s: ControlState, f: Frame<int>, tc: TurretConfig, cfg: ControlConfig)
    requires !f.mode.Memory? && !f.mode.Manual?
    ensures var o := TickStep(s, f, tc, cfg);
      var tagged := Tag(f.tracks, StdName);
      && (o.state.sticky.None? || o.state.sticky.value in Ids(tagged))
      && (o.state.sticky.Some? ==>
            (o.state.activeTarget == Some(LastWithId(tagged, o.state.sticky).value.center)
             && (o.state.status == Tracking || o.state.status == Locked)))
      && (o.state.sticky.None? ==> o.shot.None? && o.state.lockCount == 0)
  {
    var b := BeginTickStep(s);
    var t := StandardStep(b, f.mode, f.tracks, f.selection, tc.deadzone, cfg.crosshair);
    StandardStepMeaning(b, f.mode, f.tracks, f.selection, tc.deadzone, cfg.crosshair);
    GlobalFireStepMeaning(t, tc, cfg);
  }

  /** Every tick keeps the invariant, keeps the turret inside its range, and moves the mission
      along its cycle (a standard tick does not touch the mission at all). */
  lemma TickKeepsInvariant(s: ControlState, f: Frame<int>, tc: TurretConfig, cfg: ControlConfig)
    requires ControlInv(s, cfg)
    ensures var o := TickStep(s, f, tc, cfg);
      && ControlInv(o.state, cfg)
      && TickMove(s.mission.phase, o.state.mission.phase)
      && (!f.mode.Memory? ==> o.state.mission == s.mission)
      && (InDomain(s.angle) && InDomain(cfg.homeAngle) && InDomain(PlatformAngle(cfg.platformAngles, s.mission.platform)) ==>
            InDomain(o.state.angle))
  {
    var b := BeginTickStep(s);
    var t := if f.mode.Memory? then MemoryStep(b, f.tracks, f.letter, f.selection, tc, cfg)
             else StandardStep(b, f.mode, f.tracks, f.selection, tc.deadzone, cfg.crosshair);
    if f.mode.Memory? {
      MemoryStepCycle(b, f.tracks, f.letter, f.selection, tc, cfg);
      if b.mission.phase.ScanOcr? {
        MemoryStepOcr(b, f.tracks, f.letter, f.selection, tc, cfg);
      }
    } else {
      StandardStepMeaning(b, f.mode, f.tracks, f.selection, tc.deadzone, cfg.crosshair);
    }
    GlobalFireStepMeaning(t, tc, cfg);
  }

  // ---------------------------------------------------------------------------------
  // Operator commands between frames.

  /** What can happen between two states: a frame (read or not), a mode change (which calls
      `reset_system`), EXECUTE, RETURN HOME, a jog key or the manual trigger, each with the
      mode selected at the time. */
  datatype Event =
    | Tick(frame: Option<Frame<int>>)
    | ModeChange
    | Execute(mode: Mode)
    | GoHome
    | Jog(mode: Mode, dir: Direction)
    | Trigger(mode: Mode)

  function EventStep(s: ControlState, e: Event, tc: TurretConfig, cfg: ControlConfig): ControlState {
    match e
    case Tick(frame) => if frame.Some? then TickStep(s, frame.value, tc, cfg).state else s
    case ModeChange => ResetStep(s)
    case Execute(mode) => s.(mission := ExecuteStep(s.mission, mode))
    case GoHome => ReturnHomeStep(s, cfg.homeAngle)
    case Jog(mode, dir) => if mode.Manual? then s.(angle := JogAngle(s.angle, dir)) else s
    case Trigger(_) => s
  }

  function Run(s: ControlState, events: seq<Event>, tc: TurretConfig, cfg: ControlConfig): ControlState
    decreases |events|
  {
    if events == [] then s else Run(EventStep(s, events[0], tc, cfg), events[1..], tc, cfg)
  }

  /** A freshly built controller satisfies the invariant whenever LOCK_FRAMES is positive. */
  lemma InitialStateInvariant(cfg: ControlConfig)
    requires cfg.lockFrames > 0
    ensures ControlInv(ControlState(0, Scanning, None, None, INITIAL_MISSION, 0.0, 0.0), cfg)
    ensures !ControlInv(ControlState(0, Scanning, None, None, INITIAL_MISSION, 0.0, 0.0), cfg.(lockFrames := 0))
  {
  }

  /** Every event keeps the invariant, and, when the configured angles are in range, keeps
      the turret in [-90, 90]. */
  lemma EventKeepsInvariant(s: ControlState, e: Event, tc: TurretConfig, cfg: ControlConfig)
    requires ControlInv(s, cfg)
    ensures ControlInv(EventStep(s, e, tc, cfg), cfg)
    ensures AnglesInRange(cfg) && InDomain(s.angle) ==> InDomain(EventStep(s, e, tc, cfg).angle)
  {
    if AnglesInRange(cfg) {
      PlatformAngleInRange(cfg, s.mission.platform);
    }
    match e
    case Tick(frame) =>
      if frame.Some? {
        TickKeepsInvariant(s, frame.value, tc, cfg);
      }
    case ModeChange =>
      ResetStepMeaning(s);
    case Execute(mode) =>
      ExecuteStepMeaning(s.mission, mode);
    case GoHome =>
      ReturnHomeStepMeaning(s, cfg.homeAngle);
    case Jog(_, _) =>
    case Trigger(_) =>
  }

  /** The invariant holds after any run of frames and commands: the lock counter and the OCR
      streak never sit at LOCK_FRAMES, and a mission past SCAN_OCR never lacks its platform
      (nor, from WAITING to ENGAGING, its class). With the configured angles in range, as in
      the Stable configuration, the turret never leaves [-90, 90]. */
  lemma {:induction false} RunKeepsInvariant(s: ControlState, events: seq<Event>, tc: TurretConfig, cfg: ControlConfig)
    requires ControlInv(s, cfg)
    ensures ControlInv(Run(s, events, tc, cfg), cfg)
    ensures AnglesInRange(cfg) && InDomain(s.angle) ==> InDomain(Run(s, events, tc, cfg).angle)
    decreases |events|
  {
    if events != [] {
      EventKeepsInvariant(s, events[0], tc, cfg);
      RunKeepsInvariant(EventStep(s, events[0], tc, cfg), events[1..], tc, cfg);
    }
  }
}
