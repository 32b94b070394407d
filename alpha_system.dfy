// The alpha variant's AegisSystem: one object holding the standard tracking state (sticky
// id, lock counter, HUD status, active target) and the memory mission, driven by camera
// frames and by the operator's commands. Each method is specified by a step function on a
// snapshot of the state; the lemmas state what the steps promise and the invariant every
// run of frames and commands keeps.
module AlphaSystem {
  import opened Base
  import opened AlphaTurret
  import opened Mission
  import opened Targeting
  import opened Dwell

  /** LOCK_FRAME_THRESHOLD of the alpha configuration. */
  const LOCK_FRAME_THRESHOLD: nat := 5

  /** The crosshair of the 1280x720 frame every tick resizes to. */
  const CROSSHAIR: Point := (640, 360)

  /** PLATFORM_ANGLES["HOME"]. */
  const HOME_ANGLE: real := 0.0

  /** `(active_cx, active_cy)` when no target is active. */
  const NO_ACTIVE: Point := (-1, -1)

  datatype AlphaState = AlphaState(
    lockCount: nat, status: Status, active: Point, sticky: Option<string>,
    mission: MissionRec, angle: real, targetAngle: real)

  const INITIAL_STATE := AlphaState(0, Scanning, NO_ACTIVE, None, INITIAL_MISSION, 0.0, 0.0)

  /** A new state, and the verdict of `discharge` when a tick called it. */
  datatype Outcome = Outcome(state: AlphaState, shot: Option<bool>)

  // ---------------------------------------------------------------------------------
  // Memory mode.

  /** The SCAN_CLASS dropdown: every confirmed track that carries a class, as
      "{shape}_{track_id}", with "Unknown" for a class outside MEMORY_CLASS_MAP. */
  function AlphaChoices(tracks: seq<Track<int>>): (r: seq<Choice>)
    ensures |r| <= |tracks|
    ensures forall i :: 0 <= i < |r| ==> r[i].name == "Unknown" || r[i].name in MEMORY_CLASS_NAMES
    decreases |tracks|
  {
    if tracks == [] then []
    else
      var t := tracks[|tracks| - 1];
      var name := if t.detClass.Some? then MemName(t.detClass.value).GetOr("Unknown") else "Unknown";
      AlphaChoices(tracks[..|tracks| - 1])
        + (if t.confirmed && t.detClass.Some? then [Choice(LabelId(name, t.trackId), name)] else [])
  }

  /** The ENGAGING match: a confirmed track with a class whose shape name is the mission's. */
  predicate AlphaEngages(t: Track<int>, targetClass: Option<string>) {
    t.confirmed && t.detClass.Some? && MemName(t.detClass.value) == targetClass
  }

  function AlphaEngagesWith(targetClass: Option<string>): Track<int> -> bool {
    (t: Track<int>) => AlphaEngages(t, targetClass)
  }

  /** `_handle_memory_mode` as a function of the state. */
  function MemoryStep(s: AlphaState, tracks: seq<Track<int>>, letter: Option<char>, selection: string, tc: TurretConfig): Outcome {
    var m := s.mission;
    match m.phase
    case ScanOcr =>
      var r := OcrStep(m.ocrStreak, letter, LOCK_FRAME_THRESHOLD);
      Outcome(s.(mission := if r.committed.Some? then m.(phase := ScanClass, platform := r.committed, ocrStreak := 0)
                            else m.(ocrStreak := r.streak)), None)
    case ScanClass =>
      var pick := PickClass(AlphaChoices(tracks), selection);
      Outcome(if pick.Some? then s.(mission := m.(targetClass := pick, phase := Waiting)) else s, None)
    case Seeking =>
      var target := PlatformAngle(PLATFORM_ANGLES, m.platform);
      var r := PanStep(s.angle, target);
      Outcome(s.(angle := r.angle, targetAngle := target, mission := if r.arrived then m.(phase := Engaging) else m), None)
    case Engaging =>
      var k := FirstMatch(tracks, AlphaEngagesWith(m.targetClass));
      if k.None? then Outcome(s.(lockCount := 0), None)
      else
        var c := Center(tracks[k.value].box);
        var angle := NudgeAngle(s.angle, c.0 - CROSSHAIR.0, tc.deadzone);
        var locked := InsideRadius(SqDist(c, CROSSHAIR), tc.precisionRadius) && AngleSafe(tc.noFireAngles, angle);
        var d := DwellStep(s.lockCount, locked, LOCK_FRAME_THRESHOLD);
        Outcome(s.(angle := angle, lockCount := d.count), if d.fire then Some(ShotValid(tc, angle, c, CROSSHAIR, false)) else None)
    case Returning =>
      var r := PanStep(s.angle, HOME_ANGLE);
      Outcome(s.(angle := r.angle, targetAngle := HOME_ANGLE,
                 mission := if r.arrived then m.(phase := ScanOcr, platform := None, targetClass := None) else m), None)
    case Waiting => Outcome(s, None)
  }

  // ---------------------------------------------------------------------------------
  // Standard modes.

  /** `_handle_standard_modes` as a function of the state. */
  function StandardStep(s: AlphaState, mode: Mode, tracks: seq<Track<int>>, selection: string, tc: TurretConfig): Outcome {
    var tagged := Tag(tracks, StdName);
    TrackStep(s.(sticky := LowestIdSelect(mode, tagged, selection, s.sticky)), mode, tagged, tc)
  }

  /** The tracking and fire-control half of the standard tick, on the sticky id `s` holds. */
  function TrackStep(s: AlphaState, mode: Mode, tagged: seq<Tagged>, tc: TurretConfig): Outcome {
    var primary := if mode.Manual? then None else LastWithId(tagged, s.sticky);
    var angle := if mode.Manual? then s.angle else AimThrough(s.angle, tagged, s.sticky, CROSSHAIR, tc.deadzone);
    var base := s.(angle := angle, status := Scanning, active := NO_ACTIVE);
    if mode.Manual? then Outcome(base.(status := ManualControl), None)
    else if primary.None? then Outcome(base, None)
    else
      var aim := primary.value.center;
      var locked := WithinRadius(SqDist(aim, CROSSHAIR), tc.precisionRadius) && AngleSafe(tc.noFireAngles, angle);
      var d := DwellStep(s.lockCount, locked, LOCK_FRAME_THRESHOLD);
      Outcome(base.(active := aim, status := if locked then Locked else Tracking, lockCount := d.count),
              if d.fire then Some(ShotValid(tc, angle, aim, CROSSHAIR, false)) else None)
  }

  /** One pass of `update_loop` on a frame that was read. */
  function TickStep(s: AlphaState, f: Frame<int>, tc: TurretConfig): Outcome {
    if f.mode.Memory? then MemoryStep(s, f.tracks, f.letter, f.selection, tc)
    else StandardStep(s, f.mode, f.tracks, f.selection, tc)
  }

  // ---------------------------------------------------------------------------------
  // Operator commands.

  /** `reset_system` on a change to `mode`: the sticky id and the counter always go; the
      mission survives only a change into MEMORY. */
  function ResetStep(s: AlphaState, mode: Mode): AlphaState {
    s.(sticky := None, lockCount := 0, mission := if mode.Memory? then s.mission else INITIAL_MISSION)
  }

  /** `execute_memory_mission`: MEMORY mode, a WAITING mission, and both a platform and a
      non-empty class name, or nothing happens. */
  function ExecuteStep(m: MissionRec, mode: Mode): MissionRec {
    if mode.Memory? && m.phase.Waiting? && m.platform.Some? && m.targetClass.Some? && m.targetClass.value != ""
    then m.(phase := Seeking)
    else m
  }

  /** `return_home`: one pan step home; RETURNING unless that arrives. */
  function ReturnHomeStep(s: AlphaState): AlphaState {
    var r := PanStep(s.angle, HOME_ANGLE);
    s.(angle := r.angle, targetAngle := HOME_ANGLE, mission := if r.arrived then s.mission else s.mission.(phase := Returning))
  }

  /** `manual_fire`: in MANUAL mode a manual discharge at the crosshair. */
  function ManualShot(s: AlphaState, mode: Mode, tc: TurretConfig): Option<bool> {
    if mode.Manual? then Some(ShotValid(tc, s.angle, CROSSHAIR, CROSSHAIR, true)) else None
  }

  /** What can happen between two states: a frame (read or not), a change of mode, EXECUTE,
      RETURN HOME, a jog key or the manual trigger, each with the mode selected at the time. */
  datatype Event =
    | Tick(frame: Option<Frame<int>>)
    | ModeChange(mode: Mode)
    | Execute(mode: Mode)
    | GoHome
    | Jog(mode: Mode, dir: Direction)
    | Trigger(mode: Mode)

  function EventStep(s: AlphaState, e: Event, tc: TurretConfig): AlphaState {
    match e
    case Tick(frame) => if frame.Some? then TickStep(s, frame.value, tc).state else s
    case ModeChange(mode) => ResetStep(s, mode)
    case Execute(mode) => s.(mission := ExecuteStep(s.mission, mode))
    case GoHome => ReturnHomeStep(s)
    case Jog(mode, dir) => if mode.Manual? then s.(angle := JogAngle(s.angle, dir)) else s
    case Trigger(_) => s
  }

  function Run(s: AlphaState, events: seq<Event>, tc: TurretConfig): AlphaState
    decreases |events|
  {
    if events == [] then s else Run(EventStep(s, events[0], tc), events[1..], tc)
  }

  // ---------------------------------------------------------------------------------
  // What the steps promise.

  /** What every state reached from the initial one satisfies: the lock counter and the OCR
      streak stay below the threshold, the turret stays in [-90, 90], a mission past
      SCAN_OCR knows its platform and one from WAITING to ENGAGING its class, and a chosen
      class name is never empty. */
  predicate AlphaInv(s: AlphaState) {
    && s.lockCount < LOCK_FRAME_THRESHOLD
    && s.mission.ocrStreak < LOCK_FRAME_THRESHOLD
    && InDomain(s.angle)
    && MissionReady(s.mission)
    && (s.mission.targetClass.Some? ==> s.mission.targetClass.value != "")
  }

  lemma InitialStateInvariant()
    ensures AlphaInv(INITIAL_STATE)
  {
  }

  /** The standard tick. The sticky id is a visible confirmed track or nothing. MANUAL shows
      MANUAL_CONTROL and neither moves the turret, fires nor touches the counter. Otherwise a
      held sticky id is the active target, LOCKED exactly when it is inside the radius at a safe
      angle and TRACKING otherwise, with the counter counting up on a held lock and dropping to
      zero when the lock breaks; no visible target shows SCANNING and leaves the counter as it
      was; a shot is attempted exactly when the dwell reaches LOCK_FRAME_THRESHOLD, and every
      such shot fires. */
  lemma StandardStepMeaning(s: AlphaState, mode: Mode, tracks: seq<Track<int>>, selection: string, tc: TurretConfig)
    ensures var o := StandardStep(s, mode, tracks, selection, tc);
      var tagged := Tag(tracks, StdName);
      && (o.state.sticky.None? || o.state.sticky.value in Ids(tagged))
      && (mode.Manual? ==>
            (o.state.status == ManualControl && o.shot.None? && o.state.lockCount == s.lockCount
             && o.state.angle == s.angle && o.state.active == NO_ACTIVE))
      && (!mode.Manual? && o.state.sticky.Some? ==>
            (o.state.active == LastWithId(tagged, o.state.sticky).value.center
             && (o.state.status == Tracking || o.state.status == Locked)))
      && (!mode.Manual? && o.state.sticky.None? ==>
            (o.state.status == Scanning && o.shot.None? && o.state.lockCount == s.lockCount && o.state.active == NO_ACTIVE))
      && (!mode.Manual? && o.state.sticky.Some? ==>
            var locked := WithinRadius(SqDist(o.state.active, CROSSHAIR), tc.precisionRadius) && AngleSafe(tc.noFireAngles, o.state.angle);
            (o.state.status == Locked <==> locked)
            && o.state.lockCount == DwellStep(s.lockCount, locked, LOCK_FRAME_THRESHOLD).count
            && (o.shot.Some? <==> DwellStep(s.lockCount, locked, LOCK_FRAME_THRESHOLD).fire))
      && (o.state.status == Locked ==>
            (WithinRadius(SqDist(o.state.active, CROSSHAIR), tc.precisionRadius) && AngleSafe(tc.noFireAngles, o.state.angle)))
      && (o.state.status == Tracking ==> o.state.lockCount == 0)
      && (o.state.status == Locked && o.shot.None? ==> o.state.lockCount == s.lockCount + 1)
      && (o.shot.Some? <==> o.state.status == Locked && s.lockCount + 1 >= LOCK_FRAME_THRESHOLD)
      && (o.shot.Some? ==> o.shot == Some(true))
      && (s.lockCount < LOCK_FRAME_THRESHOLD ==> o.state.lockCount < LOCK_FRAME_THRESHOLD)
      && (InDomain(s.angle) ==> InDomain(o.state.angle))
      && o.state.mission == s.mission
  {
    var tagged := Tag(tracks, StdName);
    var sticky := LowestIdSelect(mode, tagged, selection, s.sticky);
    LowestIdSelectCases(mode, tagged, selection, s.sticky);
    AimThroughBounds(s.angle, tagged, sticky, CROSSHAIR, tc.deadzone);
  }

  /** The memory tick only stays or advances one phase along the mission cycle; it keeps the
      invariant; it never changes the sticky id, the status or the active target; and a
      shot, which always fires, is attempted only while ENGAGING a track of the mission's
      class. While ENGAGING, the first match moves the turret by the nudge, and the counter
      and the shot follow the dwell on the strict radius and the nudged angle's safety; no
      match zeroes the counter. */
  lemma MemoryStepMeaning(s: AlphaState, tracks: seq<Track<int>>, letter: Option<char>, selection: string, tc: TurretConfig)
    requires AlphaInv(s)
    ensures var o := MemoryStep(s, tracks, letter, selection, tc);
      && TickMove(s.mission.phase, o.state.mission.phase)
      && AlphaInv(o.state)
      && o.state.sticky == s.sticky && o.state.status == s.status && o.state.active == s.active
      && (o.shot.Some? ==>
            (s.mission.phase.Engaging? && o.shot == Some(true)
             && FirstMatch(tracks, AlphaEngagesWith(s.mission.targetClass)).Some?))
      && (s.mission.phase.Engaging? && FirstMatch(tracks, AlphaEngagesWith(s.mission.targetClass)).None? ==>
            o.state == s.(lockCount := 0))
      && (s.mission.phase.Engaging? && FirstMatch(tracks, AlphaEngagesWith(s.mission.targetClass)).Some? ==>
            var c := Center(tracks[FirstMatch(tracks, AlphaEngagesWith(s.mission.targetClass)).value].box);
            var locked := InsideRadius(SqDist(c, CROSSHAIR), tc.precisionRadius) && AngleSafe(tc.noFireAngles, o.state.angle);
            && o.state.angle == NudgeAngle(s.angle, c.0 - CROSSHAIR.0, tc.deadzone)
            && o.state.mission == s.mission
            && o.state.lockCount == DwellStep(s.lockCount, locked, LOCK_FRAME_THRESHOLD).count
            && (o.shot.Some? <==> DwellStep(s.lockCount, locked, LOCK_FRAME_THRESHOLD).fire))
  {
    var m := s.mission;
    if m.phase.ScanClass? {
      var choices := AlphaChoices(tracks);
      var pick := PickClass(choices, selection);
      if pick.Some? {
        var k :| 0 <= k < |choices| && choices[k] == Choice(selection, pick.value);
        assert pick.value == "Unknown" || pick.value in MEMORY_CLASS_NAMES;
      }
    } else if m.phase.Seeking? {
      assert InDomain(PlatformAngle(PLATFORM_ANGLES, m.platform));
    }
  }

  /** The SCAN_OCR and RETURNING rules: a read letter extends the streak and the
      threshold-th one locks the platform; RETURNING arrives at home and clears platform and
      class, but leaves the OCR streak as it was. */
  lemma MemoryStepScanAndReturn(s: AlphaState, tracks: seq<Track<int>>, letter: Option<char>, selection: string, tc: TurretConfig)
    ensures var o := MemoryStep(s, tracks, letter, selection, tc);
      var m := s.mission;
      && (m.phase.ScanOcr? && letter.None? ==> o.state.mission == m.(ocrStreak := 0))
      && (m.phase.ScanOcr? && letter.Some? && m.ocrStreak + 1 < LOCK_FRAME_THRESHOLD ==>
            o.state.mission == m.(ocrStreak := m.ocrStreak + 1))
      && (m.phase.ScanOcr? && letter.Some? && m.ocrStreak + 1 >= LOCK_FRAME_THRESHOLD ==>
            o.state.mission == m.(phase := ScanClass, platform := letter, ocrStreak := 0))
      && (m.phase.ScanClass? ==>
            (o.state.mission.phase.Waiting? <==>
               (selection != "None" && exists i :: 0 <= i < |AlphaChoices(tracks)| && AlphaChoices(tracks)[i].uid == selection)))
      && (m.phase.Returning? && Abs(s.angle - HOME_ANGLE) < ARRIVAL_TOLERANCE ==>
            (o.state.mission == MissionRec(ScanOcr, None, None, m.ocrStreak) && o.state.angle == HOME_ANGLE))
  {
    if s.mission.phase.ScanClass? {
      var choices := AlphaChoices(tracks);
      var pick := PickClass(choices, selection);
      var o := MemoryStep(s, tracks, letter, selection, tc);
      if pick.Some? {
        var k :| 0 <= k < |choices| && choices[k] == Choice(selection, pick.value);
        assert AlphaChoices(tracks)[k].uid == selection;
        assert o.state.mission.phase.Waiting?;
      } else {
        assert !o.state.mission.phase.Waiting?;
      }
    }
  }

  /** In any reachable state EXECUTE from a WAITING mission in MEMORY mode always starts the
      mission: the "incomplete mission data" refusal cannot happen. */
  lemma ExecuteAlwaysStarts(s: AlphaState, mode: Mode)
    requires AlphaInv(s) && mode.Memory? && s.mission.phase.Waiting?
    ensures ExecuteStep(s.mission, mode) == s.mission.(phase := Seeking)
  {
  }

  /** A mode change always clears the sticky id and the counter, keeps the mission exactly
      when the new mode is MEMORY, and keeps the invariant. */
  lemma ResetStepMeaning(s: AlphaState, mode: Mode)
    requires AlphaInv(s)
    ensures var n := ResetStep(s, mode);
      && n.sticky.None? && n.lockCount == 0
      && (mode.Memory? ==> n.mission == s.mission)
      && (!mode.Memory? ==> n.mission == INITIAL_MISSION)
      && AlphaInv(n)
  {
  }

  /** The manual trigger is only pulled in MANUAL mode, and fires exactly at a safe angle. */
  lemma ManualShotMeaning(s: AlphaState, mode: Mode, tc: TurretConfig)
    ensures ManualShot(s, mode, tc).Some? <==> mode.Manual?
    ensures ManualShot(s, mode, tc) == Some(true) <==> mode.Manual? && AngleSafe(tc.noFireAngles, s.angle)
  {
  }

  /** Every event keeps the invariant. */
  lemma EventKeepsInvariant(s: AlphaState, e: Event, tc: TurretConfig)
    requires AlphaInv(s)
    ensures AlphaInv(EventStep(s, e, tc))
  {
    match e
    case Tick(frame) =>
      if frame.Some? {
        var f := frame.value;
        if f.mode.Memory? {
          MemoryStepMeaning(s, f.tracks, f.letter, f.selection, tc);
        } else {
          StandardStepMeaning(s, f.mode, f.tracks, f.selection, tc);
        }
      }
    case ModeChange(mode) =>
      ResetStepMeaning(s, mode);
    case Execute(_) =>
    case GoHome =>
    case Jog(_, _) =>
    case Trigger(_) =>
  }

  /** The invariant holds after any run of frames and commands from a state that has it. */
  lemma {:induction false} RunKeepsInvariant(s: AlphaState, events: seq<Event>, tc: TurretConfig)
    requires AlphaInv(s)
    ensures AlphaInv(Run(s, events, tc))
    decreases |events|
  {
    if events != [] {
      EventKeepsInvariant(s, events[0], tc);
      RunKeepsInvariant(EventStep(s, events[0], tc), events[1..], tc);
    }
  }

  /** The loop that builds the SCAN_CLASS dropdown list. */
  method CollectChoices(tracks: seq<Track<int>>) returns (choices: seq<Choice>)
    ensures choices == AlphaChoices(tracks)
  {
    choices := [];
    var i := 0;
    while i < |tracks|
      invariant 0 <= i <= |tracks|
      invariant choices == AlphaChoices(tracks[..i])
    {
      assert tracks[..i + 1][..i] == tracks[..i];
      var t := tracks[i];
      if t.confirmed && t.detClass.Some? {
        var name := MemName(t.detClass.value).GetOr("Unknown");
        choices := choices + [Choice(LabelId(name, t.trackId), name)];
      }
      i := i + 1;
    }
    assert tracks[..|tracks|] == tracks;
  }

  /** The ENGAGING scan: the index of the first track that matches the memorised class,
      where the loop breaks. */
  method FindTarget(tracks: seq<Track<int>>, targetClass: Option<string>) returns (k: Option<nat>)
    ensures k == FirstMatch(tracks, AlphaEngagesWith(targetClass))
  {
    k := None;
    var i := 0;
    while i < |tracks|
      invariant 0 <= i <= |tracks|
      invariant forall j :: 0 <= j < i ==> !AlphaEngages(tracks[j], targetClass)
    {
      if AlphaEngages(tracks[i], targetClass) {
        FirstMatchAt(tracks, AlphaEngagesWith(targetClass), i);
        return Some(i);
      }
      i := i + 1;
    }
  }

  // ---------------------------------------------------------------------------------
  // The system object.

  class AegisSystem {
    const turret: TurretController
    var lockCount: nat
    var currentStatus: Status
    var active: Point
    var stickyId: Option<string>
    var memState: Phase
    var memPlatform: Option<char>
    var memClass: Option<string>
    var memOcrCounter: nat

    function State(): AlphaState
      reads this, turret
    {
      AlphaState(lockCount, currentStatus, active, stickyId,
                 MissionRec(memState, memPlatform, memClass, memOcrCounter), turret.currentAngle, turret.targetAngle)
    }

    constructor ()
      ensures turret.cfg == ALPHA_CONFIG && fresh(turret)
      ensures State() == INITIAL_STATE
    {
      turret := new TurretController(ALPHA_CONFIG);
      stickyId := None;
      lockCount := 0;
      currentStatus := Scanning;
      active := NO_ACTIVE;
      memState := ScanOcr;
      memPlatform := None;
      memClass := None;
      memOcrCounter := 0;
    }

    method JoyCmd(mode: Mode, dir: Direction)
      modifies turret`currentAngle
      ensures State() == EventStep(old(State()), Jog(mode, dir), turret.cfg)
    {
      if mode.Manual? {
        turret.ManualMove(dir);
      }
    }

    method ResetSystem(mode: Mode)
      modifies this
      ensures State() == ResetStep(old(State()), mode)
    {
      stickyId := None;
      lockCount := 0;
      if !mode.Memory? {
        memState := ScanOcr;
        memPlatform := None;
        memClass := None;
        memOcrCounter := 0;
      }
    }

    method ExecuteMemoryMission(mode: Mode)
      modifies this`memState
      ensures State() == EventStep(old(State()), Execute(mode), turret.cfg)
    {
      if !mode.Memory? {
        return;
      }
      if memState != Waiting {
        return;
      }
      if memPlatform.None? || memClass.None? || memClass.value == "" {
        return;
      }
      memState := Seeking;
    }

    method ReturnHome()
      modifies turret, this`memState
      ensures State() == ReturnHomeStep(old(State()))
    {
      var arrived := turret.PanToAngle(HOME_ANGLE);
      if !arrived {
        memState := Returning;
      }
    }

    method ManualFire(mode: Mode) returns (shot: Option<bool>)
      ensures shot == ManualShot(State(), mode, turret.cfg)
    {
      if !mode.Manual? {
        return None;
      }
      var fired := turret.Discharge(CROSSHAIR, CROSSHAIR, true);
      return Some(fired);
    }

    method HandleMemoryMode(tracks: seq<Track<int>>, letter: Option<char>, selection: string) returns (shot: Option<bool>)
      modifies this, turret
      ensures Outcome(State(), shot) == MemoryStep(old(State()), tracks, letter, selection, turret.cfg)
    {
      shot := None;
      if memState == ScanOcr {
        if letter.Some? {
          memOcrCounter := memOcrCounter + 1;
          if memOcrCounter >= LOCK_FRAME_THRESHOLD {
            memPlatform := letter;
            memState := ScanClass;
            memOcrCounter := 0;
          }
        } else {
          memOcrCounter := 0;
        }
      } else if memState == ScanClass {
        var choices := CollectChoices(tracks);
        var pick := PickClass(choices, selection);
        if pick.Some? {
          memClass := pick;
          memState := Waiting;
        }
      } else if memState == Seeking {
        var target := PlatformAngle(PLATFORM_ANGLES, memPlatform);
        var arrived := turret.PanToAngle(target);
        if arrived {
          memState := Engaging;
        }
      } else if memState == Engaging {
        var k := FindTarget(tracks, memClass);
        if k.Some? {
          var c := Center(tracks[k.value].box);
          turret.CalculateMotorAdjustments(c.0, c.1, CROSSHAIR);
          var safe := turret.IsAngleSafe(None);
          shot := Charge(c, InsideRadius(SqDist(c, CROSSHAIR), turret.cfg.precisionRadius) && safe);
        } else {
          lockCount := 0;
        }
      } else if memState == Returning {
        var arrived := turret.PanToAngle(HOME_ANGLE);
        if arrived {
          memState := ScanOcr;
          memPlatform := None;
          memClass := None;
        }
      }
    }

    /** One dwell tick of the auto-fire charge on a target at `aim`, given this tick's lock
        condition: the counter follows DwellStep, and when it fires `discharge` is called. */
    method Charge(aim: Point, locked: bool) returns (shot: Option<bool>)
      modifies this`lockCount
      ensures var d := DwellStep(old(lockCount), locked, LOCK_FRAME_THRESHOLD);
        && lockCount == d.count
        && shot == (if d.fire then Some(ShotValid(turret.cfg, turret.currentAngle, aim, CROSSHAIR, false)) else None)
    {
      shot := None;
      if locked {
        lockCount := lockCount + 1;
        if lockCount >= LOCK_FRAME_THRESHOLD {
          var fired := turret.Discharge(aim, CROSSHAIR, false);
          shot := Some(fired);
          lockCount := 0;
        }
      } else {
        lockCount := 0;
      }
    }

    method HandleStandardModes(mode: Mode, tracks: seq<Track<int>>, selection: string) returns (shot: Option<bool>)
      modifies this, turret
      ensures Outcome(State(), shot) == StandardStep(old(State()), mode, tracks, selection, turret.cfg)
    {
      var tagged := Tag(tracks, StdName);
      stickyId := SelectLowestId(mode, tagged, selection, stickyId);
      shot := TrackSticky(mode, tagged);
    }

    /** The tracking loop and the auto-fire charge on the sticky id already chosen. */
    method TrackSticky(mode: Mode, tagged: seq<Tagged>) returns (shot: Option<bool>)
      modifies this`currentStatus, this`active, this`lockCount, turret`currentAngle
      ensures Outcome(State(), shot) == TrackStep(old(State()), mode, tagged, turret.cfg)
    {
      currentStatus := Scanning;
      active := NO_ACTIVE;
      var primary := AimAtSticky(turret, tagged, stickyId, !mode.Manual?, CROSSHAIR);
      if primary.Some? {
        active := primary.value.center;
        currentStatus := Tracking;
      }

      shot := None;
      if !mode.Manual? && primary.Some? {
        var safe := turret.IsAngleSafe(None);
        var locked := WithinRadius(SqDist(active, CROSSHAIR), turret.cfg.precisionRadius) && safe;
        if locked {
          currentStatus := Locked;
        }
        shot := Charge(active, locked);
      } else if mode.Manual? {
        currentStatus := ManualControl;
      }
    }

    /** `update_loop`: a failed camera read leaves everything as it was. */
    method UpdateLoop(frame: Option<Frame<int>>) returns (shot: Option<bool>)
      modifies this, turret
      ensures frame.None? ==> State() == old(State()) && shot.None?
      ensures frame.Some? ==> Outcome(State(), shot) == TickStep(old(State()), frame.value, turret.cfg)
    {
      if frame.None? {
        return None;
      }
      var f := frame.value;
      if f.mode.Memory? {
        shot := HandleMemoryMode(f.tracks, f.letter, f.selection);
      } else {
        shot := HandleStandardModes(f.mode, f.tracks, f.selection);
      }
    }
  }
}
