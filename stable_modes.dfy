// The two tick handlers of the Stable variant. The standard tick labels the confirmed
// tracks, filters them by mode, updates the sticky id (CHERRY-PICK selection, or the nearest
// candidate with a 50-pixel hysteresis) and steers toward it; the memory tick advances the
// six-phase mission. Each method is specified by a step function on the controller state,
// and the lemmas state what those steps promise.
module StableModes {
  import opened Base
  import opened AlphaTurret
  import opened Mission
  import opened Targeting
  import opened StableControl

  // ---------------------------------------------------------------------------------
  // Standard tick.

  /** StandardMode.tick as a function of the controller state. */
  function StandardStep(s: ControlState, mode: Mode, tracks: seq<Track<int>>, selection: string, deadzone: int, crosshair: Point): ControlState {
    var tagged := Tag(tracks, StdName);
    var selected := StableSelect(mode, tagged, selection, s.sticky, crosshair);
    var primary := if mode.Manual? then None else LastWithId(tagged, selected);
    s.(sticky := if mode.Manual? then None else selected,
       status := if mode.Manual? then ManualStatus else if primary.Some? then Tracking else s.status,
       activeTarget := if primary.Some? then Some(primary.value.center) else s.activeTarget,
       angle := if mode.Manual? then s.angle else AimThrough(s.angle, tagged, selected, crosshair, deadzone))
  }

  /** After a standard tick the sticky id is a visible confirmed track or nothing; while it
      holds a target that target is the active one (status TRACKING, turret steered toward
      it); MANUAL ends with no sticky id, status MANUAL and the turret untouched; the mission
      and the lock counter are left alone. */
  lemma StandardStepMeaning(s: ControlState, mode: Mode, tracks: seq<Track<int>>, selection: string, deadzone: int, crosshair: Point)
    ensures var n := StandardStep(s, mode, tracks, selection, deadzone, crosshair);
      var tagged := Tag(tracks, StdName);
      && (n.sticky.None? || n.sticky.value in Ids(tagged))
      && (n.sticky.Some? ==>
            (n.status == Tracking && LastWithId(tagged, n.sticky).Some?
             && n.activeTarget == Some(LastWithId(tagged, n.sticky).value.center)))
      && (mode.Manual? ==> n.sticky.None? && n.status == ManualStatus && n.angle == s.angle)
      && (InDomain(s.angle) ==> InDomain(n.angle))
      && n.mission == s.mission && n.lockCount == s.lockCount
  {
    var tagged := Tag(tracks, StdName);
    var selected := StableSelect(mode, tagged, selection, s.sticky, crosshair);
    StableStickyVisible(mode, tagged, selection, s.sticky, crosshair);
    AimThroughBounds(s.angle, tagged, selected, crosshair, deadzone);
  }

  method StandardTick(ctrl: MissionControl, mode: Mode, tracks: seq<Track<int>>, selection: string)
    modifies ctrl, ctrl.turret
    ensures ctrl.State() == StandardStep(old(ctrl.State()), mode, tracks, selection, ctrl.turret.cfg.deadzone, ctrl.cfg.crosshair)
  {
    var crosshair := ctrl.cfg.crosshair;
    var tagged := Tag(tracks, StdName);
    var visibleIds := Ids(tagged);
    var candidates := FilterCandidates(tagged, mode, None);
    var current := LastWithId(tagged, ctrl.stickyId);

    if mode.CherryPick? {
      if selection != "None" && selection in visibleIds {
        ctrl.stickyId := Some(selection);
      } else if ctrl.stickyId.None? || ctrl.stickyId.value !in visibleIds {
        ctrl.stickyId := None;
      }
    } else if !mode.Manual? {
      if |candidates| == 0 {
        ctrl.stickyId := None;
      } else {
        var b := HeadAfterSort(candidates, DistKey(crosshair));
        var best := candidates[b];
        match current {
          case None =>
            ctrl.stickyId := Some(best.fid);
          case Some(cur) =>
            if HysteresisSwitch(SqDist(best.center, crosshair), SqDist(cur.center, crosshair), HYSTERESIS_PX) {
              ctrl.stickyId := Some(best.fid);
            }
        }
      }
    }

    var primary := AimAtSticky(ctrl.turret, tagged, ctrl.stickyId, !mode.Manual?, crosshair);
    if primary.Some? {
      ctrl.currentStatus := Tracking;
      ctrl.activeTarget := Some(primary.value.center);
    }

    if mode.Manual? {
      ctrl.currentStatus := ManualStatus;
      ctrl.stickyId := None;
    }
  }

  // ---------------------------------------------------------------------------------
  // Memory tick.

  /** The SCAN_CLASS dropdown: every confirmed track as "{shape}_{track_id}", with "Unknown"
      for a class outside MEMORY_CLASS_MAP and class -1 when the track carries none. */
  function StableChoices(tracks: seq<Track<int>>): (r: seq<Choice>)
    ensures |r| <= |tracks|
    decreases |tracks|
  {
    if tracks == [] then []
    else
      var t := tracks[|tracks| - 1];
      var name := MemName(t.detClass.GetOr(-1)).GetOr("Unknown");
      StableChoices(tracks[..|tracks| - 1]) + (if t.confirmed then [Choice(LabelId(name, t.trackId), name)] else [])
  }

  /** The ENGAGING match: a confirmed track whose shape name equals the mission's class (an
      unmapped class has no name). */
  predicate Engages(t: Track<int>, targetClass: Option<string>) {
    t.confirmed && MemName(t.detClass.GetOr(-1)) == targetClass
  }

  function EngagesWith(targetClass: Option<string>): Track<int> -> bool {
    (t: Track<int>) => Engages(t, targetClass)
  }

  /** The centre of the first track that engages, in tracker order. */
  function FirstEngaged(tracks: seq<Track<int>>, targetClass: Option<string>): Option<Point> {
    var k := FirstMatch(tracks, EngagesWith(targetClass));
    if k.Some? then Some(Center(tracks[k.value].box)) else None
  }

  /** MemoryMode.tick as a function of the controller state. */
  function MemoryStep(s: ControlState, tracks: seq<Track<int>>, letter: Option<char>, selection: string, tc: TurretConfig, cfg: ControlConfig): ControlState {
    var m := s.mission;
    match m.phase
    case ScanOcr =>
      var r := OcrStep(m.ocrStreak, letter, cfg.lockFrames);
      s.(mission := if r.committed.Some? then m.(phase := ScanClass, platform := r.committed, ocrStreak := 0)
                    else m.(ocrStreak := r.streak))
    case ScanClass =>
      var pick := PickClass(StableChoices(tracks), selection);
      if pick.Some? then s.(mission := m.(targetClass := pick, phase := Waiting)) else s
    case Seeking =>
      var target := PlatformAngle(cfg.platformAngles, m.platform);
      var r := PanStep(s.angle, target);
      s.(angle := r.angle, targetAngle := target, mission := if r.arrived then m.(phase := Engaging) else m)
    case Engaging =>
      var found := FirstEngaged(tracks, m.targetClass);
      if found.Some? then
        s.(activeTarget := found, status := Locked, angle := NudgeAngle(s.angle, found.value.0 - cfg.crosshair.0, tc.deadzone))
      else s.(lockCount := 0)
    case Returning =>
      var r := PanStep(s.angle, cfg.homeAngle);
      s.(angle := r.angle, targetAngle := cfg.homeAngle, mission := if r.arrived then INITIAL_MISSION else m)
    case Waiting => s
  }

  /** A memory tick only stays or advances one phase along the mission cycle, keeps a ready
      mission ready, never touches the sticky id, and keeps the turret in range when the home
      and platform angles are. */
  lemma MemoryStepCycle(s: ControlState, tracks: seq<Track<int>>, letter: Option<char>, selection: string, tc: TurretConfig, cfg: ControlConfig)
    ensures var n := MemoryStep(s, tracks, letter, selection, tc, cfg);
      && TickMove(s.mission.phase, n.mission.phase)
      && (MissionReady(s.mission) ==> MissionReady(n.mission))
      && n.sticky == s.sticky
      && (InDomain(s.angle) && InDomain(cfg.homeAngle) && InDomain(PlatformAngle(cfg.platformAngles, s.mission.platform)) ==>
            InDomain(n.angle))
  {
  }

  /** The phase rules of the memory tick. SCAN_CLASS commits exactly a listed pick other than
      "None", taking its class name; SEEKING pans to the platform angle and moves on when the
      pan arrives; ENGAGING with no matching track zeroes the counter, and otherwise aims at the
      first match and shows LOCKED; RETURNING resets the mission on arrival. */
  lemma MemoryStepPhases(s: ControlState, tracks: seq<Track<int>>, letter: Option<char>, selection: string, tc: TurretConfig, cfg: ControlConfig)
    ensures var n := MemoryStep(s, tracks, letter, selection, tc, cfg);
      var m := s.mission;
      && (m.phase.ScanClass? ==>
            (n.mission.phase.Waiting? <==> selection != "None" && exists i :: 0 <= i < |StableChoices(tracks)| && StableChoices(tracks)[i].uid == selection)
            && (n.mission.phase.Waiting? ==> Choice(selection, n.mission.targetClass.value) in StableChoices(tracks)))
      && (m.phase.Seeking? ==>
            n.targetAngle == PlatformAngle(cfg.platformAngles, m.platform)
            && (n.mission.phase.Engaging? <==> Abs(s.angle - n.targetAngle) < ARRIVAL_TOLERANCE))
      && (m.phase.Engaging? && (forall i :: 0 <= i < |tracks| ==> !Engages(tracks[i], m.targetClass)) ==>
            n.lockCount == 0 && n.angle == s.angle && n.activeTarget == s.activeTarget)
      && (m.phase.Engaging? && FirstEngaged(tracks, m.targetClass).Some? ==>
            n.status == Locked && n.activeTarget == FirstEngaged(tracks, m.targetClass) && n.lockCount == s.lockCount)
      && (m.phase.Returning? ==>
            (Abs(s.angle - cfg.homeAngle) < ARRIVAL_TOLERANCE ==> n.mission == INITIAL_MISSION && n.angle == cfg.homeAngle))
  {
  }

  /** SCAN_OCR: a read letter extends the streak, a miss resets it, and the streak reaching
      LOCK_FRAMES locks the platform to the letter just read and moves to SCAN_CLASS. */
  lemma MemoryStepOcr(s: ControlState, tracks: seq<Track<int>>, letter: Option<char>, selection: string, tc: TurretConfig, cfg: ControlConfig)
    requires s.mission.phase.ScanOcr?
    ensures var n := MemoryStep(s, tracks, letter, selection, tc, cfg);
      && (letter.None? ==> n.mission == s.mission.(ocrStreak := 0))
      && (letter.Some? && s.mission.ocrStreak + 1 < cfg.lockFrames ==> n.mission == s.mission.(ocrStreak := s.mission.ocrStreak + 1))
      && (letter.Some? && s.mission.ocrStreak + 1 >= cfg.lockFrames ==>
            n.mission == s.mission.(phase := ScanClass, platform := letter, ocrStreak := 0))
  {
  }

  /** The dropdown list of the memory mode: one entry per confirmed track, in track order. */
  method CollectChoices(tracks: seq<Track<int>>) returns (choices: seq<Choice>)
    ensures choices == StableChoices(tracks)
  {
    choices := [];
    var i := 0;
    while i < |tracks|
      invariant 0 <= i <= |tracks|
      invariant choices == StableChoices(tracks[..i])
    {
      assert tracks[..i + 1][..i] == tracks[..i];
      var t := tracks[i];
      if t.confirmed {
        var name := MemName(t.detClass.GetOr(-1)).GetOr("Unknown");
        choices := choices + [Choice(LabelId(name, t.trackId), name)];
      }
      i := i + 1;
    }
    assert tracks[..|tracks|] == tracks;
  }

  /** The ENGAGING scan, which breaks at the first track of the memorised class: the centre
      of that track, if any. */
  method FindTarget(tracks: seq<Track<int>>, targetClass: Option<string>) returns (found: Option<Point>)
    ensures found == FirstEngaged(tracks, targetClass)
  {
    found := None;
    var i := 0;
    while i < |tracks|
      invariant 0 <= i <= |tracks|
      invariant forall j :: 0 <= j < i ==> !Engages(tracks[j], targetClass)
    {
      var t := tracks[i];
      if Engages(t, targetClass) {
        FirstMatchAt(tracks, EngagesWith(targetClass), i);
        return Some(Center(t.box));
      }
      i := i + 1;
    }
  }

  method MemoryTick(ctrl: MissionControl, tracks: seq<Track<int>>, letter: Option<char>, selection: string)
    modifies ctrl, ctrl.turret
    ensures ctrl.State() == MemoryStep(old(ctrl.State()), tracks, letter, selection, ctrl.turret.cfg, ctrl.cfg)
  {
    var state := ctrl.memState;
    if state == ScanOcr {
      if letter.Some? {
        ctrl.memOcrCounter := ctrl.memOcrCounter + 1;
        if ctrl.memOcrCounter >= ctrl.cfg.lockFrames {
          ctrl.memPlatform := letter;
          ctrl.memState := ScanClass;
          ctrl.memOcrCounter := 0;
        }
      } else {
        ctrl.memOcrCounter := 0;
      }
    } else if state == ScanClass {
      var choices := CollectChoices(tracks);
      var pick := PickClass(choices, selection);
      if pick.Some? {
        ctrl.memClass := pick;
        ctrl.memState := Waiting;
      }
    } else if state == Seeking {
      var target := PlatformAngle(ctrl.cfg.platformAngles, ctrl.memPlatform);
      var arrived := ctrl.turret.PanToAngle(target);
      if arrived {
        ctrl.memState := Engaging;
      }
    } else if state == Engaging {
      var found := FindTarget(tracks, ctrl.memClass);
      if found.Some? {
        var c := found.value;
        ctrl.activeTarget := Some(c);
        ctrl.currentStatus := Locked;
        ctrl.turret.CalculateMotorAdjustments(c.0, c.1, ctrl.cfg.crosshair);
      } else {
        ctrl.lockCount := 0;
      }
    } else if state == Returning {
      var arrived := ctrl.turret.PanToAngle(ctrl.cfg.homeAngle);
      if arrived {
        ctrl.ResetMemoryState();
      }
    }
  }

}
