// The testing variant's AegisSystem: the same tracking state and memory mission as the
// alpha variant, but over a turret controller that keeps no pose. The calls its main loop
// makes to the turret's pan, angle-safety and discharge operations have no counterpart in
// that controller, so here the pan's arrival and the angle check are inputs of each step,
// and a discharge is recorded as the aim point of the attempt.
module TestingSystem {
  import opened Base
  import opened Mission
  import opened Targeting
  import opened Dwell
  import opened TestingTurret

  /** LOCK_FRAME_THRESHOLD of the testing configuration. */
  const LOCK_FRAME_THRESHOLD: nat := 5

  const CROSSHAIR: Point := (640, 360)

  const NO_ACTIVE: Point := (-1, -1)

  datatype TestingState = TestingState(
    lockCount: nat, status: Status, active: Point, sticky: Option<string>, mission: MissionRec)

  const INITIAL_STATE := TestingState(0, Scanning, NO_ACTIVE, None, INITIAL_MISSION)

  /** A new state, and the aim point of the automatic discharge a tick attempted. */
  datatype Outcome = Outcome(state: TestingState, attempt: Option<Point>)

  /** What the turret would answer on this tick: whether `pan_to_angle` arrives, and
      whether `is_angle_safe` passes. */
  datatype Readings = Readings(arrived: bool, angleSafe: bool)

  // ---------------------------------------------------------------------------------
  // Memory mode.

  predicate IsFaction(c: string) {
    c == "dost" || c == "dusman"
  }

  /** The SCAN_CLASS pick: a confirmed track whose class is "dost" or "dusman". */
  predicate FactionTrack(t: Track<string>) {
    t.confirmed && t.detClass.Some? && IsFaction(t.detClass.value)
  }

  function FactionTrackWith(): Track<string> -> bool {
    (t: Track<string>) => FactionTrack(t)
  }

  /** The ENGAGING match: a confirmed track whose class (read as "" when absent) is the
      mission's class. */
  predicate TestingEngages(t: Track<string>, targetClass: Option<string>) {
    t.confirmed && Some(t.detClass.GetOr("")) == targetClass
  }

  function TestingEngagesWith(targetClass: Option<string>): Track<string> -> bool {
    (t: Track<string>) => TestingEngages(t, targetClass)
  }

  /** `_handle_memory_mode` as a function of the state. */
  function MemoryStep(s: TestingState, tracks: seq<Track<string>>, letter: Option<char>, rd: Readings): Outcome {
    var m := s.mission;
    match m.phase
    case ScanOcr =>
      var r := OcrStep(m.ocrStreak, letter, LOCK_FRAME_THRESHOLD);
      Outcome(s.(mission := if r.committed.Some? then m.(phase := ScanClass, platform := r.committed, ocrStreak := 0)
                            else m.(ocrStreak := r.streak)), None)
    case ScanClass =>
      var k := FirstMatch(tracks, FactionTrackWith());
      Outcome(if k.Some? then s.(mission := m.(targetClass := tracks[k.value].detClass, phase := Waiting)) else s, None)
    case Seeking =>
      Outcome(if rd.arrived then s.(mission := m.(phase := Engaging)) else s, None)
    case Engaging =>
      var k := FirstMatch(tracks, TestingEngagesWith(m.targetClass));
      if k.None? then Outcome(s, None)
      else
        var c := Center(tracks[k.value].box);
        Outcome(s, if InsideRadius(SqDist(c, CROSSHAIR), TESTING_PRECISION_RADIUS) && rd.angleSafe then Some(c) else None)
    case Returning =>
      Outcome(if rd.arrived then s.(mission := m.(phase := ScanOcr, platform := None, targetClass := None)) else s, None)
    case Waiting => Outcome(s, None)
  }

  // ---------------------------------------------------------------------------------
  // Standard modes.

  /** `_handle_standard_modes` as a function of the state: the sticky selection, then the
      tracking and automatic fire control on the selected id. */
  function StandardStep(s: TestingState, mode: Mode, tracks: seq<Track<string>>, selection: string, angleSafe: bool): Outcome {
    var tagged := Tag(tracks, TestingName);
    TrackStep(s.(sticky := LowestIdSelect(mode, tagged, selection, s.sticky)), mode, tagged, angleSafe)
  }

  /** The tracking and fire-control half of the standard tick, on the sticky id `s` holds. */
  function TrackStep(s: TestingState, mode: Mode, tagged: seq<Tagged>, angleSafe: bool): Outcome {
    var primary := if mode.Manual? then None else LastWithId(tagged, s.sticky);
    var base := s.(status := Scanning, active := NO_ACTIVE);
    if mode.Manual? then Outcome(base.(status := ManualControl), None)
    else if primary.None? then Outcome(base, None)
    else
      var aim := primary.value.center;
      var locked := WithinRadius(SqDist(aim, CROSSHAIR), TESTING_PRECISION_RADIUS) && angleSafe;
      var d := DwellStep(s.lockCount, locked, LOCK_FRAME_THRESHOLD);
      Outcome(base.(active := aim, status := if locked then Locked else Tracking, lockCount := d.count),
              if d.fire then Some(aim) else None)
  }

  /** One pass of `update_loop` on a frame that was read. */
  function TickStep(s: TestingState, f: Frame<string>, rd: Readings): Outcome {
    if f.mode.Memory? then MemoryStep(s, f.tracks, f.letter, rd)
    else StandardStep(s, f.mode, f.tracks, f.selection, rd.angleSafe)
  }

  // ---------------------------------------------------------------------------------
  // Operator commands.

  /** `reset_system` on a change to `mode`. */
  function ResetStep(s: TestingState, mode: Mode): TestingState {
    s.(sticky := None, lockCount := 0, mission := if mode.Memory? then s.mission else INITIAL_MISSION)
  }

  /** `execute_memory_mission`. */
  function ExecuteStep(m: MissionRec, mode: Mode): MissionRec {
    if mode.Memory? && m.phase.Waiting? && m.platform.Some? && m.targetClass.Some? && m.targetClass.value != ""
    then m.(phase := Seeking)
    else m
  }

  /** `return_home`, with the pan's arrival as an input. */
  function ReturnHomeStep(s: TestingState, arrived: bool): TestingState {
    if arrived then s else s.(mission := s.mission.(phase := Returning))
  }

  /** A frame (read or not) with the turret's readings, a change of mode, EXECUTE, and RETURN
      HOME with the pan's arrival. */
  datatype Event =
    | Tick(frame: Option<Frame<string>>, rd: Readings)
    | ModeChange(mode: Mode)
    | Execute(mode: Mode)
    | GoHome(arrived: bool)

  function EventStep(s: TestingState, e: Event): TestingState {
    match e
    case Tick(frame, rd) => if frame.Some? then TickStep(s, frame.value, rd).state else s
    case ModeChange(mode) => ResetStep(s, mode)
    case Execute(mode) => s.(mission := ExecuteStep(s.mission, mode))
    case GoHome(arrived) => ReturnHomeStep(s, arrived)
  }

  function Run(s: TestingState, events: seq<Event>): TestingState
    decreases |events|
  {
    if events == [] then s else Run(EventStep(s, events[0]), events[1..])
  }

  // ---------------------------------------------------------------------------------
  // What the steps promise.

  /** The lock counter and the OCR streak stay below the threshold, the mission knows what
      its phase needs, and a chosen class is "dost" or "dusman". */
  predicate TestingInv(s: TestingState) {
    && s.lockCount < LOCK_FRAME_THRESHOLD
    && s.mission.ocrStreak < LOCK_FRAME_THRESHOLD
    && MissionReady(s.mission)
    && (s.mission.targetClass.Some? ==> IsFaction(s.mission.targetClass.value))
  }

  lemma InitialStateInvariant()
    ensures TestingInv(INITIAL_STATE)
  {
  }

  /** The standard tick: the sticky id is a visible confirmed track or nothing; MANUAL shows
      MANUAL_CONTROL and neither fires nor touches the counter; otherwise a held sticky id is
      the active target, LOCKED exactly when inside the radius with the angle check passing,
      with the counter counting up on a held lock and dropping to zero when it breaks; no
      visible target shows SCANNING and leaves the counter as it was; and
      a discharge is attempted, at the active target, exactly when a LOCKED dwell reaches the
      threshold. */
  lemma StandardStepMeaning(s: TestingState, mode: Mode, tracks: seq<Track<string>>, selection: string, angleSafe: bool)
    ensures var o := StandardStep(s, mode, tracks, selection, angleSafe);
      var tagged := Tag(tracks, TestingName);
      && (o.state.sticky.None? || o.state.sticky.value in Ids(tagged))
      && (mode.Manual? ==>
            (o.state.status == ManualControl && o.attempt.None? && o.state.lockCount == s.lockCount && o.state.active == NO_ACTIVE))
      && (!mode.Manual? && o.state.sticky.Some? ==>
            (o.state.active == LastWithId(tagged, o.state.sticky).value.center
             && (o.state.status == Tracking || o.state.status == Locked)))
      && (!mode.Manual? && o.state.sticky.None? ==>
            (o.state.status == Scanning && o.attempt.None? && o.state.lockCount == s.lockCount))
      && (!mode.Manual? && o.state.sticky.Some? ==>
            var locked := WithinRadius(SqDist(o.state.active, CROSSHAIR), TESTING_PRECISION_RADIUS) && angleSafe;
            (o.state.status == Locked <==> locked)
            && o.state.lockCount == DwellStep(s.lockCount, locked, LOCK_FRAME_THRESHOLD).count
            && (o.attempt.Some? <==> DwellStep(s.lockCount, locked, LOCK_FRAME_THRESHOLD).fire))
      && (o.state.status == Locked ==> WithinRadius(SqDist(o.state.active, CROSSHAIR), TESTING_PRECISION_RADIUS) && angleSafe)
      && (o.state.status == Tracking ==> o.state.lockCount == 0)
      && (o.state.status == Locked && o.attempt.None? ==> o.state.lockCount == s.lockCount + 1)
      && (o.attempt.Some? <==> o.state.status == Locked && s.lockCount + 1 >= LOCK_FRAME_THRESHOLD)
      && (o.attempt.Some? ==> o.attempt == Some(o.state.active))
      && (s.lockCount < LOCK_FRAME_THRESHOLD ==> o.state.lockCount < LOCK_FRAME_THRESHOLD)
      && o.state.mission == s.mission
  {
    LowestIdSelectCases(mode, Tag(tracks, TestingName), selection, s.sticky);
  }

  /** The memory tick only stays or advances one phase along the mission cycle, keeps the
      invariant, and changes nothing but the mission: never the counter, the status, the
      active target or the sticky id. */
  lemma MemoryStepMeaning(s: TestingState, tracks: seq<Track<string>>, letter: Option<char>, rd: Readings)
    requires TestingInv(s)
    ensures var o := MemoryStep(s, tracks, letter, rd);
      && TickMove(s.mission.phase, o.state.mission.phase)
      && TestingInv(o.state)
      && o.state == s.(mission := o.state.mission)
      && (o.attempt.Some? ==> s.mission.phase.Engaging?)
  {
  }

  /** SCAN_CLASS commits, without any operator pick, the class of the first confirmed track
      whose class is "dost" or "dusman", and waits while there is none. */
  lemma ScanClassAutoCommits(s: TestingState, tracks: seq<Track<string>>, letter: Option<char>, rd: Readings)
    requires s.mission.phase.ScanClass?
    ensures var o := MemoryStep(s, tracks, letter, rd);
      var k := FirstMatch(tracks, FactionTrackWith());
      && (o.state.mission.phase.Waiting? <==> exists i :: 0 <= i < |tracks| && FactionTrack(tracks[i]))
      && (!o.state.mission.phase.Waiting? ==> o.state == s)
      && (k.Some? ==>
            (o.state.mission.targetClass == tracks[k.value].detClass
             && IsFaction(o.state.mission.targetClass.value)
             && forall j :: 0 <= j < k.value ==> !FactionTrack(tracks[j])))
      && o.attempt.None?
  {
    var k := FirstMatch(tracks, FactionTrackWith());
    if k.None? {
      assert forall i :: 0 <= i < |tracks| ==> !FactionTrackWith()(tracks[i]);
    }
  }

  /** ENGAGING attempts a discharge at the first confirmed track of the mission's class on
      every tick it is strictly inside the precision radius at a safe angle: there is no
      dwell, and the state, the lock counter included, does not change. */
  lemma EngagingFiresAtOnce(s: TestingState, tracks: seq<Track<string>>, letter: Option<char>, rd: Readings)
    requires s.mission.phase.Engaging?
    ensures var o := MemoryStep(s, tracks, letter, rd);
      var k := FirstMatch(tracks, TestingEngagesWith(s.mission.targetClass));
      && o.state == s
      && (k.None? ==> o.attempt.None?)
      && (k.Some? ==>
            var c := Center(tracks[k.value].box);
            && TestingEngages(tracks[k.value], s.mission.targetClass)
            && o.attempt == (if InsideRadius(SqDist(c, CROSSHAIR), TESTING_PRECISION_RADIUS) && rd.angleSafe then Some(c) else None))
  {
  }

  /** In any reachable state EXECUTE from a WAITING mission in MEMORY mode always starts it. */
  lemma ExecuteAlwaysStarts(s: TestingState, mode: Mode)
    requires TestingInv(s) && mode.Memory? && s.mission.phase.Waiting?
    ensures ExecuteStep(s.mission, mode) == s.mission.(phase := Seeking)
  {
  }

  /** A mode change drops the sticky id and the lock counter; the mission survives only a
      change to MEMORY, and otherwise restarts from SCAN_OCR with nothing chosen. */
  lemma ResetStepMeaning(s: TestingState, mode: Mode)
    ensures var n := ResetStep(s, mode);
      && n.sticky.None? && n.lockCount == 0
      && (mode.Memory? ==> n.mission == s.mission)
      && (!mode.Memory? ==>
            (n.mission.phase == ScanOcr && n.mission.platform.None? && n.mission.targetClass.None? && n.mission.ocrStreak == 0))
      && (TestingInv(s) ==> TestingInv(n))
      && n.status == s.status && n.active == s.active
  {
  }

  /** Every event keeps the invariant. */
  lemma EventKeepsInvariant(s: TestingState, e: Event)
    requires TestingInv(s)
    ensures TestingInv(EventStep(s, e))
  {
    match e
    case Tick(frame, rd) =>
      if frame.Some? {
        var f := frame.value;
        if f.mode.Memory? {
          MemoryStepMeaning(s, f.tracks, f.letter, rd);
        } else {
          StandardStepMeaning(s, f.mode, f.tracks, f.selection, rd.angleSafe);
        }
      }
    case ModeChange(_) =>
    case Execute(_) =>
    case GoHome(_) =>
  }

  lemma {:induction false} RunKeepsInvariant(s: TestingState, events: seq<Event>)
    requires TestingInv(s)
    ensures TestingInv(Run(s, events))
    decreases |events|
  {
    if events != [] {
      EventKeepsInvariant(s, events[0]);
      RunKeepsInvariant(EventStep(s, events[0]), events[1..]);
    }
  }

  // ---------------------------------------------------------------------------------
  // The system object.

  class AegisSystem {
    var lockCount: nat
    var currentStatus: Status
    var active: Point
    var stickyId: Option<string>
    var memState: Phase
    var memPlatform: Option<char>
    var memClass: Option<string>
    var memOcrCounter: nat

    function State(): TestingState
      reads this
    {
      TestingState(lockCount, currentStatus, active, stickyId, MissionRec(memState, memPlatform, memClass, memOcrCounter))
    }

    constructor ()
      ensures State() == INITIAL_STATE
    {
      stickyId := None;
      lockCount := 0;
      currentStatus := Scanning;
      active := NO_ACTIVE;
      memState := ScanOcr;
      memPlatform := None;
      memClass := None;
      memOcrCounter := 0;
    }

    method ResetSystem(mode: Mode)
      modifies this
      ensures State() == ResetStep(old(State()), mode)
    {
      stickyId := None;
      lockCount := 0;
      if !mode.Memory? {
        memState := ScanOcr;
        memPlatform := None;
        memClass := None;
        memOcrCounter := 0;
      }
    }

    method ExecuteMemoryMission(mode: Mode)
      modifies this`memState
      ensures State() == EventStep(old(State()), Execute(mode))
    {
      if !mode.Memory? {
        return;
      }
      if memState != Waiting {
        return;
      }
      if memPlatform.None? || memClass.None? || memClass.value == "" {
        return;
      }
      memState := Seeking;
    }

    method ReturnHome(arrived: bool)
      modifies this`memState
      ensures State() == ReturnHomeStep(old(State()), arrived)
    {
      if !arrived {
        memState := Returning;
      }
    }

    method HandleMemoryMode(tracks: seq<Track<string>>, letter: Option<char>, rd: Readings) returns (attempt: Option<Point>)
      modifies this
      ensures Outcome(State(), attempt) == MemoryStep(old(State()), tracks, letter, rd)
    {
      attempt := None;
      if memState == ScanOcr {
        if letter.Some? {
          memOcrCounter := memOcrCounter + 1;
          if memOcrCounter >= LOCK_FRAME_THRESHOLD {
            memPlatform := letter;
            memState := ScanClass;
            memOcrCounter := 0;
          }
        } else {
          memOcrCounter := 0;
        }
      } else if memState == ScanClass {
        var i := 0;
        while i < |tracks|
          invariant 0 <= i <= |tracks|
          invariant forall j :: 0 <= j < i ==> !FactionTrack(tracks[j])
          invariant State() == old(State())
        {
          var t := tracks[i];
          if t.confirmed && IsFaction(t.detClass.GetOr("")) {
            FirstMatchAt(tracks, FactionTrackWith(), i);
            memClass := t.detClass;
            memState := Waiting;
            break;
          }
          i := i + 1;
        }
      } else if memState == Seeking {
        if rd.arrived {
          memState := Engaging;
        }
      } else if memState == Engaging {
        var i := 0;
        while i < |tracks|
          invariant 0 <= i <= |tracks|
          invariant forall j :: 0 <= j < i ==> !TestingEngages(tracks[j], memClass)
          invariant attempt.None?
        {
          var t := tracks[i];
          if t.confirmed && Some(t.detClass.GetOr("")) == memClass {
            FirstMatchAt(tracks, TestingEngagesWith(memClass), i);
            var c := Center(t.box);
            if InsideRadius(SqDist(c, CROSSHAIR), TESTING_PRECISION_RADIUS) && rd.angleSafe {
              attempt := Some(c);
            }
            break;
          }
          i := i + 1;
        }
      } else if memState == Returning {
        if rd.arrived {
          memState := ScanOcr;
          memPlatform := None;
          memClass := None;
        }
      }
    }

    /** The dwell of the automatic fire control: the aim point is attempted when the
        LOCKED count reaches the threshold. */
    method Charge(aim: Point, locked: bool) returns (attempt: Option<Point>)
      modifies this`lockCount
      ensures var d := DwellStep(old(lockCount), locked, LOCK_FRAME_THRESHOLD);
        lockCount == d.count && attempt == (if d.fire then Some(aim) else None)
    {
      attempt := None;
      if locked {
        lockCount := lockCount + 1;
        if lockCount >= LOCK_FRAME_THRESHOLD {
          attempt := Some(aim);
          lockCount := 0;
        }
      } else {
        lockCount := 0;
      }
    }

    method HandleStandardModes(mode: Mode, tracks: seq<Track<string>>, selection: string, angleSafe: bool)
      returns (attempt: Option<Point>)
      modifies this
      ensures Outcome(State(), attempt) == StandardStep(old(State()), mode, tracks, selection, angleSafe)
    {
      var tagged := Tag(tracks, TestingName);
      stickyId := SelectLowestId(mode, tagged, selection, stickyId);
      attempt := TrackSticky(mode, tagged, angleSafe);
    }

    method TrackSticky(mode: Mode, tagged: seq<Tagged>, angleSafe: bool) returns (attempt: Option<Point>)
      modifies this`currentStatus, this`active, this`lockCount
      ensures Outcome(State(), attempt) == TrackStep(old(State()), mode, tagged, angleSafe)
    {
      currentStatus := Scanning;
      active := NO_ACTIVE;
      var primary: Option<Tagged> := None;
      if !mode.Manual? {
        primary := FindSticky(tagged, stickyId);
      }
      if primary.Some? {
        active := primary.value.center;
        currentStatus := Tracking;
      }

      attempt := None;
      if !mode.Manual? && primary.Some? {
        var locked := WithinRadius(SqDist(active, CROSSHAIR), TESTING_PRECISION_RADIUS) && angleSafe;
        if locked {
          currentStatus := Locked;
        }
        attempt := Charge(active, locked);
      } else if mode.Manual? {
        currentStatus := ManualControl;
      }
    }

    /** `update_loop`: a failed camera read leaves everything as it was. */
    method UpdateLoop(frame: Option<Frame<string>>, rd: Readings) returns (attempt: Option<Point>)
      modifies this
      ensures frame.None? ==> State() == old(State()) && attempt.None?
      ensures frame.Some? ==> Outcome(State(), attempt) == TickStep(old(State()), frame.value, rd)
    {
      if frame.None? {
        return None;
      }
      var f := frame.value;
      if f.mode.Memory? {
        attempt := HandleMemoryMode(f.tracks, f.letter, rd);
      } else {
        attempt := HandleStandardModes(f.mode, f.tracks, f.selection, rd.angleSafe);
      }
    }
  }
}
