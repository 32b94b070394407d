# Aegis turret decision core in Dafny

This project models the decision core of the Aegis camera-guided turret, in the three variants the
repository carries (Stable, alpha and testing), plus the pixel fire-zone predicate of the main software.
The camera, the detector and tracker, the OCR reader and the Tkinter UI are outside the model. A tick
receives the confirmed tracks as records: a track id, the detector's class (absent when the tracker
carries none), the integer box and the confirmed flag. It also receives the OCR letter as an
`Option<char>`, and the mode and dropdown selection as values.

What is modelled:

- **Turret pose and fire safety** (`alpha_turret.dfy`). The alpha `TurretController` is a class with
  `currentAngle` and `targetAngle`.
  - It pans in 2.0/0.5 degree steps and arrives inside 1.0 degree.
  - It jogs by 5 degrees and nudges by 0.05 degree per pixel outside the deadzone, both clamped to
    [-90, 90].
  - `is_angle_safe` is a loop over the no-fire angles. `validate_safety` and `discharge` check the
    angle first, then the precision radius for automatic shots.
- **Testing turret** (`testing_turret.dfy`). It is pure: motor reports, and a strict x-interval safety
  gate followed by the radius test.
- **Dwell counter** (`dwell.dfy`). It counts locked ticks, fires when the count reaches the threshold,
  and resets to 0 on a shot or a broken lock.
- **Target acquisition** (`targeting.dfy`). It covers:
  - `"{name}_{track_id}"` labels;
  - the ALL / RED / BLUE / CHERRY-PICK candidate filter;
  - the Stable nearest-candidate pick with its 50-pixel hysteresis;
  - the alpha/testing lowest-track-id pick;
  - the sticky-id rules, and the tracking loop that nudges the turret.
- **Memory mission** (`mission.dfy`). It has six phases: SCAN_OCR, SCAN_CLASS, WAITING, SEEKING,
  ENGAGING and RETURNING. It includes the OCR streak, the shape-class map, the platform angles and the
  class dropdown.
- **Stable variant.**
  - `stable_control.dfy` holds the class `MissionControl`: the global fire control, EXECUTE, RETURN
    HOME, the resets, and the per-tick reset.
  - `stable_modes.dfy` holds `StandardMode.tick` and `MemoryMode.tick`.
  - `stable_loop.dfy` holds `update_loop`, the operator events, and the invariant over any run.
- **Alpha variant** (`alpha_system.dfy`). The class `AegisSystem`: the standard modes, the memory mode,
  the commands, and the invariant over any run.
- **Testing variant** (`testing_system.dfy`). The class `AegisSystem` over an abstract turret: whether a
  pan arrives and whether the angle is safe are inputs of each tick, and a discharge is recorded as the
  aim point of the attempt.
- **Fire zone** (`firezone.dfy`). A pixel column maps to a bearing, and the zone is the band where
  |bearing| <= cone.

Each class method is proved against a step function on a snapshot of the object's state, for example
`ensures Outcome(State(), shot) == MemoryStep(old(State()), ...)`. The lemmas about those step
functions state what the source promises:

- the dwell schedule and its bounds;
- stickiness and hysteresis;
- the phase cycle of the mission;
- that every shot the global fire control attempts passes `validate_safety`;
- that the controller invariant holds over any sequence of frames and operator commands.

Distances are compared squared: `sqrt(d) <= r` becomes `d <= r*r` when `r >= 0`. The lemmas in `Base`
tie the squared tests to the real comparisons. Python's `// 2` is Dafny's `/ 2`, because the divisor is
positive. Angles are `real`.

Some behaviour of the code is easy to mistake; the model does what the code does:

- the OCR streak counts any recognised letter, not repeats of the same letter;
- the alpha and testing standard modes leave `lock_count` unchanged on a frame with no primary track;
- RETURNING in the alpha and testing variants leaves the OCR counter as it was;
- the Stable variant never returns home by itself after a shot.

## Model

| member | source | states |
|---|---|---|
| Base.FirstMatch | Aegis-software-alpha/main.py:202-234 | the index a break-on-first-match loop stops at: None iff no track matches, else a matching track with no match before it |
| Base.FirstMatchAt | testing-software/main.py:164-183 | a loop that reaches index i with no earlier match and matches at i has found FirstMatch |
| Base.Center | Aegis-Software-Stable/modes.py:106-107 | `((l + r) // 2, (t + b) // 2)`: 2c <= l + r < 2c + 2 on each axis |
| Base.RadiusTestsMeaning | Aegis-Software-Stable/mission_control.py:126-129 | for d = sqrt(sq) and r >= 0, `d <= r` iff WithinRadius and `d < r` iff InsideRadius |
| Base.HysteresisSwitchMeaning | Aegis-Software-Stable/modes.py:94 | for b, c the roots of the squared distances, `b < c - 50` iff the integer test HysteresisSwitch |
| Base.SquareMonotone | Aegis-Software-Stable/modes.py:37 | on non-negative reals, comparing values and comparing their squares agree |
| Text.NatToString | Aegis-Software-Stable/modes.py:30 | `str(track_id)` is a non-empty run of digits with no leading zero |
| Text.NatToStringRoundTrip | Aegis-Software-Stable/modes.py:30 | reading the digits of `str(n)` back yields n |
| Text.ContainsIgnoresSuffix | Aegis-Software-Stable/modes.py:57-58 | a suffix lacking the pattern's last character cannot make `p in s` true |
| Targeting.TagIndices | Aegis-software-alpha/main.py:299 | the tags are exactly the confirmed tracks, in tracker order (strictly increasing positions, every confirmed track present), each with its id label and box centre |
| Targeting.IdsOfTag | Aegis-software-alpha/main.py:299 | an id is offered exactly when some confirmed track carries that `{name}_{track_id}` label |
| Targeting.StdFactionIds | Aegis-Software-Stable/modes.py:27-58 | with the standard CLASS_MAP, an id contains "dusman" iff class 1 and "dost" iff class 0 (whatever the track id) |
| Targeting.TestingFactionIds | testing-software/main.py:247-251 | with class names dost/dusman/unk, the substring tests pick exactly that class |
| Targeting.Candidates | Aegis-software-alpha/main.py:308-319 | a confirmed track is a candidate iff it matches the mode (ALL, RED, BLUE, or CHERRY-PICK on the sticky id) |
| Targeting.FilterCandidates | Aegis-Software-Stable/modes.py:47-60 | the candidate loop builds exactly Candidates |
| Targeting.FirstMinUnique | Aegis-software-alpha/main.py:325 | at most one index is a first minimum of a key |
| Targeting.FirstMin | Aegis-software-alpha/main.py:325 | the head of a stable sort by the key: a minimal key with no equal key before it |
| Targeting.HeadAfterSort | Aegis-Software-Stable/modes.py:76-77 | the head after sorting by the key is FirstMin, and its key is minimal |
| Targeting.LastWithId | Aegis-software-alpha/main.py:333-349 | the track the drawing loop keeps: one carrying the sticky id, None iff the id is not visible |
| Targeting.FindSticky | testing-software/main.py:265-274 | the scan for the primary track returns LastWithId |
| Targeting.StableStickyVisible | Aegis-Software-Stable/modes.py:63-136 | after the Stable tick the sticky id is a visible confirmed id or None |
| Targeting.StableSelectCases | Aegis-Software-Stable/modes.py:63-96 | CHERRY-PICK adopts a visible pick other than "None", else drops an invisible id; an auto mode with no candidate clears; with no held track it takes the nearest candidate; a held track is replaced only by one 50 px closer |
| Targeting.StableSelectIdempotent | Aegis-Software-Stable/modes.py:63-96 | on the same frame a second selection keeps what the first chose |
| Targeting.StableHysteresisRun | Aegis-Software-Stable/modes.py:84-96 | while the held target stays visible and no candidate is 50 px closer, the sticky id never changes over any run of frames |
| Targeting.LowestIdSelectCases | Aegis-software-alpha/main.py:302-326 | the alpha/testing pick: a CHERRY-PICK selection other than "None" is kept iff visible; outside CHERRY-PICK a visible held id is kept; with none held, an auto mode takes the lowest-track-id candidate, or None when there is no candidate; MANUAL and CHERRY-PICK with "None" never acquire (a visible held id is kept, otherwise None); the result is visible or None |
| Targeting.SelectLowestId | Aegis-software-alpha/main.py:302-326 | the sticky update (selection, filter loop, visibility check, sort) computes LowestIdSelect |
| Targeting.CandidatesIgnoreCherry | Aegis-software-alpha/main.py:314-317 | outside CHERRY-PICK the sticky id plays no part in the filter |
| Targeting.LowestIdSelectIdempotent | Aegis-software-alpha/main.py:321-326 | on the same frame a second selection keeps the result |
| Targeting.LowestIdKeptWhileVisible | testing-software/main.py:254-258 | outside CHERRY-PICK a held id survives every frame in which it stays visible |
| Targeting.AimThroughBounds | Aegis-software-alpha/main.py:333-358 | tracking keeps the pan angle in [-90, 90], and leaves it alone without a visible sticky track |
| Targeting.AimAtSticky | Aegis-software-alpha/main.py:333-358 | the tracking loop finds LastWithId and nudges the turret toward each track holding the sticky id |
| Dwell.DwellStep | Aegis-Software-Stable/mission_control.py:129-138 | fires iff locked and the incremented count reaches the threshold; a shot or a broken lock zeroes the count; a held lock that does not fire counts one up; below the threshold stays below |
| Dwell.DwellTrace | Aegis-software-alpha/main.py:371-377 | one fire decision per tick |
| Dwell.DwellCountBound | Aegis-Software-Stable/mission_control.py:129-138 | after any run the counter is in [0, LOCK_FRAMES - 1] |
| Dwell.SteadyLockFiresOnSchedule | testing-software/main.py:291-301 | an unbroken lock from count c fires on its (LOCK_FRAMES - c)-th tick and on no earlier one |
| Mission.OcrStreakCounts | Aegis-software-alpha/main.py:119-134 | below the threshold, consecutive letters count the streak up |
| Mission.OcrCommitsAtThreshold | Aegis-Software-Stable/modes.py:153-171 | LOCK_FRAMES consecutive reads commit the platform to the last letter read and zero the streak |
| Mission.OcrScanSplit | testing-software/main.py:112-124 | a scan that has not committed continues from where it stopped |
| Mission.OcrStreakBound | Aegis-software-alpha/main.py:119-134 | the streak never sits at the threshold, and a missed read zeroes it |
| Mission.MemName | Aegis-software-alpha/config.py:28-38 | MEMORY_CLASS_MAP is defined exactly for classes 0..8, and yields one of the nine shape names |
| Mission.ConfiguredPlatformAngles | Aegis-software-alpha/config.py:42-46 | with the configured PLATFORM_ANGLES, `get(platform, 0.0)` gives -45 for A, +45 for B and 0 for any other letter or none, always within [-90, 90] |
| Mission.Lookup | Aegis-Software-Stable/modes.py:179-189 | the dropdown map: a label maps to a class of a listed entry, and is absent iff no entry has it |
| Mission.PickClass | Aegis-Software-Stable/modes.py:206-212 | a pick commits iff it is not "None" and names a listed entry |
| AlphaTurret.Clamp | Aegis-software-alpha/turret.py:114 | `max(-90, min(90, a))` lands in [-90, 90] and leaves in-range angles alone |
| AlphaTurret.PanStep | Aegis-software-alpha/turret.py:55-79 | arrives (snapping onto the target) iff the gap is under 1 degree; otherwise shrinks the gap by 2.0 (gap > 10) or 0.5, never overshooting, staying in range |
| AlphaTurret.PanArrivesWithin | Aegis-software-alpha/turret.py:63-79 | a pan that starts under 1 + n/2 degrees away reports arrival by the n-th further call |
| AlphaTurret.JogAngle | Aegis-software-alpha/turret.py:86-114 | LEFT -5, RIGHT +5 (or the limit), UP/DOWN only clamp; the result is in range |
| AlphaTurret.NudgeAngle | Aegis-software-alpha/turret.py:124-135 | the angle moves only when abs(dx) > DEADZONE; then it moves by exactly dx * 0.05 when that stays in [-90, 90], and otherwise stops at the limit it passed |
| AlphaTurret.TurretController.constructor | Aegis-software-alpha/turret.py:6-12 | both angles start at 0 |
| AlphaTurret.TurretController.PanToAngle | Aegis-software-alpha/turret.py:49-79 | records the target and moves as PanStep |
| AlphaTurret.TurretController.ManualMove | Aegis-software-alpha/turret.py:81-114 | moves as JogAngle |
| AlphaTurret.TurretController.CalculateMotorAdjustments | Aegis-software-alpha/turret.py:116-135 | moves as NudgeAngle on the horizontal offset; dy never moves it |
| AlphaTurret.TurretController.IsAngleSafe | Aegis-software-alpha/turret.py:143-154 | false iff the checked angle (given or current) is within 2 degrees of some no-fire angle |
| AlphaTurret.TurretController.Discharge | Aegis-software-alpha/turret.py:156-199 | fires iff the angle is safe and, for an automatic shot, the aim is within the precision radius |
| TestingTurret.ReportMotors | testing-software/turret.py:11-23 | a pan (tilt) report exactly when abs(dx) (abs(dy)) exceeds the deadzone, with that offset and its direction |
| TestingTurret.ReportAgreesWithNudge | testing-software/turret.py:20-21 | the testing pan report and the alpha nudge fire on the same offsets |
| TestingTurret.ValidateSafety | testing-software/turret.py:25-47 | passes iff l < x < r and, when automatic, the aim is within the radius |
| TestingTurret.LimitsAreExclusive | testing-software/turret.py:36-38 | an aim column on either bound is blocked |
| TestingTurret.ManualIgnoresRadius | testing-software/turret.py:40-45 | a manual shot is judged on the interval alone |
| TestingTurret.Discharge | testing-software/turret.py:49-66 | returns exactly the verdict of validate_safety |
| FireZones.FireZone.CenterX | Main-Software/firezone.py:4 | `width // 2`: 2c <= width < 2c + 2 |
| FireZones.FireZone.PixelToAngle | Main-Software/firezone.py:8-9 | undefined (None) exactly for width 0 |
| FireZones.FireZone.InFireZone | Main-Software/firezone.py:11-12 | abs(bearing) <= cone, undefined exactly for width 0 |
| FireZones.CenterIsStraightAhead | Main-Software/firezone.py:9 | the centre column has bearing 0 |
| FireZones.AngleSign | Main-Software/firezone.py:9 | for width > 0 and fov > 0 the bearing has the sign of px - center_x |
| FireZones.AngleMagnitude | Main-Software/firezone.py:9 | abs(bearing) * abs(width) = abs(px - center_x) * abs(fov) |
| FireZones.InZoneIff | Main-Software/firezone.py:9-12 | for width > 0, in the zone iff abs(px - center_x) * abs(fov) <= cone * width |
| FireZones.ZoneMonotone | Main-Software/firezone.py:12 | every column at least as close to the centre as an in-zone column is in the zone |
| FireZones.AngleMonotone | Main-Software/firezone.py:8-9 | the size of the bearing never decreases as a column moves away from the centre |
| FireZones.CenterInZone | Main-Software/firezone.py:12 | the centre column is in the zone whenever the cone is not negative |
| StableControl.ExecuteStepMeaning | Aegis-Software-Stable/mission_control.py:64-68 | the mission changes iff MEMORY mode and WAITING, and then only to SEEKING |
| StableControl.ReturnHomeStepMeaning | Aegis-Software-Stable/mission_control.py:70-74 | on arrival the mission is untouched; otherwise RETURNING and strictly closer to home |
| StableControl.GlobalFireStepMeaning | Aegis-Software-Stable/mission_control.py:118-138 | no target or no lock zeroes the counter; a strict-radius lock at a safe angle shows LOCKED and counts; a shot exactly at LOCK_FRAMES, then 0; nothing else changes |
| StableControl.GlobalShotsAlwaysFire | Aegis-Software-Stable/mission_control.py:129-134 | every shot the global fire control attempts passes validate_safety |
| StableControl.ResetStepMeaning | Aegis-Software-Stable/mission_control.py:76-86 | no sticky id and a fresh mission (SCAN_OCR, no platform, no class, streak 0) |
| StableControl.MissionControl.constructor | Aegis-Software-Stable/mission_control.py:24-35 | counter 0, SCANNING, no target, no sticky id, fresh mission, turret at 0 |
| StableControl.MissionControl.JoyCmd | Aegis-Software-Stable/mission_control.py:55-58 | jogs the turret in MANUAL mode only |
| StableControl.MissionControl.ManualFire | Aegis-Software-Stable/mission_control.py:60-62 | a manual shot happens only in MANUAL mode, and fires iff the angle is safe |
| StableControl.MissionControl.ExecuteMemoryMission | Aegis-Software-Stable/mission_control.py:64-68 | applies ExecuteStep |
| StableControl.MissionControl.ReturnHome | Aegis-Software-Stable/mission_control.py:70-74 | applies ReturnHomeStep |
| StableControl.MissionControl.ResetMemoryState | Aegis-Software-Stable/mission_control.py:82-86 | the mission becomes the initial one, nothing else changes |
| StableControl.MissionControl.ResetSystem | Aegis-Software-Stable/mission_control.py:76-80 | applies ResetStep |
| StableControl.MissionControl.BeginTick | Aegis-Software-Stable/mission_control.py:97-99 | SCANNING and no active target |
| StableControl.MissionControl.HandleGlobalFire | Aegis-Software-Stable/mission_control.py:118-138 | applies GlobalFireStep |
| StableModes.StandardStepMeaning | Aegis-Software-Stable/modes.py:19-136 | the sticky id is visible or None; a held id is the active target and shows TRACKING; MANUAL ends with no sticky id, shows MANUAL and leaves the turret still; the turret stays in range; the mission and counter are untouched |
| StableModes.StandardTick | Aegis-Software-Stable/modes.py:19-136 | the tick computes StandardStep |
| StableModes.StableChoices | Aegis-Software-Stable/modes.py:182-189 | one dropdown entry per confirmed track, named by MEMORY_CLASS_MAP or "Unknown" |
| StableModes.CollectChoices | Aegis-Software-Stable/modes.py:182-189 | the loop that builds the dropdown list produces exactly StableChoices of the tracks |
| StableModes.FindTarget | Aegis-Software-Stable/modes.py:236-265 | the ENGAGING loop stops at the first confirmed track of the memorised class and yields its centre, or finds none |
| StableModes.MemoryStepCycle | Aegis-Software-Stable/modes.py:143-280 | a memory tick stays or advances one phase, keeps a ready mission ready, leaves the sticky id alone, and keeps the turret in range when home and platform angles are |
| StableModes.MemoryStepPhases | Aegis-Software-Stable/modes.py:173-280 | SCAN_CLASS commits exactly a listed pick other than "None", with its class name; SEEKING pans to the platform angle and becomes ENGAGING on arrival; ENGAGING aims at the first matching track and shows LOCKED, or zeroes the counter without one; RETURNING resets the mission on arrival |
| StableModes.MemoryStepOcr | Aegis-Software-Stable/modes.py:147-171 | a letter extends the streak, a miss zeroes it, and the LOCK_FRAMES-th read commits the platform |
| StableModes.MemoryTick | Aegis-Software-Stable/modes.py:143-280 | the tick computes MemoryStep |
| StableLoop.UpdateLoop | Aegis-Software-Stable/mission_control.py:89-116 | a failed read changes nothing; otherwise the per-tick reset, the mode's tick, then the global fire control |
| StableLoop.TickShotsFire | Aegis-Software-Stable/mission_control.py:108-109 | every shot of a tick fires |
| StableLoop.ManualTickNeverFires | Aegis-Software-Stable/modes.py:134-136 | a MANUAL tick never fires, zeroes the counter, shows MANUAL and leaves the turret still |
| StableLoop.MemoryShotsOnlyWhileEngaging | Aegis-Software-Stable/modes.py:229-271 | a memory-mode shot happens only while ENGAGING, and the mission stays ENGAGING |
| StableLoop.StandardTickTargetsSticky | Aegis-Software-Stable/modes.py:112-117 | the fire control judges the sticky track; without a sticky id nothing fires |
| StableLoop.TickKeepsInvariant | Aegis-Software-Stable/mission_control.py:89-138 | every tick keeps the invariant and the turret range, and moves the mission along its cycle |
| StableLoop.InitialStateInvariant | Aegis-Software-Stable/mission_control.py:24-35 | the fresh controller satisfies the invariant exactly when LOCK_FRAMES is positive |
| StableLoop.EventKeepsInvariant | Aegis-Software-Stable/mission_control.py:55-116 | every frame or operator command keeps the invariant, and keeps the turret in [-90, 90] when the configured home and platform angles are in range |
| StableLoop.RunKeepsInvariant | Aegis-Software-Stable/mission_control.py:55-116 | the invariant holds after any run of frames and commands, and with the configured angles in range the turret never leaves [-90, 90] |
| StableLoop.StableAnglesInRange | Aegis-Software-Stable/config.py:28-50 | the Stable configuration's home and platform angles lie in [-90, 90] |
| StableLoop.PlatformAngleInRange | Aegis-Software-Stable/modes.py:223 | with the configured angles in range, every platform lookup (the 0.0 default included) is in range |
| AlphaSystem.AlphaChoices | Aegis-software-alpha/main.py:148-160 | dropdown entries only for confirmed tracks with a class, named by the map or "Unknown" |
| AlphaSystem.CollectChoices | Aegis-software-alpha/main.py:148-160 | the loop that builds the dropdown list produces exactly AlphaChoices of the tracks |
| AlphaSystem.FindTarget | Aegis-software-alpha/main.py:200-234 | the ENGAGING loop stops at the first track matching the memorised class, or finds none |
| AlphaSystem.InitialStateInvariant | Aegis-software-alpha/main.py:23-34 | the fresh system satisfies the invariant |
| AlphaSystem.StandardStepMeaning | Aegis-software-alpha/main.py:287-379 | the sticky id is visible or None; MANUAL shows MANUAL_CONTROL and neither moves, fires nor counts; a held id is the active target; with a held id, LOCKED exactly when the aim is within the non-strict radius at a safe angle, the counter is that tick's DwellStep (one up while locked, zero when only TRACKING) and a shot is attempted exactly when it fires; every shot fires |
| AlphaSystem.MemoryStepMeaning | Aegis-software-alpha/main.py:110-257 | a memory tick stays or advances one phase and keeps the invariant; status, active target and sticky id are untouched; a shot only while ENGAGING on a match, and it fires; no match zeroes the counter; on a match the turret takes the nudged angle and the counter and shot follow DwellStep on the strict radius and the safety of the nudged angle |
| AlphaSystem.MemoryStepScanAndReturn | Aegis-software-alpha/main.py:114-247 | the OCR streak rules; SCAN_CLASS waits iff a listed pick is made; RETURNING clears platform and class on arrival but keeps the OCR streak |
| AlphaSystem.ExecuteAlwaysStarts | Aegis-software-alpha/main.py:76-91 | in a reachable state EXECUTE from WAITING in MEMORY mode always starts the mission |
| AlphaSystem.ResetStepMeaning | Aegis-software-alpha/main.py:55-74 | the sticky id and counter are cleared; the mission is kept only on a change to MEMORY |
| AlphaSystem.ManualShotMeaning | Aegis-software-alpha/main.py:101-107 | a manual shot only in MANUAL mode, firing iff the angle is safe |
| AlphaSystem.EventKeepsInvariant | Aegis-software-alpha/main.py:47-273 | every frame or operator command keeps the invariant |
| AlphaSystem.RunKeepsInvariant | Aegis-software-alpha/main.py:47-273 | the invariant holds after any run of frames and commands |
| AlphaSystem.AegisSystem.constructor | Aegis-software-alpha/main.py:10-38 | the initial state |
| AlphaSystem.AegisSystem.JoyCmd | Aegis-software-alpha/main.py:47-53 | jogs the turret in MANUAL mode only |
| AlphaSystem.AegisSystem.ResetSystem | Aegis-software-alpha/main.py:55-74 | applies ResetStep |
| AlphaSystem.AegisSystem.ExecuteMemoryMission | Aegis-software-alpha/main.py:76-91 | applies ExecuteStep |
| AlphaSystem.AegisSystem.ReturnHome | Aegis-software-alpha/main.py:93-99 | applies ReturnHomeStep |
| AlphaSystem.AegisSystem.ManualFire | Aegis-software-alpha/main.py:101-107 | yields ManualShot |
| AlphaSystem.AegisSystem.HandleMemoryMode | Aegis-software-alpha/main.py:110-257 | applies MemoryStep |
| AlphaSystem.AegisSystem.Charge | Aegis-software-alpha/main.py:371-377 | the counter follows DwellStep, and a shot is the verdict of validate_safety |
| AlphaSystem.AegisSystem.HandleStandardModes | Aegis-software-alpha/main.py:287-379 | applies StandardStep |
| AlphaSystem.AegisSystem.TrackSticky | Aegis-software-alpha/main.py:328-379 | the drawing and tracking loop and the auto-fire charge apply TrackStep: aim through the sticky track, status and dwell as the tracking half of StandardStep |
| AlphaSystem.AegisSystem.UpdateLoop | Aegis-software-alpha/main.py:259-273 | a failed read changes nothing; otherwise the mode's tick |
| TestingSystem.InitialStateInvariant | testing-software/main.py:24-34 | the fresh system satisfies the invariant |
| TestingSystem.StandardStepMeaning | testing-software/main.py:231-303 | the sticky id is visible or None; MANUAL shows MANUAL_CONTROL and neither attempts nor counts; with a held id, LOCKED exactly when the aim is within the radius and the angle check passes, the counter is that tick's DwellStep (one up while locked, zero when only TRACKING) and an attempt, at the active target, is made exactly when it fires |
| TestingSystem.MemoryStepMeaning | testing-software/main.py:104-203 | a memory tick stays or advances one phase, keeps the invariant and changes only the mission; an attempt only while ENGAGING |
| TestingSystem.ScanClassAutoCommits | testing-software/main.py:126-146 | SCAN_CLASS commits the class of the first confirmed dost/dusman track, and waits iff there is one |
| TestingSystem.EngagingFiresAtOnce | testing-software/main.py:158-183 | ENGAGING attempts at the first matching track whenever it is strictly inside the radius at a safe angle, with no dwell and no state change |
| TestingSystem.ExecuteAlwaysStarts | testing-software/main.py:69-84 | in a reachable state EXECUTE from WAITING in MEMORY mode always starts the mission |
| TestingSystem.ResetStepMeaning | testing-software/main.py:52-67 | the sticky id and counter are cleared; the mission is kept only on a change to MEMORY |
| TestingSystem.EventKeepsInvariant | testing-software/main.py:52-222 | every frame or operator command keeps the invariant |
| TestingSystem.RunKeepsInvariant | testing-software/main.py:52-222 | the invariant holds after any run of frames and commands |
| TestingSystem.AegisSystem.constructor | testing-software/main.py:10-37 | the initial state |
| TestingSystem.AegisSystem.ResetSystem | testing-software/main.py:52-67 | applies ResetStep |
| TestingSystem.AegisSystem.ExecuteMemoryMission | testing-software/main.py:69-84 | applies ExecuteStep |
| TestingSystem.AegisSystem.ReturnHome | testing-software/main.py:86-92 | applies ReturnHomeStep to the pan's arrival |
| TestingSystem.AegisSystem.HandleMemoryMode | testing-software/main.py:104-203 | applies MemoryStep |
| TestingSystem.AegisSystem.Charge | testing-software/main.py:294-301 | the counter follows DwellStep, and an attempt is made at the aim point when it fires |
| TestingSystem.AegisSystem.HandleStandardModes | testing-software/main.py:231-303 | applies StandardStep |
| TestingSystem.AegisSystem.TrackSticky | testing-software/main.py:260-303 | applies TrackStep |
| TestingSystem.AegisSystem.UpdateLoop | testing-software/main.py:205-222 | a failed read changes nothing; otherwise the mode's tick |

## Left out

- Drawing, HUD, resizing and the Tkinter UI: presentation only. The dropdown option lists and the
  `target_var.set("None")` resets are UI state. The selection is an input of each tick instead.
- YOLO detection, DeepSort tracking and easyocr: external libraries. Tracks and the OCR letter are
  inputs.
- Logging, the commented-out serial link, and `root.after` scheduling: effects with no bearing on the
  decisions.
- The turret module of the Stable variant is not part of this model. The Stable controller drives the
  alpha `TurretController`, configured with the Stable settings (DEADZONE 5, PRECISION_RADIUS 40,
  no-fire angles -90 and 90).
- TestingSystem: the testing main loop calls `pan_to_angle`, `is_angle_safe` and a discharge without
  safety limits. Its turret controller defines none of these. So the pan's arrival and the angle check
  are inputs, and a discharge is an attempt at an aim point rather than a verdict.
- TestingSystem: the testing variant as written cannot run. Its config.py defines none of MEM_SCAN_OCR,
  MEM_SCAN_CLASS, MEM_WAITING, MEM_SEEKING, MEM_ENGAGING, MEM_RETURNING and PLATFORM_ANGLES, so
  `__init__` raises AttributeError at main.py:31 (the constants are used again at main.py:88 and
  104-196). Its `update_loop` also calls `self.turret.get_current_angle()` (main.py:225), which the
  testing turret does not define, and its SCAN_OCR phase calls `self.vision.scan_for_letter(frame)`
  (main.py:112), which the testing vision.py does not define either (it has only `process_frame`); the
  letter read is an input of the model's memory step. The model covers the decision logic the program evidently intends:
  the phase names and platform angles of the alpha configuration, with the angle display left out.
- TestingSystem: `joy_cmd` only logs, and `manual_fire` calls `discharge` without its `safety_limits`
  argument. Neither changes any state the model keeps, so neither is modelled.
- AlphaSystem.AegisSystem.UpdateLoop: the camera-derived centre before the first frame is not kept. Every
  tick uses the 1280x720 crosshair (640, 360) that the loop sets.
- Targeting.LowestIdSelect: track ids are natural numbers, and "the lowest id" is the numeric minimum.
  The tracker hands out ids as strings, so `sorted(..., key=track_id)` (alpha main.py:325, testing
  main.py:257) orders them as text: "10" comes before "9". When the candidates' ids have different
  numbers of digits, the source can pick a different track than the model does.
- Base.Center and the distance tests: Python floats and `**0.5` are replaced by exact squared integer
  comparisons. Angles and fire-zone bearings are exact reals, not IEEE doubles.
- Targeting.StdName: `int(det_class)` on a track whose class is present but not a number would raise.
  Classes are integers in the model. A missing class reads as -1, as `getattr(..., -1)` gives.
- FireZones.FireZone.PixelToAngle: the division by zero for width 0 is a None result, not an exception.
