// Pieces of the memory mission shared by the three variants: the six phases, the mission
// record (platform letter, target class, OCR streak), the OCR streak that locks a platform
// letter, the memory detector's class names and the platform-angle lookup.
module Mission {
  import opened Base

  /** SCAN_OCR, SCAN_CLASS, WAITING, SEEKING, ENGAGING, RETURNING. */
  datatype Phase = ScanOcr | ScanClass | Waiting | Seeking | Engaging | Returning

  datatype MissionRec = MissionRec(phase: Phase, platform: Option<char>, targetClass: Option<string>, ocrStreak: nat)

  /** The mission as a reset leaves it: scanning for a letter, nothing chosen, streak 0. */
  const INITIAL_MISSION := MissionRec(ScanOcr, None, None, 0)

  /** A mission past SCAN_OCR knows its platform, and one at or past WAITING its target class
      too (RETURNING may have either). */
  predicate MissionReady(m: MissionRec) {
    && (m.phase.ScanClass? ==> m.platform.Some?)
    && ((m.phase.Waiting? || m.phase.Seeking? || m.phase.Engaging?) ==> m.platform.Some? && m.targetClass.Some?)
  }

  /** The moves a memory tick may make: stay, or advance one step along
      SCAN_OCR -> SCAN_CLASS -> WAITING (then EXECUTE) -> SEEKING -> ENGAGING, RETURNING -> SCAN_OCR. */
  predicate TickMove(from: Phase, to: Phase) {
    || from == to
    || (from.ScanOcr? && to.ScanClass?)
    || (from.ScanClass? && to.Waiting?)
    || (from.Seeking? && to.Engaging?)
    || (from.Returning? && to.ScanOcr?)
  }

  datatype OcrResult = OcrResult(streak: nat, committed: Option<char>)

  /** One SCAN_OCR tick: any letter extends the streak, no letter resets it, and a streak
      reaching the threshold commits the letter read on that tick. */
  function OcrStep(streak: nat, letter: Option<char>, threshold: nat): OcrResult {
    match letter
    case None => OcrResult(0, None)
    case Some(l) => if streak + 1 >= threshold then OcrResult(0, Some(l)) else OcrResult(streak + 1, None)
  }

  /** SCAN_OCR over a run of scans, stopping at the first commit. */
  function OcrScan(streak: nat, scans: seq<Option<char>>, threshold: nat): OcrResult
    decreases |scans|
  {
    if scans == [] then OcrResult(streak, None)
    else
      var r := OcrStep(streak, scans[0], threshold);
      if r.committed.Some? then r else OcrScan(r.streak, scans[1..], threshold)
  }

  predicate AllRead(scans: seq<Option<char>>) {
    forall i :: 0 <= i < |scans| ==> scans[i].Some?
  }

  /** Below the threshold, consecutive scans just count up. */
  lemma {:induction false} OcrStreakCounts(streak: nat, scans: seq<Option<char>>, threshold: nat)
    requires AllRead(scans)
    requires streak + |scans| < threshold
    ensures OcrScan(streak, scans, threshold) == OcrResult(streak + |scans|, None)
    decreases |scans|
  {
    if scans != [] {
      OcrStreakCounts(streak + 1, scans[1..], threshold);
    }
  }

  /** `threshold` consecutive scans commit the platform, and the committed letter is the one
      read last, whatever the earlier scans were. */
  lemma OcrCommitsAtThreshold(scans: seq<Option<char>>, threshold: nat)
    requires threshold >= 1 && |scans| == threshold
    requires AllRead(scans)
    ensures OcrScan(0, scans, threshold) == OcrResult(0, scans[threshold - 1])
  {
    var prefix := scans[..threshold - 1];
    OcrStreakCounts(0, prefix, threshold);
    OcrScanSplit(0, prefix, [scans[threshold - 1]], threshold);
    assert prefix + [scans[threshold - 1]] == scans;
  }

  /** A scan that has not committed after `a` continues with `b` from where it stopped. */
  lemma {:induction false} OcrScanSplit(streak: nat, a: seq<Option<char>>, b: seq<Option<char>>, threshold: nat)
    requires OcrScan(streak, a, threshold).committed.None?
    ensures OcrScan(streak, a + b, threshold) == OcrScan(OcrScan(streak, a, threshold).streak, b, threshold)
    decreases |a|
  {
    if a != [] {
      var r := OcrStep(streak, a[0], threshold);
      assert (a + b)[0] == a[0] && (a + b)[1..] == a[1..] + b;
      assert r.committed.None?;
      assert OcrScan(streak, a, threshold) == OcrScan(r.streak, a[1..], threshold);
      assert OcrScan(streak, a + b, threshold) == OcrScan(r.streak, a[1..] + b, threshold);
      OcrScanSplit(r.streak, a[1..], b, threshold);
    } else {
      assert a + b == b;
    }
  }

  /** The streak never sits at the threshold between ticks, and a missed read ends it. */
  lemma {:induction false} OcrStreakBound(streak: nat, scans: seq<Option<char>>, threshold: nat)
    requires streak < threshold
    ensures OcrScan(streak, scans, threshold).streak < threshold
    ensures scans != [] && scans[|scans| - 1].None? && OcrScan(streak, scans, threshold).committed.None? ==>
              OcrScan(streak, scans, threshold).streak == 0
    decreases |scans|
  {
    if scans != [] {
      var r := OcrStep(streak, scans[0], threshold);
      if r.committed.None? {
        OcrStreakBound(r.streak, scans[1..], threshold);
        if |scans| == 1 {
          assert OcrScan(r.streak, scans[1..], threshold) == OcrResult(r.streak, None);
        }
      }
    }
  }

  /** MEMORY_CLASS_MAP of the shape detector. */
  const MEMORY_CLASS_NAMES: seq<string> := [
    "red_circle", "green_circle", "blue_circle",
    "red_triangle", "green_triangle", "blue_triangle",
    "red_square", "green_square", "blue_square"]

  /** `MEMORY_CLASS_MAP.get(c)`: the shape name, or None for a class outside the map. */
  function MemName(c: int): (r: Option<string>)
    ensures r.Some? <==> 0 <= c < 9
    ensures r.Some? ==> r.value in MEMORY_CLASS_NAMES
  {
    if 0 <= c < |MEMORY_CLASS_NAMES| then Some(MEMORY_CLASS_NAMES[c]) else None
  }

  /** `PLATFORM_ANGLES.get(platform, 0.0)`. */
  function PlatformAngle(angles: map<char, real>, platform: Option<char>): (r: real)
    ensures platform.Some? && platform.value in angles ==> r == angles[platform.value]
    ensures (platform.None? || platform.value !in angles) ==> r == 0.0
  {
    if platform.Some? && platform.value in angles then angles[platform.value] else 0.0
  }

  /** PLATFORM_ANGLES of the configuration: platform A at -45 degrees, B at +45. */
  const PLATFORM_ANGLES: map<char, real> := map['A' := -45.0, 'B' := 45.0]

  /** With the configured angles a platform letter aims the turret at -45 (A) or +45 (B)
      degrees, and at the centre for any other letter or none; every target is in [-90, 90]. */
  lemma ConfiguredPlatformAngles(platform: Option<char>)
    ensures var r := PlatformAngle(PLATFORM_ANGLES, platform);
      && -90.0 <= r <= 90.0
      && (platform == Some('A') ==> r == -45.0)
      && (platform == Some('B') ==> r == 45.0)
      && (platform != Some('A') && platform != Some('B') ==> r == 0.0)
  {
  }

  /** One entry of the class dropdown: the "{name}_{track_id}" label and the class name. */
  datatype Choice = Choice(uid: string, name: string)

  /** A dictionary built by inserting `choices` in order: the last entry for a label wins. */
  function Lookup(choices: seq<Choice>, uid: string): (r: Option<string>)
    ensures r.Some? ==> Choice(uid, r.value) in choices
    ensures r.None? <==> forall i :: 0 <= i < |choices| ==> choices[i].uid != uid
    decreases |choices|
  {
    if choices == [] then None
    else if choices[|choices| - 1].uid == uid then Some(choices[|choices| - 1].name)
    else Lookup(choices[..|choices| - 1], uid)
  }

  /** The SCAN_CLASS commit: a pick other than "None" that names a listed entry. */
  function PickClass(choices: seq<Choice>, pick: string): (r: Option<string>)
    ensures r.Some? ==> pick != "None" && Choice(pick, r.value) in choices
    ensures pick != "None" && (exists i :: 0 <= i < |choices| && choices[i].uid == pick) ==> r.Some?
  {
    if pick != "None" then Lookup(choices, pick) else None
  }
}
