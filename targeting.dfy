// Track acquisition and sticky target selection, shared by the three variants: the
// "{name}_{track_id}" labels, the per-mode candidate filter, the first-minimum choice that
// stands for "sort, then take the head", and the two sticky-selection policies (nearest
// with a 50-pixel hysteresis in the Stable variant, lowest track id in alpha and testing).
module Targeting {
  import opened Base
  import opened Text
  import opened AlphaTurret

  /** A confirmed track as the selection logic sees it: its label, track id and box centre. */
  datatype Tagged = Tagged(fid: string, trackId: nat, center: Point)

  /** `"{name}_{track_id}"`. */
  function LabelId(name: string, trackId: nat): string {
    name + "_" + NatToString(trackId)
  }

  /** CLASS_MAP of the standard detector (0 is "dost", 1 is "dusman"), falling back on
      `str(class_id)` for any other class. */
  function StdClassName(c: int): string {
    if c == 0 then "dost" else if c == 1 then "dusman" else IntToString(c)
  }

  /** `fmt_id` / `get_id_name`: a track without a class reads as class -1. */
  function StdName(c: Option<int>): string {
    StdClassName(c.GetOr(-1))
  }

  /** The testing variant labels a track with its class name, "unk" when it has none. */
  function TestingName(c: Option<string>): string {
    c.GetOr("unk")
  }

  /** One track as the selection logic sees it. */
  function TagOf<C>(t: Track<C>, nameOf: Option<C> -> string): Tagged {
    Tagged(LabelId(nameOf(t.detClass), t.trackId), t.trackId, Center(t.box))
  }

  /** The confirmed tracks, in tracker order, labelled by `nameOf`. */
  function Tag<C>(tracks: seq<Track<C>>, nameOf: Option<C> -> string): (r: seq<Tagged>)
    ensures |r| <= |tracks|
  {
    if tracks == [] then []
    else
      var t := tracks[0];
      (if t.confirmed then [TagOf(t, nameOf)] else []) + Tag(tracks[1..], nameOf)
  }

  /** Positions into a tail, moved one place right, with position 0 in front when `keep`. */
  function Lift(keep: bool, rest: seq<nat>): (r: seq<nat>)
    ensures |r| == |rest| + (if keep then 1 else 0)
    ensures keep ==> r[0] == 0
    ensures forall k :: (if keep then 1 else 0) <= k < |r| ==> r[k] == rest[k - (if keep then 1 else 0)] + 1
  {
    (if keep then [0] else []) + seq(|rest|, k requires 0 <= k < |rest| => rest[k] + 1)
  }

  lemma LiftIncreasing(keep: bool, rest: seq<nat>)
    requires forall k, l :: 0 <= k < l < |rest| ==> rest[k] < rest[l]
    ensures var r := Lift(keep, rest); forall k, l :: 0 <= k < l < |r| ==> r[k] < r[l]
  {
    var r := Lift(keep, rest);
    var off := if keep then 1 else 0;
    forall k, l | 0 <= k < l < |r|
      ensures r[k] < r[l]
    {
      assert r[l] == rest[l - off] + 1;
      if k >= off {
        assert r[k] == rest[k - off] + 1;
      }
    }
  }

  /** `Tag` unfolded once. */
  lemma TagCons<C>(tracks: seq<Track<C>>, nameOf: Option<C> -> string)
    requires tracks != []
    ensures Tag(tracks, nameOf) == (if tracks[0].confirmed then [TagOf(tracks[0], nameOf)] else []) + Tag(tracks[1..], nameOf)
  {
  }

  /** Past the head's own tag, the tags of a list are the tags of its tail. */
  lemma TagShift<C>(tracks: seq<Track<C>>, nameOf: Option<C> -> string, k: nat)
    requires tracks != []
    requires (if tracks[0].confirmed then 1 else 0) <= k < |Tag(tracks, nameOf)|
    ensures Tag(tracks, nameOf)[k] == Tag(tracks[1..], nameOf)[k - (if tracks[0].confirmed then 1 else 0)]
  {
    TagCons(tracks, nameOf);
  }

  /** One lifted position: the k-th tag of the whole list is the tail's (k - off)-th tag, one
      place further along. */
  lemma LiftAt<C>(tracks: seq<Track<C>>, nameOf: Option<C> -> string, rest: seq<nat>, k: nat, off: nat)
    requires tracks != [] && off == (if tracks[0].confirmed then 1 else 0)
    requires |rest| == |Tag(tracks[1..], nameOf)|
    requires off <= k < off + |rest|
    requires rest[k - off] < |tracks[1..]| && tracks[1..][rest[k - off]].confirmed
    requires Tag(tracks[1..], nameOf)[k - off] == TagOf(tracks[1..][rest[k - off]], nameOf)
    ensures var idx := Lift(tracks[0].confirmed, rest);
      && k < |idx| && idx[k] < |tracks| && tracks[idx[k]].confirmed
      && k < |Tag(tracks, nameOf)| && Tag(tracks, nameOf)[k] == TagOf(tracks[idx[k]], nameOf)
  {
    var j := rest[k - off];
    var idx := Lift(tracks[0].confirmed, rest);
    assert idx[k] == j + 1;
    TagCons(tracks, nameOf);
    TagShift(tracks, nameOf, k);
    assert tracks[j + 1] == tracks[1..][j];
  }

  /** The positions of the tail's tags, lifted, are the positions of the whole list's tags. */
  lemma LiftMatches<C>(tracks: seq<Track<C>>, nameOf: Option<C> -> string, rest: seq<nat>) returns (idx: seq<nat>)
    requires tracks != []
    requires |rest| == |Tag(tracks[1..], nameOf)|
    requires forall k :: 0 <= k < |rest| ==>
      rest[k] < |tracks[1..]| && tracks[1..][rest[k]].confirmed && Tag(tracks[1..], nameOf)[k] == TagOf(tracks[1..][rest[k]], nameOf)
    ensures idx == Lift(tracks[0].confirmed, rest)
    ensures |idx| == |Tag(tracks, nameOf)|
    ensures forall k :: 0 <= k < |idx| ==>
      idx[k] < |tracks| && tracks[idx[k]].confirmed && Tag(tracks, nameOf)[k] == TagOf(tracks[idx[k]], nameOf)
  {
    var off := if tracks[0].confirmed then 1 else 0;
    idx := Lift(tracks[0].confirmed, rest);
    TagCons(tracks, nameOf);
    forall k | 0 <= k < |idx|
      ensures idx[k] < |tracks| && tracks[idx[k]].confirmed && Tag(tracks, nameOf)[k] == TagOf(tracks[idx[k]], nameOf)
    {
      if k < off {
        assert idx[k] == 0 && Tag(tracks, nameOf)[k] == TagOf(tracks[0], nameOf);
      } else {
        LiftAt(tracks, nameOf, rest, k, off);
      }
    }
  }

  /** Every confirmed position of the whole list is among the lifted positions of the tail. */
  lemma LiftCovers<C>(tracks: seq<Track<C>>, rest: seq<nat>)
    requires tracks != []
    requires forall j :: 0 <= j < |tracks[1..]| && tracks[1..][j].confirmed ==> j in rest
    ensures var idx := Lift(tracks[0].confirmed, rest);
      forall j :: 0 <= j < |tracks| && tracks[j].confirmed ==> j in idx
  {
    var off := if tracks[0].confirmed then 1 else 0;
    var idx := Lift(tracks[0].confirmed, rest);
    forall j | 0 <= j < |tracks| && tracks[j].confirmed
      ensures j in idx
    {
      if j == 0 {
        assert idx[0] == 0;
      } else {
        assert tracks[1..][j - 1] == tracks[j];
        var k :| 0 <= k < |rest| && rest[k] == j - 1;
        assert idx[k + off] == j;
      }
    }
  }

  /** `Tag` keeps exactly the confirmed tracks, in tracker order: `idx` lists the positions of
      the tagged tracks, strictly increasing, and every confirmed position is among them. */
  lemma {:induction false} TagIndices<C>(tracks: seq<Track<C>>, nameOf: Option<C> -> string) returns (idx: seq<nat>)
    ensures |idx| == |Tag(tracks, nameOf)|
    ensures forall k :: 0 <= k < |idx| ==>
      idx[k] < |tracks| && tracks[idx[k]].confirmed && Tag(tracks, nameOf)[k] == TagOf(tracks[idx[k]], nameOf)
    ensures forall k, l :: 0 <= k < l < |idx| ==> idx[k] < idx[l]
    ensures forall j :: 0 <= j < |tracks| && tracks[j].confirmed ==> j in idx
    decreases |tracks|
  {
    if tracks == [] {
      idx := [];
    } else {
      var rest := TagIndices(tracks[1..], nameOf);
      idx := LiftMatches(tracks, nameOf, rest);
      LiftIncreasing(tracks[0].confirmed, rest);
      LiftCovers(tracks, rest);
    }
  }

  /** The visible ids offered in the target dropdown. */
  function Ids(tagged: seq<Tagged>): (r: seq<string>)
    ensures |r| == |tagged|
    ensures forall i :: 0 <= i < |tagged| ==> r[i] == tagged[i].fid
  {
    seq(|tagged|, i requires 0 <= i < |tagged| => tagged[i].fid)
  }

  /** An id is offered exactly when some confirmed track carries that label. */
  lemma IdsOfTag<C>(tracks: seq<Track<C>>, nameOf: Option<C> -> string, x: string)
    ensures x in Ids(Tag(tracks, nameOf)) <==>
      exists j :: 0 <= j < |tracks| && tracks[j].confirmed && LabelId(nameOf(tracks[j].detClass), tracks[j].trackId) == x
  {
    var tagged := Tag(tracks, nameOf);
    var idx := TagIndices(tracks, nameOf);
    if x in Ids(tagged) {
      var k :| 0 <= k < |tagged| && Ids(tagged)[k] == x;
      assert tagged[k] == TagOf(tracks[idx[k]], nameOf);
    }
    if exists j :: 0 <= j < |tracks| && tracks[j].confirmed && LabelId(nameOf(tracks[j].detClass), tracks[j].trackId) == x {
      var j :| 0 <= j < |tracks| && tracks[j].confirmed && LabelId(nameOf(tracks[j].detClass), tracks[j].trackId) == x;
      var k :| 0 <= k < |idx| && idx[k] == j;
      assert Ids(tagged)[k] == x;
    }
  }

  lemma FactionLetters(p: string, r: string)
    requires p == "dusman" || p == "dost"
    requires forall k :: 0 <= k < |r| ==> IsDigit(r[k]) || r[k] == '-' || r[k] == '_'
    ensures forall k :: 0 <= k < |r| ==> r[k] != p[|p| - 1]
  {
  }

  /** "dost" does not occur in "dusman": the second letter of an occurrence would be 'o'. */
  lemma DusmanLacksDost()
    ensures !Contains("dusman", "dost")
  {
    var name := "dusman";
    forall i: nat | i <= |name|
      ensures !OccursAt(name, "dost", i)
    {
      if i + 4 <= |name| {
        assert name[i..i + 4][1] == name[i + 1] != 'o';
      }
    }
  }

  /** With the standard class names, the substring tests of the RED and BLUE filters are
      exactly class tests: an id contains "dusman" iff its class is 1, "dost" iff it is 0. */
  lemma {:induction false} StdFactionIds(c: int, trackId: nat)
    ensures Contains(LabelId(StdClassName(c), trackId), "dusman") <==> c == 1
    ensures Contains(LabelId(StdClassName(c), trackId), "dost") <==> c == 0
  {
    var name := StdClassName(c);
    var suffix := "_" + NatToString(trackId);
    assert LabelId(name, trackId) == name + suffix;
    FactionLetters("dusman", suffix);
    FactionLetters("dost", suffix);
    ContainsIgnoresSuffix(name, suffix, "dusman");
    ContainsIgnoresSuffix(name, suffix, "dost");
    if c == 0 {
      assert OccursAt("dost", "dost", 0);
    } else if c == 1 {
      assert OccursAt("dusman", "dusman", 0);
      DusmanLacksDost();
    } else {
      FactionLetters("dusman", name);
      FactionLetters("dost", name);
      ContainsIgnoresSuffix("", name, "dusman");
      ContainsIgnoresSuffix("", name, "dost");
      assert "" + name == name;
    }
  }

  /** In the testing variant the tracker's class names are "dost", "dusman" or "unk", and
      there too the substring tests are class tests. */
  lemma {:induction false} TestingFactionIds(lbl: string, trackId: nat)
    requires lbl == "dost" || lbl == "dusman" || lbl == "unk"
    ensures Contains(LabelId(lbl, trackId), "dusman") <==> lbl == "dusman"
    ensures Contains(LabelId(lbl, trackId), "dost") <==> lbl == "dost"
  {
    var suffix := "_" + NatToString(trackId);
    assert LabelId(lbl, trackId) == lbl + suffix;
    FactionLetters("dusman", suffix);
    FactionLetters("dost", suffix);
    ContainsIgnoresSuffix(lbl, suffix, "dusman");
    ContainsIgnoresSuffix(lbl, suffix, "dost");
    if lbl == "dost" {
      assert OccursAt("dost", "dost", 0);
    } else if lbl == "dusman" {
      assert OccursAt("dusman", "dusman", 0);
      forall i: nat | i <= |lbl|
        ensures !OccursAt(lbl, "dost", i)
      {
        if i + 4 <= 6 {
          assert lbl[i + 1] != "dost"[1];
        }
      }
    }
  }

  /** The per-mode match of the candidate loop. `cherry` is the sticky id the alpha and
      testing variants also match in CHERRY-PICK mode; the Stable filter has no such clause
      and passes None. */
  predicate IsMatch(mode: Mode, fid: string, cherry: Option<string>) {
    || mode.All?
    || (mode.Red? && Contains(fid, "dusman"))
    || (mode.Blue? && Contains(fid, "dost"))
    || (mode.CherryPick? && cherry == Some(fid))
  }

  /** The candidate list, in tracker order. */
  function Candidates(tagged: seq<Tagged>, mode: Mode, cherry: Option<string>): (r: seq<Tagged>)
    ensures |r| <= |tagged|
    ensures forall x :: x in r ==> x in tagged && IsMatch(mode, x.fid, cherry)
    ensures forall x :: x in tagged && IsMatch(mode, x.fid, cherry) ==> x in r
    decreases |tagged|
  {
    if tagged == [] then []
    else
      var last := tagged[|tagged| - 1];
      Candidates(tagged[..|tagged| - 1], mode, cherry) + (if IsMatch(mode, last.fid, cherry) then [last] else [])
  }

  /** The candidate loop of the standard tick. */
  method FilterCandidates(tagged: seq<Tagged>, mode: Mode, cherry: Option<string>) returns (cands: seq<Tagged>)
    ensures cands == Candidates(tagged, mode, cherry)
  {
    cands := [];
    var i := 0;
    while i < |tagged|
      invariant 0 <= i <= |tagged|
      invariant cands == Candidates(tagged[..i], mode, cherry)
    {
      assert tagged[..i + 1][..i] == tagged[..i];
      if IsMatch(mode, tagged[i].fid, cherry) {
        cands := cands + [tagged[i]];
      }
      i := i + 1;
    }
    assert tagged[..|tagged|] == tagged;
  }

  /** Index `k` holds a minimal key and no earlier element has that key: the head of the
      list after Python's stable sort by `key`. */
  predicate IsFirstMin(s: seq<Tagged>, key: Tagged -> int, k: int) {
    && 0 <= k < |s|
    && (forall j :: 0 <= j < |s| ==> key(s[k]) <= key(s[j]))
    && (forall j :: 0 <= j < k ==> key(s[k]) < key(s[j]))
  }

  lemma FirstMinUnique(s: seq<Tagged>, key: Tagged -> int, k1: int, k2: int)
    requires IsFirstMin(s, key, k1) && IsFirstMin(s, key, k2)
    ensures k1 == k2
  {
    assert key(s[k1]) == key(s[k2]);
  }

  function FirstMin(s: seq<Tagged>, key: Tagged -> int): (k: nat)
    requires |s| > 0
    ensures IsFirstMin(s, key, k)
    decreases |s|
  {
    if |s| == 1 then 0
    else
      var k := FirstMin(s[..|s| - 1], key);
      if key(s[|s| - 1]) < key(s[k]) then |s| - 1 else k
  }

  /** `get_dist` as a sort key: the squared distance of the box centre to the crosshair. */
  function DistKey(crosshair: Point): Tagged -> int {
    (x: Tagged) => SqDist(x.center, crosshair)
  }

  /** `track_id` as a sort key. */
  function IdKey(): Tagged -> int {
    (x: Tagged) => x.trackId
  }

  /** `sorted(cands, key=key)[0]` (`candidates.sort(key=get_dist)` in the Stable variant,
      `sorted(..., key=lambda x: x.track_id)` in the others): the index of a minimal element,
      the first one in tracker order among equals since Python's sort is stable. */
  method HeadAfterSort(cands: seq<Tagged>, key: Tagged -> int) returns (best: nat)
    requires |cands| > 0
    ensures best == FirstMin(cands, key)
    ensures best < |cands| && forall j :: 0 <= j < |cands| ==> key(cands[best]) <= key(cands[j])
  {
    best := 0;
    var i := 1;
    while i < |cands|
      invariant 1 <= i <= |cands|
      invariant best == FirstMin(cands[..i], key)
    {
      assert cands[..i + 1][..i] == cands[..i];
      if key(cands[i]) < key(cands[best]) {
        best := i;
      }
      i := i + 1;
    }
    assert cands[..|cands|] == cands;
  }

  /** The last visible track carrying the sticky id (the loops keep overwriting their match). */
  function LastWithId(tagged: seq<Tagged>, sticky: Option<string>): (r: Option<Tagged>)
    ensures r.Some? ==> r.value in tagged && sticky == Some(r.value.fid)
    ensures r.None? <==> sticky.None? || sticky.value !in Ids(tagged)
    decreases |tagged|
  {
    if tagged == [] then None
    else
      var last := tagged[|tagged| - 1];
      if sticky == Some(last.fid) then Some(last)
      else
        var r := LastWithId(tagged[..|tagged| - 1], sticky);
        assert Ids(tagged) == Ids(tagged[..|tagged| - 1]) + [last.fid];
        r
  }

  // ---------------------------------------------------------------------------------
  // Stable variant: nearest candidate, switching only for a clearly closer one.

  /** Aegis-Software-Stable/modes.py:94 switches only for a candidate 50 pixels closer. */
  const HYSTERESIS_PX: nat := 50

  /** The sticky id after the selection step of the Stable standard tick (before MANUAL
      clears it at the end of the tick). */
  function StableSelect(mode: Mode, tagged: seq<Tagged>, selection: string, sticky: Option<string>, crosshair: Point): Option<string> {
    var ids := Ids(tagged);
    if mode.CherryPick? then
      if selection != "None" && selection in ids then Some(selection)
      else if sticky.None? || sticky.value !in ids then None
      else sticky
    else if mode.Manual? then sticky
    else
      var cands := Candidates(tagged, mode, None);
      if |cands| == 0 then None
      else
        var best := cands[FirstMin(cands, DistKey(crosshair))];
        match LastWithId(tagged, sticky)
        case None => Some(best.fid)
        case Some(cur) =>
          if HysteresisSwitch(SqDist(best.center, crosshair), SqDist(cur.center, crosshair), HYSTERESIS_PX)
          then Some(best.fid)
          else sticky
  }

  /** The sticky id at the end of the Stable standard tick. */
  function StableSticky(mode: Mode, tagged: seq<Tagged>, selection: string, sticky: Option<string>, crosshair: Point): Option<string> {
    if mode.Manual? then None else StableSelect(mode, tagged, selection, sticky, crosshair)
  }

  predicate AutoMode(mode: Mode) {
    mode.All? || mode.Red? || mode.Blue?
  }

  /** Whatever the Stable tick holds at its end is a visible confirmed track, or nothing. */
  lemma StableStickyVisible(mode: Mode, tagged: seq<Tagged>, selection: string, sticky: Option<string>, crosshair: Point)
    ensures var r := StableSticky(mode, tagged, selection, sticky, crosshair);
      r.None? || r.value in Ids(tagged)
  {
    var r := StableSticky(mode, tagged, selection, sticky, crosshair);
    if AutoMode(mode) {
      var cands := Candidates(tagged, mode, None);
      if |cands| > 0 {
        var best := cands[FirstMin(cands, DistKey(crosshair))];
        assert best in tagged;
        var k :| 0 <= k < |tagged| && tagged[k] == best;
        assert Ids(tagged)[k] == best.fid;
      }
    }
  }

  /** The selection rules of the Stable tick, case by case. */
  lemma StableSelectCases(mode: Mode, tagged: seq<Tagged>, selection: string, sticky: Option<string>, crosshair: Point)
    ensures var r := StableSelect(mode, tagged, selection, sticky, crosshair);
      && (mode.CherryPick? && selection != "None" && selection in Ids(tagged) ==> r == Some(selection))
      && (mode.CherryPick? && !(selection != "None" && selection in Ids(tagged)) ==>
            r == (if sticky.Some? && sticky.value in Ids(tagged) then sticky else None))
      && (AutoMode(mode) && Candidates(tagged, mode, None) == [] ==> r.None?)
      && (AutoMode(mode) && Candidates(tagged, mode, None) != [] && LastWithId(tagged, sticky).None? ==>
            exists k :: IsFirstMin(Candidates(tagged, mode, None), DistKey(crosshair), k)
                     && r == Some(Candidates(tagged, mode, None)[k].fid))
      && (AutoMode(mode) && Candidates(tagged, mode, None) != [] && LastWithId(tagged, sticky).Some? ==>
            var cands := Candidates(tagged, mode, None);
            var best := cands[FirstMin(cands, DistKey(crosshair))];
            var cur := LastWithId(tagged, sticky).value;
            r == if HysteresisSwitch(SqDist(best.center, crosshair), SqDist(cur.center, crosshair), HYSTERESIS_PX)
                 then Some(best.fid) else sticky)
  {
    var cands := Candidates(tagged, mode, None);
    if AutoMode(mode) && cands != [] {
      var k := FirstMin(cands, DistKey(crosshair));
      assert IsFirstMin(cands, DistKey(crosshair), k);
    }
  }

  /** No thrashing: on an unchanged frame a second selection keeps what the first chose. */
  lemma StableSelectIdempotent(mode: Mode, tagged: seq<Tagged>, selection: string, sticky: Option<string>, crosshair: Point)
    ensures var r := StableSticky(mode, tagged, selection, sticky, crosshair);
      StableSticky(mode, tagged, selection, r, crosshair) == r
  {
    var r := StableSticky(mode, tagged, selection, sticky, crosshair);
    if AutoMode(mode) {
      var cands := Candidates(tagged, mode, None);
      if |cands| > 0 {
        var best := cands[FirstMin(cands, DistKey(crosshair))];
        if r == Some(best.fid) {
          assert best in tagged;
          var k :| 0 <= k < |tagged| && tagged[k] == best;
          assert Ids(tagged)[k] == best.fid;
          assert LastWithId(tagged, r).Some?;
        }
      }
    }
  }

  /** The Stable selection applied frame after frame. */
  function StableRun(mode: Mode, frames: seq<seq<Tagged>>, selection: string, sticky: Option<string>, crosshair: Point): Option<string>
    decreases |frames|
  {
    if frames == [] then sticky
    else StableRun(mode, frames[1..], selection, StableSticky(mode, frames[0], selection, sticky, crosshair), crosshair)
  }

  /** The candidate that would replace the held target is never 50 pixels closer. */
  predicate NoClearlyBetter(mode: Mode, tagged: seq<Tagged>, sticky: Option<string>, crosshair: Point) {
    var cands := Candidates(tagged, mode, None);
    && |cands| > 0
    && LastWithId(tagged, sticky).Some?
    && !HysteresisSwitch(SqDist(cands[FirstMin(cands, DistKey(crosshair))].center, crosshair),
                         SqDist(LastWithId(tagged, sticky).value.center, crosshair), HYSTERESIS_PX)
  }

  /** Hysteresis invariant: in an automatic mode, while the held target stays visible and no
      candidate is ever 50 pixels closer, the sticky id never changes. */
  lemma {:induction false} StableHysteresisRun(mode: Mode, frames: seq<seq<Tagged>>, selection: string, sticky: Option<string>, crosshair: Point)
    requires AutoMode(mode)
    requires forall i :: 0 <= i < |frames| ==> NoClearlyBetter(mode, frames[i], sticky, crosshair)
    ensures StableRun(mode, frames, selection, sticky, crosshair) == sticky
    decreases |frames|
  {
    if frames != [] {
      assert NoClearlyBetter(mode, frames[0], sticky, crosshair);
      assert StableSticky(mode, frames[0], selection, sticky, crosshair) == sticky;
      assert forall i :: 0 <= i < |frames[1..]| ==> frames[1..][i] == frames[i + 1];
      StableHysteresisRun(mode, frames[1..], selection, sticky, crosshair);
    }
  }

  // ---------------------------------------------------------------------------------
  // Alpha and testing variants: keep the sticky id while visible, else the lowest track id.

  /** The sticky id after the selection step of the alpha and testing standard ticks. */
  function LowestIdSelect(mode: Mode, tagged: seq<Tagged>, selection: string, sticky: Option<string>): Option<string> {
    var picked := if mode.CherryPick? && selection != "None" then Some(selection) else sticky;
    var cands := Candidates(tagged, mode, picked);
    var kept := if picked.Some? && picked.value in Ids(tagged) then picked else None;
    if kept.None? && |cands| > 0 && !mode.Manual? && !mode.CherryPick? then
      Some(cands[FirstMin(cands, IdKey())].fid)
    else kept
  }

  /** The selection rules of the alpha and testing ticks: the result is always visible (or
      nothing); a visible pick survives; automatic modes fall back on the lowest track id. */
  lemma LowestIdSelectCases(mode: Mode, tagged: seq<Tagged>, selection: string, sticky: Option<string>)
    ensures var r := LowestIdSelect(mode, tagged, selection, sticky);
      && (r.None? || r.value in Ids(tagged))
      && (sticky.Some? && sticky.value in Ids(tagged) && !mode.CherryPick? ==> r == sticky)
      && (mode.CherryPick? && selection != "None" ==> r == (if selection in Ids(tagged) then Some(selection) else None))
      && (AutoMode(mode) && (sticky.None? || sticky.value !in Ids(tagged)) && Candidates(tagged, mode, None) != [] ==>
            exists k :: IsFirstMin(Candidates(tagged, mode, None), IdKey(), k)
                     && r == Some(Candidates(tagged, mode, None)[k].fid))
      && (AutoMode(mode) && (sticky.None? || sticky.value !in Ids(tagged)) && Candidates(tagged, mode, None) == [] ==> r.None?)
      && (mode.Manual? || (mode.CherryPick? && selection == "None") ==>
            r == (if sticky.Some? && sticky.value in Ids(tagged) then sticky else None))
  {
    var picked := if mode.CherryPick? && selection != "None" then Some(selection) else sticky;
    var cands := Candidates(tagged, mode, picked);
    if AutoMode(mode) {
      assert cands == Candidates(tagged, mode, None) by {
        CandidatesIgnoreCherry(tagged, mode, picked);
      }
    }
    if cands != [] {
      var k := FirstMin(cands, IdKey());
      assert cands[k] in tagged;
      var j :| 0 <= j < |tagged| && tagged[j] == cands[k];
      assert Ids(tagged)[j] == cands[k].fid;
    }
  }

  /** The sticky-id update of the alpha and testing standard ticks: a CHERRY-PICK selection,
      the candidate filter, dropping an id that is no longer visible, and the lowest-id
      fallback outside MANUAL and CHERRY-PICK. */
  method SelectLowestId(mode: Mode, tagged: seq<Tagged>, selection: string, sticky: Option<string>) returns (r: Option<string>)
    ensures r == LowestIdSelect(mode, tagged, selection, sticky)
  {
    r := sticky;
    var visibleIds := Ids(tagged);
    if mode.CherryPick? && selection != "None" {
      r := Some(selection);
    }
    var candidates := FilterCandidates(tagged, mode, r);
    if r.Some? && r.value !in visibleIds {
      r := None;
    }
    if r.None? && |candidates| > 0 && !mode.Manual? && !mode.CherryPick? {
      var k := HeadAfterSort(candidates, IdKey());
      r := Some(candidates[k].fid);
    }
  }

  /** Outside CHERRY-PICK the sticky id plays no part in the filter. */
  lemma {:induction false} CandidatesIgnoreCherry(tagged: seq<Tagged>, mode: Mode, cherry: Option<string>)
    requires !mode.CherryPick?
    ensures Candidates(tagged, mode, cherry) == Candidates(tagged, mode, None)
    decreases |tagged|
  {
    if tagged != [] {
      CandidatesIgnoreCherry(tagged[..|tagged| - 1], mode, cherry);
    }
  }

  /** No thrashing in the alpha and testing policy either. */
  lemma LowestIdSelectIdempotent(mode: Mode, tagged: seq<Tagged>, selection: string, sticky: Option<string>)
    ensures var r := LowestIdSelect(mode, tagged, selection, sticky);
      LowestIdSelect(mode, tagged, selection, r) == r
  {
    LowestIdSelectCases(mode, tagged, selection, sticky);
  }

  /** The alpha and testing selection applied frame after frame. */
  function LowestIdRun(mode: Mode, frames: seq<seq<Tagged>>, selection: string, sticky: Option<string>): Option<string>
    decreases |frames|
  {
    if frames == [] then sticky
    else LowestIdRun(mode, frames[1..], selection, LowestIdSelect(mode, frames[0], selection, sticky))
  }

  /** Stickiness: outside CHERRY-PICK a held id survives every frame in which it stays visible. */
  lemma {:induction false} LowestIdKeptWhileVisible(mode: Mode, frames: seq<seq<Tagged>>, selection: string, sticky: Option<string>)
    requires !mode.CherryPick?
    requires sticky.Some?
    requires forall i :: 0 <= i < |frames| ==> sticky.value in Ids(frames[i])
    ensures LowestIdRun(mode, frames, selection, sticky) == sticky
    decreases |frames|
  {
    if frames != [] {
      LowestIdSelectCases(mode, frames[0], selection, sticky);
      assert forall i :: 0 <= i < |frames[1..]| ==> frames[1..][i] == frames[i + 1];
      LowestIdKeptWhileVisible(mode, frames[1..], selection, sticky);
    }
  }

  // ---------------------------------------------------------------------------------
  // The tracking loop shared by the standard ticks.

  /** The pan angle after the tracking loop has nudged the turret toward every visible track
      carrying the sticky id, in tracker order. */
  function AimThrough(angle: real, tagged: seq<Tagged>, sticky: Option<string>, crosshair: Point, deadzone: int): real
    decreases |tagged|
  {
    if tagged == [] then angle
    else
      var last := tagged[|tagged| - 1];
      var a := AimThrough(angle, tagged[..|tagged| - 1], sticky, crosshair, deadzone);
      if sticky == Some(last.fid) then NudgeAngle(a, last.center.0 - crosshair.0, deadzone) else a
  }

  /** Tracking never drives the turret out of [-90, 90], and without a visible sticky track
      it does not move it at all. */
  lemma {:induction false} AimThroughBounds(angle: real, tagged: seq<Tagged>, sticky: Option<string>, crosshair: Point, deadzone: int)
    ensures InDomain(angle) ==> InDomain(AimThrough(angle, tagged, sticky, crosshair, deadzone))
    ensures LastWithId(tagged, sticky).None? ==> AimThrough(angle, tagged, sticky, crosshair, deadzone) == angle
    decreases |tagged|
  {
    if tagged != [] {
      var prefix := tagged[..|tagged| - 1];
      AimThroughBounds(angle, prefix, sticky, crosshair, deadzone);
      if LastWithId(tagged, sticky).None? {
        assert LastWithId(prefix, sticky).None?;
      }
    }
  }

  /** The scan of the drawing loop for the sticky id: the last visible track that holds it. */
  method FindSticky(tagged: seq<Tagged>, sticky: Option<string>) returns (primary: Option<Tagged>)
    ensures primary == LastWithId(tagged, sticky)
  {
    primary := None;
    var i := 0;
    while i < |tagged|
      invariant 0 <= i <= |tagged|
      invariant primary == LastWithId(tagged[..i], sticky)
    {
      assert tagged[..i + 1][..i] == tagged[..i];
      if sticky == Some(tagged[i].fid) {
        primary := Some(tagged[i]);
      }
      i := i + 1;
    }
    assert tagged[..|tagged|] == tagged;
  }

  /** The tracking loop of the standard ticks: while `tracking` (any mode but MANUAL) every
      visible track with the sticky id nudges the turret, and the last one is the primary. */
  method AimAtSticky(turret: TurretController, tagged: seq<Tagged>, sticky: Option<string>, tracking: bool, crosshair: Point)
    returns (primary: Option<Tagged>)
    modifies turret`currentAngle
    ensures primary == (if tracking then LastWithId(tagged, sticky) else None)
    ensures turret.currentAngle ==
      (if tracking then AimThrough(old(turret.currentAngle), tagged, sticky, crosshair, turret.cfg.deadzone) else old(turret.currentAngle))
  {
    primary := None;
    var i := 0;
    while i < |tagged|
      invariant 0 <= i <= |tagged|
      invariant primary == (if tracking then LastWithId(tagged[..i], sticky) else None)
      invariant turret.currentAngle ==
        (if tracking then AimThrough(old(turret.currentAngle), tagged[..i], sticky, crosshair, turret.cfg.deadzone) else old(turret.currentAngle))
    {
      assert tagged[..i + 1][..i] == tagged[..i];
      var t := tagged[i];
      if tracking && sticky == Some(t.fid) {
        primary := Some(t);
        turret.CalculateMotorAdjustments(t.center.0, t.center.1, crosshair);
      }
      i := i + 1;
    }
    assert tagged[..|tagged|] == tagged;
  }
}
