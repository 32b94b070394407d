// Values shared by every variant of the turret's decision core: tracker output,
// operator modes, status labels, pixel centres and the distance tests that replace
// the source's floating-point square roots.
module Base {

  datatype Option<+T> = None | Some(value: T) {
    function GetOr(default: T): T {
      match this
      case Some(v) => v
      case None => default
    }
  }

  function Abs(x: real): real {
    if x < 0.0 then -x else x
  }

  function AbsInt(x: int): nat {
    if x < 0 then -x else x
  }

  /** A pixel position (x, y) in the 1280x720 working frame. */
  type Point = (int, int)

  /** A bounding box as the tracker's `to_ltrb()` gives it after `int` truncation. */
  datatype Box = Box(left: int, top: int, right: int, bottom: int)

  /** One track of the external tracker: a stable id, the detector's class (absent when the
      tracker attached none, where the source falls back on a `getattr` default), the box,
      and whether the tracker has confirmed the track. `C` is the class type: a class index in
      the Stable and alpha variants, a class name in the testing variant. */
  datatype Track<C> = Track(trackId: nat, detClass: Option<C>, box: Box, confirmed: bool)

  /** The operator's mode combobox: MANUAL, ALL, "RED (Dusman)", "BLUE (Dost)", CHERRY-PICK, MEMORY. */
  datatype Mode = Manual | All | Red | Blue | CherryPick | Memory

  /** The status label shown on the HUD (MANUAL in the Stable variant, MANUAL_CONTROL elsewhere). */
  datatype Status = Scanning | Tracking | Locked | ManualStatus | ManualControl

  /** A joystick command. */
  datatype Direction = Up | Down | Left | Right

  /** What one camera frame supplies to a tick: the selected mode, the dropdown selection,
      the tracker's output and the letter the OCR reads (None when it reads nothing). */
  datatype Frame<C> = Frame(mode: Mode, selection: string, tracks: seq<Track<C>>, letter: Option<char>)

  /** The index of the first track satisfying `p`, in tracker order: what the loops that
      `break` on their first match find. */
  function FirstMatch<C>(tracks: seq<Track<C>>, p: Track<C> -> bool): (r: Option<nat>)
    ensures r.None? <==> forall i :: 0 <= i < |tracks| ==> !p(tracks[i])
    ensures r.Some? ==> r.value < |tracks| && p(tracks[r.value]) && forall j :: 0 <= j < r.value ==> !p(tracks[j])
    decreases |tracks|
  {
    if tracks == [] then None
    else if p(tracks[0]) then Some(0)
    else
      var r := FirstMatch(tracks[1..], p);
      assert forall i :: 1 <= i < |tracks| ==> tracks[i] == tracks[1..][i - 1];
      if r.Some? then Some(r.value + 1) else None
  }

  /** A loop that stops at index `i` because no earlier track matched has found the first match. */
  lemma FirstMatchAt<C>(tracks: seq<Track<C>>, p: Track<C> -> bool, i: nat)
    requires i < |tracks| && p(tracks[i])
    requires forall j :: 0 <= j < i ==> !p(tracks[j])
    ensures FirstMatch(tracks, p) == Some(i)
  {
    var r := FirstMatch(tracks, p);
    assert r.value <= i;
  }

  /** The centre of a box, `((l + r) // 2, (t + b) // 2)`: Python's floor division by 2
      is Dafny's `/ 2`, so the centre rounds down for odd sums, negative ones included. */
  function Center(b: Box): (c: Point)
    ensures 2 * c.0 <= b.left + b.right < 2 * c.0 + 2
    ensures 2 * c.1 <= b.top + b.bottom < 2 * c.1 + 2
  {
    ((b.left + b.right) / 2, (b.top + b.bottom) / 2)
  }

  /** Squared Euclidean distance between two pixels; the source compares its square root. */
  function SqDist(p: Point, q: Point): nat {
    (p.0 - q.0) * (p.0 - q.0) + (p.1 - q.1) * (p.1 - q.1)
  }

  /** `dist <= radius` where `dist` is the square root of `sq`. */
  predicate WithinRadius(sq: nat, radius: int) {
    radius >= 0 && sq <= radius * radius
  }

  /** `dist < radius` where `dist` is the square root of `sq`. */
  predicate InsideRadius(sq: nat, radius: int) {
    radius > 0 && sq < radius * radius
  }

  /** `best_dist < current_dist - margin` where the two distances are the square roots of
      `best` and `cur`, decided in integers: with k = cur - best - margin^2 it holds iff
      k > 0 and 4 * margin^2 * best < k^2. */
  predicate HysteresisSwitch(best: nat, cur: nat, margin: nat) {
    var k := cur - best - margin * margin;
    k > 0 && 4 * margin * margin * best < k * k
  }

  lemma SquareMonotone(x: real, y: real)
    requires x >= 0.0 && y >= 0.0
    ensures x < y <==> x * x < y * y
    ensures x <= y <==> x * x <= y * y
  {
    var xx, xy, yy := x * x, x * y, y * y;
    if x < y {
      assert xx <= xy;
      assert xy < yy;
    } else {
      assert yy <= xy <= xx;
      if y < x {
        assert xy < xx;
      }
    }
  }

  /** The squared tests agree with the source's comparisons of real square roots. */
  lemma RadiusTestsMeaning(d: real, sq: nat, radius: int)
    requires d >= 0.0 && d * d == sq as real
    ensures d <= radius as real <==> WithinRadius(sq, radius)
    ensures d < radius as real <==> InsideRadius(sq, radius)
  {
    if radius >= 0 {
      SquareMonotone(d, radius as real);
      assert (radius * radius) as real == (radius as real) * (radius as real);
    }
  }

  lemma HysteresisSwitchMeaning(b: real, c: real, best: nat, cur: nat, margin: nat)
    requires b >= 0.0 && c >= 0.0
    requires b * b == best as real && c * c == cur as real
    ensures b < c - margin as real <==> HysteresisSwitch(best, cur, margin)
  {
    var h := margin as real;
    var k := cur - best - margin * margin;
    SquareMonotone(b + h, c);
    assert (b + h) * (b + h) == best as real + 2.0 * h * b + h * h;
    assert b < c - h <==> 2.0 * h * b < k as real;
    assert 2.0 * h * b >= 0.0;
    if k > 0 {
      SquareMonotone(2.0 * h * b, k as real);
      assert (2.0 * h * b) * (2.0 * h * b) == 4.0 * h * h * (b * b);
      assert (4 * margin * margin * best) as real == 4.0 * h * h * (b * b);
      assert (k * k) as real == (k as real) * (k as real);
    }
  }
}
