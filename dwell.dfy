// The lock/dwell counter behind auto-fire. Every variant counts consecutive ticks on which
// the primary target sits inside the precision radius with a safe turret angle, fires when
// the count reaches the lock threshold and starts again from zero, and drops the count to
// zero on any tick that breaks the lock.
module Dwell {

  datatype DwellResult = DwellResult(count: nat, fire: bool)

  /** One tick of the counter; `locked` is this tick's lock condition. */
  function DwellStep(count: nat, locked: bool, lockFrames: nat): (r: DwellResult)
    ensures r.fire <==> locked && count + 1 >= lockFrames
    ensures r.fire || !locked ==> r.count == 0
    ensures locked && !r.fire ==> r.count == count + 1
    ensures count < lockFrames ==> r.count < lockFrames
  {
    if locked then
      if count + 1 >= lockFrames then DwellResult(0, true) else DwellResult(count + 1, false)
    else DwellResult(0, false)
  }

  /** Whether each tick of a run fires, given each tick's lock condition. */
  function DwellTrace(count: nat, locks: seq<bool>, lockFrames: nat): (fires: seq<bool>)
    ensures |fires| == |locks|
    decreases |locks|
  {
    if locks == [] then []
    else
      var r := DwellStep(count, locks[0], lockFrames);
      [r.fire] + DwellTrace(r.count, locks[1..], lockFrames)
  }

  /** The counter after a run of ticks. */
  function DwellCount(count: nat, locks: seq<bool>, lockFrames: nat): nat
    decreases |locks|
  {
    if locks == [] then count
    else DwellCount(DwellStep(count, locks[0], lockFrames).count, locks[1..], lockFrames)
  }

  /** The counter never reaches the threshold between ticks: it stays in [0, lockFrames - 1]. */
  lemma {:induction false} DwellCountBound(count: nat, locks: seq<bool>, lockFrames: nat)
    requires count < lockFrames
    ensures DwellCount(count, locks, lockFrames) < lockFrames
    decreases |locks|
  {
    if locks != [] {
      DwellCountBound(DwellStep(count, locks[0], lockFrames).count, locks[1..], lockFrames);
    }
  }

  /** An unbroken lock starting from count `c` fires on its (lockFrames - c)-th tick and on no
      earlier one: with c = 0 the first shot needs lockFrames consecutive locked ticks. */
  lemma {:induction false} SteadyLockFiresOnSchedule(c: nat, locks: seq<bool>, lockFrames: nat)
    requires c < lockFrames
    requires |locks| <= lockFrames - c
    requires forall i :: 0 <= i < |locks| ==> locks[i]
    ensures var fires := DwellTrace(c, locks, lockFrames);
      forall i :: 0 <= i < |locks| ==> (fires[i] <==> i == lockFrames - c - 1)
    decreases |locks|
  {
    if locks != [] {
      var r := DwellStep(c, true, lockFrames);
      var fires := DwellTrace(c, locks, lockFrames);
      var rest := DwellTrace(r.count, locks[1..], lockFrames);
      assert fires == [r.fire] + rest;
      if r.fire {
        assert c == lockFrames - 1;
      } else {
        assert r.count == c + 1;
        SteadyLockFiresOnSchedule(c + 1, locks[1..], lockFrames);
        assert rest == DwellTrace(c + 1, locks[1..], lockFrames);
        assert forall j :: 0 <= j < |locks[1..]| ==> (rest[j] <==> j == lockFrames - (c + 1) - 1);
        forall i | 1 <= i < |locks|
          ensures fires[i] <==> i == lockFrames - c - 1
        {
          assert fires[i] == rest[i - 1];
          assert rest[i - 1] <==> i - 1 == lockFrames - (c + 1) - 1;
        }
      }
    }
  }
}
