/** The single left-to-right outlier pass that smooth_new and smooth_all run
    over each pixel's series before the Whittaker solve. */
module WhittakerOutliers {

  /** A sample at least this far below its successor is treated as a drop. */
  const JumpThreshold: real := 0.2
  /** A sample below this value is treated as a drop to zero (the no-data
      sentinel is far below it). */
  const FloorThreshold: real := 0.01

  /** The four samples the source writes at i-1..i+2: linear_array * m + c
      with linear_array = [0, 10, 20, 30], m = (v[i-1] - v[i+2]) / -30 and
      c = v[i+2] - 30 m. In exact arithmetic they are the points at thirds of
      the way along the line from v[i-1] to v[i+2]. */
  function Line(v: seq<real>, i: nat): (w: seq<real>)
    requires 1 <= i && i + 2 < |v|
    ensures |w| == 4
    ensures w[0] == v[i - 1] && w[3] == v[i + 2]
    ensures w[1] == v[i - 1] + (v[i + 2] - v[i - 1]) / 3.0
    ensures w[2] == v[i - 1] + 2.0 * (v[i + 2] - v[i - 1]) / 3.0
  {
    var y2 := v[i + 2];
    var m := (v[i - 1] - y2) / -30.0;
    var c := y2 - m * 30.0;
    [0.0 * m + c, 10.0 * m + c, 20.0 * m + c, 30.0 * m + c]
  }

  /** NDVI[i-1:i+3] = Line: the four samples replaced, all others kept. */
  function Overwrite(v: seq<real>, i: nat): (w: seq<real>)
    requires 1 <= i && i + 2 < |v|
    ensures |w| == |v|
    ensures forall k :: 0 <= k < |v| && (k < i - 1 || i + 2 < k) ==> w[k] == v[k]
    ensures forall t :: 0 <= t < 4 ==> w[i - 1 + t] == Line(v, i)[t]
  {
    v[..i - 1] + Line(v, i) + v[i + 3..]
  }

  /** The trigger at index i: the historical loop of smooth_all tests only the
      floor, every other loop tests a jump to the next sample or the floor. */
  predicate Fires(v: seq<real>, i: nat, floorOnly: bool)
    requires i + 1 < |v|
  {
    if floorOnly then v[i] < FloorThreshold
    else v[i + 1] >= v[i] + JumpThreshold || v[i] < FloorThreshold
  }

  function Step(v: seq<real>, i: nat, floorOnly: bool): seq<real>
    requires 1 <= i && i + 2 < |v|
  {
    if Fires(v, i, floorOnly) then Overwrite(v, i) else v
  }

  /** The loop `for i in range(start, len(v) - 2)` applied to v as it stands
      at `start`: each test reads the samples earlier steps have rewritten.
      The pass keeps the length and, in exact arithmetic, the two end samples,
      and never touches a sample before index start - 1. */
  function PassFrom(v: seq<real>, start: nat, floorOnly: bool): (w: seq<real>)
    requires 1 <= start
    ensures |w| == |v|
    ensures |v| > 0 ==> w[0] == v[0] && w[|v| - 1] == v[|v| - 1]
    ensures forall k :: 0 <= k < start - 1 && k < |v| ==> w[k] == v[k]
    decreases |v| - start
  {
    if start + 2 >= |v| then v
    else PassFrom(Step(v, start, floorOnly), start + 1, floorOnly)
  }

  /** The whole pass: i runs from 1 to len(v) - 3. */
  function OutlierPass(v: seq<real>, floorOnly: bool): (w: seq<real>)
    ensures |w| == |v|
  {
    PassFrom(v, 1, floorOnly)
  }

  /** A series of at most three samples is never changed. */
  lemma ShortSeriesUnchanged(v: seq<real>, floorOnly: bool)
    requires |v| <= 3
    ensures OutlierPass(v, floorOnly) == v
  {
  }

  /** The pass keeps the first and the last sample. */
  lemma PassKeepsEnds(v: seq<real>, floorOnly: bool)
    requires |v| > 0
    ensures OutlierPass(v, floorOnly)[0] == v[0]
    ensures OutlierPass(v, floorOnly)[|v| - 1] == v[|v| - 1]
  {
  }

  /** A sample equal to the no-data sentinel always fires the trigger. */
  lemma SentinelFires(v: seq<real>, i: nat, floorOnly: bool, sentinel: real)
    requires i + 1 < |v| && v[i] == sentinel && sentinel < FloorThreshold
    ensures Fires(v, i, floorOnly)
  {
  }

  /** No sample at or after `start` (up to the last tested one) is below the floor. */
  predicate AboveFloorFrom(v: seq<real>, start: nat)
  {
    forall k :: start <= k < |v| - 2 ==> v[k] >= FloorThreshold
  }

  /** The floor-only pass leaves a series with no sub-floor sample unchanged. */
  lemma {:induction false} FloorPassIdentity(v: seq<real>, start: nat)
    requires 1 <= start && AboveFloorFrom(v, start)
    ensures PassFrom(v, start, true) == v
    decreases |v| - start
  {
    if start + 2 < |v| {
      assert !Fires(v, start, true);
      FloorPassIdentity(v, start + 1);
    }
  }

  /** The series of n copies of level. */
  function Constant(level: real, n: nat): (v: seq<real>)
    ensures |v| == n && forall k :: 0 <= k < n ==> v[k] == level
  {
    seq(n, _ => level)
  }

  /** A constant series at or above the floor passes through the full test unchanged. */
  lemma {:induction false} ConstantPassIdentity(level: real, n: nat, start: nat)
    requires 1 <= start && level >= FloorThreshold
    ensures PassFrom(Constant(level, n), start, false) == Constant(level, n)
    decreases n - start
  {
    if start + 2 < n {
      assert !Fires(Constant(level, n), start, false);
      ConstantPassIdentity(level, n, start + 1);
    }
  }

  /** level everywhere except level + rise at index p. */
  function Spike(level: real, rise: real, n: nat, p: nat): (v: seq<real>)
    ensures |v| == n
    ensures forall k :: 0 <= k < n ==> v[k] == if k == p then level + rise else level
  {
    seq(n, k => if k == p then level + rise else level)
  }

  /** A single upward spike of at least the jump threshold on a flat series is
      removed completely: the test fires at i = p - 1, where the next sample
      jumps, and rewrites p-2..p+1 on the flat line; nothing fires afterwards.
      (For a spike at step 20 of a flat series the rewritten samples are
      18..21.) */
  lemma SpikeFlattened(level: real, rise: real, n: nat, p: nat)
    requires level >= FloorThreshold && rise >= JumpThreshold
    requires 2 <= p && p + 2 <= n
    ensures OutlierPass(Spike(level, rise, n, p), false) == Constant(level, n)
  {
    SpikeFlattenedFrom(level, rise, n, p, 1);
  }

  lemma {:induction false} SpikeFlattenedFrom(level: real, rise: real, n: nat, p: nat, start: nat)
    requires level >= FloorThreshold && rise >= JumpThreshold
    requires 2 <= p && p + 2 <= n && 1 <= start <= p - 1
    ensures PassFrom(Spike(level, rise, n, p), start, false) == Constant(level, n)
    decreases p - start
  {
    var v := Spike(level, rise, n, p);
    if start < p - 1 {
      assert !Fires(v, start, false);
      SpikeFlattenedFrom(level, rise, n, p, start + 1);
    } else {
      assert Fires(v, start, false);
      var w := Overwrite(v, start);
      assert w == Constant(level, n);
      ConstantPassIdentity(level, n, start + 1);
    }
  }

  /** The pass is not a filter on the input: a correction at i changes the
      test at i + 1. Here the input would fire at i = 2, but the rewrite made
      at i = 1 removes that jump before i = 2 is tested. */
  lemma PassReadsRewrittenSamples()
    ensures Fires([0.5, 0.5, 0.75, 1.0, 1.0], 2, false)
    ensures !Fires(Step([0.5, 0.5, 0.75, 1.0, 1.0], 1, false), 2, false)
  {
    var v := [0.5, 0.5, 0.75, 1.0, 1.0];
    assert Fires(v, 1, false);
    var w := Step(v, 1, false);
    assert w[2] == 0.5 + 2.0 * (1.0 - 0.5) / 3.0;
    assert w[3] == 1.0;
  }

  /** The pass in place on a[lo..hi], the view the source's loops work on;
      everything outside the view is left alone. */
  method CorrectInPlace(a: array<real>, lo: nat, hi: nat, floorOnly: bool)
    requires lo <= hi <= a.Length
    modifies a
    ensures a[..] == old(a[..lo]) + OutlierPass(old(a[lo..hi]), floorOnly) + old(a[hi..])
  {
    ghost var orig := a[lo..hi];
    var n := hi - lo;
    var i := 1;
    while i + 2 < n
      invariant 1 <= i
      invariant forall k :: 0 <= k < a.Length && (k < lo || hi <= k) ==> a[k] == old(a[k])
      invariant PassFrom(a[lo..hi], i, floorOnly) == OutlierPass(orig, floorOnly)
      decreases n - i
    {
      var fires := if floorOnly then a[lo + i] < FloorThreshold
                   else a[lo + i + 1] >= a[lo + i] + JumpThreshold || a[lo + i] < FloorThreshold;
      if fires {
        RewriteWindow(a, lo, hi, i);
      }
      i := i + 1;
    }
    ghost var want := old(a[..lo]) + OutlierPass(orig, floorOnly) + old(a[hi..]);
    assert |want| == a.Length;
    forall k | 0 <= k < a.Length ensures a[k] == want[k] {
      if lo <= k < hi {
        assert a[k] == a[lo..hi][k - lo];
      }
    }
  }

  /** NDVI[i-1:i+3] = linear_array * m + c on the view a[lo..hi]. */
  method RewriteWindow(a: array<real>, lo: nat, hi: nat, i: nat)
    requires lo <= hi <= a.Length && 1 <= i && lo + i + 2 < hi
    modifies a
    ensures a[lo..hi] == Overwrite(old(a[lo..hi]), i)
    ensures forall k :: 0 <= k < a.Length && (k < lo || hi <= k) ==> a[k] == old(a[k])
  {
    ghost var before := a[lo..hi];
    var y2 := a[lo + i + 2];
    var m := (a[lo + i - 1] - y2) / -30.0;
    var c := y2 - m * 30.0;
    a[lo + i - 1], a[lo + i], a[lo + i + 1], a[lo + i + 2] := 0.0 * m + c, 10.0 * m + c, 20.0 * m + c, 30.0 * m + c;
    ghost var w := Overwrite(before, i);
    forall k | 0 <= k < hi - lo ensures a[lo..hi][k] == w[k] {
      if k < i - 1 || i + 2 < k {
        assert a[lo + k] == old(a[lo + k]);
      }
    }
  }
}
