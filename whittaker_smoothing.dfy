/** smooth_new and smooth_all: every pixel series of a strip is either
    replaced by the no-data sentinel (too sparse) or cleaned by the outlier
    pass and smoothed by the Whittaker solve. */
module WhittakerSmoothing {
  import opened Values
  import opened Grids
  import opened WhittakerOutliers
  import opened WhittakerOperator

  /** A series with more sentinel samples than this is not smoothed. */
  const SparseLimit: nat := 400
  /** smooth_all: the sparse test and the floor-only pass see the first 563
      samples (up to 2016-08-01). */
  const HistoryLength: nat := 563
  /** smooth_all: the full pass and the solve see the samples from 553 on. */
  const TailStart: nat := 553
  /** smooth_all: the first 10 solved samples overlap the history and are dropped. */
  const TailOverlap: nat := 10
  const Lambda: real := 5.0
  /** maxiter = data_length * 10. */
  const IterationsPerSample: nat := 10

  function Min(a: nat, b: nat): nat
  {
    if a <= b then a else b
  }

  /** numpy.count_nonzero(v == x). */
  function CountEqual(v: seq<real>, x: real): (n: nat)
    ensures n <= |v|
    ensures n == 0 <==> forall k :: 0 <= k < |v| ==> v[k] != x
  {
    if v == [] then 0
    else CountEqual(v[..|v| - 1], x) + (if v[|v| - 1] == x then 1 else 0)
  }

  predicate TooSparse(v: seq<real>)
  {
    CountEqual(v, Sentinel) > SparseLimit
  }

  /** Python's z[k:] for k >= 0. */
  function DropFront(z: seq<real>, k: nat): (r: seq<real>)
    ensures |r| == if k <= |z| then |z| - k else 0
    ensures forall j :: 0 <= j < |r| ==> r[j] == z[k + j]
  {
    if k <= |z| then z[k..] else []
  }

  /** smooth_new for one pixel. */
  function SmoothNewSeries(v: seq<real>, cg: Solver): (r: seq<real>)
    requires |v| >= 3
    ensures |r| == |v|
  {
    if TooSparse(v) then Constant(Sentinel, |v|)
    else Whitsm(OutlierPass(v, false), Lambda, |v|, |v| * IterationsPerSample, cg)
  }

  /** The number of samples smooth_all treats as history: len(v[:563]). */
  function HistoryEnd(v: seq<real>): nat
  {
    Min(|v|, HistoryLength)
  }

  /** The series after both of smooth_all's passes: the floor-only pass on
      the view v[:563], then the full pass on the view v[553:], which sees the
      first pass's rewrites in the ten samples the views share. */
  function BothPasses(v: seq<real>): (w: seq<real>)
    requires |v| >= TailStart
    ensures |w| == |v|
  {
    var hist := HistoryEnd(v);
    var w1 := OutlierPass(v[..hist], true) + v[hist..];
    w1[..TailStart] + OutlierPass(w1[TailStart..], false)
  }

  /** smooth_all for one pixel: the corrected history followed by the solved
      tail without its first ten samples. */
  function SmoothAllSeries(v: seq<real>, cg: Solver): (r: seq<real>)
    requires |v| >= TailStart + 3
    ensures |r| == |v|
  {
    var hist := HistoryEnd(v);
    if TooSparse(v[..hist]) then Constant(Sentinel, |v|)
    else
      var w := BothPasses(v);
      var z := Whitsm(w[TailStart..], Lambda, |v| - TailStart, (|v| - TailStart) * IterationsPerSample, cg);
      w[..hist] + DropFront(z, TailOverlap)
  }

  /** The solve in smooth_all covers the tail only. */
  function SolvedTail(v: seq<real>, cg: Solver): (z: seq<real>)
    requires |v| >= TailStart + 3
    ensures |z| == |v| - TailStart
  {
    var w := BothPasses(v);
    Whitsm(w[TailStart..], Lambda, |v| - TailStart, (|v| - TailStart) * IterationsPerSample, cg)
  }

  /** A pixel whose history has more than 400 sentinels is all sentinels,
      whatever its new samples hold. */
  lemma SparseHistoryFills(v: seq<real>, cg: Solver)
    requires |v| >= TailStart + 3 && TooSparse(v[..HistoryEnd(v)])
    ensures forall k :: 0 <= k < |v| ==> SmoothAllSeries(v, cg)[k] == Sentinel
  {
  }

  /** In smooth_all the samples after the history come from the solver,
      shifted by the ten overlap samples it drops. */
  lemma SmoothAllTailFromSolver(v: seq<real>, cg: Solver)
    requires |v| >= HistoryLength && !TooSparse(v[..HistoryLength])
    ensures forall k :: HistoryLength <= k < |v| ==>
      SmoothAllSeries(v, cg)[k] == SolvedTail(v, cg)[k - HistoryLength + TailOverlap]
  {
    assert HistoryEnd(v) == HistoryLength;
    var r := SmoothAllSeries(v, cg);
    var tail := DropFront(SolvedTail(v, cg), TailOverlap);
    assert r == BothPasses(v)[..HistoryLength] + tail;
    forall k | HistoryLength <= k < |v|
      ensures r[k] == SolvedTail(v, cg)[k - HistoryLength + TailOverlap]
    {
      assert r[k] == tail[k - HistoryLength];
    }
  }

  /** In smooth_all no sample of the history is smoothed: the ten samples the
      two views share carry the full pass's rewrites, the samples before them
      only the floor-only pass's. */
  lemma SmoothAllHistoryNotSolved(v: seq<real>, cg: Solver)
    requires |v| >= TailStart + 3 && !TooSparse(v[..HistoryEnd(v)])
    ensures forall k :: 0 <= k < HistoryEnd(v) ==> SmoothAllSeries(v, cg)[k] == BothPasses(v)[k]
  {
  }

  /** A history that has been cleaned already (no sample below the floor)
      comes out unchanged up to the overlap. */
  lemma {:induction false} CleanHistoryKept(v: seq<real>, cg: Solver)
    requires |v| >= TailStart + 3 && !TooSparse(v[..HistoryEnd(v)])
    requires AboveFloorFrom(v[..HistoryEnd(v)], 1)
    ensures SmoothAllSeries(v, cg)[..TailStart] == v[..TailStart]
  {
    var hist := HistoryEnd(v);
    FloorPassIdentity(v[..hist], 1);
    assert v[..hist] + v[hist..] == v;
    var w := BothPasses(v);
    assert w[..TailStart] == v[..TailStart];
  }

  /** np.array(v): a fresh array holding v. */
  method Copy(v: seq<real>) returns (a: array<real>)
    ensures fresh(a) && a[..] == v
  {
    a := new real[|v|](k requires 0 <= k < |v| => v[k]);
  }

  /** The pixel smoothed by smooth_new, on a fresh copy as np.array makes
      it: the sparse test, the full pass in place, the solve. */
  method SmoothPixelNew(v: seq<real>, cg: Solver) returns (r: seq<real>)
    requires |v| >= 3
    ensures r == SmoothNewSeries(v, cg)
  {
    var n := |v|;
    if CountEqual(v, Sentinel) > SparseLimit {
      r := Constant(Sentinel, n);
      return;
    }
    var a := Copy(v);
    CorrectInPlace(a, 0, n, false);
    assert a[..] == OutlierPass(v, false) by {
      assert a[..] == [] + OutlierPass(v[0..n], false) + [];
      assert v[0..n] == v;
    }
    r := Whitsm(a[..], Lambda, n, n * IterationsPerSample, cg);
  }

  /** The pixel smoothed by smooth_all: the sparse test on the history, the
      floor-only pass on a[:563] and the full pass on a[553:] in place, then
      the solve of a[553:] and the concatenation. */
  method SmoothPixelAll(v: seq<real>, cg: Solver) returns (r: seq<real>)
    requires |v| >= TailStart + 3
    ensures r == SmoothAllSeries(v, cg)
  {
    var n := |v|;
    var hist := Min(n, HistoryLength);
    if CountEqual(v[..hist], Sentinel) > SparseLimit {
      r := Constant(Sentinel, n);
      return;
    }
    var a := Copy(v);
    CorrectInPlace(a, 0, hist, true);
    assert a[..] == OutlierPass(v[..hist], true) + v[hist..] by {
      assert a[..] == [] + OutlierPass(v[0..hist], true) + v[hist..];
      assert v[0..hist] == v[..hist];
    }
    ghost var w1 := a[..];
    CorrectInPlace(a, TailStart, n, false);
    assert a[..] == BothPasses(v) by {
      assert a[..] == w1[..TailStart] + OutlierPass(w1[TailStart..n], false) + [];
      assert w1[TailStart..n] == w1[TailStart..];
    }
    var z := Whitsm(a[TailStart..], Lambda, n - TailStart, (n - TailStart) * IterationsPerSample, cg);
    r := a[..hist] + DropFront(z, TailOverlap);
  }

  /** The series of pixel (y, x) through a stack of rasters. */
  function PixelSeries(stack: seq<Grid<real>>, height: nat, width: nat, y: nat, x: nat): (v: seq<real>)
    requires StackShape(stack, height, width) && y < height && x < width
    ensures |v| == |stack| && forall t :: 0 <= t < |stack| ==> v[t] == stack[t][y][x]
  {
    seq(|stack|, t requires 0 <= t < |stack| => stack[t][y][x])
  }

  /** The stack length each routine needs for its solve: smooth_new solves
      the whole series, smooth_all the samples from 553 on. */
  predicate LongEnough(n: nat, endOnly: bool)
  {
    if endOnly then n >= 3 else n >= TailStart + 3
  }

  /** run_smoothing picks smooth_new when only the end is to be smoothed. */
  function SmoothSeries(v: seq<real>, endOnly: bool, cg: Solver): (r: seq<real>)
    requires LongEnough(|v|, endOnly)
    ensures |r| == |v|
  {
    if endOnly then SmoothNewSeries(v, cg) else SmoothAllSeries(v, cg)
  }

  /** The smoothed value of pixel (y, x) at step t. */
  function SmoothedAt(stack: seq<Grid<real>>, height: nat, width: nat, endOnly: bool, cg: Solver, t: nat, y: nat, x: nat): real
    requires StackShape(stack, height, width) && LongEnough(|stack|, endOnly)
    requires t < |stack| && y < height && x < width
  {
    SmoothSeries(PixelSeries(stack, height, width, y, x), endOnly, cg)[t]
  }

  /** Every pixel is smoothed on its own series: the strip loops of
      smooth_new and smooth_all over x, then y, writing smoothed_array[:, y, x]. */
  method SmoothStrip(stack: seq<Grid<real>>, height: nat, width: nat, endOnly: bool, cg: Solver)
    returns (out: array3<real>)
    requires StackShape(stack, height, width) && LongEnough(|stack|, endOnly)
    ensures fresh(out)
    ensures out.Length0 == |stack| && out.Length1 == height && out.Length2 == width
    ensures forall t, y, x :: 0 <= t < |stack| && 0 <= y < height && 0 <= x < width ==>
      out[t, y, x] == SmoothedAt(stack, height, width, endOnly, cg, t, y, x)
  {
    out := new real[|stack|, height, width];
    for x := 0 to width
      invariant forall t, y, x' :: 0 <= t < |stack| && 0 <= y < height && 0 <= x' < x ==>
        out[t, y, x'] == SmoothedAt(stack, height, width, endOnly, cg, t, y, x')
    {
      SmoothColumn(stack, height, width, endOnly, cg, out, x);
    }
  }

  /** The inner loop over y for one x. */
  method SmoothColumn(stack: seq<Grid<real>>, height: nat, width: nat, endOnly: bool, cg: Solver, out: array3<real>, x: nat)
    requires StackShape(stack, height, width) && LongEnough(|stack|, endOnly)
    requires out.Length0 == |stack| && out.Length1 == height && out.Length2 == width && x < width
    modifies out
    ensures forall t, y, x' :: 0 <= t < |stack| && 0 <= y < height && 0 <= x' < width ==>
      out[t, y, x'] == if x' == x then SmoothedAt(stack, height, width, endOnly, cg, t, y, x) else old(out[t, y, x'])
  {
    for y := 0 to height
      invariant forall t, y', x' :: 0 <= t < |stack| && 0 <= y' < height && 0 <= x' < width ==>
        out[t, y', x'] == if x' == x && y' < y then SmoothedAt(stack, height, width, endOnly, cg, t, y', x) else old(out[t, y', x'])
    {
      var v := PixelSeries(stack, height, width, y, x);
      var r;
      if endOnly {
        r := SmoothPixelNew(v, cg);
      } else {
        r := SmoothPixelAll(v, cg);
      }
      forall t | 0 <= t < |stack| {
        out[t, y, x] := r[t];
      }
    }
  }

  /** Smoothed_NDVI[t, :, :]. */
  function Layer(a: array3<real>, t: nat): (g: Grid<real>)
    requires t < a.Length0
    reads a
    ensures Rect(g, a.Length1, a.Length2)
    ensures forall y, x :: 0 <= y < a.Length1 && 0 <= x < a.Length2 ==> g[y][x] == a[t, y, x]
  {
    seq(a.Length1, y requires 0 <= y < a.Length1 reads a =>
      seq(a.Length2, x requires 0 <= x < a.Length2 reads a => a[t, y, x]))
  }
}
