/** NDVI_normalisation: the per-pixel minimum and maximum of the NDVI
    rasters for each dekadal timestep, accumulated with numpy.fmin and
    numpy.fmax and written as Min_<timestep>.tif and Max_<timestep>.tif. */
module Normalisation {
  import opened Values
  import opened Text
  import opened Grids

  /** Only this many files are used (files[:648]). */
  const FileLimit: nat := 648
  /** The timesteps come from this many first files (files[:36]). */
  const TimestepCount: nat := 36
  /** The timestep is the base name from this character on ([12:]). */
  const KeyStart: nat := 12

  const MinMaxDir: string := "C:\\Rangeland\\image_data\\Andrew\\RCMRD Pipeline\\Data\\Min_Max_Pixels\\"

  /** path.split('\\')[-1].split('.tif')[0][12:]. */
  function Key(path: string): string
  {
    Drop(Before(After(path, "\\"), ".tif"), KeyStart)
  }

  /** The keys of all paths, in order. */
  function Keys(paths: seq<string>): (ks: seq<string>)
    ensures |ks| == |paths|
  {
    MapSeq(Key, paths)
  }

  lemma KeysAt(paths: seq<string>, t: nat)
    requires t < |paths|
    ensures Keys(paths)[t] == Key(paths[t])
  {
    MapSeqAt(Key, paths, t);
  }

  /** The path save_file writes the minima of a timestep to. */
  function MinPath(timestep: string): string
  {
    MinMaxDir + "Min_" + timestep + ".tif"
  }

  /** The path save_file writes the maxima of a timestep to. */
  function MaxPath(timestep: string): string
  {
    MinMaxDir + "Max_" + timestep + ".tif"
  }

  /** A raster written to disk, with its path. */
  datatype Saved = Saved(path: string, raster: Grid<Value>)

  /** The two accumulators, self.mins and self.maxes. */
  datatype Extremes = Extremes(mins: Grid<Value>, maxes: Grid<Value>)

  /** The accumulators are set together from one raster, so they share a shape. */
  predicate Paired(e: Extremes)
  {
    SameShape(e.mins, e.maxes)
  }

  predicate Shaped(e: Extremes, h: nat, w: nat)
  {
    Rect(e.mins, h, w) && Rect(e.maxes, h, w)
  }

  /** The accumulators after some files: still running (unset or set), or
      stopped at the matching file whose raster np.fmax refused because its
      shape differs (ValueError), with the accumulators that file found. */
  datatype Folded = Running(acc: Option<Extremes>) | Mismatch(number: nat, acc: Option<Extremes>)

  /** One matching file: its raster replaces both accumulators when it is
      the first file of the list, and is folded in with fmax and then fmin
      otherwise; a raster of another shape raises at fmax. */
  function Step(prev: Option<Extremes>, number: nat, ndvi: Grid<Value>): (f: Folded)
    requires number != 0 ==> prev.Some? && Paired(prev.value)
    ensures f.Mismatch? <==> number != 0 && !SameShape(prev.value.maxes, ndvi)
    ensures f.Mismatch? ==> f == Mismatch(number, prev)
    ensures f.Running? ==> f.acc.Some? && Paired(f.acc.value) && SameShape(f.acc.value.mins, ndvi)
  {
    if number == 0 then Running(Some(Extremes(ndvi, ndvi)))
    else if !SameShape(prev.value.maxes, ndvi) then Mismatch(number, prev)
    else Running(Some(Extremes(Zip(prev.value.mins, ndvi, FMin), Zip(prev.value.maxes, ndvi, FMax))))
  }

  /** The first file matches: the accumulators are set after it. */
  predicate Seeded(ts: string, keys: seq<string>, start: Folded)
  {
    start.acc.Some? || (|keys| >= 1 && Contains(keys[0], ts))
  }

  /** The state after the first n files of the inner loop for one timestep,
      starting from `start`; a mismatch ends the loop. */
  function Fold(ts: string, keys: seq<string>, images: seq<Grid<Value>>, start: Folded, n: nat): (r: Folded)
    requires n <= |keys| == |images|
    requires start.acc.Some? ==> Paired(start.acc.value)
    requires Seeded(ts, keys, start)
    ensures r.acc.Some? ==> Paired(r.acc.value)
    ensures (n >= 1 && start.Running?) || start.acc.Some? ==> r.acc.Some?
    ensures start.Mismatch? ==> r == start
  {
    if n == 0 then start
    else
      var prev := Fold(ts, keys, images, start, n - 1);
      if prev.Mismatch? || !Contains(keys[n - 1], ts) then prev
      else Step(prev.acc, n - 1, images[n - 1])
  }

  /** The state after the first k timesteps. */
  function Through(timesteps: seq<string>, keys: seq<string>, images: seq<Grid<Value>>, start: Option<Extremes>, k: nat): (r: Folded)
    requires 1 <= |timesteps| && k <= |timesteps| && 1 <= |keys| == |images|
    requires start.Some? ==> Paired(start.value)
    requires start.Some? || keys[0] == timesteps[0]
    ensures r.acc.Some? ==> Paired(r.acc.value)
    ensures k >= 1 || start.Some? ==> r.acc.Some?
  {
    if k == 0 then Running(start)
    else
      ContainsItself(keys[0]);
      Fold(timesteps[k - 1], keys, images, Through(timesteps, keys, images, start, k - 1), |keys|)
  }

  /** The files saved over the first k timesteps: Min_ and then Max_ for
      each timestep whose pass ended without a mismatch. */
  function Saves(timesteps: seq<string>, keys: seq<string>, images: seq<Grid<Value>>, start: Option<Extremes>, k: nat): (s: seq<Saved>)
    requires 1 <= |timesteps| && k <= |timesteps| && 1 <= |keys| == |images|
    requires start.Some? ==> Paired(start.value)
    requires start.Some? || keys[0] == timesteps[0]
    ensures |s| <= 2 * k
  {
    if k == 0 then []
    else
      var r := Through(timesteps, keys, images, start, k);
      var ts := timesteps[k - 1];
      if r.Mismatch? then Saves(timesteps, keys, images, start, k - 1)
      else Saves(timesteps, keys, images, start, k - 1) + [Saved(MinPath(ts), r.acc.value.mins), Saved(MaxPath(ts), r.acc.value.maxes)]
  }

  lemma AppendAssociates<T>(a: seq<T>, b: seq<T>, c: seq<T>)
    ensures a + b + c == a + (b + c)
  {
  }

  /** Timestep k + 1 adds its Min_ and Max_ files unless its pass stopped. */
  lemma SavesNext(timesteps: seq<string>, keys: seq<string>, images: seq<Grid<Value>>, start: Option<Extremes>, k: nat)
    requires 1 <= |timesteps| && k < |timesteps| && 1 <= |keys| == |images|
    requires start.Some? ==> Paired(start.value)
    requires start.Some? || keys[0] == timesteps[0]
    ensures var r := Through(timesteps, keys, images, start, k + 1);
      Saves(timesteps, keys, images, start, k + 1) ==
        Saves(timesteps, keys, images, start, k) +
        (if r.Mismatch? then [] else [Saved(MinPath(timesteps[k]), r.acc.value.mins), Saved(MaxPath(timesteps[k]), r.acc.value.maxes)])
  {
  }

  /** Once a pass stops at a mismatch, the later files change nothing. */
  lemma {:induction false} FoldStops(ts: string, keys: seq<string>, images: seq<Grid<Value>>, start: Folded, j: nat, n: nat)
    requires j <= n <= |keys| == |images|
    requires start.acc.Some? ==> Paired(start.acc.value)
    requires Seeded(ts, keys, start)
    requires Fold(ts, keys, images, start, j).Mismatch?
    ensures Fold(ts, keys, images, start, n) == Fold(ts, keys, images, start, j)
  {
    if n > j {
      FoldStops(ts, keys, images, start, j, n - 1);
    }
  }

  /** Every timestep up to k ran to its save exactly when the run is still
      going after k; then there are two saves per timestep. */
  lemma {:induction false} ThroughRunning(timesteps: seq<string>, keys: seq<string>, images: seq<Grid<Value>>, start: Option<Extremes>, j: nat, k: nat)
    requires 1 <= |timesteps| && j <= k <= |timesteps| && 1 <= |keys| == |images|
    requires start.Some? ==> Paired(start.value)
    requires start.Some? || keys[0] == timesteps[0]
    requires Through(timesteps, keys, images, start, k).Running?
    ensures Through(timesteps, keys, images, start, j).Running?
    ensures |Saves(timesteps, keys, images, start, k)| == 2 * k
  {
    if k > 0 {
      ThroughRunning(timesteps, keys, images, start, if j == k then k - 1 else j, k - 1);
    }
  }

  /** A mismatch in timestep j + 1 ends the run: the state stays, and only
      the saves of the first j timesteps are made. */
  lemma {:induction false} ThroughStops(timesteps: seq<string>, keys: seq<string>, images: seq<Grid<Value>>, start: Option<Extremes>, j: nat, k: nat)
    requires 1 <= |timesteps| && j < k <= |timesteps| && 1 <= |keys| == |images|
    requires start.Some? ==> Paired(start.value)
    requires start.Some? || keys[0] == timesteps[0]
    requires Through(timesteps, keys, images, start, j).Running? && Through(timesteps, keys, images, start, j + 1).Mismatch?
    ensures Through(timesteps, keys, images, start, k) == Through(timesteps, keys, images, start, j + 1)
    ensures Saves(timesteps, keys, images, start, k) == Saves(timesteps, keys, images, start, j)
    ensures |Saves(timesteps, keys, images, start, k)| == 2 * j
  {
    ThroughRunning(timesteps, keys, images, start, j, j);
    if k > j + 1 {
      ThroughStops(timesteps, keys, images, start, j, k - 1);
    }
  }

  class Normaliser {
    var files: seq<string>
    var timesteps: seq<string>
    var mins: Option<Grid<Value>>
    var maxes: Option<Grid<Value>>
    var timestep: Option<string>
    /** The rasters written by save_file, in order. */
    var saved: seq<Saved>

    /** The accumulators as one value; None while they are still None. */
    function Acc(): Option<Extremes>
      reads this
    {
      if mins.Some? && maxes.Some? then Some(Extremes(mins.value, maxes.value)) else None
    }

    /** The first timestep is the first file's own key, so the first file
        always matches it; the accumulators are set together, from one
        raster. */
    predicate Valid()
      reads this
    {
      |files| >= 1 && |timesteps| >= 1 && timesteps[0] == Keys(files)[0] && (mins.Some? <==> maxes.Some?) &&
      (Acc().Some? ==> Paired(Acc().value))
    }

    /** __init__: the first 648 files, and the keys of the first 36 as the
        timesteps. The metadata read from the first file is not modelled;
        that read fails on an empty list, hence the requirement. */
    constructor(fileList: seq<string>)
      requires |fileList| >= 1
      ensures files == Take(fileList, FileLimit)
      ensures timesteps == Keys(Take(files, TimestepCount))
      ensures mins.None? && maxes.None? && timestep.None? && saved == []
      ensures Valid()
    {
      var used := Take(fileList, FileLimit);
      files := used;
      timesteps := Keys(Take(used, TimestepCount));
      mins, maxes, timestep, saved := None, None, None, [];
      KeysAt(used, 0);
      KeysAt(Take(used, TimestepCount), 0);
    }

    /** normalise: for each timestep, fold in every file whose key contains
        it, then save both accumulators. A matching raster whose shape
        differs from the accumulators raises ValueError at np.fmax: the
        timesteps before it are saved, `done` of them. */
    method Normalise(images: seq<Grid<Value>>) returns (mismatch: Option<nat>, ghost done: nat)
      requires Valid() && |images| == |files|
      modifies this
      ensures files == old(files) && timesteps == old(timesteps) && Valid()
      ensures var keys, start := Keys(files), old(Acc());
        var r := Through(timesteps, keys, images, start, |timesteps|);
        Acc() == r.acc && (mismatch.Some? <==> r.Mismatch?) && (r.Mismatch? ==> mismatch == Some(r.number)) &&
        saved == old(saved) + Saves(timesteps, keys, images, start, |timesteps|)
      ensures mismatch.None? ==> done == |timesteps| && timestep == Some(timesteps[|timesteps| - 1])
      ensures mismatch.Some? ==> (var keys, start := Keys(files), old(Acc());
                                  done < |timesteps| && timestep == Some(timesteps[done]) &&
                                  Through(timesteps, keys, images, start, done).Running? &&
                                  Through(timesteps, keys, images, start, done + 1).Mismatch? &&
                                  |saved| == |old(saved)| + 2 * done)
    {
      ghost var keys := Keys(files);
      ghost var start := Acc();
      for k := 0 to |timesteps|
        invariant files == old(files) && timesteps == old(timesteps) && Valid()
        invariant Through(timesteps, keys, images, start, k) == Running(Acc())
        invariant saved == old(saved) + Saves(timesteps, keys, images, start, k)
        invariant k >= 1 ==> timestep == Some(timesteps[k - 1])
      {
        mismatch := OneTimestep(images, k, start, old(saved));
        if mismatch.Some? {
          ThroughStops(timesteps, keys, images, start, k, |timesteps|);
          return mismatch, k;
        }
      }
      mismatch, done := None, |timesteps|;
    }

    /** One pass of the outer loop: the files of timestep k, then the save,
        unless a raster of another shape stopped the pass. */
    method OneTimestep(images: seq<Grid<Value>>, k: nat, ghost start: Option<Extremes>, ghost before: seq<Saved>)
      returns (mismatch: Option<nat>)
      requires Valid() && |images| == |files| && k < |timesteps|
      requires start.Some? ==> Paired(start.value)
      requires start.Some? || Keys(files)[0] == timesteps[0]
      requires Through(timesteps, Keys(files), images, start, k) == Running(Acc())
      requires saved == before + Saves(timesteps, Keys(files), images, start, k)
      modifies this
      ensures files == old(files) && timesteps == old(timesteps) && Valid()
      ensures timestep == Some(timesteps[k])
      ensures var r := Through(timesteps, Keys(files), images, start, k + 1);
        Acc() == r.acc && (mismatch.Some? <==> r.Mismatch?) && (r.Mismatch? ==> mismatch == Some(r.number))
      ensures mismatch.None? ==> saved == old(saved) + [Saved(MinPath(timesteps[k]), mins.value), Saved(MaxPath(timesteps[k]), maxes.value)]
      ensures mismatch.Some? ==> saved == old(saved)
      ensures saved == before + Saves(timesteps, Keys(files), images, start, k + 1)
    {
      ghost var keys := Keys(files);
      ghost var extra: seq<Saved>;
      ContainsItself(keys[0]);
      timestep := Some(timesteps[k]);
      mismatch := PassFiles(images, timesteps[k]);
      if mismatch.None? {
        SaveFile();
        extra := [Saved(MinPath(timesteps[k]), mins.value), Saved(MaxPath(timesteps[k]), maxes.value)];
      } else {
        extra := [];
      }
      SavesNext(timesteps, keys, images, start, k);
      AppendAssociates(before, Saves(timesteps, keys, images, start, k), extra);
    }

    /** The inner loop of normalise for one timestep. */
    method PassFiles(images: seq<Grid<Value>>, ts: string) returns (mismatch: Option<nat>)
      requires Valid() && |images| == |files|
      requires Acc().Some? || Contains(Keys(files)[0], ts)
      modifies this
      ensures files == old(files) && timesteps == old(timesteps) && timestep == old(timestep) && saved == old(saved)
      ensures var r := Fold(ts, Keys(files), images, Running(old(Acc())), |files|);
        Valid() && Acc() == r.acc && (mismatch.Some? <==> r.Mismatch?) && (r.Mismatch? ==> mismatch == Some(r.number))
    {
      ghost var keys := Keys(files);
      ghost var start := Running(old(Acc()));
      for number := 0 to |files|
        invariant files == old(files) && timesteps == old(timesteps) && timestep == old(timestep) && saved == old(saved)
        invariant Valid() && Fold(ts, keys, images, start, number) == Running(Acc())
      {
        var date := ReadKey(number);
        if Contains(date, ts) {
          var ndvi := images[number];
          if number != 0 && !SameShape(maxes.value, ndvi) {
            FoldStops(ts, keys, images, start, number + 1, |files|);
            return Some(number);
          }
          Absorb(number, ndvi);
        }
      }
      mismatch := None;
    }

    /** One matching file: index 0 resets both accumulators to it, any
        other index folds it in with np.fmax and np.fmin. */
    method Absorb(number: nat, ndvi: Grid<Value>)
      requires Valid() && (number != 0 ==> Acc().Some? && SameShape(maxes.value, ndvi))
      modifies this
      ensures files == old(files) && timesteps == old(timesteps) && timestep == old(timestep) && saved == old(saved)
      ensures Valid() && Step(old(Acc()), number, ndvi).Running? && Acc() == Step(old(Acc()), number, ndvi).acc
    {
      if number == 0 {
        maxes, mins := Some(ndvi), Some(ndvi);
      } else {
        maxes, mins := Some(Zip(maxes.value, ndvi, FMax)), Some(Zip(mins.value, ndvi, FMin));
      }
    }

    /** The key of file `number`. */
    method ReadKey(number: nat) returns (date: string)
      requires number < |files|
      ensures date == Keys(files)[number]
    {
      date := Key(files[number]);
      KeysAt(files, number);
    }

    /** save_file: Min_<timestep>.tif, then Max_<timestep>.tif. */
    method SaveFile()
      requires Valid() && Acc().Some? && timestep.Some?
      modifies this
      ensures files == old(files) && timesteps == old(timesteps) && timestep == old(timestep)
      ensures mins == old(mins) && maxes == old(maxes)
      ensures saved == old(saved) + [Saved(MinPath(timestep.value), mins.value), Saved(MaxPath(timestep.value), maxes.value)]
    {
      saved := saved + [Saved(MinPath(timestep.value), mins.value), Saved(MaxPath(timestep.value), maxes.value)];
    }
  }

  /** A minimum and a maximum cell agree on NaN, and are ordered when numeric. */
  predicate CellOrdered(lo: Value, hi: Value)
  {
    (lo.NaN? <==> hi.NaN?) && (!lo.NaN? ==> Le(lo, hi))
  }

  predicate Ordered(e: Extremes)
    requires Paired(e)
  {
    forall i, j :: 0 <= i < |e.mins| && 0 <= j < |e.mins[i]| ==> CellOrdered(e.mins[i][j], e.maxes[i][j])
  }

  lemma CellStep(lo: Value, hi: Value, x: Value)
    requires CellOrdered(lo, hi)
    ensures CellOrdered(FMin(lo, x), FMax(hi, x))
  {
    if !lo.NaN? && !x.NaN? {
      LeTotal(lo, x);
      if Le(x, lo) { LeTransitive(x, lo, hi); }
    }
  }

  lemma CellFresh(x: Value)
    ensures CellOrdered(x, x)
  {
    if !x.NaN? { LeReflexive(x); }
  }

  /** One step keeps every pixel's minimum at or below its maximum. */
  lemma StepOrdered(prev: Option<Extremes>, number: nat, ndvi: Grid<Value>)
    requires number != 0 ==> prev.Some? && Paired(prev.value) && Ordered(prev.value)
    ensures var f := Step(prev, number, ndvi); f.acc.Some? ==> Ordered(f.acc.value)
  {
    var f := Step(prev, number, ndvi);
    if f.Running? {
      var e := f.acc.value;
      forall i, j | 0 <= i < |e.mins| && 0 <= j < |e.mins[i]| ensures CellOrdered(e.mins[i][j], e.maxes[i][j]) {
        if number == 0 {
          CellFresh(ndvi[i][j]);
        } else {
          CellStep(prev.value.mins[i][j], prev.value.maxes[i][j], ndvi[i][j]);
        }
      }
    }
  }

  lemma {:induction false} FoldOrdered(ts: string, keys: seq<string>, images: seq<Grid<Value>>, start: Folded, n: nat)
    requires n <= |keys| == |images|
    requires start.acc.Some? ==> Paired(start.acc.value) && Ordered(start.acc.value)
    requires Seeded(ts, keys, start)
    ensures var r := Fold(ts, keys, images, start, n); r.acc.Some? ==> Ordered(r.acc.value)
  {
    if n > 0 {
      FoldOrdered(ts, keys, images, start, n - 1);
      var prev := Fold(ts, keys, images, start, n - 1);
      if prev.Running? && Contains(keys[n - 1], ts) {
        StepOrdered(prev.acc, n - 1, images[n - 1]);
      }
    }
  }

  /** Through the whole run, mins <= maxes wherever numeric, and mins is NaN
      exactly where maxes is. */
  lemma {:induction false} ThroughOrdered(timesteps: seq<string>, keys: seq<string>, images: seq<Grid<Value>>, start: Option<Extremes>, k: nat)
    requires 1 <= |timesteps| && k <= |timesteps| && 1 <= |keys| == |images|
    requires start.Some? ==> Paired(start.value) && Ordered(start.value)
    requires start.Some? || keys[0] == timesteps[0]
    ensures var r := Through(timesteps, keys, images, start, k); r.acc.Some? ==> Ordered(r.acc.value)
  {
    if k > 0 {
      ThroughOrdered(timesteps, keys, images, start, k - 1);
      ContainsItself(keys[0]);
      FoldOrdered(timesteps[k - 1], keys, images, Through(timesteps, keys, images, start, k - 1), |keys|);
    }
  }

  /** `later` has maxima no lower and minima no higher than `earlier`, cell
      by cell, wherever `earlier` holds a number. */
  predicate Widened(earlier: Extremes, later: Extremes)
    requires Paired(earlier) && Paired(later) && SameShape(earlier.mins, later.mins)
  {
    forall i, j :: 0 <= i < |earlier.mins| && 0 <= j < |earlier.mins[i]| ==>
      (!earlier.maxes[i][j].NaN? ==> Le(earlier.maxes[i][j], later.maxes[i][j])) &&
      (!earlier.mins[i][j].NaN? ==> Le(later.mins[i][j], earlier.mins[i][j]))
  }

  lemma WidenedReflexive(e: Extremes)
    requires Paired(e)
    ensures Widened(e, e)
  {
    forall i, j | 0 <= i < |e.mins| && 0 <= j < |e.mins[i]|
      ensures !e.maxes[i][j].NaN? ==> Le(e.maxes[i][j], e.maxes[i][j])
      ensures !e.mins[i][j].NaN? ==> Le(e.mins[i][j], e.mins[i][j])
    {
      if !e.maxes[i][j].NaN? { LeReflexive(e.maxes[i][j]); }
      if !e.mins[i][j].NaN? { LeReflexive(e.mins[i][j]); }
    }
  }

  lemma WidenedTransitive(a: Extremes, b: Extremes, c: Extremes)
    requires Paired(a) && Paired(b) && Paired(c) && SameShape(a.mins, b.mins) && SameShape(b.mins, c.mins)
    requires Widened(a, b) && Widened(b, c)
    ensures SameShape(a.mins, c.mins) && Widened(a, c)
  {
    forall i, j | 0 <= i < |a.mins| && 0 <= j < |a.mins[i]|
      ensures !a.maxes[i][j].NaN? ==> Le(a.maxes[i][j], c.maxes[i][j])
      ensures !a.mins[i][j].NaN? ==> Le(c.mins[i][j], a.mins[i][j])
    {
      if !a.maxes[i][j].NaN? { LeTransitive(a.maxes[i][j], b.maxes[i][j], c.maxes[i][j]); }
      if !a.mins[i][j].NaN? { LeTransitive(c.mins[i][j], b.mins[i][j], a.mins[i][j]); }
    }
  }

  /** A step for any file but the first keeps the shape and only widens the
      accumulators, unless the raster's shape stops it. */
  lemma StepWidens(prev: Extremes, number: nat, ndvi: Grid<Value>)
    requires Paired(prev) && number != 0
    ensures var f := Step(Some(prev), number, ndvi);
      f.Running? ==> SameShape(prev.mins, f.acc.value.mins) && Widened(prev, f.acc.value)
  {
  }

  /** When the first file does not match a timestep, nothing resets: the
      pass for that timestep only widens what the earlier timesteps left,
      up to a mismatch, which leaves the accumulators as they were. */
  lemma {:induction false} FoldWidens(ts: string, keys: seq<string>, images: seq<Grid<Value>>, start: Extremes, n: nat)
    requires n <= |keys| == |images| && Paired(start)
    requires |keys| >= 1 && !Contains(keys[0], ts)
    ensures var r := Fold(ts, keys, images, Running(Some(start)), n);
      r.acc.Some? && Paired(r.acc.value) && SameShape(start.mins, r.acc.value.mins) && Widened(start, r.acc.value)
  {
    if n == 0 {
      WidenedReflexive(start);
    } else {
      FoldWidens(ts, keys, images, start, n - 1);
      var prev := Fold(ts, keys, images, Running(Some(start)), n - 1);
      if prev.Running? && Contains(keys[n - 1], ts) {
        var f := Step(prev.acc, n - 1, images[n - 1]);
        StepWidens(prev.acc.value, n - 1, images[n - 1]);
        if f.Running? {
          WidenedTransitive(start, prev.acc.value, f.acc.value);
        }
      }
    }
  }

  /** As written: Min_0111 is 1 although the only file of timestep 0111
      holds 2, because the minimum of timestep 0101 is carried over. */
  lemma CarriedAcrossTimesteps()
    ensures Through(["0101", "0111"], ["0101", "0111"], [[[Num(1.0)]], [[Num(2.0)]]], None, 2)
      == Running(Some(Extremes([[Num(1.0)]], [[Num(2.0)]])))
  {
    var keys := ["0101", "0111"];
    var images := [[[Num(1.0)]], [[Num(2.0)]]];
    ContainsItself(keys[0]);
    ContainsItself(keys[1]);
    assert !Contains(keys[1], keys[0]) by { NotContainedAt(keys[1], keys[0]); }
    assert !Contains(keys[0], keys[1]) by { NotContainedAt(keys[0], keys[1]); }
    var one := Running(Some(Extremes(images[0], images[0])));
    assert Fold(keys[0], keys, images, Running(None), 1) == one;
    assert Fold(keys[0], keys, images, Running(None), 2) == one;
    assert Through(keys, keys, images, None, 1) == one;
    assert Fold(keys[1], keys, images, one, 1) == one;
    assert SameShape(images[0], images[1]);
    var e := Step(one.acc, 1, images[1]);
    assert e.acc.value.mins == [[Num(1.0)]] && e.acc.value.maxes == [[Num(2.0)]] by {
      assert e.acc.value.mins[0][0] == FMin(Num(1.0), Num(2.0)) == Num(1.0);
      assert e.acc.value.maxes[0][0] == FMax(Num(1.0), Num(2.0)) == Num(2.0);
      assert e.acc.value.mins[0] == [Num(1.0)];
      assert e.acc.value.maxes[0] == [Num(2.0)];
    }
    assert Fold(keys[1], keys, images, one, 2) == e;
  }

  /** Two different strings of one length do not contain each other. */
  lemma NotContainedAt(s: string, pat: string)
    requires |s| == |pat| && s != pat
    ensures !Contains(s, pat)
  {
    forall k | 0 <= k <= |s| ensures !OccursAt(s, pat, k) {
      if k == 0 {
        assert s[0..|pat|] == s;
      }
    }
  }

  /** Corrected: each timestep starts afresh at its own first matching file. */
  function FoldFresh(ts: string, keys: seq<string>, images: seq<Grid<Value>>, h: nat, w: nat, n: nat): (r: Option<Extremes>)
    requires n <= |keys| == |images| && StackShape(images, h, w)
    ensures r.Some? ==> Shaped(r.value, h, w)
  {
    if n == 0 then None
    else
      var prev := FoldFresh(ts, keys, images, h, w, n - 1);
      if !Contains(keys[n - 1], ts) then prev
      else if prev.None? then Some(Extremes(images[n - 1], images[n - 1]))
      else Some(Extremes(Zip(prev.value.mins, images[n - 1], FMin), Zip(prev.value.maxes, images[n - 1], FMax)))
  }

  /** The corrected minima and maxima of a timestep depend only on the files
      of that timestep. */
  lemma {:induction false} FoldFreshLocal(ts: string, keys: seq<string>, images: seq<Grid<Value>>, other: seq<Grid<Value>>, h: nat, w: nat, n: nat)
    requires n <= |keys| == |images| == |other| && StackShape(images, h, w) && StackShape(other, h, w)
    requires forall t :: 0 <= t < |keys| && Contains(keys[t], ts) ==> images[t] == other[t]
    ensures FoldFresh(ts, keys, images, h, w, n) == FoldFresh(ts, keys, other, h, w, n)
  {
    if n > 0 {
      FoldFreshLocal(ts, keys, images, other, h, w, n - 1);
    }
  }

  /** The corrected minimum of a pixel is at or below, and its maximum at or
      above, every numeric value of that pixel among the timestep's files. */
  lemma {:induction false} FoldFreshBounds(ts: string, keys: seq<string>, images: seq<Grid<Value>>, h: nat, w: nat, n: nat, t: nat, i: nat, j: nat)
    requires n <= |keys| == |images| && StackShape(images, h, w)
    requires t < n && Contains(keys[t], ts) && i < h && j < w && !images[t][i][j].NaN?
    ensures var r := FoldFresh(ts, keys, images, h, w, n);
      r.Some? && Le(r.value.mins[i][j], images[t][i][j]) && Le(images[t][i][j], r.value.maxes[i][j])
  {
    var x := images[t][i][j];
    var prev := FoldFresh(ts, keys, images, h, w, n - 1);
    var r := FoldFresh(ts, keys, images, h, w, n);
    if t < n - 1 {
      FoldFreshBounds(ts, keys, images, h, w, n - 1, t, i, j);
      if Contains(keys[n - 1], ts) {
        var lo, hi := prev.value.mins[i][j], prev.value.maxes[i][j];
        assert r.value.mins[i][j] == FMin(lo, images[n - 1][i][j]);
        assert r.value.maxes[i][j] == FMax(hi, images[n - 1][i][j]);
        LeTransitive(r.value.mins[i][j], lo, x);
        LeTransitive(x, hi, r.value.maxes[i][j]);
      }
    } else if prev.None? {
      LeReflexive(x);
    } else {
      assert r.value.mins[i][j] == FMin(prev.value.mins[i][j], x);
      assert r.value.maxes[i][j] == FMax(prev.value.maxes[i][j], x);
    }
  }

  /** Corrected, a timestep has extremes exactly when one of its files is
      among the first n; each pixel's minimum and maximum are then values of
      that pixel in the timestep's files, and NaN exactly when the pixel is
      NaN in every one of them. */
  lemma {:induction false} FoldFreshAttained(ts: string, keys: seq<string>, images: seq<Grid<Value>>, h: nat, w: nat, n: nat, i: nat, j: nat)
    requires n <= |keys| == |images| && StackShape(images, h, w) && i < h && j < w
    ensures var r := FoldFresh(ts, keys, images, h, w, n);
      (r.Some? <==> exists t :: 0 <= t < n && Contains(keys[t], ts)) &&
      (r.Some? ==> (exists t :: 0 <= t < n && Contains(keys[t], ts) && r.value.mins[i][j] == images[t][i][j]) &&
                   (exists t :: 0 <= t < n && Contains(keys[t], ts) && r.value.maxes[i][j] == images[t][i][j]) &&
                   (r.value.mins[i][j].NaN? <==> forall t :: 0 <= t < n && Contains(keys[t], ts) ==> images[t][i][j].NaN?) &&
                   (r.value.maxes[i][j].NaN? <==> forall t :: 0 <= t < n && Contains(keys[t], ts) ==> images[t][i][j].NaN?))
  {
    if n > 0 {
      FoldFreshAttained(ts, keys, images, h, w, n - 1, i, j);
      var prev := FoldFresh(ts, keys, images, h, w, n - 1);
      var r := FoldFresh(ts, keys, images, h, w, n);
      var x := images[n - 1][i][j];
      if Contains(keys[n - 1], ts) {
        if prev.None? {
          assert r.value.mins[i][j] == x && r.value.maxes[i][j] == x;
          assert forall t :: 0 <= t < n && Contains(keys[t], ts) ==> t == n - 1;
        } else {
          var lo, hi := prev.value.mins[i][j], prev.value.maxes[i][j];
          assert r.value.mins[i][j] == FMin(lo, x) && r.value.maxes[i][j] == FMax(hi, x);
          var a :| 0 <= a < n - 1 && Contains(keys[a], ts) && lo == images[a][i][j];
          var b :| 0 <= b < n - 1 && Contains(keys[b], ts) && hi == images[b][i][j];
          if FMin(lo, x) == lo { assert Contains(keys[a], ts) && r.value.mins[i][j] == images[a][i][j]; }
          if FMax(hi, x) == hi { assert Contains(keys[b], ts) && r.value.maxes[i][j] == images[b][i][j]; }
        }
      }
    }
  }

  /** Corrected, the same two files give Min_0111 = 2. */
  lemma FreshNotCarried()
    ensures FoldFresh("0111", ["0101", "0111"], [[[Num(1.0)]], [[Num(2.0)]]], 1, 1, 2) == Some(Extremes([[Num(2.0)]], [[Num(2.0)]]))
  {
    var keys := ["0101", "0111"];
    var images := [[[Num(1.0)]], [[Num(2.0)]]];
    ContainsItself(keys[1]);
    assert !Contains(keys[0], keys[1]) by { NotContainedAt(keys[0], keys[1]); }
    assert FoldFresh(keys[1], keys, images, 1, 1, 1) == None;
  }
}
