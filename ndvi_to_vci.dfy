/** convert_NDVI_to_VCI: each NDVI raster, with its cloud cover masked out,
    becomes a Vegetation Condition Index raster
    VCI = 100 * (NDVI - min) / (max - min), from the minimum and maximum of
    its dekadal timestep. */
module NdviToVci {
  import opened Values
  import opened Text
  import opened Grids

  /** NDVI values at or below this are cloud and become NaN. */
  const CloudFloor: real := 0.000001

  const MinMaxDir: string := "..\\..\\..\\Data\\Min_Max_Pixels\\"
  const VciDir: string := "..\\..\\..\\Data\\Processed_Data2\\RCMRD_VCI\\"

  /** Where read_min_max loads the maxima of a date: Max_ + date[4:]. */
  function MaxPath(date: string): string
  {
    MinMaxDir + "Max_" + Drop(date, 4)
  }

  /** Where read_min_max loads the minima of a date: Min_ + date[4:]. */
  function MinPath(date: string): string
  {
    MinMaxDir + "Min_" + Drop(date, 4)
  }

  /** Where save_data writes the VCI of a date. */
  function OutputPath(date: string): string
  {
    VciDir + date + ".tif"
  }

  /** The file names of two dates of one timestep in different years lead to
      the same minima and maxima. */
  lemma SameTimestepSameMinMax(a: string, b: string)
    requires |a| >= 4 && |b| >= 4 && a[4..] == b[4..]
    ensures MinPath(a) == MinPath(b) && MaxPath(a) == MaxPath(b)
  {
  }

  /** np.where(NDVI <= 0.000001, np.nan, NDVI) for one cell. */
  function Mask(x: Value): (m: Value)
    ensures m.NaN? <==> x.NaN? || Le(x, Num(CloudFloor))
    ensures !m.NaN? ==> m == x
  {
    if Le(x, Num(CloudFloor)) then NaN else x
  }

  /** Masking twice masks nothing more. */
  lemma MaskIdempotent(x: Value)
    ensures Mask(Mask(x)) == Mask(x)
  {
  }

  function Masked(g: Grid<Value>): (m: Grid<Value>)
    ensures SameShape(m, g)
    ensures forall i, j :: 0 <= i < |g| && 0 <= j < |g[i]| ==> m[i][j] == Mask(g[i][j])
  {
    MapCells(g, Mask)
  }

  /** The branch for years from 2019, 100*((N-min)/(max-min)), in numpy.ma
      arithmetic: the NDVI is a masked array with no cell masked, the minima
      and maxima plain arrays. */
  function VciCellCropped(n: Value, lo: Value, hi: Value): MaskedCell
  {
    MaScale(100.0, MaDiv(MaSub(MaskedCell(n, false), lo), Sub(hi, lo)))
  }

  /** The branch for earlier years, 100*(N-min)/(max-min). */
  function VciCellPlain(n: Value, lo: Value, hi: Value): MaskedCell
  {
    MaDiv(MaScale(100.0, MaSub(MaskedCell(n, false), lo)), Sub(hi, lo))
  }

  /** max - min lies outside numpy.ma's division domain even for the
      numerator 100 * (N - min). */
  predicate Resolvable(n: real, lo: real, hi: real)
  {
    Abs(100.0 * (n - lo)) * Tiny < Abs(hi - lo)
  }

  /** Where max - min resolves the numerator, the two branches give the same
      unmasked index 100 * (N - min) / (max - min). Where max == min, both
      mask the cell, but the branch from 2019 leaves 100 as its data and the
      earlier one 100 * (N - min). */
  lemma VciFormulasAgree(n: real, lo: real, hi: real)
    ensures Resolvable(n, lo, hi) ==>
      VciCellCropped(Num(n), Num(lo), Num(hi)) == MaskedCell(Num(100.0 * (n - lo) / (hi - lo)), false) &&
      VciCellPlain(Num(n), Num(lo), Num(hi)) == MaskedCell(Num(100.0 * (n - lo) / (hi - lo)), false)
    ensures hi == lo ==>
      VciCellCropped(Num(n), Num(lo), Num(hi)) == MaskedCell(Num(100.0), true) &&
      VciCellPlain(Num(n), Num(lo), Num(hi)) == MaskedCell(Num(100.0 * (n - lo)), true)
  {
    if Resolvable(n, lo, hi) {
      var x := n - lo;
      assert Abs(100.0 * x) == 100.0 * Abs(x);
      assert Abs(x) * Tiny <= Abs(100.0 * x) * Tiny;
      CroppedResolved(n, lo, hi);
      PlainResolved(n, lo, hi);
      ScaleDiv(100.0, x, hi - lo);
    }
  }

  lemma CroppedResolved(n: real, lo: real, hi: real)
    requires Abs(n - lo) * Tiny < Abs(hi - lo)
    ensures VciCellCropped(Num(n), Num(lo), Num(hi)) == MaskedCell(Num(100.0 * ((n - lo) / (hi - lo))), false)
  {
    var a := MaSub(MaskedCell(Num(n), false), Num(lo));
    assert a == MaskedCell(Num(n - lo), false);
    assert Sub(Num(hi), Num(lo)) == Num(hi - lo);
  }

  lemma PlainResolved(n: real, lo: real, hi: real)
    requires Resolvable(n, lo, hi)
    ensures VciCellPlain(Num(n), Num(lo), Num(hi)) == MaskedCell(Num((100.0 * (n - lo)) / (hi - lo)), false)
  {
    var a := MaScale(100.0, MaSub(MaskedCell(Num(n), false), Num(lo)));
    assert a == MaskedCell(Num(100.0 * (n - lo)), false);
    assert Sub(Num(hi), Num(lo)) == Num(hi - lo);
  }

  /** c * (a / d) and (c * a) / d are the same number. */
  lemma ScaleDiv(c: real, a: real, d: real)
    requires d != 0.0
    ensures c * (a / d) == (c * a) / d
  {
    DivMulCancel(a, d);
    assert c * a == (c * (a / d)) * d;
    MulDivCancel(c * (a / d), d);
  }

  /** A cloud pixel, NaN after Mask, is masked in both branches: the branch
      from 2019 leaves 100 as its data, the earlier one NaN. */
  lemma CloudCellMasked(lo: Value, hi: Value)
    ensures VciCellCropped(NaN, lo, hi) == MaskedCell(Num(100.0), true)
    ensures VciCellPlain(NaN, lo, hi) == MaskedCell(NaN, true)
  {
  }

  /** The index is 0 where NDVI is the minimum and 100 where it is the
      maximum, unmasked, when the two differ. */
  lemma VciEndpoints(lo: real, hi: real)
    requires lo != hi
    ensures VciCellCropped(Num(lo), Num(lo), Num(hi)) == MaskedCell(Num(0.0), false)
    ensures VciCellCropped(Num(hi), Num(lo), Num(hi)) == MaskedCell(Num(100.0), false)
    ensures VciCellPlain(Num(lo), Num(lo), Num(hi)) == MaskedCell(Num(0.0), false)
    ensures VciCellPlain(Num(hi), Num(lo), Num(hi)) == MaskedCell(Num(100.0), false)
  {
    assert Abs(100.0 * (hi - lo)) == 100.0 * Abs(hi - lo);
    assert Resolvable(hi, lo, hi);
    VciFormulasAgree(lo, lo, hi);
    VciFormulasAgree(hi, lo, hi);
    MulDivCancel(100.0, hi - lo);
  }

  /** An NDVI between the minimum and the maximum gives an unmasked index in
      [0, 100] in both branches. */
  lemma VciWithin(n: real, lo: real, hi: real)
    requires lo <= n <= hi && lo < hi
    ensures !VciCellPlain(Num(n), Num(lo), Num(hi)).masked && VciCellPlain(Num(n), Num(lo), Num(hi)).data.Num?
    ensures 0.0 <= VciCellPlain(Num(n), Num(lo), Num(hi)).data.r <= 100.0
    ensures VciCellCropped(Num(n), Num(lo), Num(hi)) == VciCellPlain(Num(n), Num(lo), Num(hi))
  {
    assert 0.0 <= 100.0 * (n - lo) <= 100.0 * (hi - lo);
    assert Abs(100.0 * (n - lo)) * Tiny <= 100.0 * (hi - lo) * Tiny < hi - lo;
    VciFormulasAgree(n, lo, hi);
    DivBelow(100.0 * (n - lo), hi - lo, 100.0);
  }

  lemma MulDivCancel(c: real, d: real)
    requires d != 0.0
    ensures (c * d) / d == c && d / d == 1.0
  {
  }

  lemma DivMulCancel(a: real, d: real)
    requires d != 0.0
    ensures (a / d) * d == a
  {
  }

  lemma DivBelow(a: real, d: real, c: real)
    requires d > 0.0 && 0.0 <= a <= c * d
    ensures 0.0 <= a / d <= c
  {
  }

  /** The VCI raster, cell by cell, with the formula of the branch taken. */
  function VciGrid(ndvi: Grid<Value>, mins: Grid<Value>, maxes: Grid<Value>, cropped: bool): (v: Grid<MaskedCell>)
    requires SameShape(ndvi, mins) && SameShape(ndvi, maxes)
    ensures SameShape(v, ndvi)
    ensures forall i, j :: 0 <= i < |ndvi| && 0 <= j < |ndvi[i]| ==>
      v[i][j] == if cropped then VciCellCropped(ndvi[i][j], mins[i][j], maxes[i][j])
                 else VciCellPlain(ndvi[i][j], mins[i][j], maxes[i][j])
  {
    seq(|ndvi|, i requires 0 <= i < |ndvi| =>
      seq(|ndvi[i]|, j requires 0 <= j < |ndvi[i]| =>
        if cropped then VciCellCropped(ndvi[i][j], mins[i][j], maxes[i][j])
        else VciCellPlain(ndvi[i][j], mins[i][j], maxes[i][j])))
  }

  /** A raster written to disk: its path and its bands, each cell with its
      mask bit. */
  datatype Saved = Saved(path: string, bands: seq<Grid<MaskedCell>>)

  /** Why a run stops: np.load finds no file, int() rejects the year, or the
      arrays do not have one shape. */
  datatype Error = MissingMinMax(path: string) | BadYear(date: string) | ShapeMismatch(date: string)

  /** What one file of the loop gives: the raster it saves, or the error. */
  datatype Converted = Converted(out: Saved) | Failed(why: Error)

  /** calc_vci and save_data for a date, given the masked NDVI and the
      loaded minima and maxima. */
  function CalcVci(date: string, ndvi: Grid<Value>, mins: Grid<Value>, maxes: Grid<Value>): Converted
  {
    match YearOf(date)
    case None => Failed(BadYear(date))
    case Some(year) =>
      var lo := if year >= 2019 then Cropped(mins) else mins;
      var hi := if year >= 2019 then Cropped(maxes) else maxes;
      if SameShape(ndvi, lo) && SameShape(ndvi, hi)
      then Converted(Saved(OutputPath(date), [VciGrid(ndvi, lo, hi, year >= 2019)]))
      else Failed(ShapeMismatch(date))
  }

  /** read_min_max, calc_vci and save_data for a date and its masked NDVI:
      load the maxima and then the minima of the date's timestep, compute and
      save. */
  function LoadAndCalc(date: string, ndvi: Grid<Value>, store: map<string, Grid<Value>>): Converted
  {
    if MaxPath(date) !in store then Failed(MissingMinMax(MaxPath(date)))
    else if MinPath(date) !in store then Failed(MissingMinMax(MinPath(date)))
    else CalcVci(date, ndvi, store[MinPath(date)], store[MaxPath(date)])
  }

  /** One file of read_and_store_data's loop: mask it, then LoadAndCalc. */
  function Convert(date: string, image: Grid<Value>, store: map<string, Grid<Value>>): Converted
  {
    LoadAndCalc(date, Masked(image), store)
  }

  /** A saved VCI raster has one band of the NDVI's shape, written under the
      date's own name; every cell, data and mask, is the masked-array formula
      of the branch taken on the cloud-masked NDVI. */
  lemma ConvertedShape(date: string, image: Grid<Value>, store: map<string, Grid<Value>>)
    requires Convert(date, image, store).Converted?
    ensures var out := Convert(date, image, store).out;
      out.path == OutputPath(date) && |out.bands| == 1 && SameShape(out.bands[0], image)
    ensures var out := Convert(date, image, store).out;
      var lo := store[MinPath(date)];
      var hi := store[MaxPath(date)];
      YearOf(date).Some? && YearOf(date).value < 2019 ==>
        forall i, j :: 0 <= i < |image| && 0 <= j < |image[i]| ==>
          out.bands[0][i][j] == VciCellPlain(Mask(image[i][j]), lo[i][j], hi[i][j])
    ensures var out := Convert(date, image, store).out;
      var lo := Cropped(store[MinPath(date)]);
      var hi := Cropped(store[MaxPath(date)]);
      YearOf(date).Some? && YearOf(date).value >= 2019 ==>
        SameShape(image, lo) && SameShape(image, hi) &&
        forall i, j :: 0 <= i < |image| && 0 <= j < |image[i]| ==>
          out.bands[0][i][j] == VciCellCropped(Mask(image[i][j]), lo[i][j], hi[i][j])
  {
  }

  /** One (date, raster) pair of the loop with the files on disk. */
  type Job = (string, Grid<Value>, map<string, Grid<Value>>)

  function ConvertJob(job: Job): Converted
  {
    Convert(job.0, job.1, job.2)
  }

  function Jobs(dates: seq<string>, images: seq<Grid<Value>>, store: map<string, Grid<Value>>, n: nat): (jobs: seq<Job>)
    requires n <= |dates| && n <= |images|
    ensures |jobs| == n
  {
    seq(n, t requires 0 <= t < n => (dates[t], images[t], store))
  }

  /** The conversion of each of the first n pairs, on its own. */
  function Conversions(dates: seq<string>, images: seq<Grid<Value>>, store: map<string, Grid<Value>>, n: nat): (cs: seq<Converted>)
    requires n <= |dates| && n <= |images|
    ensures |cs| == n
  {
    MapSeq(ConvertJob, Jobs(dates, images, store, n))
  }

  lemma ConversionsAt(dates: seq<string>, images: seq<Grid<Value>>, store: map<string, Grid<Value>>, n: nat, t: nat)
    requires n <= |dates| && n <= |images| && t < n
    ensures Conversions(dates, images, store, n)[t] == Convert(dates[t], images[t], store)
  {
    MapSeqAt(ConvertJob, Jobs(dates, images, store, n), t);
  }

  /** The outputs of the first n conversions, and how the loop ends: it
      stops at the first failure. */
  function RunUpTo(cs: seq<Converted>, n: nat): (r: (seq<Saved>, Option<Error>))
    requires n <= |cs|
    ensures |r.0| <= n
    ensures r.1 == None ==> |r.0| == n
  {
    if n == 0 then ([], None)
    else
      var prev := RunUpTo(cs, n - 1);
      if prev.1 != None then prev
      else match cs[n - 1]
        case Converted(out) => (prev.0 + [out], None)
        case Failed(why) => (prev.0, Some(why))
  }

  /** A run that completes writes one raster per pair, in order, each the
      conversion of its own file. */
  lemma {:induction false} RunOnePerPair(dates: seq<string>, images: seq<Grid<Value>>, store: map<string, Grid<Value>>, n: nat, t: nat)
    requires n <= |dates| && n <= |images| && t < n
    requires RunUpTo(Conversions(dates, images, store, n), n).1 == None
    ensures Convert(dates[t], images[t], store) == Converted(RunUpTo(Conversions(dates, images, store, n), n).0[t])
  {
    var cs := Conversions(dates, images, store, n);
    ConversionsAt(dates, images, store, n, t);
    RunCompletedAt(cs, n, t);
  }

  lemma {:induction false} RunCompletedAt(cs: seq<Converted>, n: nat, t: nat)
    requires n <= |cs| && t < n && RunUpTo(cs, n).1 == None
    ensures cs[t] == Converted(RunUpTo(cs, n).0[t])
  {
    var prev := RunUpTo(cs, n - 1);
    assert prev.1 == None;
    assert RunUpTo(cs, n).0 == prev.0 + [cs[n - 1].out];
    if t < n - 1 {
      RunCompletedAt(cs, n - 1, t);
    }
  }

  /** The loop stops at the first file that fails: later files change
      neither the outputs nor the outcome. */
  lemma {:induction false} RunStopsAtFailure(cs: seq<Converted>, m: nat, n: nat)
    requires m <= n <= |cs| && RunUpTo(cs, m).1 != None
    ensures RunUpTo(cs, n) == RunUpTo(cs, m)
  {
    if m < n {
      RunStopsAtFailure(cs, m, n - 1);
    }
  }

  class VciConverter {
    var filePaths: seq<string>
    var dates: seq<string>
    var ndvi: Option<Grid<Value>>
    var mins: Option<Grid<Value>>
    var maxes: Option<Grid<Value>>
    var vci: Option<Grid<MaskedCell>>
    var date: Option<string>
    /** The rasters written by save_data, in order. */
    var written: seq<Saved>

    constructor(filePaths: seq<string>, dates: seq<string>)
      ensures this.filePaths == filePaths && this.dates == dates
      ensures ndvi.None? && mins.None? && maxes.None? && vci.None? && date.None? && written == []
    {
      this.filePaths, this.dates := filePaths, dates;
      ndvi, mins, maxes, vci, date, written := None, None, None, None, None, [];
    }

    /** read_and_store_data: zip(file_paths, dates) stops at the shorter
        list; `images` are the rasters of the files. */
    method ReadAndStoreData(images: seq<Grid<Value>>, store: map<string, Grid<Value>>) returns (outcome: Option<Error>)
      requires |images| == |filePaths|
      modifies this
      ensures filePaths == old(filePaths) && dates == old(dates)
      ensures var n := if |filePaths| <= |dates| then |filePaths| else |dates|;
        var run := RunUpTo(Conversions(dates, images, store, n), n);
        written == old(written) + run.0 && outcome == run.1
    {
      var n := if |filePaths| <= |dates| then |filePaths| else |dates|;
      ghost var cs := Conversions(dates, images, store, n);
      ghost var before := written;
      outcome := None;
      assert written[|before|..] == [];
      for t := 0 to n
        invariant filePaths == old(filePaths) && dates == old(dates)
        invariant |before| <= |written| && written[..|before|] == before
        invariant outcome == None && RunUpTo(cs, t) == (written[|before|..], None)
      {
        ghost var done := written;
        outcome := ConvertFile(images, store, n, t);
        if outcome != None {
          assert cs[t].Failed? && written == done;
          RunStopsAtFailure(cs, t + 1, n);
          return;
        }
        assert written[|before|..] == done[|before|..] + [cs[t].out];
      }
    }

    /** The body of read_and_store_data's loop for pair t: read and mask the
        raster, take the date, then read_min_max. */
    method ConvertFile(images: seq<Grid<Value>>, store: map<string, Grid<Value>>, n: nat, t: nat) returns (outcome: Option<Error>)
      requires n <= |dates| && n <= |images| && t < n
      modifies this
      ensures filePaths == old(filePaths) && dates == old(dates)
      ensures var c := Conversions(dates, images, store, n)[t];
        (c.Converted? ==> outcome == None && written == old(written) + [c.out]) &&
        (c.Failed? ==> outcome == Some(c.why) && written == old(written))
    {
      ConversionsAt(dates, images, store, n, t);
      ndvi := Some(Masked(images[t]));
      date := Some(dates[t]);
      outcome := ReadMinMax(store);
    }

    /** read_min_max: the maxima, then the minima, of the date's timestep. */
    method ReadMinMax(store: map<string, Grid<Value>>) returns (outcome: Option<Error>)
      requires ndvi.Some? && date.Some?
      modifies this
      ensures filePaths == old(filePaths) && dates == old(dates)
      ensures var c := LoadAndCalc(old(date).value, old(ndvi).value, store);
        (c.Converted? ==> outcome == None && written == old(written) + [c.out]) &&
        (c.Failed? ==> outcome == Some(c.why) && written == old(written))
    {
      var d := date.value;
      if MaxPath(d) !in store {
        return Some(MissingMinMax(MaxPath(d)));
      }
      maxes := Some(store[MaxPath(d)]);
      if MinPath(d) !in store {
        return Some(MissingMinMax(MinPath(d)));
      }
      mins := Some(store[MinPath(d)]);
      outcome := CalcVciStep();
    }

    /** calc_vci: int(date[0:4]) picks the branch, then save_data. */
    method CalcVciStep() returns (outcome: Option<Error>)
      requires ndvi.Some? && date.Some? && mins.Some? && maxes.Some?
      modifies this
      ensures filePaths == old(filePaths) && dates == old(dates)
      ensures var c := CalcVci(old(date).value, old(ndvi).value, old(mins).value, old(maxes).value);
        (c.Converted? ==> outcome == None && written == old(written) + [c.out]) &&
        (c.Failed? ==> outcome == Some(c.why) && written == old(written))
    {
      var d, n := date.value, ndvi.value;
      var year := YearOf(d);
      if year.None? {
        return Some(BadYear(d));
      }
      var lo := if year.value >= 2019 then Cropped(mins.value) else mins.value;
      var hi := if year.value >= 2019 then Cropped(maxes.value) else maxes.value;
      if !(SameShape(n, lo) && SameShape(n, hi)) {
        return Some(ShapeMismatch(d));
      }
      vci := Some(VciGrid(n, lo, hi, year.value >= 2019));
      SaveData();
      outcome := None;
    }

    /** save_data: the raster gains a leading band axis and is written. */
    method SaveData()
      requires vci.Some? && date.Some?
      modifies this
      ensures filePaths == old(filePaths) && dates == old(dates) && date == old(date) && vci == old(vci)
      ensures written == old(written) + [Saved(OutputPath(date.value), [vci.value])]
    {
      written := written + [Saved(OutputPath(date.value), [vci.value])];
    }
  }

  /** As written: minima and maxima padded like the rasters from 2019 and then
      cropped by [6:-7, 5:-5] put a fill row over the NDVI's first row, so
      max - min is 0 along it and every cell of the first row is masked with
      data 100, whatever the NDVI. */
  lemma CropMisalignsVci(ndvi: Grid<Value>, mins: Grid<Value>, maxes: Grid<Value>, c: nat)
    requires Rect(ndvi, |ndvi|, c) && Rect(mins, |ndvi|, c) && Rect(maxes, |ndvi|, c)
    requires |ndvi| >= 1
    ensures SameShape(ndvi, Cropped(Padded(mins, c, Num(Sentinel))))
    ensures SameShape(ndvi, Cropped(Padded(maxes, c, Num(Sentinel))))
    ensures var v := VciGrid(ndvi, Cropped(Padded(mins, c, Num(Sentinel))), Cropped(Padded(maxes, c, Num(Sentinel))), true);
      forall j :: 0 <= j < c ==> v[0][j] == MaskedCell(Num(100.0), true)
  {
    CroppedPaddedShifted(mins, c, Num(Sentinel));
    CroppedPaddedShifted(maxes, c, Num(Sentinel));
  }

  /** Corrected: the crop [7:-6, 5:-5] undoes the padding, so the VCI of the
      padded minima and maxima is the VCI of the original ones. */
  lemma AlignedCropKeepsVci(ndvi: Grid<Value>, mins: Grid<Value>, maxes: Grid<Value>, c: nat, fill: Value)
    requires Rect(ndvi, |ndvi|, c) && Rect(mins, |ndvi|, c) && Rect(maxes, |ndvi|, c)
    ensures CroppedAligned(Padded(mins, c, fill)) == mins && CroppedAligned(Padded(maxes, c, fill)) == maxes
    ensures VciGrid(ndvi, CroppedAligned(Padded(mins, c, fill)), CroppedAligned(Padded(maxes, c, fill)), true)
      == VciGrid(ndvi, mins, maxes, true)
  {
    CroppedAlignedInvertsPadding(mins, c, fill);
    CroppedAlignedInvertsPadding(maxes, c, fill);
  }
}
