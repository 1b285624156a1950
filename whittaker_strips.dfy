/** run_smoothing and create_tif: the 3611-column raster is cut into 157
    strips 23 columns wide, each strip's stack is smoothed and every layer is
    saved as an artifact keyed by (strip, day); the day images are then
    reassembled from the artifacts and written out. */
module WhittakerStrips {
  import opened Values
  import opened Text
  import opened Grids
  import opened WhittakerOperator
  import opened WhittakerSmoothing

  /** Window_x_size. */
  const StripWidth: nat := 23
  /** Window_y_size: every window spans the full height. */
  const StripHeight: nat := 4406
  const StripCount: nat := 157
  /** The stop of range(0, 3611, 23): the raster width. */
  const Extent: nat := 3611

  /** Python's range(start, stop, step) for a positive step. */
  function PyRange(start: int, stop: int, step: nat): seq<int>
    requires step > 0
    decreases stop - start
  {
    if start >= stop then [] else [start] + PyRange(start + step, stop, step)
  }

  lemma {:induction false} RangeOfMultiples(a: int, step: nat, n: nat)
    requires step > 0
    ensures PyRange(a, a + step * n, step) == seq(n, k => a + step * k)
    decreases n
  {
    if n > 0 {
      var m: nat := n - 1;
      RangeOfMultiples(a + step, step, m);
      MultipleSucc(step, m);
      var tail, whole := seq(m, k => a + step + step * k), seq(n, k => a + step * k);
      forall k | 1 <= k < n ensures whole[k] == tail[k - 1] {
        MultipleSucc(step, k - 1);
      }
      assert whole == [a] + tail;
    } else {
      assert step * n == 0;
    }
  }

  lemma MultipleSucc(step: nat, k: nat)
    ensures step * (k + 1) == step * k + step && step * k >= 0
  {
  }

  /** range(0, 3611, 23) yields the 157 strip offsets 0, 23, ..., 3588. */
  lemma StripOffsets()
    ensures PyRange(0, Extent, StripWidth) == seq(StripCount, s => StripWidth * s)
  {
    RangeOfMultiples(0, StripWidth, StripCount);
  }

  /** Column c lies in strip s. */
  predicate InStrip(s: int, c: int)
  {
    StripWidth * s <= c < StripWidth * s + StripWidth
  }

  /** The strip holding column c: every column of the raster lies in one of
      the 157 strips. */
  function StripOf(c: nat): (s: nat)
    ensures InStrip(s, c)
    ensures c < Extent ==> s < StripCount
  {
    c / StripWidth
  }

  /** The position of column c inside its strip. */
  function InStripColumn(c: nat): (x: nat)
    ensures x < StripWidth && c == StripWidth * StripOf(c) + x
  {
    c - StripWidth * StripOf(c)
  }

  /** No column lies in two strips. */
  lemma StripsDisjoint(s1: int, s2: int, c: int)
    requires InStrip(s1, c) && InStrip(s2, c)
    ensures s1 == s2
  {
  }

  /** Window(pos_x, 0, 23, 4406) read from a 4406 x 3611 raster. */
  function Window(g: Grid<real>, posX: nat): (w: Grid<real>)
    requires Rect(g, StripHeight, Extent) && posX + StripWidth <= Extent
    ensures Rect(w, StripHeight, StripWidth)
    ensures forall r, x :: 0 <= r < StripHeight && 0 <= x < StripWidth ==> w[r][x] == g[r][posX + x]
  {
    seq(StripHeight, r requires 0 <= r < StripHeight => g[r][posX..posX + StripWidth])
  }

  /** The windows of one strip across all the files. */
  function WindowStack(rasters: seq<Grid<real>>, s: nat): (stack: seq<Grid<real>>)
    requires StackShape(rasters, StripHeight, Extent) && s < StripCount
    ensures |stack| == |rasters| && StackShape(stack, StripHeight, StripWidth)
    ensures forall t :: 0 <= t < |rasters| ==> stack[t] == Window(rasters[t], StripWidth * s)
  {
    seq(|rasters|, t requires 0 <= t < |rasters| => Window(rasters[t], StripWidth * s))
  }

  /** The artifact saved for strip s and day t: Smoothed_NDVI[t, :, :] of that strip. */
  function StripLayer(rasters: seq<Grid<real>>, endOnly: bool, cg: Solver, s: nat, t: nat): (g: Grid<real>)
    requires StackShape(rasters, StripHeight, Extent) && LongEnough(|rasters|, endOnly)
    requires s < StripCount && t < |rasters|
    ensures Rect(g, StripHeight, StripWidth)
  {
    var stack := WindowStack(rasters, s);
    seq(StripHeight, y requires 0 <= y < StripHeight =>
      seq(StripWidth, x requires 0 <= x < StripWidth => SmoothedAt(stack, StripHeight, StripWidth, endOnly, cg, t, y, x)))
  }

  /** Day t of the whole raster with every pixel smoothed on its own series. */
  function SmoothedDay(rasters: seq<Grid<real>>, endOnly: bool, cg: Solver, t: nat): (g: Grid<real>)
    requires StackShape(rasters, StripHeight, Extent) && LongEnough(|rasters|, endOnly) && t < |rasters|
    ensures Rect(g, StripHeight, Extent)
  {
    seq(StripHeight, r requires 0 <= r < StripHeight =>
      seq(Extent, c requires 0 <= c < Extent => SmoothedAt(rasters, StripHeight, Extent, endOnly, cg, t, r, c)))
  }

  /** TIFF_NDVI: strip s fills columns [23 s, 23 s + 23). */
  function Reassemble(blocks: seq<Grid<real>>): (g: Grid<real>)
    requires |blocks| == StripCount && StackShape(blocks, StripHeight, StripWidth)
    ensures Rect(g, StripHeight, Extent)
    ensures forall r, c :: 0 <= r < StripHeight && 0 <= c < Extent ==>
      g[r][c] == blocks[StripOf(c)][r][InStripColumn(c)]
  {
    seq(StripHeight, r requires 0 <= r < StripHeight =>
      seq(Extent, c requires 0 <= c < Extent => blocks[StripOf(c)][r][InStripColumn(c)]))
  }

  /** A pixel of a window has the series of the raster pixel it was cut from. */
  lemma WindowPixelSeries(rasters: seq<Grid<real>>, s: nat, y: nat, x: nat)
    requires StackShape(rasters, StripHeight, Extent) && s < StripCount
    requires y < StripHeight && x < StripWidth
    ensures PixelSeries(WindowStack(rasters, s), StripHeight, StripWidth, y, x)
         == PixelSeries(rasters, StripHeight, Extent, y, StripWidth * s + x)
  {
  }

  /** Cutting into strips changes nothing: the image reassembled from the 157
      artifacts of day t is day t of the raster smoothed pixel by pixel, with
      every column back in its place. */
  lemma StripsReassembleDay(rasters: seq<Grid<real>>, endOnly: bool, cg: Solver, t: nat)
    requires StackShape(rasters, StripHeight, Extent) && LongEnough(|rasters|, endOnly) && t < |rasters|
    ensures Reassemble(seq(StripCount, s requires 0 <= s < StripCount => StripLayer(rasters, endOnly, cg, s, t)))
         == SmoothedDay(rasters, endOnly, cg, t)
  {
    var blocks := seq(StripCount, s requires 0 <= s < StripCount => StripLayer(rasters, endOnly, cg, s, t));
    var want := SmoothedDay(rasters, endOnly, cg, t);
    forall s, r, x | 0 <= s < StripCount && 0 <= r < StripHeight && 0 <= x < StripWidth
      ensures blocks[s][r][x] == want[r][StripWidth * s + x]
    {
      StripCell(rasters, endOnly, cg, t, r, s, x);
    }
    ReassembleFrom(blocks, want);
  }

  /** Blocks that agree with a raster strip by strip reassemble into it. */
  lemma ReassembleFrom(blocks: seq<Grid<real>>, want: Grid<real>)
    requires |blocks| == StripCount && StackShape(blocks, StripHeight, StripWidth) && Rect(want, StripHeight, Extent)
    requires forall s, r, x :: 0 <= s < StripCount && 0 <= r < StripHeight && 0 <= x < StripWidth ==>
      blocks[s][r][x] == want[r][StripWidth * s + x]
    ensures Reassemble(blocks) == want
  {
    var g := Reassemble(blocks);
    forall r | 0 <= r < StripHeight ensures g[r] == want[r] {
      forall c | 0 <= c < Extent ensures g[r][c] == want[r][c] {
        var s, x := StripOf(c), InStripColumn(c);
        assert g[r][c] == blocks[s][r][x];
      }
    }
  }

  /** One pixel of the strip artifacts is the pixel smoothed in place. */
  lemma StripCell(rasters: seq<Grid<real>>, endOnly: bool, cg: Solver, t: nat, r: nat, s: nat, x: nat)
    requires StackShape(rasters, StripHeight, Extent) && LongEnough(|rasters|, endOnly) && t < |rasters|
    requires r < StripHeight && s < StripCount && x < StripWidth
    ensures StripLayer(rasters, endOnly, cg, s, t)[r][x]
         == SmoothedAt(rasters, StripHeight, Extent, endOnly, cg, t, r, StripWidth * s + x)
  {
    WindowPixelSeries(rasters, s, r, x);
  }

  /** Python's xs[-k:] for k >= 0: the last k entries, all of them when k
      is 0 or exceeds the length. */
  function PySuffix<T>(xs: seq<T>, k: nat): (r: seq<T>)
    ensures |r| == if 1 <= k <= |xs| then k else |xs|
    ensures r <= xs || r == xs[|xs| - |r|..]
  {
    if k == 0 then xs
    else if k <= |xs| then xs[|xs| - k..]
    else xs
  }

  /** The dates create_tif writes and the day number of the first one. */
  function OutputDates(dates: seq<string>, endOnly: bool, newCount: nat): seq<string>
  {
    if endOnly then PySuffix(dates, newCount) else dates
  }

  function OutputOffset(n: nat, endOnly: bool, newCount: nat): int
  {
    if endOnly then n - newCount else 0
  }

  /** The 157 artifacts of one day are in the store. */
  predicate DayStored(dump: map<(int, int), Grid<real>>, day: int)
  {
    forall s :: 0 <= s < StripCount ==> (s, day) in dump
  }

  /** Every artifact create_tif loads is in the store. */
  predicate AllStored(dump: map<(int, int), Grid<real>>, days: nat, offset: int)
  {
    forall day :: offset <= day < offset + days ==> DayStored(dump, day)
  }

  /** Every artifact is a 4406 x 23 layer. */
  ghost predicate ArtifactsShaped(dump: map<(int, int), Grid<real>>)
  {
    forall key :: key in dump ==> |dump[key]| == StripHeight && forall y :: 0 <= y < StripHeight ==> |dump[key][y]| == StripWidth
  }

  /** The artifacts of one day, in strip order. */
  function DayBlocks(dump: map<(int, int), Grid<real>>, day: int): (blocks: seq<Grid<real>>)
    requires DayStored(dump, day)
    ensures |blocks| == StripCount && forall s :: 0 <= s < StripCount ==> blocks[s] == dump[(s, day)]
    ensures ArtifactsShaped(dump) ==> StackShape(blocks, StripHeight, StripWidth)
  {
    seq(StripCount, s requires 0 <= s < StripCount => dump[(s, day)])
  }

  /** The store after a full pass holds (s, t) for every strip and every day. */
  ghost predicate StoresDays(dump: map<(int, int), Grid<real>>, n: nat)
  {
    forall key :: key in dump <==> 0 <= key.0 < StripCount && 0 <= key.1 < n
  }

  /** With the artifacts of days 0..n-1 stored, create_tif finds all it
      loads exactly when the whole run is smoothed or the count of new files
      is between 1 and the number of files; a count of 0 selects every date
      from day n on, a count above n starts at a negative day, and either
      way the very first day it loads is missing. */
  lemma ArtifactsFound(dump: map<(int, int), Grid<real>>, dates: seq<string>, endOnly: bool, newCount: nat)
    requires |dates| >= 1 && StoresDays(dump, |dates|)
    ensures AllStored(dump, |OutputDates(dates, endOnly, newCount)|, OutputOffset(|dates|, endOnly, newCount))
        <==> !endOnly || 1 <= newCount <= |dates|
    ensures endOnly && !(1 <= newCount <= |dates|) ==>
      |OutputDates(dates, endOnly, newCount)| == |dates| && !DayStored(dump, OutputOffset(|dates|, endOnly, newCount))
  {
    var n := |dates|;
    var days := |OutputDates(dates, endOnly, newCount)|;
    var offset := OutputOffset(n, endOnly, newCount);
    if endOnly && !(1 <= newCount <= n) {
      assert (0, offset) !in dump;
      assert !DayStored(dump, offset);
    } else {
      forall day | offset <= day < offset + days ensures DayStored(dump, day) {
        forall s | 0 <= s < StripCount ensures (s, day) in dump {
          assert 0 <= day < n;
        }
      }
    }
  }

  /** The images create_tif writes from a store that holds every artifact it loads. */
  function Images(dump: map<(int, int), Grid<real>>, dates: seq<string>, offset: int): seq<(string, Grid<real>)>
    requires AllStored(dump, |dates|, offset) && ArtifactsShaped(dump)
  {
    seq(|dates|, d requires 0 <= d < |dates| =>
      assert DayStored(dump, offset + d); (dates[d], Reassemble(DayBlocks(dump, offset + d))))
  }

  /** The date in a file name: file.split('dekadal.')[1].split('.tif')[0]. */
  function DateOf(file: string): Option<string>
  {
    Between(file, "dekadal.", ".tif")
  }

  /** The dates of all files, in file order. */
  function ParsedDates(files: seq<string>): (ds: seq<Option<string>>)
    ensures |ds| == |files|
  {
    MapSeq(DateOf, files)
  }

  lemma ParsedDatesAt(files: seq<string>, t: nat)
    requires t < |files|
    ensures ParsedDates(files)[t] == DateOf(files[t])
  {
    MapSeqAt(DateOf, files, t);
  }

  /** Every file name holds a date. */
  predicate AllDated(files: seq<string>)
  {
    forall t :: 0 <= t < |files| ==> ParsedDates(files)[t].Some?
  }

  /** The list `dates` of read_image's results. */
  function Dates(files: seq<string>): (dates: seq<string>)
    requires AllDated(files)
    ensures |dates| == |files|
  {
    seq(|files|, t requires 0 <= t < |files| => ParsedDates(files)[t].value)
  }

  /** What a successful run writes: each output date with its smoothed day. */
  function Expected(files: seq<string>, rasters: seq<Grid<real>>, endOnly: bool, newCount: nat, cg: Solver): seq<(string, Grid<real>)>
    requires |files| == |rasters| >= 1 && AllDated(files)
    requires StackShape(rasters, StripHeight, Extent) && LongEnough(|rasters|, endOnly)
    requires !endOnly || 1 <= newCount <= |files|
  {
    var dates := OutputDates(Dates(files), endOnly, newCount);
    var offset := OutputOffset(|files|, endOnly, newCount);
    seq(|dates|, d requires 0 <= d < |dates| => (dates[d], SmoothedDay(rasters, endOnly, cg, offset + d)))
  }

  datatype RunOutcome =
    | Written
    | UndatedFile(file: string)   // the IndexError of the date split
    | MissingArtifact             // the FileNotFoundError of np.load

  /** The artifact store (file_dump) and the images written so far. */
  class SmoothingRun {
    var dump: map<(int, int), Grid<real>>
    var written: seq<(string, Grid<real>)>

    constructor ()
      ensures dump == map[] && written == []
    {
      dump := map[];
      written := [];
    }

    /** create_tif: for each date, the 157 artifacts of day offset + d are
        copied into their columns of a fresh buffer, which is then written.
        A missing artifact stops the run with the images written so far. */
    method CreateTif(dates: seq<string>, offset: int) returns (ok: bool)
      requires ArtifactsShaped(dump)
      modifies this
      ensures dump == old(dump)
      ensures ok <==> AllStored(dump, |dates|, offset)
      ensures ok ==> written == old(written) + Images(dump, dates, offset)
      ensures old(written) <= written
      ensures |dates| > 0 && !DayStored(dump, offset) ==> written == old(written)
    {
      for d := 0 to |dates|
        invariant dump == old(dump)
        invariant AllStored(dump, d, offset)
        invariant written == old(written) + Images(dump, dates[..d], offset)
      {
        var tiff := new real[StripHeight, StripWidth * StripCount];
        var complete := FillBuffer(tiff, offset + d);
        if !complete {
          ok := false;
          return;
        }
        var image := Frozen(tiff);
        assert image == Reassemble(DayBlocks(dump, offset + d)) by {
          var want := Reassemble(DayBlocks(dump, offset + d));
          forall r | 0 <= r < StripHeight ensures image[r] == want[r] {
          }
        }
        written := written + [(dates[d], image)];
        assert dates[..d + 1] == dates[..d] + [dates[d]];
      }
      assert dates[..|dates|] == dates;
      ok := true;
    }

    /** The strip loop of create_tif: TIFF_NDVI[:, 23 s : 23 (s + 1)] is
        loaded from the artifact (s, day). */
    method FillBuffer(tiff: array2<real>, day: int) returns (complete: bool)
      requires tiff.Length0 == StripHeight && tiff.Length1 == Extent
      requires ArtifactsShaped(dump)
      modifies tiff
      ensures complete <==> DayStored(dump, day)
      ensures complete ==> forall r, c :: 0 <= r < StripHeight && 0 <= c < Extent ==>
        tiff[r, c] == dump[(StripOf(c), day)][r][InStripColumn(c)]
    {
      for strip := 0 to StripCount
        invariant forall s :: 0 <= s < strip ==> (s, day) in dump
        invariant forall r, c :: 0 <= r < StripHeight && 0 <= c < StripWidth * strip ==>
          tiff[r, c] == dump[(StripOf(c), day)][r][InStripColumn(c)]
      {
        if (strip, day) !in dump {
          return false;
        }
        var block := dump[(strip, day)];
        forall r, c | 0 <= r < StripHeight && StripWidth * strip <= c < StripWidth * strip + StripWidth {
          tiff[r, c] := block[r][c - StripWidth * strip];
        }
        assert forall c :: StripWidth * strip <= c < StripWidth * strip + StripWidth ==> StripOf(c) == strip by {
          forall c | StripWidth * strip <= c < StripWidth * strip + StripWidth ensures StripOf(c) == strip {
            StripsDisjoint(StripOf(c), strip, c);
          }
        }
      }
      complete := true;
    }

    /** run_smoothing. The store starts empty (the previous run ended by
        clearing it) and is cleared again when the images are written. */
    method RunSmoothing(files: seq<string>, rasters: seq<Grid<real>>, endOnly: bool, newCount: nat, cg: Solver)
      returns (outcome: RunOutcome)
      requires |files| == |rasters| >= 1
      requires StackShape(rasters, StripHeight, Extent) && LongEnough(|rasters|, endOnly)
      requires dump == map[]
      modifies this
      ensures outcome.UndatedFile? <==> !AllDated(files)
      ensures AllDated(files) ==> (outcome.Written? <==> !endOnly || 1 <= newCount <= |files|)
      ensures outcome.Written? ==> dump == map[]
      ensures outcome.Written? ==> written == old(written) + Expected(files, rasters, endOnly, newCount, cg)
      ensures outcome.UndatedFile? ==> dump == map[] && written == old(written)
      ensures outcome.MissingArtifact? ==>
        written == old(written) && StoresDays(dump, |files|) &&
        (forall key :: key in dump ==> dump[key] == StripLayer(rasters, endOnly, cg, key.0, key.1))
    {
      var dates, undated := SmoothStrips(files, rasters, endOnly, cg);
      if undated.Some? {
        return UndatedFile(undated.value);
      }
      ArtifactsFound(dump, dates, endOnly, newCount);
      var outDates := OutputDates(dates, endOnly, newCount);
      var offset := OutputOffset(|files|, endOnly, newCount);
      var ok := CreateTif(outDates, offset);
      if !ok {
        return MissingArtifact;
      }
      WrittenIsExpected(dump, files, rasters, endOnly, newCount, cg, outDates, offset);
      dump := map[];
      outcome := Written;
    }

    /** The strip loop of run_smoothing: for each offset of range(0, 3611, 23)
        the windows are read, smoothed, and every layer saved. A file without
        a date stops the loop in the first strip. */
    method SmoothStrips(files: seq<string>, rasters: seq<Grid<real>>, endOnly: bool, cg: Solver)
      returns (dates: seq<string>, undated: Option<string>)
      requires |files| == |rasters| >= 1
      requires StackShape(rasters, StripHeight, Extent) && LongEnough(|rasters|, endOnly)
      requires dump == map[]
      modifies this
      ensures written == old(written)
      ensures undated.Some? <==> !AllDated(files)
      ensures undated.Some? ==> dump == map[]
      ensures undated.None? ==> dates == Dates(files) && StoresDays(dump, |files|) && ArtifactsShaped(dump)
      ensures undated.None? ==> forall key :: key in dump ==> dump[key] == StripLayer(rasters, endOnly, cg, key.0, key.1)
    {
      var offsets := PyRange(0, Extent, StripWidth);
      StripOffsets();
      dates := [];
      for s := 0 to |offsets|
        invariant forall key :: key in dump <==> 0 <= key.0 < s && 0 <= key.1 < |files|
        invariant forall key :: key in dump ==> dump[key] == StripLayer(rasters, endOnly, cg, key.0, key.1)
        invariant s > 0 ==> AllDated(files) && dates == Dates(files)
        invariant written == old(written)
      {
        var stack: seq<Grid<real>>;
        dates, stack := ReadStrip(files, rasters, offsets[s]);
        if |dates| < |files| {
          return dates, Some(files[|dates|]);
        }
        assert stack == WindowStack(rasters, s);
        var smoothed := SmoothStrip(stack, StripHeight, StripWidth, endOnly, cg);
        SaveLayers(rasters, endOnly, cg, s, stack, smoothed);
      }
      undated := None;
    }

    /** np.save of Smoothed_NDVI[i, :, :] as the artifact (strip, i), for every i. */
    method SaveLayers(rasters: seq<Grid<real>>, endOnly: bool, cg: Solver, s: nat, stack: seq<Grid<real>>, smoothed: array3<real>)
      requires StackShape(rasters, StripHeight, Extent) && LongEnough(|rasters|, endOnly)
      requires s < StripCount && stack == WindowStack(rasters, s)
      requires smoothed.Length0 == |stack| && smoothed.Length1 == StripHeight && smoothed.Length2 == StripWidth
      requires forall t, y, x :: 0 <= t < |stack| && 0 <= y < StripHeight && 0 <= x < StripWidth ==>
        smoothed[t, y, x] == SmoothedAt(stack, StripHeight, StripWidth, endOnly, cg, t, y, x)
      modifies this
      ensures written == old(written)
      ensures forall key :: key in dump <==> key in old(dump) || (key.0 == s && 0 <= key.1 < |rasters|)
      ensures forall key :: key in dump ==>
        dump[key] == if key.0 == s && 0 <= key.1 < |rasters| then StripLayer(rasters, endOnly, cg, s, key.1) else old(dump[key])
    {
      for t := 0 to |rasters|
        invariant written == old(written)
        invariant forall key :: key in dump <==> key in old(dump) || (key.0 == s && 0 <= key.1 < t)
        invariant forall key :: key in dump ==>
          dump[key] == if key.0 == s && 0 <= key.1 < t then StripLayer(rasters, endOnly, cg, s, key.1) else old(dump[key])
      {
        LayerIsStripLayer(rasters, endOnly, cg, s, stack, smoothed, t);
        dump := dump[(s, t) := Layer(smoothed, t)];
      }
    }

    /** The file loop of one strip: the date of every file and its window.
        A file without a date stops the loop; the dates read so far are
        returned, one fewer than the files. */
    method ReadStrip(files: seq<string>, rasters: seq<Grid<real>>, posX: nat)
      returns (dates: seq<string>, stack: seq<Grid<real>>)
      requires |files| == |rasters| && StackShape(rasters, StripHeight, Extent)
      requires posX + StripWidth <= Extent
      ensures |dates| <= |files|
      ensures |dates| < |files| ==> ParsedDates(files)[|dates|].None?
      ensures forall t :: 0 <= t < |dates| ==> ParsedDates(files)[t] == Some(dates[t])
      ensures |dates| == |files| ==> AllDated(files) && dates == Dates(files)
      ensures |dates| == |files| ==> stack == seq(|files|, t requires 0 <= t < |files| => Window(rasters[t], posX))
    {
      dates, stack := [], [];
      for t := 0 to |files|
        invariant |dates| == t && |stack| == t
        invariant forall t' :: 0 <= t' < t ==> ParsedDates(files)[t'] == Some(dates[t'])
        invariant forall t' :: 0 <= t' < t ==> stack[t'] == Window(rasters[t'], posX)
      {
        var date := ReadImageDate(files, t);
        if date.None? {
          return;
        }
        dates := dates + [date.value];
        stack := stack + [Window(rasters[t], posX)];
      }
      DatesRead(files, dates);
    }
  }

  /** read_image's date for file t. */
  method ReadImageDate(files: seq<string>, t: nat) returns (date: Option<string>)
    requires t < |files|
    ensures date == ParsedDates(files)[t]
  {
    date := DateOf(files[t]);
    ParsedDatesAt(files, t);
  }

  /** Dates read for every file are the dates of all the files. */
  lemma DatesRead(files: seq<string>, dates: seq<string>)
    requires |dates| == |files| && forall t :: 0 <= t < |dates| ==> ParsedDates(files)[t] == Some(dates[t])
    ensures AllDated(files) && dates == Dates(files)
  {
  }

  /** The images create_tif writes from the artifacts of a full pass are
      the days of the raster smoothed pixel by pixel. */
  lemma WrittenIsExpected(dump: map<(int, int), Grid<real>>, files: seq<string>, rasters: seq<Grid<real>>,
                          endOnly: bool, newCount: nat, cg: Solver, outDates: seq<string>, offset: int)
    requires |files| == |rasters| >= 1 && AllDated(files)
    requires StackShape(rasters, StripHeight, Extent) && LongEnough(|rasters|, endOnly)
    requires !endOnly || 1 <= newCount <= |files|
    requires StoresDays(dump, |files|) && ArtifactsShaped(dump)
    requires forall key :: key in dump ==> dump[key] == StripLayer(rasters, endOnly, cg, key.0, key.1)
    requires outDates == OutputDates(Dates(files), endOnly, newCount)
    requires offset == OutputOffset(|files|, endOnly, newCount)
    requires AllStored(dump, |outDates|, offset)
    ensures Images(dump, outDates, offset) == Expected(files, rasters, endOnly, newCount, cg)
  {
    var want := Expected(files, rasters, endOnly, newCount, cg);
    var got := Images(dump, outDates, offset);
    forall d | 0 <= d < |outDates| ensures got[d] == want[d] {
      var day := offset + d;
      assert DayStored(dump, day);
      assert DayBlocks(dump, day)
          == seq(StripCount, s requires 0 <= s < StripCount => StripLayer(rasters, endOnly, cg, s, day));
      StripsReassembleDay(rasters, endOnly, cg, day);
    }
  }

  /** Layer t of a smoothed strip is the artifact StripLayer describes. */
  lemma LayerIsStripLayer(rasters: seq<Grid<real>>, endOnly: bool, cg: Solver, s: nat,
                          stack: seq<Grid<real>>, smoothed: array3<real>, t: nat)
    requires StackShape(rasters, StripHeight, Extent) && LongEnough(|rasters|, endOnly)
    requires s < StripCount && t < |rasters| && stack == WindowStack(rasters, s)
    requires smoothed.Length0 == |stack| && smoothed.Length1 == StripHeight && smoothed.Length2 == StripWidth
    requires forall t', y, x :: 0 <= t' < |stack| && 0 <= y < StripHeight && 0 <= x < StripWidth ==>
      smoothed[t', y, x] == SmoothedAt(stack, StripHeight, StripWidth, endOnly, cg, t', y, x)
    ensures Layer(smoothed, t) == StripLayer(rasters, endOnly, cg, s, t)
  {
    var a, b := Layer(smoothed, t), StripLayer(rasters, endOnly, cg, s, t);
    forall y | 0 <= y < StripHeight ensures a[y] == b[y] {
    }
  }

  /** The buffer as a raster. */
  function Frozen(a: array2<real>): (g: Grid<real>)
    reads a
    ensures Rect(g, a.Length0, a.Length1)
    ensures forall r, c :: 0 <= r < a.Length0 && 0 <= c < a.Length1 ==> g[r][c] == a[r, c]
  {
    seq(a.Length0, r requires 0 <= r < a.Length0 reads a =>
      seq(a.Length1, c requires 0 <= c < a.Length1 reads a => a[r, c]))
  }
}
