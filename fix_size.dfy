/** fix_size.change_file_size: NDVI rasters from 2017 on that are not of the
    full 4406 x 3611 extent get the same edge padding as the VCI rasters,
    filled with the sentinel, and are written under the NDVI directory. */
module FixSize {
  import opened Values
  import opened Text
  import opened Grids

  /** NDVI.size of a raster of the full padded extent, 4406 x 3611. */
  const FullSize: nat := 15910066

  /** The height and width of an unpadded raster. */
  const RawHeight: nat := 4393
  const RawWidth: nat := 3601

  /** int(file.split('.tif')[0].split('dekadal.')[-1][0:4]); None stands for
      the ValueError int() raises. */
  function FileYear(file: string): Option<nat>
  {
    YearOf(After(Before(file, ".tif"), "dekadal."))
  }

  /** file.split('.tif')[0].split('\\')[-1]: the base name without extension. */
  function OutputName(file: string): string
  {
    After(Before(file, ".tif"), "\\")
  }

  /** The output name holds no directory separator and no '.tif', so the
      output path is a file directly inside the NDVI directory. */
  lemma OutputNameMeans(file: string)
    ensures !Contains(OutputName(file), "\\") && !Contains(OutputName(file), ".tif")
  {
    var stem := Before(file, ".tif");
    BeforeMeans(file, ".tif");
    AfterMeans(stem, "\\");
    var name := After(stem, "\\");
    SliceFree(stem, ".tif", |stem| - |name|, |stem|);
    assert stem[|stem| - |name|..|stem|] == name;
  }

  /** A raster written to disk, with its path. */
  datatype Written = Written(path: string, raster: Grid<real>)

  /** NDVI_filepath + '\\' + name + '.tif'. */
  function OutputPath(dir: string, name: string): string
  {
    dir + "\\" + name + ".tif"
  }

  /** The parsed years of all files, in file order. */
  function Years(files: seq<string>): (ys: seq<Option<nat>>)
    ensures |ys| == |files|
  {
    MapSeq(FileYear, files)
  }

  lemma YearsAt(files: seq<string>, t: nat)
    requires t < |files|
    ensures Years(files)[t] == FileYear(files[t])
  {
    MapSeqAt(FileYear, files, t);
  }

  /** The output names of all files, in file order. */
  function Names(files: seq<string>): (ns: seq<string>)
    ensures |ns| == |files|
  {
    MapSeq(OutputName, files)
  }

  lemma NamesAt(files: seq<string>, t: nat)
    requires t < |files|
    ensures Names(files)[t] == OutputName(files[t])
  {
    MapSeqAt(OutputName, files, t);
  }

  /** What one file of the loop writes, given its parsed year and its
      output path. */
  function Resized(path: string, year: nat, raster: Grid<real>): (w: Option<Written>)
    requires IsRaster(raster)
    ensures w.Some? <==> year >= 2017 && Size(raster) != FullSize
    ensures w.Some? ==> w.value.path == path
    ensures w.Some? ==> Rect(w.value.raster, |raster| + 13, |raster[0]| + 10)
  {
    if year >= 2017 && Size(raster) != FullSize
    then Some(Written(path, Padded(raster, |raster[0]|, Sentinel)))
    else None
  }

  /** Every one of the first n years parses. */
  predicate DatedUpTo(files: seq<string>, n: nat)
    requires n <= |files|
  {
    forall t :: 0 <= t < n ==> Years(files)[t].Some?
  }

  /** The writes the loop makes for the first n files, in order. */
  function WritesUpTo(dir: string, files: seq<string>, rasters: seq<Grid<real>>, n: nat): seq<Written>
    requires n <= |files| == |rasters| && DatedUpTo(files, n)
    requires forall t :: 0 <= t < |rasters| ==> IsRaster(rasters[t])
  {
    if n == 0 then []
    else
      var w := Resized(OutputPath(dir, Names(files)[n - 1]), Years(files)[n - 1].value, rasters[n - 1]);
      WritesUpTo(dir, files, rasters, n - 1) + (if w.Some? then [w.value] else [])
  }

  /** The source's loop. It reads the files whose year is at least 2017,
      pads those not of the full size and writes them. The first file
      whose year does not parse stops it with the ValueError, after the
      writes of the files before it; `failure` is that file's index. The
      metadata the writes reuse is not modelled. */
  method ChangeFileSize(newFiles: seq<string>, rasters: seq<Grid<real>>, dir: string)
    returns (written: seq<Written>, failure: Option<nat>)
    requires |rasters| == |newFiles| && forall t :: 0 <= t < |rasters| ==> IsRaster(rasters[t])
    ensures newFiles == [] ==> written == [] && failure.None?
    ensures failure.None? ==> DatedUpTo(newFiles, |newFiles|) && written == WritesUpTo(dir, newFiles, rasters, |newFiles|)
    ensures failure.Some? ==> failure.value < |newFiles| && DatedUpTo(newFiles, failure.value)
    ensures failure.Some? ==> Years(newFiles)[failure.value].None?
    ensures failure.Some? ==> written == WritesUpTo(dir, newFiles, rasters, failure.value)
  {
    written := [];
    for i := 0 to |newFiles|
      invariant DatedUpTo(newFiles, i)
      invariant written == WritesUpTo(dir, newFiles, rasters, i)
    {
      var year := ReadYear(newFiles, i);
      if year.None? {
        return written, Some(i);
      }
      var name := ReadName(newFiles, i);
      var w := ResizeFile(OutputPath(dir, name), year.value, rasters[i]);
      if w.Some? {
        written := written + [w.value];
      }
    }
    failure := None;
  }

  /** int(...[0:4]) for file i. */
  method ReadYear(files: seq<string>, i: nat) returns (year: Option<nat>)
    requires i < |files|
    ensures year == Years(files)[i]
  {
    year := FileYear(files[i]);
    YearsAt(files, i);
  }

  /** The output name of file i. */
  method ReadName(files: seq<string>, i: nat) returns (name: string)
    requires i < |files|
    ensures name == Names(files)[i]
  {
    name := OutputName(files[i]);
    NamesAt(files, i);
  }

  /** The size test and padding for a file whose year parsed. */
  method ResizeFile(path: string, year: nat, raster: Grid<real>) returns (w: Option<Written>)
    requires IsRaster(raster)
    ensures w == Resized(path, year, raster)
  {
    w := None;
    if year >= 2017 {
      var ndvi := raster;
      if Size(ndvi) != FullSize {
        ndvi := PadEdges(ndvi, |ndvi[0]|, Sentinel);
        w := Some(Written(path, ndvi));
      }
    }
  }

  /** Every file whose year is at least 2017 and whose size is not the
      full size is written, padded. */
  lemma {:induction false} ResizedAreWritten(dir: string, files: seq<string>, rasters: seq<Grid<real>>, n: nat)
    requires n <= |files| == |rasters| && DatedUpTo(files, n)
    requires forall t :: 0 <= t < |rasters| ==> IsRaster(rasters[t])
    ensures forall t :: 0 <= t < n && Resized(OutputPath(dir, Names(files)[t]), Years(files)[t].value, rasters[t]).Some? ==>
      Resized(OutputPath(dir, Names(files)[t]), Years(files)[t].value, rasters[t]).value in WritesUpTo(dir, files, rasters, n)
  {
    if n > 0 {
      ResizedAreWritten(dir, files, rasters, n - 1);
    }
  }

  /** Nothing else is written: every write is the padding of one of the
      files. */
  lemma {:induction false} WritesAreResized(dir: string, files: seq<string>, rasters: seq<Grid<real>>, n: nat)
    requires n <= |files| == |rasters| && DatedUpTo(files, n)
    requires forall t :: 0 <= t < |rasters| ==> IsRaster(rasters[t])
    ensures forall w :: w in WritesUpTo(dir, files, rasters, n) ==>
      exists t :: 0 <= t < n && Resized(OutputPath(dir, Names(files)[t]), Years(files)[t].value, rasters[t]) == Some(w)
  {
    if n > 0 {
      WritesAreResized(dir, files, rasters, n - 1);
      var before := WritesUpTo(dir, files, rasters, n - 1);
      var last := Resized(OutputPath(dir, Names(files)[n - 1]), Years(files)[n - 1].value, rasters[n - 1]);
      assert WritesUpTo(dir, files, rasters, n) == before + (if last.Some? then [last.value] else []);
      forall w | w in WritesUpTo(dir, files, rasters, n)
        ensures exists t :: 0 <= t < n && Resized(OutputPath(dir, Names(files)[t]), Years(files)[t].value, rasters[t]) == Some(w)
      {
        if w !in before {
          assert last == Some(w);
        }
      }
    }
  }

  /** A padded raster keeps the original at offset (7, 5); every other cell
      is the sentinel. */
  lemma PaddedCells(g: Grid<real>, c: nat)
    requires Rect(g, |g|, c)
    ensures forall i, j :: 0 <= i < |g| && 0 <= j < c ==> Padded(g, c, Sentinel)[i + 7][j + 5] == g[i][j]
    ensures forall i, j :: 0 <= i < |g| + 13 && 0 <= j < c + 10 && !(7 <= i < |g| + 7 && 5 <= j < c + 5) ==>
      Padded(g, c, Sentinel)[i][j] == Sentinel
  {
  }

  /** A 4393 x 3601 raster from 2017 on is padded to the full size, so a
      second run over the written file writes nothing: the resizing is
      idempotent. */
  lemma ResizeIdempotent(path: string, year: nat, raster: Grid<real>, again: string, year2: nat)
    requires Rect(raster, RawHeight, RawWidth) && year >= 2017
    ensures Resized(path, year, raster).Some?
    ensures Resized(again, year2, Resized(path, year, raster).value.raster).None?
  {
    var p := Padded(raster, RawWidth, Sentinel);
    assert Size(raster) == RawHeight * RawWidth;
    assert Size(p) == (RawHeight + 13) * (RawWidth + 10);
  }
}
