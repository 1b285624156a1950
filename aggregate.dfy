/** aggregate_time_series: for every shape of a shapefile and every date, the
    mean NDVI, VCI and VCI3M over the shape, NaN where cloud leaves less than
    1% of the pixels, stored per shape as an HDF5 dataset of rows
    [date, NDVI, VCI, VCI3M]. The polygon crop is an input: for each file
    triple and shape, the pixels rasterio's mask kept. */
module Aggregate {
  import opened Values
  import opened Text

  /** numpy.ma.masked_values(x, 1.175494351e-38) masks x when
      |x - sentinel| <= atol + rtol * |sentinel| (numpy.isclose's defaults
      atol = 1e-8, rtol = 1e-5). */
  const Tolerance: real := 0.00000001 + 0.00001 * Sentinel

  predicate IsFill(x: Value)
  {
    x.Num? && -Tolerance <= x.r - Sentinel <= Tolerance
  }

  /** The cells masked_values leaves unmasked, in order. */
  function Kept(cells: seq<Value>): (k: seq<Value>)
    ensures |k| <= |cells|
    ensures forall i :: 0 <= i < |k| ==> !IsFill(k[i])
  {
    if cells == [] then []
    else Kept(cells[..|cells| - 1]) + (if IsFill(cells[|cells| - 1]) then [] else [cells[|cells| - 1]])
  }

  /** Kept drops exactly the masked cells: with none masked it keeps all,
      with all masked it keeps none. */
  lemma {:induction false} KeptAll(cells: seq<Value>)
    ensures (forall i :: 0 <= i < |cells| ==> !IsFill(cells[i])) ==> Kept(cells) == cells
    ensures (forall i :: 0 <= i < |cells| ==> IsFill(cells[i])) ==> Kept(cells) == []
  {
    if cells != [] {
      KeptAll(cells[..|cells| - 1]);
    }
  }

  /** check_cloud_store's test: count() of the masked layer below count()/100
      of the unmasked one, which counts every cell. */
  predicate Cloudy(cells: seq<Value>)
  {
    (|Kept(cells)| as real) < (|cells| as real) / 100.0
  }

  /** The 1% rule in whole numbers. */
  lemma CloudyMeans(cells: seq<Value>)
    ensures Cloudy(cells) <==> 100 * |Kept(cells)| < |cells|
  {
    var k, n := |Kept(cells)| as real, |cells| as real;
    assert (k < n / 100.0) <==> (100.0 * k < n);
  }

  /** The value stored for one layer of one shape: NaN when cloudy, else
      numpy.nanmean of the unmasked cells. */
  function LayerMean(cells: seq<Value>): (v: Value)
    ensures Cloudy(cells) ==> v.NaN?
  {
    if Cloudy(cells) then NaN else NanMean(Kept(cells))
  }

  /** A shape entirely under cloud gets NaN; one without any masked pixel
      gets the mean of all its pixels. */
  lemma LayerMeanExtremes(cells: seq<Value>)
    ensures |cells| >= 1 && (forall i :: 0 <= i < |cells| ==> IsFill(cells[i])) ==> LayerMean(cells).NaN?
    ensures (forall i :: 0 <= i < |cells| ==> !IsFill(cells[i])) ==> LayerMean(cells) == NanMean(cells)
  {
    KeptAll(cells);
    CloudyMeans(cells);
  }

  /** The pixels of one shape in the NDVI, VCI and VCI3M rasters of one date. */
  datatype Crop = Crop(ndvi: seq<Value>, vci: seq<Value>, vci3m: seq<Value>)

  /** The row check_cloud_store writes: [date, NDVI, VCI, VCI3M]. */
  function Row(date: nat, crop: Crop): (row: seq<Value>)
    ensures |row| == 4 && row[0] == Num(date as real)
    ensures row[1].NaN? <== Cloudy(crop.ndvi)
    ensures row[2].NaN? <== Cloudy(crop.vci)
    ensures row[3].NaN? <== Cloudy(crop.vci3m)
  {
    [Num(date as real), LayerMean(crop.ndvi), LayerMean(crop.vci), LayerMean(crop.vci3m)]
  }

  /** Dataset names: every '/' of a shape's Name becomes '-'. */
  function Sanitise(name: string): (r: string)
    ensures |r| == |name| && forall i :: 0 <= i < |r| ==> r[i] != '/'
  {
    ReplaceCharRemoves(name, '/', '-');
    ReplaceChar(name, '/', '-')
  }

  /** Sanitising keeps every other character and changes a clean name not at all. */
  lemma SanitiseKeeps(name: string)
    ensures forall i :: 0 <= i < |name| && name[i] != '/' ==> Sanitise(name)[i] == name[i]
    ensures Sanitise(Sanitise(name)) == Sanitise(name)
    ensures (forall i :: 0 <= i < |name| ==> name[i] != '/') ==> Sanitise(name) == name
  {
  }

  /** The date of a VCI3M file: the text between RCMRD_VCI3M\ and .tif. */
  function DateText(file: string): Option<string>
  {
    Between(file, "RCMRD_VCI3M\\", ".tif")
  }

  /** The date as final_array stores it: float(date). */
  function DateValue(file: string): Option<nat>
  {
    match DateText(file)
    case None => None
    case Some(d) => ParseNat(d)
  }

  lemma DateTextMeans(file: string)
    ensures DateText(file).Some? <==> Contains(file, "RCMRD_VCI3M\\")
    ensures DateText(file).Some? ==> !Contains(DateText(file).value, ".tif")
    ensures DateValue(file).Some? <==> DateText(file).Some? && |DateText(file).value| > 0 && AllDigits(DateText(file).value)
  {
    BetweenMeans(file, "RCMRD_VCI3M\\", ".tif");
  }

  function DateTexts(files: seq<string>): (r: seq<Option<string>>)
    ensures |r| == |files|
  {
    MapSeq(DateText, files)
  }

  function DateValues(files: seq<string>): (r: seq<Option<nat>>)
    ensures |r| == |files|
  {
    MapSeq(DateValue, files)
  }

  lemma DatesAt(files: seq<string>, t: nat)
    requires t < |files|
    ensures DateTexts(files)[t] == DateText(files[t]) && DateValues(files)[t] == DateValue(files[t])
  {
    MapSeqAt(DateText, files, t);
    MapSeqAt(DateValue, files, t);
  }

  /** File t gets through open_files: its date is found and, when there is a
      shape to store it for, is a number. */
  predicate Readable(files: seq<string>, shapes: nat, t: nat)
    requires t < |files|
  {
    DateTexts(files)[t].Some? && (shapes == 0 || DateValues(files)[t].Some?)
  }

  /** The HDF5 database of a shapefile: the shapefile's path before .shp and
      after its last backslash. */
  function DatabaseName(shapefilePath: string): string
  {
    After(Before(shapefilePath, ".shp"), "\\")
  }

  lemma DatabaseNameMeans(shapefilePath: string)
    ensures !Contains(DatabaseName(shapefilePath), "\\") && !Contains(DatabaseName(shapefilePath), ".shp")
    ensures Before(shapefilePath, ".shp") <= shapefilePath
    ensures var stem := Before(shapefilePath, ".shp");
      |DatabaseName(shapefilePath)| <= |stem| && DatabaseName(shapefilePath) == stem[|stem| - |DatabaseName(shapefilePath)|..]
  {
    var stem := Before(shapefilePath, ".shp");
    BeforeMeans(shapefilePath, ".shp");
    AfterMeans(stem, "\\");
    var name := After(stem, "\\");
    SliceFree(stem, ".shp", |stem| - |name|, |stem|);
    assert stem[|stem| - |name|..|stem|] == name;
  }

  /** A dataset: rows of [date, NDVI, VCI, VCI3M]; None is a cell np.empty
      left unwritten. */
  type Rows = seq<seq<Option<Value>>>
  type Database = map<string, Rows>
  /** The HDF5 files by file name. */
  type Disk = map<string, Database>

  /** save_to_hdf with new: create_dataset for each name in a fresh file,
      which fails on a name already created; the result and the name that
      failed. */
  function CreateAll(names: seq<string>, slabs: seq<Rows>, n: nat): (r: (Database, Option<string>))
    requires n <= |names| && n <= |slabs|
  {
    if n == 0 then (map[], None)
    else
      var prev := CreateAll(names, slabs, n - 1);
      if prev.1.Some? then prev
      else if names[n - 1] in prev.0 then (prev.0, Some(names[n - 1]))
      else (prev.0[names[n - 1] := slabs[n - 1]], None)
  }

  /** save_to_hdf without new: each named dataset is resized and the new rows
      written after the old; a name the file lacks fails. */
  function AppendAll(db: Database, names: seq<string>, slabs: seq<Rows>, n: nat): (r: (Database, Option<string>))
    requires n <= |names| && n <= |slabs|
  {
    if n == 0 then (db, None)
    else
      var prev := AppendAll(db, names, slabs, n - 1);
      if prev.1.Some? then prev
      else if names[n - 1] !in prev.0 then (prev.0, Some(names[n - 1]))
      else (prev.0[names[n - 1] := prev.0[names[n - 1]] + slabs[n - 1]], None)
  }

  /** Once a save fails, the later datasets are not touched. */
  lemma {:induction false} SaveStopsAtFailure(db: Database, names: seq<string>, slabs: seq<Rows>, m: nat, n: nat)
    requires m <= n <= |names| && n <= |slabs|
    ensures CreateAll(names, slabs, m).1.Some? ==> CreateAll(names, slabs, n) == CreateAll(names, slabs, m)
    ensures AppendAll(db, names, slabs, m).1.Some? ==> AppendAll(db, names, slabs, n) == AppendAll(db, names, slabs, m)
  {
    if m < n {
      SaveStopsAtFailure(db, names, slabs, m, n - 1);
    }
  }

  /** The first n names are pairwise different. */
  predicate DistinctUpTo(names: seq<string>, n: nat)
  {
    forall i, j :: 0 <= i < j < n && j < |names| ==> names[i] != names[j]
  }

  predicate Distinct(names: seq<string>)
  {
    DistinctUpTo(names, |names|)
  }

  /** A new database that was created without failure holds exactly the
      named datasets. */
  lemma {:induction false} CreateAllContents(names: seq<string>, slabs: seq<Rows>, n: nat)
    requires n <= |names| && n <= |slabs| && CreateAll(names, slabs, n).1.None?
    ensures CreateAll(names, slabs, n).0.Keys == set i | 0 <= i < n :: names[i]
  {
    if n > 0 {
      var prev := CreateAll(names, slabs, n - 1);
      CreateAllContents(names, slabs, n - 1);
      var r := CreateAll(names, slabs, n).0;
      assert r.Keys == prev.0.Keys + {names[n - 1]};
      forall x | x in r.Keys ensures x in set i | 0 <= i < n :: names[i] {
        if x != names[n - 1] {
          var i :| 0 <= i < n - 1 && names[i] == x;
        }
      }
    }
  }

  /** ... and each of them is the slab of its own shape. */
  lemma {:induction false} CreateAllValues(names: seq<string>, slabs: seq<Rows>, n: nat)
    requires n <= |names| && n <= |slabs| && DistinctUpTo(names, n) && CreateAll(names, slabs, n).1.None?
    ensures forall i :: 0 <= i < n ==> names[i] in CreateAll(names, slabs, n).0 && CreateAll(names, slabs, n).0[names[i]] == slabs[i]
  {
    if n > 0 {
      CreateAllValues(names, slabs, n - 1);
    }
  }

  /** Creating the datasets fails iff two shapes share a name. */
  lemma {:induction false} CreateAllSucceeds(names: seq<string>, slabs: seq<Rows>, n: nat)
    requires n <= |names| && n <= |slabs|
    ensures CreateAll(names, slabs, n).1.None? <==> DistinctUpTo(names, n)
  {
    if n > 0 {
      CreateAllSucceeds(names, slabs, n - 1);
      var prev := CreateAll(names, slabs, n - 1);
      if prev.1.None? {
        CreateAllContents(names, slabs, n - 1);
        if names[n - 1] in prev.0 {
          var i :| 0 <= i < n - 1 && names[i] == names[n - 1];
        }
      }
    }
  }

  /** Appending to distinct existing datasets: each grows by its slab at the
      tail, its old rows unchanged; every other dataset stays as it was. */
  lemma {:induction false} AppendAllMeans(db: Database, names: seq<string>, slabs: seq<Rows>, n: nat)
    requires n <= |names| && n <= |slabs| && Distinct(names)
    requires forall i :: 0 <= i < n ==> names[i] in db
    ensures AppendAll(db, names, slabs, n).1.None?
    ensures AppendAll(db, names, slabs, n).0.Keys == db.Keys
    ensures forall i :: 0 <= i < n ==> AppendAll(db, names, slabs, n).0[names[i]] == db[names[i]] + slabs[i]
    ensures forall x :: x in db && (forall i :: 0 <= i < n ==> names[i] != x) ==> AppendAll(db, names, slabs, n).0[x] == db[x]
  {
    if n > 0 {
      AppendAllMeans(db, names, slabs, n - 1);
    }
  }

  /** In append mode a dataset the file lacks stops the save there, with
      the earlier datasets already extended. */
  lemma {:induction false} AppendAllFailsOnMissing(db: Database, names: seq<string>, slabs: seq<Rows>, n: nat, m: nat)
    requires m < n <= |names| && n <= |slabs| && Distinct(names)
    requires forall i :: 0 <= i < m ==> names[i] in db
    requires names[m] !in db
    ensures AppendAll(db, names, slabs, n) == (AppendAll(db, names, slabs, m).0, Some(names[m]))
  {
    if n > m + 1 {
      AppendAllFailsOnMissing(db, names, slabs, n - 1, m);
    } else {
      AppendAllMeans(db, names, slabs, m);
    }
  }

  class Aggregator {
    const ndviFiles: seq<string>
    const vciFiles: seq<string>
    const vci3mFiles: seq<string>
    const shapefilePath: string
    const isNew: bool
    /** The sanitised shape names, one dataset each. */
    const datasets: seq<string>
    /** (shapes, files, 4): per shape and date, [date, NDVI, VCI, VCI3M]. */
    const finalArray: array3<Option<Value>>
    var date: Option<string>

    /** The number of file triples open_files visits: zip stops at the
        shortest list. */
    function Visited(): (n: nat)
      reads this
      ensures n <= |ndviFiles| && n <= |vciFiles| && n <= |vci3mFiles|
    {
      var n := if |ndviFiles| <= |vciFiles| then |ndviFiles| else |vciFiles|;
      if n <= |vci3mFiles| then n else |vci3mFiles|
    }

    /** `names` is the shapefile's Name column; the file list of VCI3M must
        not be empty, since its first file gives the projection. */
    constructor(ndviFiles: seq<string>, vciFiles: seq<string>, vci3mFiles: seq<string>,
                shapefilePath: string, isNew: bool, names: seq<string>)
      requires |vci3mFiles| >= 1
      ensures this.ndviFiles == ndviFiles && this.vciFiles == vciFiles && this.vci3mFiles == vci3mFiles
      ensures this.shapefilePath == shapefilePath && this.isNew == isNew
      ensures |datasets| == |names| && forall s :: 0 <= s < |names| ==> datasets[s] == Sanitise(names[s])
      ensures fresh(finalArray)
      ensures finalArray.Length0 == |names| && finalArray.Length1 == |vci3mFiles| && finalArray.Length2 == 4
      ensures forall s, t, k :: 0 <= s < |names| && 0 <= t < |vci3mFiles| && 0 <= k < 4 ==> finalArray[s, t, k] == None
      ensures date.None?
    {
      this.ndviFiles, this.vciFiles, this.vci3mFiles := ndviFiles, vciFiles, vci3mFiles;
      this.shapefilePath, this.isNew := shapefilePath, isNew;
      datasets := seq(|names|, s requires 0 <= s < |names| => Sanitise(names[s]));
      finalArray := new Option<Value>[|names|, |vci3mFiles|, 4]((s, t, k) => None);
      date := None;
    }

    predicate Shaped()
      reads this
    {
      finalArray.Length0 == |datasets| && finalArray.Length1 == |vci3mFiles| && finalArray.Length2 == 4
    }

    /** The cells of date t hold its row for every shape. */
    predicate RowsStored(crops: seq<seq<Crop>>, t: nat)
      requires Shaped() && t < |vci3mFiles| && t < |crops| && |crops[t]| == |datasets|
      reads this, finalArray
    {
      DateValues(vci3mFiles)[t].Some? &&
      forall s, k :: 0 <= s < |datasets| && 0 <= k < 4 ==>
        finalArray[s, t, k] == Some(Row(DateValues(vci3mFiles)[t].value, crops[t][s])[k])
    }

    /** open_files: for each file triple, the date of its VCI3M file, then
        crop_to_shapefile for every shape. `crops[t][s]` are the pixels of
        shape s in triple t. The failure is the index of the file whose date
        is missing or not a number. */
    method OpenFiles(crops: seq<seq<Crop>>) returns (failure: Option<nat>)
      requires Shaped() && |crops| >= Visited() && forall t :: 0 <= t < |crops| ==> |crops[t]| == |datasets|
      modifies this, finalArray
      ensures Shaped()
      ensures failure.Some? ==> failure.value < Visited()
      ensures var n := if failure.Some? then failure.value else Visited();
        (forall t :: 0 <= t < n ==> Readable(vci3mFiles, |datasets|, t)) &&
        (failure.Some? ==> !Readable(vci3mFiles, |datasets|, n))
      ensures var n := if failure.Some? then failure.value else Visited();
        forall t :: 0 <= t < n && |datasets| > 0 ==> RowsStored(crops, t)
      ensures var n := if failure.Some? then failure.value else Visited();
        forall s, t, k :: 0 <= s < |datasets| && n <= t < |vci3mFiles| && 0 <= k < 4 ==>
          finalArray[s, t, k] == old(finalArray[s, t, k])
    {
      var n := Visited();
      for t := 0 to n
        invariant Shaped()
        invariant forall u :: 0 <= u < t ==> Readable(vci3mFiles, |datasets|, u)
        invariant forall u :: 0 <= u < t && |datasets| > 0 ==> RowsStored(crops, u)
        invariant forall s, u, k :: 0 <= s < |datasets| && t <= u < |vci3mFiles| && 0 <= k < 4 ==>
          finalArray[s, u, k] == old(finalArray[s, u, k])
      {
        var ok := OpenTriple(t, crops);
        if !ok {
          return Some(t);
        }
      }
      failure := None;
    }

    /** One pass of open_files' loop: the date of triple t, then
        crop_to_shapefile. */
    method OpenTriple(t: nat, crops: seq<seq<Crop>>) returns (ok: bool)
      requires Shaped() && t < |vci3mFiles| && t < |crops| && forall u :: 0 <= u < |crops| ==> |crops[u]| == |datasets|
      modifies this, finalArray
      ensures ok <==> Readable(vci3mFiles, |datasets|, t)
      ensures ok && |datasets| > 0 ==> RowsStored(crops, t)
      ensures forall u :: 0 <= u < |vci3mFiles| && u < |crops| && u != t && old(RowsStored(crops, u)) ==> RowsStored(crops, u)
      ensures forall s, u, k :: 0 <= s < |datasets| && 0 <= u < |vci3mFiles| && 0 <= k < 4 && (u != t || !ok) ==>
        finalArray[s, u, k] == old(finalArray[s, u, k])
    {
      var text, value := ReadDate(t);
      if text.None? {
        return false;
      }
      date := text;
      ok := CropToShapefile(t, value, crops[t]);
    }

    /** The date of VCI3M file t, as text and as the number stored. */
    method ReadDate(t: nat) returns (text: Option<string>, value: Option<nat>)
      requires t < |vci3mFiles|
      ensures text == DateTexts(vci3mFiles)[t] && value == DateValues(vci3mFiles)[t]
      ensures text.None? ==> value.None?
    {
      DatesAt(vci3mFiles, t);
      text := DateText(vci3mFiles[t]);
      value := if text.None? then None else ParseNat(text.value);
    }

    /** crop_to_shapefile: check_cloud_store for every shape, at date t. */
    method CropToShapefile(t: nat, value: Option<nat>, crops: seq<Crop>) returns (ok: bool)
      requires Shaped() && t < |vci3mFiles| && |crops| == |datasets|
      modifies finalArray
      ensures ok <==> |datasets| == 0 || value.Some?
      ensures ok && |datasets| > 0 ==> forall s, k :: 0 <= s < |datasets| && 0 <= k < 4 ==>
        finalArray[s, t, k] == Some(Row(value.value, crops[s])[k])
      ensures forall s, u, k :: 0 <= s < |datasets| && 0 <= u < |vci3mFiles| && (u != t || !ok) && 0 <= k < 4 ==>
        finalArray[s, u, k] == old(finalArray[s, u, k])
    {
      if |datasets| > 0 && value.None? {
        ok := CheckCloudStore(0, t, value, crops[0]);
        return;
      }
      ok := true;
      for s := 0 to |datasets|
        invariant forall r, k :: 0 <= r < s && 0 <= k < 4 ==> finalArray[r, t, k] == Some(Row(value.value, crops[r])[k])
        invariant forall r, u, k :: 0 <= r < |datasets| && 0 <= u < |vci3mFiles| && 0 <= k < 4 && (u != t || r >= s) ==>
          finalArray[r, u, k] == old(finalArray[r, u, k])
      {
        var stored := CheckCloudStore(s, t, value, crops[s]);
      }
    }

    /** check_cloud_store: the date, then each layer's mean or NaN, into
        final_array[s, t, :]. float(date) fails before anything is written. */
    method CheckCloudStore(s: nat, t: nat, value: Option<nat>, crop: Crop) returns (stored: bool)
      requires Shaped() && s < |datasets| && t < |vci3mFiles|
      modifies finalArray
      ensures stored <==> value.Some?
      ensures stored ==> forall k :: 0 <= k < 4 ==> finalArray[s, t, k] == Some(Row(value.value, crop)[k])
      ensures forall r, u, k :: 0 <= r < |datasets| && 0 <= u < |vci3mFiles| && 0 <= k < 4 && (r != s || u != t || !stored) ==>
        finalArray[r, u, k] == old(finalArray[r, u, k])
    {
      if value.None? {
        return false;
      }
      finalArray[s, t, 0] := Some(Num(value.value as real));
      finalArray[s, t, 1] := Some(LayerMean(crop.ndvi));
      finalArray[s, t, 2] := Some(LayerMean(crop.vci));
      finalArray[s, t, 3] := Some(LayerMean(crop.vci3m));
      stored := true;
    }

    /** final_array[s, :, :], the rows of shape s. */
    function Slab(s: nat): (rows: Rows)
      requires Shaped() && s < |datasets|
      reads this, finalArray
      ensures |rows| == |vci3mFiles| && forall t :: 0 <= t < |rows| ==> |rows[t]| == 4
    {
      seq(finalArray.Length1, t requires 0 <= t < finalArray.Length1 reads finalArray =>
        seq(4, k requires 0 <= k < 4 reads finalArray => finalArray[s, t, k]))
    }

    function Slabs(): (slabs: seq<Rows>)
      requires Shaped()
      reads this, finalArray
      ensures |slabs| == |datasets| && forall s :: 0 <= s < |datasets| ==> slabs[s] == Slab(s)
    {
      seq(|datasets|, s requires 0 <= s < |datasets| reads this, finalArray => Slab(s))
    }

    /** The disk after save_to_hdf writes final_array to <database>.h5,
        and the dataset name that failed. */
    function SavedDisk(disk: Disk): (Disk, Option<string>)
      requires Shaped()
      reads this, finalArray
    {
      var file := DatabaseName(shapefilePath) + ".h5";
      var start := if isNew || file !in disk then map[] else disk[file];
      var r := if isNew then CreateAll(datasets, Slabs(), |datasets|) else AppendAll(start, datasets, Slabs(), |datasets|);
      (disk[file := r.0], r.1)
    }

    /** open_files as a whole: the loop over the file triples, then
        save_to_hdf. A date that cannot be read stops it before anything is
        saved. */
    method OpenFilesAndSave(crops: seq<seq<Crop>>, disk: Disk) returns (failure: Option<nat>, saved: Disk, saveFailure: Option<string>)
      requires Shaped() && |crops| >= Visited() && forall t :: 0 <= t < |crops| ==> |crops[t]| == |datasets|
      modifies this, finalArray
      ensures Shaped()
      ensures failure.Some? ==>
        failure.value < Visited() && !Readable(vci3mFiles, |datasets|, failure.value) && saved == disk && saveFailure.None?
      ensures failure.None? ==>
        (forall t :: 0 <= t < Visited() && |datasets| > 0 ==> RowsStored(crops, t)) &&
        (saved, saveFailure) == SavedDisk(disk)
    {
      failure := OpenFiles(crops);
      if failure.Some? {
        return failure, disk, None;
      }
      saved, saveFailure := SaveToHdf(disk);
    }

    /** save_to_hdf: a new file (mode 'w') holding one dataset per shape, or
        the datasets of the existing file (mode 'a', created empty when
        missing) extended by this run's rows. */
    method SaveToHdf(disk: Disk) returns (saved: Disk, failure: Option<string>)
      requires Shaped()
      ensures (saved, failure) == SavedDisk(disk)
    {
      var file := DatabaseName(shapefilePath) + ".h5";
      var db: Database := if isNew || file !in disk then map[] else disk[file];
      ghost var start := db;
      var slabs := Slabs();
      failure := None;
      for s := 0 to |datasets|
        invariant (if isNew then CreateAll(datasets, slabs, s) else AppendAll(start, datasets, slabs, s)) == (db, None)
      {
        var name := datasets[s];
        if (isNew && name in db) || (!isNew && name !in db) {
          SaveStopsAtFailure(start, datasets, slabs, s + 1, |datasets|);
          return disk[file := db], Some(name);
        }
        db := db[name := if isNew then slabs[s] else db[name] + slabs[s]];
      }
      saved := disk[file := db];
    }
  }

  /** A save in append mode after a full run: every shape's dataset grows by
      one row per VCI3M file, old rows first and unchanged. */
  lemma AppendGrowsByFiles(db: Database, names: seq<string>, slabs: seq<Rows>, files: nat)
    requires |slabs| == |names| && Distinct(names)
    requires forall i :: 0 <= i < |names| ==> names[i] in db && |slabs[i]| == files
    ensures AppendAll(db, names, slabs, |names|).1.None?
    ensures AppendAll(db, names, slabs, |names|).0.Keys == db.Keys
    ensures forall i :: 0 <= i < |names| ==>
      var rows := AppendAll(db, names, slabs, |names|).0[names[i]];
      |rows| == |db[names[i]]| + files && rows[..|db[names[i]]|] == db[names[i]] && rows[|db[names[i]]|..] == slabs[i]
  {
    AppendAllMeans(db, names, slabs, |names|);
  }
}
