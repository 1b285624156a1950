/** main: the three ways the pipeline is driven. A new time series is built
    either from the raw NDVI files (normalisation, VCI, VCI3M, aggregation)
    or from VCI files already made; otherwise only the NDVI files dated after
    the last stored date are converted, together with the eight VCI files
    before them that the three-month average needs. The steps themselves are
    the other modules; here each call is recorded as a stage. */
module Pipeline {
  import opened Values
  import opened Text
  import Aggregate

  /** The branch main takes. */
  datatype Mode = FromRawNdvi | FromExistingVci | Incremental

  function Dispatch(createNew: bool, scratch: bool): (m: Mode)
    ensures m == FromRawNdvi <==> createNew && scratch
    ensures m == FromExistingVci <==> createNew && !scratch
    ensures m == Incremental <==> !createNew
  {
    if createNew && scratch then FromRawNdvi
    else if createNew && !scratch then FromExistingVci
    else Incremental
  }

  /** int(file.split('dekadal.')[1].split('.tif')[0]). */
  function DekadalDate(file: string): Option<nat>
  {
    match Between(file, "dekadal.", ".tif")
    case None => None
    case Some(d) => ParseNat(d)
  }

  /** A date is read exactly when the name holds "dekadal." and the text
      after it, up to ".tif", is a non-empty run of digits. */
  lemma DekadalDateMeans(file: string)
    ensures Between(file, "dekadal.", ".tif").Some? <==> Contains(file, "dekadal.")
    ensures DekadalDate(file).Some? <==> match Between(file, "dekadal.", ".tif")
      case None => false
      case Some(d) => |d| > 0 && AllDigits(d) && !Contains(d, ".tif")
  {
    BetweenMeans(file, "dekadal.", ".tif");
  }

  /** The dates of a file list, or the first file whose name has none (the
      comprehension raises there). */
  datatype Parsed = Parsed(dates: seq<nat>) | Unparsable(file: string)

  function ParseDates(files: seq<string>): (p: Parsed)
    ensures p.Parsed? ==> |p.dates| == |files|
  {
    if files == [] then Parsed([])
    else match DekadalDate(files[0])
      case None => Unparsable(files[0])
      case Some(d) =>
        match ParseDates(files[1..])
        case Parsed(ds) => Parsed([d] + ds)
        case Unparsable(f) => Unparsable(f)
  }

  /** The dates are those of the files, in order. */
  lemma {:induction false} ParseDatesMeans(files: seq<string>)
    ensures ParseDates(files).Parsed? <==> forall i :: 0 <= i < |files| ==> DekadalDate(files[i]).Some?
    ensures ParseDates(files).Parsed? ==>
      forall i :: 0 <= i < |files| ==> Some(ParseDates(files).dates[i]) == DekadalDate(files[i])
  {
    if files != [] {
      var rest := files[1..];
      ParseDatesMeans(rest);
      assert forall i :: 0 <= i < |rest| ==> rest[i] == files[i + 1];
      if ParseDates(files).Parsed? {
        forall i | 0 <= i < |files|
          ensures Some(ParseDates(files).dates[i]) == DekadalDate(files[i])
        {
          if i > 0 {
            assert files[i] == rest[i - 1];
          }
        }
      }
    }
  }

  /** Parsing fails at the first file without a date. */
  lemma {:induction false} ParseDatesFailsFirst(files: seq<string>)
    requires ParseDates(files).Unparsable?
    ensures exists k :: (0 <= k < |files| && files[k] == ParseDates(files).file &&
      DekadalDate(files[k]).None? && forall i :: 0 <= i < k ==> DekadalDate(files[i]).Some?)
  {
    if DekadalDate(files[0]).Some? {
      var rest := files[1..];
      ParseDatesFailsFirst(rest);
      var k :| 0 <= k < |rest| && rest[k] == ParseDates(rest).file &&
        DekadalDate(rest[k]).None? && forall i :: 0 <= i < k ==> DekadalDate(rest[i]).Some?;
      assert files[k + 1] == rest[k];
      forall i | 0 <= i < k + 1 ensures DekadalDate(files[i]).Some? {
        if i > 0 {
          assert files[i] == rest[i - 1];
        }
      }
    } else {
      assert files[0] == ParseDates(files).file;
    }
  }

  /** date > last_known_processed_date, the stored date being a float. */
  predicate IsNewer(date: nat, last: Value)
  {
    !last.NaN? && !Le(Num(date as real), last)
  }

  /** new_unformatted_dates > last_known_processed_date. */
  function NewMask(dates: seq<nat>, last: Value): (mask: seq<bool>)
    ensures |mask| == |dates|
    ensures forall i :: 0 <= i < |dates| ==> (mask[i] <==> IsNewer(dates[i], last))
  {
    seq(|dates|, i requires 0 <= i < |dates| => IsNewer(dates[i], last))
  }

  /** new_dates and new_NDVI_files are the newer dates and their files, in
      their original order, and no newer file is missed. */
  lemma NewFilesAreTheNewer(files: seq<string>, dates: seq<nat>, last: Value)
    requires |files| == |dates|
    ensures var mask := NewMask(dates, last);
      |Select(files, mask)| == |Select(dates, mask)| == Count(mask) &&
      (forall i :: 0 <= i < Count(mask) ==>
        IsNewer(Select(dates, mask)[i], last) &&
        Select(dates, mask)[i] == dates[Pos(mask, i)] && Select(files, mask)[i] == files[Pos(mask, i)]) &&
      (forall i, j :: 0 <= i < j < Count(mask) ==> Pos(mask, i) < Pos(mask, j))
    ensures var mask := NewMask(dates, last);
      forall p :: 0 <= p < |dates| && IsNewer(dates[p], last) ==>
        Count(mask[..p]) < Count(mask) &&
        Select(dates, mask)[Count(mask[..p])] == dates[p] && Select(files, mask)[Count(mask[..p])] == files[p]
  {
    var mask := NewMask(dates, last);
    forall i | 0 <= i < Count(mask)
      ensures IsNewer(Select(dates, mask)[i], last)
      ensures Select(dates, mask)[i] == dates[Pos(mask, i)] && Select(files, mask)[i] == files[Pos(mask, i)]
    {
      SelectAt(dates, mask, i);
      SelectAt(files, mask, i);
    }
    forall i, j | 0 <= i < j < Count(mask) ensures Pos(mask, i) < Pos(mask, j) {
      PosIncreasing(mask, i, j);
    }
    forall p | 0 <= p < |dates| && IsNewer(dates[p], last)
      ensures Count(mask[..p]) < Count(mask)
      ensures Select(dates, mask)[Count(mask[..p])] == dates[p] && Select(files, mask)[Count(mask[..p])] == files[p]
    {
      PosOnto(mask, p);
      SelectAt(dates, mask, Count(mask[..p]));
      SelectAt(files, mask, Count(mask[..p]));
    }
  }

  /** Python's reading of a slice bound k on a sequence of length n: a
      negative bound counts from the end, and both are clamped to [0, n]. */
  function SliceBound(k: int, n: nat): (b: nat)
    ensures b <= n
    ensures k >= 0 ==> b == if k <= n then k else n
    ensures k < 0 ==> b == if n + k >= 0 then n + k else 0
  {
    if k < 0 then (if n + k >= 0 then n + k else 0)
    else if k <= n then k else n
  }

  /** VCI_data_mask after VCI_data_mask[-count-8:-count] = True. */
  function Extended(mask: seq<bool>, count: nat): (r: seq<bool>)
    ensures |r| == |mask|
  {
    var lo := SliceBound(-(count as int) - 8, |mask|);
    var hi := SliceBound(-(count as int), |mask|);
    seq(|mask|, i requires 0 <= i < |mask| => mask[i] || (lo <= i < hi))
  }

  /** The slice marks the eight positions before the last `count` (fewer
      when the list is short); with no new data it is [-8:-0], which is
      empty, and nothing changes. */
  lemma ExtendedMeans(mask: seq<bool>, count: nat)
    requires count <= |mask|
    ensures count == 0 ==> Extended(mask, count) == mask
    ensures count > 0 ==> forall i :: 0 <= i < |mask| ==>
      (Extended(mask, count)[i] <==> mask[i] || |mask| - count - 8 <= i < |mask| - count)
  {
  }

  /** The mask main builds when the new files are the last ones (the glob
      lists the files in date order): with n of them it selects the last
      n + 8 files, or all when there are fewer, and nothing when n is 0. */
  lemma ExtendedSuffix(total: nat, n: nat)
    requires n <= total
    ensures var mask := seq(total, i requires 0 <= i < total => i >= total - n);
      Count(mask) == n &&
      forall i :: 0 <= i < total ==> (Extended(mask, Count(mask))[i] <==> (n > 0 && i + n + 8 >= total))
  {
    CountSuffix(total, n);
  }

  /** The count of a mask that keeps its last n entries. */
  lemma {:induction false} CountSuffix(total: nat, n: nat)
    requires n <= total
    ensures Count(seq(total, i requires 0 <= i < total => i >= total - n)) == n
  {
    if total > 0 {
      var mask := seq(total, i requires 0 <= i < total => i >= total - n);
      if n > 0 {
        CountSuffix(total - 1, n - 1);
        assert mask[..total - 1] == seq(total - 1, i requires 0 <= i < total - 1 => i >= (total - 1) - (n - 1));
      } else {
        CountSuffix(total - 1, 0);
        assert mask[..total - 1] == seq(total - 1, i requires 0 <= i < total - 1 => i >= total - 1);
      }
    }
  }

  /** Lines 193-198 in place: the mask is a copy of the new-data mask, and
      the slice before the last `count` entries is set. */
  method ExtendMask(mask: array<bool>, count: nat)
    modifies mask
    ensures mask[..] == Extended(old(mask[..]), count)
  {
    var lo := SliceBound(-(count as int) - 8, mask.Length);
    var hi := SliceBound(-(count as int), mask.Length);
    ghost var before := mask[..];
    var i := lo;
    while i < hi
      invariant lo <= i && (lo <= hi ==> i <= hi)
      invariant forall j :: 0 <= j < mask.Length ==> mask[j] == (before[j] || (lo <= j < i && j < hi))
    {
      mask[i] := true;
      i := i + 1;
    }
    assert mask[..] == Extended(before, count);
  }

  /** new_VCI_files: the VCI files under the extended mask; None when the
      lists differ in length (NumPy refuses the boolean index). */
  function VciSelection(newMask: seq<bool>, vciFiles: seq<string>): (r: Option<seq<string>>)
    ensures r.Some? <==> |vciFiles| == |newMask|
  {
    if |vciFiles| == |newMask| then Some(Select(vciFiles, Extended(newMask, Count(newMask)))) else None
  }

  /** Lines 193-202: copy the mask into an array, count, extend, select. */
  method SelectVciFiles(newMask: seq<bool>, vciFiles: seq<string>) returns (r: Option<seq<string>>)
    ensures r == VciSelection(newMask, vciFiles)
  {
    var mask := new bool[|newMask|](i requires 0 <= i < |newMask| => newMask[i]);
    assert mask[..] == newMask;
    var count := Count(newMask);
    ExtendMask(mask, count);
    if |vciFiles| != mask.Length {
      return None;
    }
    r := Some(Select(vciFiles, mask[..]));
  }

  /** A call main makes: a pipeline step, built and (`run`) executed. */
  datatype Stage =
    | Normalise(ndviFiles: seq<string>)
    | ToVci(files: seq<string>, dates: seq<nat>, run: bool)
    | ToVci3m(files: seq<string>, run: bool)
    | Aggregated(ndviFiles: seq<string>, vciFiles: seq<string>, vci3mFiles: seq<string>, shapefile: string, isNew: bool, filesOpened: bool)
    | Forecast(database: string, shapefile: string, column: string)

  /** Why main stops: a name without a date (ValueError or IndexError in
      the date comprehension), a VCI list the mask does not fit, an unbound
      database_name, a step constructor opening the first file of an empty
      list (IndexError), and the forecast constructed with two of its three
      arguments (TypeError). */
  datatype Fault = BadFileName(file: string) | MaskLength | UnboundName | NoFirstFile | ForecastArity

  datatype Ending = Finished | Exited | Crashed(fault: Fault)

  datatype Run = Run(stages: seq<Stage>, ending: Ending)

  /** The settings at the top of main. */
  datatype Settings = Settings(createNew: bool, scratch: bool, shapefilePath: string)

  /** What main reads from outside: the three globs (the VCI one taken after
      the conversion, the VCI3M one after the averaging), the last stored
      date and the answer to the prompt. */
  datatype World = World(ndviFiles: seq<string>, vciFiles: seq<string>, vci3mFiles: seq<string>, last: Value, answer: string)

  /** The shapefile column the datasets are named by; the corrected
      forecast call passes it as its third argument. */
  const ShapefileColumn: string := "Name"

  /** The forecast call closing a branch. As written it passes two arguments
      and raises TypeError before any forecast is built. */
  function Forecasting(before: seq<Stage>, database: string, shapefile: string, corrected: bool): (r: Run)
    ensures before <= r.stages
    ensures r.ending.Finished? <==> corrected
    ensures !corrected ==> r == Run(before, Crashed(ForecastArity))
  {
    if corrected then Run(before + [Forecast(database, shapefile, ShapefileColumn)], Finished)
    else Run(before, Crashed(ForecastArity))
  }

  /** The aggregation step: its constructor opens the first VCI3M file. */
  function Aggregating(before: seq<Stage>, w: World, s: Settings, open: bool): Option<seq<Stage>>
  {
    if |w.vci3mFiles| == 0 then None
    else Some(before + [Aggregated(w.ndviFiles, w.vciFiles, w.vci3mFiles, s.shapefilePath, s.createNew, open)])
  }

  function FromRaw(s: Settings, w: World, corrected: bool): Run
  {
    var name := Aggregate.DatabaseName(s.shapefilePath);
    match ParseDates(w.ndviFiles)
    case Unparsable(f) => Run([], Crashed(BadFileName(f)))
    case Parsed(dates) =>
      if |w.ndviFiles| == 0 then Run([], Crashed(NoFirstFile))
      else
        var steps := [Normalise(w.ndviFiles), ToVci(w.ndviFiles, dates, false), ToVci3m(w.vciFiles, false)];
        match Aggregating(steps, w, s, false)
        case None => Run(steps, Crashed(NoFirstFile))
        case Some(aggregated) => Forecasting(aggregated, name, s.shapefilePath, corrected)
  }

  function FromVci(s: Settings, w: World, corrected: bool): Run
  {
    var name := Aggregate.DatabaseName(s.shapefilePath);
    match Aggregating([], w, s, true)
    case None => Run([], Crashed(NoFirstFile))
    case Some(aggregated) => Forecasting(aggregated, name, s.shapefilePath, corrected)
  }

  /** The incremental branch. As written, database_name is bound only on the
      path with no new files, and with none the early forecast raises; the
      correction binds the name up front, as the other branches do. */
  function Update(s: Settings, w: World, corrected: bool): Run
  {
    var name := Aggregate.DatabaseName(s.shapefilePath);
    match ParseDates(w.ndviFiles)
    case Unparsable(f) => Run([], Crashed(BadFileName(f)))
    case Parsed(dates) =>
      var mask := NewMask(dates, w.last);
      var newDates := Select(dates, mask);
      var newFiles := Select(w.ndviFiles, mask);
      if |newFiles| == 0 && w.answer != "y" then Run([], Exited)
      else if |newFiles| == 0 && !corrected then Forecasting([], name, s.shapefilePath, false)
      else
        var early := if |newFiles| == 0 then Forecasting([], name, s.shapefilePath, true).stages else [];
        var converted := early + [ToVci(newFiles, newDates, true)];
        match VciSelection(mask, w.vciFiles)
        case None => Run(converted, Crashed(MaskLength))
        case Some(newVci) =>
          var averaged := converted + [ToVci3m(newVci, true)];
          match Aggregating(averaged, w, s, true)
          case None => Run(averaged, Crashed(NoFirstFile))
          case Some(aggregated) =>
            // uncorrected, this point is reached only with new files
            if corrected then Forecasting(aggregated, name, name, true)
            else Run(aggregated, Crashed(UnboundName))
  }

  /** main as written. */
  function Main(s: Settings, w: World): Run
  {
    match Dispatch(s.createNew, s.scratch)
    case FromRawNdvi => FromRaw(s, w, false)
    case FromExistingVci => FromVci(s, w, false)
    case Incremental => Update(s, w, false)
  }

  /** main with every forecast call given the shapefile column and
      database_name bound before the incremental forecast. */
  function MainCorrected(s: Settings, w: World): Run
  {
    match Dispatch(s.createNew, s.scratch)
    case FromRawNdvi => FromRaw(s, w, true)
    case FromExistingVci => FromVci(s, w, true)
    case Incremental => Update(s, w, true)
  }

  /** As written main never finishes. The correction changes nothing before
      the first forecast: the corrected run extends the run as written, it
      finishes only where the run as written stopped at a forecast, and a
      run as written that stops elsewhere is the corrected run. */
  lemma MainNeverFinishes(s: Settings, w: World)
    ensures !Main(s, w).ending.Finished?
    ensures Main(s, w).stages <= MainCorrected(s, w).stages
    ensures MainCorrected(s, w).ending.Finished? ==>
      Main(s, w).ending == Crashed(ForecastArity) || Main(s, w).ending == Crashed(UnboundName)
    ensures Main(s, w).ending != Crashed(ForecastArity) && Main(s, w).ending != Crashed(UnboundName) ==>
      MainCorrected(s, w) == Main(s, w)
  {
    if !s.createNew {
      UpdateOnlyForecasts(s, w);
    }
  }

  /** The incremental branch of MainNeverFinishes. */
  lemma UpdateOnlyForecasts(s: Settings, w: World)
    ensures !Update(s, w, false).ending.Finished?
    ensures Update(s, w, false).stages <= Update(s, w, true).stages
    ensures Update(s, w, true).ending.Finished? ==>
      Update(s, w, false).ending == Crashed(ForecastArity) || Update(s, w, false).ending == Crashed(UnboundName)
    ensures Update(s, w, false).ending != Crashed(ForecastArity) && Update(s, w, false).ending != Crashed(UnboundName) ==>
      Update(s, w, true) == Update(s, w, false)
  {
    match ParseDates(w.ndviFiles)
    case Unparsable(_) =>
    case Parsed(dates) =>
      var newFiles := Select(w.ndviFiles, NewMask(dates, w.last));
      if |newFiles| > 0 {
        match VciSelection(NewMask(dates, w.last), w.vciFiles)
        case None =>
        case Some(_) =>
      }
  }

  /** A new time series: from scratch main only builds the step objects
      (their work is commented out in main), from existing VCI files it
      aggregates and opens the files. The step constructors that open the
      first file of a list stop it on an empty NDVI or VCI3M list; otherwise
      it reaches the forecast, which raises as written and, corrected,
      forecasts the shapefile's database. Neither branch reads the database
      nor asks the user. */
  lemma NewSeriesBranches(s: Settings, w: World)
    requires s.createNew
    ensures var r := Main(s, w); var c := MainCorrected(s, w); var name := Aggregate.DatabaseName(s.shapefilePath);
      (s.scratch ==> ((r.ending == Crashed(ForecastArity) <==> ParseDates(w.ndviFiles).Parsed? && |w.ndviFiles| > 0 && |w.vci3mFiles| > 0) &&
        (r.ending == Crashed(NoFirstFile) <==> ParseDates(w.ndviFiles).Parsed? && (|w.ndviFiles| == 0 || |w.vci3mFiles| == 0)) &&
        forall k :: 0 <= k < |c.stages| ==> !(c.stages[k].ToVci? && c.stages[k].run) && !(c.stages[k].Aggregated? && c.stages[k].filesOpened))) &&
      (!s.scratch ==> r == (if |w.vci3mFiles| > 0 then Run([Aggregated(w.ndviFiles, w.vciFiles, w.vci3mFiles, s.shapefilePath, true, true)], Crashed(ForecastArity))
                            else Run([], Crashed(NoFirstFile)))) &&
      (c.ending.Finished? <==> r.ending == Crashed(ForecastArity)) &&
      (c.ending.Finished? ==> c.stages == r.stages + [Forecast(name, s.shapefilePath, ShapefileColumn)]) &&
      (!c.ending.Finished? ==> c == r)
  {
  }

  /** With no new file and the answer 'y', main as written stops at the
      early forecast before any step. Corrected, it forecasts and goes on
      to the VCI step with empty lists; the VCI3M step gets no file either,
      since the mask is not extended. */
  lemma NoNewFilesFallsThrough(s: Settings, w: World)
    requires !s.createNew && ParseDates(w.ndviFiles).Parsed? && w.answer == "y"
    requires forall i :: 0 <= i < |w.ndviFiles| ==> !IsNewer(ParseDates(w.ndviFiles).dates[i], w.last)
    requires |w.vciFiles| == |w.ndviFiles|
    ensures Main(s, w) == Run([], Crashed(ForecastArity))
    ensures var name := Aggregate.DatabaseName(s.shapefilePath);
      MainCorrected(s, w).stages[..3] == [Forecast(name, s.shapefilePath, ShapefileColumn), ToVci([], [], true), ToVci3m([], true)]
  {
    var dates := ParseDates(w.ndviFiles).dates;
    var mask := NewMask(dates, w.last);
    NoneKept(mask);
    ExtendedMeans(mask, 0);
    NoneKeptSelects(dates, mask);
    NoneKeptSelects(w.ndviFiles, mask);
    NoneKeptSelects(w.vciFiles, mask);
  }

  /** With no entry kept the count is 0. */
  lemma {:induction false} NoneKept(keep: seq<bool>)
    requires forall i :: 0 <= i < |keep| ==> !keep[i]
    ensures Count(keep) == 0
  {
    if keep != [] {
      NoneKept(keep[..|keep| - 1]);
    }
  }

  lemma NoneKeptSelects<T>(xs: seq<T>, keep: seq<bool>)
    requires |xs| == |keep| && Count(keep) == 0
    ensures Select(xs, keep) == []
  {
  }

  /** As written, an incremental run with new files converts, averages and
      aggregates, and then stops at the forecast (database_name was never
      bound); with no VCI3M file the aggregation's constructor stops it
      first. */
  lemma UnboundNameWhenNew(s: Settings, w: World)
    requires !s.createNew && ParseDates(w.ndviFiles).Parsed?
    requires exists i :: 0 <= i < |w.ndviFiles| && IsNewer(ParseDates(w.ndviFiles).dates[i], w.last)
    requires |w.vciFiles| == |w.ndviFiles|
    ensures |w.vci3mFiles| > 0 ==> Main(s, w).ending == Crashed(UnboundName) && |Main(s, w).stages| == 3
    ensures |w.vci3mFiles| == 0 ==> Main(s, w).ending == Crashed(NoFirstFile) && |Main(s, w).stages| == 2
  {
    NewFileSelected(s, w);
  }

  /** Corrected, the same run converts the new files and, given a VCI3M
      file, ends with the forecast of the shapefile's database. */
  lemma CorrectedForecastsWhenNew(s: Settings, w: World)
    requires !s.createNew && ParseDates(w.ndviFiles).Parsed?
    requires exists i :: 0 <= i < |w.ndviFiles| && IsNewer(ParseDates(w.ndviFiles).dates[i], w.last)
    requires |w.vciFiles| == |w.ndviFiles|
    ensures var r := MainCorrected(s, w); var name := Aggregate.DatabaseName(s.shapefilePath);
      |r.stages| > 0 && r.stages[0].ToVci? && r.stages[0].run &&
      (r.ending == Finished <==> |w.vci3mFiles| > 0) &&
      (|w.vci3mFiles| > 0 ==> |r.stages| == 4 && r.stages[3] == Forecast(name, name, ShapefileColumn))
  {
    NewFileSelected(s, w);
  }

  /** A newer date means a non-empty selection. */
  lemma NewFileSelected(s: Settings, w: World)
    requires ParseDates(w.ndviFiles).Parsed?
    requires exists i :: 0 <= i < |w.ndviFiles| && IsNewer(ParseDates(w.ndviFiles).dates[i], w.last)
    ensures var dates := ParseDates(w.ndviFiles).dates;
      |Select(w.ndviFiles, NewMask(dates, w.last))| > 0
  {
    var dates := ParseDates(w.ndviFiles).dates;
    var p :| 0 <= p < |w.ndviFiles| && IsNewer(dates[p], w.last);
    PosOnto(NewMask(dates, w.last), p);
  }
}
