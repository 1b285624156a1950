/** hindcast: every dataset of the time-series database is forecast from its
    first half, one dekad further at each run; the last ten predictions of
    run r go on the diagonal hindcast_results[r + s, s], and the result is
    stored beside the series as ten lag columns. The Gaussian-process
    forecast and the date arithmetic are inputs. */
module Hindcasts {
  import opened Values
  import opened Grids

  /** The Gaussian-process forecast of a VCI3M series from its day offsets
      and values. It gives at least ten predictions; the hindcast keeps the
      last ten. */
  type Forecaster = f: (seq<int>, seq<Value>) -> seq<Value>
    | forall days, vci :: |f(days, vci)| >= 10
    witness (days: seq<int>, vci: seq<Value>) => seq(10, _ => NaN)

  /** Lead times per run: 0, 10, ..., 90 days. */
  const Leads: nat := 10
  /** Date, NDVI, VCI and VCI3M come first; the lag columns start after them. */
  const LagColumn: nat := 4
  const Columns: nat := 14

  /** A dataset of the database: rows of [date, NDVI, VCI, VCI3M, ...]. */
  type Rows = seq<seq<Value>>

  /** Every row has a VCI3M column. */
  predicate Wide(rows: Rows)
  {
    forall i :: 0 <= i < |rows| ==> |rows[i]| >= 4
  }

  /** int(data_length / 2). */
  function Half(length: nat): (h: nat)
    ensures h + h <= length < h + h + 2
  {
    length / 2
  }

  /** How many runs the hindcast makes: range(half, data_length). */
  function Runs(length: nat): (n: nat)
    ensures Half(length) + n == length
  {
    length - Half(length)
  }

  /** dataset_array[:h]: Python's slice stops at the end. */
  function Prefix(rows: Rows, h: nat): (p: Rows)
    ensures |p| <= h && |p| <= |rows| && (|p| == h || |p| == |rows|)
    ensures forall i :: 0 <= i < |p| ==> p[i] == rows[i]
  {
    if h <= |rows| then rows[..h] else rows
  }

  /** ~np.isnan(dataset_array[:, 3]). */
  function HasVci(rows: Rows): (keep: seq<bool>)
    requires Wide(rows)
    ensures |keep| == |rows| && forall i :: 0 <= i < |rows| ==> (keep[i] <==> !rows[i][3].NaN?)
  {
    seq(|rows|, i requires 0 <= i < |rows| => !rows[i][3].NaN?)
  }

  function Column(rows: Rows, c: nat): (col: seq<Value>)
    requires forall i :: 0 <= i < |rows| ==> |rows[i]| > c
    ensures |col| == |rows| && forall i :: 0 <= i < |rows| ==> col[i] == rows[i][c]
  {
    seq(|rows|, i requires 0 <= i < |rows| => rows[i][c])
  }

  /** Days since the first row's date, before the NaN filter; `dayOf` is the
      day number of a stored date (datetime.strptime). */
  function Days(rows: Rows, dayOf: Value -> int): (days: seq<int>)
    requires Wide(rows)
    ensures |days| == |rows| && forall i :: 0 <= i < |rows| ==> days[i] == dayOf(rows[i][0]) - dayOf(rows[0][0])
  {
    seq(|rows|, i requires 0 <= i < |rows| => dayOf(rows[i][0]) - dayOf(rows[0][0]))
  }

  /** After the NaN filter, days, dates and VCI3M have one length, their i-th
      entries come from one row, and no VCI3M is NaN. */
  lemma FilterAligned(rows: Rows, dayOf: Value -> int, i: nat)
    requires Wide(rows) && i < Count(HasVci(rows))
    ensures var keep := HasVci(rows);
      |Select(Days(rows, dayOf), keep)| == |Select(Column(rows, 0), keep)| == |Select(Column(rows, 3), keep)|
    ensures var keep := HasVci(rows); var row := rows[Pos(keep, i)];
      Select(Days(rows, dayOf), keep)[i] == dayOf(row[0]) - dayOf(rows[0][0]) &&
      Select(Column(rows, 0), keep)[i] == row[0] &&
      Select(Column(rows, 3), keep)[i] == row[3] && !row[3].NaN?
  {
    var keep := HasVci(rows);
    SelectAt(Days(rows, dayOf), keep, i);
    SelectAt(Column(rows, 0), keep, i);
    SelectAt(Column(rows, 3), keep, i);
  }

  /** The predictions of the run that sees the first h rows; None when no
      VCI3M of them is a number (dates[0] of the filtered dates fails). */
  function Predict(rows: Rows, h: nat, forecast: Forecaster, dayOf: Value -> int): (p: Option<seq<Value>>)
    requires Wide(rows)
    ensures p.Some? ==> |p.value| >= 10
  {
    var hist := Prefix(rows, h);
    var keep := HasVci(hist);
    if Count(keep) == 0 then None
    else Some(forecast(Select(Days(hist, dayOf), keep), Select(Column(hist, 3), keep)))
  }

  /** A run never sees the rows from h on: changing them changes nothing. */
  lemma PredictSeesHistoryOnly(a: Rows, b: Rows, h: nat, forecast: Forecaster, dayOf: Value -> int)
    requires Wide(a) && Wide(b) && |a| == |b|
    requires forall i :: 0 <= i < h && i < |a| ==> a[i] == b[i]
    ensures Predict(a, h, forecast, dayOf) == Predict(b, h, forecast, dayOf)
  {
    assert Prefix(a, h) == Prefix(b, h);
  }

  /** A run: the dataset, how many of its rows the run sees, the forecast
      and the date reading. */
  type RunJob = (Rows, nat, Forecaster, Value -> int)

  /** One run's predictions; without a VCI3M column there is nothing to
      forecast. */
  function PredictJob(job: RunJob): (p: Option<seq<Value>>)
    ensures p.Some? ==> |p.value| >= 10
  {
    if Wide(job.0) then Predict(job.0, job.1, job.2, job.3) else None
  }

  /** Run r of the hindcast, which sees the first half + r rows. */
  function PredictRun(rows: Rows, half: nat, r: nat, forecast: Forecaster, dayOf: Value -> int): (p: Option<seq<Value>>)
    ensures p.Some? ==> |p.value| >= 10
  {
    PredictJob((rows, half + r, forecast, dayOf))
  }

  function RunJobs(rows: Rows, half: nat, runs: nat, forecast: Forecaster, dayOf: Value -> int): (jobs: seq<RunJob>)
    ensures |jobs| == runs
  {
    seq(runs, q requires 0 <= q < runs => (rows, half + q, forecast, dayOf))
  }

  /** The predictions of every run. */
  function Predictions(rows: Rows, half: nat, runs: nat, forecast: Forecaster, dayOf: Value -> int): (ps: seq<Option<seq<Value>>>)
    ensures |ps| == runs
  {
    MapSeq(PredictJob, RunJobs(rows, half, runs, forecast, dayOf))
  }

  lemma PredictionsAt(rows: Rows, half: nat, runs: nat, forecast: Forecaster, dayOf: Value -> int, q: nat)
    requires q < runs
    ensures var p := Predictions(rows, half, runs, forecast, dayOf)[q];
      p == PredictRun(rows, half, q, forecast, dayOf) && (p.Some? ==> |p.value| >= 10)
  {
    var jobs := RunJobs(rows, half, runs, forecast, dayOf);
    MapSeqAt(PredictJob, jobs, q);
    assert jobs[q] == (rows, half + q, forecast, dayOf);
  }

  /** Every run has its predictions. */
  predicate AllPredicted(rows: Rows, half: nat, runs: nat, forecast: Forecaster, dayOf: Value -> int)
  {
    forall q :: 0 <= q < runs ==>
      Predictions(rows, half, runs, forecast, dayOf)[q].Some? && |Predictions(rows, half, runs, forecast, dayOf)[q].value| >= 10
  }

  /** predicted_VCI3M[-10 + s]. */
  function Lead(p: seq<Value>, s: nat): Value
    requires |p| >= 10 && s < 10
  {
    p[|p| - 10 + s]
  }

  /** Cell (i, j) lies on the diagonal of some run. */
  predicate InBand(runs: nat, i: nat, j: nat)
  {
    j <= i < j + runs
  }

  /** What hindcast_results holds once a dataset's runs are done: lead j of
      run i - j on the band, 0.0 off it. */
  function ExpectedCell(rows: Rows, half: nat, runs: nat, forecast: Forecaster, dayOf: Value -> int, i: nat, j: nat): Value
    requires AllPredicted(rows, half, runs, forecast, dayOf) && j < 10
  {
    if InBand(runs, i, j) then Lead(Predictions(rows, half, runs, forecast, dayOf)[i - j].value, j) else Num(0.0)
  }

  function ExpectedGrid(rows: Rows, half: nat, runs: nat, forecast: Forecaster, dayOf: Value -> int): (g: Grid<Value>)
    requires AllPredicted(rows, half, runs, forecast, dayOf)
    ensures Rect(g, runs + Leads, Leads)
    ensures forall i, j :: 0 <= i < runs + Leads && 0 <= j < Leads ==> g[i][j] == ExpectedCell(rows, half, runs, forecast, dayOf, i, j)
  {
    seq(runs + Leads, i requires 0 <= i < runs + Leads =>
      seq(Leads, j requires 0 <= j < Leads => ExpectedCell(rows, half, runs, forecast, dayOf, i, j)))
  }

  /** Run r's lead s lands in cell (r + s, s), inside the grid. */
  lemma DiagonalPlacement(rows: Rows, half: nat, runs: nat, forecast: Forecaster, dayOf: Value -> int, r: nat, s: nat)
    requires AllPredicted(rows, half, runs, forecast, dayOf) && r < runs && s < Leads
    ensures r + s < runs + Leads
    ensures PredictRun(rows, half, r, forecast, dayOf).Some?
    ensures ExpectedGrid(rows, half, runs, forecast, dayOf)[r + s][s] == Lead(PredictRun(rows, half, r, forecast, dayOf).value, s)
  {
    PredictionsAt(rows, half, runs, forecast, dayOf, r);
  }

  /** save_the_data's two resizes: ten more rows, then exactly fourteen
      columns; h5py fills new cells with 0.0 and drops columns past the
      fourteenth. This is what the dataset holds when the write after them
      fails. */
  function Resized(rows: Rows): (r: Rows)
    ensures Rect(r, |rows| + 10, Columns)
    ensures forall i, j :: 0 <= i < |rows| && 0 <= j < |rows[i]| && j < Columns ==> r[i][j] == rows[i][j]
    ensures forall i, j :: 0 <= i < |rows| + 10 && 0 <= j < Columns && (i >= |rows| || j >= |rows[i]|) ==> r[i][j] == Num(0.0)
  {
    seq(|rows| + 10, i requires 0 <= i < |rows| + 10 =>
      seq(Columns, j requires 0 <= j < Columns =>
        if i < |rows| && j < |rows[i]| then rows[i][j] else Num(0.0)))
  }

  /** save_the_data: the resized dataset with the block [half:, 4:] set to
      the results; None when the shapes differ (h5py cannot broadcast). */
  function Saved(rows: Rows, half: nat, results: Grid<Value>): (s: Option<Rows>)
    requires Rect(results, |results|, Leads)
    ensures s.Some? <==> half <= |rows| + 10 && |rows| + 10 - half == |results|
  {
    if half <= |rows| + 10 && |rows| + 10 - half == |results| then
      var resized := Resized(rows);
      Some(seq(|rows| + 10, i requires 0 <= i < |rows| + 10 =>
        seq(Columns, j requires 0 <= j < Columns =>
          if i >= half && j >= LagColumn then results[i - half][j - LagColumn]
          else resized[i][j])))
    else None
  }

  /** The saved dataset has ten more rows and fourteen columns; the rows
      before half and the first four columns keep their values, the block
      [half:, 4:] is exactly the results. */
  lemma SavedRegion(rows: Rows, half: nat, results: Grid<Value>)
    requires Rect(results, |results|, Leads) && Saved(rows, half, results).Some?
    ensures var s := Saved(rows, half, results).value;
      Rect(s, |rows| + 10, Columns) &&
      (forall i, j :: 0 <= i < |rows| && 0 <= j < |rows[i]| && j < Columns && (i < half || j < LagColumn) ==> s[i][j] == rows[i][j]) &&
      (forall i, j :: 0 <= i < |results| && 0 <= j < Leads ==> s[half + i][LagColumn + j] == results[i][j])
  {
  }

  /** Why create_hindcast stops at a dataset: no VCI3M column
      (dataset_array[:, 3] fails), a run without a single VCI3M value, or a
      block that does not fit the resized dataset. */
  datatype Problem = MissingVciColumn | NoValidHistory | ShapeMismatch
  datatype Failure = Failure(dataset: string, problem: Problem)

  /** The data length of the first dataset fixes the runs for all. */
  datatype Plan = Plan(half: nat, runs: nat, forecast: Forecaster, dayOf: Value -> int)

  function PlanFor(length: nat, forecast: Forecaster, dayOf: Value -> int): Plan
  {
    Plan(Half(length), Runs(length), forecast, dayOf)
  }

  /** What one dataset becomes: its saved rows, or the reason it stops and
      the rows it is left with. */
  datatype Outcome = Stored(rows: Rows) | Stopped(problem: Problem, left: Rows)

  function Hindcast(job: (Plan, Rows)): Outcome
  {
    var (plan, rows) := job;
    if plan.runs > 0 && !Wide(rows) then Stopped(MissingVciColumn, rows)
    else if !AllPredicted(rows, plan.half, plan.runs, plan.forecast, plan.dayOf) then Stopped(NoValidHistory, rows)
    else match Saved(rows, plan.half, ExpectedGrid(rows, plan.half, plan.runs, plan.forecast, plan.dayOf))
      case None => Stopped(ShapeMismatch, Resized(rows))
      case Some(s) => Stored(s)
  }

  /** A dataset stopped before save_the_data is left as it was; one stopped
      by the write is left resized, because the resizes ran first. A shape
      mismatch happens only when the dataset's length is not half + runs. */
  lemma HindcastStoppedLeaves(plan: Plan, rows: Rows)
    requires Hindcast((plan, rows)).Stopped?
    ensures var o := Hindcast((plan, rows));
      (o.problem != ShapeMismatch ==> o.left == rows) &&
      (o.problem == ShapeMismatch ==>
        |rows| != plan.half + plan.runs && o.left == Resized(rows) && Rect(o.left, |rows| + 10, Columns))
  {
  }

  /** A stored dataset is the expected block saved into the rows. */
  lemma HindcastStoredIs(plan: Plan, rows: Rows)
    requires Hindcast((plan, rows)).Stored?
    ensures AllPredicted(rows, plan.half, plan.runs, plan.forecast, plan.dayOf) && (plan.runs > 0 ==> Wide(rows))
    ensures Saved(rows, plan.half, ExpectedGrid(rows, plan.half, plan.runs, plan.forecast, plan.dayOf)) == Some(Hindcast((plan, rows)).rows)
  {
  }

  /** A stored dataset has exactly half + runs rows, ten more once saved,
      fourteen columns, and keeps its rows before half and its first four
      columns. */
  lemma HindcastStoredKeeps(plan: Plan, rows: Rows)
    requires Hindcast((plan, rows)).Stored?
    ensures |rows| == plan.half + plan.runs && (plan.runs > 0 ==> Wide(rows))
    ensures var s := Hindcast((plan, rows)).rows;
      Rect(s, |rows| + 10, Columns) &&
      (forall i, j :: 0 <= i < |rows| && 0 <= j < |rows[i]| && j < Columns && (i < plan.half || j < LagColumn) ==> s[i][j] == rows[i][j])
  {
    HindcastStoredIs(plan, rows);
    SavedRegion(rows, plan.half, ExpectedGrid(rows, plan.half, plan.runs, plan.forecast, plan.dayOf));
  }

  /** Lag column 4 + k of row half + r + k: where lead k of run r goes. */
  function LagCell(s: Rows, half: nat, r: nat, k: nat): Value
    requires half + r + k < |s| && LagColumn + k < |s[half + r + k]|
  {
    s[half + r + k][LagColumn + k]
  }

  /** The expected block saved into the rows puts lead k of run r at lag
      column 4 + k of row half + r + k. */
  lemma SavedLag(rows: Rows, half: nat, runs: nat, forecast: Forecaster, dayOf: Value -> int, r: nat, k: nat)
    requires AllPredicted(rows, half, runs, forecast, dayOf) && r < runs && k < Leads
    requires Saved(rows, half, ExpectedGrid(rows, half, runs, forecast, dayOf)).Some?
    ensures var s := Saved(rows, half, ExpectedGrid(rows, half, runs, forecast, dayOf)).value;
      Rect(s, half + runs + Leads, Columns) &&
      PredictRun(rows, half, r, forecast, dayOf).Some? &&
      LagCell(s, half, r, k) == Lead(PredictRun(rows, half, r, forecast, dayOf).value, k)
  {
    var g := ExpectedGrid(rows, half, runs, forecast, dayOf);
    SavedRegion(rows, half, g);
    DiagonalPlacement(rows, half, runs, forecast, dayOf, r, k);
    var s := Saved(rows, half, g).value;
    assert s[half + (r + k)][LagColumn + k] == g[r + k][k];
  }

  /** Lag column 4 + k of row half + r + k of a stored dataset holds lead k
      of run r, the forecast from the first half + r rows. */
  lemma HindcastStoredLag(plan: Plan, rows: Rows, r: nat, k: nat)
    requires Hindcast((plan, rows)).Stored? && r < plan.runs && k < Leads
    ensures var s := Hindcast((plan, rows)).rows;
      Rect(s, plan.half + plan.runs + Leads, Columns) &&
      PredictRun(rows, plan.half, r, plan.forecast, plan.dayOf).Some? &&
      LagCell(s, plan.half, r, k) == Lead(PredictRun(rows, plan.half, r, plan.forecast, plan.dayOf).value, k)
  {
    HindcastStoredIs(plan, rows);
    SavedLag(rows, plan.half, plan.runs, plan.forecast, plan.dayOf, r, k);
  }

  /** The datasets exist and are named once each. */
  predicate Readable(file: map<string, Rows>, names: seq<string>)
  {
    (forall k :: 0 <= k < |names| ==> names[k] in file) &&
    (forall k, l :: 0 <= k < l < |names| ==> names[k] != names[l])
  }

  function Jobs(file: map<string, Rows>, names: seq<string>, plan: Plan): (jobs: seq<(Plan, Rows)>)
    requires Readable(file, names)
    ensures |jobs| == |names|
  {
    seq(|names|, k requires 0 <= k < |names| => (plan, file[names[k]]))
  }

  /** The outcome of every dataset, each on its own rows. */
  function Outcomes(file: map<string, Rows>, names: seq<string>, plan: Plan): (outs: seq<Outcome>)
    requires Readable(file, names)
    ensures |outs| == |names|
  {
    MapSeq(Hindcast, Jobs(file, names, plan))
  }

  lemma OutcomesAt(file: map<string, Rows>, names: seq<string>, plan: Plan, k: nat)
    requires Readable(file, names) && k < |names|
    ensures Outcomes(file, names, plan)[k] == Hindcast((plan, file[names[k]]))
  {
    MapSeqAt(Hindcast, Jobs(file, names, plan), k);
  }

  /** The database after the first n datasets, and the failure if any. */
  function SaveAll(file: map<string, Rows>, names: seq<string>, outs: seq<Outcome>, n: nat): (r: (map<string, Rows>, Option<Failure>))
    requires n <= |names| && n <= |outs|
  {
    if n == 0 then (file, None)
    else
      var prev := SaveAll(file, names, outs, n - 1);
      if prev.1.Some? then prev
      else match outs[n - 1]
        case Stopped(problem, left) => (prev.0[names[n - 1] := left], Some(Failure(names[n - 1], problem)))
        case Stored(s) => (prev.0[names[n - 1] := s], None)
  }

  /** Saving changes no other dataset, and the datasets not yet reached are
      as they were. */
  lemma {:induction false} SaveAllKeeps(file: map<string, Rows>, names: seq<string>, outs: seq<Outcome>, n: nat)
    requires Readable(file, names) && n <= |names| && n <= |outs|
    ensures SaveAll(file, names, outs, n).0.Keys == file.Keys
    ensures forall k :: n <= k < |names| ==> SaveAll(file, names, outs, n).0[names[k]] == file[names[k]]
    ensures forall x :: x in file && (forall k :: 0 <= k < n ==> names[k] != x) ==> SaveAll(file, names, outs, n).0[x] == file[x]
  {
    if n > 0 {
      SaveAllKeeps(file, names, outs, n - 1);
    }
  }

  /** Without a failure, every dataset holds its stored outcome. */
  lemma {:induction false} SaveAllSaves(file: map<string, Rows>, names: seq<string>, outs: seq<Outcome>, n: nat, k: nat)
    requires Readable(file, names) && k < n <= |names| && n <= |outs|
    requires SaveAll(file, names, outs, n).1.None?
    ensures outs[k].Stored? && names[k] in SaveAll(file, names, outs, n).0
    ensures SaveAll(file, names, outs, n).0[names[k]] == outs[k].rows
  {
    var prev := SaveAll(file, names, outs, n - 1);
    assert prev.1.None?;
    SaveAllKeeps(file, names, outs, n - 1);
    if k < n - 1 {
      SaveAllSaves(file, names, outs, n - 1, k);
    }
  }

  /** The run stops at the first dataset that fails. */
  lemma {:induction false} SaveAllStops(file: map<string, Rows>, names: seq<string>, outs: seq<Outcome>, m: nat, n: nat)
    requires m <= n <= |names| && n <= |outs| && SaveAll(file, names, outs, m).1.Some?
    ensures SaveAll(file, names, outs, n) == SaveAll(file, names, outs, m)
  {
    if m < n {
      SaveAllStops(file, names, outs, m, n - 1);
    }
  }

  class Hindcaster {
    const database: string
    /** The open HDF5 file: dataset name to rows. */
    var file: map<string, Rows>
    var results: array2<Value>
    var halfway: nat

    constructor(database: string, file: map<string, Rows>)
      ensures this.database == database && this.file == file && halfway == 0
    {
      this.database, this.file := database, file;
      results := new Value[0, 0];
      halfway := 0;
    }

    /** hindcast_results has room for the plan's runs. */
    predicate Sized(runs: nat)
      reads this
    {
      results.Length0 == runs + Leads && results.Length1 == Leads
    }

    /** Off the band, hindcast_results holds 0.0 everywhere. */
    predicate ZeroOffBand(runs: nat)
      reads this, results
    {
      forall i, j :: 0 <= i < results.Length0 && 0 <= j < results.Length1 && !InBand(runs, i, j) ==> results[i, j] == Num(0.0)
    }

    /** The diagonals of runs 0 .. r - 1 are in place, run q's predictions
        being ps[q]. */
    predicate BandDone(ps: seq<Option<seq<Value>>>, r: nat)
      reads this, results
    {
      forall i, j :: 0 <= i < results.Length0 && 0 <= j < Leads && InBand(r, i, j) ==> CellDone(ps, i, j)
    }

    /** Cell (i, j) holds lead j of run i - j. */
    predicate CellDone(ps: seq<Option<seq<Value>>>, i: nat, j: nat)
      reads this, results
    {
      j <= i && i - j < |ps| && ps[i - j].Some? && |ps[i - j].value| >= 10 && j < Leads &&
      i < results.Length0 && j < results.Length1 && results[i, j] == Lead(ps[i - j].value, j)
    }

    /** hindcast_results as a grid. */
    function ResultsGrid(): (g: Grid<Value>)
      reads this, results
      ensures Rect(g, results.Length0, results.Length1)
      ensures forall i, j :: 0 <= i < results.Length0 && 0 <= j < results.Length1 ==> g[i][j] == results[i, j]
    {
      seq(results.Length0, i requires 0 <= i < results.Length0 reads this, results =>
        seq(results.Length1, j requires 0 <= i < results.Length0 && 0 <= j < results.Length1 reads this, results => results[i, j]))
    }

    /** create_hindcast over the datasets `names` (the file's keys, in the
        order h5py lists them). */
    method CreateHindcast(names: seq<string>, forecast: Forecaster, dayOf: Value -> int) returns (failure: Option<Failure>)
      requires |names| >= 1 && Readable(file, names)
      modifies this
      ensures var plan := PlanFor(|old(file)[names[0]]|, forecast, dayOf);
        halfway == plan.half && (file, failure) == SaveAll(old(file), names, Outcomes(old(file), names, plan), |names|)
      ensures fresh(results) && Sized(Runs(|old(file)[names[0]]|))
    {
      var plan := PlanFor(|file[names[0]]|, forecast, dayOf);
      halfway := plan.half;
      results := new Value[plan.runs + Leads, Leads]((i, j) => Num(0.0));
      ghost var orig := file;
      ghost var outs := Outcomes(orig, names, plan);
      for k := 0 to |names|
        invariant halfway == plan.half && fresh(results) && Sized(plan.runs) && ZeroOffBand(plan.runs)
        invariant (file, None) == SaveAll(orig, names, outs, k)
      {
        SaveAllKeeps(orig, names, outs, k);
        failure := HindcastAndSave(names, k, plan, orig);
        if failure.Some? {
          SaveAllStops(orig, names, outs, k + 1, |names|);
          return;
        }
      }
      failure := None;
    }

    /** One dataset of create_hindcast: its runs, then save_the_data. */
    method HindcastAndSave(names: seq<string>, k: nat, plan: Plan, ghost orig: map<string, Rows>) returns (failure: Option<Failure>)
      requires Readable(orig, names) && k < |names| && names[k] in file && file[names[k]] == orig[names[k]]
      requires plan.half == halfway && Sized(plan.runs) && ZeroOffBand(plan.runs)
      modifies this, results
      ensures results == old(results) && halfway == old(halfway) && ZeroOffBand(plan.runs)
      ensures var o := Outcomes(orig, names, plan)[k];
        (o.Stored? ==> failure.None? && file == old(file)[names[k] := o.rows]) &&
        (o.Stopped? ==> failure == Some(Failure(names[k], o.problem)) && file == old(file)[names[k] := o.left])
    {
      OutcomesAt(orig, names, plan, k);
      var name := names[k];
      var rows := file[name];
      if plan.runs > 0 && !Wide(rows) {
        return Some(Failure(name, MissingVciColumn));
      }
      var ok := HindcastDataset(rows, plan);
      if !ok {
        return Some(Failure(name, NoValidHistory));
      }
      var grid := ResultsGrid();
      var expected := ExpectedGrid(rows, plan.half, plan.runs, plan.forecast, plan.dayOf);
      forall i | 0 <= i < plan.runs + Leads ensures grid[i] == expected[i] {
        assert forall j :: 0 <= j < Leads ==> grid[i][j] == expected[i][j];
      }
      assert grid == expected;
      assert Hindcast((plan, rows)) == match Saved(rows, plan.half, expected) case None => Stopped(ShapeMismatch, Resized(rows)) case Some(s) => Stored(s);
      var saved := SaveTheData(name, rows);
      failure := if saved then None else Some(Failure(name, ShapeMismatch));
    }

    /** The runs of one dataset: run r sees rows [0, half + r) and writes its
        last ten predictions on the diagonal from (r, 0). */
    method HindcastDataset(rows: Rows, plan: Plan) returns (ok: bool)
      requires plan.half == halfway && Sized(plan.runs) && ZeroOffBand(plan.runs) && (plan.runs == 0 || Wide(rows))
      modifies results
      ensures ok <==> AllPredicted(rows, plan.half, plan.runs, plan.forecast, plan.dayOf)
      ensures ZeroOffBand(plan.runs)
      ensures ok ==> forall i, j :: 0 <= i < plan.runs + Leads && 0 <= j < Leads ==>
        results[i, j] == ExpectedCell(rows, plan.half, plan.runs, plan.forecast, plan.dayOf, i, j)
    {
      ghost var ps := Predictions(rows, plan.half, plan.runs, plan.forecast, plan.dayOf);
      for r := 0 to plan.runs
        invariant ZeroOffBand(plan.runs) && BandDone(ps, r)
        invariant forall q :: 0 <= q < r ==> ps[q].Some? && |ps[q].value| >= 10
      {
        ok := RunOnce(rows, plan, r, ps);
        if !ok {
          return;
        }
      }
      forall i, j | 0 <= i < plan.runs + Leads && 0 <= j < Leads
        ensures results[i, j] == ExpectedCell(rows, plan.half, plan.runs, plan.forecast, plan.dayOf, i, j)
      {
        if InBand(plan.runs, i, j) {
          assert CellDone(ps, i, j);
        }
      }
      ok := true;
    }

    /** One run: forecast from the first half + r rows, then the ten writes. */
    method RunOnce(rows: Rows, plan: Plan, r: nat, ghost ps: seq<Option<seq<Value>>>) returns (ok: bool)
      requires plan.half == halfway && Sized(plan.runs) && r < plan.runs && Wide(rows)
      requires ps == Predictions(rows, plan.half, plan.runs, plan.forecast, plan.dayOf)
      requires ZeroOffBand(plan.runs) && BandDone(ps, r)
      modifies results
      ensures ok <==> ps[r].Some?
      ensures ok ==> |ps[r].value| >= 10
      ensures ZeroOffBand(plan.runs) && (ok ==> BandDone(ps, r + 1))
    {
      var predicted := PredictRun(rows, halfway, r, plan.forecast, plan.dayOf);
      PredictionsAt(rows, plan.half, plan.runs, plan.forecast, plan.dayOf, r);
      if predicted.None? {
        return false;
      }
      PlaceRun(r, plan.runs, predicted.value, ps);
      ok := true;
    }

    /** The ten writes of run r extend the finished band by its diagonal. */
    method PlaceRun(r: nat, runs: nat, predicted: seq<Value>, ghost ps: seq<Option<seq<Value>>>)
      requires Sized(runs) && r < runs == |ps| && ps[r] == Some(predicted) && |predicted| >= 10
      requires ZeroOffBand(runs) && BandDone(ps, r)
      modifies results
      ensures ZeroOffBand(runs) && BandDone(ps, r + 1)
    {
      WriteRun(r, runs, predicted);
      forall i, j | 0 <= i < results.Length0 && 0 <= j < Leads && InBand(r + 1, i, j)
        ensures CellDone(ps, i, j)
      {
        if i == r + j {
          assert results[i, j] == Lead(predicted, j);
        } else {
          assert InBand(r, i, j) && results[i, j] == old(results[i, j]);
        }
      }
      forall i, j | 0 <= i < results.Length0 && 0 <= j < results.Length1 && !InBand(runs, i, j)
        ensures results[i, j] == Num(0.0)
      {
        assert i != r + j && results[i, j] == old(results[i, j]);
      }
    }

    /** for save_counter in range(10): results[run + s, s] = predicted[-10 + s];
        the cells of run r are those with row - column == r, so no other run
        writes them. */
    method WriteRun(r: nat, runs: nat, predicted: seq<Value>)
      requires r < runs && |predicted| >= 10 && Sized(runs)
      modifies results
      ensures forall i, j :: 0 <= i < results.Length0 && 0 <= j < results.Length1 ==>
        results[i, j] == if i == r + j then Lead(predicted, j) else old(results[i, j])
    {
      for s := 0 to Leads
        invariant forall i, j :: 0 <= i < results.Length0 && 0 <= j < results.Length1 ==>
          results[i, j] == if i == r + j && j < s then Lead(predicted, j) else old(results[i, j])
      {
        results[r + s, s] := predicted[|predicted| - 10 + s];
      }
    }

    /** save_the_data for the dataset `name` read as `rows`. */
    method SaveTheData(name: string, rows: Rows) returns (saved: bool)
      requires results.Length1 == Leads
      modifies this
      ensures results == old(results) && halfway == old(halfway)
      ensures var s := Saved(rows, halfway, old(ResultsGrid()));
        saved == s.Some? && file == old(file)[name := if saved then s.value else Resized(rows)]
    {
      var s := Saved(rows, halfway, ResultsGrid());
      if s.None? {
        file := file[name := Resized(rows)];
        return false;
      }
      file := file[name := s.value];
      saved := true;
    }
  }
}
