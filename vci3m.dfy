/** convert_VCI_to_VCI3M: a moving NaN-ignoring mean over nine VCI rasters
    (nine dekads, about three months), stored under the date of the newest
    file. */
module VciToVci3m {
  import opened Values
  import opened Text
  import opened Grids

  /** The number of rasters averaged. */
  const WindowLength: nat := 9
  /** Rasters dated from this year on are 13 rows and 10 columns smaller. */
  const ResizedFromYear: nat := 2019

  // ---------------------------------------------------------------------
  // The list average_list, on any kind of entry
  // ---------------------------------------------------------------------

  /** Python's list.insert(-1, x): x goes before the last entry, or becomes
      the only entry of an empty list. */
  function InsertBeforeLast<T>(xs: seq<T>, x: T): (r: seq<T>)
    ensures |r| == |xs| + 1
    ensures |xs| >= 1 ==> r[|xs| - 1] == x && r[|xs|] == xs[|xs| - 1] && r[..|xs| - 1] == xs[..|xs| - 1]
    ensures |xs| == 0 ==> r == [x]
  {
    if xs == [] then [x] else xs[..|xs| - 1] + [x] + [xs[|xs| - 1]]
  }

  /** One step of create_VCI3M on the list: pop(0), then insert(-1, x). */
  function AsWrittenStep<T>(xs: seq<T>, x: T): (r: seq<T>)
    requires |xs| >= 1
    ensures |r| == |xs|
  {
    InsertBeforeLast(xs[1..], x)
  }

  /** average_list after step i, for entries xs[0], xs[1], ... in file
      order: the first nine entries, then one AsWrittenStep per later entry. */
  function Window<T>(xs: seq<T>, i: nat): (w: seq<T>)
    requires 8 <= i < |xs|
    ensures |w| == WindowLength
    decreases i
  {
    if i == 8 then xs[..9] else AsWrittenStep(Window(xs, i - 1), xs[i])
  }

  /** The window at step i depends only on the entries up to i. */
  lemma {:induction false} WindowPrefix<T>(xs: seq<T>, ys: seq<T>, i: nat)
    requires 8 <= i < |xs| <= |ys| && xs == ys[..|xs|]
    ensures Window(xs, i) == Window(ys, i)
    decreases i
  {
    if i == 8 {
      assert xs[..9] == ys[..9];
    } else {
      WindowPrefix(xs, ys, i - 1);
      assert xs[i] == ys[i];
    }
  }

  /** The entries at positions i-8..7 (while any are left), then 9..i, then
      8: position k < 8 holds entry i-8+k while that is below 8 and entry
      i-7+k after it; position 8 always holds entry 8. */
  function WindowIndices(i: nat): (w: seq<int>)
    requires i >= 8
    ensures |w| == WindowLength
  {
    seq(WindowLength, k requires 0 <= k < WindowLength =>
      if k == 8 then 8 else if k + i < 16 then i - 8 + k else i - 7 + k)
  }

  /** The window always holds nine distinct entries, none later than entry
      i, with entry i next to last (from step 9 on) and entry 8 last. */
  lemma WindowShape(i: nat)
    requires i >= 8
    ensures forall k :: 0 <= k < WindowLength ==> 0 <= WindowIndices(i)[k] <= i
    ensures forall k, l :: 0 <= k < l < WindowLength ==> WindowIndices(i)[k] != WindowIndices(i)[l]
    ensures WindowIndices(i)[WindowLength - 1] == 8
    ensures i >= 9 ==> WindowIndices(i)[7] == i
  {
  }

  /** The indices follow the list operations: AsWrittenStep turns the
      indices of step i-1 into those of step i. */
  lemma IndicesStep(i: nat)
    requires i >= 9
    ensures AsWrittenStep(WindowIndices(i - 1), i) == WindowIndices(i)
  {
    var a, b := AsWrittenStep(WindowIndices(i - 1), i), WindowIndices(i);
    forall k | 0 <= k < 9 ensures a[k] == b[k] {
      if k < 7 {
        assert a[k] == WindowIndices(i - 1)[k + 1];
      }
    }
  }

  /** The window in closed form: the entries WindowIndices(i) names. */
  function WindowStack<T>(xs: seq<T>, i: nat): (w: seq<T>)
    requires 8 <= i < |xs|
    ensures |w| == WindowLength
  {
    WindowShape(i);
    seq(WindowLength, k requires 0 <= k < WindowLength => xs[WindowIndices(i)[k]])
  }

  /** The list the loop builds is the closed form at every step. */
  lemma {:induction false} WindowIsStack<T>(xs: seq<T>, i: nat)
    requires 8 <= i < |xs|
    ensures Window(xs, i) == WindowStack(xs, i)
    decreases i
  {
    var w, s := Window(xs, i), WindowStack(xs, i);
    if i > 8 {
      WindowIsStack(xs, i - 1);
      IndicesStep(i);
      var prev := WindowIndices(i - 1);
      assert w == AsWrittenStep(WindowStack(xs, i - 1), xs[i]);
      forall k | 0 <= k < 9 ensures w[k] == s[k] {
        if k < 7 {
          assert WindowIndices(i)[k] == AsWrittenStep(prev, i)[k] == prev[k + 1];
        }
      }
    } else {
      forall k | 0 <= k < 9 ensures w[k] == s[k] {
        assert WindowIndices(8)[k] == k;
      }
    }
  }

  /** Up to step 16 the window holds exactly the last nine entries, in
      another order, so its mean is theirs. */
  lemma EarlyWindowHoldsLastNine(i: nat)
    requires 9 <= i <= 16
    ensures forall j :: i - 8 <= j <= i ==> j in WindowIndices(i)
  {
    var w := WindowIndices(i);
    forall j | i - 8 <= j <= i ensures j in w {
      if j < 8 {
        assert w[j - i + 8] == j;
      } else if j == 8 {
        assert w[8] == j;
      } else {
        assert w[j - i + 7] == j;
      }
    }
  }

  /** From step 17 on, entry 8 never leaves the window and entry i-8 is
      missing from it. */
  lemma LateWindowKeepsNinth(i: nat)
    requires i >= 17
    ensures 8 in WindowIndices(i) && i - 8 !in WindowIndices(i)
  {
    assert WindowIndices(i)[8] == 8;
  }

  /** The integers lo, lo + 1, ..., hi - 1. */
  function Range(lo: int, hi: int): (r: seq<int>)
    ensures |r| == if lo <= hi then hi - lo else 0
    ensures forall k :: 0 <= k < |r| ==> r[k] == lo + k
    decreases hi - lo
  {
    if lo < hi then [lo] + Range(lo + 1, hi) else []
  }

  /** With entries 0, 1, 2, ... the as-written window at every step from 17
      on differs from the last nine entries. */
  lemma WindowNotLastNine(i: nat)
    requires i >= 17
    ensures Window(Range(0, i + 1), i) != Range(0, i + 1)[i - 8..]
  {
    var xs := Range(0, i + 1);
    WindowIsStack(xs, i);
    assert WindowIndices(i)[8] == 8;
    assert Window(xs, i)[8] == WindowStack(xs, i)[8] == xs[8] == 8;
    assert xs[i - 8..][8] == i;
  }

  /** pop(0) then append(x): the update the averaging is meant to make. */
  function SlideStep<T>(xs: seq<T>, x: T): (r: seq<T>)
    requires |xs| >= 1
    ensures |r| == |xs| && r[|xs| - 1] == x
  {
    xs[1..] + [x]
  }

  /** The window after step i when each step slides. */
  function SlidingWindow<T>(xs: seq<T>, i: nat): (w: seq<T>)
    requires 8 <= i < |xs|
    ensures |w| == WindowLength
    decreases i
  {
    if i == 8 then xs[..9] else SlideStep(SlidingWindow(xs, i - 1), xs[i])
  }

  /** The sliding window after step i is entries i-8..i, the last nine in
      order. */
  lemma {:induction false} SlidingIsLastNine<T>(xs: seq<T>, i: nat)
    requires 8 <= i < |xs|
    ensures SlidingWindow(xs, i) == xs[i - 8..i + 1]
    decreases i
  {
    if i > 8 {
      SlidingIsLastNine(xs, i - 1);
      assert xs[i - 9..i][1..] == xs[i - 8..i];
      assert xs[i - 8..i] + [xs[i]] == xs[i - 8..i + 1];
    }
  }

  // ---------------------------------------------------------------------
  // Files, rasters and the mean
  // ---------------------------------------------------------------------

  /** self.files[i].split('RCMRD_VCI\\')[1].split('.tif')[0]. */
  function VciDate(file: string): Option<string>
  {
    Between(file, "RCMRD_VCI\\", ".tif")
  }

  /** What the source reads from a file name: the date, and the year
      int(date[:4]) it compares with 2019. */
  datatype Stamp = Stamp(date: string, year: nat)

  /** The file's stamp; None where either split or int() raises. */
  function StampOf(file: string): Option<Stamp>
  {
    match VciDate(file)
    case None => None
    case Some(d) =>
      match YearOf(d)
      case None => None
      case Some(y) => Some(Stamp(d, y))
  }

  /** A file is stamped exactly when its name holds 'RCMRD_VCI\\' and the
      text after it starts with digits; the date holds neither marker and
      the year has at most four digits. */
  lemma StampOfMeans(file: string)
    ensures VciDate(file).Some? <==> Contains(file, "RCMRD_VCI\\")
    ensures StampOf(file).Some? <==> VciDate(file).Some? && YearOf(VciDate(file).value).Some?
    ensures StampOf(file).Some? ==>
      var st := StampOf(file).value;
      !Contains(st.date, "RCMRD_VCI\\") && !Contains(st.date, ".tif") && st.year < 10000 &&
      ParseNat(Take(st.date, 4)) == Some(st.year)
  {
    BetweenMeans(file, "RCMRD_VCI\\", ".tif");
  }

  /** The stamps of all files, in file order. */
  function Stamps(files: seq<string>): (s: seq<Option<Stamp>>)
    ensures |s| == |files|
  {
    MapSeq(StampOf, files)
  }

  lemma StampsAt(files: seq<string>, t: nat)
    requires t < |files|
    ensures Stamps(files)[t] == StampOf(files[t])
  {
    MapSeqAt(StampOf, files, t);
  }

  /** The values of pixel (r, c) through a stack. */
  function PixelValues(stack: seq<Grid<Value>>, h: nat, w: nat, r: nat, c: nat): (v: seq<Value>)
    requires StackShape(stack, h, w) && r < h && c < w
    ensures |v| == |stack| && forall k :: 0 <= k < |stack| ==> v[k] == stack[k][r][c]
  {
    seq(|stack|, k requires 0 <= k < |stack| => stack[k][r][c])
  }

  /** np.array(average_list) succeeds: a non-empty stack of rasters of one shape. */
  predicate Uniform(stack: seq<Grid<Value>>)
  {
    |stack| >= 1 && |stack[0]| >= 1 && StackShape(stack, |stack[0]|, |stack[0][0]|)
  }

  /** np.nanmean(np.array(stack), axis=0), pixel by pixel. */
  function StackMean(stack: seq<Grid<Value>>): (m: Grid<Value>)
    requires Uniform(stack)
    ensures Rect(m, |stack[0]|, |stack[0][0]|)
  {
    var h, w := |stack[0]|, |stack[0][0]|;
    seq(h, r requires 0 <= r < h => seq(w, c requires 0 <= c < w => NanMean(PixelValues(stack, h, w, r, c))))
  }

  /** Every cell of every raster is NaN or a number in [lo, hi]. */
  predicate CellsWithin(stack: seq<Grid<Value>>, lo: real, hi: real)
  {
    forall k, r, c :: 0 <= k < |stack| && 0 <= r < |stack[k]| && 0 <= c < |stack[k][r]| ==>
      stack[k][r][c].NaN? || (stack[k][r][c].Num? && lo <= stack[k][r][c].r <= hi)
  }

  /** The mean keeps every pixel in the inputs' range, and is NaN exactly
      where all nine inputs are NaN. */
  lemma StackMeanWithin(stack: seq<Grid<Value>>, lo: real, hi: real)
    requires Uniform(stack) && CellsWithin(stack, lo, hi)
    ensures forall r, c :: 0 <= r < |stack[0]| && 0 <= c < |stack[0][0]| ==>
      (StackMean(stack)[r][c].NaN? <==> forall k :: 0 <= k < |stack| ==> stack[k][r][c].NaN?)
    ensures forall r, c :: 0 <= r < |stack[0]| && 0 <= c < |stack[0][0]| && StackMean(stack)[r][c].Num? ==>
      lo <= StackMean(stack)[r][c].r <= hi
  {
    var h, w := |stack[0]|, |stack[0][0]|;
    forall r, c | 0 <= r < h && 0 <= c < w
      ensures (StackMean(stack)[r][c].NaN? <==> forall k :: 0 <= k < |stack| ==> stack[k][r][c].NaN?)
      ensures StackMean(stack)[r][c].Num? ==> lo <= StackMean(stack)[r][c].r <= hi
    {
      var v := PixelValues(stack, h, w, r, c);
      assert StackMean(stack)[r][c] == NanMean(v);
      assert NumsWithin(v, lo, hi);
      NanMeanWithin(v, lo, hi);
    }
  }

  /** The raster that enters the window for file t: from step 9 on, a raster
      of 2019 or later is padded with NaN to the older size. */
  function Prepared(stamps: seq<Option<Stamp>>, images: seq<Grid<Value>>, t: int): (g: Grid<Value>)
    requires |images| == |stamps| && 0 <= t < |stamps| && IsRaster(images[t])
    requires t >= WindowLength ==> stamps[t].Some?
  {
    if t >= WindowLength && stamps[t].value.year >= ResizedFromYear
    then Padded(images[t], |images[t][0]|, NaN)
    else images[t]
  }

  /** Every raster is one, and every file before `upTo` has a stamp. */
  predicate ReadableUpTo(stamps: seq<Option<Stamp>>, images: seq<Grid<Value>>, upTo: nat)
  {
    |images| == |stamps| && upTo <= |stamps| &&
    (forall t {:trigger IsRaster(images[t])} :: 0 <= t < |stamps| ==> IsRaster(images[t])) &&
    (forall t :: 0 <= t < upTo ==> stamps[t].Some?)
  }

  /** The rasters of files 0..n-1 as they enter the window. */
  function Entering(stamps: seq<Option<Stamp>>, images: seq<Grid<Value>>, n: nat): (e: seq<Grid<Value>>)
    requires ReadableUpTo(stamps, images, n)
    ensures |e| == n
    decreases n
  {
    if n == 0 then [] else Entering(stamps, images, n - 1) + [Prepared(stamps, images, n - 1)]
  }

  /** average_list when step i has been taken (i = 8 for the list
      populate_average_list fills). */
  function Closing(stamps: seq<Option<Stamp>>, images: seq<Grid<Value>>, i: nat): (w: seq<Grid<Value>>)
    requires 8 <= i && ReadableUpTo(stamps, images, i + 1)
    ensures |w| == WindowLength
  {
    Window(Entering(stamps, images, i + 1), i)
  }

  /** The first list is the first nine rasters as read. */
  lemma {:induction false} FirstClosing(stamps: seq<Option<Stamp>>, images: seq<Grid<Value>>)
    requires ReadableUpTo(stamps, images, 9)
    ensures Closing(stamps, images, 8) == images[..9]
  {
    EnteringUnpadded(stamps, images, 9);
  }

  lemma {:induction false} EnteringUnpadded(stamps: seq<Option<Stamp>>, images: seq<Grid<Value>>, n: nat)
    requires n <= 9 && ReadableUpTo(stamps, images, n)
    ensures Entering(stamps, images, n) == images[..n]
  {
    if n > 0 {
      EnteringUnpadded(stamps, images, n - 1);
      assert images[..n - 1] + [images[n - 1]] == images[..n];
    }
  }

  /** Each step of create_VCI3M, on the rasters. */
  lemma ClosingStep(stamps: seq<Option<Stamp>>, images: seq<Grid<Value>>, i: nat)
    requires 9 <= i && ReadableUpTo(stamps, images, i + 1)
    ensures Closing(stamps, images, i) == AsWrittenStep(Closing(stamps, images, i - 1), Prepared(stamps, images, i))
  {
    var before, after := Entering(stamps, images, i), Entering(stamps, images, i + 1);
    assert before == after[..i];
    WindowPrefix(before, after, i - 1);
  }

  lemma {:induction false} EnteringAt(stamps: seq<Option<Stamp>>, images: seq<Grid<Value>>, n: nat, t: nat)
    requires ReadableUpTo(stamps, images, n) && t < n
    ensures Entering(stamps, images, n)[t] == Prepared(stamps, images, t)
    decreases n
  {
    if t < n - 1 {
      EnteringAt(stamps, images, n - 1, t);
    }
  }

  /** The list at step i holds the rasters of the files WindowIndices(i)
      names: the ninth file's raster never leaves it. */
  lemma {:induction false} ClosingHolds(stamps: seq<Option<Stamp>>, images: seq<Grid<Value>>, i: nat)
    requires 8 <= i && ReadableUpTo(stamps, images, i + 1)
    ensures forall k :: 0 <= k < WindowLength ==>
      0 <= WindowIndices(i)[k] <= i && Closing(stamps, images, i)[k] == Prepared(stamps, images, WindowIndices(i)[k])
  {
    var e := Entering(stamps, images, i + 1);
    WindowIsStack(e, i);
    WindowShape(i);
    forall k | 0 <= k < WindowLength
      ensures Closing(stamps, images, i)[k] == Prepared(stamps, images, WindowIndices(i)[k])
    {
      EnteringAt(stamps, images, i + 1, WindowIndices(i)[k]);
    }
  }

  /** Every list can be stacked, from step 8 up to but not including `upTo`. */
  predicate WindowsUniform(stamps: seq<Option<Stamp>>, images: seq<Grid<Value>>, upTo: nat)
    requires ReadableUpTo(stamps, images, upTo)
  {
    forall i {:trigger Uniform(Closing(stamps, images, i))} :: 8 <= i < upTo ==> Uniform(Closing(stamps, images, i))
  }

  /** The whole run can complete: at least nine files, every name dated,
      every list stackable. */
  predicate Completes(stamps: seq<Option<Stamp>>, images: seq<Grid<Value>>)
  {
    |stamps| >= WindowLength && ReadableUpTo(stamps, images, |stamps|) && WindowsUniform(stamps, images, |stamps|)
  }

  /** The VCI3M files stored for steps lo..hi-1: the mean of each list
      under the date of the file that closed it. */
  function Outputs(stamps: seq<Option<Stamp>>, images: seq<Grid<Value>>, lo: nat, hi: nat): seq<(string, Grid<Value>)>
    requires 8 <= lo <= hi && ReadableUpTo(stamps, images, hi) && WindowsUniform(stamps, images, hi)
    decreases hi
  {
    if lo == hi then []
    else Outputs(stamps, images, lo, hi - 1) + [(stamps[hi - 1].value.date, StackMean(Closing(stamps, images, hi - 1)))]
  }

  /** One more stackable list extends the stored sequence by its mean. */
  lemma OutputsExtend(stamps: seq<Option<Stamp>>, images: seq<Grid<Value>>, lo: nat, i: nat)
    requires 8 <= lo <= i && ReadableUpTo(stamps, images, i + 1)
    requires WindowsUniform(stamps, images, i) && Uniform(Closing(stamps, images, i))
    ensures WindowsUniform(stamps, images, i + 1)
    ensures Outputs(stamps, images, lo, i + 1) ==
      Outputs(stamps, images, lo, i) + [(stamps[i].value.date, StackMean(Closing(stamps, images, i)))]
  {
  }

  /** The first list's output followed by the later ones. */
  lemma {:induction false} OutputsSplit(stamps: seq<Option<Stamp>>, images: seq<Grid<Value>>, hi: nat)
    requires 9 <= hi && ReadableUpTo(stamps, images, hi) && WindowsUniform(stamps, images, hi)
    ensures Outputs(stamps, images, 8, hi) == Outputs(stamps, images, 8, 9) + Outputs(stamps, images, 9, hi)
    decreases hi
  {
    if hi > 9 {
      OutputsSplit(stamps, images, hi - 1);
    }
  }

  /** The first output followed by those of create_VCI3M up to step hi are
      the outputs of every list before hi. */
  lemma StoredAfterFirst(stamps: seq<Option<Stamp>>, images: seq<Grid<Value>>, before: seq<(string, Grid<Value>)>,
                         first: seq<(string, Grid<Value>)>, after: seq<(string, Grid<Value>)>, hi: nat)
    requires 9 <= hi && ReadableUpTo(stamps, images, hi) && WindowsUniform(stamps, images, hi)
    requires first == before + Outputs(stamps, images, 8, 9)
    requires after == first + Outputs(stamps, images, 9, hi)
    ensures after == before + Outputs(stamps, images, 8, hi)
  {
    OutputsSplit(stamps, images, hi);
    AppendRegroup(before, Outputs(stamps, images, 8, 9), Outputs(stamps, images, 9, hi), first, after);
  }

  lemma AppendRegroup<T>(before: seq<T>, mid: seq<T>, rest: seq<T>, first: seq<T>, after: seq<T>)
    requires first == before + mid && after == first + rest
    ensures after == before + (mid + rest)
  {
  }

  /** A file without a date stops the run. */
  lemma UndatedStops(stamps: seq<Option<Stamp>>, images: seq<Grid<Value>>, i: nat)
    requires i < |stamps| && stamps[i].None?
    ensures !Completes(stamps, images)
  {
  }

  /** A list whose rasters differ in shape stops the run. */
  lemma MismatchStops(stamps: seq<Option<Stamp>>, images: seq<Grid<Value>>, i: nat)
    requires 8 <= i < |stamps| && ReadableUpTo(stamps, images, i + 1) && !Uniform(Closing(stamps, images, i))
    ensures !Completes(stamps, images)
  {
  }

  /** The run stops at file k: its name has no date, or (from step 8 on)
      the list it closes does not stack. */
  predicate StopsAt(stamps: seq<Option<Stamp>>, images: seq<Grid<Value>>, k: nat, outcome: Outcome)
  {
    ReadableUpTo(stamps, images, k) && k < |stamps| &&
    match outcome
    case UndatedFile(_) => stamps[k].None?
    case ShapeMismatch(step) => step == k && 8 <= k && stamps[k].Some? && !Uniform(Closing(stamps, images, k))
    case _ => false
  }

  datatype Outcome =
    | Done
    | TooFewFiles               // IndexError on self.files[i] for i < 9
    | UndatedFile(file: string) // IndexError of the date split, or int() of a non-year
    | ShapeMismatch(step: nat)  // np.array of rasters of different shapes

  class Converter {
    var files: seq<string>
    var averageList: seq<Grid<Value>>
    var date: string
    var vci: Grid<Value>
    var vci3m: Grid<Value>
    /** The VCI3M rasters written, under their dates. */
    var stored: seq<(string, Grid<Value>)>

    constructor (fileList: seq<string>)
      ensures files == fileList && averageList == [] && stored == []
    {
      files := fileList;
      averageList := [];
      date := "";
      vci := [];
      vci3m := [];
      stored := [];
    }

    /** populate_average_list: the first nine rasters, read as they are,
        averaged and stored under the ninth file's date; then create_VCI3M.
        `images[t]` is the raster of files[t].
        On a failure, `reached` is the file the run stopped at: every list
        closed before it was stored. */
    method PopulateAverageList(images: seq<Grid<Value>>) returns (outcome: Outcome, ghost reached: nat)
      requires |images| == |files| && forall t :: 0 <= t < |images| ==> IsRaster(images[t])
      modifies this
      ensures files == old(files)
      ensures outcome.Done? <==> Completes(Stamps(files), images)
      ensures outcome.Done? ==> stored == old(stored) + Outputs(Stamps(files), images, 8, |files|)
      ensures outcome.TooFewFiles? ==> |files| < WindowLength && stored == old(stored)
      ensures outcome.UndatedFile? || outcome.ShapeMismatch? ==>
        StopsAt(Stamps(files), images, reached, outcome) && (outcome.UndatedFile? ==> outcome.file == files[reached])
      ensures outcome.UndatedFile? || outcome.ShapeMismatch? ==>
        (reached <= 8 ==> stored == old(stored)) &&
        (reached >= 8 ==> (WindowsUniform(Stamps(files), images, reached) &&
                           stored == old(stored) + Outputs(Stamps(files), images, 8, reached)))
    {
      var failure;
      failure, reached := ReadFirstNine(images);
      if failure.Some? {
        return failure.value, reached;
      }
      failure := StoreFirst(images);
      if failure.Some? {
        return failure.value, 8;
      }
      ghost var first := stored;
      outcome, reached := CreateVci3m(images);
      if outcome.Done? {
        StoredAfterFirst(Stamps(files), images, old(stored), first, stored, |files|);
      } else {
        StoredAfterFirst(Stamps(files), images, old(stored), first, stored, reached);
      }
    }

    /** The mean of the first list, stored under the ninth file's date. */
    method StoreFirst(images: seq<Grid<Value>>) returns (failure: Option<Outcome>)
      requires |files| >= WindowLength && ReadableUpTo(Stamps(files), images, WindowLength)
      requires averageList == images[..WindowLength] && date == Stamps(files)[8].value.date
      modifies this
      ensures files == old(files)
      ensures failure.None? ==> averageList == Closing(Stamps(files), images, 8) && Uniform(Closing(Stamps(files), images, 8))
      ensures failure.None? ==> stored == old(stored) + Outputs(Stamps(files), images, 8, 9)
      ensures failure.Some? ==> failure.value == ShapeMismatch(8) && !Completes(Stamps(files), images) && stored == old(stored)
      ensures failure.Some? ==> StopsAt(Stamps(files), images, 8, failure.value)
    {
      FirstClosing(Stamps(files), images);
      if !Uniform(averageList) {
        MismatchStops(Stamps(files), images, 8);
        return Some(ShapeMismatch(8));
      }
      vci3m := StackMean(averageList);
      stored := stored + [(date, vci3m)];
      failure := None;
    }

    /** The loop of populate_average_list: the first nine rasters, as they
        are read, each file's date parsed on the way. */
    method ReadFirstNine(images: seq<Grid<Value>>) returns (failure: Option<Outcome>, ghost reached: nat)
      requires |images| == |files| && forall t :: 0 <= t < |images| ==> IsRaster(images[t])
      modifies this
      ensures files == old(files) && stored == old(stored)
      ensures failure.None? ==> |files| >= WindowLength && ReadableUpTo(Stamps(files), images, WindowLength)
      ensures failure.None? ==> averageList == images[..WindowLength] && date == Stamps(files)[8].value.date
      ensures failure.Some? ==> !failure.value.Done? && !Completes(Stamps(files), images)
      ensures failure == Some(TooFewFiles) ==> |files| < WindowLength
      ensures failure.Some? && !failure.value.TooFewFiles? ==>
        reached < WindowLength && StopsAt(Stamps(files), images, reached, failure.value) && failure.value == UndatedFile(files[reached])
    {
      averageList := [];
      reached := 0;
      for i := 0 to WindowLength
        invariant files == old(files) && stored == old(stored)
        invariant i <= |files| && ReadableUpTo(Stamps(files), images, i)
        invariant averageList == images[..i]
        invariant i > 0 ==> date == Stamps(files)[i - 1].value.date
      {
        if i >= |files| {
          return Some(TooFewFiles), i;
        }
        failure := ReadDate(images, i);
        if failure.Some? {
          return failure, i;
        }
        averageList := averageList + [images[i]];
      }
      failure := None;
    }

    /** The date of file i, and the year int(date[:4]) the source parses
        from it; either failing raises and ends the run. */
    method ReadDate(images: seq<Grid<Value>>, i: nat) returns (failure: Option<Outcome>)
      requires i < |files|
      modifies this
      ensures files == old(files) && averageList == old(averageList) && stored == old(stored)
      ensures failure.None? ==> Stamps(files)[i].Some? && date == Stamps(files)[i].value.date
      ensures failure.Some? ==> failure.value == UndatedFile(files[i]) && !Completes(Stamps(files), images)
      ensures failure.Some? ==> Stamps(files)[i].None?
    {
      StampsAt(files, i);
      var d := VciDate(files[i]);
      if d.None? {
        UndatedStops(Stamps(files), images, i);
        return Some(UndatedFile(files[i]));
      }
      date := d.value;
      if YearOf(date).None? {
        UndatedStops(Stamps(files), images, i);
        return Some(UndatedFile(files[i]));
      }
      failure := None;
    }

    /** create_VCI3M: for each later file, take the next list and store its
        mean. */
    method CreateVci3m(images: seq<Grid<Value>>) returns (outcome: Outcome, ghost reached: nat)
      requires |files| >= WindowLength && ReadableUpTo(Stamps(files), images, WindowLength)
      requires averageList == Closing(Stamps(files), images, 8) && Uniform(averageList)
      modifies this
      ensures files == old(files)
      ensures outcome.Done? <==> Completes(Stamps(files), images)
      ensures outcome.Done? ==> stored == old(stored) + Outputs(Stamps(files), images, 9, |files|)
      ensures !outcome.TooFewFiles?
      ensures !outcome.Done? ==>
        9 <= reached && StopsAt(Stamps(files), images, reached, outcome) && WindowsUniform(Stamps(files), images, reached) &&
        (outcome.UndatedFile? ==> outcome.file == files[reached]) &&
        stored == old(stored) + Outputs(Stamps(files), images, 9, reached)
    {
      reached := |files|;
      ghost var stamps := Stamps(files);
      for i := WindowLength to |files|
        invariant files == old(files)
        invariant ReadableUpTo(stamps, images, i) && WindowsUniform(stamps, images, i)
        invariant averageList == Closing(stamps, images, i - 1)
        invariant stored == old(stored) + Outputs(stamps, images, 9, i)
      {
        var failure := Advance(images, i);
        if failure.Some? {
          return failure.value, i;
        }
        OutputsExtend(stamps, images, 9, i);
      }
      outcome := Done;
    }

    /** One pass of create_VCI3M's loop: file i's date, the next list, its
        mean stored under that date. A failure stops the whole run. */
    method Advance(images: seq<Grid<Value>>, i: nat) returns (failure: Option<Outcome>)
      requires 9 <= i < |files| && ReadableUpTo(Stamps(files), images, i) && WindowsUniform(Stamps(files), images, i)
      requires averageList == Closing(Stamps(files), images, i - 1)
      modifies this
      ensures files == old(files)
      ensures failure.None? ==> ReadableUpTo(Stamps(files), images, i + 1) && Uniform(Closing(Stamps(files), images, i))
      ensures failure.None? ==> averageList == Closing(Stamps(files), images, i)
      ensures failure.None? ==> stored == old(stored) + [(Stamps(files)[i].value.date, StackMean(Closing(Stamps(files), images, i)))]
      ensures failure.Some? ==> failure.value.UndatedFile? || failure.value.ShapeMismatch?
      ensures failure.Some? ==> !Completes(Stamps(files), images) && stored == old(stored)
      ensures failure.Some? ==> StopsAt(Stamps(files), images, i, failure.value)
      ensures failure.Some? && failure.value.UndatedFile? ==> failure.value.file == files[i]
    {
      failure := ReadDate(images, i);
      if failure.Some? {
        return;
      }
      assert ReadableUpTo(Stamps(files), images, i + 1);
      Slide(images, i);
      failure := StoreMean(images, i);
    }

    /** pop(0), then file i's raster, padded when its year is 2019 or
        later, inserted before the last entry. */
    method Slide(images: seq<Grid<Value>>, i: nat)
      requires 9 <= i < |files| && ReadableUpTo(Stamps(files), images, i + 1)
      requires averageList == Closing(Stamps(files), images, i - 1)
      modifies this
      ensures files == old(files) && stored == old(stored) && date == old(date)
      ensures averageList == Closing(Stamps(files), images, i)
    {
      averageList := averageList[1..];
      vci := images[i];
      if Stamps(files)[i].value.year >= ResizedFromYear {
        ChangeFileSize();
      }
      averageList := InsertBeforeLast(averageList, vci);
      assert vci == Prepared(Stamps(files), images, i);
      ClosingStep(Stamps(files), images, i);
    }

    /** np.nanmean of the list, stored under file i's date; rasters of
        different shapes raise instead. */
    method StoreMean(images: seq<Grid<Value>>, i: nat) returns (failure: Option<Outcome>)
      requires 9 <= i < |files| && ReadableUpTo(Stamps(files), images, i + 1) && WindowsUniform(Stamps(files), images, i)
      requires averageList == Closing(Stamps(files), images, i) && date == Stamps(files)[i].value.date
      modifies this
      ensures files == old(files) && averageList == old(averageList)
      ensures failure.None? ==> Uniform(Closing(Stamps(files), images, i))
      ensures failure.None? ==> stored == old(stored) + [(Stamps(files)[i].value.date, StackMean(Closing(Stamps(files), images, i)))]
      ensures failure.Some? ==> failure.value == ShapeMismatch(i) && !Completes(Stamps(files), images) && stored == old(stored)
      ensures failure.Some? ==> !Uniform(Closing(Stamps(files), images, i))
    {
      if !Uniform(averageList) {
        MismatchStops(Stamps(files), images, i);
        return Some(ShapeMismatch(i));
      }
      vci3m := StackMean(averageList);
      stored := stored + [(date, vci3m)];
      failure := None;
    }

    /** change_file_size: seven NaN rows above, six below, five NaN columns
        on each side. */
    method ChangeFileSize()
      requires IsRaster(vci)
      modifies this
      ensures vci == Padded(old(vci), |old(vci)[0]|, NaN)
      ensures files == old(files) && averageList == old(averageList) && stored == old(stored) && date == old(date)
    {
      vci := PadEdges(vci, |vci[0]|, NaN);
    }
  }
}
