/** Two-dimensional rasters as sequences of rows, with the edge padding done
    by repeated numpy.insert and the edge cropping done by slicing. */
module Grids {

  type Grid<T> = seq<seq<T>>

  /** g has r rows of c cells each. */
  predicate Rect<T>(g: Grid<T>, r: nat, c: nat)
  {
    |g| == r && forall i :: 0 <= i < r ==> |g[i]| == c
  }

  /** A raster as rasterio reads one: at least one row and one column, all
      rows of one length. */
  predicate IsRaster<T>(g: Grid<T>)
  {
    |g| >= 1 && |g[0]| >= 1 && Rect(g, |g|, |g[0]|)
  }

  /** Every raster of the stack is height x width. */
  predicate StackShape<T>(stack: seq<Grid<T>>, height: nat, width: nat)
  {
    forall t :: 0 <= t < |stack| ==> |stack[t]| == height && forall y :: 0 <= y < height ==> |stack[t][y]| == width
  }

  /** numpy's .size: the number of cells. */
  function Size<T>(g: Grid<T>): nat
  {
    if g == [] then 0 else |g| * |g[0]|
  }

  /** Rows inserted above and below, columns inserted left and right. */
  const PadTop: nat := 7
  const PadBottom: nat := 6
  const PadSide: nat := 5

  /** The padded raster: the original at offset (7, 5), `fill` everywhere else. */
  function Padded<T>(g: Grid<T>, c: nat, fill: T): (p: Grid<T>)
    requires Rect(g, |g|, c)
    ensures Rect(p, |g| + 13, c + 10)
  {
    seq(|g| + 13, i requires 0 <= i < |g| + 13 =>
      seq(c + 10, j requires 0 <= j < c + 10 =>
        if PadTop <= i < |g| + PadTop && PadSide <= j < c + PadSide then g[i - PadTop][j - PadSide] else fill))
  }

  function FillRow<T>(n: nat, fill: T): (row: seq<T>)
    ensures |row| == n && forall j :: 0 <= j < n ==> row[j] == fill
  {
    seq(n, _ => fill)
  }

  /** n rows of `fill`. */
  function FillRows<T>(n: nat, c: nat, fill: T): (rows: Grid<T>)
    ensures |rows| == n && forall i :: 0 <= i < n ==> rows[i] == FillRow(c, fill)
  {
    seq(n, _ => FillRow(c, fill))
  }

  /** `count` single-row inserts of `fill` at index 0 (numpy.insert(A, 0, fill, axis=0)). */
  method InsertRowsAbove<T>(g: Grid<T>, c: nat, count: nat, fill: T) returns (p: Grid<T>)
    requires Rect(g, |g|, c)
    ensures Rect(p, |g| + count, c)
    ensures forall i :: 0 <= i < |p| ==> p[i] == if i < count then FillRow(c, fill) else g[i - count]
  {
    p := g;
    for x := 0 to count
      invariant p == FillRows(x, c, fill) + g
    {
      assert [FillRow(c, fill)] + FillRows(x, c, fill) == FillRows(x + 1, c, fill);
      p := [FillRow(c, fill)] + p;
    }
  }

  /** `count` single-row inserts of `fill` at index len(A[:, 0]), i.e. below the last row. */
  method InsertRowsBelow<T>(g: Grid<T>, c: nat, count: nat, fill: T) returns (p: Grid<T>)
    requires Rect(g, |g|, c) && c >= 1
    ensures Rect(p, |g| + count, c)
    ensures forall i :: 0 <= i < |p| ==> p[i] == if i < |g| then g[i] else FillRow(c, fill)
  {
    p := g;
    for x := 0 to count
      invariant Rect(p, |g| + x, c)
      invariant forall i :: 0 <= i < |p| ==> p[i] == if i < |g| then g[i] else FillRow(c, fill)
    {
      p := p + [FillRow(c, fill)];
    }
  }

  /** `count` single-column inserts of `fill` at column 0 (numpy.insert(A, 0, fill, axis=1)). */
  method InsertColumnsLeft<T>(g: Grid<T>, c: nat, count: nat, fill: T) returns (p: Grid<T>)
    requires Rect(g, |g|, c)
    ensures Rect(p, |g|, c + count)
    ensures forall i, j :: 0 <= i < |g| && 0 <= j < c + count ==>
      p[i][j] == if j < count then fill else g[i][j - count]
  {
    p := g;
    for y := 0 to count
      invariant Rect(p, |g|, c + y)
      invariant forall i, j :: 0 <= i < |g| && 0 <= j < c + y ==>
        p[i][j] == if j < y then fill else g[i][j - y]
    {
      p := seq(|g|, i requires 0 <= i < |g| => [fill] + p[i]);
    }
  }

  /** `count` single-column inserts of `fill` at index len(A[0, :]), i.e. right of the last column. */
  method InsertColumnsRight<T>(g: Grid<T>, c: nat, count: nat, fill: T) returns (p: Grid<T>)
    requires Rect(g, |g|, c) && |g| >= 1
    ensures Rect(p, |g|, c + count)
    ensures forall i, j :: 0 <= i < |g| && 0 <= j < c + count ==>
      p[i][j] == if j < c then g[i][j] else fill
  {
    p := g;
    for y := 0 to count
      invariant Rect(p, |g|, c + y)
      invariant forall i, j :: 0 <= i < |g| && 0 <= j < c + y ==>
        p[i][j] == if j < c then g[i][j] else fill
    {
      p := seq(|g|, i requires 0 <= i < |g| => p[i] + [fill]);
    }
  }

  /** The padding as the source performs it: seven single-row inserts at the
      top, six at the bottom, then five single-column inserts on the left and
      five on the right. The source reads A[:, 0] to find the bottom, so the
      raster needs at least one column. */
  method PadEdges<T>(g: Grid<T>, c: nat, fill: T) returns (p: Grid<T>)
    requires Rect(g, |g|, c) && c >= 1
    ensures p == Padded(g, c, fill)
  {
    var top := InsertRowsAbove(g, c, PadTop, fill);
    var tall := InsertRowsBelow(top, c, PadBottom, fill);
    var left := InsertColumnsLeft(tall, c, PadSide, fill);
    p := InsertColumnsRight(left, c + PadSide, PadSide, fill);
    var want := Padded(g, c, fill);
    forall i | 0 <= i < |g| + 13 ensures p[i] == want[i] {
      forall j | 0 <= j < c + 10 ensures p[i][j] == want[i][j] {
        if 5 <= j < c + 5 {
          assert p[i][j] == tall[i][j - 5];
        }
      }
    }
  }

  /** Python's s[lo:-back] for back >= 1. */
  function SliceInner<T>(s: seq<T>, lo: nat, back: nat): (r: seq<T>)
    requires back >= 1
    ensures |s| >= lo + back ==> r == s[lo..|s| - back]
    ensures |s| < lo + back ==> r == []
  {
    var stop := if |s| >= back then |s| - back else 0;
    var start := if lo <= |s| then lo else |s|;
    if start < stop then s[start..stop] else []
  }

  /** m[top:-bottom, side:-side]. */
  function CropEdges<T>(g: Grid<T>, top: nat, bottom: nat, side: nat): Grid<T>
    requires bottom >= 1 && side >= 1
  {
    var rows := SliceInner(g, top, bottom);
    seq(|rows|, i requires 0 <= i < |rows| => SliceInner(rows[i], side, side))
  }

  /** The crop applied to the stored minima and maxima: m[6:-7, 5:-5]. */
  function Cropped<T>(g: Grid<T>): Grid<T>
  {
    CropEdges(g, 6, 7, 5)
  }

  /** An r x c raster loses 13 rows and 10 columns, and keeps cell
      (i + 6, j + 5) at (i, j). */
  lemma CroppedShape<T>(g: Grid<T>, r: nat, c: nat)
    requires Rect(g, r, c) && r >= 13 && c >= 10
    ensures Rect(Cropped(g), r - 13, c - 10)
    ensures forall i, j :: 0 <= i < r - 13 && 0 <= j < c - 10 ==> Cropped(g)[i][j] == g[i + 6][j + 5]
  {
  }

  /** Cropping a padded raster does not give it back: the crop removes six
      rows above and seven below, the padding added seven above and six
      below, so every row moves down by one and a fill row comes in on top. */
  lemma CroppedPaddedShifted<T>(g: Grid<T>, c: nat, fill: T)
    requires Rect(g, |g|, c)
    ensures Rect(Cropped(Padded(g, c, fill)), |g|, c)
    ensures forall i, j :: 0 <= i < |g| && 0 <= j < c ==>
      Cropped(Padded(g, c, fill))[i][j] == if i == 0 then fill else g[i - 1][j]
  {
    CroppedShape(Padded(g, c, fill), |g| + 13, c + 10);
  }

  /** The crop that undoes the padding: m[7:-6, 5:-5]. */
  function CroppedAligned<T>(g: Grid<T>): Grid<T>
  {
    CropEdges(g, PadTop, PadBottom, PadSide)
  }

  lemma CroppedAlignedInvertsPadding<T>(g: Grid<T>, c: nat, fill: T)
    requires Rect(g, |g|, c)
    ensures CroppedAligned(Padded(g, c, fill)) == g
  {
    var p := CroppedAligned(Padded(g, c, fill));
    assert |p| == |g|;
    forall i | 0 <= i < |g| ensures p[i] == g[i] {
    }
  }

  /** Elementwise combination of two rasters of one shape. */
  function Zip<A, B, C>(a: Grid<A>, b: Grid<B>, f: (A, B) -> C): (z: Grid<C>)
    requires |a| == |b| && forall i :: 0 <= i < |a| ==> |a[i]| == |b[i]|
    ensures |z| == |a| && forall i :: 0 <= i < |a| ==> |z[i]| == |a[i]|
    ensures forall i, j :: 0 <= i < |a| && 0 <= j < |a[i]| ==> z[i][j] == f(a[i][j], b[i][j])
  {
    seq(|a|, i requires 0 <= i < |a| => seq(|a[i]|, j requires 0 <= j < |a[i]| => f(a[i][j], b[i][j])))
  }

  /** Elementwise transformation of a raster. */
  function MapCells<A, B>(a: Grid<A>, f: A -> B): (m: Grid<B>)
    ensures |m| == |a| && forall i :: 0 <= i < |a| ==> |m[i]| == |a[i]|
    ensures forall i, j :: 0 <= i < |a| && 0 <= j < |a[i]| ==> m[i][j] == f(a[i][j])
  {
    seq(|a|, i requires 0 <= i < |a| => seq(|a[i]|, j requires 0 <= j < |a[i]| => f(a[i][j])))
  }

  /** Two rasters have the same shape. */
  predicate SameShape<A, B>(a: Grid<A>, b: Grid<B>)
  {
    |a| == |b| && forall i :: 0 <= i < |a| ==> |a[i]| == |b[i]|
  }
}
