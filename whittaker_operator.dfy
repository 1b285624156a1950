/** The linear system behind whitsm: the third-difference matrix D built as
    a scipy dia_matrix, the system matrix E + lambda * D^T D, and the
    conjugate-gradient solve, which is an oracle of the model. */
module WhittakerOperator {
  import opened Grids

  type Matrix = Grid<real>

  /** Sum of a[k] * b[k]. */
  function Dot(a: seq<real>, b: seq<real>): real
    requires |a| == |b|
  {
    if a == [] then 0.0 else a[0] * b[0] + Dot(a[1..], b[1..])
  }

  lemma {:induction false} DotSplit(a: seq<real>, b: seq<real>, k: nat)
    requires |a| == |b| && k <= |a|
    ensures Dot(a, b) == Dot(a[..k], b[..k]) + Dot(a[k..], b[k..])
  {
    if k == 0 {
      assert a[..0] == [] && a[0..] == a && b[0..] == b;
    } else {
      DotSplit(a[1..], b[1..], k - 1);
      assert a[1..][..k - 1] == a[..k][1..] && b[1..][..k - 1] == b[..k][1..];
      assert a[1..][k - 1..] == a[k..] && b[1..][k - 1..] == b[k..];
    }
  }

  /** A dot product whose every term has a zero factor is zero. */
  lemma {:induction false} DotOfDisjoint(a: seq<real>, b: seq<real>)
    requires |a| == |b|
    requires forall k :: 0 <= k < |a| ==> a[k] == 0.0 || b[k] == 0.0
    ensures Dot(a, b) == 0.0
  {
    if a != [] {
      assert a[0] * b[0] == 0.0;
      DotOfDisjoint(a[1..], b[1..]);
    }
  }

  lemma {:induction false} DotSymmetric(a: seq<real>, b: seq<real>)
    requires |a| == |b|
    ensures Dot(a, b) == Dot(b, a)
  {
    if a != [] {
      DotSymmetric(a[1..], b[1..]);
    }
  }

  lemma {:induction false} DotSelfNonNegative(a: seq<real>)
    ensures Dot(a, a) >= 0.0
  {
    if a != [] {
      DotSelfNonNegative(a[1..]);
      SquareNonNegative(a[0]);
    }
  }

  lemma SquareNonNegative(x: real)
    ensures x * x >= 0.0
  {
    if x < 0.0 {
      assert x * x == (-x) * (-x);
    }
  }

  /** Column j of m. */
  function Column(m: Matrix, j: nat): (col: seq<real>)
    requires forall i :: 0 <= i < |m| ==> j < |m[i]|
    ensures |col| == |m| && forall i :: 0 <= i < |m| ==> col[i] == m[i][j]
  {
    seq(|m|, i requires 0 <= i < |m| => m[i][j])
  }

  function Transpose(m: Matrix, rows: nat, cols: nat): (t: Matrix)
    requires Rect(m, rows, cols)
    ensures Rect(t, cols, rows)
    ensures forall i, j :: 0 <= i < cols && 0 <= j < rows ==> t[i][j] == m[j][i]
  {
    seq(cols, j requires 0 <= j < cols => Column(m, j))
  }

  /** The p x r product of a p x q and a q x r matrix. */
  function MatMul(x: Matrix, y: Matrix, p: nat, q: nat, r: nat): (z: Matrix)
    requires Rect(x, p, q) && Rect(y, q, r)
    ensures Rect(z, p, r)
  {
    seq(p, i requires 0 <= i < p => seq(r, j requires 0 <= j < r => Dot(x[i], Column(y, j))))
  }

  function MatVec(m: Matrix, v: seq<real>): (w: seq<real>)
    requires forall i :: 0 <= i < |m| ==> |m[i]| == |v|
    ensures |w| == |m| && forall i :: 0 <= i < |m| ==> w[i] == Dot(m[i], v)
  {
    seq(|m|, i requires 0 <= i < |m| => Dot(m[i], v))
  }

  /** scipy.sparse.eye(n). */
  function Identity(n: nat): (e: Matrix)
    ensures Rect(e, n, n)
  {
    seq(n, i => seq(n, j => if i == j then 1.0 else 0.0))
  }

  /** The entry (i, j) of dia_matrix((data, offsets), shape): the sum of
      data[k][j] over the diagonals k whose offset is j - i. */
  function DiagonalSum(data: seq<seq<real>>, offsets: seq<int>, i: nat, j: nat): real
    requires |data| == |offsets|
    requires forall k :: 0 <= k < |data| ==> j < |data[k]|
  {
    if data == [] then 0.0
    else (if offsets[0] == j - i then data[0][j] else 0.0) + DiagonalSum(data[1..], offsets[1..], i, j)
  }

  /** scipy.sparse.dia_matrix((data, offsets), shape=(rows, cols)). */
  function DiaMatrix(data: seq<seq<real>>, offsets: seq<int>, rows: nat, cols: nat): (m: Matrix)
    requires |data| == |offsets|
    requires forall k :: 0 <= k < |data| ==> |data[k]| == cols
    ensures Rect(m, rows, cols)
  {
    seq(rows, i requires 0 <= i < rows => seq(cols, j requires 0 <= j < cols => DiagonalSum(data, offsets, i, j)))
  }

  function Scaled(c: real, v: seq<real>): (w: seq<real>)
    ensures |w| == |v| && forall k :: 0 <= k < |v| ==> w[k] == c * v[k]
  {
    seq(|v|, k requires 0 <= k < |v| => c * v[k])
  }

  /** D of whitsm: diagonals d1 = -1, d2 = -3 d1, d3 = 3 d1, d4 = -d1 at
      offsets 0..3, shape (n - 3, n). */
  function ThirdDifference(n: nat): (d: Matrix)
    requires n >= 3
    ensures Rect(d, n - 3, n)
  {
    var d1 := seq(n, _ => -1.0);
    var d2 := Scaled(-3.0, d1);
    var d3 := Scaled(3.0, d1);
    var d4 := Scaled(-1.0, d1);
    DiaMatrix([d1, d2, d3, d4], [0, 1, 2, 3], n - 3, n)
  }

  /** The coefficient of the third forward difference at distance `delta`. */
  function Stencil(delta: int): real
  {
    if delta == 0 then -1.0
    else if delta == 1 then 3.0
    else if delta == 2 then -3.0
    else if delta == 3 then 1.0
    else 0.0
  }

  /** Row i of D holds -1, 3, -3, 1 in columns i..i+3 and zero elsewhere. */
  lemma ThirdDifferenceEntries(n: nat)
    requires n >= 3
    ensures forall i, j :: 0 <= i < n - 3 && 0 <= j < n ==> ThirdDifference(n)[i][j] == Stencil(j - i)
  {
    forall i, j | 0 <= i < n - 3 && 0 <= j < n
      ensures ThirdDifference(n)[i][j] == Stencil(j - i)
    {
      var d1 := seq(n, _ => -1.0);
      var data := [d1, Scaled(-3.0, d1), Scaled(3.0, d1), Scaled(-1.0, d1)];
      var offsets := [0, 1, 2, 3];
      assert ThirdDifference(n)[i][j] == DiagonalSum(data, offsets, i, j);
      assert data[1..][1..][1..][1..] == [];
      assert DiagonalSum(data[1..][1..][1..], offsets[1..][1..][1..], i, j) == (if j - i == 3 then 1.0 else 0.0);
      assert DiagonalSum(data[1..][1..], offsets[1..][1..], i, j) == (if j - i == 2 then -3.0 else 0.0) + (if j - i == 3 then 1.0 else 0.0);
    }
  }

  /** D s is the third forward difference of s:
      -s[i] + 3 s[i+1] - 3 s[i+2] + s[i+3]. */
  lemma ThirdDifferenceApplied(n: nat, s: seq<real>)
    requires n >= 3 && |s| == n
    ensures forall i :: 0 <= i < n - 3 ==>
      MatVec(ThirdDifference(n), s)[i] == -s[i] + 3.0 * s[i + 1] - 3.0 * s[i + 2] + s[i + 3]
  {
    ThirdDifferenceEntries(n);
    var d := ThirdDifference(n);
    forall i | 0 <= i < n - 3
      ensures MatVec(d, s)[i] == -s[i] + 3.0 * s[i + 1] - 3.0 * s[i + 2] + s[i + 3]
    {
      StencilRowDot(d[i], s, i);
    }
  }

  /** A row holding the stencil at columns i..i+3 picks out the third
      forward difference at i. */
  lemma StencilRowDot(row: seq<real>, s: seq<real>, i: nat)
    requires |row| == |s| && i + 4 <= |row|
    requires forall j :: 0 <= j < |row| ==> row[j] == Stencil(j - i)
    ensures Dot(row, s) == -s[i] + 3.0 * s[i + 1] - 3.0 * s[i + 2] + s[i + 3]
  {
    var w, t := row[i..][..4], s[i..][..4];
    assert Dot(row, s) == Dot(w, t) by {
      DotSplit(row, s, i);
      DotSplit(row[i..], s[i..], 4);
      DotOfDisjoint(row[..i], s[..i]);
      DotOfDisjoint(row[i..][4..], s[i..][4..]);
    }
    assert w[0] == -1.0 && w[1] == 3.0 && w[2] == -3.0 && w[3] == 1.0 by {
      assert Stencil(i - i) == -1.0 && Stencil(i + 1 - i) == 3.0 && Stencil(i + 2 - i) == -3.0 && Stencil(i + 3 - i) == 1.0;
    }
    assert t[0] == s[i] && t[1] == s[i + 1] && t[2] == s[i + 2] && t[3] == s[i + 3];
    DotOfFour(w, t);
  }

  lemma DotOfFour(w: seq<real>, t: seq<real>)
    requires |w| == 4 && |t| == 4
    ensures Dot(w, t) == w[0] * t[0] + w[1] * t[1] + w[2] * t[2] + w[3] * t[3]
  {
    var w1, t1 := w[1..], t[1..];
    var w2, t2 := w1[1..], t1[1..];
    var w3, t3 := w2[1..], t2[1..];
    assert w3[1..] == [] && t3[1..] == [];
    assert Dot(w3, t3) == w[3] * t[3];
    assert Dot(w2, t2) == w[2] * t[2] + w[3] * t[3];
    assert Dot(w1, t1) == w[1] * t[1] + w[2] * t[2] + w[3] * t[3];
  }

  /** The series a + b k + c k^2. */
  function Quadratic(n: nat, a: real, b: real, c: real): (q: seq<real>)
    ensures |q| == n && forall k :: 0 <= k < n ==> q[k] == a + b * (k as real) + c * (k as real) * (k as real)
  {
    seq(n, k => a + b * (k as real) + c * (k as real) * (k as real))
  }

  /** The penalty vanishes on quadratic trends: D maps every quadratic
      series to zero. */
  lemma ThirdDifferenceKillsQuadratics(n: nat, a: real, b: real, c: real)
    requires n >= 3
    ensures MatVec(ThirdDifference(n), Quadratic(n, a, b, c)) == seq(n - 3, _ => 0.0)
  {
    var q := Quadratic(n, a, b, c);
    ThirdDifferenceApplied(n, q);
    var z := MatVec(ThirdDifference(n), q);
    forall i | 0 <= i < n - 3
      ensures z[i] == 0.0
    {
      QuadraticStencilAt(n, a, b, c, i);
    }
  }

  /** The stencil applied to four consecutive values of a quadratic. */
  lemma QuadraticStencilAt(n: nat, a: real, b: real, c: real, i: nat)
    requires i + 3 < n
    ensures var q := Quadratic(n, a, b, c); -q[i] + 3.0 * q[i + 1] - 3.0 * q[i + 2] + q[i + 3] == 0.0
  {
    var q := Quadratic(n, a, b, c);
    var x := i as real;
    assert (i + 1) as real == x + 1.0 && (i + 2) as real == x + 2.0 && (i + 3) as real == x + 3.0;
    assert q[i + 1] == a + b * (x + 1.0) + c * (x + 1.0) * (x + 1.0);
    assert q[i + 2] == a + b * (x + 2.0) + c * (x + 2.0) * (x + 2.0);
    assert q[i + 3] == a + b * (x + 3.0) + c * (x + 3.0) * (x + 3.0);
    QuadraticStencil(a, b, c, x);
  }

  lemma QuadraticStencil(a: real, b: real, c: real, x: real)
    ensures -(a + b * x + c * x * x)
            + 3.0 * (a + b * (x + 1.0) + c * (x + 1.0) * (x + 1.0))
            - 3.0 * (a + b * (x + 2.0) + c * (x + 2.0) * (x + 2.0))
            + (a + b * (x + 3.0) + c * (x + 3.0) * (x + 3.0)) == 0.0
  {
    assert c * (x + 1.0) * (x + 1.0) == c * x * x + 2.0 * c * x + c;
    assert c * (x + 2.0) * (x + 2.0) == c * x * x + 4.0 * c * x + 4.0 * c;
    assert c * (x + 3.0) * (x + 3.0) == c * x * x + 6.0 * c * x + 9.0 * c;
  }

  /** E + lambda * (D^T D), the matrix whitsm hands to the solver. */
  function SystemMatrix(n: nat, lambda: real): (m: Matrix)
    requires n >= 3
    ensures Rect(m, n, n)
  {
    var d := ThirdDifference(n);
    var dtd := MatMul(Transpose(d, n - 3, n), d, n, n - 3, n);
    Zip(Identity(n), MapCells(dtd, x => lambda * x), (e, p) => e + p)
  }

  /** Entry (i, j) of the system matrix: the identity plus lambda times the
      dot product of columns i and j of D. */
  lemma SystemMatrixEntry(n: nat, lambda: real, i: nat, j: nat)
    requires n >= 3 && i < n && j < n
    ensures SystemMatrix(n, lambda)[i][j]
      == (if i == j then 1.0 else 0.0) + lambda * Dot(Column(ThirdDifference(n), i), Column(ThirdDifference(n), j))
  {
    var d := ThirdDifference(n);
    assert Transpose(d, n - 3, n)[i] == Column(d, i);
  }

  /** The system matrix is symmetric. */
  lemma SystemMatrixSymmetric(n: nat, lambda: real)
    requires n >= 3
    ensures forall i, j :: 0 <= i < n && 0 <= j < n ==> SystemMatrix(n, lambda)[i][j] == SystemMatrix(n, lambda)[j][i]
  {
    var d := ThirdDifference(n);
    forall i, j | 0 <= i < n && 0 <= j < n
      ensures SystemMatrix(n, lambda)[i][j] == SystemMatrix(n, lambda)[j][i]
    {
      SystemMatrixEntry(n, lambda, i, j);
      SystemMatrixEntry(n, lambda, j, i);
      DotSymmetric(Column(d, i), Column(d, j));
    }
  }

  /** The system matrix is zero outside the band |i - j| <= 3. */
  lemma SystemMatrixBanded(n: nat, lambda: real)
    requires n >= 3
    ensures forall i, j :: 0 <= i < n && 0 <= j < n && (i - j > 3 || j - i > 3) ==> SystemMatrix(n, lambda)[i][j] == 0.0
  {
    var d := ThirdDifference(n);
    ThirdDifferenceEntries(n);
    forall i, j | 0 <= i < n && 0 <= j < n && (i - j > 3 || j - i > 3)
      ensures SystemMatrix(n, lambda)[i][j] == 0.0
    {
      SystemMatrixEntry(n, lambda, i, j);
      var ci, cj := Column(d, i), Column(d, j);
      forall k | 0 <= k < n - 3 ensures ci[k] == 0.0 || cj[k] == 0.0 {
        assert ci[k] == Stencil(i - k) && cj[k] == Stencil(j - k);
      }
      DotOfDisjoint(ci, cj);
    }
  }

  /** For a non-negative lambda every diagonal entry is at least 1. */
  lemma SystemMatrixDiagonal(n: nat, lambda: real)
    requires n >= 3 && lambda >= 0.0
    ensures forall i :: 0 <= i < n ==> SystemMatrix(n, lambda)[i][i] >= 1.0
  {
    var d := ThirdDifference(n);
    forall i | 0 <= i < n ensures SystemMatrix(n, lambda)[i][i] >= 1.0 {
      SystemMatrixEntry(n, lambda, i, i);
      DotSelfNonNegative(Column(d, i));
      ScaledNonNegative(lambda, Dot(Column(d, i), Column(d, i)));
    }
  }

  lemma ScaledNonNegative(x: real, y: real)
    requires x >= 0.0 && y >= 0.0
    ensures x * y >= 0.0
  {
  }

  /** The conjugate-gradient routine, given the matrix, the right-hand side,
      the tolerance and the iteration cap. Its answer has the length of the
      right-hand side; which vector it is lies outside the model. */
  type Solver = f: (Matrix, seq<real>, real, nat) -> seq<real>
    | forall m, y, tol, cap :: |f(m, y, tol, cap)| == |y|
    witness (m: Matrix, y: seq<real>, tol: real, cap: nat) => y

  /** tol=3e-2. */
  const Tolerance: real := 0.03

  /** whitsm(y, lmda, data_length, maxiter): the solver's answer for the
      system matrix of size data_length and right-hand side y. */
  function Whitsm(y: seq<real>, lambda: real, n: nat, maxIter: nat, cg: Solver): (z: seq<real>)
    requires n >= 3 && |y| == n
    ensures |z| == n
  {
    cg(SystemMatrix(n, lambda), y, Tolerance, maxIter)
  }
}
