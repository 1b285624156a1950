/** Pixel values as the pipeline's NumPy code sees them: a real number, NaN,
    or an infinity. Arithmetic is exact (no float32 rounding, no signed zero);
    NaN and infinities follow IEEE 754. */
module Values {

  datatype Option<T> = None | Some(value: T)

  /** [f(x) for x in s]. Built from the back one element at a time, so the
      verifier unfolds it only as far as a proof asks. */
  function MapSeq<A, B>(f: A -> B, s: seq<A>): (r: seq<B>)
    ensures |r| == |s|
  {
    if s == [] then [] else MapSeq(f, s[..|s| - 1]) + [f(s[|s| - 1])]
  }

  lemma {:induction false} MapSeqAt<A, B>(f: A -> B, s: seq<A>, t: nat)
    requires t < |s|
    ensures MapSeq(f, s)[t] == f(s[t])
  {
    var init := s[..|s| - 1];
    if t < |init| {
      MapSeqAt(f, init, t);
      assert init[t] == s[t];
    }
  }

  /** The number of kept entries. */
  function Count(keep: seq<bool>): (n: nat)
    ensures n <= |keep|
  {
    if keep == [] then 0 else Count(keep[..|keep| - 1]) + (if keep[|keep| - 1] then 1 else 0)
  }

  /** xs[keep]: NumPy's boolean indexing. */
  function Select<T>(xs: seq<T>, keep: seq<bool>): (r: seq<T>)
    requires |xs| == |keep|
    ensures |r| == Count(keep)
  {
    if xs == [] then []
    else Select(xs[..|xs| - 1], keep[..|keep| - 1]) + (if keep[|keep| - 1] then [xs[|xs| - 1]] else [])
  }

  /** Where the i-th kept entry sits. */
  function Pos(keep: seq<bool>, i: nat): (p: nat)
    requires i < Count(keep)
    ensures p < |keep| && keep[p]
  {
    if i < Count(keep[..|keep| - 1]) then Pos(keep[..|keep| - 1], i) else |keep| - 1
  }

  /** Every selection by one mask takes its i-th entry from the same place. */
  lemma {:induction false} SelectAt<T>(xs: seq<T>, keep: seq<bool>, i: nat)
    requires |xs| == |keep| && i < Count(keep)
    ensures Select(xs, keep)[i] == xs[Pos(keep, i)]
  {
    var init := keep[..|keep| - 1];
    if i < Count(init) {
      SelectAt(xs[..|xs| - 1], init, i);
    }
  }

  /** The kept entries keep their order. */
  lemma {:induction false} PosIncreasing(keep: seq<bool>, i: nat, j: nat)
    requires i < j < Count(keep)
    ensures Pos(keep, i) < Pos(keep, j)
  {
    var init := keep[..|keep| - 1];
    if j < Count(init) {
      PosIncreasing(init, i, j);
    }
  }

  /** Entry p, when kept, is the Count(keep[..p])-th kept one: every kept
      entry is selected. */
  lemma {:induction false} PosOnto(keep: seq<bool>, p: nat)
    requires p < |keep| && keep[p]
    ensures Count(keep[..p]) < Count(keep) && Pos(keep, Count(keep[..p])) == p
  {
    var init := keep[..|keep| - 1];
    if p < |keep| - 1 {
      assert init[..p] == keep[..p];
      PosOnto(init, p);
    } else {
      assert keep[..p] == init;
    }
  }

  datatype Value = NaN | Num(r: real) | Inf(positive: bool)

  /** The fill value the rasters use for "no data": the smallest normal
      float32, 1.175494351e-38, written out as an exact decimal. */
  const Sentinel: real := 0.00000000000000000000000000000000000001175494351

  lemma SentinelBelowFloor()
    ensures 0.0 < Sentinel < 0.000001
  {
  }

  /** The order of the extended reals; NaN is unordered. */
  predicate Le(a: Value, b: Value)
  {
    match (a, b)
    case (NaN, _) => false
    case (_, NaN) => false
    case (Inf(p), Inf(q)) => !p || q
    case (Inf(p), Num(_)) => !p
    case (Num(_), Inf(q)) => q
    case (Num(x), Num(y)) => x <= y
  }

  lemma LeTotal(a: Value, b: Value)
    requires !a.NaN? && !b.NaN?
    ensures Le(a, b) || Le(b, a)
  {
  }

  lemma LeReflexive(a: Value)
    requires !a.NaN?
    ensures Le(a, a)
  {
  }

  lemma LeTransitive(a: Value, b: Value, c: Value)
    requires Le(a, b) && Le(b, c)
    ensures Le(a, c)
  {
  }

  /** numpy.fmax: the larger argument, ignoring a NaN; NaN only when both are. */
  function FMax(a: Value, b: Value): (m: Value)
    ensures m == a || m == b
    ensures m.NaN? <==> a.NaN? && b.NaN?
    ensures !a.NaN? ==> Le(a, m)
    ensures !b.NaN? ==> Le(b, m)
  {
    if a.NaN? then b
    else if b.NaN? then a
    else if Le(a, b) then b
    else a
  }

  /** numpy.fmin: the smaller argument, ignoring a NaN; NaN only when both are. */
  function FMin(a: Value, b: Value): (m: Value)
    ensures m == a || m == b
    ensures m.NaN? <==> a.NaN? && b.NaN?
    ensures !a.NaN? ==> Le(m, a)
    ensures !b.NaN? ==> Le(m, b)
  {
    if a.NaN? then b
    else if b.NaN? then a
    else if Le(a, b) then a
    else b
  }

  function Add(a: Value, b: Value): (s: Value)
    ensures a.Num? && b.Num? ==> s == Num(a.r + b.r)
    ensures a.NaN? || b.NaN? ==> s.NaN?
  {
    match (a, b)
    case (NaN, _) => NaN
    case (_, NaN) => NaN
    case (Inf(p), Inf(q)) => if p == q then Inf(p) else NaN
    case (Inf(p), Num(_)) => Inf(p)
    case (Num(_), Inf(q)) => Inf(q)
    case (Num(x), Num(y)) => Num(x + y)
  }

  function Neg(a: Value): Value
  {
    match a
    case NaN => NaN
    case Inf(p) => Inf(!p)
    case Num(x) => Num(-x)
  }

  function Sub(a: Value, b: Value): (d: Value)
    ensures a.Num? && b.Num? ==> d == Num(a.r - b.r)
    ensures a.NaN? || b.NaN? ==> d.NaN?
  {
    Add(a, Neg(b))
  }

  function Mul(a: Value, b: Value): (p: Value)
    ensures a.Num? && b.Num? ==> p == Num(a.r * b.r)
    ensures a.NaN? || b.NaN? ==> p.NaN?
  {
    if a.NaN? || b.NaN? then NaN
    else if a.Num? && b.Num? then Num(a.r * b.r)
    else if a.Inf? && b.Inf? then Inf(a.positive == b.positive)
    else if a.Inf? then (if b.r == 0.0 then NaN else Inf(a.positive == (b.r > 0.0)))
    else (if a.r == 0.0 then NaN else Inf(b.positive == (a.r > 0.0)))
  }

  /** IEEE division; a zero divisor gives an infinity signed like the
      dividend, or NaN for 0/0. */
  function Div(a: Value, b: Value): (q: Value)
    ensures a.Num? && b.Num? && b.r != 0.0 ==> q == Num(a.r / b.r)
    ensures a.NaN? || b.NaN? ==> q.NaN?
    ensures b == Num(0.0) ==> (q.NaN? <==> a.NaN? || a == Num(0.0))
  {
    match (a, b)
    case (NaN, _) => NaN
    case (_, NaN) => NaN
    case (Inf(_), Inf(_)) => NaN
    case (Inf(p), Num(y)) => Inf(p == (y >= 0.0))
    case (Num(_), Inf(_)) => Num(0.0)
    case (Num(x), Num(y)) =>
      if y != 0.0 then Num(x / y)
      else if x == 0.0 then NaN
      else Inf(x > 0.0)
  }

  /** np.finfo(float).tiny, the smallest normal double. */
  const Tiny: real := 0.000000000000000000000000000000000000000000000000000000000000000000000000000000000000000000000000000000000000000000000000000000000000000000000000000000000000000000000000000000000000000000000000000000000000000000000000000000000000000000000000000000000000000000000000000000000000000000000000000000000000000000022250738585072014

  function Abs(x: real): (a: real)
    ensures a >= 0.0 && (a == x || a == -x)
  {
    if x < 0.0 then -x else x
  }

  /** A cell of a numpy masked array: its data and its mask bit. */
  datatype MaskedCell = MaskedCell(data: Value, masked: bool)

  /** numpy.ma's division domain test |a| * tiny >= |b|; a comparison with
      NaN is false. */
  predicate DivDomain(a: Value, b: Value)
  {
    match (a, b)
    case (NaN, _) => false
    case (_, NaN) => false
    case (Inf(_), _) => true
    case (Num(_), Inf(_)) => false
    case (Num(x), Num(y)) => Abs(x) * Tiny >= Abs(y)
  }

  /** numpy.ma's binary operations on a masked and a plain operand: the
      result is masked where the masked operand is, and a masked cell keeps
      that operand's data. a - b: */
  function MaSub(a: MaskedCell, b: Value): (d: MaskedCell)
    ensures d.masked == a.masked
    ensures !a.masked ==> d.data == Sub(a.data, b)
    ensures a.masked ==> d.data == a.data
  {
    if a.masked then a else MaskedCell(Sub(a.data, b), false)
  }

  /** c * a with a plain number c on the left: a masked cell takes c's data. */
  function MaScale(c: real, a: MaskedCell): (p: MaskedCell)
    ensures p.masked == a.masked
    ensures !a.masked ==> p.data == Mul(Num(c), a.data)
    ensures a.masked ==> p.data == Num(c)
  {
    if a.masked then MaskedCell(Num(c), true) else MaskedCell(Mul(Num(c), a.data), false)
  }

  /** numpy.ma's true_divide: besides the numerator's mask it masks every
      quotient that is not finite and every divisor inside the domain test;
      a masked cell keeps the numerator's data. What remains unmasked is a
      finite quotient of a number. */
  function MaDiv(a: MaskedCell, b: Value): (q: MaskedCell)
    ensures !q.masked ==> !a.masked && a.data.Num? && q.data.Num? && q.data == Div(a.data, b)
    ensures q.masked ==> q.data == a.data
    ensures a.masked || !a.data.Num? || b == Num(0.0) ==> q.masked
    ensures !a.masked && a.data.Num? && b.Num? && Abs(a.data.r) * Tiny < Abs(b.r) ==>
      q == MaskedCell(Num(a.data.r / b.r), false)
  {
    var d := Div(a.data, b);
    if a.masked || !d.Num? || DivDomain(a.data, b) then MaskedCell(a.data, true)
    else MaskedCell(d, false)
  }

  /** Number of entries that are not NaN. */
  function NanCount(xs: seq<Value>): (n: nat)
    ensures n <= |xs|
    ensures n == 0 <==> forall k :: 0 <= k < |xs| ==> xs[k].NaN?
  {
    if xs == [] then 0
    else NanCount(xs[..|xs| - 1]) + (if xs[|xs| - 1].NaN? then 0 else 1)
  }

  /** numpy.nansum: the sum of the entries that are not NaN. */
  function NanSum(xs: seq<Value>): Value
  {
    if xs == [] then Num(0.0)
    else if xs[|xs| - 1].NaN? then NanSum(xs[..|xs| - 1])
    else Add(NanSum(xs[..|xs| - 1]), xs[|xs| - 1])
  }

  /** numpy.nanmean of one pixel across a stack: NaN when every entry is NaN. */
  function NanMean(xs: seq<Value>): Value
  {
    var n := NanCount(xs);
    if n == 0 then NaN else Div(NanSum(xs), Num(n as real))
  }

  /** Every entry is NaN or a number in [lo, hi]. */
  predicate NumsWithin(xs: seq<Value>, lo: real, hi: real)
  {
    forall k :: 0 <= k < |xs| ==> xs[k].NaN? || (xs[k].Num? && lo <= xs[k].r <= hi)
  }

  /** s lies between c copies of lo and c copies of hi. */
  predicate SumBetween(c: real, s: real, lo: real, hi: real)
  {
    c * lo <= s <= c * hi
  }

  lemma {:induction false} NanSumWithin(xs: seq<Value>, lo: real, hi: real)
    requires NumsWithin(xs, lo, hi)
    ensures NanSum(xs).Num?
    ensures SumBetween(NanCount(xs) as real, NanSum(xs).r, lo, hi)
  {
    if xs == [] {
      assert NanCount(xs) == 0 && NanSum(xs) == Num(0.0);
    } else {
      var init := xs[..|xs| - 1];
      var last := xs[|xs| - 1];
      assert NumsWithin(init, lo, hi) by {
        forall k | 0 <= k < |init| ensures init[k].NaN? || (init[k].Num? && lo <= init[k].r <= hi) {
          assert init[k] == xs[k];
        }
      }
      NanSumWithin(init, lo, hi);
      var c, t := NanCount(init) as real, NanSum(init).r;
      if last.NaN? {
        assert NanSum(xs) == NanSum(init) && NanCount(xs) == NanCount(init);
      } else {
        assert lo <= last.r <= hi by {
          assert xs[|xs| - 1] == last;
        }
        AddWithin(c, t, last.r, lo, hi);
        assert NanSum(xs) == Num(t + last.r);
        assert NanCount(xs) as real == c + 1.0;
      }
    }
  }

  lemma AddWithin(c: real, s: real, x: real, lo: real, hi: real)
    requires SumBetween(c, s, lo, hi) && lo <= x <= hi
    ensures SumBetween(c + 1.0, s + x, lo, hi)
  {
  }

  lemma DivWithin(n: real, s: real, lo: real, hi: real)
    requires n > 0.0 && SumBetween(n, s, lo, hi)
    ensures lo <= s / n <= hi
  {
  }

  /** A NaN-ignoring mean of numbers in [lo, hi] is a number in [lo, hi],
      unless every entry is NaN. */
  lemma NanMeanWithin(xs: seq<Value>, lo: real, hi: real)
    requires NumsWithin(xs, lo, hi)
    ensures NanMean(xs).NaN? <==> forall k :: 0 <= k < |xs| ==> xs[k].NaN?
    ensures NanMean(xs).Num? ==> lo <= NanMean(xs).r <= hi
  {
    NanSumWithin(xs, lo, hi);
    if NanCount(xs) > 0 {
      DivWithin(NanCount(xs) as real, NanSum(xs).r, lo, hi);
    }
  }
}
