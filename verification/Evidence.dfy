/**
 Target-pixel evidence (apps/python-enrichment/pipeline/evidence.py) over the reals: transit
 masks, per-pixel statistics computed block by block, and the figures drawn from a map of
 non-negative pixel values.
 */
module Evidence {
  import opened Wrappers
  import opened Arithmetic
  import opened Orders
  import opened Sequences

  // ---- Transit masks ----------------------------------------------------

  /** The floored remainder, as `%` on arrays of floats. */
  function Modulo(x: real, p: real): real
    requires p != 0.0
  {
    x - (x / p).Floor as real * p
  }

  /** Time since the nearest transit centre. */
  function Phase(t: real, period: real, centre: real): real
    requires period != 0.0
  {
    Modulo(t - centre + period / 2.0, period) - period / 2.0
  }

  function Abs(x: real): real { if x < 0.0 then -x else x }

  predicate InTransit(t: real, period: real, centre: real, halfWindow: real)
    requires period != 0.0
  {
    Abs(Phase(t, period, centre)) <= halfWindow
  }

  predicate OutOfTransit(t: real, period: real, centre: real, halfGuard: real)
    requires period != 0.0
  {
    Abs(Phase(t, period, centre)) >= halfGuard
  }

  lemma ModuloRange(x: real, p: real)
    requires p > 0.0
    ensures 0.0 <= Modulo(x, p) < p
  {
    var q := x / p;
    var n := q.Floor as real;
    assert n <= q < n + 1.0;
    assert q * p == x;
    var y := x - n * p;
    assert y == (q - n) * p;
    ScaleBounds(q - n, p, y);
  }

  lemma ScaleBounds(f: real, p: real, y: real)
    requires 0.0 <= f < 1.0 && p > 0.0 && y == f * p
    ensures 0.0 <= y < p
  {
    MulMonotone(f, 1.0, p);
  }

  lemma FactorInUnit(q: real, p: real, y: real)
    requires p > 0.0 && y == q * p && 0.0 <= y < p
    ensures 0.0 <= q < 1.0
  {
    if q >= 1.0 { MulMonotone(1.0, q, p); }
    if q < 0.0 { MulMonotone(q, 0.0, p); }
  }

  lemma ModuloSmall(x: real, p: real)
    requires p > 0.0 && 0.0 <= x < p
    ensures Modulo(x, p) == x
  {
    var q := x / p;
    FactorInUnit(q, p, x);
    assert q.Floor == 0;
  }

  lemma MulMonotone(a: real, b: real, p: real)
    requires a <= b && p > 0.0
    ensures a * p <= b * p
    ensures a < b ==> a * p < b * p
  {}

  /**
   A cadence is in transit and out of it for some time exactly when the guard is inside the window and inside
   half a period.
   */
  lemma MasksDisjointExactly(period: real, centre: real, halfWindow: real, halfGuard: real)
    requires period > 0.0
    ensures (forall t :: !(InTransit(t, period, centre, halfWindow) && OutOfTransit(t, period, centre, halfGuard)))
      <==> (halfWindow < halfGuard || halfWindow < 0.0 || halfGuard > period / 2.0)
  {
    if halfWindow < halfGuard || halfWindow < 0.0 || halfGuard > period / 2.0 {
      forall t: real ensures !(InTransit(t, period, centre, halfWindow) && OutOfTransit(t, period, centre, halfGuard)) {
        ModuloRange(t - centre + period / 2.0, period);
      }
    } else if halfGuard <= 0.0 {
      ModuloSmall(period / 2.0, period);
      assert InTransit(centre, period, centre, halfWindow) && OutOfTransit(centre, period, centre, halfGuard);
    } else if halfGuard < period / 2.0 {
      var t := centre + halfGuard;
      ModuloSmall(halfGuard + period / 2.0, period);
      assert t - centre + period / 2.0 == halfGuard + period / 2.0;
      assert InTransit(t, period, centre, halfWindow) && OutOfTransit(t, period, centre, halfGuard);
    } else {
      var t := centre - period / 2.0;
      ModuloSmall(0.0, period);
      assert t - centre + period / 2.0 == 0.0;
      assert InTransit(t, period, centre, halfWindow) && OutOfTransit(t, period, centre, halfGuard);
    }
  }

  /** With the default factors, one window and a guard of two, no cadence is both. */
  lemma DefaultMasksDisjoint(t: real, period: real, centre: real, duration: real)
    requires period > 0.0 && duration > 0.0
    ensures !(InTransit(t, period, centre, 1.0 * duration / 2.0)
            && OutOfTransit(t, period, centre, 2.0 * duration / 2.0))
  {
    MasksDisjointExactly(period, centre, 1.0 * duration / 2.0, 2.0 * duration / 2.0);
  }

  // ---- Sums over a map --------------------------------------------------

  function Sum(v: seq<real>): real
  {
    if v == [] then 0.0 else Sum(v[..|v| - 1]) + v[|v| - 1]
  }

  function Square(x: real): real { x * x }

  function Squares(v: seq<real>): seq<real> { Map(Square, v) }

  function Max(v: seq<real>): real
    requires v != []
  {
    if |v| == 1 then v[0] else var m := Max(v[..|v| - 1]); if v[|v| - 1] > m then v[|v| - 1] else m
  }

  predicate NonNegative(v: seq<real>) { forall i :: 0 <= i < |v| ==> v[i] >= 0.0 }

  lemma {:induction false} MaxBounds(v: seq<real>, i: nat)
    requires i < |v|
    ensures v[i] <= Max(v)
  {
    if |v| > 1 && i < |v| - 1 {
      MaxBounds(v[..|v| - 1], i);
    }
  }

  lemma {:induction false} SumNonNegative(v: seq<real>)
    requires NonNegative(v)
    ensures Sum(v) >= 0.0
  {
    if v != [] { SumNonNegative(v[..|v| - 1]); }
  }

  lemma {:induction false} PartOfSum(v: seq<real>, i: nat)
    requires NonNegative(v) && i < |v|
    ensures v[i] <= Sum(v)
  {
    var n := |v| - 1;
    if i < n {
      PartOfSum(v[..n], i);
    } else {
      SumNonNegative(v[..n]);
    }
  }

  lemma SquaresSnoc(v: seq<real>)
    requires v != []
    ensures Sum(Squares(v)) == Sum(Squares(v[..|v| - 1])) + v[|v| - 1] * v[|v| - 1]
  {
    var n := |v| - 1;
    MapSnoc(Square, v, n);
    assert v[..n + 1] == v;
    SumSnoc(Squares(v[..n]), Square(v[n]));
  }

  lemma SumSnoc(v: seq<real>, x: real)
    ensures Sum(v + [x]) == Sum(v) + x
  {
    assert (v + [x])[..|v|] == v;
  }

  lemma BoundedProduct(x: real, m: real, s: real, q: real)
    requires 0.0 <= x <= m && BelowProduct(q, m, s)
    ensures BelowProduct(q + x * x, m, s + x)
  {
    assert x * x <= m * x;
    assert m * (s + x) == m * s + m * x;
  }

  /** The squares add up to at most the largest value times the sum. */
  lemma {:induction false} SquaresBelow(v: seq<real>, m: real)
    requires NonNegative(v) && forall i :: 0 <= i < |v| ==> v[i] <= m
    ensures BelowProduct(Sum(Squares(v)), m, Sum(v))
  {
    if v != [] {
      var n := |v| - 1;
      SquaresBelow(v[..n], m);
      SquaresSnoc(v);
      BoundedProduct(v[n], m, Sum(v[..n]), Sum(Squares(v[..n])));
    }
  }

  lemma CauchyStep(s: real, q: real, x: real, n: real)
    requires n > 0.0 && s * s <= n * q
    ensures (s + x) * (s + x) <= (n + 1.0) * (q + x * x)
  {
    var d := s - n * x;
    assert d * d >= 0.0;
    assert d * d == s * s - 2.0 * n * (s * x) + n * n * (x * x);
    assert n * (q + n * (x * x) - 2.0 * (s * x)) >= 0.0 by {
      assert n * (q + n * (x * x) - 2.0 * (s * x)) == n * q + n * n * (x * x) - 2.0 * n * (s * x);
    }
    PositiveFactor(n, q + n * (x * x) - 2.0 * (s * x));
    assert (s + x) * (s + x) == s * s + 2.0 * (s * x) + x * x;
    assert (n + 1.0) * (q + x * x) == n * q + q + n * (x * x) + x * x;
  }

  lemma PositiveFactor(a: real, b: real)
    requires a > 0.0 && a * b >= 0.0
    ensures b >= 0.0
  {
    if b < 0.0 { NegativeProduct(a, b); }
  }

  lemma NegativeProduct(a: real, b: real)
    requires a > 0.0
    ensures b < 0.0 ==> a * b < 0.0
    ensures b <= 0.0 ==> a * b <= 0.0
  {}

  lemma CauchyNext(s: real, q: real, x: real, n: nat)
    requires n > 0 && BelowScaledSquares(s, q, n)
    ensures BelowScaledSquares(s + x, q + x * x, n + 1)
  {
    CauchyStep(s, q, x, n as real);
    assert (n + 1) as real == n as real + 1.0;
  }

  lemma CauchySingle(x: real)
    ensures BelowScaledSquares(0.0 + x, 0.0 + x * x, 1)
  {}

  /** Cauchy-Schwarz: the square of the sum is at most the number of values times the sum of squares. */
  lemma {:induction false} SquareOfSum(v: seq<real>)
    ensures BelowScaledSquares(Sum(v), Sum(Squares(v)), |v|)
  {
    if |v| == 1 {
      SquaresSnoc(v);
      CauchySingle(v[0]);
      assert Sum(v[..0]) == 0.0 && Sum(Squares(v[..0])) == 0.0;
    } else if v != [] {
      var n := |v| - 1;
      SquareOfSum(v[..n]);
      SquaresSnoc(v);
      CauchyNext(Sum(v[..n]), Sum(Squares(v[..n])), v[n], n);
    }
  }

  // ---- Concentration figures --------------------------------------------

  /** The peak fraction and the effective number of pixels. */
  datatype Figures = Figures(peak: real, effective: real)

  const THRESHOLD := 0.000000000001

  /** From the sum, the sum of squares and the largest value; nothing below the threshold. */
  function FiguresFrom(s: real, q: real, m: real): Option<Figures>
  {
    if s <= THRESHOLD || q <= 0.0 then None else Some(Figures(m / s, s * s / q))
  }

  function FiguresOf(v: seq<real>): Option<Figures>
  {
    if v == [] then None else FiguresFrom(Sum(v), Sum(Squares(v)), Max(v))
  }

  lemma {:induction false} SomePositive(v: seq<real>) returns (i: nat)
    requires Sum(v) > 0.0
    ensures i < |v| && v[i] > 0.0
  {
    var n := |v| - 1;
    if v[n] > 0.0 {
      i := n;
    } else {
      i := SomePositive(v[..n]);
    }
  }

  lemma SquaresPositive(v: seq<real>)
    requires Sum(v) > 0.0
    ensures Sum(Squares(v)) > 0.0
  {
    var i := SomePositive(v);
    ProductPositive(v[i], v[i], Squares(v)[i]);
    SquaresNonNegative(v);
    PartOfSum(Squares(v), i);
  }

  lemma SquaresNonNegative(v: seq<real>)
    ensures NonNegative(Squares(v))
  {
    forall i | 0 <= i < |v| ensures Squares(v)[i] >= 0.0 { assert v[i] * v[i] >= 0.0; }
  }

  lemma EffectiveBounds(s: real, q: real, n: real)
    requires s > 0.0 && q > 0.0 && q <= s * s <= n * q
    ensures 1.0 <= s * s / q <= n
  {
    var e := s * s / q;
    assert e * q == s * s;
    if e < 1.0 { MulMonotone(e, 1.0, q); }
    if e > n { MulMonotone(n, e, q); }
  }

  lemma PeakTimesEffective(s: real, q: real, m: real)
    requires s > 0.0 && q > 0.0 && q <= m * s
    ensures (m / s) * (s * s / q) >= 1.0
  {
    var e, k := s * s / q, m / s;
    assert e * q == s * s && k * s == m;
    assert (k * e) * q == k * (s * s) == (k * s) * s;
    if k * e < 1.0 { MulMonotone(k * e, 1.0, q); }
  }

  lemma PeakFraction(m: real, s: real, q: real)
    requires s > 0.0 && m <= s && 0.0 < q <= m * s
    ensures 0.0 < m / s <= 1.0
  {
    var k := m / s;
    assert k * s == m;
    NegativeProduct(s, m);
    if k > 1.0 { MulMonotone(1.0, k, s); }
    if k <= 0.0 { MulMonotone(k, 0.0, s); }
  }

  // The three relations between the sum, the squares and the largest value, named so that they travel whole.
  predicate BelowProduct(q: real, m: real, s: real) { q <= m * s }

  predicate BelowScaledSquares(s: real, q: real, n: nat) { s * s <= n as real * q }

  lemma SquaresBelowMax(v: seq<real>)
    requires v != [] && NonNegative(v)
    ensures BelowProduct(Sum(Squares(v)), Max(v), Sum(v))
  {
    forall i | 0 <= i < |v| ensures v[i] <= Max(v) { MaxBounds(v, i); }
    SquaresBelow(v, Max(v));
  }

  lemma SquaresBelowSum(v: seq<real>)
    requires NonNegative(v)
    ensures BelowProduct(Sum(Squares(v)), Sum(v), Sum(v))
  {
    forall i | 0 <= i < |v| ensures v[i] <= Sum(v) { PartOfSum(v, i); }
    SquaresBelow(v, Sum(v));
  }

  lemma MaxBelowSum(v: seq<real>)
    requires v != [] && NonNegative(v)
    ensures Max(v) <= Sum(v)
  {
    MaxIsOne(v);
    var i :| 0 <= i < |v| && v[i] == Max(v);
    PartOfSum(v, i);
  }

  predicate InRange(f: Figures, pixels: nat)
  {
    1.0 <= f.effective <= pixels as real && f.peak * f.effective >= 1.0 && 0.0 < f.peak <= 1.0
  }

  /** How the sum, the squares and the largest of `n` non-negative values are related. */
  predicate Related(s: real, q: real, m: real, n: nat)
  {
    s > THRESHOLD && q > 0.0 && m <= s && BelowProduct(q, s, s) && BelowProduct(q, m, s) && BelowScaledSquares(s, q, n)
  }

  lemma MapIsRelated(v: seq<real>)
    requires v != [] && NonNegative(v) && Sum(v) > THRESHOLD
    ensures Related(Sum(v), Sum(Squares(v)), Max(v), |v|)
  {
    SquaresPositive(v);
    SquaresBelowSum(v);
    SquareOfSum(v);
    SquaresBelowMax(v);
    MaxBelowSum(v);
  }

  lemma RelatedInRange(s: real, q: real, m: real, n: nat)
    requires Related(s, q, m, n)
    ensures FiguresFrom(s, q, m).Some? && InRange(FiguresFrom(s, q, m).value, n)
  {
    EffectiveBounds(s, q, n as real);
    PeakTimesEffective(s, q, m);
    PeakFraction(m, s, q);
  }

  /**
   For every non-negative map above the threshold: the effective pixels lie between one and the number of
   pixels, the peak fraction is at most one, and peak fraction times effective pixels is at least one.
   */
  lemma FiguresInRange(v: seq<real>)
    requires v != [] && NonNegative(v) && Sum(v) > THRESHOLD
    ensures FiguresOf(v).Some? && InRange(FiguresOf(v).value, |v|)
  {
    MapIsRelated(v);
    RelatedInRange(Sum(v), Sum(Squares(v)), Max(v), |v|);
  }

  lemma {:induction false} MaxIsOne(v: seq<real>)
    requires v != []
    ensures Max(v) in v
  {
    if |v| > 1 { MaxIsOne(v[..|v| - 1]); }
  }

  // ---- Centroid ---------------------------------------------------------

  function Weighted(w: int -> int, v: seq<real>): real
  {
    if v == [] then 0.0 else Weighted(w, v[..|v| - 1]) + w(|v| - 1) as real * v[|v| - 1]
  }

  /** The mean of a coordinate, weighted by the map. */
  function Centroid(w: int -> int, v: seq<real>): real
    requires Sum(v) > THRESHOLD
  {
    Weighted(w, v) / Sum(v)
  }

  predicate Within(total: real, low: nat, high: nat, s: real) { low as real * s <= total <= high as real * s }

  lemma WithinStep(total: real, low: nat, high: nat, s: real, w: int, x: real)
    requires Within(total, low, high, s) && (low <= w <= high || x == 0.0) && x >= 0.0
    ensures Within(total + w as real * x, low, high, s + x)
  {
    assert low as real * x <= w as real * x <= high as real * x;
    assert high as real * (s + x) == high as real * s + high as real * x;
    assert low as real * (s + x) == low as real * s + low as real * x;
  }

  lemma {:induction false} WeightedBounds(w: int -> int, v: seq<real>, low: nat, high: nat)
    requires NonNegative(v) && forall i :: 0 <= i < |v| ==> low <= w(i) <= high || v[i] == 0.0
    ensures Within(Weighted(w, v), low, high, Sum(v))
  {
    if v != [] {
      var n := |v| - 1;
      WeightedBounds(w, v[..n], low, high);
      WithinStep(Weighted(w, v[..n]), low, high, Sum(v[..n]), w(n), v[n]);
    }
  }

  function RowOf(cols: nat): int -> int
    requires cols > 0
  {
    (i: int) => i / cols
  }

  function ColOf(cols: nat): int -> int
    requires cols > 0
  {
    (i: int) => i % cols
  }

  lemma AverageInRange(total: real, s: real, low: nat, high: nat)
    requires s > 0.0 && Within(total, low, high, s)
    ensures low as real <= total / s <= high as real
  {
    var c := total / s;
    assert c * s == total;
    if c < low as real { MulMonotone(c, low as real, s); }
    if c > high as real { MulMonotone(high as real, c, s); }
  }

  /** The centroid lies between the coordinates of the pixels that weigh anything. */
  lemma CentroidBetween(w: int -> int, v: seq<real>, low: nat, high: nat)
    requires NonNegative(v) && Sum(v) > THRESHOLD
    requires forall i :: 0 <= i < |v| ==> low <= w(i) <= high || v[i] == 0.0
    ensures low as real <= Centroid(w, v) <= high as real
  {
    WeightedBounds(w, v, low, high);
    AverageInRange(Weighted(w, v), Sum(v), low, high);
  }

  lemma Rows(a: nat, b: nat, cols: nat)
    requires a <= b
    ensures a * cols <= b * cols
  {}

  lemma RowInGrid(i: int, rows: nat, cols: nat)
    requires cols > 0 && 0 <= i < rows * cols
    ensures 0 <= i / cols <= rows - 1
  {
    var r := i / cols;
    if r >= rows { Rows(rows, r, cols); }
  }

  /** The deficit centroid lies inside the grid. */
  lemma CentroidInGrid(v: seq<real>, rows: nat, cols: nat)
    requires rows > 0 && cols > 0 && |v| == rows * cols && NonNegative(v) && Sum(v) > THRESHOLD
    ensures 0.0 <= Centroid(RowOf(cols), v) <= (rows - 1) as real
    ensures 0.0 <= Centroid(ColOf(cols), v) <= (cols - 1) as real
  {
    forall i | 0 <= i < |v|
      ensures 0 <= RowOf(cols)(i) <= rows - 1 && 0 <= ColOf(cols)(i) <= cols - 1
    {
      RowInGrid(i, rows, cols);
    }
    CentroidBetween(RowOf(cols), v, 0, rows - 1);
    CentroidBetween(ColOf(cols), v, 0, cols - 1);
  }

  // ---- Per-pixel statistics, block by block -----------------------------

  predicate RealLeq(a: real, b: real) { a <= b }

  /** The middle value, or the mean of the two middle ones. */
  function Median(s: seq<real>): real
    requires s != []
  {
    var t := Sort(RealLeq, s);
    if |t| % 2 == 1 then t[|t| / 2] else (t[|t| / 2 - 1] + t[|t| / 2]) / 2.0
  }

  lemma MedianNonNegative(s: seq<real>)
    requires s != [] && NonNegative(s)
    ensures Median(s) >= 0.0
  {
    var t := Sort(RealLeq, s);
    forall i | 0 <= i < |t| ensures t[i] >= 0.0 { SameElements(t, s, t[i]); }
  }

  function Deviations(s: seq<real>, m: real): seq<real> { seq(|s|, i requires 0 <= i < |s| => Abs(s[i] - m)) }

  /** The median absolute deviation of a pixel's light curve. */
  function Mad(column: seq<real>): real
  {
    if column == [] then 0.0 else Median(Deviations(column, Median(column)))
  }

  lemma MadNonNegative(column: seq<real>)
    ensures Mad(column) >= 0.0
  {
    if column != [] { MedianNonNegative(Deviations(column, Median(column))); }
  }

  /** Fill an array of results block by block: the same as one pass over all items. */
  method BlockedMap<T>(statistic: T -> real, items: seq<T>, block: nat) returns (results: array<real>)
    requires block > 0
    ensures results[..] == Map(statistic, items)
  {
    results := new real[|items|];
    var start := 0;
    while start < |items|
      invariant start <= |items| == results.Length
      invariant forall i :: 0 <= i < start ==> results[i] == statistic(items[i])
    {
      var stop := if start + block < |items| then start + block else |items|;
      for i := start to stop
        invariant forall j :: 0 <= j < i ==> results[j] == statistic(items[j])
      {
        results[i] := statistic(items[i]);
      }
      start := stop;
    }
  }

  const PIXEL_BLOCK := 512

  /** The variability of a cube, given as one light curve per pixel. */
  method Variability(columns: seq<seq<real>>) returns (mads: seq<real>, figures: Option<Figures>)
    requires columns != []
    ensures mads == Map(Mad, columns) && figures == FiguresOf(mads)
    ensures figures.Some? <==> Sum(mads) > THRESHOLD
    ensures figures.Some? ==> InRange(figures.value, |columns|)
  {
    var results := BlockedMap(Mad, columns, PIXEL_BLOCK);
    mads := results[..];
    forall i | 0 <= i < |mads| ensures mads[i] >= 0.0 { MadNonNegative(columns[i]); }
    figures := FiguresOf(mads);
    if Sum(mads) > THRESHOLD { FiguresInRange(mads); }
  }

  // ---- The summed flux --------------------------------------------------

  const CADENCE_BLOCK := 256

  /** The flux of all pixels at one cadence. */
  function FluxAt(columns: seq<seq<real>>): nat -> real
  {
    (c: nat) => Sum(Map((column: seq<real>) => if c < |column| then column[c] else 0.0, columns))
  }

  function Cadences(n: nat): seq<nat> { seq(n, i => i) }

  /** A value between the order statistics around a rank, by linear interpolation. */
  function AtRank(t: seq<real>, rank: real): real
    requires t != [] && 0.0 <= rank <= (|t| - 1) as real
  {
    var lo := rank.Floor;
    if lo >= |t| - 1 then t[|t| - 1] else t[lo] + (t[lo + 1] - t[lo]) * (rank - lo as real)
  }

  function RankOf(n: nat, percent: nat): real { percent as real * (n - 1) as real / 100.0 }

  lemma RankInRange(n: nat, percent: nat)
    requires n > 0 && percent <= 100
    ensures 0.0 <= RankOf(n, percent) <= (n - 1) as real
  {
    ScalePercent(percent as real, (n - 1) as real);
  }

  lemma ScalePercent(p: real, m: real)
    requires 0.0 <= p <= 100.0 && m >= 0.0
    ensures 0.0 <= p * m / 100.0 <= m
  {
    if m > 0.0 { MulMonotone(0.0, p, m); MulMonotone(p, 100.0, m); }
  }

  function Percentile(s: seq<real>, percent: nat): real
    requires s != [] && percent <= 100
  {
    RankInRange(|s|, percent);
    AtRank(Sort(RealLeq, s), RankOf(|s|, percent))
  }

  lemma Fraction(d: real, f: real, g: real)
    requires d >= 0.0 && 0.0 <= f <= g <= 1.0
    ensures 0.0 <= d * f <= d * g <= d
  {
    if d > 0.0 { MulMonotone(0.0, f, d); MulMonotone(f, g, d); MulMonotone(g, 1.0, d); }
  }

  /** Interpolation stays between the two neighbours. */
  lemma BetweenNeighbours(t: seq<real>, rank: real)
    requires t != [] && Sorted(RealLeq, t) && 0.0 <= rank <= (|t| - 1) as real
    ensures var lo := rank.Floor;
      && 0 <= lo <= |t| - 1 && t[lo] <= AtRank(t, rank)
      && (lo < |t| - 1 ==> AtRank(t, rank) <= t[lo + 1]) && (lo == |t| - 1 ==> AtRank(t, rank) == t[lo])
  {
    var lo := rank.Floor;
    if lo < |t| - 1 {
      assert RealLeq(t[lo], t[lo + 1]);
      Fraction(t[lo + 1] - t[lo], rank - lo as real, 1.0);
    }
  }

  /** A higher rank has no lower value. */
  lemma RanksMonotone(t: seq<real>, a: real, b: real)
    requires t != [] && Sorted(RealLeq, t) && 0.0 <= a <= b <= (|t| - 1) as real
    ensures AtRank(t, a) <= AtRank(t, b)
  {
    BetweenNeighbours(t, a);
    BetweenNeighbours(t, b);
    var i, j := a.Floor, b.Floor;
    assert i <= j;
    if i == j {
      if i < |t| - 1 {
        assert RealLeq(t[i], t[i + 1]);
        Fraction(t[i + 1] - t[i], a - i as real, b - i as real);
      }
    } else {
      assert i + 1 == j || RealLeq(t[i + 1], t[j]);
    }
  }

  lemma RealLeqIsOrder()
    ensures TotalPreorder(RealLeq)
  {}

  /** Percentiles do not fall as the percentage rises. */
  lemma PercentilesMonotone(s: seq<real>, p: nat, q: nat)
    requires s != [] && p <= q <= 100
    ensures Percentile(s, p) <= Percentile(s, q)
  {
    RankInRange(|s|, p);
    RankInRange(|s|, q);
    RealLeqIsOrder();
    SortSorts(RealLeq, s);
    RanksOrdered(|s|, p, q);
    RanksMonotone(Sort(RealLeq, s), RankOf(|s|, p), RankOf(|s|, q));
  }

  lemma RanksOrdered(n: nat, p: nat, q: nat)
    requires n > 0 && p <= q
    ensures RankOf(n, p) <= RankOf(n, q)
  {
    if n > 1 { MulMonotone(p as real, q as real, (n - 1) as real); }
  }

  lemma HalfRank(n: nat)
    requires n > 0
    ensures RankOf(n, 50) == if n % 2 == 1 then (n / 2) as real else (n / 2) as real - 0.5
  {
    assert n == 2 * (n / 2) + n % 2;
  }

  lemma AtHalf(t: seq<real>, rank: real)
    requires t != [] && 0.0 <= rank <= (|t| - 1) as real
    requires rank == if |t| % 2 == 1 then (|t| / 2) as real else (|t| / 2) as real - 0.5
    ensures AtRank(t, rank) == if |t| % 2 == 1 then t[|t| / 2] else (t[|t| / 2 - 1] + t[|t| / 2]) / 2.0
  {
    var half := |t| / 2;
    if |t| % 2 == 1 {
      assert rank.Floor == half;
    } else {
      assert rank.Floor == half - 1;
    }
  }

  /** The median is the fiftieth percentile. */
  lemma MedianIsPercentile(s: seq<real>)
    requires s != []
    ensures Median(s) == Percentile(s, 50)
  {
    RankInRange(|s|, 50);
    HalfRank(|s|);
    AtHalf(Sort(RealLeq, s), RankOf(|s|, 50));
  }

  function SquaredDeviation(mean: real): real -> real { (x: real) => (x - mean) * (x - mean) }

  /** The population variance, the square of the standard deviation. */
  function Variance(s: seq<real>): real
    requires s != []
  {
    var mean := Sum(s) / |s| as real;
    Sum(Map(SquaredDeviation(mean), s)) / |s| as real
  }

  lemma VarianceNonNegative(s: seq<real>)
    requires s != []
    ensures Variance(s) >= 0.0
  {
    var squares := Map(SquaredDeviation(Sum(s) / |s| as real), s);
    forall i | 0 <= i < |squares| ensures squares[i] >= 0.0 { SquareNonNegative(s[i] - Sum(s) / |s| as real); }
    SumNonNegative(squares);
  }

  lemma SquareNonNegative(x: real)
    ensures x * x >= 0.0
  {
    if x < 0.0 { MulMonotone(0.0, -x, -x); assert x * x == (-x) * (-x); }
  }

  /** The spread of the summed flux; the standard deviation is the root of the variance. */
  datatype Spread = Spread(variance: real, mad: real, p05: real, p95: real)

  predicate SpreadOk(flux: seq<real>, x: Spread)
    requires flux != []
  {
    && x.variance == Variance(flux) && x.variance >= 0.0 && x.mad == Mad(flux) && x.mad >= 0.0
    && x.p05 == Percentile(flux, 5) && x.p95 == Percentile(flux, 95) && x.p05 <= Median(flux) <= x.p95
  }

  /** Sum the pixels cadence by cadence, block by block, and describe the spread. */
  method SummedFlux(columns: seq<seq<real>>, cadences: nat) returns (flux: seq<real>, x: Spread)
    requires cadences > 0
    ensures flux == Map(FluxAt(columns), Cadences(cadences)) && SpreadOk(flux, x)
  {
    var results := BlockedMap(FluxAt(columns), Cadences(cadences), CADENCE_BLOCK);
    flux := results[..];
    VarianceNonNegative(flux);
    MadNonNegative(flux);
    MedianIsPercentile(flux);
    PercentilesMonotone(flux, 5, 50);
    PercentilesMonotone(flux, 50, 95);
    x := Spread(Variance(flux), Mad(flux), Percentile(flux, 5), Percentile(flux, 95));
  }

  // ---- The transit deficit ----------------------------------------------

  /** The positive part of the dimming between the two median images. */
  function Deficit(outside: seq<real>, inside: seq<real>): seq<real>
    requires |outside| == |inside|
  {
    seq(|outside|, i requires 0 <= i < |outside| =>
      if outside[i] - inside[i] > 0.0 then outside[i] - inside[i] else 0.0)
  }

  function Selected(column: seq<real>, mask: seq<bool>): seq<real>
    requires |column| == |mask|
  {
    if column == [] then []
    else Selected(column[..|column| - 1], mask[..|mask| - 1]) + if mask[|mask| - 1] then [column[|column| - 1]] else []
  }

  function MedianUnder(mask: seq<bool>): seq<real> -> real
  {
    (column: seq<real>) =>
      if |column| == |mask| && Selected(column, mask) != [] then Median(Selected(column, mask)) else 0.0
  }

  /** The transit deficit of a cube: its figures and centroid are in range whenever they are reported. */
  method TransitDeficit(columns: seq<seq<real>>, rows: nat, cols: nat, inMask: seq<bool>, outMask: seq<bool>)
    returns (deficit: seq<real>, figures: Option<Figures>, row: real, col: real)
    requires rows > 0 && cols > 0 && |columns| == rows * cols
    ensures deficit == Deficit(Map(MedianUnder(outMask), columns), Map(MedianUnder(inMask), columns))
    ensures figures.Some? <==> Sum(deficit) > THRESHOLD
    ensures figures == FiguresOf(deficit) && (figures.Some? ==> InRange(figures.value, rows * cols))
    ensures figures.Some? ==> row == Centroid(RowOf(cols), deficit) && 0.0 <= row <= (rows - 1) as real
    ensures figures.Some? ==> col == Centroid(ColOf(cols), deficit) && 0.0 <= col <= (cols - 1) as real
  {
    assert rows * cols > 0;
    var inside := BlockedMap(MedianUnder(inMask), columns, PIXEL_BLOCK);
    var outside := BlockedMap(MedianUnder(outMask), columns, PIXEL_BLOCK);
    deficit := Deficit(outside[..], inside[..]);
    figures, row, col := None, 0.0, 0.0;
    if Sum(deficit) > THRESHOLD {
      FiguresInRange(deficit);
      CentroidInGrid(deficit, rows, cols);
      figures := FiguresOf(deficit);
      row, col := Centroid(RowOf(cols), deficit), Centroid(ColOf(cols), deficit);
    }
  }

  // ---- The whole computation --------------------------------------------

  function Count(mask: seq<bool>): nat
  {
    if mask == [] then 0 else Count(mask[..|mask| - 1]) + if mask[|mask| - 1] then 1 else 0
  }

  const MIN_IN_CADENCES := 3
  const MIN_OUT_CADENCES := 20
  const WINDOW_FACTOR := 1.0
  const GUARD_FACTOR := 2.0

  /** What the fit of the paired light curve says; the sample text is empty when it has none. */
  datatype Fit = Fit(sample: string, available: bool, period: Option<real>, duration: Option<real>,
                     transitTime: Option<real>)

  /** `value or default`: zero counts as absent. */
  function Or(value: Option<real>, default_: real): real
  {
    if value.None? || value.value == 0.0 then default_ else value.value
  }

  /** The target and sector a sample text encodes, in either of the two encodings, if it does. */
  type SampleKey = string -> Option<(int, int)>

  /** Two sample texts describe the same target: equal texts, or the same target under different encodings. */
  predicate SameTarget(key: SampleKey, a: string, b: string) { a == b || (key(a).Some? && key(a) == key(b)) }

  predicate Conflicting(key: SampleKey, sample: string, fit: Fit)
  {
    sample != "" && fit.sample != "" && !SameTarget(key, sample, fit.sample)
  }

  predicate HasEphemeris(fit: Option<Fit>) { fit.Some? && fit.value.available && fit.value.period.Some? }

  datatype Ephemeris = Ephemeris(period: real, duration: real, centre: real)

  /** The ephemeris the masks are built from, with its defaults. */
  function EphemerisOf(fit: Fit, times: seq<real>): Ephemeris
    requires times != [] && fit.period.Some?
  {
    Ephemeris(fit.period.value, Or(fit.duration, 0.1), Or(fit.transitTime, times[0]))
  }

  datatype Masks = Masks(inside: seq<bool>, outside: seq<bool>)

  /** No phase exists for a period of zero, and then no cadence is on either side. */
  function BuildMasks(times: seq<real>, e: Ephemeris): (m: Masks)
    ensures |m.inside| == |times| == |m.outside|
  {
    var window, guard := WINDOW_FACTOR * e.duration / 2.0, GUARD_FACTOR * e.duration / 2.0;
    Masks(seq(|times|, i requires 0 <= i < |times| =>
            e.period != 0.0 && InTransit(times[i], e.period, e.centre, window)),
          seq(|times|, i requires 0 <= i < |times| =>
            e.period != 0.0 && OutOfTransit(times[i], e.period, e.centre, guard)))
  }

  /** No cadence is on both sides. */
  predicate Separate(m: Masks)
    requires |m.inside| == |m.outside|
  {
    forall i :: 0 <= i < |m.inside| ==> !(m.inside[i] && m.outside[i])
  }

  /** A duration of zero is replaced, so the masks of every fit are separate, whatever it says. */
  lemma FitMasksSeparate(fit: Fit, times: seq<real>)
    requires times != [] && fit.period.Some?
    ensures Separate(BuildMasks(times, EphemerisOf(fit, times)))
  {
    var e := EphemerisOf(fit, times);
    if e.period > 0.0 {
      MasksDisjointExactly(e.period, e.centre, WINDOW_FACTOR * e.duration / 2.0, GUARD_FACTOR * e.duration / 2.0);
    }
  }

  lemma {:induction false} SeparateCounts(m: Masks)
    requires |m.inside| == |m.outside| && Separate(m)
    ensures Count(m.inside) + Count(m.outside) <= |m.inside|
    decreases |m.inside|
  {
    if m.inside != [] {
      var n := |m.inside| - 1;
      SeparateCounts(Masks(m.inside[..n], m.outside[..n]));
    }
  }

  /** Why there is no transit evidence, or what it is. */
  datatype Transit =
    | NoPairedLightCurve
    | NoEphemeris
    | PairingConflict
    | TooFewCadences(inside: nat, outside: nat)
    | Measured(inside: nat, outside: nat, deficit: seq<real>, figures: Option<Figures>, row: real, col: real)

  datatype Vetting = Vetting(mads: seq<real>, variability: Option<Figures>, spread: Spread, transit: Transit)

  datatype CubeError = EmptyInput | WrongShape

  predicate ValidCube(columns: seq<seq<real>>, rows: int, cols: int, cadences: nat)
  {
    && cadences > 0 && rows > 0 && cols > 0 && |columns| == rows * cols
    && forall i :: 0 <= i < |columns| ==> |columns[i]| == cadences
  }

  /** What the transit part reports, outcome by outcome, of a valid cube. */
  ghost predicate TransitReported(times: seq<real>, columns: seq<seq<real>>, rows: int, cols: int, sample: string,
                                  fit: Option<Fit>, key: SampleKey, t: Transit)
    requires times != [] && rows > 0 && cols > 0
  {
    if fit.None? then t == NoPairedLightCurve
    else if !HasEphemeris(fit) then t == NoEphemeris
    else if Conflicting(key, sample, fit.value) then t == PairingConflict
    else MeasuredUnder(columns, rows, cols, BuildMasks(times, EphemerisOf(fit.value, times)), t)
  }

  /** Measured exactly with enough cadences on both sides, and then within range. */
  ghost predicate MeasuredUnder(columns: seq<seq<real>>, rows: int, cols: int, m: Masks, t: Transit)
    requires rows > 0 && cols > 0
  {
    var inside, outside := Count(m.inside), Count(m.outside);
    if inside < 3 || outside < 20 then t == TooFewCadences(inside, outside)
    else
      && t.Measured? && t.inside == inside && t.outside == outside
      && t.deficit == Deficit(Map(MedianUnder(m.outside), columns), Map(MedianUnder(m.inside), columns))
      && t.figures == FiguresOf(t.deficit) && (t.figures.Some? <==> Sum(t.deficit) > 0.000000000001)
      && (t.figures.Some? ==>
            && InRange(t.figures.value, |columns|)
            && t.row == Centroid(RowOf(cols), t.deficit) && 0.0 <= t.row <= (rows - 1) as real
            && t.col == Centroid(ColOf(cols), t.deficit) && 0.0 <= t.col <= (cols - 1) as real)
  }

  /**
   The evidence of one target-pixel cube. A malformed cube is refused; otherwise the outcome is the one the paired
   fit calls for, no cadence counts as both in and out of transit, and every figure reported is in range, whatever
   the pixel values.
   */
  method ComputeFeatures(times: seq<real>, columns: seq<seq<real>>, rows: int, cols: int, sample: string,
                         fit: Option<Fit>, key: SampleKey)
    returns (r: Result<Vetting, CubeError>)
    ensures r.Ok? <==> ValidCube(columns, rows, cols, |times|)
    ensures r.Err? ==> (r.error == EmptyInput <==> times == [] || rows <= 0 || cols <= 0)
    ensures r.Ok? ==>
      r.value.mads == Map(Mad, columns) && (r.value.variability.Some? ==> InRange(r.value.variability.value, |columns|))
    ensures r.Ok? ==> SpreadOk(Map(FluxAt(columns), Cadences(|times|)), r.value.spread)
    ensures r.Ok? ==> TransitReported(times, columns, rows, cols, sample, fit, key, r.value.transit)
    ensures r.Ok? && HasEphemeris(fit) ==> Separate(BuildMasks(times, EphemerisOf(fit.value, times)))
    ensures r.Ok? && r.value.transit.Measured? ==> r.value.transit.inside + r.value.transit.outside <= |times|
  {
    if times == [] || rows <= 0 || cols <= 0 {
      return Err(EmptyInput);
    }
    var pixels := rows * cols;
    PixelsPositive(rows, cols, pixels);
    var shaped := HasShape(columns, pixels, |times|);
    if !shaped {
      return Err(WrongShape);
    }
    var mads, variability := Variability(columns);
    var _, spread := SummedFlux(columns, |times|);
    var transit := TransitEvidence(times, columns, rows, cols, sample, fit, key);
    r := Ok(Vetting(mads, variability, spread, transit));
  }

  method TransitEvidence(times: seq<real>, columns: seq<seq<real>>, rows: int, cols: int, sample: string,
                         fit: Option<Fit>, key: SampleKey)
    returns (t: Transit)
    requires times != [] && rows > 0 && cols > 0 && |columns| == rows * cols
    ensures TransitReported(times, columns, rows, cols, sample, fit, key, t)
    ensures HasEphemeris(fit) ==> Separate(BuildMasks(times, EphemerisOf(fit.value, times)))
    ensures t.Measured? ==> t.inside + t.outside <= |times|
  {
    if fit.None? {
      return NoPairedLightCurve;
    }
    if !fit.value.available || fit.value.period.None? {
      return NoEphemeris;
    }
    FitMasksSeparate(fit.value, times);
    if sample != "" && fit.value.sample != "" && !SameTarget(key, sample, fit.value.sample) {
      return PairingConflict;
    }
    var masks := BuildMasks(times, EphemerisOf(fit.value, times));
    SeparateCounts(masks);
    t := MeasureTransit(columns, rows, cols, masks);
  }

  lemma PixelsPositive(rows: int, cols: int, pixels: int)
    requires rows > 0 && cols > 0 && pixels == rows * cols
    ensures pixels > 0
  {}

  method HasShape(columns: seq<seq<real>>, pixels: nat, cadences: nat) returns (ok: bool)
    ensures ok <==> |columns| == pixels && forall i :: 0 <= i < |columns| ==> |columns[i]| == cadences
  {
    ok := |columns| == pixels;
    for n := 0 to |columns|
      invariant ok <==> |columns| == pixels && forall i :: 0 <= i < n ==> |columns[i]| == cadences
    {
      ok := ok && |columns[n]| == cadences;
    }
  }

  /** The transit part: nothing with too few cadences on either side, else the deficit. */
  method MeasureTransit(columns: seq<seq<real>>, rows: nat, cols: nat, masks: Masks) returns (t: Transit)
    requires rows > 0 && cols > 0 && |columns| == rows * cols
    ensures MeasuredUnder(columns, rows, cols, masks, t)
  {
    var inside, outside := Count(masks.inside), Count(masks.outside);
    if inside < MIN_IN_CADENCES || outside < MIN_OUT_CADENCES {
      return TooFewCadences(inside, outside);
    }
    var deficit, figures, row, col := TransitDeficit(columns, rows, cols, masks.inside, masks.outside);
    t := Measured(inside, outside, deficit, figures, row, col);
  }
}
