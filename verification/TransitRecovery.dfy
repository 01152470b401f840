/**
 What the target-pixel evidence measures, said without the formulas it is computed by: which cadences the
 masks hold, that a box-shaped transit is recovered exactly, and what the statistics mean.
 */
module TransitRecovery {
  import opened Wrappers
  import opened Arithmetic
  import opened Orders
  import opened Sequences
  import opened Evidence

  // ---- The masks --------------------------------------------------------

  /** The time from a cadence to the `n`-th transit centre. */
  function Apart(t: real, period: real, centre: real, n: int): real { Abs(t - (centre + n as real * period)) }

  lemma ModuloWithin(x: real, p: real)
    requires p != 0.0
    ensures p > 0.0 ==> 0.0 <= Modulo(x, p) < p
    ensures p < 0.0 ==> p < Modulo(x, p) <= 0.0
  {
    if p > 0.0 {
      ModuloRange(x, p);
    } else {
      ModuloRange(-x, -p);
      assert (-x) / (-p) == x / p;
    }
  }

  lemma PhaseWithinHalf(t: real, period: real, centre: real)
    requires period != 0.0
    ensures Abs(Phase(t, period, centre)) <= Abs(period) / 2.0
  {
    ModuloWithin(t - centre + period / 2.0, period);
  }

  /** The centre the phase is taken from. */
  function NearestCentre(t: real, period: real, centre: real): int
    requires period != 0.0
  {
    ((t - centre + period / 2.0) / period).Floor
  }

  lemma PhaseIsApart(t: real, period: real, centre: real)
    requires period != 0.0
    ensures Abs(Phase(t, period, centre)) == Apart(t, period, centre, NearestCentre(t, period, centre))
  {}

  lemma WholePeriods(k: int, period: real)
    requires k != 0
    ensures Abs(k as real * period) >= Abs(period)
  {
    if period != 0.0 {
      if k >= 1 {
        MulMonotone(1.0, k as real, Abs(period));
      } else {
        MulMonotone(1.0, -k as real, Abs(period));
      }
    }
  }

  lemma Distribute(a: int, b: int, p: real)
    ensures (a - b) as real * p == a as real * p - b as real * p
  {}

  lemma Farther(x: real, shift: real, width: real)
    requires Abs(x) <= width / 2.0 && Abs(shift) >= width
    ensures Abs(x) <= Abs(x + shift)
  {}

  lemma OthersAreFarther(t: real, period: real, centre: real, m: int, n: int)
    requires Apart(t, period, centre, m) <= Abs(period) / 2.0
    ensures Apart(t, period, centre, m) <= Apart(t, period, centre, n)
  {
    if n != m {
      WholePeriods(m - n, period);
      Distribute(m, n, period);
      Farther(t - (centre + m as real * period), (m - n) as real * period, Abs(period));
    }
  }

  /** No transit centre is nearer than the phase says. */
  lemma PhaseIsNearest(t: real, period: real, centre: real, n: int)
    requires period != 0.0
    ensures Abs(Phase(t, period, centre)) <= Apart(t, period, centre, n)
  {
    PhaseIsApart(t, period, centre);
    PhaseWithinHalf(t, period, centre);
    OthersAreFarther(t, period, centre, NearestCentre(t, period, centre), n);
  }

  /** What a fit is read as: a missing or zero duration is 0.1, a missing or zero time the first cadence. */
  predicate ReadAs(fit: Fit, times: seq<real>, period: real, duration: real, centre: real)
    requires times != []
  {
    && fit.period == Some(period)
    && (if fit.duration.Some? && fit.duration.value != 0.0 then fit.duration == Some(duration) else duration == 0.1)
    && (if fit.transitTime.Some? && fit.transitTime.value != 0.0 then fit.transitTime == Some(centre)
        else centre == times[0])
  }

  /**
   A cadence is inside when some transit centre is within half a duration of it, and outside when every centre is
   at least a whole duration away.
   */
  lemma MasksMean(fit: Fit, times: seq<real>, period: real, duration: real, centre: real, i: nat)
    requires times != [] && i < |times| && ReadAs(fit, times, period, duration, centre) && period != 0.0
    ensures var m := BuildMasks(times, EphemerisOf(fit, times));
      && (m.inside[i] <==> exists n :: Apart(times[i], period, centre, n) <= duration / 2.0)
      && (m.outside[i] <==> forall n :: Apart(times[i], period, centre, n) >= duration)
  {
    var t := times[i];
    PhaseIsApart(t, period, centre);
    forall n ensures Abs(Phase(t, period, centre)) <= Apart(t, period, centre, n) {
      PhaseIsNearest(t, period, centre, n);
    }
  }

  // ---- The pairing check ------------------------------------------------

  /** Describing one target is an equivalence of sample texts: equal texts, and texts read as one target. */
  lemma SameTargetIsEquivalence(key: SampleKey, a: string, b: string, c: string)
    ensures SameTarget(key, a, a) && (SameTarget(key, a, b) ==> SameTarget(key, b, a))
    ensures SameTarget(key, a, b) && SameTarget(key, b, c) ==> SameTarget(key, a, c)
    ensures key(a).Some? ==> (SameTarget(key, a, b) <==> key(b) == key(a))
    ensures key(a).None? ==> (SameTarget(key, a, b) <==> a == b)
  {}

  /** A fit is rejected when both samples are given, differ, and are not read as one target. */
  lemma ConflictMeans(key: SampleKey, sample: string, fit: Fit)
    ensures Conflicting(key, sample, fit) <==>
      && |sample| > 0 && |fit.sample| > 0 && sample != fit.sample
      && (key(sample).None? || key(fit.sample).None? || key(sample).value != key(fit.sample).value)
  {}

  // ---- The median -------------------------------------------------------

  function AtMost(m: real): real -> bool { (x: real) => x <= m }

  function AtLeast(m: real): real -> bool { (x: real) => x >= m }

  /** At least half of the values are at most `m`, and at least half are at least `m`. */
  ghost predicate Halves(s: seq<real>, m: real)
  {
    2 * |Filter(AtMost(m), s)| >= |s| && 2 * |Filter(AtLeast(m), s)| >= |s|
  }

  lemma FilterHead(p: real -> bool, s: seq<real>, n: nat)
    requires n <= |s| && forall i :: 0 <= i < n ==> p(s[i])
    ensures |Filter(p, s)| >= n
  {
    assert s == s[..n] + s[n..];
    FilterConcat(p, s[..n], s[n..]);
    FilterAll(p, s[..n]);
  }

  lemma FilterTail(p: real -> bool, s: seq<real>, n: nat)
    requires n <= |s| && forall i :: n <= i < |s| ==> p(s[i])
    ensures |Filter(p, s)| >= |s| - n
  {
    assert s == s[..n] + s[n..];
    FilterConcat(p, s[..n], s[n..]);
    FilterAll(p, s[n..]);
  }

  lemma MiddleHalves(t: seq<real>, m: real)
    requires t != [] && Sorted(RealLeq, t)
    requires m == if |t| % 2 == 1 then t[|t| / 2] else (t[|t| / 2 - 1] + t[|t| / 2]) / 2.0
    ensures Halves(t, m)
  {
    var h := |t| / 2;
    var upto := if |t| % 2 == 1 then h + 1 else h;
    assert |t| % 2 == 0 ==> RealLeq(t[h - 1], t[h]);
    forall i | 0 <= i < upto ensures AtMost(m)(t[i]) { assert i == upto - 1 || RealLeq(t[i], t[upto - 1]); }
    forall i | h <= i < |t| ensures AtLeast(m)(t[i]) { assert i == h || RealLeq(t[h], t[i]); }
    FilterHead(AtMost(m), t, upto);
    FilterTail(AtLeast(m), t, h);
  }

  /** The median halves the values. */
  lemma MedianHalves(s: seq<real>)
    requires s != []
    ensures Halves(s, Median(s))
  {
    var t := Sort(RealLeq, s);
    RealLeqIsOrder();
    SortSorts(RealLeq, s);
    MiddleHalves(t, Median(s));
    FilterMultiset(AtMost(Median(s)), t, s);
    FilterMultiset(AtLeast(Median(s)), t, s);
  }

  function From(m: real): real -> real { (x: real) => Abs(x - m) }

  lemma DeviationsAre(column: seq<real>, m: real)
    ensures Deviations(column, m) == Map(From(m), column)
  {}

  /** The deviation halves the distances from the median: half the cadences lie within it, half outside. */
  lemma MadHalves(column: seq<real>)
    requires column != []
    ensures Halves(column, Median(column)) && Halves(Map(From(Median(column)), column), Mad(column))
  {
    MedianHalves(column);
    DeviationsAre(column, Median(column));
    MedianHalves(Deviations(column, Median(column)));
  }

  lemma MedianOfConstant(s: seq<real>, x: real)
    requires s != [] && forall i :: 0 <= i < |s| ==> s[i] == x
    ensures Median(s) == x
  {
    var t := Sort(RealLeq, s);
    forall i | 0 <= i < |t| ensures t[i] == x { SameElements(t, s, t[i]); }
  }

  // ---- The spread of the flux -------------------------------------------

  /** Of `n` values: the sum of their squared deviations from a mean, their sum and that of their squares. */
  type Moments = (real, real, real, nat) -> bool

  function ExpandedAbout(mean: real): Moments
  {
    (deviations: real, total: real, squares: real, n: nat) =>
      deviations == squares - 2.0 * mean * total + n as real * (mean * mean)
  }

  lemma ExpandedStep(mean: real, deviations: real, total: real, squares: real, n: nat, x: real)
    requires ExpandedAbout(mean)(deviations, total, squares, n)
    ensures ExpandedAbout(mean)(deviations + SquaredDeviation(mean)(x), total + x, squares + Square(x), n + 1)
  {}

  lemma SumOfMapped<T>(f: T -> real, s: seq<T>)
    requires s != []
    ensures Sum(Map(f, s)) == Sum(Map(f, s[..|s| - 1])) + f(s[|s| - 1])
  {
    var n := |s| - 1;
    assert s[..n + 1] == s;
    MapSnoc(f, s, n);
    SumSnoc(Map(f, s[..n]), f(s[n]));
  }

  ghost predicate Carries(law: Moments, f: real -> real)
  {
    forall d: real, t: real, q: real, n: nat, x: real :: law(d, t, q, n) ==> law(d + f(x), t + x, q + Square(x), n + 1)
  }

  /** The moments are kept by every further value, so all values have them. */
  lemma {:induction false} MomentsOf(law: Moments, f: real -> real, s: seq<real>)
    requires law(0.0, 0.0, 0.0, 0) && Carries(law, f)
    ensures law(Sum(Map(f, s)), Sum(s), Sum(Squares(s)), |s|)
  {
    if s != [] {
      var n := |s| - 1;
      MomentsOf(law, f, s[..n]);
      SumOfMapped(f, s);
      SumOfMapped(Square, s);
      assert law(Sum(Map(f, s[..n])) + f(s[n]), Sum(s[..n]) + s[n], Sum(Squares(s[..n])) + Square(s[n]), n + 1);
    }
  }

  lemma DeviationsCarry(mean: real)
    ensures Carries(ExpandedAbout(mean), SquaredDeviation(mean)) && ExpandedAbout(mean)(0.0, 0.0, 0.0, 0)
  {
    forall d: real, t: real, q: real, n: nat, x: real | ExpandedAbout(mean)(d, t, q, n)
      ensures ExpandedAbout(mean)(d + SquaredDeviation(mean)(x), t + x, q + Square(x), n + 1)
    {
      ExpandedStep(mean, d, t, q, n, x);
    }
  }

  lemma SumOfDeviations(s: seq<real>, mean: real)
    ensures ExpandedAbout(mean)(Sum(Map(SquaredDeviation(mean), s)), Sum(s), Sum(Squares(s)), |s|)
  {
    DeviationsCarry(mean);
    MomentsOf(ExpandedAbout(mean), SquaredDeviation(mean), s);
  }

  /** The mean of the squares less the square of the mean. */
  lemma VarianceMeans(s: seq<real>)
    requires s != []
    ensures MeanSquares(Variance(s), Sum(s), Sum(Squares(s)), |s|)
  {
    var mean := Sum(s) / |s| as real;
    SumOfDeviations(s, mean);
    Cleared(|s|, Sum(s), Sum(Squares(s)), mean, Sum(Map(SquaredDeviation(mean), s)), Variance(s));
  }

  predicate MeanSquares(variance: real, total: real, squares: real, count: nat)
  {
    var n := count as real; variance * (n * n) == n * squares - total * total
  }

  lemma Cleared(count: nat, total: real, squares: real, mean: real, v: real, variance: real)
    requires count > 0 && mean == total / count as real && variance == v / count as real
    requires ExpandedAbout(mean)(v, total, squares, count)
    ensures MeanSquares(variance, total, squares, count)
  {
    var n := count as real;
    assert mean * n == total && variance * n == v;
    assert n * (mean * mean) == mean * total;
    assert v == squares - mean * total;
    assert variance * (n * n) == v * n;
    assert (mean * total) * n == total * total;
  }

  function AddUp(a: seq<real>, b: seq<real>): seq<real>
    requires |a| == |b|
  {
    seq(|a|, i requires 0 <= i < |a| => a[i] + b[i])
  }

  lemma {:induction false} SumOfSums(a: seq<real>, b: seq<real>)
    requires |a| == |b|
    ensures Sum(AddUp(a, b)) == Sum(a) + Sum(b)
  {
    if a != [] {
      var n := |a| - 1;
      SumOfSums(a[..n], b[..n]);
      assert AddUp(a, b)[..n] == AddUp(a[..n], b[..n]);
    }
  }

  lemma {:induction false} SumOfZeros(v: seq<real>)
    requires forall i :: 0 <= i < |v| ==> v[i] == 0.0
    ensures Sum(v) == 0.0
  {
    if v != [] { SumOfZeros(v[..|v| - 1]); }
  }

  /** Summing the pixels cadence by cadence loses nothing: the flux adds up to all the light curves together. */
  lemma {:induction false} FluxIsConserved(columns: seq<seq<real>>, cadences: nat)
    requires forall i :: 0 <= i < |columns| ==> |columns[i]| == cadences
    ensures Sum(Map(FluxAt(columns), Cadences(cadences))) == Sum(Map(Sum, columns))
  {
    if columns == [] {
      SumOfZeros(Map(FluxAt(columns), Cadences(cadences)));
    } else {
      var n := |columns| - 1;
      FluxIsConserved(columns[..n], cadences);
      SumOfSums(Map(FluxAt(columns[..n]), Cadences(cadences)), columns[n]);
      FluxOfLast(columns, cadences);
      SumOfMapped(Sum, columns);
    }
  }

  lemma FluxOfLast(columns: seq<seq<real>>, cadences: nat)
    requires columns != [] && forall i :: 0 <= i < |columns| ==> |columns[i]| == cadences
    ensures var n := |columns| - 1;
      Map(FluxAt(columns), Cadences(cadences)) == AddUp(Map(FluxAt(columns[..n]), Cadences(cadences)), columns[n])
  {
    forall c: nat | c < cadences
      ensures FluxAt(columns)(c) == FluxAt(columns[..|columns| - 1])(c) + columns[|columns| - 1][c]
    {
      LastPixel(columns, c);
    }
  }

  lemma LastPixel(columns: seq<seq<real>>, c: nat)
    requires columns != [] && forall i :: 0 <= i < |columns| ==> c < |columns[i]|
    ensures FluxAt(columns)(c) == FluxAt(columns[..|columns| - 1])(c) + columns[|columns| - 1][c]
  {
    var n := |columns| - 1;
    var pick := (column: seq<real>) => if c < |column| then column[c] else 0.0;
    assert Map(pick, columns) == Map(pick, columns[..n]) + [columns[n][c]];
    SumSnoc(Map(pick, columns[..n]), columns[n][c]);
  }

  // ---- A box-shaped transit ---------------------------------------------

  lemma {:induction false} SelectedConstant(column: seq<real>, mask: seq<bool>, x: real)
    requires |column| == |mask| && forall t :: 0 <= t < |mask| && mask[t] ==> column[t] == x
    ensures |Selected(column, mask)| == Count(mask)
    ensures forall k :: 0 <= k < |Selected(column, mask)| ==> Selected(column, mask)[k] == x
  {
    if column != [] { SelectedConstant(column[..|column| - 1], mask[..|mask| - 1], x); }
  }

  lemma MedianUnderConstant(column: seq<real>, mask: seq<bool>, x: real)
    requires |column| == |mask| && Count(mask) > 0
    requires forall t :: 0 <= t < |mask| && mask[t] ==> column[t] == x
    ensures MedianUnder(mask)(column) == x
  {
    SelectedConstant(column, mask, x);
    MedianOfConstant(Selected(column, mask), x);
  }

  /** Flat at `flux` out of transit, and lower by `depth` in it; anything at the cadences on neither side. */
  predicate Box(column: seq<real>, m: Masks, flux: real, depth: real)
  {
    && |m.inside| == |m.outside| == |column|
    && (forall t :: 0 <= t < |column| && m.inside[t] ==> column[t] == flux - depth)
    && forall t :: 0 <= t < |column| && m.outside[t] ==> column[t] == flux
  }

  /** The deficit of boxes is their depth where they dim, and nothing where they brighten. */
  lemma BoxIsRecovered(columns: seq<seq<real>>, m: Masks, flux: seq<real>, depth: seq<real>, i: nat)
    requires |columns| == |flux| == |depth| && i < |columns| && Count(m.inside) > 0 && Count(m.outside) > 0
    requires Box(columns[i], m, flux[i], depth[i])
    ensures var d := Deficit(Map(MedianUnder(m.outside), columns), Map(MedianUnder(m.inside), columns));
      d[i] == if depth[i] > 0.0 then depth[i] else 0.0
  {
    MedianUnderConstant(columns[i], m.inside, flux[i] - depth[i]);
    MedianUnderConstant(columns[i], m.outside, flux[i]);
  }

  predicate SpikeAt(v: seq<real>, k: nat) { k < |v| && forall i :: 0 <= i < |v| && i != k ==> v[i] == 0.0 }

  lemma {:induction false} SumOfSpike(v: seq<real>, k: nat)
    requires SpikeAt(v, k)
    ensures Sum(v) == v[k]
  {
    var n := |v| - 1;
    if k == n { SumOfZeros(v[..n]); } else { SumOfSpike(v[..n], k); }
  }

  lemma CentroidOfSpike(w: int -> int, v: seq<real>, k: nat)
    requires SpikeAt(v, k) && v[k] > THRESHOLD && w(k) >= 0
    ensures Sum(v) > THRESHOLD && Centroid(w, v) == w(k) as real
  {
    SumOfSpike(v, k);
    CentroidBetween(w, v, w(k), w(k));
  }

  lemma Quotient(x: real, y: real)
    requires y > 0.0 && x == y
    ensures x / y == 1.0
  {}

  lemma FiguresOfSpike(v: seq<real>, k: nat)
    requires SpikeAt(v, k) && v[k] > THRESHOLD
    ensures FiguresOf(v) == Some(Figures(1.0, 1.0))
  {
    SumOfSpike(v, k);
    SquaresOfSpike(v, k);
    SumOfSpike(Squares(v), k);
    MaxOfSpike(v, k);
    FiguresOfOne(v[k], v[k] * v[k]);
  }

  lemma SquaresOfSpike(v: seq<real>, k: nat)
    requires SpikeAt(v, k)
    ensures SpikeAt(Squares(v), k) && Squares(v)[k] == v[k] * v[k]
  {}

  lemma MaxOfSpike(v: seq<real>, k: nat)
    requires SpikeAt(v, k) && v[k] > 0.0
    ensures Max(v) == v[k]
  {
    MaxBounds(v, k);
    MaxIsOne(v);
  }

  lemma FiguresOfOne(d: real, q: real)
    requires d > THRESHOLD && q == d * d
    ensures FiguresFrom(d, q, d) == Some(Figures(1.0, 1.0))
  {
    ProductPositive(d, d, q);
    Quotient(d, d);
    Quotient(d * d, q);
  }

  /**
   A transit in front of one pixel: whatever the level and drift between the masks of the other pixels, the
   evidence is centred on that pixel, all of it in one pixel.
   */
  lemma OnePixelIsFound(columns: seq<seq<real>>, rows: int, cols: int, m: Masks, t: Transit, flux: seq<real>,
                        depth: seq<real>, k: nat)
    requires rows > 0 && cols > 0 && |columns| == rows * cols == |flux| == |depth| && SpikeAt(depth, k)
    requires depth[k] > 0.000000000001 && Count(m.inside) >= 3 && Count(m.outside) >= 20
    requires forall i :: 0 <= i < |columns| ==> Box(columns[i], m, flux[i], depth[i])
    requires MeasuredUnder(columns, rows, cols, m, t)
    ensures t == Measured(Count(m.inside), Count(m.outside), depth, Some(Figures(1.0, 1.0)),
                          (k / cols) as real, (k % cols) as real)
  {
    BoxesAreRecovered(columns, m, flux, depth);
    FiguresOfSpike(depth, k);
    SpikeIsCentred(depth, cols, k);
  }

  lemma BoxesAreRecovered(columns: seq<seq<real>>, m: Masks, flux: seq<real>, depth: seq<real>)
    requires |columns| == |flux| == |depth| && Count(m.inside) > 0 && Count(m.outside) > 0
    requires NonNegative(depth) && forall i :: 0 <= i < |columns| ==> Box(columns[i], m, flux[i], depth[i])
    ensures Deficit(Map(MedianUnder(m.outside), columns), Map(MedianUnder(m.inside), columns)) == depth
  {
    forall i | 0 <= i < |columns|
      ensures Deficit(Map(MedianUnder(m.outside), columns), Map(MedianUnder(m.inside), columns))[i] == depth[i]
    {
      BoxIsRecovered(columns, m, flux, depth, i);
    }
  }

  lemma SpikeIsCentred(v: seq<real>, cols: nat, k: nat)
    requires SpikeAt(v, k) && v[k] > THRESHOLD && cols > 0
    ensures Sum(v) > THRESHOLD
    ensures Centroid(RowOf(cols), v) == (k / cols) as real && Centroid(ColOf(cols), v) == (k % cols) as real
  {
    QuotientNonNegative(k, cols);
    CentroidOfSpike(RowOf(cols), v, k);
    CentroidOfSpike(ColOf(cols), v, k);
  }

  lemma QuotientNonNegative(k: nat, n: nat)
    requires n > 0
    ensures k / n >= 0 && k % n >= 0
  {}
}
