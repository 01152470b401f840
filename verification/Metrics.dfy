/**
 Validation metrics and early stopping (apps/python-ml-worker/train/loop.py), over
 the reals: the trapezoid ROC-AUC of a ranking and the pairs it counts.
 */
module Metrics {
  import opened Orders
  import opened Sequences

  // ---- Counting ---------------------------------------------------------

  function Positives(s: seq<bool>): nat
  {
    if s == [] then 0 else Positives(s[..|s| - 1]) + if s[|s| - 1] then 1 else 0
  }

  function Negatives(s: seq<bool>): nat
  {
    if s == [] then 0 else Negatives(s[..|s| - 1]) + if s[|s| - 1] then 0 else 1
  }

  /** How many positives precede a negative, counted pair by pair from the end of the ranking. */
  function Pairs(s: seq<bool>): nat
  {
    if s == [] then 0 else Pairs(s[..|s| - 1]) + if s[|s| - 1] then 0 else Positives(s[..|s| - 1])
  }

  /** The pairs themselves: positions of a positive and of a negative ranked after it. */
  function PairSet(s: seq<bool>): set<(int, int)>
  {
    set i: int, j: int | 0 <= i < |s| && 0 <= j < |s| && i < j && s[i] && !s[j] :: (i, j)
  }

  /** The pairs of the positives of `s` with position `n`. */
  function PairedWith(s: seq<bool>, n: int): set<(int, int)> { set i | 0 <= i < |s| && s[i] :: (i, n) }

  lemma {:induction false} PairedWithSize(s: seq<bool>, n: int)
    ensures |PairedWith(s, n)| == Positives(s)
  {
    if s == [] {
      assert PairedWith(s, n) == {};
    } else {
      var m := |s| - 1;
      PairedWithSize(s[..m], n);
      assert PairedWith(s, n) == PairedWith(s[..m], n) + if s[m] then {(m, n)} else {};
    }
  }

  lemma PairSetSnoc(s: seq<bool>, n: nat)
    requires n + 1 == |s|
    ensures var added := if s[n] then {} else PairedWith(s[..n], n);
      PairSet(s) == PairSet(s[..n]) + added && PairSet(s[..n]) !! added
  {
    var added := if s[n] then {} else PairedWith(s[..n], n);
    forall x | x in PairSet(s) ensures x in PairSet(s[..n]) + added {
      if x.1 == n { assert s[..n][x.0]; }
    }
    forall x | x in PairSet(s[..n]) + added ensures x in PairSet(s) {}
  }

  /** The count is the number of pairs. */
  lemma {:induction false} PairsCountPairs(s: seq<bool>)
    ensures Pairs(s) == |PairSet(s)|
  {
    if s == [] {
      assert PairSet(s) == {};
    } else {
      var n := |s| - 1;
      PairsCountPairs(s[..n]);
      PairedWithSize(s[..n], n);
      PairSetSnoc(s, n);
    }
  }

  lemma {:induction false} CountsCons(x: bool, s: seq<bool>)
    ensures Positives([x] + s) == Positives(s) + if x then 1 else 0
    ensures Negatives([x] + s) == Negatives(s) + if x then 0 else 1
    ensures Pairs([x] + s) == Pairs(s) + if x then Negatives(s) else 0
  {
    if s == [] {
      assert [x] + s == [x] && [x][..0] == [];
    } else {
      var n := |s| - 1;
      CountsCons(x, s[..n]);
      assert ([x] + s)[..|s|] == [x] + s[..n] && ([x] + s)[|s|] == s[n];
    }
  }

  function Reversed(s: seq<bool>): (r: seq<bool>)
    ensures |r| == |s|
  {
    if s == [] then [] else [s[|s| - 1]] + Reversed(s[..|s| - 1])
  }

  lemma {:induction false} ReversedAt(s: seq<bool>, i: nat)
    requires i < |s|
    ensures Reversed(s)[i] == s[|s| - 1 - i]
  {
    if i > 0 {
      ReversedAt(s[..|s| - 1], i - 1);
    }
  }

  lemma ProductStep(p: nat, n: nat, positive: bool)
    ensures (p + if positive then 1 else 0) * (n + if positive then 0 else 1) == p * n + if positive then n else p
  {}

  /** A pair is in order in a ranking or in its reverse, never in both. */
  lemma {:induction false} PairsAndReverse(s: seq<bool>)
    ensures Positives(Reversed(s)) == Positives(s) && Negatives(Reversed(s)) == Negatives(s)
    ensures Pairs(s) + Pairs(Reversed(s)) == Positives(s) * Negatives(s)
  {
    if s != [] {
      var n := |s| - 1;
      var before, last := s[..n], s[n];
      PairsAndReverse(before);
      CountsCons(last, Reversed(before));
      ReverseStep(before, last, Positives(before), Negatives(before), Pairs(before), Pairs(Reversed(before)));
      assert Positives(s) == Positives(before) + if last then 1 else 0;
      assert Negatives(s) == Negatives(before) + if last then 0 else 1;
    }
  }

  lemma ReverseStep(before: seq<bool>, last: bool, p: nat, n: nat, forward: nat, backward: nat)
    requires forward + backward == p * n
    ensures (forward + if last then 0 else p) + (backward + if last then n else 0)
      == (p + if last then 1 else 0) * (n + if last then 0 else 1)
  {
    ProductStep(p, n, last);
  }

  // ---- The curve --------------------------------------------------------

  function Rate(count: nat, total: nat): real
    requires total > 0
  {
    count as real / total as real
  }

  function RateOf(total: nat): nat -> real
    requires total > 0
  {
    (count: nat) => Rate(count, total)
  }

  /** The true-positive rates after each prefix of the ranking, and the false-positive ones. */
  function TprCurve(rate: nat -> real, s: seq<bool>): (r: seq<real>)
    ensures |r| == |s| + 1
  {
    (if s == [] then [] else TprCurve(rate, s[..|s| - 1])) + [rate(Positives(s))]
  }

  function FprCurve(rate: nat -> real, s: seq<bool>): (r: seq<real>)
    ensures |r| == |s| + 1
  {
    (if s == [] then [] else FprCurve(rate, s[..|s| - 1])) + [rate(Negatives(s))]
  }

  type Strip = (real, real, real, real) -> real

  /** The area between two points of a curve. */
  function Slab(x0: real, x1: real, y0: real, y1: real): real { (x1 - x0) * (y1 + y0) / 2.0 }

  /** The sum of the strips between neighbouring points. */
  function Integrate(strip: Strip, ys: seq<real>, xs: seq<real>): real
    requires |ys| == |xs| > 0
  {
    if |ys| == 1 then 0.0
    else
      var n := |ys| - 1;
      Integrate(strip, ys[..n], xs[..n]) + strip(xs[n - 1], xs[n], ys[n - 1], ys[n])
  }

  /** `np.trapezoid(ys, xs)` */
  function Trapezoid(ys: seq<real>, xs: seq<real>): real
    requires |ys| == |xs| > 0
  {
    Integrate(Slab, ys, xs)
  }

  lemma TprSnoc(rate: nat -> real, s: seq<bool>, n: nat)
    requires n < |s|
    ensures TprCurve(rate, s[..n + 1]) == TprCurve(rate, s[..n]) + [rate(Positives(s[..n + 1]))]
    ensures TprCurve(rate, s[..n])[n] == rate(Positives(s[..n]))
  {
    assert s[..n + 1][..n] == s[..n];
  }

  lemma FprSnoc(rate: nat -> real, s: seq<bool>, n: nat)
    requires n < |s|
    ensures FprCurve(rate, s[..n + 1]) == FprCurve(rate, s[..n]) + [rate(Negatives(s[..n + 1]))]
    ensures FprCurve(rate, s[..n])[n] == rate(Negatives(s[..n]))
  {
    assert s[..n + 1][..n] == s[..n];
  }

  lemma CountsSnoc(s: seq<bool>, n: nat)
    requires n < |s|
    ensures Positives(s[..n + 1]) == Positives(s[..n]) + if s[n] then 1 else 0
    ensures Negatives(s[..n + 1]) == Negatives(s[..n]) + if s[n] then 0 else 1
    ensures Pairs(s[..n + 1]) == Pairs(s[..n]) + if s[n] then 0 else Positives(s[..n])
  {
    assert s[..n + 1][..n] == s[..n];
  }

  lemma IntegrateSnoc(strip: Strip, ys: seq<real>, xs: seq<real>, y: real, x: real)
    requires |ys| == |xs| > 0
    ensures Integrate(strip, ys + [y], xs + [x]) == Integrate(strip, ys, xs) + strip(xs[|xs| - 1], x, ys[|ys| - 1], y)
  {
    assert (ys + [y])[..|ys|] == ys && (xs + [x])[..|xs|] == xs;
  }

  lemma StripProduct(a: real, x: real, y: real)
    requires x > 0.0 && y > 0.0
    ensures x * y > 0.0 && (1.0 / y) * (a / x) == a / (x * y)
  {
    var q := (1.0 / y) * (a / x);
    assert q * (x * y) == ((1.0 / y) * y) * ((a / x) * x);
    assert (1.0 / y) * y == 1.0 && (a / x) * x == a;
    assert x * y > 0.0;
  }

  /** Between points of equal height a slab is a rectangle. */
  lemma Rectangle(x0: real, x1: real, y: real, w: real)
    requires x1 - x0 == w
    ensures Slab(x0, x1, y, y) == w * y
  {
    assert (x1 - x0) * (y + y) / 2.0 == w * y;
  }

  lemma RateStep(neg: nat, n: nat)
    requires n > 0
    ensures Rate(neg + 1, n) - Rate(neg, n) == 1.0 / n as real
  {}

  /** A negative adds a strip as high as the positives so far. */
  lemma StripArea(pos: nat, neg: nat, p: nat, n: nat)
    requires p > 0 && n > 0
    ensures p as real * n as real > 0.0
    ensures Slab(Rate(neg, n), Rate(neg + 1, n), Rate(pos, p), Rate(pos, p)) == pos as real / (p as real * n as real)
  {
    RateStep(neg, n);
    Rectangle(Rate(neg, n), Rate(neg + 1, n), Rate(pos, p), 1.0 / n as real);
    StripProduct(pos as real, p as real, n as real);
  }

  lemma AddShares(a: nat, b: nat, d: real)
    requires d > 0.0
    ensures a as real / d + b as real / d == (a + b) as real / d
  {}

  function Share(a: nat, p: nat, n: nat): real
    requires p > 0 && n > 0
  {
    var d := p as real * n as real;
    if d > 0.0 then a as real / d else 0.0
  }

  lemma ShareSum(a: nat, b: nat, p: nat, n: nat)
    requires p > 0 && n > 0
    ensures Share(a, p, n) + Share(b, p, n) == Share(a + b, p, n)
  {
    StripProduct(1.0, p as real, n as real);
    AddShares(a, b, p as real * n as real);
  }

  function ShareOf(p: nat, n: nat): nat -> real
    requires p > 0 && n > 0
  {
    (a: nat) => Share(a, p, n)
  }

  /** A positive adds no area; a negative adds a strip worth the positives so far. */
  ghost predicate AddsStrip(strip: Strip, rateP: nat -> real, rateN: nat -> real, share: nat -> real, pos: nat,
                            neg: nat, pairs: nat)
  {
    && share(pairs) + strip(rateN(neg), rateN(neg), rateP(pos), rateP(pos + 1)) == share(pairs)
    && share(pairs) + strip(rateN(neg), rateN(neg + 1), rateP(pos), rateP(pos)) == share(pairs + pos)
  }

  ghost predicate AddsPairs(strip: Strip, rateP: nat -> real, rateN: nat -> real, share: nat -> real)
  {
    share(0) == 0.0 && forall pos: nat, neg: nat, pairs: nat :: AddsStrip(strip, rateP, rateN, share, pos, neg, pairs)
  }

  lemma SlabAddsStrip(p: nat, n: nat, pos: nat, neg: nat, pairs: nat)
    requires p > 0 && n > 0
    ensures AddsStrip(Slab, RateOf(p), RateOf(n), ShareOf(p, n), pos, neg, pairs)
  {
    StripArea(pos, neg, p, n);
    ShareSum(pairs, pos, p, n);
    assert Share(pos, p, n) == pos as real / (p as real * n as real);
    assert Slab(Rate(neg, n), Rate(neg, n), Rate(pos, p), Rate(pos + 1, p)) == 0.0;
  }

  lemma SlabAddsPairs(p: nat, n: nat)
    requires p > 0 && n > 0
    ensures AddsPairs(Slab, RateOf(p), RateOf(n), ShareOf(p, n))
  {
    StripProduct(1.0, p as real, n as real);
    forall pos: nat, neg: nat, pairs: nat
      ensures AddsStrip(Slab, RateOf(p), RateOf(n), ShareOf(p, n), pos, neg, pairs)
    {
      SlabAddsStrip(p, n, pos, neg, pairs);
    }
  }

  function Area(strip: Strip, rateP: nat -> real, rateN: nat -> real, s: seq<bool>): real
  {
    Integrate(strip, TprCurve(rateP, s), FprCurve(rateN, s))
  }

  function AreaOf(strip: Strip, rateP: nat -> real, rateN: nat -> real): seq<bool> -> real
  {
    (s: seq<bool>) => Area(strip, rateP, rateN, s)
  }

  /** The next ranked label adds one strip. */
  ghost predicate AddsNext(area: seq<bool> -> real, strip: Strip, rateP: nat -> real, rateN: nat -> real,
                           s: seq<bool>, n: nat)
    requires n < |s|
  {
    area(s[..n + 1]) == area(s[..n])
      + strip(rateN(Negatives(s[..n])), rateN(Negatives(s[..n + 1])),
              rateP(Positives(s[..n])), rateP(Positives(s[..n + 1])))
  }

  lemma AreaSnoc(strip: Strip, rateP: nat -> real, rateN: nat -> real, s: seq<bool>, n: nat)
    requires n < |s|
    ensures AddsNext(AreaOf(strip, rateP, rateN), strip, rateP, rateN, s, n)
  {
    TprSnoc(rateP, s, n);
    FprSnoc(rateN, s, n);
    IntegrateSnoc(strip, TprCurve(rateP, s[..n]), FprCurve(rateN, s[..n]), rateP(Positives(s[..n + 1])),
                  rateN(Negatives(s[..n + 1])));
  }

  lemma {:induction false} StripsCountPairs(area: seq<bool> -> real, strip: Strip, rateP: nat -> real,
                                            rateN: nat -> real,
                                            share: nat -> real, s: seq<bool>, m: nat)
    requires AddsPairs(strip, rateP, rateN, share) && m <= |s|
    requires area(s[..0]) == 0.0 && forall n :: 0 <= n < |s| ==> AddsNext(area, strip, rateP, rateN, s, n)
    ensures area(s[..m]) == share(Pairs(s[..m]))
    decreases m
  {
    if m > 0 {
      StripsCountPairs(area, strip, rateP, rateN, share, s, m - 1);
      assert AddsNext(area, strip, rateP, rateN, s, m - 1);
      CountsSnoc(s, m - 1);
      assert AddsStrip(strip, rateP, rateN, share, Positives(s[..m - 1]), Negatives(s[..m - 1]), Pairs(s[..m - 1]));
    }
  }

  /** The area under the curve is the share of all pairs that the ranking puts in order. */
  lemma AreaCountsPairs(strip: Strip, rateP: nat -> real, rateN: nat -> real, share: nat -> real, s: seq<bool>)
    requires AddsPairs(strip, rateP, rateN, share)
    ensures Area(strip, rateP, rateN, s) == share(Pairs(s))
  {
    var area := AreaOf(strip, rateP, rateN);
    assert s[..0] == [] && area([]) == 0.0;
    forall n | 0 <= n < |s| ensures AddsNext(area, strip, rateP, rateN, s, n) { AreaSnoc(strip, rateP, rateN, s, n); }
    StripsCountPairs(area, strip, rateP, rateN, share, s, |s|);
    assert s[..|s|] == s;
  }

  /** Build both curves from the ranked labels and integrate; a ranking of one class scores 0.5. */
  method RocAuc(ranked: seq<bool>) returns (auc: real)
    ensures Positives(ranked) == 0 || Negatives(ranked) == 0 ==> auc == 0.5
    ensures Positives(ranked) > 0 && Negatives(ranked) > 0 ==> auc == AucOf(ranked)
  {
    var nPos, nNeg := Positives(ranked), Negatives(ranked);
    if nPos == 0 || nNeg == 0 {
      return 0.5;
    }
    var rateP, rateN := RateOf(nPos), RateOf(nNeg);
    var tpr, fpr := [rateP(0)], [rateN(0)];
    var cumTp: nat, cumFp: nat := 0, 0;
    for n := 0 to |ranked|
      invariant cumTp == Positives(ranked[..n]) && cumFp == Negatives(ranked[..n])
      invariant tpr == TprCurve(rateP, ranked[..n]) && fpr == FprCurve(rateN, ranked[..n])
    {
      TprSnoc(rateP, ranked, n);
      FprSnoc(rateN, ranked, n);
      CountsSnoc(ranked, n);
      if ranked[n] {
        cumTp := cumTp + 1;
      } else {
        cumFp := cumFp + 1;
      }
      tpr := tpr + [rateP(cumTp)];
      fpr := fpr + [rateN(cumFp)];
    }
    assert ranked[..|ranked|] == ranked;
    SlabAddsPairs(nPos, nNeg);
    AreaCountsPairs(Slab, rateP, rateN, ShareOf(nPos, nNeg), ranked);
    auc := Trapezoid(tpr, fpr);
  }

  /** The share of (positive, negative) pairs that the ranking puts in order. */
  function AucOf(ranked: seq<bool>): real
    requires Positives(ranked) > 0 && Negatives(ranked) > 0
  {
    Share(Pairs(ranked), Positives(ranked), Negatives(ranked))
  }

  lemma ShareInUnit(a: nat, b: nat, p: nat, n: nat)
    requires p > 0 && n > 0 && a + b == p * n
    ensures 0.0 <= Share(a, p, n) <= 1.0 && Share(a, p, n) + Share(b, p, n) == 1.0
  {
    StripProduct(1.0, p as real, n as real);
    ShareSum(a, b, p, n);
    assert (p * n) as real == p as real * n as real;
  }

  /** The AUC lies between 0 and 1, and the reversed ranking scores one minus it. */
  lemma AucBoundsAndReversal(ranked: seq<bool>)
    requires Positives(ranked) > 0 && Negatives(ranked) > 0
    ensures 0.0 <= AucOf(ranked) <= 1.0
    ensures Positives(Reversed(ranked)) == Positives(ranked) && Negatives(Reversed(ranked)) == Negatives(ranked)
    ensures AucOf(Reversed(ranked)) == 1.0 - AucOf(ranked)
  {
    PairsAndReverse(ranked);
    ShareInUnit(Pairs(ranked), Pairs(Reversed(ranked)), Positives(ranked), Negatives(ranked));
  }

  // ---- Ranking by score -------------------------------------------------

  datatype Scored = Scored(positive: bool, score: real)

  predicate ByScore(a: Scored, b: Scored) { a.score >= b.score }

  function LabelOf(x: Scored): bool { x.positive }

  /** How a negative's score compares with a positive's. */
  datatype Standing = Below | Level | NotAbove

  predicate Stands(r: Standing, negative: real, positive: real)
  {
    match r
    case Below => negative < positive
    case Level => negative == positive
    case NotAbove => negative <= positive
  }

  function Counted(r: Standing, score: real): Scored -> nat
  {
    (x: Scored) => if !x.positive && Stands(r, x.score, score) then 1 else 0
  }

  /** How many negatives of `rows` compare so with a row: none unless it is positive. */
  function CountedIn(r: Standing, rows: seq<Scored>): Scored -> nat
  {
    (x: Scored) => if x.positive then Total(Counted(r, x.score), rows) else 0
  }

  /** The (positive, negative) pairs of two listings in which the scores compare so. */
  function Between(r: Standing, a: seq<Scored>, b: seq<Scored>): nat { Total(CountedIn(r, b), a) }

  /** The pairs in which the positive scores higher, and those in which the scores are equal. */
  function Wins(rows: seq<Scored>): nat { Between(Below, rows, rows) }
  function Ties(rows: seq<Scored>): nat { Between(Level, rows, rows) }

  /** Whatever the order of the rows, the same pairs are counted. */
  lemma BetweenIgnoresOrder(r: Standing, a: seq<Scored>, b: seq<Scored>)
    requires multiset(a) == multiset(b)
    ensures Between(r, a, a) == Between(r, b, b)
  {
    forall i | 0 <= i < |a| ensures CountedIn(r, a)(a[i]) == CountedIn(r, b)(a[i]) {
      TotalPermute(Counted(r, a[i].score), a, b);
    }
    TotalAgree(CountedIn(r, a), CountedIn(r, b), a);
    TotalPermute(CountedIn(r, b), a, b);
  }

  lemma {:induction false} CountedSplits(score: real, rows: seq<Scored>)
    ensures Total(Counted(NotAbove, score), rows)
      == Total(Counted(Below, score), rows) + Total(Counted(Level, score), rows)
  {
    if rows != [] {
      CountedSplits(score, rows[..|rows| - 1]);
    }
  }

  /** Scoring no higher means scoring lower or equal. */
  lemma {:induction false} BetweenSplits(a: seq<Scored>, b: seq<Scored>)
    ensures Between(NotAbove, a, b) == Between(Below, a, b) + Between(Level, a, b)
  {
    if a != [] {
      BetweenSplits(a[..|a| - 1], b);
      CountedSplits(a[|a| - 1].score, b);
    }
  }

  /** Scores never rise along the ranking. */
  predicate Descending(rows: seq<Scored>)
  {
    forall i, j :: 0 <= i < j < |rows| ==> rows[i].score >= rows[j].score
  }

  lemma {:induction false} NoneBelow(rows: seq<Scored>, x: Scored)
    requires forall i :: 0 <= i < |rows| ==> rows[i].score >= x.score
    ensures Total(Counted(Below, x.score), rows) == 0
  {
    if rows != [] {
      NoneBelow(rows[..|rows| - 1], x);
    }
  }

  /** A negative scoring no higher than any row adds at most one win for each positive, and exactly one with ties. */
  lemma {:induction false} LowestNegative(a: seq<Scored>, rows: seq<Scored>, x: Scored)
    requires !x.positive && forall i :: 0 <= i < |a| ==> a[i].score >= x.score
    ensures Between(Below, a, rows + [x]) <= Between(Below, a, rows) + Positives(Map(LabelOf, a))
    ensures Between(NotAbove, a, rows + [x]) == Between(NotAbove, a, rows) + Positives(Map(LabelOf, a))
  {
    if a != [] {
      var n := |a| - 1;
      LowestNegative(a[..n], rows, x);
      TotalSnoc(Counted(Below, a[n].score), rows, x);
      TotalSnoc(Counted(NotAbove, a[n].score), rows, x);
      assert Map(LabelOf, a)[..n] == Map(LabelOf, a[..n]);
    }
  }

  lemma {:induction false} AddPositive(r: Standing, a: seq<Scored>, rows: seq<Scored>, x: Scored)
    requires x.positive
    ensures Between(r, a, rows + [x]) == Between(r, a, rows)
  {
    if a != [] {
      var n := |a| - 1;
      AddPositive(r, a[..n], rows, x);
      TotalSnoc(Counted(r, a[n].score), rows, x);
    }
  }

  lemma AppendRow(r: Standing, before: seq<Scored>, x: Scored)
    ensures Between(r, before + [x], before + [x])
      == Between(r, before, before + [x]) + if x.positive then Total(Counted(r, x.score), before) else 0
  {
    TotalSnoc(CountedIn(r, before + [x]), before, x);
    TotalSnoc(Counted(r, x.score), before, x);
  }

  /** Appending the lowest row adds at most its wins and at least them with ties. */
  lemma AppendLowest(before: seq<Scored>, x: Scored)
    requires forall i :: 0 <= i < |before| ==> before[i].score >= x.score
    ensures var more := if x.positive then 0 else Positives(Map(LabelOf, before));
      && Between(Below, before + [x], before + [x]) <= Between(Below, before, before) + more
      && Between(NotAbove, before + [x], before + [x]) >= Between(NotAbove, before, before) + more
  {
    AppendRow(Below, before, x);
    AppendRow(NotAbove, before, x);
    NoneBelow(before, x);
    if x.positive {
      AddPositive(Below, before, before, x);
      AddPositive(NotAbove, before, before, x);
    } else {
      LowestNegative(before, before, x);
    }
  }

  lemma PairsSnoc(before: seq<Scored>, x: Scored)
    ensures Pairs(Map(LabelOf, before + [x]))
      == Pairs(Map(LabelOf, before)) + if x.positive then 0 else Positives(Map(LabelOf, before))
  {
    assert Map(LabelOf, before + [x])[..|before|] == Map(LabelOf, before);
  }

  /** Along a ranking, a positive precedes a negative if it scores higher, and only if it scores no lower. */
  lemma {:induction false} PairsAlongRanking(rows: seq<Scored>)
    requires Descending(rows)
    ensures Between(Below, rows, rows) <= Pairs(Map(LabelOf, rows)) <= Between(NotAbove, rows, rows)
  {
    if rows != [] {
      var n := |rows| - 1;
      PairsAlongRanking(rows[..n]);
      assert rows == rows[..n] + [rows[n]];
      AppendLowest(rows[..n], rows[n]);
      PairsSnoc(rows[..n], rows[n]);
    }
  }

  /**
   The pairs the curve counts, for rows arranged by falling score in whatever order equal scores end up: all those
   a positive wins against a negative, and beyond them tied ones only.
   */
  lemma RankingCountsWins(rows: seq<Scored>, ranked: seq<Scored>)
    requires multiset(ranked) == multiset(rows) && Descending(ranked)
    ensures Wins(rows) <= Pairs(Map(LabelOf, ranked)) <= Wins(rows) + Ties(rows)
  {
    PairsAlongRanking(ranked);
    BetweenSplits(ranked, ranked);
    BetweenIgnoresOrder(Below, rows, ranked);
    BetweenIgnoresOrder(Level, rows, ranked);
  }

  lemma {:induction false} NoneLevel(rows: seq<Scored>, x: Scored)
    requires forall i :: 0 <= i < |rows| && !rows[i].positive ==> rows[i].score != x.score
    ensures Total(Counted(Level, x.score), rows) == 0
  {
    if rows != [] {
      NoneLevel(rows[..|rows| - 1], x);
    }
  }

  lemma {:induction false} NoTies(a: seq<Scored>, rows: seq<Scored>)
    requires forall i, j :: 0 <= i < |a| && 0 <= j < |rows| && a[i].positive && !rows[j].positive ==>
      rows[j].score != a[i].score
    ensures Between(Level, a, rows) == 0
  {
    if a != [] {
      NoTies(a[..|a| - 1], rows);
      if a[|a| - 1].positive { NoneLevel(rows, a[|a| - 1]); }
    }
  }

  lemma ByScoreIsOrder()
    ensures TotalPreorder(ByScore)
  {}

  /**
   When no positive ties with a negative, the AUC is the share of won pairs: no property of the order the rows came in.
   */
  lemma UntiedRankingIsWins(rows: seq<Scored>)
    requires forall i, j :: 0 <= i < |rows| && 0 <= j < |rows| && rows[i].positive && !rows[j].positive ==>
      rows[j].score != rows[i].score
    ensures Pairs(Map(LabelOf, Sort(ByScore, rows))) == Wins(rows)
  {
    ByScoreIsOrder();
    SortSorts(ByScore, rows);
    NoTies(rows, rows);
    RankingCountsWins(rows, Sort(ByScore, rows));
  }

  // ---- Early stopping ---------------------------------------------------

  /** Epochs are counted from 1; `best` is the first epoch of least loss among the first `n`, 0 if there is none. */
  predicate FirstLeast(losses: seq<real>, n: nat, best: nat)
    requires n <= |losses|
  {
    && best <= n && (best == 0 <==> n == 0)
    && (best > 0 ==>
          forall i :: 0 <= i < n ==>
            if i < best - 1 then losses[i] > losses[best - 1] else losses[i] >= losses[best - 1])
  }

  /**
   Run epochs until one too many has failed to improve. `stop` is the epoch before which the operator asked
   for a checkpoint, if any.
   */
  method TrainEpochs(losses: seq<real>, patience: int, stop: nat) returns (best: nat, run: nat)
    ensures run <= |losses| && run <= stop && FirstLeast(losses, run, best)
    ensures run < |losses| && run < stop ==> run - best >= patience && run > best
    ensures forall n, b :: 0 < n < run && FirstLeast(losses, n, b) && n > b ==> n - b < patience
  {
    best, run := 0, 0;
    var failed := 0;
    while run < |losses| && run < stop
      invariant run <= |losses| && run <= stop && FirstLeast(losses, run, best) && failed == run - best
      invariant failed == 0 || failed < patience
      invariant forall n, b :: 0 < n <= run && FirstLeast(losses, n, b) && n > b ==> n - b < patience
    {
      if best == 0 || losses[run] < losses[best - 1] {
        best, failed := run + 1, 0;
      } else {
        failed := failed + 1;
      }
      run := run + 1;
      LeastUnique(losses, run);
      if failed > 0 && failed >= patience {
        break;
      }
    }
  }

  lemma LeastUnique(losses: seq<real>, n: nat)
    requires n <= |losses|
    ensures forall a, b :: FirstLeast(losses, n, a) && FirstLeast(losses, n, b) ==> a == b
  {
    forall a, b | FirstLeast(losses, n, a) && FirstLeast(losses, n, b) ensures a == b {
      if n > 0 {
        var x, y := losses[a - 1], losses[b - 1];
      }
    }
  }
}
