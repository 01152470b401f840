/**
 Physics-based habitability scoring (apps/go-api/internal/physics/habitability.go) over
 the reals. Roots are parameters constrained by the equations that define them.
 */
module Habitability {
  import opened Wrappers
  import opened Arithmetic

  // ---- Constants --------------------------------------------------------

  const SOLAR_TEFF := 5772.0
  const SOLAR_RADIUS_AU := 0.00465047
  const EARTHS_PER_SUN := 109.076
  const BOND_ALBEDO := 0.30

  /** `math.Sqrt`, `math.Cbrt`, and (1 - albedo)^0.25. */
  datatype Roots = Roots(sqrt: real -> real, cbrt: real -> real, albedo: real)

  function Fourth(x: real): real { (x * x) * (x * x) }

  ghost predicate Exact(m: Roots)
  {
    && (forall x :: x >= 0.0 ==> m.sqrt(x) >= 0.0 && m.sqrt(x) * m.sqrt(x) == x)
    && (forall x :: x > 0.0 ==> m.cbrt(x) > 0.0)
    && (forall x :: m.cbrt(x) * m.cbrt(x) * m.cbrt(x) == x)
    && m.albedo > 0.0 && Fourth(m.albedo) == 1.0 - BOND_ALBEDO
  }

  /** What was observed; a missing value is not positive. */
  datatype Observed = Observed(
    blsAvailable: bool, period: real, depth: real, radius: real, mass: real, teff: real)

  datatype Zone = Conservative | Optimistic | Outside

  function ClassifyZone(flux: real): Zone
  {
    if 0.36 <= flux <= 1.06 then Conservative else if 0.32 <= flux <= 1.78 then Optimistic else Outside
  }

  datatype Physics = Physics(
    period: Option<real>,
    depth: Option<real>,
    completeness: real,
    planetRadius: Option<real>,
    axis: Option<real>,
    luminosity: Option<real>,
    insolation: Option<real>,
    temperature: Option<real>,
    zone: Option<Zone>)

  // ---- Derived quantities -----------------------------------------------

  function Luminosity(e: Observed): real { e.radius * e.radius * Fourth(e.teff / SOLAR_TEFF) }

  function Axis(e: Observed, m: Roots): real { m.cbrt(e.mass * (e.period / 365.25) * (e.period / 365.25)) }

  function Insolation(l: real, a: real): real
    requires a > 0.0
  {
    l / (a * a)
  }

  function Temperature(e: Observed, a: real, m: Roots): real
    requires a > 0.0
  {
    e.teff * m.sqrt((e.radius * SOLAR_RADIUS_AU) / (2.0 * a)) * m.albedo
  }

  function PlanetRadius(e: Observed, m: Roots): real { m.sqrt(e.depth) * e.radius * EARTHS_PER_SUN }

  function CountIf(b: bool): real { if b then 1.0 else 0.0 }

  predicate HasPeriod(e: Observed) { e.blsAvailable && e.period > 0.0 }

  predicate HasDepth(e: Observed) { e.blsAvailable && 0.0 < e.depth < 1.0 }

  /** Fill in what the inputs allow, counting those present. */
  method Derive(e: Observed, m: Roots) returns (p: Physics)
    requires Exact(m)
    ensures p.period.Some? <==> HasPeriod(e)
    ensures p.depth.Some? <==> HasDepth(e)
    ensures p.completeness
      == (CountIf(HasPeriod(e)) + CountIf(HasDepth(e)) + CountIf(e.radius > 0.0) + CountIf(e.mass > 0.0)
          + CountIf(e.teff > 0.0)) / 5.0
    ensures p.planetRadius.Some? <==> HasDepth(e) && e.radius > 0.0
    ensures p.insolation.Some? <==> HasPeriod(e) && e.mass > 0.0 && e.radius > 0.0 && e.teff > 0.0
    ensures p.temperature.Some? <==> p.insolation.Some?
    ensures p.zone == if p.insolation.Some? then Some(ClassifyZone(p.insolation.value)) else None
    ensures p.planetRadius.Some? ==> p.planetRadius.value == PlanetRadius(e, m)
    ensures p.axis == if HasPeriod(e) && e.mass > 0.0 then Some(Axis(e, m)) else None
    ensures p.insolation.Some? ==> p.axis.Some? && p.axis.value > 0.0
    ensures p.insolation.Some? ==> p.insolation.value == Insolation(Luminosity(e), p.axis.value)
    ensures p.temperature.Some? ==> p.temperature.value == Temperature(e, p.axis.value, m)
  {
    p := Physics(None, None, 0.0, None, None, None, None, None, None);
    var available := 0.0;
    if e.blsAvailable && e.period > 0.0 {
      p := p.(period := Some(e.period));
      available := available + 1.0;
    }
    if e.blsAvailable && e.depth > 0.0 && e.depth < 1.0 {
      p := p.(depth := Some(e.depth));
      available := available + 1.0;
    }
    if e.radius > 0.0 {
      available := available + 1.0;
    }
    if e.mass > 0.0 {
      available := available + 1.0;
    }
    if e.teff > 0.0 {
      available := available + 1.0;
    }
    p := p.(completeness := available / 5.0);
    if p.depth.Some? && e.radius > 0.0 {
      p := p.(planetRadius := Some(PlanetRadius(e, m)));
    }
    if p.period.Some? && e.mass > 0.0 {
      var axis := Axis(e, m);
      AxisPositive(e, m);
      p := p.(axis := Some(axis));
    }
    if e.radius > 0.0 && e.teff > 0.0 {
      p := p.(luminosity := Some(Luminosity(e)));
    }
    if p.luminosity.Some? && p.axis.Some? && p.axis.value > 0.0 {
      var flux := Insolation(p.luminosity.value, p.axis.value);
      p := p.(insolation := Some(flux), temperature := Some(Temperature(e, p.axis.value, m)),
              zone := Some(ClassifyZone(flux)));
    }
  }

  lemma AxisPositive(e: Observed, m: Roots)
    requires Exact(m) && e.period > 0.0 && e.mass > 0.0
    ensures Axis(e, m) > 0.0
  {
    var years := e.period / 365.25;
    ProductPositive(e.mass, years, e.mass * years);
    ProductPositive(e.mass * years, years, e.mass * years * years);
  }

  predicate Keplerian(a: real, mass: real, period: real)
  {
    var years := period / 365.25; a * a * a == mass * (years * years)
  }

  predicate HasArea(r: real, depth: real, radius: real)
  {
    var star := radius * 109.076; r >= 0.0 && r * r == depth * (star * star)
  }

  /** Kepler's third law, in solar masses, years and astronomical units. */
  lemma KeplersLaw(e: Observed, m: Roots)
    requires Exact(m)
    ensures Keplerian(Axis(e, m), e.mass, e.period)
  {
    var years := e.period / 365.25;
    assert e.mass * years * years == e.mass * (years * years);
  }

  /** The transit depth is the ratio of the discs: the planet's area over the star's, in Earth radii. */
  lemma DepthIsAreaRatio(e: Observed, m: Roots)
    requires Exact(m) && e.depth > 0.0 && e.radius > 0.0
    ensures HasArea(PlanetRadius(e, m), e.depth, e.radius)
  {
    var root, star := m.sqrt(e.depth), e.radius * 109.076;
    assert PlanetRadius(e, m) == root * star;
    assert (root * star) * (root * star) == (root * root) * (star * star);
    NonNegativeProduct(root, star);
  }

  lemma NonNegativeProduct(x: real, y: real)
    requires x >= 0.0 && y >= 0.0
    ensures x * y >= 0.0
  {}

  /** A non-negative number is at most `y` exactly when its square is at most the square of `y`. */
  lemma SquareOrder(x: real, y: real)
    requires x >= 0.0 && y >= 0.0
    ensures x <= y <==> x * x <= y * y
  {
    if x < y { SquareMonotone(x, y, x * x, y * y); }
    if y < x { SquareMonotone(y, x, y * y, x * x); }
  }

  // ---- Temperature and flux ---------------------------------------------

  /** The constant of proportionality between the flux and the fourth power of the temperature. */
  const K := Fourth(SOLAR_TEFF) * (1.0 - BOND_ALBEDO) * (SOLAR_RADIUS_AU * SOLAR_RADIUS_AU) / 4.0

  lemma FourthOfProduct(x: real, y: real)
    ensures Fourth(x * y) == Fourth(x) * Fourth(y)
  {
    var a, b := x * x, y * y;
    assert (x * y) * (x * y) == a * b;
    assert (a * b) * (a * b) == (a * a) * (b * b);
  }

  lemma Cancel(x: real, y: real, c: real)
    requires c > 0.0 && x * c == y * c
    ensures x == y
  {
    assert (x - y) * c == 0.0;
  }

  /** The square of the dilution factor, freed of its denominator. */
  lemma DilutionSquared(r: real, k: real, a: real, h: real)
    requires a > 0.0 && h == (r * k) / (2.0 * a)
    ensures (h * h) * (a * a) == (r * r) * (k * k) / 4.0
  {
    assert h * (2.0 * a) == r * k;
    var g := h * a;
    assert 2.0 * g == r * k;
    assert g * g == (h * h) * (a * a);
    assert (2.0 * g) * (2.0 * g) == 4.0 * (g * g);
    assert (r * k) * (r * k) == (r * r) * (k * k);
  }

  lemma FluxCleared(r: real, f: real, a: real)
    requires a > 0.0
    ensures a * a > 0.0 && ((r * r * f) / (a * a)) * (a * a) == r * r * f
  {}

  /** With a common denominator both sides are the same product. */
  lemma BothSides(c: real, f: real, hh: real, q: real, kk: real, rr: real, s: real, aa: real)
    requires hh * aa == rr * kk / 4.0 && s * aa == rr * f
    ensures (c * f * hh * q) * aa == ((c * q * kk / 4.0) * s) * aa
  {
    assert (c * f * hh * q) * aa == (c * f * q) * (hh * aa);
    assert ((c * q * kk / 4.0) * s) * aa == (c * q * kk / 4.0) * (s * aa);
    assert (c * f * q) * (rr * kk / 4.0) == (c * q * kk / 4.0) * (rr * f);
  }

  lemma FourthOfTemperature(e: Observed, a: real, m: Roots)
    requires Exact(m) && a > 0.0 && e.radius > 0.0
    ensures var h := (e.radius * SOLAR_RADIUS_AU) / (2.0 * a); var f := Fourth(e.teff / SOLAR_TEFF);
      Fourth(Temperature(e, a, m)) == Fourth(SOLAR_TEFF) * f * (h * h) * (1.0 - BOND_ALBEDO)
  {
    var h := (e.radius * SOLAR_RADIUS_AU) / (2.0 * a);
    HalfPositive(e.radius * SOLAR_RADIUS_AU, a);
    var u, t := m.sqrt(h), e.teff / SOLAR_TEFF;
    assert u * u == h;
    assert Fourth(u) == h * h;
    assert e.teff == SOLAR_TEFF * t;
    FourthOfProduct(SOLAR_TEFF, t);
    FourthOfProduct(e.teff, u);
    FourthOfProduct(e.teff * u, m.albedo);
  }

  lemma HalfPositive(x: real, a: real)
    requires x > 0.0 && a > 0.0
    ensures x / (2.0 * a) >= 0.0
  {}

  /** The equilibrium temperature and the flux obey one law: T^4 = K S. */
  lemma TemperatureLaw(e: Observed, a: real, m: Roots)
    requires Exact(m) && a > 0.0 && e.radius > 0.0
    ensures Fourth(Temperature(e, a, m)) == K * Insolation(Luminosity(e), a)
  {
    var h, f := (e.radius * SOLAR_RADIUS_AU) / (2.0 * a), Fourth(e.teff / SOLAR_TEFF);
    var s := Insolation(Luminosity(e), a);
    FourthOfTemperature(e, a, m);
    DilutionSquared(e.radius, SOLAR_RADIUS_AU, a, h);
    FluxCleared(e.radius, f, a);
    BothSides(Fourth(SOLAR_TEFF), f, h * h, 1.0 - BOND_ALBEDO, SOLAR_RADIUS_AU * SOLAR_RADIUS_AU, e.radius * e.radius,
              s, a * a);
    Cancel(Fourth(Temperature(e, a, m)), K * s, a * a);
  }

  lemma FourthMonotone(x: real, y: real)
    requires 0.0 <= x < y
    ensures Fourth(x) < Fourth(y)
  {
    SquareMonotone(x, y, x * x, y * y);
    SquareMonotone(x * x, y * y, Fourth(x), Fourth(y));
  }

  lemma SquareMonotone(x: real, y: real, a: real, b: real)
    requires 0.0 <= x < y && a == x * x && b == y * y
    ensures 0.0 <= a < b
  {
    ProductPositive(y - x, y + x, b - a);
  }

  lemma ScaleK(s: real)
    ensures s >= 0.32 ==> K * s > Fourth(150.0)
    ensures s <= 1.78 ==> K * s < Fourth(380.0)
  {
    assert 4.2e9 < K < 4.3e9;
  }

  lemma TemperatureNonNegative(e: Observed, a: real, m: Roots)
    requires Exact(m) && a > 0.0 && e.radius > 0.0 && e.teff > 0.0
    ensures Temperature(e, a, m) >= 0.0
  {
    HalfPositive(e.radius * SOLAR_RADIUS_AU, a);
    var u := m.sqrt((e.radius * SOLAR_RADIUS_AU) / (2.0 * a));
    assert e.teff * u >= 0.0;
  }

  /** A flux inside the optimistic zone puts the temperature within 30 kelvin of the temperate band or in it. */
  lemma ZoneBoundsTemperature(e: Observed, a: real, m: Roots)
    requires Exact(m) && a > 0.0 && e.radius > 0.0 && e.teff > 0.0
      && ClassifyZone(Insolation(Luminosity(e), a)) != Outside
    ensures 150.0 <= Temperature(e, a, m) <= 380.0
  {
    var t, s := Temperature(e, a, m), Insolation(Luminosity(e), a);
    TemperatureLaw(e, a, m);
    TemperatureNonNegative(e, a, m);
    ScaleK(s);
    if t < 150.0 { FourthMonotone(t, 150.0); }
    if t > 380.0 { FourthMonotone(380.0, t); }
  }

  // ---- Scoring ----------------------------------------------------------

  datatype Status = InsufficientData | Evaluated

  datatype Tier = NotAssessed | HighPriority | Promising | LowPriority | Unlikely

  datatype Component = Component(score: real, max: real, available: bool)

  datatype Assessment = Assessment(status: Status, tier: Tier, confidence: real, score: Option<real>,
                                   components: seq<Component>)

  function ZoneScore(p: Physics): Component
  {
    if p.insolation.None? then Component(0.0, 40.0, false)
    else Component(if p.zone == Some(Conservative) then 40.0 else if p.zone == Some(Optimistic) then 26.0 else 4.0,
                   40.0, true)
  }

  function RockyScore(p: Physics): Component
  {
    if p.planetRadius.None? then Component(0.0, 20.0, false)
    else Component(if p.planetRadius.value <= 1.6 then 20.0 else if p.planetRadius.value <= 2.5 then 10.0 else 2.0,
                   20.0, true)
  }

  function ThermalScore(p: Physics): Component
  {
    if p.temperature.None? then Component(0.0, 15.0, false)
    else
      var t := p.temperature.value;
      Component(if 200.0 <= t <= 320.0 then 15.0 else if 150.0 <= t <= 380.0 then 8.0 else 1.0, 15.0, true)
  }

  function StellarScore(teff: real): Component
  {
    if teff <= 0.0 then Component(0.0, 15.0, false)
    else Component(if 4000.0 <= teff <= 6500.0 then 15.0 else if 3000.0 <= teff <= 7500.0 then 8.0 else 3.0, 15.0, true)
  }

  /**
   The size screen in terms of the observation: full marks up to 1.6 Earth radii, none of the middle band above
   2.5, each limit read off the depth and the star's radius without a root.
   */
  lemma RockyMeans(e: Observed, m: Roots, p: Physics)
    requires Exact(m) && e.depth > 0.0 && e.radius > 0.0 && p.planetRadius == Some(PlanetRadius(e, m))
    ensures var star := e.radius * 109.076; var area := e.depth * (star * star);
      && (RockyScore(p).score == 20.0 <==> area <= 1.6 * 1.6)
      && (RockyScore(p).score >= 10.0 <==> area <= 2.5 * 2.5)
      && RockyScore(p).score >= 2.0
  {
    DepthIsAreaRatio(e, m);
    SquareOrder(PlanetRadius(e, m), 1.6);
    SquareOrder(PlanetRadius(e, m), 2.5);
  }

  lemma FourthOrder(x: real, y: real)
    requires x >= 0.0 && y >= 0.0
    ensures x <= y <==> Fourth(x) <= Fourth(y)
  {
    if x < y { FourthMonotone(x, y); }
    if y < x { FourthMonotone(y, x); }
  }

  /** The temperature screen is a screen of the flux, through the law that ties them. */
  lemma ThermalMeans(e: Observed, a: real, m: Roots, p: Physics)
    requires Exact(m) && a > 0.0 && e.radius > 0.0 && e.teff > 0.0 && p.temperature == Some(Temperature(e, a, m))
    ensures var flux := K * Insolation(Luminosity(e), a);
      && (ThermalScore(p).score == 15.0 <==> Fourth(200.0) <= flux <= Fourth(320.0))
      && (ThermalScore(p).score >= 8.0 <==> Fourth(150.0) <= flux <= Fourth(380.0))
      && ThermalScore(p).score >= 1.0
  {
    var t := Temperature(e, a, m);
    TemperatureLaw(e, a, m);
    TemperatureNonNegative(e, a, m);
    FourthOrder(200.0, t);
    FourthOrder(t, 320.0);
    FourthOrder(150.0, t);
    FourthOrder(t, 380.0);
  }

  /** `math.Round`: half away from zero. */
  function Round(x: real): real
  {
    if x >= 0.0 then (x + 0.5).Floor as real else -((-x + 0.5).Floor as real)
  }

  function QualityScore(p: Physics): Component { Component(Round(p.completeness * 10.0 * 10.0) / 10.0, 10.0, true) }

  function Components(p: Physics, teff: real): seq<Component>
  {
    [ZoneScore(p), RockyScore(p), ThermalScore(p), StellarScore(teff), QualityScore(p)]
  }

  function SumOf(cs: seq<Component>): real
  {
    if cs == [] then 0.0 else SumOf(cs[..|cs| - 1]) + cs[|cs| - 1].score
  }

  function Clamp(x: real): real { if x < 0.0 then 0.0 else if x > 100.0 then 100.0 else x }

  function TierOf(total: real): Tier
  {
    if total >= 75.0 then HighPriority else if total >= 50.0 then Promising else if total >= 25.0 then LowPriority
      else Unlikely
  }

  lemma SumOfFive(a: Component, b: Component, c: Component, d: Component, e: Component)
    ensures SumOf([a, b, c, d, e]) == a.score + b.score + c.score + d.score + e.score
  {
    assert [a, b, c, d, e][..4] == [a, b, c, d] && [a, b, c, d][..3] == [a, b, c] && [a, b, c][..2] == [a, b];
    assert [a, b][..1] == [a] && [a][..0] == [];
    assert SumOf([a]) == a.score;
    assert SumOf([a, b, c]) == a.score + b.score + c.score;
  }

  /** Add the component scores, clamp, round and grade. */
  method Assess(p: Physics, teff: real) returns (a: Assessment)
    ensures a.components == Components(p, teff) && a.confidence == p.completeness
    ensures a.status == Evaluated <==> p.insolation.Some? && p.planetRadius.Some?
    ensures a.status == InsufficientData ==> a.tier == NotAssessed && a.score == None
    ensures a.status == Evaluated ==>
      var total := Clamp(SumOf(Components(p, teff)));
      a.tier == TierOf(total) && a.score == Some(Round(total * 10.0) / 10.0)
  {
    var components := Components(p, teff);
    a := Assessment(InsufficientData, NotAssessed, p.completeness, None, components);
    if !components[0].available || !components[1].available {
      return;
    }
    var total := 0.0;
    for n := 0 to |components|
      invariant total == SumOf(components[..n])
    {
      assert components[..n + 1][..n] == components[..n];
      total := total + components[n].score;
    }
    assert components[..|components|] == components;
    total := Clamp(total);
    a := a.(score := Some(Round(total * 10.0) / 10.0), status := Evaluated, tier := TierOf(total));
  }

  /**
   The scores are whole numbers once every input is present, so neither the clamp nor the rounding changes the
   total.
   */
  lemma CompleteTotals(p: Physics, teff: real)
    requires p.completeness == 1.0 && p.insolation.Some? && p.planetRadius.Some? && p.temperature.Some? && teff > 0.0
    ensures var total := SumOf(Components(p, teff));
      && total == ZoneScore(p).score + RockyScore(p).score + ThermalScore(p).score + StellarScore(teff).score + 10.0
      && 20.0 <= total <= 100.0 && Clamp(total) == total && Round(total * 10.0) / 10.0 == total
  {
    SumOfFive(ZoneScore(p), RockyScore(p), ThermalScore(p), StellarScore(teff), QualityScore(p));
    var total := SumOf(Components(p, teff));
    assert QualityScore(p).score == 10.0;
    WholeNumbers(ZoneScore(p).score, RockyScore(p).score, ThermalScore(p).score, StellarScore(teff).score);
  }

  lemma RoundWhole(n: int)
    requires n >= 0
    ensures Round(n as real) == n as real
  {
    assert (n as real + 0.5).Floor == n;
  }

  lemma WholeNumbers(z: real, r: real, t: real, s: real)
    requires z in {40.0, 26.0, 4.0} && r in {20.0, 10.0, 2.0} && t in {15.0, 8.0, 1.0} && s in {15.0, 8.0, 3.0}
    ensures Round((z + r + t + s + 10.0) * 10.0) == (z + r + t + s + 10.0) * 10.0
  {
    assert z.Floor as real == z && r.Floor as real == r && t.Floor as real == t && s.Floor as real == s;
    RoundWhole((z.Floor + r.Floor + t.Floor + s.Floor + 10) * 10);
  }

  /** The inverse-square law with the luminosity of a black body, and T^4 = K S. */
  predicate Lit(flux: real, a: real, e: Observed) { flux * (a * a) == e.radius * e.radius * Fourth(e.teff / 5772.0) }

  predicate Warmed(t: real, flux: real) { t >= 0.0 && Fourth(t) == K * flux }

  /** The laws behind the derived quantities, freed of roots and quotients. */
  predicate ObeysLaws(e: Observed, p: Physics)
  {
    && (p.axis.Some? ==> Keplerian(p.axis.value, e.mass, e.period))
    && (p.planetRadius.Some? ==> HasArea(p.planetRadius.value, e.depth, e.radius))
    && (p.insolation.Some? ==> p.axis.Some? && Lit(p.insolation.value, p.axis.value, e))
    && (p.temperature.Some? ==> p.insolation.Some? && Warmed(p.temperature.value, p.insolation.value))
  }

  /** Derived as `Derive` does. */
  ghost predicate IsDerived(e: Observed, m: Roots, p: Physics)
  {
    && (p.planetRadius.Some? ==> HasDepth(e) && e.radius > 0.0 && p.planetRadius.value == PlanetRadius(e, m))
    && (p.axis.Some? ==> p.axis.value == Axis(e, m))
    && (p.insolation.Some? ==>
          e.radius > 0.0 && e.teff > 0.0 && p.axis.Some? && p.axis.value > 0.0
          && p.insolation.value == Insolation(Luminosity(e), p.axis.value))
    && (p.temperature.Some? ==> p.insolation.Some? && p.temperature.value == Temperature(e, p.axis.value, m))
  }

  lemma LawsHold(e: Observed, m: Roots, p: Physics)
    requires Exact(m) && IsDerived(e, m, p)
    ensures ObeysLaws(e, p)
  {
    KeplersLaw(e, m);
    if p.planetRadius.Some? { DepthIsAreaRatio(e, m); }
    if p.insolation.Some? { InverseSquare(e, p.axis.value); }
    if p.temperature.Some? { WarmedBy(e, p.axis.value, m); }
  }

  lemma InverseSquare(e: Observed, a: real)
    requires a > 0.0
    ensures Lit(Insolation(Luminosity(e), a), a, e)
  {
    FluxCleared(e.radius, Fourth(e.teff / SOLAR_TEFF), a);
  }

  lemma WarmedBy(e: Observed, a: real, m: Roots)
    requires Exact(m) && a > 0.0 && e.radius > 0.0 && e.teff > 0.0
    ensures Warmed(Temperature(e, a, m), Insolation(Luminosity(e), a))
  {
    TemperatureLaw(e, a, m);
    TemperatureNonNegative(e, a, m);
  }

  /** In the conservative zone, temperate, rocky by its area, about a star of 4000 to 6500 kelvin. */
  predicate Ideal(e: Observed, flux: real)
  {
    var star := e.radius * 109.076;
    && 0.36 <= flux <= 1.06 && Fourth(200.0) <= K * flux <= Fourth(320.0)
    && e.depth * (star * star) <= 1.6 * 1.6 && 4000.0 <= e.teff <= 6500.0
  }

  lemma FullMarks(e: Observed, a: real, m: Roots, p: Physics)
    requires Exact(m) && HasDepth(e) && a > 0.0 && e.radius > 0.0 && e.teff > 0.0
    requires p.planetRadius == Some(PlanetRadius(e, m)) && p.temperature == Some(Temperature(e, a, m))
    requires p.insolation == Some(Insolation(Luminosity(e), a)) && p.zone == Some(ClassifyZone(p.insolation.value))
    ensures ZoneScore(p).score + RockyScore(p).score + ThermalScore(p).score + StellarScore(e.teff).score == 90.0
      <==> Ideal(e, p.insolation.value)
  {
    RockyMeans(e, m, p);
    ThermalMeans(e, a, m, p);
    OnlyTheFullSum(ZoneScore(p).score, RockyScore(p).score, ThermalScore(p).score, StellarScore(e.teff).score);
  }

  /** A component within its maximum, which scores nothing when its input is missing. */
  predicate Fits(c: Component, max: real, available: bool)
  {
    c.max == max && c.available == available && 0.0 <= c.score <= max && (!available ==> c.score == 0.0)
  }

  /** Full marks inside the inner band, `middle` or more inside the outer one, and `least` or more anywhere. */
  predicate Banded(score: real, x: real, inner: (real, real), outer: (real, real), full: real, middle: real,
                   least: real)
  {
    && (score == full <==> inner.0 <= x <= inner.1)
    && (score >= middle <==> outer.0 <= x <= outer.1)
    && score in {full, middle, least}
  }

  /** The five components, by their maxima and their bands. */
  predicate InBands(teff: real, p: Physics, cs: seq<Component>)
  {
    && |cs| == 5
    && Fits(cs[0], 40.0, p.insolation.Some?)
    && (p.insolation.Some? ==> Banded(cs[0].score, p.insolation.value, (0.36, 1.06), (0.32, 1.78), 40.0, 26.0, 4.0))
    && Fits(cs[1], 20.0, p.planetRadius.Some?)
    && (p.planetRadius.Some? ==>
          (cs[1].score == 20.0 <==> p.planetRadius.value <= 1.6)
          && (cs[1].score >= 10.0 <==> p.planetRadius.value <= 2.5) && cs[1].score in {20.0, 10.0, 2.0})
    && Fits(cs[2], 15.0, p.temperature.Some?)
    && (p.temperature.Some? ==>
          Banded(cs[2].score, p.temperature.value, (200.0, 320.0), (150.0, 380.0), 15.0, 8.0, 1.0))
    && Fits(cs[3], 15.0, teff > 0.0)
    && (teff > 0.0 ==> Banded(cs[3].score, teff, (4000.0, 6500.0), (3000.0, 7500.0), 15.0, 8.0, 3.0))
    && Fits(cs[4], 10.0, true) && cs[4].score == 10.0 * p.completeness
  }

  /** The share of the five inputs present, as `Derive` counts it. */
  predicate WholeShare(completeness: real) { completeness in {0.0, 0.2, 0.4, 0.6, 0.8, 1.0} }

  lemma BandsHold(teff: real, p: Physics)
    requires WholeShare(p.completeness)
    requires p.zone == if p.insolation.Some? then Some(ClassifyZone(p.insolation.value)) else None
    ensures InBands(teff, p, Components(p, teff))
  {
    TenthsRound(p.completeness);
  }

  lemma TenthsRound(completeness: real)
    requires WholeShare(completeness)
    ensures Round(completeness * 10.0 * 10.0) / 10.0 == 10.0 * completeness
  {
    var n := (completeness * 100.0).Floor;
    assert completeness * 100.0 == n as real;
    RoundWhole(n);
  }

  /** The tier by the score: 75, 50 and 25 are the least of the upper three. */
  predicate Graded(a: Assessment)
  {
    && a.score.Some?
    && (a.tier == HighPriority <==> a.score.value >= 75.0)
    && (a.tier == Promising <==> 50.0 <= a.score.value < 75.0)
    && (a.tier == LowPriority <==> 25.0 <= a.score.value < 50.0)
    && (a.tier == Unlikely <==> a.score.value < 25.0)
  }

  lemma TierMeans(total: real)
    ensures TierOf(total) == HighPriority <==> total >= 75.0
    ensures TierOf(total) == Promising <==> 50.0 <= total < 75.0
    ensures TierOf(total) == LowPriority <==> 25.0 <= total < 50.0
    ensures TierOf(total) == Unlikely <==> total < 25.0
  {}

  lemma OnlyTheFullSum(z: real, r: real, t: real, s: real)
    requires z <= 40.0 && r <= 20.0 && t <= 15.0 && s <= 15.0
    ensures z + r + t + s == 90.0 <==> z == 40.0 && r == 20.0 && t == 15.0 && s == 15.0
  {}

  /**
   The scoring is self-consistent for every observation: it is evaluated exactly when all five inputs are
   present; then confidence is one, the score is the plain sum of the components and lies in [20, 100];
   inside the optimistic zone the temperature scores at least 8; inside the conservative zone the planet is
   at least promising; and nothing outside the zone is of high priority. What is derived obeys the laws it is
   derived by, and full marks are given exactly to the ideal observation.
   */
  method Score(e: Observed, m: Roots) returns (p: Physics, a: Assessment)
    requires Exact(m)
    ensures a.status == Evaluated <==>
      && e.blsAvailable && e.period > 0.0 && 0.0 < e.depth < 1.0 && e.radius > 0.0 && e.mass > 0.0 && e.teff > 0.0
    ensures a.status == Evaluated ==> p.completeness == 1.0 && a.confidence == 1.0
    ensures a.status == Evaluated ==> a.score == Some(SumOf(a.components)) && 20.0 <= SumOf(a.components) <= 100.0
    ensures a.status == Evaluated && p.zone != Some(Outside) ==> |a.components| == 5 && a.components[2].score >= 8.0
    ensures a.status == Evaluated && p.zone == Some(Conservative) ==> a.tier == Promising || a.tier == HighPriority
    ensures a.tier == HighPriority ==> p.zone == Some(Conservative) || p.zone == Some(Optimistic)
    ensures ObeysLaws(e, p) && InBands(e.teff, p, a.components)
    ensures a.status == Evaluated ==> Graded(a)
    ensures a.status == Evaluated ==>
              p.insolation.Some? && (a.score == Some(100.0) <==> Ideal(e, p.insolation.value))
  {
    p := Derive(e, m);
    LawsHold(e, m, p);
    BandsHold(e.teff, p);
    a := Assess(p, e.teff);
    if a.status == Evaluated {
      CompleteTotals(p, e.teff);
      FullMarks(e, p.axis.value, m, p);
      TierMeans(SumOf(Components(p, e.teff)));
      if p.zone != Some(Outside) { ZoneBoundsTemperature(e, p.axis.value, m); }
    }
  }
}
