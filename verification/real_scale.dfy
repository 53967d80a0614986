/** "Real scale" sizing (`applyRealScale` in script.js): from the on/off
    checkbox and the size slider `mag`, a scale for every planet mesh and
    one for the Sun mesh, with the Sun capped so that its rendered radius
    stays inside Mercury's perihelion. */
module RealScale {
  import opened Basics

  /** One row of the planet table `B`. `a` is in astronomical units,
      `period` in days, `size` in Earth radii. */
  datatype Planet = Planet(id: string, a: real, period: real, size: real)

  /** Scene units per astronomical unit. */
  const AU: real := 160.0
  /** Visual radius of the Earth, in scene units. */
  const SIZE: real := 22.0
  /** No planet is drawn smaller than this radius. */
  const MIN_BODY_RADIUS: real := 6.0
  /** Radius of the Sun mesh as built (`SUN_R`, also the fallback for `sunBaseRadiusPx`). */
  const SUN_R: real := 30.0
  /** The Sun's radius in Earth radii. */
  const SUN_IN_EARTH_RADII: real := 109.0
  /** Fraction of Mercury's perihelion the Sun may fill. */
  const SUN_MARGIN: real := 0.58
  /** Mercury's semi-major axis used when the table has none. */
  const MERCURY_A_FALLBACK: real := 0.387

  const B: seq<Planet> := [
    Planet("mercury", 0.387, 87.97, 0.383),
    Planet("venus", 0.723, 224.70, 0.949),
    Planet("earth", 1.000, 365.256, 1.000),
    Planet("mars", 1.524, 686.98, 0.532),
    Planet("jupiter", 5.203, 4332.59, 11.21),
    Planet("saturn", 9.537, 10759.22, 9.45),
    Planet("uranus", 19.191, 30685.4, 4.01),
    Planet("neptune", 30.068, 60190.0, 3.88)
  ]

  /** Orbital eccentricities, keyed by planet id. */
  const ECC: map<string, real> := map[
    "mercury" := 0.206, "venus" := 0.007, "earth" := 0.017, "mars" := 0.093,
    "jupiter" := 0.049, "saturn" := 0.056, "uranus" := 0.046, "neptune" := 0.009
  ]

  /** The radius a planet's sphere is built with: its size in Earth radii
      times the visual Earth radius, but never below the minimum. */
  function BaseRadius(p: Planet): (r: real)
    ensures r >= MIN_BODY_RADIUS && r >= p.size * SIZE
    ensures r == MIN_BODY_RADIUS || r == p.size * SIZE
  {
    Max(MIN_BODY_RADIUS, p.size * SIZE)
  }

  /** `findIndex`: the first position whose id matches, or -1. */
  function FindIndex(ps: seq<Planet>, id: string): (i: int)
    ensures -1 <= i < |ps|
    ensures 0 <= i ==> ps[i].id == id && forall j :: 0 <= j < i ==> ps[j].id != id
    ensures i == -1 ==> forall j :: 0 <= j < |ps| ==> ps[j].id != id
    decreases |ps|
  {
    if |ps| == 0 then -1
    else if ps[0].id == id then 0
    else
      var k := FindIndex(ps[1..], id);
      if k < 0 then -1 else k + 1
  }

  /** `earthBaseRadiusPx`: the base radius of the Earth's mesh, or of the
      first body when there is no Earth. */
  function EarthBase(ps: seq<Planet>): (r: real)
    requires |ps| > 0
    ensures r >= MIN_BODY_RADIUS
    ensures FindIndex(ps, "earth") >= 0 ==> r == BaseRadius(ps[FindIndex(ps, "earth")])
    ensures FindIndex(ps, "earth") < 0 ==> r == BaseRadius(ps[0])
  {
    var i := FindIndex(ps, "earth");
    BaseRadius(ps[if i >= 0 then i else 0])
  }

  /** Mercury's semi-major axis in scene units: the table's value, or the
      fallback when Mercury is missing or its axis is zero (JavaScript's `||`). */
  function MercuryAxis(ps: seq<Planet>): (r: real)
    ensures FindIndex(ps, "mercury") >= 0 && ps[FindIndex(ps, "mercury")].a != 0.0 ==>
              r == ps[FindIndex(ps, "mercury")].a * AU
    ensures FindIndex(ps, "mercury") >= 0 && ps[FindIndex(ps, "mercury")].a == 0.0 ==>
              r == MERCURY_A_FALLBACK * AU
    ensures FindIndex(ps, "mercury") < 0 ==> r == MERCURY_A_FALLBACK * AU
  {
    var i := FindIndex(ps, "mercury");
    var a := if i >= 0 && ps[i].a != 0.0 then ps[i].a else MERCURY_A_FALLBACK;
    a * AU
  }

  /** `qMerc`: Mercury's closest approach to the Sun, `a·(1 − e)`, with a
      missing eccentricity read as zero. */
  function MercuryPerihelion(ps: seq<Planet>, ecc: map<string, real>): real
  {
    var e := if "mercury" in ecc then ecc["mercury"] else 0.0;
    MercuryAxis(ps) * (1.0 - e)
  }

  /** `maxMagSun`: the largest slider value at which the Sun's rendered
      radius is still within the margin of Mercury's perihelion. */
  function MaxSunMag(ps: seq<Planet>, ecc: map<string, real>): (m: real)
    requires |ps| > 0
    ensures m * (SUN_IN_EARTH_RADII * EarthBase(ps)) == MercuryPerihelion(ps, ecc) * SUN_MARGIN
  {
    (MercuryPerihelion(ps, ecc) * SUN_MARGIN) / (SUN_IN_EARTH_RADII * EarthBase(ps))
  }

  /** Scales chosen for the meshes, and whether the label says "(limited)". */
  datatype Scales = Scales(planets: seq<real>, sun: real, capped: bool)

  /** A planet's scale in real-scale mode: its rendered radius, the scale
      times the base radius, becomes its size in Earth radii times the
      visual Earth radius times `mag`. */
  function PlanetScale(p: Planet, earthBase: real, mag: real): (s: real)
    ensures s * BaseRadius(p) == p.size * earthBase * mag
  {
    (p.size * earthBase * mag) / BaseRadius(p)
  }

  /** Every planet's scale in real-scale mode, in table order. */
  function PlanetScales(ps: seq<Planet>, earthBase: real, mag: real): (r: seq<real>)
    ensures |r| == |ps|
    ensures forall i :: 0 <= i < |ps| ==> r[i] * BaseRadius(ps[i]) == ps[i].size * earthBase * mag
  {
    seq(|ps|, i requires 0 <= i < |ps| => PlanetScale(ps[i], earthBase, mag))
  }

  /** The Sun's scale in real-scale mode: it follows `mag` up to the cap. */
  function SunScale(ps: seq<Planet>, ecc: map<string, real>, mag: real): (s: real)
    requires |ps| > 0
    ensures s * SUN_R <= SUN_MARGIN * MercuryPerihelion(ps, ecc)
    ensures mag <= MaxSunMag(ps, ecc) ==> s * SUN_R == SUN_IN_EARTH_RADII * EarthBase(ps) * mag
    ensures mag > MaxSunMag(ps, ecc) ==> s * SUN_R == SUN_MARGIN * MercuryPerihelion(ps, ecc)
  {
    var k := SUN_IN_EARTH_RADII * EarthBase(ps);
    var cap := MaxSunMag(ps, ecc);
    var magSun := Min(mag, cap);
    SunCapArith(k, cap, mag, magSun, MercuryPerihelion(ps, ecc) * SUN_MARGIN);
    (k * magSun) / SUN_R
  }

  lemma SunCapArith(k: real, cap: real, mag: real, magSun: real, limit: real)
    requires k > 0.0
    requires cap * k == limit
    requires magSun == Min(mag, cap)
    ensures k * magSun <= limit
    ensures mag <= cap ==> k * magSun == k * mag
    ensures mag > cap ==> k * magSun == limit
  {
    assert k * magSun <= k * cap;
  }

  /** `applyRealScale`. Off: every mesh back to scale 1, whatever came
      before. On: planets at their real relative sizes times `mag`, and the
      Sun following `mag` only up to the cap that keeps it clear of Mercury. */
  function ApplyRealScale(ps: seq<Planet>, ecc: map<string, real>, on: bool, mag: real): (s: Scales)
    requires |ps| > 0
    ensures |s.planets| == |ps|
    ensures !on ==> (forall i :: 0 <= i < |ps| ==> s.planets[i] == 1.0) && s.sun == 1.0 && !s.capped
    ensures on ==> forall i :: 0 <= i < |ps| ==>
              s.planets[i] * BaseRadius(ps[i]) == ps[i].size * EarthBase(ps) * mag
    ensures on ==> s.sun * SUN_R <= SUN_MARGIN * MercuryPerihelion(ps, ecc)
    ensures on ==> (s.capped <==> mag > MaxSunMag(ps, ecc))
    ensures on && !s.capped ==> s.sun * SUN_R == SUN_IN_EARTH_RADII * EarthBase(ps) * mag
  {
    if !on then
      Scales(seq(|ps|, i => 1.0), 1.0, false)
    else
      Scales(PlanetScales(ps, EarthBase(ps), mag), SunScale(ps, ecc, mag), mag > MaxSunMag(ps, ecc))
  }

  /** A planet large enough not to hit the minimum radius is scaled by
      exactly `mag` when the Earth has its nominal visual radius. */
  lemma PlanetScaleIsMag(p: Planet, mag: real)
    requires p.size * SIZE >= MIN_BODY_RADIUS
    ensures PlanetScale(p, SIZE, mag) == mag
  {
    var r := BaseRadius(p);
    assert r == p.size * SIZE;
    assert PlanetScale(p, SIZE, mag) * r == r * mag;
  }

  lemma ShippedEarthBase()
    ensures FindIndex(B, "earth") == 2
    ensures EarthBase(B) == SIZE
  {
    assert B[0].id != "earth";
    assert B[1].id != "earth";
    assert B[2].id == "earth";
  }

  lemma ShippedMercury()
    ensures FindIndex(B, "mercury") == 0
    ensures MercuryPerihelion(B, ECC) == 0.387 * 160.0 * (1.0 - 0.206)
  {
    assert B[0].id == "mercury";
  }

  /** With the shipped table every planet's scale is exactly the slider value. */
  lemma ShippedPlanetsFollowSlider(mag: real)
    ensures forall i :: 0 <= i < |B| ==> ApplyRealScale(B, ECC, true, mag).planets[i] == mag
  {
    ShippedEarthBase();
    forall i | 0 <= i < |B|
      ensures ApplyRealScale(B, ECC, true, mag).planets[i] == mag
    {
      PlanetScaleIsMag(B[i], mag);
    }
  }

  /** With the shipped constants the Sun, whatever the slider says, is drawn
      strictly inside Mercury's perihelion; and every slider position, from
      its minimum 0.02 up, is past the cap. */
  lemma ShippedSunClearsMercury(mag: real)
    ensures ApplyRealScale(B, ECC, true, mag).sun * SUN_R < MercuryPerihelion(B, ECC)
    ensures MaxSunMag(B, ECC) < 0.012
    ensures mag >= 0.02 ==> ApplyRealScale(B, ECC, true, mag).capped
  {
    ShippedEarthBase();
    ShippedMercury();
    var q := MercuryPerihelion(B, ECC);
    var m := MaxSunMag(B, ECC);
    assert m * (SUN_IN_EARTH_RADII * SIZE) == q * SUN_MARGIN;
  }
}
