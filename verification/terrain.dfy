/** The procedural terrain height of the planet shaders: the multi-octave
    `fractal3` sum and the `terrainHeight` dispatch on the noise type.

    `simplex3` (3D simplex noise) and GLSL `pow` are not modelled; they are
    passed in as the functions `noise` and `pow`, and the lemmas state as
    hypotheses the few facts they need of them (NoiseBounded, PowFacts). */
module Terrain {

  import opened Reals
  import opened Glsl

  /** Type codes of `terrainHeight`. */
  const SimplexType := 1
  const FractalType := 2
  const RidgedType := 3

  /** The per-planet terrain uniforms. `radius` belongs to the shaders, not to
      the height function, and is kept apart. */
  datatype TerrainParams = TerrainParams(
    kind: int,
    amplitude: real,
    sharpness: real,
    offset: real,
    period: real,
    persistence: real,
    lacunarity: real,
    octaves: int)

  /** simplex3 returns values in [-1, 1]. */
  ghost predicate NoiseBounded(noise: Vec3 -> real)
  {
    forall v :: -1.0 <= noise(v) <= 1.0
  }

  /** What the height function relies on of GLSL `pow` for a non-negative base
      and a positive exponent: the result is non-negative, and at most 1 when
      the base is at most 1. */
  ghost predicate PowFacts(pow: (real, real) -> real)
  {
    forall b, s :: 0.0 <= b && 0.0 < s ==> 0.0 <= pow(b, s) && (b <= 1.0 ==> pow(b, s) <= 1.0)
  }

  /** The octave loop runs `octaves` times; a non-positive count runs it not at
      all. */
  function Iterations(octaves: int): nat
  {
    if octaves <= 0 then 0 else octaves
  }

  /** The period P seen by octave j: the loop divides P by the lacunarity after
      every octave. */
  function OctavePeriod(period: real, lacunarity: real, j: nat): (p: real)
    requires lacunarity != 0.0
    ensures period != 0.0 ==> p != 0.0
  {
    if j == 0 then period else OctavePeriod(period, lacunarity, j - 1) / lacunarity
  }

  /** The period of octave j in closed form: period / lacunarity^j. */
  lemma {:induction false} OctavePeriodClosedForm(period: real, lacunarity: real, j: nat)
    requires lacunarity != 0.0
    ensures Power(lacunarity, j) != 0.0
    ensures OctavePeriod(period, lacunarity, j) == period / Power(lacunarity, j)
  {
    PowerNonZero(lacunarity, j);
    if j > 0 {
      OctavePeriodClosedForm(period, lacunarity, j - 1);
      var q := Power(lacunarity, j - 1);
      assert OctavePeriod(period, lacunarity, j) == (period / q) / lacunarity;
      assert Power(lacunarity, j) == lacunarity * q;
      DivDiv(period, q, lacunarity);
    }
  }

  /** The normaliser after k octaves. The loop adds `a` to it AFTER
      multiplying `a` by the persistence, so it is persistence^1 + ... +
      persistence^k, not the sum of the amplitudes the octaves were weighted
      with. */
  function MaxAmp(persistence: real, k: nat): real
  {
    if k == 0 then 0.0 else MaxAmp(persistence, k - 1) + Power(persistence, k)
  }

  /** The amplitudes the first k octaves are actually weighted with:
      persistence^0 + ... + persistence^(k-1). */
  function AppliedAmp(persistence: real, k: nat): real
  {
    if k == 0 then 0.0 else AppliedAmp(persistence, k - 1) + Power(persistence, k - 1)
  }

  /** The weighted noise sum n after k octaves. */
  function OctaveSum(noise: Vec3 -> real, v: Vec3, period: real, persistence: real, lacunarity: real, k: nat): real
    requires period != 0.0 && lacunarity != 0.0
  {
    if k == 0 then 0.0
    else
      OctaveSum(noise, v, period, persistence, lacunarity, k - 1)
      + Power(persistence, k - 1) * noise(Div(v, OctavePeriod(period, lacunarity, k - 1)))
  }

  /** The divisions in `fractal3` are defined: P never becomes 0 and the final
      normaliser is not 0. (GLSL leaves division by zero undefined.) */
  predicate FractalDefined(period: real, persistence: real, lacunarity: real, octaves: int)
  {
    && period != 0.0
    && lacunarity != 0.0
    && MaxAmp(persistence, Iterations(octaves)) != 0.0
  }

  /** fractal3: the octave sum divided by the accumulated normaliser. Its
      `sharpness` argument is unused by the source and is dropped here. */
  function Fractal3(noise: Vec3 -> real, v: Vec3, period: real, persistence: real, lacunarity: real, octaves: int): real
    requires FractalDefined(period, persistence, lacunarity, octaves)
  {
    OctaveSum(noise, v, period, persistence, lacunarity, Iterations(octaves))
    / MaxAmp(persistence, Iterations(octaves))
  }

  /** The octave loop of fractal3 as the shader runs it. After i iterations
      the amplitude is persistence^i, the period is period / lacunarity^i,
      the normaliser is persistence^1 + ... + persistence^i and the sum holds
      the first i weighted octaves; the result is the normalised sum. */
  method Fractal3Loop(noise: Vec3 -> real, v: Vec3, period: real, persistence: real, lacunarity: real, octaves: int)
    returns (r: real)
    requires FractalDefined(period, persistence, lacunarity, octaves)
    ensures r == Fractal3(noise, v, period, persistence, lacunarity, octaves)
  {
    var n := 0.0;
    var a := 1.0;
    var maxAmp := 0.0;
    var p := period;
    var i := 0;
    while i < octaves
      invariant 0 <= i <= Iterations(octaves)
      invariant a == Power(persistence, i)
      invariant p == OctavePeriod(period, lacunarity, i)
      invariant maxAmp == MaxAmp(persistence, i)
      invariant n == OctaveSum(noise, v, period, persistence, lacunarity, i)
    {
      n := n + a * noise(Div(v, p));
      a := a * persistence;
      maxAmp := maxAmp + a;
      p := p / lacunarity;
      i := i + 1;
    }
    r := n / maxAmp;
  }

  /** The normaliser is persistence times the amplitudes actually applied. */
  lemma {:induction false} MaxAmpClosedForm(persistence: real, k: nat)
    ensures MaxAmp(persistence, k) == persistence * AppliedAmp(persistence, k)
  {
    if k > 0 {
      MaxAmpClosedForm(persistence, k - 1);
      assert Power(persistence, k) == persistence * Power(persistence, k - 1);
    }
  }

  /** For a positive persistence the applied amplitudes sum to at least 1 once
      an octave has run. */
  lemma {:induction false} AppliedAmpAtLeastOne(persistence: real, k: nat)
    requires persistence > 0.0 && k >= 1
    ensures AppliedAmp(persistence, k) >= 1.0
  {
    if k > 1 {
      AppliedAmpAtLeastOne(persistence, k - 1);
      PowerPositive(persistence, k - 1);
    }
  }

  /** For a positive persistence the normaliser is positive exactly when at
      least one octave runs; with no octave it stays 0 and the division at the
      end of fractal3 is undefined. */
  lemma MaxAmpPositive(persistence: real, octaves: int)
    requires persistence > 0.0
    ensures MaxAmp(persistence, Iterations(octaves)) > 0.0 <==> octaves >= 1
    ensures octaves <= 0 ==> MaxAmp(persistence, Iterations(octaves)) == 0.0
  {
    var k := Iterations(octaves);
    if k >= 1 {
      AppliedAmpAtLeastOne(persistence, k);
      MaxAmpClosedForm(persistence, k);
      MulNonNeg(persistence, AppliedAmp(persistence, k) - 1.0);
    }
  }

  /** With at least one octave, a positive persistence and non-zero period
      and lacunarity, fractal3 is defined; with no octave it is not. */
  lemma FractalDefinedWhen(period: real, persistence: real, lacunarity: real, octaves: int)
    requires period != 0.0 && lacunarity != 0.0 && persistence > 0.0
    ensures FractalDefined(period, persistence, lacunarity, octaves) <==> octaves >= 1
  {
    MaxAmpPositive(persistence, octaves);
  }

  /** With noise in [-1, 1] and a non-negative persistence, the octave sum is
      bounded by the amplitudes applied. */
  lemma {:induction false} OctaveSumBound(noise: Vec3 -> real, v: Vec3, period: real, persistence: real, lacunarity: real, k: nat)
    requires period != 0.0 && lacunarity != 0.0 && persistence >= 0.0
    requires NoiseBounded(noise)
    ensures -AppliedAmp(persistence, k) <= OctaveSum(noise, v, period, persistence, lacunarity, k) <= AppliedAmp(persistence, k)
  {
    if k > 0 {
      OctaveSumBound(noise, v, period, persistence, lacunarity, k - 1);
      var w := Power(persistence, k - 1);
      var s := noise(Div(v, OctavePeriod(period, lacunarity, k - 1)));
      assert -1.0 <= s <= 1.0;
      PowerNonNeg(persistence, k - 1);
      MulMono(s, 1.0, w);
      MulMono(-1.0, s, w);
      assert -w <= w * s <= w;
      assert OctaveSum(noise, v, period, persistence, lacunarity, k)
          == OctaveSum(noise, v, period, persistence, lacunarity, k - 1) + w * s;
      assert AppliedAmp(persistence, k) == AppliedAmp(persistence, k - 1) + w;
    }
  }

  /** Because the normaliser is one persistence factor ahead of the applied
      amplitudes, fractal3 lies in [-1/persistence, 1/persistence] rather than
      in [-1, 1]. */
  lemma FractalBound(noise: Vec3 -> real, v: Vec3, period: real, persistence: real, lacunarity: real, octaves: int)
    requires period != 0.0 && lacunarity != 0.0 && persistence > 0.0 && octaves >= 1
    requires NoiseBounded(noise)
    ensures FractalDefined(period, persistence, lacunarity, octaves)
    ensures -1.0 / persistence <= Fractal3(noise, v, period, persistence, lacunarity, octaves) <= 1.0 / persistence
  {
    var k := Iterations(octaves);
    FractalDefinedWhen(period, persistence, lacunarity, octaves);
    OctaveSumBound(noise, v, period, persistence, lacunarity, k);
    AppliedAmpAtLeastOne(persistence, k);
    MaxAmpClosedForm(persistence, k);
    var s := OctaveSum(noise, v, period, persistence, lacunarity, k);
    var a := AppliedAmp(persistence, k);
    QuotientBound(s, a, persistence);
  }

  /** |s| <= a with a > 0 gives |s / (p * a)| <= 1 / p for p > 0. */
  lemma QuotientBound(s: real, a: real, p: real)
    requires a > 0.0 && p > 0.0 && -a <= s <= a
    ensures -1.0 / p <= s / (p * a) <= 1.0 / p
  {
    DivMono(-a, s, a);
    DivMono(s, a, a);
    assert -a / a == -1.0 && a / a == 1.0;
    DivDiv(s, a, p);
    DivMono(-1.0, s / a, p);
    DivMono(s / a, 1.0, p);
  }

  /** The height before the offset is added, per type code:
      1 — amplitude times one simplex sample at v / period;
      2 — fractal noise times amplitude, remapped from [-1, 1] to [0, 1],
          raised to `sharpness` and multiplied by amplitude once more;
      3 — ridged: 1 - |fractal noise|, floored at 0, raised to `sharpness`,
          times amplitude;
      any other code — 0. */
  predicate HeightDefined(t: TerrainParams)
  {
    && (t.kind == SimplexType ==> t.period != 0.0)
    && (t.kind == FractalType || t.kind == RidgedType ==>
          FractalDefined(t.period, t.persistence, t.lacunarity, t.octaves))
  }

  function RawHeight(noise: Vec3 -> real, pow: (real, real) -> real, t: TerrainParams, v: Vec3): real
    requires HeightDefined(t)
  {
    if t.kind == SimplexType then
      t.amplitude * noise(Div(v, t.period))
    else if t.kind == FractalType then
      var h := t.amplitude * Fractal3(noise, v, t.period, t.persistence, t.lacunarity, t.octaves);
      t.amplitude * pow(Max(0.0, (h + 1.0) / 2.0), t.sharpness)
    else if t.kind == RidgedType then
      var h := Fractal3(noise, v, t.period, t.persistence, t.lacunarity, t.octaves);
      t.amplitude * pow(Max(0.0, 1.0 - Abs(h)), t.sharpness)
    else
      0.0
  }

  /** terrainHeight: the raw height plus the offset, floored at 0. The
      height is never negative, whatever the type, amplitude or offset, and
      any type code other than 1, 2 or 3 yields exactly max(0, offset). */
  function TerrainHeight(noise: Vec3 -> real, pow: (real, real) -> real, t: TerrainParams, v: Vec3): (h: real)
    requires HeightDefined(t)
    ensures h >= 0.0
    ensures h >= RawHeight(noise, pow, t, v) + t.offset
    ensures t.kind != SimplexType && t.kind != FractalType && t.kind != RidgedType ==> h == Max(0.0, t.offset)
  {
    Max(0.0, RawHeight(noise, pow, t, v) + t.offset)
  }

  /** Ridged terrain (type 3) with a non-negative amplitude and a positive
      sharpness has a pre-offset height in [0, amplitude], since
      max(0, 1 - |f|) lies in [0, 1] for every fractal value f. */
  lemma RidgedBounded(noise: Vec3 -> real, pow: (real, real) -> real, t: TerrainParams, v: Vec3)
    requires t.kind == RidgedType && HeightDefined(t)
    requires t.amplitude >= 0.0 && t.sharpness > 0.0
    requires PowFacts(pow)
    ensures 0.0 <= RawHeight(noise, pow, t, v) <= t.amplitude
  {
    var f := Fractal3(noise, v, t.period, t.persistence, t.lacunarity, t.octaves);
    var b := Max(0.0, 1.0 - Abs(f));
    var w := pow(b, t.sharpness);
    assert 0.0 <= w <= 1.0;
    MulNonNeg(t.amplitude, w);
    MulMono(w, 1.0, t.amplitude);
  }

  /** Fractal terrain (type 2) with a non-negative amplitude and a positive
      sharpness has a non-negative pre-offset height. It has no upper bound
      of `amplitude`: the remapped value (amplitude * f + 1) / 2 exceeds 1
      once amplitude * f exceeds 1. */
  lemma FractalNonNegative(noise: Vec3 -> real, pow: (real, real) -> real, t: TerrainParams, v: Vec3)
    requires t.kind == FractalType && HeightDefined(t)
    requires t.amplitude >= 0.0 && t.sharpness > 0.0
    requires PowFacts(pow)
    ensures RawHeight(noise, pow, t, v) >= 0.0
  {
    var h := t.amplitude * Fractal3(noise, v, t.period, t.persistence, t.lacunarity, t.octaves);
    var w := pow(Max(0.0, (h + 1.0) / 2.0), t.sharpness);
    MulNonNeg(t.amplitude, w);
  }

  /** Simplex terrain (type 1) is bounded by the magnitude of the amplitude. */
  lemma SimplexBounded(noise: Vec3 -> real, pow: (real, real) -> real, t: TerrainParams, v: Vec3)
    requires t.kind == SimplexType && HeightDefined(t)
    requires NoiseBounded(noise)
    ensures -Abs(t.amplitude) <= RawHeight(noise, pow, t, v) <= Abs(t.amplitude)
  {
    var s := noise(Div(v, t.period));
    assert RawHeight(noise, pow, t, v) == t.amplitude * s;
    ScaledUnitBound(t.amplitude, s);
  }

  /** A sample in [-1, 1] scaled by a lies within [-|a|, |a|]. */
  lemma ScaledUnitBound(a: real, s: real)
    requires -1.0 <= s <= 1.0
    ensures -Abs(a) <= a * s <= Abs(a)
  {
    if a >= 0.0 {
      assert Abs(a) == a;
      MulMono(s, 1.0, a);
      MulMono(-1.0, s, a);
      assert -a <= s * a <= a;
    } else {
      assert Abs(a) == -a;
      MulMono(s, 1.0, -a);
      MulMono(-1.0, s, -a);
      assert a <= s * (-a) <= -a;
      assert a * s == -(s * (-a));
    }
  }
}
