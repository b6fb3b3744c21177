/** The orbital background scene: a sun at the origin and five planets on
    circular orbits in the horizontal plane, each with a trajectory ring.
    Setup draws every planet's colour, orbit distance, phase, angular velocity
    and scale from Math.random(); the per-frame update recomputes only the
    planets' positions.

    Math.random() results are inputs in [0, 1); Math.cos and Math.sin are the
    parameters `cos` and `sin`, of which the lemmas only assume
    cos^2 + sin^2 = 1. */
module Orbits {

  import opened Reals
  import opened Glsl
  import Bloom

  const PlanetCount := 5
  /** Math.PI. */
  const Pi := 3.141592653589793
  /** Orbit distance before the first planet's increment. */
  const StartDistance := 5.0
  /** Half the width of a trajectory ring. */
  const RingHalfWidth := 0.04
  const RingSegments := 64
  /** The animation clock is performance.now() * 0.05. */
  const TimeScale := 0.05

  /** The six Math.random() results one iteration of the setup loop draws, in
      the order it draws them. */
  datatype PlanetDraws = PlanetDraws(hue: real, lightness: real, spread: real, phase: real, speed: real, size: real)

  predicate ValidDraws(d: PlanetDraws)
  {
    && UnitInterval(d.hue) && UnitInterval(d.lightness) && UnitInterval(d.spread)
    && UnitInterval(d.phase) && UnitInterval(d.speed) && UnitInterval(d.size)
  }

  /** A planet: its orbit (distance, phase angle, angular velocity), its mesh
      scale, its HSL colour (saturation is always 0.7) and its current
      position. */
  datatype Planet = Planet(
    distance: real, angle: real, angleVelocity: real, scale: real,
    hue: real, lightness: real, position: Vec3)

  datatype Ring = Ring(inner: real, outer: real, segments: nat)

  datatype Scene = Scene(planets: seq<Planet>, rings: seq<Ring>)

  /** The increment added to the orbit distance: (2 + (r * 5 + scale)) * 0.6,
      where `scale` is still the value of the planet before (1 for the
      first), because the loop reassigns it only afterwards. */
  function DistanceStep(spread: real, previousScale: real): real
  {
    (2.0 + (spread * 5.0 + previousScale)) * 0.6
  }

  /** (cos(phase) * distance, 0, sin(phase) * distance). */
  function OrbitPosition(cos: real -> real, sin: real -> real, distance: real, phase: real): Vec3
  {
    Vec3(cos(phase) * distance, 0.0, sin(phase) * distance)
  }

  /** The ranges a planet's drawn values fall in. */
  predicate PlanetInRange(p: Planet)
  {
    && 0.0 <= p.angle < 2.0 * Pi
    && 0.01 <= p.angleVelocity < 0.02
    && 0.5 <= p.scale < 1.0
    && 0.0 <= p.hue < 1.0
    && 0.05 <= p.lightness < 0.25
  }

  /** setupScene's planet loop. It creates exactly five planets and five
      rings; ring i spans distance_i -/+ 0.04. The first distance is
      5 + (2 + (r * 5 + 1)) * 0.6 and every later one adds an increment built
      from the PREVIOUS planet's scale, so the distances start above 5 and
      grow by at least 1.5 per planet and the rings never overlap. */
  method SetupScene(cos: real -> real, sin: real -> real, draws: seq<PlanetDraws>) returns (s: Scene)
    requires |draws| == PlanetCount
    requires forall i :: 0 <= i < |draws| ==> ValidDraws(draws[i])
    ensures |s.planets| == PlanetCount && |s.rings| == PlanetCount
    ensures forall i :: 0 <= i < PlanetCount ==>
      s.rings[i] == Ring(s.planets[i].distance - RingHalfWidth, s.planets[i].distance + RingHalfWidth, RingSegments)
    ensures s.planets[0].distance == StartDistance + DistanceStep(draws[0].spread, 1.0)
    ensures forall i :: 0 < i < PlanetCount ==>
      s.planets[i].distance == s.planets[i - 1].distance + DistanceStep(draws[i].spread, s.planets[i - 1].scale)
    ensures forall i :: 0 <= i < PlanetCount ==> s.planets[i].scale == draws[i].size * 0.5 + 0.5
    ensures s.planets[0].distance >= StartDistance + 1.8
    ensures forall i :: 0 < i < PlanetCount ==> s.planets[i].distance >= s.planets[i - 1].distance + 1.5
    ensures forall i :: 0 <= i < PlanetCount - 1 ==> s.rings[i].outer < s.rings[i + 1].inner
    ensures forall i :: 0 <= i < PlanetCount ==> PlanetInRange(s.planets[i])
    ensures forall i :: 0 <= i < PlanetCount ==>
      s.planets[i].position == OrbitPosition(cos, sin, s.planets[i].distance, s.planets[i].angle)
  {
    var planets: seq<Planet> := [];
    var distance := StartDistance;
    var scale := 1.0;
    var i := 0;
    while i < PlanetCount
      invariant 0 <= i <= PlanetCount
      invariant Built(cos, sin, draws[..i], planets)
      invariant distance == LastDistance(planets) && scale == LastScale(planets)
    {
      var planet := NewPlanet(cos, sin, draws[i], distance, scale);
      BuiltExtend(cos, sin, draws[..i], planets, draws[i]);
      assert draws[..i + 1] == draws[..i] + [draws[i]];
      distance := planet.distance;
      scale := planet.scale;
      planets := planets + [planet];
      i := i + 1;
    }
    assert draws[..i] == draws;
    Spacing(draws, planets);
    s := Scene(planets, Rings(planets));
  }

  /** One trajectory ring per planet, 0.04 either side of its orbit. */
  function Rings(planets: seq<Planet>): (rings: seq<Ring>)
    ensures |rings| == |planets|
    ensures forall i :: 0 <= i < |planets| ==>
      rings[i] == Ring(planets[i].distance - RingHalfWidth, planets[i].distance + RingHalfWidth, RingSegments)
    ensures (forall i :: 0 < i < |planets| ==> planets[i].distance >= planets[i - 1].distance + 1.5) ==>
      forall i :: 0 <= i < |planets| - 1 ==> rings[i].outer < rings[i + 1].inner
  {
    seq(|planets|, i requires 0 <= i < |planets| =>
      Ring(planets[i].distance - RingHalfWidth, planets[i].distance + RingHalfWidth, RingSegments))
  }

  /** The distance and scale the next planet is placed after: the last
      planet's, or the start values 5 and 1 before the first. */
  function LastDistance(planets: seq<Planet>): real
  {
    if |planets| == 0 then StartDistance else planets[|planets| - 1].distance
  }

  function LastScale(planets: seq<Planet>): real
  {
    if |planets| == 0 then 1.0 else planets[|planets| - 1].scale
  }

  /** What the setup loop has established about the planets placed so far,
      one per draw. */
  predicate Built(cos: real -> real, sin: real -> real, draws: seq<PlanetDraws>, planets: seq<Planet>)
  {
    && |planets| == |draws|
    && (|planets| > 0 ==> planets[0].distance == StartDistance + DistanceStep(draws[0].spread, 1.0))
    && (forall j :: 0 < j < |planets| ==>
          planets[j].distance == planets[j - 1].distance + DistanceStep(draws[j].spread, planets[j - 1].scale))
    && (forall j :: 0 <= j < |planets| ==> planets[j].scale == draws[j].size * 0.5 + 0.5)
    && (forall j :: 0 <= j < |planets| ==> PlanetInRange(planets[j]))
    && (forall j :: 0 <= j < |planets| ==>
          planets[j].position == OrbitPosition(cos, sin, planets[j].distance, planets[j].angle))
  }

  /** One more iteration of the setup loop keeps Built. */
  lemma BuiltExtend(cos: real -> real, sin: real -> real, draws: seq<PlanetDraws>, planets: seq<Planet>, d: PlanetDraws)
    requires Built(cos, sin, draws, planets) && ValidDraws(d)
    ensures Built(cos, sin, draws + [d], planets + [NewPlanet(cos, sin, d, LastDistance(planets), LastScale(planets))])
  {
    var p := NewPlanet(cos, sin, d, LastDistance(planets), LastScale(planets));
    var planets', draws' := planets + [p], draws + [d];
    assert forall j :: 0 <= j < |planets| ==> planets'[j] == planets[j] && draws'[j] == draws[j];
  }

  /** Since every scale is at least 0.5, every increment is at least 1.5;
      the first, built from scale 1, is at least 1.8. */
  lemma Spacing(draws: seq<PlanetDraws>, planets: seq<Planet>)
    requires |draws| == |planets| > 0
    requires forall i :: 0 <= i < |draws| ==> ValidDraws(draws[i])
    requires planets[0].distance == StartDistance + DistanceStep(draws[0].spread, 1.0)
    requires forall i :: 0 < i < |planets| ==>
      planets[i].distance == planets[i - 1].distance + DistanceStep(draws[i].spread, planets[i - 1].scale)
    requires forall i :: 0 <= i < |planets| ==> planets[i].scale == draws[i].size * 0.5 + 0.5
    ensures planets[0].distance >= StartDistance + 1.8
    ensures forall i :: 0 < i < |planets| ==> planets[i].distance >= planets[i - 1].distance + 1.5
  {
    assert UnitInterval(draws[0].spread);
    forall i | 0 < i < |planets|
      ensures planets[i].distance >= planets[i - 1].distance + 1.5
    {
      assert UnitInterval(draws[i].spread) && UnitInterval(draws[i - 1].size);
    }
  }

  /** One iteration of the setup loop: the planet placed after one at
      `distance` whose scale was `scale`. */
  function NewPlanet(cos: real -> real, sin: real -> real, d: PlanetDraws, distance: real, scale: real): (p: Planet)
    requires ValidDraws(d)
    ensures p.distance == distance + DistanceStep(d.spread, scale)
    ensures 0.5 <= scale ==> p.distance >= distance + 1.5
    ensures scale == 1.0 ==> p.distance >= distance + 1.8
    ensures p.scale == d.size * 0.5 + 0.5
    ensures PlanetInRange(p)
    ensures p.position == OrbitPosition(cos, sin, p.distance, p.angle)
  {
    var distance' := distance + DistanceStep(d.spread, scale);
    var angle := d.phase * Pi * 2.0;
    Planet(distance', angle, d.speed * 0.01 + 0.01, d.size * 0.5 + 0.5, d.hue, d.lightness * 0.2 + 0.05,
           OrbitPosition(cos, sin, distance', angle))
  }

  /** The distance grows by at least 1.5 per planet: ring i+1 lies entirely
      outside ring i, for any pair of planets. */
  lemma {:induction false} DistancesIncrease(planets: seq<Planet>, i: nat, j: nat)
    requires forall k :: 0 < k < |planets| ==> planets[k].distance >= planets[k - 1].distance + 1.5
    requires i < j < |planets|
    ensures planets[j].distance >= planets[i].distance + 1.5 * (j - i) as real
  {
    if j > i + 1 {
      DistancesIncrease(planets, i, j - 1);
    }
  }

  /** animate's update at clock value `now` (milliseconds): each planet moves
      to angle + angleVelocity * (now * 0.05) on its orbit. Only the position
      changes; distance, angle, angular velocity, scale and colour stay as
      set up, and the planet stays in the horizontal plane. */
  function Animate(cos: real -> real, sin: real -> real, planets: seq<Planet>, now: real): (r: seq<Planet>)
    ensures |r| == |planets|
    ensures forall i :: 0 <= i < |planets| ==> r[i] == planets[i].(position := r[i].position)
    ensures forall i :: 0 <= i < |planets| ==> r[i].position.y == 0.0
  {
    var time := now * TimeScale;
    seq(|planets|, i requires 0 <= i < |planets| => Advance(cos, sin, planets[i], time))
  }

  /** One planet's position at animation time `time`. */
  function Advance(cos: real -> real, sin: real -> real, p: Planet, time: real): Planet
  {
    p.(position := OrbitPosition(cos, sin, p.distance, p.angle + p.angleVelocity * time))
  }

  /** cos^2 + sin^2 = 1. */
  ghost predicate Trig(cos: real -> real, sin: real -> real)
  {
    forall t :: cos(t) * cos(t) + sin(t) * sin(t) == 1.0
  }

  /** After every frame each planet lies on the circle of radius `distance`
      around the sun in the plane y = 0. */
  lemma AnimateOnOrbit(cos: real -> real, sin: real -> real, planets: seq<Planet>, now: real)
    requires Trig(cos, sin)
    ensures forall i :: 0 <= i < |planets| ==>
      var p := Animate(cos, sin, planets, now)[i].position;
      p.x * p.x + p.z * p.z == planets[i].distance * planets[i].distance
  {
    var r := Animate(cos, sin, planets, now);
    forall i | 0 <= i < |planets|
      ensures r[i].position.x * r[i].position.x + r[i].position.z * r[i].position.z
           == planets[i].distance * planets[i].distance
    {
      var phase := planets[i].angle + planets[i].angleVelocity * (now * TimeScale);
      assert r[i] == Advance(cos, sin, planets[i], now * TimeScale);
      CircleRadius(cos(phase), sin(phase), planets[i].distance);
    }
  }

  lemma CircleRadius(c: real, s: real, d: real)
    requires c * c + s * s == 1.0
    ensures (c * d) * (c * d) + (s * d) * (s * d) == d * d
  {
    assert (c * d) * (c * d) + (s * d) * (s * d) == (c * c + s * s) * (d * d);
  }

  /** At clock 0 the update puts every planet exactly where setup placed it. */
  lemma AnimateAtZero(cos: real -> real, sin: real -> real, planets: seq<Planet>)
    requires forall i :: 0 <= i < |planets| ==>
      planets[i].position == OrbitPosition(cos, sin, planets[i].distance, planets[i].angle)
    ensures Animate(cos, sin, planets, 0.0) == planets
  {
    var r := Animate(cos, sin, planets, 0.0);
    forall i | 0 <= i < |planets| ensures r[i] == planets[i] {
      assert r[i] == Advance(cos, sin, planets[i], 0.0 * TimeScale);
      assert planets[i].angle + planets[i].angleVelocity * (0.0 * TimeScale) == planets[i].angle;
    }
  }

  const LightId := 0
  const AmbientLightId := 1
  const SunId := 2

  /** The scene's children in traversal order as the bloom swap sees them
      (the traversal visits the scene root first, which is neither a mesh nor
      a line and so is never swapped): the point light, the ambient light, the sun (the only object put in the bloom
      layer), then for each planet its mesh and its trajectory ring (both
      meshes). Ids are positions in this list. */
  function BackgroundObjects(planetCount: nat): (objs: seq<Bloom.Obj>)
    ensures |objs| == 3 + 2 * planetCount
    ensures Bloom.DistinctIds(objs)
    ensures forall k :: 0 <= k < |objs| ==> objs[k].id == k
    ensures forall k :: 0 <= k < |objs| ==> (objs[k].glow <==> k == SunId)
    ensures forall k :: 0 <= k < |objs| ==> objs[k].kind == (if k >= SunId then Bloom.Mesh else Bloom.Other)
  {
    [Bloom.Obj(LightId, Bloom.Other, false, Bloom.Own(LightId)),
     Bloom.Obj(AmbientLightId, Bloom.Other, false, Bloom.Own(AmbientLightId)),
     Bloom.Obj(SunId, Bloom.Mesh, true, Bloom.Own(SunId))]
    + seq(2 * planetCount, k requires 0 <= k < 2 * planetCount => Bloom.Obj(3 + k, Bloom.Mesh, false, Bloom.Own(3 + k)))
  }

  /** One render of the background: the bloom composer sees the sun in its
      own material and every planet and ring in black (the lights have no
      material to swap), and afterwards the scene is exactly as before with
      the stash empty again. */
  lemma BackgroundRender(planetCount: nat)
    ensures var objs := BackgroundObjects(planetCount);
            var f := Bloom.Render(Bloom.BackgroundBloom, objs, map[]);
            && f.scene == objs && f.stash == map[]
            && f.bloomView[SunId] == objs[SunId]
            && f.bloomView[LightId] == objs[LightId] && f.bloomView[AmbientLightId] == objs[AmbientLightId]
            && forall k :: 3 <= k < |objs| ==> f.bloomView[k].material == Bloom.DarkMaterial
  {
    SunOnlyGlows(BackgroundObjects(planetCount));
  }

  lemma SunOnlyGlows(objs: seq<Bloom.Obj>)
    requires |objs| >= 3 && Bloom.DistinctIds(objs)
    requires forall k :: 0 <= k < |objs| ==> (objs[k].glow <==> k == SunId)
    requires forall k :: 0 <= k < |objs| ==> objs[k].kind == (if k >= SunId then Bloom.Mesh else Bloom.Other)
    ensures Bloom.Render(Bloom.BackgroundBloom, objs, map[]).scene == objs
    ensures Bloom.Render(Bloom.BackgroundBloom, objs, map[]).stash == map[]
    ensures Bloom.Render(Bloom.BackgroundBloom, objs, map[]).bloomView[SunId] == objs[SunId]
    ensures Bloom.Render(Bloom.BackgroundBloom, objs, map[]).bloomView[LightId] == objs[LightId]
    ensures Bloom.Render(Bloom.BackgroundBloom, objs, map[]).bloomView[AmbientLightId] == objs[AmbientLightId]
    ensures forall k :: 3 <= k < |objs| ==>
      Bloom.Render(Bloom.BackgroundBloom, objs, map[]).bloomView[k].material == Bloom.DarkMaterial
  {
    var empty: Bloom.Stash := map[];
    assert empty.Keys == {};
    assert !Bloom.Darkens(Bloom.BackgroundBloom, objs[SunId]);
    assert !Bloom.Darkens(Bloom.BackgroundBloom, objs[LightId]);
    assert !Bloom.Darkens(Bloom.BackgroundBloom, objs[AmbientLightId]);
    assert forall k :: 3 <= k < |objs| ==> Bloom.Darkens(Bloom.BackgroundBloom, objs[k]);
  }
}
