/** The arithmetic of the two demo canvases: the sphere demo's pointer
    mapping and random sphere placement, and the colour-sphere demo's camera
    easing and per-vertex colour terms. The sphere demo's bloom swap and
    click toggle are in module Bloom. */
module CanvasMath {

  import opened Reals
  import opened Glsl
  import Bloom

  /** c / w lies in [0, 1] exactly when c lies in [0, w], and scaling back by
      w recovers c. */
  lemma UnitRatio(c: real, w: real)
    requires w > 0.0
    ensures 0.0 <= c <= w <==> 0.0 <= c / w <= 1.0
    ensures c == c / w * w
  {
    DivMono(0.0, c, w);
    DivMono(c, w, w);
    assert 0.0 / w == 0.0 && w / w == 1.0;
  }

  /** Normalised device coordinates of the pointer. */
  datatype Ndc = Ndc(x: real, y: real)

  /** onPointerDown's mapping: x = clientX / width * 2 - 1 and
      y = -(clientY / height) * 2 + 1. The window maps onto [-1, 1] in both
      axes, with y pointing up (clientY = 0 is y = 1), and the mapping is
      inverted by clientX = (x + 1) / 2 * width, clientY = (1 - y) / 2 * height. */
  function PointerToNdc(clientX: real, clientY: real, width: real, height: real): (p: Ndc)
    requires width > 0.0 && height > 0.0
    ensures 0.0 <= clientX <= width <==> -1.0 <= p.x <= 1.0
    ensures 0.0 <= clientY <= height <==> -1.0 <= p.y <= 1.0
    ensures clientX == (p.x + 1.0) / 2.0 * width
    ensures clientY == (1.0 - p.y) / 2.0 * height
  {
    UnitRatio(clientX, width);
    UnitRatio(clientY, height);
    Ndc(clientX / width * 2.0 - 1.0, -(clientY / height) * 2.0 + 1.0)
  }

  const SphereCount := 50
  /** Probability with which a sphere joins the bloom layer. */
  const BloomChance := 0.25

  /** The nine Math.random() results one iteration of the sphere loop draws,
      in the order it draws them. */
  datatype SphereDraws = SphereDraws(
    hue: real, lightness: real, x: real, y: real, z: real,
    reach: real, size1: real, size2: real, bloom: real)

  predicate ValidSphereDraws(d: SphereDraws)
  {
    && UnitInterval(d.hue) && UnitInterval(d.lightness) && UnitInterval(d.x) && UnitInterval(d.y) && UnitInterval(d.z)
    && UnitInterval(d.reach) && UnitInterval(d.size1) && UnitInterval(d.size2) && UnitInterval(d.bloom)
  }

  datatype Sphere = Sphere(position: Vec3, scale: real, glow: bool, hue: real, lightness: real)

  /** The position before normalisation: each coordinate random * 10 - 5. */
  function RawOffset(d: SphereDraws): Vec3
  {
    Vec3(d.x * 10.0 - 5.0, d.y * 10.0 - 5.0, d.z * 10.0 - 5.0)
  }

  /** The length the normalised position is multiplied by: random * 4 + 2. */
  function Reach(d: SphereDraws): real
  {
    d.reach * 4.0 + 2.0
  }

  /** One sphere of setupScene. Its position is the random offset normalised
      and multiplied by the reach, so for a non-zero offset its distance from
      the origin is the reach, in [2, 6); its uniform scale
      random * random + 0.5 lies in [0.5, 1.5); it glows exactly when the last
      draw is below 0.25. */
  function PlaceSphere(normalize: Vec3 -> Vec3, d: SphereDraws): (s: Sphere)
    requires ValidSphereDraws(d)
    ensures 2.0 <= Reach(d) < 6.0
    ensures UnitNormalize(normalize) && RawOffset(d) != Zero ==>
      && Dot(s.position, s.position) == Reach(d) * Reach(d)
      && 4.0 <= Dot(s.position, s.position) < 36.0
    ensures UnitNormalize(normalize) && RawOffset(d) == Zero ==> s.position == Zero
    ensures 0.5 <= s.scale < 1.5
    ensures s.glow <==> d.bloom < BloomChance
    ensures 0.0 <= s.hue < 1.0 && 0.05 <= s.lightness < 0.25
  {
    Sphere(SpherePosition(normalize, d), SphereScale(d.size1, d.size2),
           d.bloom < BloomChance, d.hue, d.lightness * 0.2 + 0.05)
  }

  /** The random offset normalised and multiplied by the reach: a point at
      distance Reach(d) from the origin, unless the offset is zero. */
  function SpherePosition(normalize: Vec3 -> Vec3, d: SphereDraws): (p: Vec3)
    requires UnitInterval(d.reach)
    ensures 4.0 <= Reach(d) * Reach(d) < 36.0
    ensures UnitNormalize(normalize) && RawOffset(d) != Zero ==> Dot(p, p) == Reach(d) * Reach(d)
    ensures UnitNormalize(normalize) && RawOffset(d) == Zero ==> p == Zero
  {
    SquareBounds(2.0, Reach(d), 6.0);
    ScaleLength(normalize(RawOffset(d)), Reach(d));
    Scale(normalize(RawOffset(d)), Reach(d))
  }

  /** random * random + 0.5, for two draws from [0, 1), lies in [0.5, 1.5). */
  function SphereScale(size1: real, size2: real): (r: real)
    requires UnitInterval(size1) && UnitInterval(size2)
    ensures 0.5 <= r < 1.5
  {
    MulNonNeg(size1, size2);
    if size2 > 0.0 then
      MulStrict(size1, 1.0, size2);
      size1 * size2 + 0.5
    else
      size1 * size2 + 0.5
  }

  /** setupScene's loop: fifty spheres, one per set of draws. */
  function SetupSpheres(normalize: Vec3 -> Vec3, draws: seq<SphereDraws>): (spheres: seq<Sphere>)
    requires |draws| == SphereCount
    requires forall i :: 0 <= i < |draws| ==> ValidSphereDraws(draws[i])
    ensures |spheres| == SphereCount
    ensures forall i :: 0 <= i < SphereCount ==> 0.5 <= spheres[i].scale < 1.5
    ensures forall i :: 0 <= i < SphereCount ==> (spheres[i].glow <==> draws[i].bloom < BloomChance)
    ensures UnitNormalize(normalize) ==> forall i :: 0 <= i < SphereCount && RawOffset(draws[i]) != Zero ==>
      4.0 <= Dot(spheres[i].position, spheres[i].position) < 36.0
  {
    seq(SphereCount, i requires 0 <= i < SphereCount => PlaceSphere(normalize, draws[i]))
  }

  /** The sphere demo's scene as the bloom swap sees it: the spheres in order,
      all meshes, ids their positions. */
  function SphereObjects(spheres: seq<Sphere>): (objs: seq<Bloom.Obj>)
    ensures |objs| == |spheres|
    ensures Bloom.DistinctIds(objs)
    ensures forall i :: 0 <= i < |objs| ==> objs[i].kind == Bloom.Mesh && objs[i].glow == spheres[i].glow
  {
    seq(|spheres|, i requires 0 <= i < |spheres| => Bloom.Obj(i, Bloom.Mesh, spheres[i].glow, Bloom.Own(i)))
  }

  /** In the sphere demo the bloom composer sees exactly the spheres whose
      bloom draw was below 0.25 in their own material and all others black,
      and the render leaves every sphere as it was and the stash empty. */
  lemma SphereDemoRender(normalize: Vec3 -> Vec3, draws: seq<SphereDraws>)
    requires |draws| == SphereCount
    requires forall i :: 0 <= i < |draws| ==> ValidSphereDraws(draws[i])
    ensures var objs := SphereObjects(SetupSpheres(normalize, draws));
            var f := Bloom.Render(Bloom.SphereDemoBloom, objs, map[]);
            && f.scene == objs && f.stash == map[]
            && forall i :: 0 <= i < SphereCount ==>
                 (f.bloomView[i].material == objs[i].material <==> draws[i].bloom < BloomChance)
  {
    var objs := SphereObjects(SetupSpheres(normalize, draws));
    var empty: Bloom.Stash := map[];
    assert empty.Keys == {};
    assert forall i :: 0 <= i < |objs| ==> objs[i].material != Bloom.DarkMaterial;
  }

  /** The colour-sphere demo's camera; only x and y are ever eased. */
  datatype Camera = Camera(x: real, y: real, z: real)

  const EaseRate := 0.05

  /** onDocumentMouseMove: the pointer relative to the centre of the view.
      A pointer inside the view gives an offset of at most half the view's
      size in each axis, the centre gives 0, and adding the half size back
      recovers the pointer. */
  function MouseOffset(clientX: real, clientY: real, halfWidth: real, halfHeight: real): (m: (real, real))
    ensures halfWidth > 0.0 ==> (0.0 <= clientX <= 2.0 * halfWidth <==> -halfWidth <= m.0 <= halfWidth)
    ensures halfHeight > 0.0 ==> (0.0 <= clientY <= 2.0 * halfHeight <==> -halfHeight <= m.1 <= halfHeight)
    ensures m.0 == 0.0 <==> clientX == halfWidth
    ensures m.1 == 0.0 <==> clientY == halfHeight
    ensures clientX == m.0 + halfWidth && clientY == m.1 + halfHeight
  {
    (clientX - halfWidth, clientY - halfHeight)
  }

  /** One render step: the camera moves 5% of the way towards (mouseX,
      -mouseY), so the remaining gap in x and in y is exactly 0.95 of what it
      was and never grows; z is untouched. */
  function EaseCamera(c: Camera, mouseX: real, mouseY: real): (c': Camera)
    ensures mouseX - c'.x == 0.95 * (mouseX - c.x)
    ensures -mouseY - c'.y == 0.95 * (-mouseY - c.y)
    ensures Abs(mouseX - c'.x) <= Abs(mouseX - c.x) && Abs(-mouseY - c'.y) <= Abs(-mouseY - c.y)
    ensures c'.z == c.z
  {
    Camera(c.x + (mouseX - c.x) * EaseRate, c.y + (-mouseY - c.y) * EaseRate, c.z)
  }

  /** n frames of easing with the pointer held still. */
  function EaseFrames(c: Camera, mouseX: real, mouseY: real, n: nat): Camera
  {
    if n == 0 then c else EaseCamera(EaseFrames(c, mouseX, mouseY, n - 1), mouseX, mouseY)
  }

  /** A gap g shrunk by the factor 0.95 once per frame for n frames. */
  function Decay(g: real, n: nat): real
  {
    if n == 0 then g else 0.95 * Decay(g, n - 1)
  }

  /** Frame by frame, the gap to the target follows Decay. */
  lemma {:induction false} EaseFramesDecay(c: Camera, mouseX: real, mouseY: real, n: nat)
    ensures mouseX - EaseFrames(c, mouseX, mouseY, n).x == Decay(mouseX - c.x, n)
    ensures -mouseY - EaseFrames(c, mouseX, mouseY, n).y == Decay(-mouseY - c.y, n)
    ensures EaseFrames(c, mouseX, mouseY, n).z == c.z
  {
    if n > 0 {
      EaseFramesDecay(c, mouseX, mouseY, n - 1);
    }
  }

  /** Decay in closed form: 0.95^n * g. */
  lemma {:induction false} DecayClosedForm(g: real, n: nat)
    ensures Decay(g, n) == Power(0.95, n) * g
  {
    if n > 0 {
      DecayClosedForm(g, n - 1);
      MulAssoc(0.95, Power(0.95, n - 1), g);
    }
  }

  /** After n frames with the pointer held still the gap to the target is
      0.95^n of the initial gap, in each axis. */
  lemma EaseFramesGap(c: Camera, mouseX: real, mouseY: real, n: nat)
    ensures mouseX - EaseFrames(c, mouseX, mouseY, n).x == Power(0.95, n) * (mouseX - c.x)
    ensures -mouseY - EaseFrames(c, mouseX, mouseY, n).y == Power(0.95, n) * (-mouseY - c.y)
    ensures EaseFrames(c, mouseX, mouseY, n).z == c.z
  {
    EaseFramesDecay(c, mouseX, mouseY, n);
    DecayClosedForm(mouseX - c.x, n);
    DecayClosedForm(-mouseY - c.y, n);
  }

  /** Radius of the three colour spheres. */
  const ColourSphereRadius := 200.0

  /** (y / radius + 1) / 2: the vertex height as a fraction of the sphere's
      extent. It lies in [0, 1] exactly when the vertex lies within the
      sphere's vertical extent, and y is recovered as (2t - 1) * radius. */
  function HeightFraction(y: real, radius: real): (t: real)
    requires radius > 0.0
    ensures -radius <= y <= radius <==> 0.0 <= t <= 1.0
    ensures y == (2.0 * t - 1.0) * radius
  {
    DivMono(-radius, y, radius);
    DivMono(y, radius, radius);
    assert -radius / radius == -1.0 && radius / radius == 1.0;
    (y / radius + 1.0) / 2.0
  }

  /** The three per-vertex colour terms of init: the hue of sphere 1, the
      saturation of sphere 2 and the green channel 0.8 - t of sphere 3. For a
      vertex of the sphere the first two lie in [0, 1] and the third in
      [-0.2, 0.8]. */
  datatype VertexColour = VertexColour(hue1: real, saturation2: real, green3: real)

  function VertexColourTerms(y: real): (c: VertexColour)
    ensures -ColourSphereRadius <= y <= ColourSphereRadius ==>
      && 0.0 <= c.hue1 <= 1.0 && 0.0 <= c.saturation2 <= 1.0
      && -0.2 <= c.green3 <= 0.8
    ensures c.green3 == 0.8 - c.saturation2
  {
    var t := HeightFraction(y, ColourSphereRadius);
    VertexColour(t, t, 0.8 - t)
  }
}
