/** The `main` functions of the planet vertex and fragment shaders: terrain
    displacement of the vertex, bump-mapped normal, ambient + diffuse +
    specular lighting with a height-dependent specular falloff, and the
    four stacked colour-layer blends. */
module PlanetShader {

  import opened Reals
  import opened Glsl
  import opened Terrain

  /** The colour, bump and lighting uniforms of the fragment shader. */
  datatype Shading = Shading(
    color1: Vec3, color2: Vec3, color3: Vec3, color4: Vec3, color5: Vec3,
    transition2: real, transition3: real, transition4: real, transition5: real,
    blend12: real, blend23: real, blend34: real, blend45: real,
    bumpStrength: real, bumpOffset: real,
    ambientIntensity: real, diffuseIntensity: real, specularIntensity: real, shininess: real,
    lightDirection: Vec3, lightColor: Vec3)

  /** Every smoothstep gets edge0 < edge1 (a positive blend width) and the
      specular falloff does not divide by zero. */
  predicate ShadingDefined(s: Shading)
  {
    && s.blend12 > 0.0 && s.blend23 > 0.0 && s.blend34 > 0.0 && s.blend45 > 0.0
    && s.transition3 != 0.0
  }

  /** One colour layer: mix(below, above, smoothstep(t - w, t + w, h)). At or
      below t - w it is exactly `below`, at or above t + w exactly `above`,
      and in between every channel lies between the two. */
  function LayerBlend(below: Vec3, above: Vec3, transition: real, blend: real, h: real): (c: Vec3)
    requires blend > 0.0
    ensures h <= transition - blend ==> c == below
    ensures h >= transition + blend ==> c == above
    ensures Within(c, VMin(below, above), VMax(below, above))
  {
    var w := Smoothstep(transition - blend, transition + blend, h);
    MixVecBetween(below, above, w);
    MixVec(below, above, w)
  }

  /** Channel-wise lower and upper corners of the box spanned by the five
      layer colours. */
  function HullLo(s: Shading): Vec3
  {
    VMin(s.color1, VMin(s.color2, VMin(s.color3, VMin(s.color4, s.color5))))
  }

  function HullHi(s: Shading): Vec3
  {
    VMax(s.color1, VMax(s.color2, VMax(s.color3, VMax(s.color4, s.color5))))
  }

  /** The four stacked blends 1→2, →3, →4, →5. Below every lower blend edge
      the colour is layer 1; at or above transition5 + blend45 it is layer 5
      whatever the earlier layers gave; and it never leaves the box spanned by
      the five layer colours. */
  function LayeredColor(s: Shading, h: real): (c: Vec3)
    requires ShadingDefined(s)
    ensures (&& h <= s.transition2 - s.blend12 && h <= s.transition3 - s.blend23
             && h <= s.transition4 - s.blend34 && h <= s.transition5 - s.blend45) ==> c == s.color1
    ensures h >= s.transition5 + s.blend45 ==> c == s.color5
    ensures Within(c, HullLo(s), HullHi(s))
  {
    var c12 := LayerBlend(s.color1, s.color2, s.transition2, s.blend12, h);
    var c123 := LayerBlend(c12, s.color3, s.transition3, s.blend23, h);
    var c1234 := LayerBlend(c123, s.color4, s.transition4, s.blend34, h);
    LayerBlend(c1234, s.color5, s.transition5, s.blend45, h)
  }

  /** clamp((transition3 - h) / transition3, 0, 1): full specular at sea level,
      none at or above the third transition height. */
  function SpecularFalloff(transition3: real, h: real): (f: real)
    requires transition3 != 0.0
    ensures 0.0 <= f <= 1.0
    ensures transition3 > 0.0 && h >= transition3 ==> f == 0.0
    ensures transition3 > 0.0 && h <= 0.0 ==> f == 1.0
  {
    assert transition3 > 0.0 && h >= transition3 ==> (transition3 - h) / transition3 <= 0.0 by {
      if transition3 > 0.0 && h >= transition3 {
        DivNonPos(transition3 - h, transition3);
      }
    }
    assert transition3 > 0.0 && h <= 0.0 ==> (transition3 - h) / transition3 >= 1.0 by {
      if transition3 > 0.0 && h <= 0.0 {
        DivAtLeastOne(transition3 - h, transition3);
      }
    }
    Clamp((transition3 - h) / transition3, 0.0, 1.0)
  }

  /** What one fragment-shader invocation computes. `surface` is the displaced
      point pos, `rgb` and `alpha` make up gl_FragColor. */
  datatype Fragment = Fragment(
    height: real, surface: Vec3, normal: Vec3,
    diffuse: real, falloff: real, specular: real, light: real,
    color: Vec3, rgb: Vec3, alpha: real)

  /** The fragment shader's main. `noise`, `pow` and `normalize` stand for
      simplex3, GLSL pow and GLSL normalize. */
  function ShadeFragment(
    noise: Vec3 -> real, pow: (real, real) -> real, normalize: Vec3 -> Vec3,
    t: TerrainParams, radius: real, s: Shading,
    position: Vec3, normal: Vec3, tangent: Vec3, bitangent: Vec3, cameraPosition: Vec3): (f: Fragment)
    requires HeightDefined(t) && ShadingDefined(s)
    ensures f.height >= 0.0
    ensures 0.0 <= f.falloff <= 1.0
    ensures f.specular >= 0.0
    ensures s.transition3 > 0.0 && f.height >= s.transition3 ==> f.specular == 0.0
    ensures s.diffuseIntensity >= 0.0 ==> f.diffuse >= 0.0 && f.light >= s.ambientIntensity
    ensures s.bumpStrength == 0.0 ==> f.normal == normalize(normal)
    ensures Within(f.color, HullLo(s), HullHi(s))
    ensures f.rgb == Mul(Scale(f.color, f.light), s.lightColor) && f.alpha == 1.0
  {
    var h := TerrainHeight(noise, pow, t, position);
    var dx := Scale(tangent, s.bumpOffset);
    var hDx := TerrainHeight(noise, pow, t, Add(position, dx));
    var dy := Scale(bitangent, s.bumpOffset);
    var hDy := TerrainHeight(noise, pow, t, Add(position, dy));
    var pos := Scale(position, radius + h);
    var posDx := Scale(Add(position, dx), radius + hDx);
    var posDy := Scale(Add(position, dy), radius + hDy);
    var bumpNormal := normalize(Cross(Sub(posDx, pos), Sub(posDy, pos)));
    var n := normalize(MixVec(normal, bumpNormal, s.bumpStrength));
    var l := normalize(Neg(s.lightDirection));
    var view := normalize(Sub(cameraPosition, pos));
    var r := normalize(Reflect(l, n));
    var diffuse := s.diffuseIntensity * Max(0.0, Dot(n, Neg(l)));
    var falloff := SpecularFalloff(s.transition3, h);
    var specular := Max(0.0, falloff * s.specularIntensity * pow(Dot(view, r), s.shininess));
    var light := s.ambientIntensity + diffuse + specular;
    var color := LayeredColor(s, h);
    assert s.diffuseIntensity >= 0.0 ==> diffuse >= 0.0 by {
      if s.diffuseIntensity >= 0.0 {
        MulNonNeg(s.diffuseIntensity, Max(0.0, Dot(n, Neg(l))));
      }
    }
    assert s.bumpStrength == 0.0 ==> MixVec(normal, bumpNormal, s.bumpStrength) == normal;
    Fragment(h, pos, n, diffuse, falloff, specular, light, color, Mul(Scale(color, light), s.lightColor), 1.0)
  }

  /** What one vertex-shader invocation computes: the terrain height, the
      displaced position and the varyings handed to the fragment shader. */
  datatype Vertex = Vertex(
    height: real, scale: real, displaced: Vec3,
    fragPosition: Vec3, fragNormal: Vec3, fragTangent: Vec3, fragBitangent: Vec3)

  /** The vertex shader's main (without the projection and model-view
      matrices). The vertex moves along its position vector by a factor of at
      least `radius`, since the height is never negative; on the unit sphere
      the displaced point therefore lies at least `radius` from the centre.
      The bitangent handed on is orthogonal to both the normal and the
      tangent. */
  function ShadeVertex(
    noise: Vec3 -> real, pow: (real, real) -> real,
    t: TerrainParams, radius: real, position: Vec3, normal: Vec3, tangent: Vec3): (v: Vertex)
    requires HeightDefined(t)
    ensures v.scale >= radius && v.displaced == Scale(position, v.scale)
    ensures radius >= 0.0 && Dot(position, position) == 1.0 ==> Dot(v.displaced, v.displaced) >= radius * radius
    ensures Dot(v.fragBitangent, normal) == 0.0 && Dot(v.fragBitangent, tangent) == 0.0
    ensures v.fragPosition == position && v.fragNormal == normal && v.fragTangent == tangent
  {
    var h := TerrainHeight(noise, pow, t, position);
    var k := radius + h;
    ScaleLength(position, k);
    assert radius >= 0.0 ==> k * k >= radius * radius by {
      if radius >= 0.0 {
        SquareMono(radius, k);
      }
    }
    CrossOrthogonal(normal, tangent);
    Vertex(h, k, Scale(position, k), position, normal, tangent, Cross(normal, tangent))
  }

  /** For a fragment that sits exactly at a vertex, where the varyings carry
      the vertex shader's own outputs, the fragment shader recomputes the same
      terrain height and the same displaced point as the vertex shader.
      Between vertices the rasteriser interpolates the varyings, which this
      model does not. */
  lemma VertexFragmentAgree(
    noise: Vec3 -> real, pow: (real, real) -> real, normalize: Vec3 -> Vec3,
    t: TerrainParams, radius: real, s: Shading,
    position: Vec3, normal: Vec3, tangent: Vec3, cameraPosition: Vec3)
    requires HeightDefined(t) && ShadingDefined(s)
    ensures var v := ShadeVertex(noise, pow, t, radius, position, normal, tangent);
            var f := ShadeFragment(noise, pow, normalize, t, radius, s,
                                   v.fragPosition, v.fragNormal, v.fragTangent, v.fragBitangent, cameraPosition);
            f.height == v.height && f.surface == v.displaced
  {
  }
}
