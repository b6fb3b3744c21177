# Orbital background, planet shaders and selective bloom — a Dafny model

This project models the computational core of the website's 3D scenes:

- the planet shaders (`Shaders.tsx`): the multi-octave `fractal3` noise sum,
  the `terrainHeight` dispatch on the noise type, the vertex displacement, and
  the fragment shader's bump-mapped normal, its lighting with the
  height-dependent specular falloff and its four stacked colour-layer blends;
- the orbital background (`Background.tsx`): the set-up of the sun, the five
  planets and their trajectory rings, the per-frame orbit update, and the
  selective-bloom material swap (darken every non-glowing mesh and every line,
  render the bloom pass, restore the materials);
- the two demo canvases (`Canvas.tsx`): the sphere demo's pointer-to-device
  mapping, its random sphere placement, its bloom swap (meshes only) and its
  click toggle of bloom-layer membership; the colour-sphere demo's camera
  easing and per-vertex colour terms.

Numbers are Dafny `real`s. `simplex3`, GLSL `pow` and `normalize`, and
`Math.cos`/`Math.sin` are function-valued parameters. The proofs assume only
the facts they need about them: noise in [-1, 1] (`Terrain.NoiseBounded`), a
power of a base in [0, 1] stays in [0, 1] (`Terrain.PowFacts`), a normalised
non-zero vector has length 1 (`Glsl.UnitNormalize`), and cos² + sin² = 1
(`Orbits.Trig`). `Math.random()` results are inputs in [0, 1). The GLSL
built-ins `max`, `min`, `clamp`, `mix`, `smoothstep`, `dot`, `cross` and
`reflect` follow sections 8.3 and 8.4 of the OpenGL ES Shading Language 1.00
specification (module `Glsl`).

Modules: `Reals` (powers and small facts about products and quotients),
`Glsl`, `Terrain`, `PlanetShader`, `Bloom`, `Orbits` and `CanvasMath`.

Behaviour of the code that the model keeps as written:

- With `octaves <= 0`, `fractal3` divides 0 by a normaliser of 0. This is
  undefined in GLSL, not a height of 0. The model makes it a precondition
  (`Terrain.FractalDefined`). `Terrain.FractalDefinedWhen` shows that the
  condition holds exactly when at least one octave runs.
- A negative amplitude is not rejected. The height is still floored at 0.
- Type 2 multiplies by the amplitude twice, once before and once after the
  remap to [0, 1].
- The `fractal3` normaliser is accumulated after the amplitude has been
  multiplied by the persistence. It is therefore persistence times the
  amplitudes actually applied, so the result lies in
  [-1/persistence, 1/persistence] rather than in [-1, 1]
  (`Terrain.FractalBound`).
- The orbit update uses `performance.now() * 0.05` as its clock, so the
  first animation frame is not at clock 0 and may move a planet away from
  where setup drew it (`Orbits.AnimateAtZero` is stated for clock 0 only).

## Model

| member | source | states |
|---|---|---|
| Terrain.Fractal3Loop | src/components/Shaders.tsx:255-277 | The octave loop computes exactly the reference `Fractal3`. After i iterations, the amplitude is persistence^i, the period is the i-th octave period, the normaliser is persistence^1+…+persistence^i, and the sum holds the first i weighted noise samples. |
| Terrain.OctavePeriodClosedForm | src/components/Shaders.tsx:266-272 | The period seen by octave j equals period / lacunarity^j, and lacunarity^j is never 0. |
| Terrain.MaxAmpClosedForm | src/components/Shaders.tsx:264-271 | The accumulated normaliser equals persistence times the sum of the amplitudes the octaves were weighted with (the normaliser runs one factor ahead). |
| Terrain.MaxAmpPositive | src/components/Shaders.tsx:265-276 | For a positive persistence, the normaliser is positive if and only if at least one octave runs. With no octave it stays 0. |
| Terrain.FractalDefinedWhen | src/components/Shaders.tsx:263-276 | For a non-zero period and lacunarity and a positive persistence, every division in fractal3 is defined if and only if octaves >= 1. |
| Terrain.OctaveSumBound | src/components/Shaders.tsx:268-270 | With noise in [-1, 1], the weighted sum after k octaves lies within ± the sum of the applied amplitudes. |
| Terrain.FractalBound | src/components/Shaders.tsx:275-276 | With noise in [-1, 1], a positive persistence and at least one octave, fractal3 is defined and lies in [-1/persistence, 1/persistence]. |
| Terrain.TerrainHeight | src/components/Shaders.tsx:279-316 | The height is never negative, is at least the type's raw height plus the offset, and for any type code other than 1, 2 or 3 is exactly max(0, offset). |
| Terrain.RidgedBounded | src/components/Shaders.tsx:303-311 | Ridged terrain with a non-negative amplitude and positive sharpness has a raw height in [0, amplitude]. |
| Terrain.FractalNonNegative | src/components/Shaders.tsx:294-302 | Fractal terrain with a non-negative amplitude and positive sharpness has a non-negative raw height. |
| Terrain.SimplexBounded | src/components/Shaders.tsx:292-293 | Single-octave terrain with noise in [-1, 1] has a raw height within ±\|amplitude\|. |
| Glsl.Smoothstep | src/components/Shaders.tsx:113 | For edge0 < edge1, the result lies in [0, 1]. It is exactly 0 at or below edge0 and exactly 1 at or above edge1. |
| Glsl.MixBetween | src/components/Shaders.tsx:92 | For a weight in [0, 1], mix(x, y, a) lies between x and y. |
| Glsl.CrossOrthogonal | src/components/Shaders.tsx:174 | The cross product is orthogonal to both of its arguments. |
| PlanetShader.LayerBlend | src/components/Shaders.tsx:110-113 | One colour layer is exactly the lower colour at or below transition − blend and exactly the upper colour at or above transition + blend. In every channel it lies between the two colours. |
| PlanetShader.LayeredColor | src/components/Shaders.tsx:110-128 | Below every lower blend edge the colour is layer 1. At or above transition5 + blend45 it is layer 5. In every channel it stays within the range spanned by the five layer colours. |
| PlanetShader.SpecularFalloff | src/components/Shaders.tsx:104 | The falloff lies in [0, 1]. For a positive transition3 it is 0 at or above transition3 and 1 at or below sea level. |
| PlanetShader.ShadeFragment | src/components/Shaders.tsx:48-131 | The fragment height is non-negative and the falloff is in [0, 1]. Specular is non-negative, and 0 at or above transition3. With a non-negative diffuse intensity, diffuse ≥ 0 and light ≥ ambient. Zero bump strength keeps the interpolated normal. The colour stays within the layer colours, and the output is light × colour × lightColor with alpha 1. |
| PlanetShader.ShadeVertex | src/components/Shaders.tsx:155-175 | The vertex moves along its position by a factor of at least radius. On the unit sphere with a non-negative radius, the displaced point lies at least radius from the centre. The bitangent is orthogonal to the normal and the tangent. Position, normal and tangent are passed on unchanged. |
| PlanetShader.VertexFragmentAgree | src/components/Shaders.tsx:155-171 | For a fragment exactly at a vertex, where the varyings hold the vertex shader's own outputs, the fragment shader recomputes the same height and the same displaced point. Interpolation between vertices is not modelled. |
| Bloom.Darken | src/components/Background.tsx:266-274 | Every object that fails the bloom test wears the dark material, and its own material is stashed under its id. Every other object is untouched. The stash gains exactly the darkened ids, and all other entries survive. |
| Bloom.Restore | src/components/Background.tsx:276-281 | Every object whose id is in the stash gets the stashed material back. Every other object is untouched. The stash loses exactly the scene's ids. |
| Bloom.Render | src/components/Background.tsx:255-264 | When the stash holds no scene id, the bloom pass sees exactly the objects that fail the bloom test in black and all others unchanged. Afterwards the scene and the stash are exactly as before, so restore undoes darken. The test is mesh-outside-bloom-layer or line here, and mesh-outside-bloom-layer in Canvas.tsx:427-432. |
| Bloom.PointerDown | src/components/Canvas.tsx:359-370 | When the raycaster hit something, the objects with the first hit's id have their bloom membership flipped. Every other object and field is unchanged. Ids, and their distinctness, are preserved. |
| Bloom.PointerDownTwice | src/components/Canvas.tsx:365-368 | Toggling the same hit twice restores the scene. |
| Orbits.SetupScene | src/components/Background.tsx:159-215 | Setup creates five planets and five rings, and ring i spans distance_i ∓ 0.04. The first distance is 5 + (2 + (r·5 + 1))·0.6, and each later distance adds an increment built from the previous planet's scale. Scales are size·0.5 + 0.5 and every planet's drawn values are in range. Distances start at ≥ 6.8 and grow by ≥ 1.5, so rings never overlap. Positions are on the orbit at the drawn phase. |
| Orbits.NewPlanet | src/components/Background.tsx:166-185 | One loop iteration: the new distance adds the increment built from the previous scale, which is at least 1.5, and at least 1.8 after scale 1. The scale, colour, phase and speed are in range, and the position is on the orbit. |
| Orbits.BuiltExtend | src/components/Background.tsx:165-215 | One more loop iteration keeps every fact the loop has established about the planets placed so far. |
| Orbits.Spacing | src/components/Background.tsx:173-176 | Because every scale is at least 0.5, each distance increment is at least 1.5, and the first is at least 1.8. |
| Orbits.Rings | src/components/Background.tsx:187-191 | There is one ring per planet, 0.04 either side of its orbit. Rings of planets at least 1.5 apart do not overlap. |
| Orbits.DistancesIncrease | src/components/Background.tsx:173 | Planet j lies at least 1.5·(j − i) further out than planet i. |
| Orbits.Animate | src/components/Background.tsx:238-253 | The frame update changes only positions. Distance, phase, speed, scale and colour are untouched, and every planet stays in the plane y = 0. |
| Orbits.AnimateOnOrbit | src/components/Background.tsx:245-249 | After every frame, each planet lies on the circle of radius distance around the sun. |
| Orbits.AnimateAtZero | src/components/Background.tsx:241-249 | At clock 0 the update leaves every planet exactly where setup placed it. |
| Orbits.BackgroundObjects | src/components/Background.tsx:130-215 | The scene's children in traversal order (after the scene root, which is never swapped): point light, ambient light, sun (the only object in the bloom layer), then each planet's mesh and its ring mesh. Ids are distinct. |
| Orbits.BackgroundRender | src/components/Background.tsx:255-274 | In one background frame, the bloom pass sees the sun and the lights unchanged and every planet and ring in black. Afterwards the scene is as before and the stash is empty. |
| Orbits.SunOnlyGlows | src/components/Background.tsx:266-274 | For any such scene in which only the sun glows, the background darkening test blackens every mesh after the sun and nothing before it. |
| CanvasMath.PointerToNdc | src/components/Canvas.tsx:360-361 | A pointer inside the window maps into [-1, 1] in each axis, in both directions of the if-and-only-if. The mapping is inverted by clientX = (x + 1)/2·width and clientY = (1 − y)/2·height, so y points up. |
| CanvasMath.PlaceSphere | src/components/Canvas.tsx:393-407 | One sphere: for a non-zero offset its distance from the origin is the reach in [2, 6). A zero offset stays at the origin. The scale is in [0.5, 1.5), and the sphere glows if and only if the last draw is below 0.25. |
| CanvasMath.SpherePosition | src/components/Canvas.tsx:399-402 | The normalised offset times the reach has squared length reach², which lies in [4, 36). |
| CanvasMath.SphereScale | src/components/Canvas.tsx:403 | The product of two draws plus 0.5 lies in [0.5, 1.5). |
| CanvasMath.SetupSpheres | src/components/Canvas.tsx:387-410 | There are fifty spheres, each with a scale in [0.5, 1.5), a glow flag that follows its bloom draw, and a distance in [2, 6). |
| CanvasMath.SphereObjects | src/components/Canvas.tsx:393-404 | The sphere scene is meshes only, with distinct ids and the spheres' glow. |
| CanvasMath.SphereDemoRender | src/components/Canvas.tsx:418-432 | In the sphere demo, the bloom pass sees exactly the spheres whose bloom draw was below 0.25 in their own material. The render leaves the scene unchanged and the stash empty. |
| CanvasMath.MouseOffset | src/components/Canvas.tsx:199-202 | For a positive half size, the pointer lies inside the view in an axis if and only if its offset lies within ± the half size. The offset is 0 exactly at the centre, and adding the half size back recovers the pointer. |
| CanvasMath.EaseCamera | src/components/Canvas.tsx:209-211 | One frame leaves 0.95 of the gap to (mouseX, −mouseY) in each axis. The gap never grows, and z is unchanged. |
| CanvasMath.EaseFramesDecay | src/components/Canvas.tsx:209-211 | Over n frames with the pointer still, the gap follows the repeated 0.95 decay and z stays fixed. |
| CanvasMath.DecayClosedForm | src/components/Canvas.tsx:210 | n rounds of 0.95 decay equal 0.95^n times the initial gap. |
| CanvasMath.EaseFramesGap | src/components/Canvas.tsx:209-211 | After n frames with the pointer still, the gap is 0.95^n of the initial gap in each axis. |
| CanvasMath.HeightFraction | src/components/Canvas.tsx:117 | (y/radius + 1)/2 lies in [0, 1] if and only if \|y\| ≤ radius, and y is recovered as (2t − 1)·radius. |
| CanvasMath.VertexColourTerms | src/components/Canvas.tsx:115-139 | For a vertex of the radius-200 sphere, the hue and saturation terms lie in [0, 1] and the green term 0.8 − t lies in [−0.2, 0.8]. |

## Left out

- simplex3 (Shaders.tsx lines 177-253): the noise is a parameter. The proofs assume only that its values lie in [-1, 1], because its gradient-table arithmetic is floating-point code with no property worth proving here.
- GLSL `pow` and `normalize`, `Math.cos`, `Math.sin`: these are parameters, constrained only by the facts listed above, because they have no exact real-number definition.
- IEEE-754 arithmetic: rounding, NaN and Infinity are not modelled. Numbers are exact reals. Each division that could be by zero is a precondition, because GLSL leaves it undefined.
- The projection and model-view transforms (`gl_Position`), because they are matrix products inside Three.js.
- The Three.js renderer, the bloom and final composers, UnrealBloomPass, the output pass, tone mapping, and the mix shader that adds the bloom texture with factor 0.2 (background) or 1.0 (sphere demo). They are image operations on textures.
- Raycasting: the list of hit object ids is an input to `Bloom.PointerDown`, because the hit test is geometry inside Three.js.
- Three.js colour conversion (`setHSL`, `setRGB` with the sRGB colour space): the model keeps the HSL/RGB terms, not the converted channels.
- OrbitControls, Stats, the commented-out GUI, labels and sprites, textures, the cube-map background, `disposeMaterial`, resize handlers, React mounting and clean-up: these are I/O and lifecycle, with no computation of the core.
- The colour-sphere demo's shadow planes, wireframes, mesh placement and directional light: these are static scene decoration.
- Terrain.Fractal3: drops the unused `sharpness` argument, which the source passes but never reads.
- Terrain.TerrainHeight: gives no upper bound for type 2, because none holds. The remapped value exceeds 1 once amplitude × fractal3 exceeds 1.
- PlanetShader.ShadeFragment: states nothing about the direction of the bumped normal or about the specular highlight beyond its sign and its zero above transition3, because both go through `normalize` and `pow`, which are parameters.
- PlanetShader.VertexFragmentAgree: holds only for a fragment exactly at a vertex, because the rasteriser's interpolation of the varyings `fragPosition`, `fragNormal`, `fragTangent` and `fragBitangent` across a triangle is not modelled.
- Bloom.Render: requires that the stash holds no id of the scene. This holds at start-up (the stash starts empty) and after every render (`Bloom.Render` returns it unchanged).
