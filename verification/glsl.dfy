/** The GLSL built-ins the planet shaders call, over real numbers.

    The scalar functions follow section 8.3 (Common Functions) of the OpenGL ES
    Shading Language 1.00 specification, the vector ones section 8.4 (Geometric
    Functions). Where that specification leaves a result undefined
    (`clamp` with minVal > maxVal, `smoothstep` with edge0 >= edge1) the
    function carries the corresponding precondition. `normalize` needs a
    square root and is left to the caller as a parameter (see UnitNormalize). */
module Glsl {

  import opened Reals

  datatype Vec3 = Vec3(x: real, y: real, z: real)

  const Zero := Vec3(0.0, 0.0, 0.0)

  function Add(a: Vec3, b: Vec3): Vec3
  {
    Vec3(a.x + b.x, a.y + b.y, a.z + b.z)
  }

  function Sub(a: Vec3, b: Vec3): Vec3
  {
    Vec3(a.x - b.x, a.y - b.y, a.z - b.z)
  }

  function Neg(a: Vec3): Vec3
  {
    Vec3(-a.x, -a.y, -a.z)
  }

  /** `a * s` for a vector and a scalar. */
  function Scale(a: Vec3, s: real): Vec3
  {
    Vec3(a.x * s, a.y * s, a.z * s)
  }

  /** `a / s` for a vector and a scalar. */
  function Div(a: Vec3, s: real): Vec3
    requires s != 0.0
  {
    Vec3(a.x / s, a.y / s, a.z / s)
  }

  /** Component-wise product `a * b` of two vectors. */
  function Mul(a: Vec3, b: Vec3): Vec3
  {
    Vec3(a.x * b.x, a.y * b.y, a.z * b.z)
  }

  function Dot(a: Vec3, b: Vec3): real
  {
    a.x * b.x + a.y * b.y + a.z * b.z
  }

  function Cross(a: Vec3, b: Vec3): Vec3
  {
    Vec3(a.y * b.z - a.z * b.y, a.z * b.x - a.x * b.z, a.x * b.y - a.y * b.x)
  }

  /** The cross product is orthogonal to both of its operands. */
  lemma CrossOrthogonal(a: Vec3, b: Vec3)
    ensures Dot(Cross(a, b), a) == 0.0
    ensures Dot(Cross(a, b), b) == 0.0
  {
    var c := Cross(a, b);
    assert c.x * a.x == a.y * b.z * a.x - a.z * b.y * a.x;
    assert c.y * a.y == a.z * b.x * a.y - a.x * b.z * a.y;
    assert c.z * a.z == a.x * b.y * a.z - a.y * b.x * a.z;
    assert c.x * b.x == a.y * b.z * b.x - a.z * b.y * b.x;
    assert c.y * b.y == a.z * b.x * b.y - a.x * b.z * b.y;
    assert c.z * b.z == a.x * b.y * b.z - a.y * b.x * b.z;
  }

  /** reflect(I, N) = I - 2 * dot(N, I) * N. */
  function Reflect(i: Vec3, n: Vec3): Vec3
  {
    Sub(i, Scale(n, 2.0 * Dot(n, i)))
  }

  /** What the shaders rely on of `normalize`: a non-zero vector becomes a
      unit vector and the zero vector stays zero. */
  ghost predicate UnitNormalize(normalize: Vec3 -> Vec3)
  {
    && normalize(Zero) == Zero
    && forall v :: v != Zero ==> Dot(normalize(v), normalize(v)) == 1.0
  }

  function Abs(x: real): (r: real)
    ensures r >= 0.0
    ensures r == x || r == -x
  {
    if x >= 0.0 then x else -x
  }

  /** max(x, y) is y if x < y, otherwise x. */
  function Max(x: real, y: real): (r: real)
    ensures r >= x && r >= y
    ensures r == x || r == y
  {
    if x < y then y else x
  }

  /** min(x, y) is y if y < x, otherwise x. */
  function Min(x: real, y: real): (r: real)
    ensures r <= x && r <= y
    ensures r == x || r == y
  {
    if y < x then y else x
  }

  /** clamp(x, minVal, maxVal) = min(max(x, minVal), maxVal); undefined when
      minVal > maxVal. */
  function Clamp(x: real, minVal: real, maxVal: real): (r: real)
    requires minVal <= maxVal
    ensures minVal <= r <= maxVal
    ensures minVal <= x <= maxVal ==> r == x
    ensures x <= minVal ==> r == minVal
    ensures x >= maxVal ==> r == maxVal
  {
    Min(Max(x, minVal), maxVal)
  }

  /** mix(x, y, a) = x * (1 - a) + y * a. */
  function Mix(x: real, y: real, a: real): (r: real)
    ensures a == 0.0 ==> r == x
    ensures a == 1.0 ==> r == y
  {
    x * (1.0 - a) + y * a
  }

  /** For a weight in [0, 1], mix is a convex combination: it lies between
      its two end points. */
  lemma MixBetween(x: real, y: real, a: real)
    requires 0.0 <= a <= 1.0
    ensures Min(x, y) <= Mix(x, y, a) <= Max(x, y)
  {
    if x <= y {
      assert Mix(x, y, a) == x + a * (y - x);
      MulNonNeg(a, y - x);
      MulMono(a, 1.0, y - x);
    } else {
      assert Mix(x, y, a) == x - a * (x - y);
      MulNonNeg(a, x - y);
      MulMono(a, 1.0, x - y);
    }
  }

  /** smoothstep(edge0, edge1, x): Hermite interpolation of
      t = clamp((x - edge0) / (edge1 - edge0), 0, 1); undefined when
      edge0 >= edge1. */
  function Smoothstep(edge0: real, edge1: real, x: real): (r: real)
    requires edge0 < edge1
    ensures 0.0 <= r <= 1.0
    ensures x <= edge0 ==> r == 0.0
    ensures x >= edge1 ==> r == 1.0
  {
    var t := Clamp((x - edge0) / (edge1 - edge0), 0.0, 1.0);
    SmoothstepCubic(t);
    assert x <= edge0 ==> t == 0.0 by {
      if x <= edge0 {
        DivNonPos(x - edge0, edge1 - edge0);
      }
    }
    assert x >= edge1 ==> t == 1.0 by {
      if x >= edge1 {
        DivAtLeastOne(x - edge0, edge1 - edge0);
      }
    }
    t * t * (3.0 - 2.0 * t)
  }

  /** The Hermite cubic maps [0, 1] into [0, 1]. */
  lemma SmoothstepCubic(t: real)
    requires 0.0 <= t <= 1.0
    ensures 0.0 <= t * t * (3.0 - 2.0 * t) <= 1.0
  {
    MulNonNeg(t, t);
    MulNonNeg(t * t, 3.0 - 2.0 * t);
    MulNonNeg(1.0 - t, 1.0 - t);
    MulNonNeg((1.0 - t) * (1.0 - t), 1.0 + 2.0 * t);
    assert 1.0 - t * t * (3.0 - 2.0 * t) == (1.0 - t) * (1.0 - t) * (1.0 + 2.0 * t);
  }

  /** mix applied to each channel with a scalar weight. */
  function MixVec(x: Vec3, y: Vec3, a: real): Vec3
  {
    Vec3(Mix(x.x, y.x, a), Mix(x.y, y.y, a), Mix(x.z, y.z, a))
  }

  /** Component-wise min and max, used to state colour hulls. */
  function VMin(a: Vec3, b: Vec3): Vec3
  {
    Vec3(Min(a.x, b.x), Min(a.y, b.y), Min(a.z, b.z))
  }

  function VMax(a: Vec3, b: Vec3): Vec3
  {
    Vec3(Max(a.x, b.x), Max(a.y, b.y), Max(a.z, b.z))
  }

  /** Every channel of v lies between the matching channels of lo and hi. */
  predicate Within(v: Vec3, lo: Vec3, hi: Vec3)
  {
    && lo.x <= v.x <= hi.x
    && lo.y <= v.y <= hi.y
    && lo.z <= v.z <= hi.z
  }

  /** Each channel of a vector mix lies between the two end points'
      channels. */
  lemma MixVecBetween(x: Vec3, y: Vec3, a: real)
    requires 0.0 <= a <= 1.0
    ensures Within(MixVec(x, y, a), VMin(x, y), VMax(x, y))
  {
    MixBetween(x.x, y.x, a);
    MixBetween(x.y, y.y, a);
    MixBetween(x.z, y.z, a);
  }

  /** |p * k|^2 = k^2 |p|^2. */
  lemma ScaleLength(p: Vec3, k: real)
    ensures Dot(Scale(p, k), Scale(p, k)) == k * k * Dot(p, p)
  {
    assert (p.x * k) * (p.x * k) == k * k * (p.x * p.x);
    assert (p.y * k) * (p.y * k) == k * k * (p.y * p.y);
    assert (p.z * k) * (p.z * k) == k * k * (p.z * p.z);
  }
}
