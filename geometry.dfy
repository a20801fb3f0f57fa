/**
 * Vectors and colours of the renderer, over exact reals.
 * glm's vec3 and vec4 carry 32-bit floats; the model keeps their algebra
 * and drops rounding.
 */
module Geometry {

  /** A point, direction or RGB colour (glm::vec3). */
  datatype Vec3 = Vec3(x: real, y: real, z: real)

  /** An RGBA colour (glm::vec4). */
  datatype Vec4 = Vec4(r: real, g: real, b: real, a: real)

  const Zero3: Vec3 := Vec3(0.0, 0.0, 0.0)
  const Zero4: Vec4 := Vec4(0.0, 0.0, 0.0, 0.0)

  function Add(u: Vec3, v: Vec3): Vec3 { Vec3(u.x + v.x, u.y + v.y, u.z + v.z) }

  function Sub(u: Vec3, v: Vec3): Vec3 { Vec3(u.x - v.x, u.y - v.y, u.z - v.z) }

  function Neg(u: Vec3): Vec3 { Vec3(-u.x, -u.y, -u.z) }

  function Scale(u: Vec3, k: real): Vec3 { Vec3(u.x * k, u.y * k, u.z * k) }

  function Dot(u: Vec3, v: Vec3): real { u.x * v.x + u.y * v.y + u.z * v.z }

  function Add4(u: Vec4, v: Vec4): Vec4 { Vec4(u.r + v.r, u.g + v.g, u.b + v.b, u.a + v.a) }

  /** `color /= k` on a vec4. */
  function Div4(u: Vec4, k: real): Vec4
    requires k != 0.0
  {
    Vec4(u.r / k, u.g / k, u.b / k, u.a / k)
  }

  /** glm::clamp of one channel into [0, 1]. */
  function ClampUnit(c: real): (r: real)
    ensures 0.0 <= r <= 1.0
    ensures 0.0 <= c <= 1.0 ==> r == c
    ensures c < 0.0 ==> r == 0.0
    ensures 1.0 < c ==> r == 1.0
  {
    if c < 0.0 then 0.0 else if 1.0 < c then 1.0 else c
  }

  predicate InUnit(c: real) { 0.0 <= c <= 1.0 }

  /** Every channel of the colour lies in [0, 1]. */
  predicate InUnitCube(u: Vec4) { InUnit(u.r) && InUnit(u.g) && InUnit(u.b) && InUnit(u.a) }

  /** Every channel of an RGB colour lies in [lo, hi]. */
  predicate ChannelsIn(c: Vec3, lo: real, hi: real)
  {
    lo <= c.x <= hi && lo <= c.y <= hi && lo <= c.z <= hi
  }

  /** glm::clamp(color, vec4(0), vec4(1)), channel by channel. */
  function Clamp(u: Vec4): (r: Vec4)
    ensures InUnitCube(r)
    ensures InUnitCube(u) ==> r == u
  {
    Vec4(ClampUnit(u.r), ClampUnit(u.g), ClampUnit(u.b), ClampUnit(u.a))
  }

  /** Scaling by a non-negative factor keeps channels in [0, hi * factor]. */
  lemma ScaledChannels(c: Vec3, factor: real, hi: real)
    requires ChannelsIn(c, 0.0, hi) && 0.0 <= factor
    ensures ChannelsIn(Scale(c, factor), 0.0, hi * factor)
  {
    assert 0.0 <= c.x * factor && 0.0 <= c.y * factor && 0.0 <= c.z * factor;
    assert c.x * factor <= hi * factor && c.y * factor <= hi * factor && c.z * factor <= hi * factor;
  }
}
