/**
 * The intersection engine: Renderer::TraceRay, ClosestHit and Miss.
 *
 * The square root and glm::normalize are floating-point numerics that the
 * model does not re-derive: they are parameters, so every property proved
 * here holds whatever root and normalisation the caller supplies.
 */
module Intersection {
  import opened Wrappers
  import opened Geometry

  /** std::numeric_limits<float>::max(), the starting `hitDistance`. */
  const FloatMax: real := 340282346638528859811704183484516925440.0

  datatype Ray = Ray(origin: Vec3, direction: Vec3)

  datatype Sphere = Sphere(position: Vec3, radius: real, materialIndex: int)

  datatype Material = Material(diffuse: Vec3, roughness: real, metallic: real)

  datatype Scene = Scene(spheres: seq<Sphere>, materials: seq<Material>)

  /**
   * Renderer::HitInfo. A negative distance means a miss, and then the other
   * fields carry no meaning.
   */
  datatype HitInfo = HitInfo(hitDistance: real, worldPosition: Vec3, worldNormal: Vec3, objectIndex: int)

  /** The coefficients of |o + t d|^2 = radius^2 in t, with o the origin relative to the centre. */
  function QuadraticA(ray: Ray): real { Dot(ray.direction, ray.direction) }

  function QuadraticB(ray: Ray, sphere: Sphere): real
  {
    2.0 * Dot(Sub(ray.origin, sphere.position), ray.direction)
  }

  function QuadraticC(ray: Ray, sphere: Sphere): real
  {
    var o := Sub(ray.origin, sphere.position);
    Dot(o, o) - sphere.radius * sphere.radius
  }

  function Discriminant(ray: Ray, sphere: Sphere): real
  {
    var b := QuadraticB(ray, sphere);
    b * b - 4.0 * QuadraticA(ray) * QuadraticC(ray, sphere)
  }

  /**
   * The candidate distance `closestT` of one sphere, or None when the loop
   * skips the sphere. A negative discriminant is skipped by `continue`. A
   * zero direction makes `a` zero; the float quotient is then an infinity
   * or NaN, which the acceptance test `0 < t < hitDistance` always refuses,
   * so it is no candidate either.
   */
  function NearRoot(ray: Ray, sphere: Sphere, sqrt: real -> real): (t: Option<real>)
    ensures t.Some? <==> 0.0 <= Discriminant(ray, sphere) && QuadraticA(ray) != 0.0
    ensures t.Some? ==> t.value * 2.0 * QuadraticA(ray)
                        == -QuadraticB(ray, sphere) - sqrt(Discriminant(ray, sphere))
  {
    var a := QuadraticA(ray);
    var disc := Discriminant(ray, sphere);
    if disc < 0.0 || a == 0.0 then None
    else Some((-QuadraticB(ray, sphere) - sqrt(disc)) / (2.0 * a))
  }

  /** A candidate the scan can accept: in front of the origin and below the starting bound. */
  predicate Qualifies(t: Option<real>)
  {
    t.Some? && 0.0 < t.value < FloatMax
  }

  /** Renderer::Miss: only the distance is set, to the sentinel -1. */
  function Miss(ray: Ray): (hit: HitInfo)
    ensures hit.hitDistance == -1.0
  {
    HitInfo(-1.0, Zero3, Zero3, 0)
  }

  /**
   * Renderer::ClosestHit: the point at distance `hitDistance` along the ray,
   * the normal as the normalised offset of that point from the centre.
   */
  function ClosestHit(ray: Ray, spheres: seq<Sphere>, hitDistance: real, objectIndex: int,
                      normalize: Vec3 -> Vec3): (hit: HitInfo)
    requires 0 <= objectIndex < |spheres|
    ensures hit.hitDistance == hitDistance && hit.objectIndex == objectIndex
    ensures hit.worldPosition == Add(ray.origin, Scale(ray.direction, hitDistance))
    ensures hit.worldNormal == normalize(Sub(hit.worldPosition, spheres[objectIndex].position))
  {
    var centre := spheres[objectIndex].position;
    var local := Add(Sub(ray.origin, centre), Scale(ray.direction, hitDistance));
    var world := Add(local, centre);
    assert Sub(world, centre) == local;
    HitInfo(hitDistance, world, normalize(local), objectIndex)
  }

  /**
   * Renderer::TraceRay over the active scene's spheres: the nearest
   * accepted candidate wins and, because the test is a strict `<`, among
   * equal distances the one met first in scan order.
   */
  method TraceRay(spheres: seq<Sphere>, ray: Ray, sqrt: real -> real, normalize: Vec3 -> Vec3)
    returns (hit: HitInfo)
    ensures hit.hitDistance < 0.0
        <==> forall k :: 0 <= k < |spheres| ==> !Qualifies(NearRoot(ray, spheres[k], sqrt))
    ensures hit.hitDistance < 0.0 ==> hit == Miss(ray)
    ensures 0.0 <= hit.hitDistance ==>
              && 0 <= hit.objectIndex < |spheres|
              && NearRoot(ray, spheres[hit.objectIndex], sqrt) == Some(hit.hitDistance)
              && 0.0 < hit.hitDistance < FloatMax
              && hit == ClosestHit(ray, spheres, hit.hitDistance, hit.objectIndex, normalize)
    ensures 0.0 <= hit.hitDistance ==>
              forall k :: 0 <= k < |spheres| && Qualifies(NearRoot(ray, spheres[k], sqrt)) ==>
                hit.hitDistance <= NearRoot(ray, spheres[k], sqrt).value
    ensures 0.0 <= hit.hitDistance ==>
              forall k :: 0 <= k < hit.objectIndex && Qualifies(NearRoot(ray, spheres[k], sqrt)) ==>
                hit.hitDistance < NearRoot(ray, spheres[k], sqrt).value
  {
    var closestSphere := -1;
    var hitDistance := FloatMax;
    for i := 0 to |spheres|
      invariant -1 <= closestSphere < i
      invariant closestSphere < 0 <==> forall k :: 0 <= k < i ==> !Qualifies(NearRoot(ray, spheres[k], sqrt))
      invariant closestSphere < 0 ==> hitDistance == FloatMax
      invariant 0 <= closestSphere ==>
                  NearRoot(ray, spheres[closestSphere], sqrt) == Some(hitDistance) && 0.0 < hitDistance < FloatMax
      invariant forall k :: 0 <= k < i && Qualifies(NearRoot(ray, spheres[k], sqrt)) ==>
                  hitDistance <= NearRoot(ray, spheres[k], sqrt).value
      invariant forall k :: 0 <= k < closestSphere && Qualifies(NearRoot(ray, spheres[k], sqrt)) ==>
                  hitDistance < NearRoot(ray, spheres[k], sqrt).value
    {
      var closestT := NearRoot(ray, spheres[i], sqrt);
      if closestT.None? {
        continue;
      }
      if 0.0 < closestT.value && closestT.value < hitDistance {
        hitDistance := closestT.value;
        closestSphere := i;
      }
    }
    if closestSphere < 0 {
      return Miss(ray);
    }
    return ClosestHit(ray, spheres, hitDistance, closestSphere, normalize);
  }

  /**
   * With an exact square root, the accepted distance is a root of the
   * quadratic: the point ClosestHit reports lies on the sphere's surface.
   */
  lemma NearRootOnSphere(ray: Ray, sphere: Sphere, sqrt: real -> real)
    requires NearRoot(ray, sphere, sqrt).Some?
    requires var s := sqrt(Discriminant(ray, sphere)); s * s == Discriminant(ray, sphere)
    ensures var t := NearRoot(ray, sphere, sqrt).value;
            var p := Add(Sub(ray.origin, sphere.position), Scale(ray.direction, t));
            Dot(p, p) == sphere.radius * sphere.radius
  {
    var t := NearRoot(ray, sphere, sqrt).value;
    var o := Sub(ray.origin, sphere.position);
    var a, b, c := QuadraticA(ray), QuadraticB(ray, sphere), QuadraticC(ray, sphere);
    DotAlongRay(o, ray.direction, t);
    RootOfQuadratic(a, b, c, sqrt(Discriminant(ray, sphere)), t);
  }

  /** |o + t d|^2 expanded in powers of t. */
  lemma DotAlongRay(o: Vec3, d: Vec3, t: real)
    ensures var p := Add(o, Scale(d, t));
            Dot(p, p) == Dot(o, o) + 2.0 * t * Dot(o, d) + t * t * Dot(d, d)
  {
  }

  /** t = (-b - s) / 2a with s^2 = b^2 - 4ac is a root of a t^2 + b t + c. */
  lemma RootOfQuadratic(a: real, b: real, c: real, s: real, t: real)
    requires a != 0.0 && s * s == b * b - 4.0 * a * c && t * 2.0 * a == -b - s
    ensures a * t * t + b * t + c == 0.0
  {
    var u := 2.0 * a * t;
    assert u == -b - s;
    assert 4.0 * a * (a * t * t + b * t + c) == u * u + 2.0 * b * u + 4.0 * a * c;
    assert u * u + 2.0 * b * u == (b + s) * (b + s) - 2.0 * b * (b + s);
    assert 4.0 * a * (a * t * t + b * t + c) == 0.0;
  }

  /**
   * The worked example of a unit sphere at the origin seen from (0, 0, 3)
   * along -z: the hit is at distance 2, at (0, 0, 1).
   */
  lemma UnitSphereFromThree(sqrt: real -> real, normalize: Vec3 -> Vec3)
    requires sqrt(4.0) == 2.0
    ensures NearRoot(Ray(Vec3(0.0, 0.0, 3.0), Vec3(0.0, 0.0, -1.0)), Sphere(Zero3, 1.0, 0), sqrt) == Some(2.0)
    ensures ClosestHit(Ray(Vec3(0.0, 0.0, 3.0), Vec3(0.0, 0.0, -1.0)), [Sphere(Zero3, 1.0, 0)], 2.0, 0, normalize)
            == HitInfo(2.0, Vec3(0.0, 0.0, 1.0), normalize(Vec3(0.0, 0.0, 1.0)), 0)
  {
    var ray := Ray(Vec3(0.0, 0.0, 3.0), Vec3(0.0, 0.0, -1.0));
    var sphere := Sphere(Zero3, 1.0, 0);
    assert QuadraticA(ray) == 1.0 && QuadraticB(ray, sphere) == -6.0 && QuadraticC(ray, sphere) == 8.0;
    assert Discriminant(ray, sphere) == 4.0;
    var local := Add(Sub(ray.origin, sphere.position), Scale(ray.direction, 2.0));
    assert local == Vec3(0.0, 0.0, 1.0);
  }
}
