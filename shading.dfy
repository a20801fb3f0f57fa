/**
 * The bounce loop of Renderer::PerPixel. What each bounce's TraceRay
 * returns is given, in order, as `hits`; the random roughness jitter and
 * glm::reflect that produce the next ray are not part of this model.
 */
module Shading {
  import opened Geometry
  import opened Intersection

  /** The most bounces one pixel traces. */
  const Bounces: nat := 5

  /** What a ray that leaves the scene picks up. */
  const SkyColor: Vec3 := Vec3(0.6, 0.7, 0.9)

  /** The factor the attenuation multiplier takes at every hit. */
  const Decay: real := 0.5

  /** A hit names a sphere and that sphere names a material: what the scene's editor guarantees. */
  predicate Resolvable(scene: Scene, hit: HitInfo)
  {
    hit.hitDistance < 0.0
    || (0 <= hit.objectIndex < |scene.spheres|
        && 0 <= scene.spheres[hit.objectIndex].materialIndex < |scene.materials|)
  }

  predicate AllResolvable(scene: Scene, hits: seq<HitInfo>)
  {
    forall i :: 0 <= i < |hits| ==> Resolvable(scene, hits[i])
  }

  /** The diffuse colour of the material of the sphere a hit names. */
  function HitDiffuse(scene: Scene, hit: HitInfo): Vec3
    requires 0.0 <= hit.hitDistance && Resolvable(scene, hit)
  {
    scene.materials[scene.spheres[hit.objectIndex].materialIndex].diffuse
  }

  /**
   * The Lambert term `max(dot(normal, -lightDir), 0)`; `lightDir` is the
   * already normalised light direction.
   */
  function LightIntensity(hit: HitInfo, lightDir: Vec3): (k: real)
    ensures 0.0 <= k
    ensures 0.0 <= Dot(hit.worldNormal, Neg(lightDir)) ==> k == Dot(hit.worldNormal, Neg(lightDir))
    ensures Dot(hit.worldNormal, Neg(lightDir)) < 0.0 ==> k == 0.0
  {
    var d := Dot(hit.worldNormal, Neg(lightDir));
    if d < 0.0 then 0.0 else d
  }

  /**
   * The colour a path gathers from the bounces in `hits` when the current
   * attenuation is `multiplier`: a miss adds the sky and ends the path, a
   * hit adds its shaded diffuse colour and halves the attenuation.
   */
  function PathColor(scene: Scene, lightDir: Vec3, hits: seq<HitInfo>, multiplier: real): Vec3
    requires AllResolvable(scene, hits)
    decreases |hits|
  {
    if hits == [] then Zero3
    else if hits[0].hitDistance < 0.0 then Scale(SkyColor, multiplier)
    else
      var shaded := Scale(HitDiffuse(scene, hits[0]), LightIntensity(hits[0], lightDir));
      Add(Scale(shaded, multiplier), PathColor(scene, lightDir, hits[1..], multiplier * Decay))
  }

  /** Renderer::PerPixel: at most five bounces; the result is opaque. */
  method PerPixel(scene: Scene, lightDir: Vec3, hits: seq<HitInfo>) returns (color: Vec4)
    requires |hits| == Bounces
    requires AllResolvable(scene, hits)
    ensures var rgb := PathColor(scene, lightDir, hits, 1.0);
            color == Vec4(rgb.x, rgb.y, rgb.z, 1.0)
  {
    var rgb := Zero3;
    var multiplier := 1.0;
    for i := 0 to Bounces
      invariant Add(rgb, PathColor(scene, lightDir, hits[i..], multiplier))
                == PathColor(scene, lightDir, hits, 1.0)
    {
      var hitInfo := hits[i];
      assert hits[i..][0] == hitInfo && hits[i..][1..] == hits[i + 1..];
      if hitInfo.hitDistance < 0.0 {
        rgb := Add(rgb, Scale(SkyColor, multiplier));
        break;
      }
      var lightIntensity := LightIntensity(hitInfo, lightDir);
      var sphereColor := Scale(HitDiffuse(scene, hitInfo), lightIntensity);
      rgb := Add(rgb, Scale(sphereColor, multiplier));
      multiplier := multiplier * Decay;
    }
    color := Vec4(rgb.x, rgb.y, rgb.z, 1.0);
  }

  /** Bounces after the first miss contribute nothing: the loop has left by then. */
  lemma {:induction false} PathStopsAtMiss(scene: Scene, lightDir: Vec3, hits: seq<HitInfo>,
                                           multiplier: real, k: nat)
    requires AllResolvable(scene, hits)
    requires k < |hits| && hits[k].hitDistance < 0.0
    ensures PathColor(scene, lightDir, hits, multiplier) == PathColor(scene, lightDir, hits[..k + 1], multiplier)
  {
    if k > 0 {
      assert hits[1..][..k] == hits[..k + 1][1..];
      PathStopsAtMiss(scene, lightDir, hits[1..], multiplier * Decay, k - 1);
    }
  }

  /**
   * With diffuse colours in [0, 1] and a Lambert term at most 1 (unit
   * normal and unit light direction), a path gathers at most twice its
   * starting attenuation per channel, and never a negative amount: the sky
   * is at most 1 and the attenuation halves at every hit.
   */
  lemma {:induction false} PathBounded(scene: Scene, lightDir: Vec3, hits: seq<HitInfo>, multiplier: real)
    requires AllResolvable(scene, hits)
    requires 0.0 <= multiplier
    requires forall i :: 0 <= i < |hits| && 0.0 <= hits[i].hitDistance ==>
               ChannelsIn(HitDiffuse(scene, hits[i]), 0.0, 1.0)
               && Dot(hits[i].worldNormal, Neg(lightDir)) <= 1.0
    ensures ChannelsIn(PathColor(scene, lightDir, hits, multiplier), 0.0, 2.0 * multiplier)
    decreases |hits|
  {
    if hits == [] {
    } else if hits[0].hitDistance < 0.0 {
      ScaledChannels(SkyColor, multiplier, 1.0);
    } else {
      var d := HitDiffuse(scene, hits[0]);
      var k := LightIntensity(hits[0], lightDir);
      assert ChannelsIn(d, 0.0, 1.0) && k <= 1.0;
      ScaledChannels(d, k, 1.0);
      var shaded := Scale(d, k);
      assert ChannelsIn(shaded, 0.0, 1.0);
      ScaledChannels(shaded, multiplier, 1.0);
      assert AllResolvable(scene, hits[1..]);
      PathBounded(scene, lightDir, hits[1..], multiplier * Decay);
      var rest := PathColor(scene, lightDir, hits[1..], multiplier * Decay);
      assert ChannelsIn(rest, 0.0, multiplier);
      assert PathColor(scene, lightDir, hits, multiplier) == Add(Scale(shaded, multiplier), rest);
    }
  }
}
