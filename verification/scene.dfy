/**
  The rendering engine's scene, reduced to what the modelled code does with it: named
  geometries, named point and spot lights, the one sun light, and two switches. The engine
  itself (meshes, shaders, drawing) is not modelled; a geometry records the inputs it was
  built from.
 */
module Scene {
  import opened Wrappers

  /** A position or an RGB colour. */
  datatype Vec3 = Vec3(x: real, y: real, z: real)

  const Origin := Vec3(0.0, 0.0, 0.0)
  const White := Vec3(1.0, 1.0, 1.0)

  /** A material record: its shader name and its base colour (alpha is always 1). */
  datatype Material = Material(shader: string, baseColor: Vec3)

  datatype Geometry =
    /** A light marker: a sphere of `radius` translated to `center` and painted `color`. */
    | Sphere(radius: real, center: Vec3, color: Vec3, material: Material)
    /**
      The body mesh: the output of the body model's forward pass on these inputs,
      painted `color`.
     */
    | BodyMesh(betas: seq<real>, bodyPose: seq<real>, globalOrient: seq<real>, color: Vec3, material: Material)

  /**
    A point or spot light as the engine holds it. A spot light's direction is recorded as the
    yaw and pitch it is computed from.
   */
  datatype SceneLight =
    | PointEntry(color: Vec3, position: Vec3, intensity: real, falloff: real, castShadow: bool)
    | SpotEntry(color: Vec3, position: Vec3, yaw: real, pitch: real, intensity: real,
                falloff: real, innerCone: real, outerCone: real, castShadow: bool)

  /** The sun light; its direction is recorded as the azimuth and elevation it is computed from. */
  datatype SunEntry = SunEntry(azimuth: real, elevation: real, color: Vec3, intensity: real)

  datatype Scene = Scene(
    geometries: map<string, Geometry>,
    lights: map<string, SceneLight>,
    sun: Option<SunEntry>,
    sunEnabled: bool,
    indirectLightEnabled: bool)

  /**
    `has_geometry(n)`, then `remove_geometry(n)` when present, then `add_geometry(n, g)`: the
    idiom every caller uses to put a geometry in the scene.
   */
  function ReplaceGeometry(s: Scene, n: string, g: Geometry): (r: Scene)
    ensures r.geometries.Keys == s.geometries.Keys + {n}
    ensures n in r.geometries && r.geometries[n] == g
    ensures forall m :: m in s.geometries && m != n ==> r.geometries[m] == s.geometries[m]
    ensures r.lights == s.lights && r.sun == s.sun
    ensures r.sunEnabled == s.sunEnabled && r.indirectLightEnabled == s.indirectLightEnabled
  {
    var cleared := if n in s.geometries then s.(geometries := s.geometries - {n}) else s;
    cleared.(geometries := cleared.geometries[n := g])
  }

  /** `has_geometry(n)`, then `remove_geometry(n)` when present. */
  function RemoveGeometry(s: Scene, n: string): (r: Scene)
    ensures r.geometries.Keys == s.geometries.Keys - {n}
    ensures forall m :: m in r.geometries ==> r.geometries[m] == s.geometries[m]
    ensures n !in s.geometries ==> r == s
    ensures r.lights == s.lights && r.sun == s.sun
    ensures r.sunEnabled == s.sunEnabled && r.indirectLightEnabled == s.indirectLightEnabled
  {
    if n in s.geometries then s.(geometries := s.geometries - {n}) else s
  }

  /** `remove_light(n)` followed by adding `e` under `n`: at most one light per name. */
  function ReplaceLight(s: Scene, n: string, e: SceneLight): (r: Scene)
    ensures r.lights.Keys == s.lights.Keys + {n}
    ensures n in r.lights && r.lights[n] == e
    ensures forall m :: m in s.lights && m != n ==> r.lights[m] == s.lights[m]
    ensures r.geometries == s.geometries && r.sun == s.sun
    ensures r.sunEnabled == s.sunEnabled && r.indirectLightEnabled == s.indirectLightEnabled
  {
    var cleared := s.(lights := s.lights - {n});
    cleared.(lights := cleared.lights[n := e])
  }

  /** Replacing twice under one name keeps only the second geometry. */
  lemma ReplaceGeometryTwice(s: Scene, n: string, g1: Geometry, g2: Geometry)
    ensures ReplaceGeometry(ReplaceGeometry(s, n, g1), n, g2) == ReplaceGeometry(s, n, g2)
  {
  }
}
