/**
  Lights and their markers. Each light keeps one engine light (or the sun) and one marker
  sphere in the scene, both under names derived from the light's name, and re-publishes them
  from its setters.
 */
module Lights {
  import opened Wrappers
  import opened Scene

  /** The radius a marker gets unless told otherwise. */
  const DefaultMarkerRadius: real := 0.01
  /** The one name the sun light always has. */
  const SunName: string := "Sun"
  /** A marker is named after its light with this prefix. */
  const MarkerPrefix: string := "m_"
  /** Prefixes of generated names: the base light, point lights and spot lights. */
  const LightPrefix: string := "l_"
  const PointPrefix: string := "pl_"
  const SpotPrefix: string := "sl_"

  // ----- Markers -----

  /** A marker: its scene name, position, colour, radius, and whether its material exists. */
  datatype Marker = Marker(name: string, position: Vec3, color: Vec3, radius: real, hasMaterial: bool)

  datatype MarkerIn = MarkerIn(scene: Scene, marker: Marker)

  /** The sphere a marker shows: its radius, at its position, painted and unlit in its colour. */
  function MarkerSphere(m: Marker): Geometry {
    Sphere(m.radius, m.position, m.color, Material("defaultUnlit", m.color))
  }

  /** The scene shows the marker as it currently is. */
  ghost predicate Shown(sc: Scene, m: Marker) {
    m.name in sc.geometries && sc.geometries[m.name] == MarkerSphere(m)
  }

  /** `b` is `a` with at most the geometry under `n` changed. */
  ghost predicate SameExceptGeometry(a: Scene, b: Scene, n: string) {
    && b.lights == a.lights && b.sun == a.sun
    && b.sunEnabled == a.sunEnabled && b.indirectLightEnabled == a.indirectLightEnabled
    && (forall m :: m in a.geometries && m != n ==> m in b.geometries && b.geometries[m] == a.geometries[m])
    && (forall m :: m in b.geometries && m != n ==> m in a.geometries)
  }

  /**
    `LightMarker._update`: the marker's sphere replaces whatever the scene held under the
    marker's name, and the material now exists.
   */
  function UpdateMarker(sc: Scene, m: Marker): (r: MarkerIn)
    ensures Shown(r.scene, r.marker) && r.marker.hasMaterial
    ensures r.marker == m.(hasMaterial := true)
    ensures m.name in r.scene.geometries && SameExceptGeometry(sc, r.scene, m.name)
  {
    var m' := m.(hasMaterial := true);
    MarkerIn(ReplaceGeometry(sc, m.name, MarkerSphere(m')), m')
  }

  /** `LightMarker(scene, name, position, color, radius)`. */
  function NewMarker(sc: Scene, name: string, position: Vec3, color: Vec3, radius: real): (r: MarkerIn)
    ensures Shown(r.scene, r.marker) && SameExceptGeometry(sc, r.scene, name)
    ensures r.marker.name == name && r.marker.position == position
    ensures r.marker.color == color && r.marker.radius == radius
  {
    UpdateMarker(sc, Marker(name, position, color, radius, false))
  }

  /** `LightMarker.set_position`: only the position changes, and the sphere moves with it. */
  function SetMarkerPosition(sc: Scene, m: Marker, p: Vec3): (r: MarkerIn)
    ensures r.marker == m.(position := p, hasMaterial := true)
    ensures Shown(r.scene, r.marker) && SameExceptGeometry(sc, r.scene, m.name)
    ensures r.scene.geometries[m.name].center == p
  {
    UpdateMarker(sc, m.(position := p))
  }

  /** `LightMarker.set_color`: only the colour changes, and the sphere is repainted. */
  function SetMarkerColor(sc: Scene, m: Marker, c: Vec3): (r: MarkerIn)
    ensures r.marker == m.(color := c, hasMaterial := true)
    ensures Shown(r.scene, r.marker) && SameExceptGeometry(sc, r.scene, m.name)
    ensures r.scene.geometries[m.name].color == c
  {
    UpdateMarker(sc, m.(color := c))
  }

  /** `LightMarker.set_radius`: only the radius changes, and the sphere is rebuilt at that size. */
  function SetMarkerRadius(sc: Scene, m: Marker, radius: real): (r: MarkerIn)
    ensures r.marker == m.(radius := radius, hasMaterial := true)
    ensures Shown(r.scene, r.marker) && SameExceptGeometry(sc, r.scene, m.name)
    ensures r.scene.geometries[m.name].radius == radius
  {
    UpdateMarker(sc, m.(radius := radius))
  }

  /**
    `LightMarker.destroy`: the marker's geometry leaves the scene if it was there, nothing else
    in the scene changes, and the material is dropped.
   */
  function DestroyMarker(sc: Scene, m: Marker): (r: MarkerIn)
    ensures m.name !in r.scene.geometries && SameExceptGeometry(sc, r.scene, m.name)
    ensures m.name !in sc.geometries ==> r.scene == sc
    ensures r.marker == m.(hasMaterial := false)
  {
    MarkerIn(RemoveGeometry(sc, m.name), m.(hasMaterial := false))
  }

  /** Destroying after any update removes the marker again: the update is undone in the scene. */
  lemma UpdateThenDestroy(sc: Scene, m: Marker)
    requires m.name !in sc.geometries
    ensures DestroyMarker(UpdateMarker(sc, m).scene, m).scene == sc
  {
    var r := DestroyMarker(UpdateMarker(sc, m).scene, m).scene;
    assert r.geometries == sc.geometries;
  }

  // ----- Lights -----

  /** What distinguishes the sun, a point light and a spot light (a spot light is a point light). */
  datatype Kind =
    | SunKind(azimuth: real, elevation: real, enabled: bool, indirectLightEnabled: bool)
    | PointKind(position: Vec3, falloff: real, castShadow: bool)
    | SpotKind(position: Vec3, falloff: real, castShadow: bool,
               yaw: real, pitch: real, innerCone: real, outerCone: real)

  /** The two light classes a user can add. */
  datatype LightClass = PointLightClass | SpotLightClass

  datatype Light = Light(name: string, color: Vec3, intensity: real, marker: Marker, kind: Kind)

  datatype LightIn = LightIn(scene: Scene, light: Light)

  /** The engine light a point or spot light publishes. */
  function Entry(l: Light): SceneLight
    requires !l.kind.SunKind?
  {
    match l.kind
    case PointKind(p, f, cs) => PointEntry(l.color, p, l.intensity, f, cs)
    case SpotKind(p, f, cs, yaw, pitch, inner, outer) =>
      SpotEntry(l.color, p, yaw, pitch, l.intensity, f, inner, outer, cs)
  }

  /** The scene holds the light as it currently is. */
  ghost predicate Lit(sc: Scene, l: Light) {
    if l.kind.SunKind? then
      sc.sun == Some(SunEntry(l.kind.azimuth, l.kind.elevation, l.color, l.intensity))
      && sc.sunEnabled == l.kind.enabled
    else
      l.name in sc.lights && sc.lights[l.name] == Entry(l)
  }

  /** The scene mirrors the light: its engine light and its marker are both current. */
  ghost predicate Mirrored(sc: Scene, l: Light) {
    Lit(sc, l) && Shown(sc, l.marker)
  }

  /**
    The marker follows the light: it is named after it, has its colour and, for a point or
    spot light, sits at its position.
   */
  ghost predicate Tracks(l: Light) {
    && l.marker.name == MarkerPrefix + l.name
    && l.marker.color == l.color
    && (!l.kind.SunKind? ==> l.marker.position == l.kind.position)
  }

  /**
    The subclass `_update`: the sun re-publishes direction, colour, intensity and the enabled
    switch; a point or spot light removes its engine light and adds it again under its name.
    Geometries are never touched.
   */
  function UpdateLight(sc: Scene, l: Light): (r: Scene)
    ensures Lit(r, l) && r.geometries == sc.geometries
    ensures r.indirectLightEnabled == sc.indirectLightEnabled
    ensures l.kind.SunKind? ==> r.lights == sc.lights
    ensures !l.kind.SunKind? ==>
      && r.sun == sc.sun && r.sunEnabled == sc.sunEnabled
      && r.lights.Keys == sc.lights.Keys + {l.name}
      && forall n :: n in sc.lights && n != l.name ==> r.lights[n] == sc.lights[n]
  {
    match l.kind
    case SunKind(az, el, enabled, _) =>
      sc.(sun := Some(SunEntry(az, el, l.color, l.intensity)), sunEnabled := enabled)
    case _ => ReplaceLight(sc, l.name, Entry(l))
  }

  /** A name given by the caller when it is non-empty, else `prefix` and six generated hex digits. */
  function ResolveName(given: Option<string>, prefix: string, hex: string): string {
    if given.Some? && given.value != "" then given.value else prefix + hex
  }

  /** Six lower-case hexadecimal digits, as the first six of a random UUID's hex form. */
  ghost predicate IsHex6(h: string) {
    |h| == 6 && forall i :: 0 <= i < |h| ==> h[i] in "0123456789abcdef"
  }

  /**
    `Light.__init__` with the marker placed at `markerAt`: resolve the name, create the
    marker named after the light in the light's colour, then publish the light.
   */
  function InitLightAt(sc: Scene, name: Option<string>, hex: string, color: Vec3,
                       intensity: real, kind: Kind, markerAt: Vec3): (r: LightIn)
    ensures r.light.name == ResolveName(name, LightPrefix, hex)
    ensures r.light.color == color && r.light.intensity == intensity && r.light.kind == kind
    ensures r.light.marker.name == MarkerPrefix + r.light.name && r.light.marker.color == color
    ensures r.light.marker.position == markerAt
    ensures r.light.marker.radius == DefaultMarkerRadius
    ensures Mirrored(r.scene, r.light)
  {
    var n := ResolveName(name, LightPrefix, hex);
    var mk := NewMarker(sc, MarkerPrefix + n, markerAt, color, DefaultMarkerRadius);
    var l := Light(n, color, intensity, mk.marker, kind);
    LightIn(UpdateLight(mk.scene, l), l)
  }

  /** `Light.__init__` as written: the marker keeps its default position, the origin. */
  function InitLight(sc: Scene, name: Option<string>, hex: string, color: Vec3,
                     intensity: real, kind: Kind): (r: LightIn)
    ensures r.light.marker.position == Origin
    ensures Mirrored(r.scene, r.light)
  {
    InitLightAt(sc, name, hex, color, intensity, kind, Origin)
  }

  /** `Sun(scene, …)`: always named "Sun"; the indirect-light switch is only recorded. */
  function NewSun(sc: Scene, azimuth: real, elevation: real, color: Vec3, intensity: real,
                  enabled: bool, indirectLightEnabled: bool): (r: LightIn)
    ensures r.light.name == SunName && r.light.marker.name == "m_Sun"
    ensures r.scene.sun == Some(SunEntry(azimuth, elevation, color, intensity))
    ensures r.scene.sunEnabled == enabled
    ensures r.scene.indirectLightEnabled == sc.indirectLightEnabled
    ensures Mirrored(r.scene, r.light) && Tracks(r.light)
  {
    InitLight(sc, Some(SunName), "", color, intensity,
              SunKind(azimuth, elevation, enabled, indirectLightEnabled))
  }

  /** `PointLight(scene, name, position, …)` as written: its marker starts at the origin. */
  function NewPointLightAsWritten(sc: Scene, given: Option<string>, hex: string, position: Vec3,
                                  color: Vec3, intensity: real, falloff: real, castShadow: bool): (r: LightIn)
    ensures r.light.kind == PointKind(position, falloff, castShadow)
    ensures r.light.marker.position == Origin
    ensures Mirrored(r.scene, r.light)
  {
    InitLight(sc, Some(ResolveName(given, PointPrefix, hex)), hex, color, intensity,
              PointKind(position, falloff, castShadow))
  }

  /**
    `PointLight(scene, name, position, …)` with its marker placed at the light's position:
    the name is the given one or "pl_" and six hex digits.
   */
  function NewPointLight(sc: Scene, given: Option<string>, hex: string, position: Vec3,
                         color: Vec3, intensity: real, falloff: real, castShadow: bool): (r: LightIn)
    ensures r.light.kind == PointKind(position, falloff, castShadow)
    ensures r.light.name == ResolveName(given, PointPrefix, hex)
    ensures Mirrored(r.scene, r.light) && Tracks(r.light)
  {
    InitLightAt(sc, Some(ResolveName(given, PointPrefix, hex)), hex, color, intensity,
                PointKind(position, falloff, castShadow), position)
  }

  /** `SpotLight(scene, name, position, yaw, pitch, …)` as written: its marker starts at the origin. */
  function NewSpotLightAsWritten(sc: Scene, given: Option<string>, hex: string, position: Vec3,
                                 yaw: real, pitch: real, color: Vec3, intensity: real, falloff: real,
                                 castShadow: bool, innerCone: real, outerCone: real): (r: LightIn)
    ensures r.light.kind == SpotKind(position, falloff, castShadow, yaw, pitch, innerCone, outerCone)
    ensures r.light.marker.position == Origin
    ensures Mirrored(r.scene, r.light)
  {
    InitLight(sc, Some(ResolveName(given, SpotPrefix, hex)), hex, color, intensity,
              SpotKind(position, falloff, castShadow, yaw, pitch, innerCone, outerCone))
  }

  /**
    `SpotLight(scene, name, position, yaw, pitch, …)` with its marker placed at the light's
    position: the name is the given one or "sl_" and six hex digits.
   */
  function NewSpotLight(sc: Scene, given: Option<string>, hex: string, position: Vec3,
                        yaw: real, pitch: real, color: Vec3, intensity: real, falloff: real,
                        castShadow: bool, innerCone: real, outerCone: real): (r: LightIn)
    ensures r.light.kind == SpotKind(position, falloff, castShadow, yaw, pitch, innerCone, outerCone)
    ensures r.light.name == ResolveName(given, SpotPrefix, hex)
    ensures Mirrored(r.scene, r.light) && Tracks(r.light)
  {
    InitLightAt(sc, Some(ResolveName(given, SpotPrefix, hex)), hex, color, intensity,
                SpotKind(position, falloff, castShadow, yaw, pitch, innerCone, outerCone), position)
  }

  /**
    Generated names: an unnamed point light is "pl_" and six hex digits, an unnamed spot light
    "sl_" and six hex digits, nine characters either way, and each marker is "m_" followed by
    its light's name.
   */
  lemma GeneratedNames(sc: Scene, hex: string, position: Vec3, yaw: real, pitch: real, color: Vec3,
                       intensity: real, falloff: real, castShadow: bool, inner: real, outer: real)
    requires IsHex6(hex)
    ensures var p := NewPointLight(sc, None, hex, position, color, intensity, falloff, castShadow).light;
      p.name == PointPrefix + hex && |p.name| == 9 && p.marker.name == "m_pl_" + hex
    ensures var s := NewSpotLight(sc, None, hex, position, yaw, pitch, color, intensity, falloff, castShadow, inner, outer).light;
      s.name == SpotPrefix + hex && |s.name| == 9 && s.marker.name == "m_sl_" + hex
  {
    var p := NewPointLight(sc, None, hex, position, color, intensity, falloff, castShadow).light;
    assert p.marker.name == MarkerPrefix + (PointPrefix + hex);
    var s := NewSpotLight(sc, None, hex, position, yaw, pitch, color, intensity, falloff, castShadow, inner, outer).light;
    assert s.marker.name == MarkerPrefix + (SpotPrefix + hex);
  }

  /**
    The marker of a point or spot light built as written sits at the origin, not at the
    light: a light built at (1, 0, 0) is not tracked by its marker.
   */
  lemma MarkerStartsAtOrigin(sc: Scene, hex: string)
    ensures var p := NewPointLightAsWritten(sc, Some("key"), hex, Vec3(1.0, 0.0, 0.0), White, 100000.0, 1000.0, true).light;
      p.marker.position != p.kind.position && !Tracks(p)
    ensures var s := NewSpotLightAsWritten(sc, Some("key"), hex, Vec3(1.0, 0.0, 0.0), 0.0, 0.0, White, 100000.0, 1000.0, true, 1.0, 1.0).light;
      s.marker.position != s.kind.position && !Tracks(s)
  {
  }

  // ----- Setters common to all lights -----

  /** `Light.set_color`: the light and its marker take the colour, and both are re-published. */
  function SetColor(sc: Scene, l: Light, c: Vec3): (r: LightIn)
    ensures r.light == l.(color := c, marker := l.marker.(color := c, hasMaterial := true))
    ensures r.light.marker.color == r.light.color == c
    ensures Mirrored(r.scene, r.light)
    ensures Tracks(l) ==> Tracks(r.light)
  {
    var mk := SetMarkerColor(sc, l.marker, c);
    var l' := l.(color := c, marker := mk.marker);
    LightIn(UpdateLight(mk.scene, l'), l')
  }

  /** `Light.set_intensity`: only the intensity changes, and the light is re-published. */
  function SetIntensity(sc: Scene, l: Light, i: real): (r: LightIn)
    ensures r.light == l.(intensity := i)
    ensures Mirrored(sc, l) ==> Mirrored(r.scene, r.light)
    ensures Lit(r.scene, r.light) && r.scene.geometries == sc.geometries
  {
    var l' := l.(intensity := i);
    LightIn(UpdateLight(sc, l'), l')
  }

  /** A field of the light's kind changed, and the light re-published. */
  function Republish(sc: Scene, l: Light, k: Kind): (r: LightIn)
    requires k.SunKind? == l.kind.SunKind?
    ensures r.light == l.(kind := k)
    ensures Mirrored(sc, l) ==> Mirrored(r.scene, r.light)
    ensures Lit(r.scene, r.light) && r.scene.geometries == sc.geometries
    ensures !k.SunKind? ==> l.name in r.scene.lights && r.scene.lights[l.name] == Entry(r.light)
  {
    var l' := l.(kind := k);
    LightIn(UpdateLight(sc, l'), l')
  }

  // ----- Sun -----

  /** `Sun.set_azimuth`: re-published with the new azimuth. */
  function SetAzimuth(sc: Scene, l: Light, deg: real): (r: LightIn)
    requires l.kind.SunKind?
    ensures r.light == l.(kind := l.kind.(azimuth := deg))
    ensures r.scene.sun.Some? && r.scene.sun.value.azimuth == deg
    ensures Mirrored(sc, l) ==> Mirrored(r.scene, r.light)
  {
    Republish(sc, l, l.kind.(azimuth := deg))
  }

  /** `Sun.set_elevation`: re-published with the new elevation. */
  function SetElevation(sc: Scene, l: Light, deg: real): (r: LightIn)
    requires l.kind.SunKind?
    ensures r.light == l.(kind := l.kind.(elevation := deg))
    ensures r.scene.sun.Some? && r.scene.sun.value.elevation == deg
    ensures Mirrored(sc, l) ==> Mirrored(r.scene, r.light)
  {
    Republish(sc, l, l.kind.(elevation := deg))
  }

  /** `Sun.set_enabled`: re-published, switching the sun on or off in the scene. */
  function SetEnabled(sc: Scene, l: Light, enabled: bool): (r: LightIn)
    requires l.kind.SunKind?
    ensures r.light == l.(kind := l.kind.(enabled := enabled))
    ensures r.scene.sunEnabled == enabled
    ensures Mirrored(sc, l) ==> Mirrored(r.scene, r.light)
  {
    Republish(sc, l, l.kind.(enabled := enabled))
  }

  /**
    `Sun.set_indirect_light_enabled`: records the switch and passes it to the scene, but does
    not re-publish the sun; everything else in the scene stays as it was.
   */
  function SetIndirectLightEnabled(sc: Scene, l: Light, enabled: bool): (r: LightIn)
    requires l.kind.SunKind?
    ensures r.light == l.(kind := l.kind.(indirectLightEnabled := enabled))
    ensures r.scene == sc.(indirectLightEnabled := enabled)
    ensures Mirrored(sc, l) ==> Mirrored(r.scene, r.light)
  {
    LightIn(sc.(indirectLightEnabled := enabled), l.(kind := l.kind.(indirectLightEnabled := enabled)))
  }

  // ----- Point and spot lights -----

  /**
    `PointLight.set_position`: the light and its marker move together, and both are
    re-published.
   */
  function SetPosition(sc: Scene, l: Light, p: Vec3): (r: LightIn)
    requires !l.kind.SunKind?
    ensures r.light == l.(kind := l.kind.(position := p), marker := l.marker.(position := p, hasMaterial := true))
    ensures r.light.marker.position == r.light.kind.position == p
    ensures Mirrored(r.scene, r.light)
    ensures Tracks(l) ==> Tracks(r.light)
  {
    var mk := SetMarkerPosition(sc, l.marker, p);
    var l' := l.(kind := l.kind.(position := p), marker := mk.marker);
    LightIn(UpdateLight(mk.scene, l'), l')
  }

  /** `PointLight.set_falloff`. */
  function SetFalloff(sc: Scene, l: Light, f: real): (r: LightIn)
    requires !l.kind.SunKind?
    ensures r.light == l.(kind := l.kind.(falloff := f))
    ensures l.name in r.scene.lights && r.scene.lights[l.name] == Entry(r.light)
    ensures r.scene.lights[l.name].falloff == f
    ensures Mirrored(sc, l) ==> Mirrored(r.scene, r.light)
  {
    Republish(sc, l, l.kind.(falloff := f))
  }

  /** `PointLight.set_cast_shadow`. */
  function SetCastShadow(sc: Scene, l: Light, cast: bool): (r: LightIn)
    requires !l.kind.SunKind?
    ensures r.light == l.(kind := l.kind.(castShadow := cast))
    ensures l.name in r.scene.lights && r.scene.lights[l.name] == Entry(r.light)
    ensures r.scene.lights[l.name].castShadow == cast
    ensures Mirrored(sc, l) ==> Mirrored(r.scene, r.light)
  {
    Republish(sc, l, l.kind.(castShadow := cast))
  }

  /** `SpotLight.set_yaw`. */
  function SetYaw(sc: Scene, l: Light, yaw: real): (r: LightIn)
    requires l.kind.SpotKind?
    ensures r.light == l.(kind := l.kind.(yaw := yaw))
    ensures l.name in r.scene.lights && r.scene.lights[l.name] == Entry(r.light)
    ensures r.scene.lights[l.name].yaw == yaw
    ensures Mirrored(sc, l) ==> Mirrored(r.scene, r.light)
  {
    Republish(sc, l, l.kind.(yaw := yaw))
  }

  /** `SpotLight.set_pitch`. */
  function SetPitch(sc: Scene, l: Light, pitch: real): (r: LightIn)
    requires l.kind.SpotKind?
    ensures r.light == l.(kind := l.kind.(pitch := pitch))
    ensures l.name in r.scene.lights && r.scene.lights[l.name] == Entry(r.light)
    ensures r.scene.lights[l.name].pitch == pitch
    ensures Mirrored(sc, l) ==> Mirrored(r.scene, r.light)
  {
    Republish(sc, l, l.kind.(pitch := pitch))
  }

  /** `SpotLight.set_inner_cone_angle`. */
  function SetInnerConeAngle(sc: Scene, l: Light, angle: real): (r: LightIn)
    requires l.kind.SpotKind?
    ensures r.light == l.(kind := l.kind.(innerCone := angle))
    ensures l.name in r.scene.lights && r.scene.lights[l.name] == Entry(r.light)
    ensures r.scene.lights[l.name].innerCone == angle
    ensures Mirrored(sc, l) ==> Mirrored(r.scene, r.light)
  {
    Republish(sc, l, l.kind.(innerCone := angle))
  }

  /** `SpotLight.set_outer_cone_angle`. */
  function SetOuterConeAngle(sc: Scene, l: Light, angle: real): (r: LightIn)
    requires l.kind.SpotKind?
    ensures r.light == l.(kind := l.kind.(outerCone := angle))
    ensures l.name in r.scene.lights && r.scene.lights[l.name] == Entry(r.light)
    ensures r.scene.lights[l.name].outerCone == angle
    ensures Mirrored(sc, l) ==> Mirrored(r.scene, r.light)
  {
    Republish(sc, l, l.kind.(outerCone := angle))
  }

  // ----- Destruction -----

  /**
    `destroy`: the sun refuses by raising; a point or spot light reaches only empty base-class
    bodies, so the scene is returned unchanged.
   */
  function Destroy(sc: Scene, l: Light): (r: Result<Scene>)
    ensures l.kind.SunKind? <==> r.Failure?
    ensures r.Failure? ==> r.error == NotDestroyable
    ensures r.Success? ==> r.value == sc
  {
    if l.kind.SunKind? then Failure(NotDestroyable) else Success(sc)
  }

  /** After `destroy`, a point or spot light and its marker are both still in the scene. */
  lemma DestroyLeavesLightInScene(sc: Scene, l: Light)
    requires !l.kind.SunKind? && Mirrored(sc, l)
    ensures Destroy(sc, l).Success?
    ensures l.name in Destroy(sc, l).value.lights && l.marker.name in Destroy(sc, l).value.geometries
  {
  }
}
