/**
  The parametric body model's bookkeeping: the 72-value pose (3 global-orientation values and
  69 body values), the 10 shape values ("betas"), where gender and age go in the constructor
  call, and what a reload keeps, resets or rolls back. The forward pass itself is opaque: the
  mesh in the scene records the inputs it was computed from, and the constructor is a
  caller-supplied predicate saying on which arguments it raises.
 */
module BodyModel {
  import opened Wrappers
  import opened Scene
  import Params
  import GuiComponent

  const PoseSize: nat := 72
  const GlobalOrientSize: nat := 3
  const BetasSize: nat := 10
  /** Each joint group has one slider per rotation axis. */
  const AxesPerGroup: nat := 3
  const DefaultColor := Vec3(0.85, 0.82, 0.80)
  /** The body mesh's name in the scene. */
  const MeshName: string := "smpl"

  /** The pose a full reload starts from: arms lowered, feet and hands slightly turned. */
  const DefaultPose: seq<real> := [
    0.0, 0.0, 0.0, 0.0, 0.0, 0.0, 0.0, 0.0, 0.0, 0.0, 0.0, 0.0,
    0.0, 0.0, 0.0, 0.0, 0.0, 0.0, 0.0, 0.0, 0.0, 0.0, 0.3, 0.0,
    0.0, -0.3, 0.0, 0.0, 0.0, 0.0, 0.0, 0.0, 0.0, 0.0, 0.0, 0.0,
    0.0, 0.0, 0.0, -0.2, 0.0, -0.2, -0.2, 0.0, 0.2, 0.0, 0.0, 0.0,
    0.0, -0.1, -0.8, 0.0, 0.1, 0.8, 0.4, -0.3, 0.0, 0.4, 0.3, 0.0,
    -0.4, 0.0, 0.0, -0.4, 0.0, 0.0, 0.0, 0.0, -0.3, 0.0, 0.0, 0.3
  ]

  /** The betas a full reload starts from. */
  const ZeroBetas: seq<real> := [0.0, 0.0, 0.0, 0.0, 0.0, 0.0, 0.0, 0.0, 0.0, 0.0]

  /** The slider groups, one per joint, in pose order. */
  const ParamGroups: seq<string> := [
    "Global orientation", "Left leg", "Right leg", "Waist (Spine)", "Knee left", "Knee right",
    "Belly (Spine 1)", "Ankle left", "Ankle right", "Chest (Spine 2)", "Feet left toes",
    "Feet right toes", "Neck", "Shoulder left", "Shoulder right", "Head", "Arm left",
    "Arm right", "Forearm left", "Forearm right", "Wrist left", "Wrist right",
    "Fingers left", "Fingers right"
  ]

  /** The default pose fills the pose vector, the groups cover it three axes at a time. */
  lemma ConstantsAgree()
    ensures |DefaultPose| == PoseSize && |ZeroBetas| == BetasSize
    ensures |ParamGroups| == 24 && |ParamGroups| * AxesPerGroup == PoseSize
    ensures forall k :: 0 <= k < |ZeroBetas| ==> ZeroBetas[k] == 0.0
  {
  }

  // ----- Slider layout -----

  /** The pose slot driven by axis `axis` of group `group`. */
  function SliderIndex(group: nat, axis: nat): nat {
    group * AxesPerGroup + axis
  }

  /**
    Every (group, axis) pair drives a slot of the pose, and every slot is driven by exactly one
    pair: the one recovered by dividing by three.
   */
  lemma SliderIndexBijective()
    ensures forall g, a :: 0 <= g < |ParamGroups| && 0 <= a < AxesPerGroup ==>
      SliderIndex(g, a) < PoseSize && SliderIndex(g, a) / 3 == g && SliderIndex(g, a) % 3 == a
    ensures forall k :: 0 <= k < PoseSize ==> k / 3 < |ParamGroups| && SliderIndex(k / 3, k % 3) == k
  {
  }

  /**
    The pose slot of each slider in the order `build_gui` creates them: group by group, three
    axes each. The k-th slider drives slot k, so all 72 slots are driven, each once.
   */
  method SliderSlots() returns (slots: seq<nat>)
    ensures |slots| == PoseSize
    ensures forall k :: 0 <= k < |slots| ==> slots[k] == k
  {
    slots := [];
    var g := 0;
    while g < |ParamGroups|
      invariant 0 <= g <= |ParamGroups|
      invariant |slots| == g * AxesPerGroup
      invariant forall k :: 0 <= k < |slots| ==> slots[k] == k
    {
      var a := 0;
      while a < AxesPerGroup
        invariant 0 <= a <= AxesPerGroup
        invariant |slots| == g * AxesPerGroup + a
        invariant forall k :: 0 <= k < |slots| ==> slots[k] == k
      {
        slots := slots + [SliderIndex(g, a)];
        a := a + 1;
      }
      g := g + 1;
    }
  }

  // ----- Pose slicing -----

  /** `pose[:, :3]`, with Python's tolerant slicing. */
  function GlobalOrient(pose: seq<real>): seq<real> {
    if |pose| < GlobalOrientSize then pose else pose[..GlobalOrientSize]
  }

  /** `pose[:, 3:]`, with Python's tolerant slicing. */
  function BodyPose(pose: seq<real>): seq<real> {
    if |pose| < GlobalOrientSize then [] else pose[GlobalOrientSize..]
  }

  /** The two slices together are the whole pose; a full pose splits into 3 and 69 values. */
  lemma PoseSplits(pose: seq<real>)
    ensures GlobalOrient(pose) + BodyPose(pose) == pose
    ensures |pose| == PoseSize ==> |GlobalOrient(pose)| == 3 && |BodyPose(pose)| == 69
  {
  }

  // ----- Constructor arguments -----

  /** A constructor argument: a string the model places itself, or a value passed through. */
  datatype ArgValue = Text(s: string) | Opaque(tag: nat)

  /** The positional and keyword arguments of a body-model constructor call. */
  datatype Call = Call(args: seq<ArgValue>, kwargs: map<string, ArgValue>)

  /**
    Where the reload code keeps parameter `key` whose position in the constructor's
    signature is `idx`: the positional argument when `0 < idx < len(args)`, otherwise the
    keyword argument.
   */
  function Slot(c: Call, idx: int, key: string): Option<ArgValue> {
    if 0 < idx < |c.args| then Some(c.args[idx])
    else if key in c.kwargs then Some(c.kwargs[key])
    else None
  }

  /**
    The placement step of `_reload`: overwrite the positional argument and drop the keyword
    when the position is within the arguments (and not the first), else set the keyword.
   */
  function PlaceArg(c: Call, idx: int, key: string, v: ArgValue): (r: Call)
    ensures |r.args| == |c.args|
    ensures Slot(r, idx, key) == Some(v)
    ensures 0 < idx < |c.args| ==>
      && key !in r.kwargs && r.kwargs == c.kwargs - {key}
      && forall i :: 0 <= i < |c.args| && i != idx ==> r.args[i] == c.args[i]
    ensures !(0 < idx < |c.args|) ==> r.args == c.args && r.kwargs == c.kwargs[key := v]
  {
    if 0 < idx < |c.args| then Call(c.args[idx := v], c.kwargs - {key})
    else Call(c.args, c.kwargs[key := v])
  }

  /** Where gender and age go in a call that was placed for both. */
  ghost predicate Placed(c: Call, params: seq<string>, gender: string, age: string) {
    && Slot(c, Params.GetArgsParameterIndex(params, "gender"), "gender") == Some(Text(gender))
    && Slot(c, Params.GetArgsParameterIndex(params, "age"), "age") == Some(Text(age))
  }

  /** Placing gender and then age leaves both where the reload code looks for them. */
  lemma PlaceBoth(c: Call, params: seq<string>, gender: string, age: string)
    ensures var gi := Params.GetArgsParameterIndex(params, "gender");
            var ai := Params.GetArgsParameterIndex(params, "age");
            Placed(PlaceArg(PlaceArg(c, gi, "gender", Text(gender)), ai, "age", Text(age)), params, gender, age)
  {
    var gi := Params.GetArgsParameterIndex(params, "gender");
    var ai := Params.GetArgsParameterIndex(params, "age");
    var c1 := PlaceArg(c, gi, "gender", Text(gender));
    if 0 < gi < |c.args| && 0 < ai < |c.args| {
      assert params[gi] != params[ai];
    }
  }

  // ----- The body -----

  /**
    The model's state: the constructor call it keeps editing, the gender and age selectors,
    the colour, pose and betas, the call the current body model was built from, and the GUI
    flag.
   */
  datatype Body = Body(call: Call, gender: string, age: string, color: Vec3,
                       pose: seq<real>, betas: seq<real>, loaded: Option<Call>,
                       gui: GuiComponent.Component)

  /** A constructed model's tensors have their full sizes. */
  ghost predicate Wf(b: Body) {
    |b.pose| == PoseSize && |b.betas| == BetasSize
  }

  datatype BodyIn = BodyIn(body: Body, scene: Scene)

  /** The outcome of a reload: the state afterwards and the exception it raised, if any. */
  datatype Outcome = Outcome(body: Body, scene: Scene, raised: Option<Raised>)

  /** The mesh the forward pass produces from the body's current inputs. */
  function Mesh(b: Body): Geometry {
    BodyMesh(b.betas, BodyPose(b.pose), GlobalOrient(b.pose), b.color, Material("defaultLit", b.color))
  }

  /** The scene shows the body's current mesh. */
  ghost predicate Showing(sc: Scene, b: Body) {
    MeshName in sc.geometries && sc.geometries[MeshName] == Mesh(b)
  }

  /** `_update`: the mesh is recomputed and replaces the previous one; nothing else changes. */
  function Update(b: Body, sc: Scene): (r: Scene)
    ensures Showing(r, b)
    ensures r.geometries[MeshName].bodyPose == BodyPose(b.pose)
    ensures r.geometries[MeshName].globalOrient == GlobalOrient(b.pose)
    ensures r.geometries.Keys == sc.geometries.Keys + {MeshName}
    ensures forall n :: n in sc.geometries && n != MeshName ==> r.geometries[n] == sc.geometries[n]
    ensures r.lights == sc.lights && r.sun == sc.sun
  {
    ReplaceGeometry(sc, MeshName, Mesh(b))
  }

  /**
    `_reload` with the values its rollback restores passed in. Gender and age are placed in
    the call, the constructor is tried, and on failure the selectors are rolled back and the
    error re-raised (the edited call is kept); on success a full reload resets pose and betas,
    a partial one keeps them, and the mesh is rebuilt.
   */
  function ReloadWithRollback(b: Body, sc: Scene, full: bool, params: seq<string>,
                              fails: Call -> bool, rollbackGender: string, rollbackAge: string): (r: Outcome)
    ensures |r.body.call.args| == |b.call.args|
    ensures Placed(r.body.call, params, b.gender, b.age)
    ensures r.body.color == b.color && r.body.gui == b.gui
    ensures r.raised.Some? ==>
      && r.raised.value == ConstructionFailed && fails(r.body.call)
      && r.body.gender == rollbackGender && r.body.age == rollbackAge
      && r.body.pose == b.pose && r.body.betas == b.betas && r.body.loaded == b.loaded
      && r.scene == sc
    ensures r.raised.None? ==>
      && !fails(r.body.call) && r.body.loaded == Some(r.body.call)
      && r.body.gender == b.gender && r.body.age == b.age
      && (full ==> r.body.pose == DefaultPose && r.body.betas == ZeroBetas)
      && (!full ==> r.body.pose == b.pose && r.body.betas == b.betas)
      && Showing(r.scene, r.body)
  {
    var gi := Params.GetArgsParameterIndex(params, "gender");
    var ai := Params.GetArgsParameterIndex(params, "age");
    var c := PlaceArg(PlaceArg(b.call, gi, "gender", Text(b.gender)), ai, "age", Text(b.age));
    PlaceBoth(b.call, params, b.gender, b.age);
    if fails(c) then
      Outcome(b.(call := c, gender := rollbackGender, age := rollbackAge), sc, Some(ConstructionFailed))
    else
      var b' := b.(call := c, loaded := Some(c),
                   pose := if full then DefaultPose else b.pose,
                   betas := if full then ZeroBetas else b.betas);
      Outcome(b', Update(b', sc), None)
  }

  /**
    `_reload` as written: the values it rolls back to are read on entry, so a failed reload
    leaves gender and age exactly as they were on entry.
   */
  function Reload(b: Body, sc: Scene, full: bool, params: seq<string>, fails: Call -> bool): (r: Outcome)
    ensures r.body.gender == b.gender && r.body.age == b.age
    ensures r.raised.Some? <==> fails(r.body.call)
    ensures r.raised.None? ==> r.body.loaded == Some(r.body.call) && Placed(r.body.call, params, b.gender, b.age)
  {
    ReloadWithRollback(b, sc, full, params, fails, b.gender, b.age)
  }

  /**
    `Model(scene, *args, **kwargs)`: neutral adult in the default colour, then a full reload;
    if that raises, no model exists.
   */
  function NewBody(sc: Scene, args: seq<ArgValue>, kwargs: map<string, ArgValue>,
                   params: seq<string>, fails: Call -> bool): (r: Result<BodyIn>)
    ensures r.Failure? ==> r.error == ConstructionFailed
    ensures r.Success? ==>
      && var b := r.value.body;
      && Wf(b) && b.pose == DefaultPose && b.betas == ZeroBetas
      && b.gender == "neutral" && b.age == "adult" && b.color == DefaultColor
      && !b.gui.isGuiBuilt && |b.call.args| == |args|
      && b.loaded == Some(b.call) && Placed(b.call, params, "neutral", "adult")
      && Showing(r.value.scene, b)
  {
    var b := Body(Call(args, kwargs), "neutral", "adult", DefaultColor, [], [], None, GuiComponent.New());
    var o := Reload(b, sc, true, params, fails);
    if o.raised.Some? then Failure(o.raised.value) else Success(BodyIn(o.body, o.scene))
  }

  /**
    `set_gender` as written: the new gender is stored before `_reload` reads its rollback
    value, so when the constructor raises the new gender stays.
   */
  function SetGender(b: Body, sc: Scene, g: string, params: seq<string>, fails: Call -> bool): (r: Outcome)
    ensures r.body.gender == g && r.body.age == b.age
    ensures r.raised.Some? ==> r.body.loaded == b.loaded && r.body.pose == b.pose && r.scene == sc
    ensures r.raised.None? ==> r.body.pose == b.pose && r.body.betas == b.betas
  {
    Reload(b.(gender := g), sc, false, params, fails)
  }

  /** `set_age` as written: when the constructor raises the new age stays. */
  function SetAge(b: Body, sc: Scene, a: string, params: seq<string>, fails: Call -> bool): (r: Outcome)
    ensures r.body.age == a && r.body.gender == b.gender
    ensures r.raised.Some? ==> r.body.loaded == b.loaded && r.body.pose == b.pose && r.scene == sc
    ensures r.raised.None? ==> r.body.pose == b.pose && r.body.betas == b.betas
  {
    Reload(b.(age := a), sc, false, params, fails)
  }

  /**
    The rollback of `set_gender` is a no-op: a neutral model asked to become female by a
    constructor that raises stays female.
   */
  lemma GenderRollbackIneffective(b: Body, sc: Scene, params: seq<string>)
    requires b.gender == "neutral"
    ensures SetGender(b, sc, "female", params, _ => true).raised.Some?
    ensures SetGender(b, sc, "female", params, _ => true).body.gender != b.gender
  {
  }

  /** `set_gender` restoring the previous gender when the constructor raises. */
  function SetGenderRestoring(b: Body, sc: Scene, g: string, params: seq<string>, fails: Call -> bool): (r: Outcome)
    ensures r.raised.Some? ==> r.body.gender == b.gender && r.body.age == b.age && r.body.loaded == b.loaded
    ensures r.raised.None? ==> r.body.gender == g && r.body.loaded == Some(r.body.call)
    ensures r.raised.None? ==> Placed(r.body.call, params, g, b.age)
  {
    ReloadWithRollback(b.(gender := g), sc, false, params, fails, b.gender, b.age)
  }

  /** `set_age` restoring the previous age when the constructor raises. */
  function SetAgeRestoring(b: Body, sc: Scene, a: string, params: seq<string>, fails: Call -> bool): (r: Outcome)
    ensures r.raised.Some? ==> r.body.gender == b.gender && r.body.age == b.age && r.body.loaded == b.loaded
    ensures r.raised.None? ==> r.body.age == a && r.body.loaded == Some(r.body.call)
    ensures r.raised.None? ==> Placed(r.body.call, params, b.gender, a)
  {
    ReloadWithRollback(b.(age := a), sc, false, params, fails, b.gender, b.age)
  }

  /**
    After a successful selector change the loaded model was built for the selectors; after a
    failed one the selectors are back where they were: in both cases the restoring setter
    never leaves a gender the loaded model was not asked for.
   */
  lemma RestoringKeepsSelectorsConsistent(b: Body, sc: Scene, g: string, a: string, params: seq<string>, fails: Call -> bool)
    requires b.loaded.Some? && Placed(b.loaded.value, params, b.gender, b.age)
    ensures var r := SetGenderRestoring(b, sc, g, params, fails);
      r.body.loaded.Some? && Placed(r.body.loaded.value, params, r.body.gender, r.body.age)
    ensures var r := SetAgeRestoring(b, sc, a, params, fails);
      r.body.loaded.Some? && Placed(r.body.loaded.value, params, r.body.gender, r.body.age)
  {
  }

  // ----- Sliders -----

  /** The tensor slot Python indexing reaches: negative indices count from the end. */
  function PyIndex(n: nat, i: int): (r: Option<nat>)
    ensures r.Some? <==> 0 <= n + i && i < n
    ensures r.Some? ==> r.value < n && (i >= 0 ==> r.value == i) && (i < 0 ==> r.value + (-i) == n)
  {
    if 0 <= i < n then Some(i) else if 0 <= n + i && i < 0 then Some(n + i) else None
  }

  /**
    `_on_pose_param_changed`: writes exactly one pose slot, unclamped, leaves the other slots
    and the betas alone, and rebuilds the mesh; an index outside the pose raises.
   */
  function SetPoseParam(b: Body, sc: Scene, value: real, index: int): (r: Result<BodyIn>)
    ensures r.Success? <==> 0 <= |b.pose| + index && index < |b.pose|
    ensures r.Failure? ==> r.error == IndexError
    ensures r.Success? ==>
      && var p := r.value.body.pose;
      && |p| == |b.pose|
      && p[PyIndex(|b.pose|, index).value] == value
      && (forall k :: 0 <= k < |p| && k != PyIndex(|b.pose|, index).value ==> p[k] == b.pose[k])
      && r.value.body == b.(pose := p)
      && Showing(r.value.scene, r.value.body)
  {
    match PyIndex(|b.pose|, index)
    case None => Failure(IndexError)
    case Some(k) =>
      var b' := b.(pose := b.pose[k := value]);
      Success(BodyIn(b', Update(b', sc)))
  }

  /** `_on_betas_param_changed`: the same for one of the betas. */
  function SetBetasParam(b: Body, sc: Scene, value: real, index: int): (r: Result<BodyIn>)
    ensures r.Success? <==> 0 <= |b.betas| + index && index < |b.betas|
    ensures r.Failure? ==> r.error == IndexError
    ensures r.Success? ==>
      && var p := r.value.body.betas;
      && |p| == |b.betas|
      && p[PyIndex(|b.betas|, index).value] == value
      && (forall k :: 0 <= k < |p| && k != PyIndex(|b.betas|, index).value ==> p[k] == b.betas[k])
      && r.value.body == b.(betas := p)
      && Showing(r.value.scene, r.value.body)
  {
    match PyIndex(|b.betas|, index)
    case None => Failure(IndexError)
    case Some(k) =>
      var b' := b.(betas := b.betas[k := value]);
      Success(BodyIn(b', Update(b', sc)))
  }

  /** Every slider of a constructed model writes inside the pose and keeps it well formed. */
  lemma SlidersStayInPose(b: Body, sc: Scene, value: real, g: nat, a: nat)
    requires Wf(b) && g < |ParamGroups| && a < AxesPerGroup
    ensures SetPoseParam(b, sc, value, SliderIndex(g, a)).Success?
    ensures Wf(SetPoseParam(b, sc, value, SliderIndex(g, a)).value.body)
  {
  }

  /** `set_color`: the body is repainted. */
  function SetColor(b: Body, sc: Scene, c: Vec3): (r: BodyIn)
    ensures r.body == b.(color := c)
    ensures Showing(r.scene, r.body) && r.scene.geometries[MeshName].color == c
  {
    var b' := b.(color := c);
    BodyIn(b', Update(b', sc))
  }

  /** `build_gui`: the base class marks the widgets built. */
  function BuildGui(b: Body): (r: Body)
    ensures r.gui.isGuiBuilt && r == b.(gui := r.gui)
  {
    b.(gui := GuiComponent.BuildGui(b.gui))
  }

  /** `destroy_gui`: the base class marks the widgets gone. */
  function DestroyGui(b: Body): (r: Body)
    ensures !r.gui.isGuiBuilt && r == b.(gui := r.gui)
  {
    b.(gui := GuiComponent.DestroyGui(b.gui))
  }
}
