# SMPL Playground: a verified model of its state logic

SMPL Playground is a desktop viewer: an open3d window that shows an SMPL body mesh
and lets the user add, select, move and remove point and spot lights. Most of it is GUI
plumbing. This project models the parts that carry sequential logic, as pure Dafny functions
over immutable records, and proves what those parts promise:

- **Light selection** in two versions. `LightsController` is the newer, keyboard-driven
  controller. `LightControls` is the panel that the main window actually wires in. Both keep
  an insertion-ordered dict of named lights and an optional current light. Python object
  identity is modelled as a name-indexed heap (`objects`) plus the dict's keys in insertion
  order (`order`, see `OrderedKeys`). A removed light stays in the heap, so a stale
  `current` can be represented.
- **Scene registry of lights and markers** (`Lights`). The open3d scene is an abstract record
  (`Scene`): a geometry map, a light map and the sun's settings. A light is mirrored by a
  small sphere marker named `m_<light name>`.
- **Body-model parameter bookkeeping** (`BodyModel`). This covers the 72-slot pose with its
  3/69 split, the 24x3 slider layout, one-slot pose and beta updates, full and partial reload,
  and placing `gender`/`age` into positional or keyword arguments. The SMPL constructor is an
  opaque call that may fail, passed in as a predicate.
- **Small helpers**: the window layout split and menu toggle (`Playground`), the
  parameter-index lookup (`Params`), the `is_gui_built` flag protocol (`GuiComponent`) and the
  combobox refill (`Combobox`).

Python exceptions are `Failure` values of `Wrappers.Result`. Floats are `real`.
`int(w * 0.3)` is written out as truncation toward zero of `3w/10`.

## Model

| member | source | states |
|---|---|---|
| OrderedKeys.Insert | src/controllers/lights.py:96 | assigning a dict key keeps the existing keys in place, appends a new key at the end, and keeps keys distinct |
| OrderedKeys.Delete | src/controllers/lights.py:114 | `del` removes exactly that key and no other, keeps keys distinct, and shortens a distinct key list by one |
| OrderedKeys.DeleteKeepsOrder | src/controllers/lights.py:114 | with distinct keys, `del` at position i leaves the keys before i and after i, in their order |
| OrderedKeys.DeleteSplits | src/controllers/lights.py:114 | deleting a key that sits between two key runs gives the two runs joined |
| OrderedKeys.DeleteAbsent | src/controllers/lights.py:114 | the key-order helper is total: an absent key leaves the list unchanged. At line 114 `del` raises instead, and RemoveCurrentAsWritten returns that KeyError before it calls the helper; the lemma is a proof step for the present-key case |
| OrderedKeys.FirstAfterDelete | src/controllers/lights.py:117 | after a delete, the first remaining key is the old first key, or the second one if the first was deleted |
| Combobox.Scan | src/controllers/lights.py:182-185 | the selected index ends at the last position holding the name, with no later match; when the name is absent it is the index the scan started from |
| Combobox.Refresh | src/controllers/lights.py:180-185 | items are the keys in order, the enabled flag is kept, and a present name's position is selected (the absent case is under "Left out") |
| Combobox.RefreshSelectsPosition | src/controllers/lights.py:180-185 | with distinct keys, the selected index is exactly the name's position |
| Scene.ReplaceGeometry | src/light.py:65-67 | remove-then-add leaves exactly the new geometry under the name and touches nothing else |
| Scene.RemoveGeometry | src/light.py:69-72 | removes only the name, and is a no-op when the name is absent |
| Scene.ReplaceLight | src/light.py:313-322 | remove-then-add leaves exactly one light entry under the name and touches nothing else |
| Scene.ReplaceGeometryTwice | src/light.py:54-67 | a second update under the same name overrides the first: at most one geometry per name |
| GuiComponent.New | src/components/gui/interfaces.py:8-9 | a new component has `is_gui_built` false |
| GuiComponent.BuildGui | src/components/gui/interfaces.py:15-17 | building sets the flag |
| GuiComponent.DestroyGui | src/components/gui/interfaces.py:19-21 | destroying clears the flag |
| GuiComponent.BuildGuiIdempotent | src/components/gui/interfaces.py:15-17 | building twice is the same as building once |
| GuiComponent.BuildThenDestroyIsNew | src/components/gui/interfaces.py:11-21 | build then destroy returns to the initial state; reading the flag is a pure field access |
| Params.FirstIndex | src/utils.py:39 | the index holds the name and no earlier position does (`list.index`) |
| Params.GetArgsParameterIndex | src/utils.py:35-40 | result lies in [-1, len); -1 exactly when the name is absent; otherwise the first position holding the name |
| Playground.TruncDiv | src/main.py:46 | Python's `int()` of a quotient: truncation toward zero, bounded on both sides |
| Playground.PanelWidth | src/main.py:46 | never above 340; within [0, width] for a non-negative width; equals 340 or the truncated 30% |
| Playground.OnLayout | src/main.py:44-55 | panel at the content origin with full height; scene to its right with the same y and height; scene width never negative; the widths add up to the content width when it is non-negative |
| Playground.ToggleMenu | src/main.py:106-110 | every one of the four flags flips |
| Playground.ToggleTwiceRestores | src/main.py:106-110 | toggling twice restores the menu |
| Playground.ToggleTimes | src/main.py:106-110 | an even number of toggles restores the menu; an odd number equals one toggle |
| Playground.ButtonsStayExclusive | src/main.py:72-77 | from the initial menu (lights button off, SMPL button on) exactly one button is enabled after any number of toggles |
| Playground.PanelsStayInStep | src/main.py:84-100 | both panels start visible, so after any number of toggles they are both visible or both hidden |
| Lights.UpdateMarker | src/light.py:54-67 | the marker gains its material and exactly one sphere under its name with its position, colour and radius; nothing else changes |
| Lights.NewMarker | src/light.py:16-33 | a new marker is shown with the given name, position, colour and radius |
| Lights.SetMarkerPosition | src/light.py:39-41 | only the position changes, and the scene sphere follows it |
| Lights.SetMarkerColor | src/light.py:43-48 | only the colour changes, and the scene sphere follows it |
| Lights.SetMarkerRadius | src/light.py:50-52 | only the radius changes, and the scene sphere follows it |
| Lights.DestroyMarker | src/light.py:69-72 | the name leaves the scene (a no-op if absent) and the material is cleared; nothing else changes |
| Lights.UpdateThenDestroy | src/light.py:54-72 | showing a marker under an unused name and then destroying it restores the scene |
| Lights.UpdateLight | src/light.py:229-232 | the sun variant sets the sun's settings and leaves the light map alone; the point and spot variants leave exactly one scene light under the light's name (also 313-322, 407-421) |
| Lights.InitLightAt | src/light.py:79-93 | name resolved from the given name or "l_"+hex; marker "m_"+name with the light's colour and radius 0.01; light and marker both in the scene |
| Lights.InitLight | src/light.py:79-93 | the base constructor puts the marker at the origin |
| Lights.NewSun | src/light.py:138-157 | always named "Sun" with marker "m_Sun"; sun settings published; marker tracks the light |
| Lights.NewPointLightAsWritten | src/light.py:239-260 | the point light as written: its marker starts at the origin, not at the light's position |
| Lights.NewPointLight | src/light.py:239-260 | the corrected point light: named by the given name or "pl_"+hex, published, and its marker tracks the light |
| Lights.NewSpotLightAsWritten | src/light.py:333-356 | the spot light as written: its marker starts at the origin |
| Lights.NewSpotLight | src/light.py:333-356 | the corrected spot light: named by the given name or "sl_"+hex, published, and its marker tracks the light |
| Lights.GeneratedNames | src/light.py:253-254 | unnamed point and spot lights are "pl_"/"sl_" plus six hex digits, with markers "m_" plus that name (also 352-353) |
| Lights.MarkerStartsAtOrigin | src/light.py:91 | a point or spot light at (1,0,0) gets a marker at the origin |
| Lights.SetColor | src/light.py:120-126 | the marker gets the same colour as the light; both are published |
| Lights.SetIntensity | src/light.py:128-130 | only the intensity changes, and the light is republished |
| Lights.Republish | src/light.py:313-322 | a changed light setting is republished under the light's own name |
| Lights.SetAzimuth | src/light.py:159-161 | only the azimuth changes, and the sun settings follow |
| Lights.SetElevation | src/light.py:163-165 | only the elevation changes, and the sun settings follow |
| Lights.SetEnabled | src/light.py:167-169 | only the enabled flag changes, and the scene's sun switch follows |
| Lights.SetIndirectLightEnabled | src/light.py:171-173 | the scene's indirect-light flag is set directly and nothing else in the scene changes (no `_update`) |
| Lights.SetPosition | src/light.py:262-265 | the light and its marker both move to the new position |
| Lights.SetFalloff | src/light.py:267-269 | only the falloff changes, and the scene light follows |
| Lights.SetCastShadow | src/light.py:271-273 | only the shadow flag changes, and the scene light follows |
| Lights.SetYaw | src/light.py:358-360 | only the yaw changes, and the scene spot light follows |
| Lights.SetPitch | src/light.py:362-364 | only the pitch changes, and the scene spot light follows |
| Lights.SetInnerConeAngle | src/light.py:366-368 | only the inner cone changes, and the scene spot light follows |
| Lights.SetOuterConeAngle | src/light.py:370-372 | only the outer cone changes, and the scene spot light follows |
| Lights.Destroy | src/light.py:226-227 | the sun always raises; point and spot lights return the scene unchanged (also 95-97, 306-311) |
| Lights.DestroyLeavesLightInScene | src/light.py:306-311 | destroying a shown point or spot light leaves both the light and its marker in the scene |
| BodyModel.ConstantsAgree | src/components/scene/model.py:17-116 | the default pose has 72 entries, there are 24 parameter groups of 3 axes, and there are 10 zero betas |
| BodyModel.SliderIndexBijective | src/components/scene/model.py:209-213 | `i*3+j` maps the 24x3 grid onto 0..71, each index exactly once |
| BodyModel.SliderSlots | src/components/scene/model.py:209-213 | the nested slider loop visits the pose indices 0..71 in order |
| BodyModel.PoseSplits | src/components/scene/model.py:302-305 | global orientation and body pose joined give the whole pose, 3 and 69 long |
| BodyModel.PlaceArg | src/components/scene/model.py:269-281 | for 0 < idx < len(args) the arg is replaced and the keyword removed; otherwise the keyword is set; args keep their length |
| BodyModel.PlaceBoth | src/components/scene/model.py:269-281 | gender and age both land where the constructor reads them |
| BodyModel.Update | src/components/scene/model.py:301-324 | exactly one mesh under "smpl" carries the current pose split and betas; lights and sun untouched |
| BodyModel.ReloadWithRollback | src/components/scene/model.py:265-299 | a full reload resets pose and betas and a partial one keeps them; a failing construction restores the given gender and age and leaves pose, betas, loaded model and scene as they were, while the call keeps its edited gender and age arguments |
| BodyModel.Reload | src/components/scene/model.py:265-299 | the rollback restores the very gender and age the body already holds |
| BodyModel.NewBody | src/components/scene/model.py:122-139 | construction starts from the default pose, zero betas and default colour, or raises |
| BodyModel.SetGender | src/components/scene/model.py:160-162 | the new gender is kept even when the reload raises |
| BodyModel.SetAge | src/components/scene/model.py:164-166 | the new age is kept even when the reload raises |
| BodyModel.GenderRollbackIneffective | src/components/scene/model.py:266-267 | from "neutral", a failing switch to "female" still leaves the body "female" |
| BodyModel.SetGenderRestoring | src/components/scene/model.py:285-289 | the corrected setter: on failure gender, age and loaded model return to their values before the call |
| BodyModel.SetAgeRestoring | src/components/scene/model.py:285-289 | the corrected setter: on failure age, gender and loaded model return to their values before the call |
| BodyModel.RestoringKeepsSelectorsConsistent | src/components/scene/model.py:285-289 | with either corrected setter (gender or age), the stored gender and age always match the loaded model's arguments |
| BodyModel.PyIndex | src/components/scene/model.py:258 | Python list indexing: valid for -n <= i < n, with negative indices counted from the end |
| BodyModel.SetPoseParam | src/components/scene/model.py:257-259 | exactly one pose slot changes, unclamped; an out-of-range index raises IndexError |
| BodyModel.SetBetasParam | src/components/scene/model.py:261-263 | exactly one beta changes, unclamped; an out-of-range index raises IndexError |
| BodyModel.SlidersStayInPose | src/components/scene/model.py:209-213 | every slider index writes inside the 72-slot pose |
| BodyModel.SetColor | src/components/scene/model.py:153-158 | only the colour changes, and the mesh shows it |
| BodyModel.BuildGui | src/components/scene/model.py:168-169 | sets the built flag and changes nothing else |
| BodyModel.DestroyGui | src/components/scene/model.py:247-248 | clears the built flag and changes nothing else |
| LightsController.Init | src/controllers/lights.py:15-66 | no lights, no current light, combobox and remove button disabled, options panel hidden |
| LightsController.RefreshCombobox | src/controllers/lights.py:180-185 | items are the keys in insertion order; a present name's position is selected |
| LightsController.SelectLight | src/controllers/lights.py:187-204 | empty or unknown name clears the selection; the current name is a no-op; the previous marker returns to the default radius only if still in the dict; the new marker gets 0.03 |
| LightsController.AddLight | src/controllers/lights.py:87-103 | the light is stored under its name, appended to the keys and made current; combobox and remove button enabled; panel shown |
| LightsController.OnSelectedLightChange | src/controllers/lights.py:105-107 | text that is not a key changes nothing; a key is selected |
| LightsController.RemoveCurrentAsWritten | src/controllers/lights.py:109-128 | no current light: no-op; stale current: KeyError; else exactly that key is deleted and the first remaining key becomes current, or the flags are cleared and `current` is kept |
| LightsController.RemoveCurrent | src/controllers/lights.py:109-128 | the corrected removal: as written, except that removing the last light also clears the current light |
| LightsController.RemoveSelectsFirstRemaining | src/controllers/lights.py:116-119 | when lights remain, the first key in insertion order (the second one if the first was removed) becomes current with the enlarged marker |
| LightsController.MovedPosition | src/controllers/lights.py:160-178 | 265/266 change y by +/-0.01, 263/264 change x by -/+0.01, 271/270 change z by +/-0.01; other keys change nothing |
| LightsController.MoveChangesOneAxis | src/controllers/lights.py:160-178 | a move key changes exactly one coordinate, and the opposite key undoes it |
| LightsController.MoveCurrentLight | src/controllers/lights.py:160-178 | with no current light nothing happens; otherwise only the current light's position changes |
| LightsController.Dispatch | src/controllers/lights.py:130-158 | non-DOWN events and missing keys return False and change nothing; move keys move, a/A adds a point light, s/S a spot light, d/D removes, z/Z/x/X do nothing, all returning True; any other key returns False |
| LightsController.OnKeyEvent | src/controllers/lights.py:130-158 | the handler as written, with d/D running the removal as written: it raises KeyError exactly when d/D is pressed while the current light has left the dict |
| LightsController.OnKeyEventCorrected | src/controllers/lights.py:130-158 | the handler with the corrected removal; it raises only in the same stale-current case |
| LightsController.SelectPreservesInv | src/controllers/lights.py:187-204 | selecting a key keeps the controller invariant: distinct keys, valid current, enlarged marker only on the current light |
| LightsController.AddPreservesInv | src/controllers/lights.py:87-103 | adding a freshly named light keeps the invariant |
| LightsController.SelectionChangePreservesInv | src/controllers/lights.py:105-107 | a combobox change keeps the invariant |
| LightsController.MovePreservesInv | src/controllers/lights.py:160-178 | moving keeps the invariant |
| LightsController.RemovePreservesInv | src/controllers/lights.py:109-128 | the corrected removal keeps the invariant and never raises from a consistent state |
| LightsController.KeyEventPreservesInv | src/controllers/lights.py:130-158 | with the corrected removal, every key event keeps the invariant and never raises |
| LightsController.KeyAddDispatch | src/controllers/lights.py:142-147 | a/A and s/S add a point or spot light and report the key handled, in both handlers |
| LightsController.KeyAddPreservesInv | src/controllers/lights.py:142-147 | adding by key keeps the invariant |
| LightsController.KeyRemoveDispatch | src/controllers/lights.py:148-150 | d/D runs the removal (as written or corrected, per handler) and reports the key handled |
| LightsController.KeyRemovePreservesInv | src/controllers/lights.py:148-150 | removing by key with the corrected removal keeps the invariant |
| LightsController.KeyHandlersAgree | src/controllers/lights.py:130-158 | on a consistent controller the handler as written and the corrected one give the same result unless d/D removes the only light |
| LightsController.SecondRemoveRaises | src/controllers/lights.py:121-125 | as written, removing the only light leaves a stale current light, and a second removal raises KeyError |
| LightsController.SecondKeyRemoveRaises | src/controllers/lights.py:148-150 | as written, pressing d with one light succeeds and pressing d again raises KeyError (the `del` at line 114) |
| LightControls.Init | src/gui/controls.py:13-53 | no lights, no current light, combobox and remove button disabled |
| LightControls.SelectLight | src/gui/controls.py:118-138 | empty or unknown name clears the selection; the current name is a no-op; the previous marker gets its own colour back only if still in the dict; the new marker turns red |
| LightControls.RefreshCombobox | src/gui/controls.py:110-116 | items are the keys in insertion order; a present name is selected in the combobox and as the current light |
| LightControls.AddLight | src/gui/controls.py:75-85 | the new white light is stored under its name; selection, combobox and remove button are untouched |
| LightControls.OnSelectedLightChange | src/gui/controls.py:87-89 | text that is not a key changes nothing; a key becomes current |
| LightControls.RemoveCurrent | src/gui/controls.py:91-108 | no current light: no-op; stale current: KeyError; else exactly that key is deleted and the others keep their insertion order; the first remaining key becomes current and selected, or both widgets are disabled |
| LightControls.SelectPreservesInv | src/gui/controls.py:118-138 | selecting a key keeps the invariant: only the current light's marker is red, the others show their own colour |
| LightControls.RefreshPreservesInv | src/gui/controls.py:110-116 | refilling the combobox keeps the invariant |
| LightControls.SelectionChangePreservesInv | src/gui/controls.py:87-89 | a combobox change keeps the invariant |
| LightControls.RemoveShowsFirst | src/gui/controls.py:98-102 | with two or more lights, removing the current one shows the first remaining key at combobox index 0 |
| LightControls.AddPreservesInv | src/gui/controls.py:75-85 | adding a freshly named light keeps the invariant |
| LightControls.RemovePreservesInv | src/gui/controls.py:91-108 | a removal that does not raise keeps the invariant |
| LightControls.StaysDisabled | src/gui/controls.py:75-108 | nothing enables the combobox or the remove button once they are disabled, so this panel can never select or remove a light |

## Left out

- Widget trees, slider limits, labels, layouts and callback wiring in every `build_gui` are not modelled. Only the `is_gui_built` flag is kept. The age radio button that calls `set_gender` is such a wiring quirk.
- The SMPL forward pass, mesh vertices, normals, bounding boxes, materials and rendering are opaque. The mesh is a record of its pose, betas and colour, and construction is a caller-supplied predicate that may fail.
- BodyModel.Mesh: the mesh record does not include the loaded SMPL model (src/components/scene/model.py:302). So `Showing` cannot tell a mesh built by the neutral model from one built by the female model. The gender/age mismatch in the findings is stated on `Body.loaded` instead.
- `sphere_dir`, `yaw_pitch_to_direction` and `direction_to_yaw_pitch` in src/utils.py are floating-point trigonometry. Sun and spot directions are kept as their angle settings.
- Floats are unbounded reals. The float32 arrays (pose, betas and light positions), the factor 0.3 in the layout and `gui.Color` conversion are exact here.
- `uuid` generation is a hex string argument. `Lights.GeneratedNames` assumes it is six hex digits, and the controllers take fresh light names as preconditions.
- `inspect.signature` is the parameter-name list given to `Params.GetArgsParameterIndex`.
- `set_scene` on markers and lights is not modelled: there is one scene throughout.
- src/components/scene/light.py is not part of this model. The controllers' light records are abstract: their position and marker radius (in `LightsController`) or colour and marker colour (in `LightControls`) are fields, and only `LightsController` keeps a GUI-built flag per light (standing in for its options group). `DEFAULT_RADIUS` and `DEFAULT_LIGHT_POSITION` are parameters.
- The controllers' `_refresh_layout`, `set_needs_layout`, `post_to_main_thread` and the application run loop are event-loop plumbing with no state to model.
- Combobox widget details are reduced to items, an optional selected index and an enabled flag. The index before the first refill is whatever the widget held.
- Combobox.Scan: the index the scan starts from stands for whatever the widget reports after `clear_items`; the model does not know the widget's reset rule.
- Combobox.Refresh: when the name is not a key, the model keeps the previous index. The widget may reset it on `clear_items`. This only matters when `LightsController` removes its last light and refills with no name, where the combobox has no items left.
- LightsController.RefreshCombobox: the same assumption about a name that is not a key.
- LightControls.RefreshCombobox: the same assumption, although this panel only refills with a key.
- LightsController.RemoveCurrentAsWritten: `self._current_light.destroy()` (src/controllers/lights.py:113), which takes the light out of the scene, is not modelled, because the controller's light class is not part of this model. The same holds for `destroy_gui` in LightControls.RemoveCurrent.
- src/gui/panels.py, src/components.py, src/components/gui/widgets.py, src/gui/components.py, src/controllers/model.py, src/model.py and the `__init__.py` files hold widget subclasses, stubs, pass-through wrappers or duplicates of the pose slicing already modelled.
- Playground.ButtonsStayExclusive: stated for toggles from the initial menu, since the only way to reach the toggle is the widget state built in `_build_gui`.
- LightsController.SelectPreservesInv: stated for names in the dict. Every caller passes one; an unknown name clears the selection but leaves the old marker enlarged.
- LightControls.SelectPreservesInv: stated for names in the dict, for the same reason.
- LightControls.SelectLight: drops the previous light's `destroy_gui()` (src/gui/controls.py:127) and the `if not self._current_light.controls_group: self._current_light.build_gui(self._parent)` step (136-137). The lights here come from src/light.py, which has only a private `_controls_group` and a `build_gui` without a parent argument, so as written line 136 would raise AttributeError, and the call on line 137 would raise TypeError if it were reached. The path needs a selection, which this panel can never make (LightControls.StaysDisabled).
- LightControls.RemovePreservesInv: stated for removals that do not raise. As written, removing the last light also leaves a stale current light here, but this panel never enables its remove button, so a second removal cannot be triggered.

## Findings

| source | as written | input that shows it | evidently intended | confidence | as-written member | corrected member |
|---|---|---|---|---|---|---|
| src/controllers/lights.py:121-125 | removing the last light disables the widgets but keeps `_current_light` pointing at the removed light | add one light, press `d`, press `d` again: the second `del self._lights[name]` raises KeyError | removing the last light also clears the current light, so a further removal is a no-op | high, not executed | LightsController.SecondKeyRemoveRaises | LightsController.OnKeyEventCorrected |
| src/light.py:91 | `Light.__init__` creates the marker without a position, so every point and spot marker starts at the origin | a point light at (1, 0, 0) gets its marker at (0, 0, 0) until `set_position` is called | the marker is created at the light's position, as `set_position` keeps it afterwards | medium, not executed | Lights.MarkerStartsAtOrigin | Lights.NewPointLight |
| src/components/scene/model.py:266-267 | `_reload` saves gender and age for the rollback after `set_gender`/`set_age` has already stored the new values, so the rollback restores the new values | a neutral body whose switch to "female" fails to construct stays "female" while the loaded model is still neutral | a failed switch restores the gender and age held before the call | high, not executed | BodyModel.GenderRollbackIneffective | BodyModel.SetGenderRestoring |
