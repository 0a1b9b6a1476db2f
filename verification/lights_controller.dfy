/**
  The newer light-selection controller: an insertion-ordered dict of named point and spot
  lights, an optional current light, the selection combobox, the remove button and the
  current light's options panel, driven by buttons, the combobox and key presses.

  Python object identity is modelled by name: `objects` holds every light ever created (a
  removed light stays there, as the Python object stays reachable through `_current_light`),
  `order` holds the dict's keys in insertion order, and `current` names the current light.
 */
module LightsController {
  import opened Wrappers
  import opened Scene
  import OrderedKeys
  import Combobox
  import GuiComponent
  import Lights

  /** The marker radius that shows which light is selected. */
  const SelectedMarkerRadius: real := 0.03
  /** How far one key press moves the current light along one axis. */
  const MoveStep: real := 0.01

  const KeyLeft: int := 263
  const KeyRight: int := 264
  const KeyUp: int := 265
  const KeyDown: int := 266
  const KeyPageDown: int := 270
  const KeyPageUp: int := 271

  /** The keys that move the current light. */
  const MoveKeys: set<int> := {KeyLeft, KeyRight, KeyUp, KeyDown, KeyPageDown, KeyPageUp}

  /** Every key the handler reports as handled. */
  const HandledKeys: set<int> := MoveKeys + {
    'a' as int, 'A' as int, 's' as int, 'S' as int, 'd' as int, 'D' as int,
    'z' as int, 'Z' as int, 'x' as int, 'X' as int}

  /**
    A light as the controller uses it: name, type, position, marker radius and GUI flag. Its
    class is not part of this model; its `build_gui`/`destroy_gui` are taken to set and clear
    the flag as the GUI component base class does.
   */
  datatype CtlLight = CtlLight(name: string, kind: Lights.LightClass, position: Vec3, markerRadius: real,
                               gui: GuiComponent.Component)

  datatype Controller = Controller(
    objects: map<string, CtlLight>,
    order: seq<string>,
    current: Option<string>,
    combo: Combobox.Combobox,
    removeEnabled: bool,
    panelVisible: bool,
    panelOpen: bool,
    /** A marker's unselected radius. */
    defaultRadius: real,
    /** Where new lights are placed. */
    defaultPosition: Vec3)

  /** Every name the controller refers to denotes a light. */
  ghost predicate WellFormed(s: Controller) {
    && (forall k :: k in s.order ==> k in s.objects)
    && (s.current.Some? ==> s.current.value in s.objects)
  }

  /**
    The controller's consistent states: the current light is in the dict exactly when the
    dict is non-empty, the combobox lists the dict, the widgets are enabled exactly when there
    is something to select, and exactly the current light's marker has the selected radius.
   */
  ghost predicate Inv(s: Controller) {
    && WellFormed(s)
    && OrderedKeys.Distinct(s.order)
    && (forall k :: k in s.objects ==> s.objects[k].name == k)
    && (forall k :: k in s.order ==> k != "")
    && (s.current.Some? ==> s.current.value in s.order)
    && (s.current.Some? <==> |s.order| > 0)
    && s.combo.items == s.order
    && s.combo.enabled == (|s.order| > 0)
    && s.removeEnabled == (|s.order| > 0)
    && s.panelVisible == (|s.order| > 0)
    && s.panelOpen == (|s.order| > 0)
    && (forall k :: k in s.order ==>
          s.objects[k].markerRadius == if s.current == Some(k) then SelectedMarkerRadius else s.defaultRadius)
    && (s.current.Some? ==> s.objects[s.current.value].gui.isGuiBuilt)
  }

  /** A generated name: non-empty and never used before. */
  ghost predicate Fresh(s: Controller, name: string) {
    name != "" && name !in s.objects
  }

  /** The controller after construction: no lights, widgets disabled, options panel hidden. */
  function Init(defaultRadius: real, defaultPosition: Vec3): (s: Controller)
    ensures Inv(s) && s.order == [] && s.current.None?
    ensures !s.combo.enabled && !s.removeEnabled && !s.panelVisible
  {
    Controller(map[], [], None, Combobox.Empty, false, false, false, defaultRadius, defaultPosition)
  }

  /** `_refresh_light_combobox(name)`. */
  function RefreshCombobox(s: Controller, name: Option<string>): (r: Controller)
    ensures r == s.(combo := r.combo) && r.combo.items == s.order && r.combo.enabled == s.combo.enabled
    ensures name.Some? && name.value in s.order ==>
      r.combo.selected.Some? && r.combo.selected.value < |s.order| && s.order[r.combo.selected.value] == name.value
    ensures (name.None? || name.value !in s.order) ==> r.combo.selected == s.combo.selected
  {
    s.(combo := Combobox.Refresh(s.combo, s.order, name))
  }

  /**
    `_select_light(name)`: an empty or unknown name clears the selection; the current name is
    a no-op; otherwise the previous light's GUI is destroyed and, if it is still in the dict,
    its marker shrinks back, and the named light becomes current with an enlarged marker and
    built GUI.
   */
  function SelectLight(s: Controller, name: string): (r: Controller)
    requires WellFormed(s)
    ensures WellFormed(r) && r.objects.Keys == s.objects.Keys && r.order == s.order
    ensures r.removeEnabled == s.removeEnabled && r.panelVisible == s.panelVisible
    ensures r.panelOpen == s.panelOpen && r.combo.enabled == s.combo.enabled
    ensures r.defaultRadius == s.defaultRadius && r.defaultPosition == s.defaultPosition
    ensures (name == "" || name !in s.order) ==>
      r.current.None? && r.objects == s.objects && r.combo.items == s.order
    ensures s.current == Some(name) && name in s.order && name != "" ==> r == s
    ensures name != "" && name in s.order && s.current != Some(name) ==>
      && r.current == Some(name) && r.combo == s.combo
      && r.objects[name] == s.objects[name].(markerRadius := SelectedMarkerRadius, gui := GuiComponent.Component(true))
      && (s.current.Some? ==>
            var p := s.current.value;
            r.objects[p] == s.objects[p].(
              markerRadius := if p in s.order then s.defaultRadius else s.objects[p].markerRadius,
              gui := GuiComponent.Component(false)))
      && (forall k :: k in s.objects && k != name && s.current != Some(k) ==> r.objects[k] == s.objects[k])
  {
    if name == "" || name !in s.order then
      RefreshCombobox(s.(current := None), None)
    else if s.current.Some? && s.current.value == name then
      s
    else
      var s1 :=
        if s.current.Some? then
          var p := s.current.value;
          var prev := s.objects[p].(gui := GuiComponent.DestroyGui(s.objects[p].gui));
          s.(objects := s.objects[p := if p in s.order then prev.(markerRadius := s.defaultRadius) else prev])
        else s;
      var l := s1.objects[name].(markerRadius := SelectedMarkerRadius);
      var l' := if !l.gui.isGuiBuilt then l.(gui := GuiComponent.BuildGui(l.gui)) else l;
      s1.(current := Some(name), objects := s1.objects[name := l'])
  }

  /**
    `_add_light(type)`: a light with built GUI is created at the default position, stored
    under its name, selected and listed, and the widgets are enabled and the panel opened.
   */
  function AddLight(s: Controller, kind: Lights.LightClass, name: string): (r: Controller)
    requires WellFormed(s)
    ensures WellFormed(r) && name in r.order && name in r.objects
    ensures name !in s.order ==> r.order == s.order + [name]
    ensures r.combo.items == r.order
    ensures r.combo.enabled && r.removeEnabled && r.panelVisible && r.panelOpen
    ensures name != "" && s.current != Some(name) ==>
      && r.current == Some(name)
      && r.objects[name].markerRadius == SelectedMarkerRadius
      && r.objects[name].position == s.defaultPosition && r.objects[name].kind == kind
      && r.combo.selected.Some? && r.combo.selected.value < |r.order| && r.order[r.combo.selected.value] == name
  {
    var l := CtlLight(name, kind, s.defaultPosition, s.defaultRadius, GuiComponent.BuildGui(GuiComponent.New()));
    var s1 := s.(objects := s.objects[name := l], order := OrderedKeys.Insert(s.order, name));
    var s2 := RefreshCombobox(SelectLight(s1, name), Some(name));
    s2.(combo := s2.combo.(enabled := true), removeEnabled := true, panelVisible := true, panelOpen := true)
  }

  /** `_on_selected_light_change(text, idx)`: only a name in the dict is selected. */
  function OnSelectedLightChange(s: Controller, text: string, idx: int): (r: Controller)
    requires WellFormed(s)
    ensures text !in s.order ==> r == s
    ensures text in s.order && text != "" ==> r.current == Some(text)
    ensures r.order == s.order
  {
    if text in s.order then SelectLight(s, text) else s
  }

  /**
    `_remove_current_light` as written. With no current light nothing happens. Otherwise the
    current name is deleted from the dict (raising when it is no longer there); if a key
    remains, the first one is selected, else the widgets are disabled and the panel hidden
    while the current light is left as it was.
   */
  function RemoveCurrentAsWritten(s: Controller): (r: Result<Controller>)
    requires WellFormed(s)
    ensures s.current.None? ==> r == Success(s)
    ensures s.current.Some? && s.current.value !in s.order ==> r == Failure(KeyError)
    ensures s.current.Some? && s.current.value in s.order ==>
      && r.Success? && WellFormed(r.value)
      && r.value.order == OrderedKeys.Delete(s.order, s.current.value)
      && (forall x :: x in r.value.order <==> x in s.order && x != s.current.value)
      && r.value.combo.items == r.value.order
      && (|r.value.order| > 0 && r.value.order[0] != "" ==> r.value.current == Some(r.value.order[0]))
      && (|r.value.order| == 0 ==>
            && r.value.current == s.current
            && !r.value.removeEnabled && !r.value.combo.enabled && !r.value.panelVisible && !r.value.panelOpen)
  {
    if s.current.None? then Success(s)
    else
      var c := s.current.value;
      if c !in s.order then Failure(KeyError)
      else
        var s1 := s.(order := OrderedKeys.Delete(s.order, c));
        var first := if |s1.order| > 0 then Some(s1.order[0]) else None;
        var s2 :=
          if first.Some? && first.value != "" then SelectLight(s1, first.value)
          else s1.(combo := s1.combo.(enabled := false), removeEnabled := false,
                   panelVisible := false, panelOpen := false);
        Success(RefreshCombobox(s2, first))
  }

  /**
    `_remove_current_light` with the last-light branch also clearing the current light, so
    that the controller never refers to a light it no longer holds.
   */
  function RemoveCurrent(s: Controller): (r: Result<Controller>)
    requires WellFormed(s)
    ensures s.current.None? ==> r == Success(s)
    ensures s.current.Some? && s.current.value !in s.order ==> r == Failure(KeyError)
    ensures s.current.Some? && s.current.value in s.order ==>
      && r.Success? && WellFormed(r.value)
      && r.value.order == OrderedKeys.Delete(s.order, s.current.value)
      && (forall x :: x in r.value.order <==> x in s.order && x != s.current.value)
      && r.value.combo.items == r.value.order
      && (|r.value.order| > 0 && r.value.order[0] != "" ==> r.value.current == Some(r.value.order[0]))
      && (|r.value.order| == 0 ==>
            && r.value.current.None?
            && !r.value.removeEnabled && !r.value.combo.enabled && !r.value.panelVisible && !r.value.panelOpen)
  {
    match RemoveCurrentAsWritten(s)
    case Failure(e) => Failure(e)
    case Success(t) => Success(if |t.order| == 0 then t.(current := None) else t)
  }

  /** The first light left after a removal is the dict's first key that was not removed. */
  lemma RemoveSelectsFirstRemaining(s: Controller)
    requires Inv(s) && |s.order| > 1
    ensures var r := RemoveCurrent(s).value;
      && r.current == Some(if s.order[0] == s.current.value then s.order[1] else s.order[0])
      && r.objects[r.current.value].markerRadius == SelectedMarkerRadius
  {
    var c := s.current.value;
    OrderedKeys.FirstAfterDelete(s.order, c);
    assert s.order[0] in s.order;
    assert s.order[1] in s.order;
  }

  /** The position one key press leads to: one axis, one step, in the key's direction. */
  function MovedPosition(p: Vec3, key: int): (q: Vec3)
    ensures key == KeyUp ==> q == p.(y := p.y + MoveStep)
    ensures key == KeyDown ==> q == p.(y := p.y - MoveStep)
    ensures key == KeyLeft ==> q == p.(x := p.x - MoveStep)
    ensures key == KeyRight ==> q == p.(x := p.x + MoveStep)
    ensures key == KeyPageUp ==> q == p.(z := p.z + MoveStep)
    ensures key == KeyPageDown ==> q == p.(z := p.z - MoveStep)
    ensures key !in MoveKeys ==> q == p
  {
    if key == KeyUp then p.(y := p.y + MoveStep)
    else if key == KeyLeft then p.(x := p.x - MoveStep)
    else if key == KeyDown then p.(y := p.y - MoveStep)
    else if key == KeyRight then p.(x := p.x + MoveStep)
    else if key == KeyPageUp then p.(z := p.z + MoveStep)
    else if key == KeyPageDown then p.(z := p.z - MoveStep)
    else p
  }

  /** The key that moves the other way along the same axis. */
  function Opposite(key: int): int {
    if key == KeyUp then KeyDown else if key == KeyDown then KeyUp
    else if key == KeyLeft then KeyRight else if key == KeyRight then KeyLeft
    else if key == KeyPageUp then KeyPageDown else if key == KeyPageDown then KeyPageUp
    else key
  }

  /**
    A move changes exactly one coordinate, by one step, and the opposite key undoes it.
   */
  lemma MoveChangesOneAxis(p: Vec3, key: int)
    requires key in MoveKeys
    ensures var q := MovedPosition(p, key);
      var changed := (if q.x != p.x then 1 else 0) + (if q.y != p.y then 1 else 0) + (if q.z != p.z then 1 else 0);
      changed == 1 && (q.x - p.x) + (q.y - p.y) + (q.z - p.z) in {MoveStep, -MoveStep}
    ensures Opposite(key) in MoveKeys && MovedPosition(MovedPosition(p, key), Opposite(key)) == p
  {
  }

  /**
    `_move_current_light(key)`: the current light moves by one step; nothing happens without
    a current light. The moved light is the current light's object even when it has left the
    dict.
   */
  function MoveCurrentLight(s: Controller, key: int): (r: Controller)
    requires WellFormed(s)
    ensures WellFormed(r) && r == s.(objects := r.objects)
    ensures r.objects.Keys == s.objects.Keys
    ensures s.current.None? ==> r == s
    ensures forall k :: k in s.objects && s.current != Some(k) ==> r.objects[k] == s.objects[k]
    ensures s.current.Some? ==>
      var c := s.current.value;
      && r.objects[c].position == MovedPosition(s.objects[c].position, key)
      && r.objects[c] == s.objects[c].(position := r.objects[c].position)
  {
    if s.current.None? then s
    else
      var c := s.current.value;
      s.(objects := s.objects[c := s.objects[c].(position := MovedPosition(s.objects[c].position, key))])
  }

  datatype KeyEventType = Down | Up

  /** A key event; the key code may be missing. */
  datatype KeyEvent = KeyEvent(kind: KeyEventType, key: Option<int>)

  /** The state after a key event, and whether the handler reported it handled. */
  datatype Handled = Handled(state: Controller, handled: bool)

  /**
    `on_key_event_handler(event)` with the outcome of `_remove_current_light` supplied as
    `removed`: only key-down events with a key are considered; arrow and page keys move the
    current light, a/A adds a point light named `newName`, s/S a spot light, d/D removes the
    current light, z/Z/x/X are reserved; all of those are handled, any other key is not.
   */
  function Dispatch(s: Controller, e: KeyEvent, newName: string, removed: Result<Controller>): (r: Result<Handled>)
    requires WellFormed(s)
    ensures r.Success? ==>
      (r.value.handled <==> e.kind == Down && e.key.Some? && e.key.value in HandledKeys)
    ensures r.Success? && !r.value.handled ==> r.value.state == s
    ensures e.kind == Down && e.key.Some? && e.key.value in {'z' as int, 'Z' as int, 'x' as int, 'X' as int} ==>
      r == Success(Handled(s, true))
    ensures e.kind == Down && e.key.Some? && e.key.value in MoveKeys ==>
      r == Success(Handled(MoveCurrentLight(s, e.key.value), true))
    ensures e.kind == Down && e.key.Some? && e.key.value in {'a' as int, 'A' as int} ==>
      r == Success(Handled(AddLight(s, Lights.PointLightClass, newName), true))
    ensures e.kind == Down && e.key.Some? && e.key.value in {'s' as int, 'S' as int} ==>
      r == Success(Handled(AddLight(s, Lights.SpotLightClass, newName), true))
    ensures e.kind == Down && e.key.Some? && e.key.value in {'d' as int, 'D' as int} ==>
      (r.Success? <==> removed.Success?) &&
      (r.Success? ==> r.value == Handled(removed.value, true)) &&
      (r.Failure? ==> r.error == removed.error)
    ensures r.Failure? ==> e.kind == Down && e.key.Some? && e.key.value in {'d' as int, 'D' as int}
  {
    if e.kind != Down || e.key.None? then Success(Handled(s, false))
    else
      var k := e.key.value;
      if k in MoveKeys then Success(Handled(MoveCurrentLight(s, k), true))
      else if k == 'a' as int || k == 'A' as int then Success(Handled(AddLight(s, Lights.PointLightClass, newName), true))
      else if k == 's' as int || k == 'S' as int then Success(Handled(AddLight(s, Lights.SpotLightClass, newName), true))
      else if k == 'd' as int || k == 'D' as int then
        match removed
        case Success(t) => Success(Handled(t, true))
        case Failure(err) => Failure(err)
      else if k in {'z' as int, 'Z' as int, 'x' as int, 'X' as int} then Success(Handled(s, true))
      else Success(Handled(s, false))
  }

  /** `on_key_event_handler(event)` as written: d/D runs `_remove_current_light` as written. */
  function OnKeyEvent(s: Controller, e: KeyEvent, newName: string): (r: Result<Handled>)
    requires WellFormed(s)
    ensures r.Failure? ==> r == Failure(KeyError) && e.key.Some? && e.key.value in {'d' as int, 'D' as int}
    ensures r.Failure? <==>
      e.kind == Down && e.key.Some? && e.key.value in {'d' as int, 'D' as int} &&
      s.current.Some? && s.current.value !in s.order
  {
    Dispatch(s, e, newName, RemoveCurrentAsWritten(s))
  }

  /** The key handler with the corrected removal. */
  function OnKeyEventCorrected(s: Controller, e: KeyEvent, newName: string): (r: Result<Handled>)
    requires WellFormed(s)
    ensures r.Failure? ==> r == Failure(KeyError) && e.key.Some? && e.key.value in {'d' as int, 'D' as int}
    ensures r.Failure? <==>
      e.kind == Down && e.key.Some? && e.key.value in {'d' as int, 'D' as int} &&
      s.current.Some? && s.current.value !in s.order
  {
    Dispatch(s, e, newName, RemoveCurrent(s))
  }


  // ----- The invariant -----

  /** Selecting a light of the dict keeps the controller consistent. */
  lemma SelectPreservesInv(s: Controller, name: string)
    requires Inv(s) && name in s.order
    ensures Inv(SelectLight(s, name))
  {
    var r := SelectLight(s, name);
    forall k | k in r.order
      ensures r.objects[k].markerRadius == if r.current == Some(k) then SelectedMarkerRadius else r.defaultRadius
    {
    }
  }

  /** Adding a freshly named light keeps the controller consistent. */
  lemma AddPreservesInv(s: Controller, kind: Lights.LightClass, name: string)
    requires Inv(s) && Fresh(s, name)
    ensures Inv(AddLight(s, kind, name))
  {
    var l := CtlLight(name, kind, s.defaultPosition, s.defaultRadius, GuiComponent.BuildGui(GuiComponent.New()));
    var s1 := s.(objects := s.objects[name := l], order := OrderedKeys.Insert(s.order, name));
    assert s1.order == s.order + [name];
    var s2 := SelectLight(s1, name);
    forall k | k in s2.order
      ensures s2.objects[k].markerRadius == if s2.current == Some(k) then SelectedMarkerRadius else s2.defaultRadius
    {
    }
  }

  /** A combobox selection keeps the controller consistent. */
  lemma SelectionChangePreservesInv(s: Controller, text: string, idx: int)
    requires Inv(s)
    ensures Inv(OnSelectedLightChange(s, text, idx))
  {
    if text in s.order {
      SelectPreservesInv(s, text);
    }
  }

  /** Moving the current light keeps the controller consistent. */
  lemma MovePreservesInv(s: Controller, key: int)
    requires Inv(s)
    ensures Inv(MoveCurrentLight(s, key))
  {
  }

  /** Removing the current light of a consistent controller never raises and stays consistent. */
  lemma RemovePreservesInv(s: Controller)
    requires Inv(s)
    ensures RemoveCurrent(s).Success? && Inv(RemoveCurrent(s).value)
  {
    if s.current.Some? {
      var c := s.current.value;
      var s1 := s.(order := OrderedKeys.Delete(s.order, c));
      if |s1.order| > 0 {
        var f := s1.order[0];
        assert f in s.order;
        var s2 := SelectLight(s1, f);
        forall k | k in s2.order
          ensures s2.objects[k].markerRadius == if s2.current == Some(k) then SelectedMarkerRadius else s2.defaultRadius
        {
          assert k in s.order && k != c;
        }
      }
    }
  }

  /**
    With the corrected removal, every key event on a consistent controller is handled without
    raising and stays consistent.
   */
  lemma KeyEventPreservesInv(s: Controller, e: KeyEvent, newName: string)
    requires Inv(s) && Fresh(s, newName)
    ensures OnKeyEventCorrected(s, e, newName).Success? && Inv(OnKeyEventCorrected(s, e, newName).value.state)
  {
    if e.kind == Down && e.key.Some? {
      var k := e.key.value;
      if k in MoveKeys {
        MovePreservesInv(s, k);
      } else if k == 'a' as int || k == 'A' as int {
        KeyAddPreservesInv(s, e, newName, Lights.PointLightClass);
      } else if k == 's' as int || k == 'S' as int {
        KeyAddPreservesInv(s, e, newName, Lights.SpotLightClass);
      } else if k == 'd' as int || k == 'D' as int {
        KeyRemovePreservesInv(s, e, newName);
      }
    }
  }

  /** The adding keys of the handler keep the controller consistent. */
  lemma KeyAddPreservesInv(s: Controller, e: KeyEvent, newName: string, kind: Lights.LightClass)
    requires Inv(s) && Fresh(s, newName) && e.kind == Down && e.key.Some?
    requires kind == Lights.PointLightClass ==> e.key.value in {'a' as int, 'A' as int}
    requires kind == Lights.SpotLightClass ==> e.key.value in {'s' as int, 'S' as int}
    ensures OnKeyEventCorrected(s, e, newName) == Success(Handled(AddLight(s, kind, newName), true))
    ensures Inv(AddLight(s, kind, newName))
  {
    AddPreservesInv(s, kind, newName);
    KeyAddDispatch(s, e, newName, kind);
  }

  /** a/A and s/S reach `_add_light`, in the handler as written and in the corrected one. */
  lemma KeyAddDispatch(s: Controller, e: KeyEvent, newName: string, kind: Lights.LightClass)
    requires WellFormed(s) && e.kind == Down && e.key.Some?
    requires kind == Lights.PointLightClass ==> e.key.value in {'a' as int, 'A' as int}
    requires kind == Lights.SpotLightClass ==> e.key.value in {'s' as int, 'S' as int}
    ensures OnKeyEvent(s, e, newName) == Success(Handled(AddLight(s, kind, newName), true))
    ensures OnKeyEventCorrected(s, e, newName) == Success(Handled(AddLight(s, kind, newName), true))
  {
  }

  /** The removing keys of the handler keep the controller consistent. */
  lemma KeyRemovePreservesInv(s: Controller, e: KeyEvent, newName: string)
    requires Inv(s) && e.kind == Down && e.key.Some? && e.key.value in {'d' as int, 'D' as int}
    ensures RemoveCurrent(s).Success?
    ensures OnKeyEventCorrected(s, e, newName) == Success(Handled(RemoveCurrent(s).value, true))
    ensures Inv(RemoveCurrent(s).value)
  {
    RemovePreservesInv(s);
    KeyRemoveDispatch(s, e, newName);
  }

  /** d/D reaches the removal: as written in the handler as written, corrected in the corrected one. */
  lemma KeyRemoveDispatch(s: Controller, e: KeyEvent, newName: string)
    requires WellFormed(s) && e.kind == Down && e.key.Some? && e.key.value in {'d' as int, 'D' as int}
    ensures RemoveCurrentAsWritten(s).Success? ==>
      OnKeyEvent(s, e, newName) == Success(Handled(RemoveCurrentAsWritten(s).value, true))
    ensures RemoveCurrent(s).Success? ==>
      OnKeyEventCorrected(s, e, newName) == Success(Handled(RemoveCurrent(s).value, true))
  {
  }

  /**
    The handler as written and the corrected one agree on a consistent controller except when
    d/D removes the only light.
   */
  lemma KeyHandlersAgree(s: Controller, e: KeyEvent, newName: string)
    requires Inv(s)
    requires e.kind == Down && e.key.Some? && e.key.value in {'d' as int, 'D' as int} ==> |s.order| != 1
    ensures OnKeyEvent(s, e, newName) == OnKeyEventCorrected(s, e, newName)
  {
    if e.kind == Down && e.key.Some? && e.key.value in {'d' as int, 'D' as int} && s.current.Some? {
      var c := s.current.value;
      var other := if s.order[0] != c then s.order[0] else s.order[1];
      assert other in s.order && other != c;
      var t := RemoveCurrentAsWritten(s).value;
      assert other in t.order;
    }
  }

  /**
    As written, pressing d with one light removes it but leaves it current, so pressing d
    again raises KeyError.
   */
  lemma SecondKeyRemoveRaises(s: Controller, e: KeyEvent, newName: string)
    requires Inv(s) && |s.order| == 1
    requires e.kind == Down && e.key.Some? && e.key.value in {'d' as int, 'D' as int}
    ensures OnKeyEvent(s, e, newName).Success?
    ensures var t := OnKeyEvent(s, e, newName).value.state;
      WellFormed(t) && OnKeyEvent(t, e, newName) == Failure(KeyError)
  {
    SecondRemoveRaises(s);
  }

  /**
    As written, removing the only light leaves it current though it is no longer in the dict,
    so the next removal raises KeyError.
   */
  lemma SecondRemoveRaises(s: Controller)
    requires Inv(s) && |s.order| == 1
    ensures RemoveCurrentAsWritten(s).Success?
    ensures var t := RemoveCurrentAsWritten(s).value;
      !Inv(t) && WellFormed(t) && RemoveCurrentAsWritten(t) == Failure(KeyError)
  {
    assert s.current.value in s.order;
  }
}
