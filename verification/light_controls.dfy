/**
  The light-selection controls the main window uses: the same insertion-ordered dict of
  named lights and optional current light as the newer controller, but lights are only
  added (never selected) by the buttons, the selected marker is painted red instead of
  enlarged, and the remove button and combobox are only ever disabled.

  As in the newer controller, `objects` holds every light created so far by name, `order`
  the dict's keys in insertion order and `current` the current light's name.
 */
module LightControls {
  import opened Wrappers
  import opened Scene
  import OrderedKeys
  import Combobox
  import Lights

  /** The marker colour that shows which light is selected. */
  const SelectedMarkerColor := Vec3(1.0, 0.0, 0.0)

  /** A light as the controls use it: name, class, its own colour and its marker's colour. */
  datatype CtlLight = CtlLight(name: string, kind: Lights.LightClass, color: Vec3, markerColor: Vec3)

  datatype Controls = Controls(
    objects: map<string, CtlLight>,
    order: seq<string>,
    current: Option<string>,
    combo: Combobox.Combobox,
    removeEnabled: bool)

  /** Every name the controls refer to denotes a light. */
  ghost predicate WellFormed(s: Controls) {
    && (forall k :: k in s.order ==> k in s.objects)
    && (s.current.Some? ==> s.current.value in s.objects)
  }

  /**
    The controls' consistent states: distinct non-empty keys naming their lights, and every
    light in the dict shows its own colour on its marker except the current one, which
    shows red.
   */
  ghost predicate Inv(s: Controls) {
    && WellFormed(s)
    && OrderedKeys.Distinct(s.order)
    && (forall k :: k in s.objects ==> s.objects[k].name == k)
    && (forall k :: k in s.order ==> k != "")
    && (forall k :: k in s.order ==>
          s.objects[k].markerColor == if s.current == Some(k) then SelectedMarkerColor else s.objects[k].color)
  }

  /** Neither the remove button nor the combobox is enabled. */
  ghost predicate Disabled(s: Controls) {
    !s.removeEnabled && !s.combo.enabled
  }

  /** A generated name: non-empty and never used before. */
  ghost predicate Fresh(s: Controls, name: string) {
    name != "" && name !in s.objects
  }

  /** The controls after construction: no lights, remove button and combobox disabled. */
  function Init(): (s: Controls)
    ensures Inv(s) && Disabled(s) && s.order == [] && s.current.None?
  {
    Controls(map[], [], None, Combobox.Empty, false)
  }

  /**
    `_select_light(name)`: an empty or unknown name clears the selection; the current name is
    a no-op; otherwise the previous light's marker gets its own colour back if that light is
    still in the dict, and the named light becomes current with a red marker.
   */
  function SelectLight(s: Controls, name: string): (r: Controls)
    requires WellFormed(s)
    ensures WellFormed(r) && r.objects.Keys == s.objects.Keys && r.order == s.order
    ensures r.combo == s.combo && r.removeEnabled == s.removeEnabled
    ensures (name == "" || name !in s.order) ==> r == s.(current := None)
    ensures s.current == Some(name) && name in s.order && name != "" ==> r == s
    ensures name != "" && name in s.order && s.current != Some(name) ==>
      && r.current == Some(name)
      && r.objects[name] == s.objects[name].(markerColor := SelectedMarkerColor)
      && (s.current.Some? ==>
            var p := s.current.value;
            r.objects[p] == if p in s.order then s.objects[p].(markerColor := s.objects[p].color) else s.objects[p])
      && (forall k :: k in s.objects && k != name && s.current != Some(k) ==> r.objects[k] == s.objects[k])
  {
    if name == "" || name !in s.order then
      s.(current := None)
    else if s.current.Some? && s.current.value == name then
      s
    else
      var s1 :=
        if s.current.Some? && s.current.value in s.order then
          var p := s.current.value;
          s.(objects := s.objects[p := s.objects[p].(markerColor := s.objects[p].color)])
        else s;
      s1.(current := Some(name), objects := s1.objects[name := s1.objects[name].(markerColor := SelectedMarkerColor)])
  }

  /**
    `_refresh_light_combobox(name)`: the combobox lists the keys in insertion order, and a
    name that is a key is both shown as selected and selected.
   */
  function RefreshCombobox(s: Controls, name: string): (r: Controls)
    requires WellFormed(s)
    ensures WellFormed(r) && r.order == s.order && r.removeEnabled == s.removeEnabled
    ensures r.combo.items == s.order && r.combo.enabled == s.combo.enabled
    ensures name !in s.order ==> r == s.(combo := r.combo) && r.combo.selected == s.combo.selected
    ensures name in s.order ==>
      && r.combo.selected.Some? && r.combo.selected.value < |s.order| && s.order[r.combo.selected.value] == name
      && r == SelectLight(s, name).(combo := r.combo)
  {
    var listed := s.(combo := Combobox.Refresh(s.combo, s.order, Some(name)));
    if name in s.order then SelectLight(listed, name) else listed
  }

  /**
    `_on_point_light_click` / `_on_spot_light_click`: a new white light is stored under its
    name; the selection, the combobox and the remove button are left as they were.
   */
  function AddLight(s: Controls, kind: Lights.LightClass, name: string): (r: Controls)
    requires WellFormed(s)
    ensures WellFormed(r) && name in r.order
    ensures name !in s.order ==> r.order == s.order + [name]
    ensures r.objects == s.objects[name := CtlLight(name, kind, White, White)]
    ensures r.current == s.current && r.combo == s.combo && r.removeEnabled == s.removeEnabled
  {
    s.(objects := s.objects[name := CtlLight(name, kind, White, White)],
       order := OrderedKeys.Insert(s.order, name))
  }

  /** `_on_selected_light_change(text, idx)`: only a name in the dict is selected. */
  function OnSelectedLightChange(s: Controls, text: string, idx: int): (r: Controls)
    requires WellFormed(s)
    ensures text !in s.order ==> r == s
    ensures text in s.order && text != "" ==> r.current == Some(text)
    ensures r.order == s.order && r.combo == s.combo && r.removeEnabled == s.removeEnabled
  {
    if text in s.order then SelectLight(s, text) else s
  }

  /**
    `_on_remove_light_click`. With no current light nothing happens. Otherwise the current
    name is deleted from the dict (raising when it is no longer there); if a key remains the
    first one is selected and the combobox refilled, else the remove button and combobox are
    disabled while the current light is left as it was.
   */
  function RemoveCurrent(s: Controls): (r: Result<Controls>)
    requires WellFormed(s)
    ensures s.current.None? ==> r == Success(s)
    ensures s.current.Some? && s.current.value !in s.order ==> r == Failure(KeyError)
    ensures s.current.Some? && s.current.value in s.order ==>
      && r.Success? && WellFormed(r.value)
      && r.value.order == OrderedKeys.Delete(s.order, s.current.value)
      && (forall x :: x in r.value.order <==> x in s.order && x != s.current.value)
      && (|r.value.order| > 0 && r.value.order[0] != "" ==>
            && r.value.current == Some(r.value.order[0])
            && r.value.combo.items == r.value.order
            && r.value.combo.selected.Some? && r.value.combo.selected.value < |r.value.order|
            && r.value.order[r.value.combo.selected.value] == r.value.order[0])
      && (|r.value.order| == 0 ==>
            r.value.current == s.current && !r.value.removeEnabled && !r.value.combo.enabled)
  {
    if s.current.None? then Success(s)
    else
      var c := s.current.value;
      if c !in s.order then Failure(KeyError)
      else
        var s1 := s.(order := OrderedKeys.Delete(s.order, c));
        if |s1.order| > 0 && s1.order[0] != "" then
          var first := s1.order[0];
          assert first in s1.order;
          Success(RefreshCombobox(SelectLight(s1, first), first))
        else
          Success(s1.(removeEnabled := false, combo := s1.combo.(enabled := false)))
  }

  // ----- What the controls keep -----

  /**
    Selecting a key keeps the markers consistent. (Every caller passes a key; an unknown name
    would clear the selection but leave the old marker red.)
   */
  lemma SelectPreservesInv(s: Controls, name: string)
    requires Inv(s) && name in s.order
    ensures Inv(SelectLight(s, name))
  {
    var r := SelectLight(s, name);
    if s.current != Some(name) {
      forall k | k in r.order
        ensures r.objects[k].markerColor == if r.current == Some(k) then SelectedMarkerColor else r.objects[k].color
      {
        if k != name && s.current == Some(k) {
          assert r.objects[k] == s.objects[k].(markerColor := s.objects[k].color);
        }
      }
    }
  }

  /** Refilling the combobox keeps the markers consistent. */
  lemma RefreshPreservesInv(s: Controls, name: string)
    requires Inv(s)
    ensures Inv(RefreshCombobox(s, name))
  {
    var listed := s.(combo := Combobox.Refresh(s.combo, s.order, Some(name)));
    if name in s.order {
      SelectPreservesInv(listed, name);
    }
  }

  /** A combobox change keeps the markers consistent. */
  lemma SelectionChangePreservesInv(s: Controls, text: string, idx: int)
    requires Inv(s)
    ensures Inv(OnSelectedLightChange(s, text, idx))
  {
    if text in s.order {
      SelectPreservesInv(s, text);
    }
  }

  /** After removing, in a consistent state, the combobox shows the first remaining key. */
  lemma RemoveShowsFirst(s: Controls)
    requires Inv(s) && s.current.Some? && s.current.value in s.order && |s.order| > 1
    ensures RemoveCurrent(s).Success?
    ensures RemoveCurrent(s).value.combo.selected == Some(0)
  {
    var r := RemoveCurrent(s).value;
    var c := s.current.value;
    assert |r.order| == |s.order| - 1;
    assert r.order[0] in r.order;
    assert OrderedKeys.Distinct(r.order);
    var i := r.combo.selected.value;
    assert r.order[i] == r.order[0];
  }

  /** Adding a freshly named light keeps the markers consistent. */
  lemma AddPreservesInv(s: Controls, kind: Lights.LightClass, name: string)
    requires Inv(s) && Fresh(s, name)
    ensures Inv(AddLight(s, kind, name))
  {
    assert s.current != Some(name);
  }

  /** Removing keeps the markers consistent whenever it does not raise. */
  lemma RemovePreservesInv(s: Controls)
    requires Inv(s) && RemoveCurrent(s).Success?
    ensures Inv(RemoveCurrent(s).value)
  {
    if s.current.Some? {
      var c := s.current.value;
      var s1 := s.(order := OrderedKeys.Delete(s.order, c));
      assert Inv(s1.(current := None)) by {
        forall k | k in s1.order ensures k in s.order && k != c { }
      }
      if |s1.order| > 0 && s1.order[0] != "" {
        var first := s1.order[0];
        assert first in s1.order;
        var s2 := SelectLight(s1, first);
        forall k | k in s2.order
          ensures s2.objects[k].markerColor == if s2.current == Some(k) then SelectedMarkerColor else s2.objects[k].color
        {
          assert k in s.order && k != c;
        }
      }
    }
  }

  /**
    Nothing the controls do enables the remove button or the combobox: starting disabled,
    they stay disabled, so a user can neither select nor remove a light through them.
   */
  lemma StaysDisabled(s: Controls, kind: Lights.LightClass, name: string, text: string, idx: int)
    requires WellFormed(s) && Disabled(s)
    ensures Disabled(AddLight(s, kind, name))
    ensures Disabled(OnSelectedLightChange(s, text, idx))
    ensures RemoveCurrent(s).Success? ==> Disabled(RemoveCurrent(s).value)
  {
  }
}
