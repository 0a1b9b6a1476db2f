/** The light-selection combobox as both light controllers refill it. */
module Combobox {
  import opened Wrappers
  import OrderedKeys

  /** The widget's items, its selected index (absent until first assigned) and its enabled flag. */
  datatype Combobox = Combobox(items: seq<string>, selected: Option<nat>, enabled: bool)

  /** An empty, disabled combobox with nothing assigned to its selected index. */
  const Empty := Combobox([], None, false)

  /**
    The selected index the refill loop leaves behind after visiting `ks[i..]`, starting from
    `sel`: every item equal to `name` overwrites it with its own position.
   */
  function Scan(ks: seq<string>, name: Option<string>, i: nat, sel: Option<nat>): (r: Option<nat>)
    requires i <= |ks|
    ensures (name.None? || name.value !in ks[i..]) ==> r == sel
    ensures name.Some? && name.value in ks[i..] ==>
      && r.Some? && i <= r.value < |ks| && ks[r.value] == name.value
      && forall j :: r.value < j < |ks| ==> ks[j] != name.value
    decreases |ks| - i
  {
    if i == |ks| then sel
    else Scan(ks, name, i + 1, if name.Some? && ks[i] == name.value then Some(i) else sel)
  }

  /**
    `clear_items`, then `add_item` for every key in insertion order, assigning the selected
    index at the key equal to `name`.
   */
  function Refresh(c: Combobox, ks: seq<string>, name: Option<string>): (r: Combobox)
    ensures r.items == ks && r.enabled == c.enabled
    ensures (name.None? || name.value !in ks) ==> r.selected == c.selected
    ensures name.Some? && name.value in ks ==>
      r.selected.Some? && r.selected.value < |ks| && ks[r.selected.value] == name.value
  {
    assert ks[0..] == ks;
    c.(items := ks, selected := Scan(ks, name, 0, c.selected))
  }

  /** With distinct keys the selected index is the one position of the name. */
  lemma RefreshSelectsPosition(c: Combobox, ks: seq<string>, i: nat)
    requires OrderedKeys.Distinct(ks) && i < |ks|
    ensures Refresh(c, ks, Some(ks[i])).selected == Some(i)
  {
    var r := Refresh(c, ks, Some(ks[i]));
    assert ks[i] in ks;
  }
}
