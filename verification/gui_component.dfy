/** The `is_gui_built` flag every GUI component carries. */
module GuiComponent {

  datatype Component = Component(isGuiBuilt: bool)

  /** A freshly constructed component: its widgets are not built. */
  function New(): (c: Component)
    ensures !c.isGuiBuilt
  {
    Component(false)
  }

  /** The base `build_gui`: marks the widgets built. */
  function BuildGui(c: Component): (r: Component)
    ensures r.isGuiBuilt
  {
    c.(isGuiBuilt := true)
  }

  /** The base `destroy_gui`: marks the widgets gone. */
  function DestroyGui(c: Component): (r: Component)
    ensures !r.isGuiBuilt
  {
    c.(isGuiBuilt := false)
  }

  /** Building twice is building once. */
  lemma BuildGuiIdempotent(c: Component)
    ensures BuildGui(BuildGui(c)) == BuildGui(c)
  {
  }

  /** Building and then destroying returns a component to its freshly constructed state. */
  lemma BuildThenDestroyIsNew(c: Component)
    ensures DestroyGui(BuildGui(c)) == New()
  {
  }
}
