/** The main window: the side-panel/scene split and the Lights/SMPL menu switch. */
module Playground {

  /** A widget frame in pixels. */
  datatype Rect = Rect(x: int, y: int, width: int, height: int)

  /** The side panel is never wider than this many pixels. */
  const MaxPanelWidth: int := 340

  /** Python's `int(a / b)` for a positive divisor: the quotient truncated toward zero. */
  function TruncDiv(a: int, b: int): (q: int)
    requires b > 0
    ensures a >= 0 ==> q * b <= a < q * b + b
    ensures a < 0 ==> q * b - b < a <= q * b
  {
    if a >= 0 then a / b else -((-a) / b)
  }

  /** `min(340, int(width * 0.3))`, with 0.3 taken as the exact fraction 3/10. */
  function PanelWidth(content: Rect): (w: int)
    ensures w <= MaxPanelWidth
    ensures content.width >= 0 ==> 0 <= w <= content.width
    ensures content.width >= 0 ==>
      || (w == MaxPanelWidth && 3 * content.width >= 10 * MaxPanelWidth)
      || (w < MaxPanelWidth && 10 * w <= 3 * content.width < 10 * w + 10)
  {
    var share := TruncDiv(3 * content.width, 10);
    if share < MaxPanelWidth then share else MaxPanelWidth
  }

  /** The two frames `_on_layout` assigns. */
  datatype Frames = Frames(panel: Rect, scene: Rect)

  /**
    `_on_layout`: the panel takes the left strip of the content area and the scene widget the
    rest, side by side, both spanning the full content height.
   */
  function OnLayout(content: Rect): (f: Frames)
    ensures f.panel.x == content.x && f.panel.y == content.y
    ensures f.panel.height == content.height && f.scene.height == content.height
    ensures f.panel.width <= MaxPanelWidth
    ensures f.scene.x == f.panel.x + f.panel.width && f.scene.y == content.y
    ensures f.scene.width >= 0
    ensures content.width >= 0 ==> f.panel.width >= 0 && f.panel.width + f.scene.width == content.width
    ensures content.width < 0 ==> f.scene.width == 0
  {
    var pw := PanelWidth(content);
    Frames(
      Rect(content.x, content.y, pw, content.height),
      Rect(content.x + pw, content.y, if content.width - pw > 0 then content.width - pw else 0, content.height))
  }

  /** The enabled flags of the two menu buttons and the visibility of the two panels. */
  datatype Menu = Menu(lightsButtonEnabled: bool, smplButtonEnabled: bool,
                       lightsPanelVisible: bool, smplPanelVisible: bool)

  /**
    The menu right after `_build_gui`: the Lights button is disabled; the SMPL button and both
    panels keep the toolkit's defaults, enabled and visible.
   */
  const InitialMenu := Menu(false, true, true, true)

  /** `_toggle_lights_smpl_menu`: every flag is negated. */
  function ToggleMenu(m: Menu): (r: Menu)
    ensures r.lightsButtonEnabled != m.lightsButtonEnabled
    ensures r.smplButtonEnabled != m.smplButtonEnabled
    ensures r.lightsPanelVisible != m.lightsPanelVisible
    ensures r.smplPanelVisible != m.smplPanelVisible
  {
    Menu(!m.lightsButtonEnabled, !m.smplButtonEnabled, !m.lightsPanelVisible, !m.smplPanelVisible)
  }

  /** Toggling twice restores the menu. */
  lemma ToggleTwiceRestores(m: Menu)
    ensures ToggleMenu(ToggleMenu(m)) == m
  {
  }

  /** The menu after `n` clicks on either button. */
  function ToggleTimes(m: Menu, n: nat): (r: Menu)
    ensures n % 2 == 0 ==> r == m
    ensures n % 2 == 1 ==> r == ToggleMenu(m)
  {
    if n == 0 then m else ToggleMenu(ToggleTimes(m, n - 1))
  }

  /** Exactly one button stays enabled, however often the menu is toggled. */
  lemma {:induction false} ButtonsStayExclusive(n: nat)
    ensures ToggleTimes(InitialMenu, n).lightsButtonEnabled != ToggleTimes(InitialMenu, n).smplButtonEnabled
  {
    if n > 0 {
      ButtonsStayExclusive(n - 1);
    }
  }

  /**
    The two panels are shown or hidden together, however often the menu is toggled: both
    start visible and every toggle negates both.
   */
  lemma {:induction false} PanelsStayInStep(n: nat)
    ensures ToggleTimes(InitialMenu, n).lightsPanelVisible == ToggleTimes(InitialMenu, n).smplPanelVisible
  {
    if n > 0 {
      PanelsStayInStep(n - 1);
    }
  }
}
