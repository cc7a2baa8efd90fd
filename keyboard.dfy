/** The keydown listener (content.js:67-121): a first-match chain of three
    rules over the key, the modifier flags and the settings. It changes no
    state. */
module Keyboard {
  import opened Wrappers
  import opened Settings
  import opened Events

  predicate IsUpDown(key: string)
  {
    key == "ArrowUp" || key == "ArrowDown"
  }

  predicate IsLeftRight(key: string)
  {
    key == "ArrowLeft" || key == "ArrowRight"
  }

  /** Space may come with Shift, but not with Alt, Ctrl or Meta. */
  predicate SpaceMods(e: InputEvent)
  {
    !e.altKey && !e.ctrlKey && !e.metaKey
  }

  /** Rule 1: Alt-only Up/Down with vertical key zoom on. */
  predicate ZoomGesture(c: Config, e: InputEvent)
  {
    On(c, KeyZoom) && AltOnly(e) && IsUpDown(e.key)
  }

  /** Rule 2: unmodified Left/Right with chart navigation on. */
  predicate PanGesture(c: Config, e: InputEvent)
  {
    On(c, ArrowNav) && NoMods(e) && IsLeftRight(e.key)
  }

  /** Rule 3: plain Up/Down or (Shift+)Space with its suppression option on. */
  predicate SymbolGesture(c: Config, e: InputEvent)
  {
    || (On(c, BlockUpDown) && IsUpDown(e.key) && NoMods(e))
    || (On(c, BlockSpace) && e.key == " " && SpaceMods(e))
  }

  /** The wheel event rule 1 dispatches at the price axis: half the axis
      height, up zooms in (negative), down zooms out (positive). */
  function ZoomWheel(key: string, axis: Box): Synthetic
  {
    Synthetic("wheel", PriceAxis, 0.0, if key == "ArrowUp" then -axis.height / 2.0 else axis.height / 2.0, 0, true, true)
  }

  /** The wheel event rule 2 dispatches at the chart wrapper: a sixth of its
      width sideways, without the redirection marker. */
  function PanWheel(key: string, chart: Box): Synthetic
  {
    Synthetic("wheel", ChartWrapper, if key == "ArrowLeft" then -chart.width / 6.0 else chart.width / 6.0, 0.0, 0, false, false)
  }

  /** The keydown listener. `axis` and `chart` are what `getMainPriceAxis()`
      and `getMainChart()` find on the page at that moment. */
  function KeyDown(c: Config, e: InputEvent, axis: Option<Box>, chart: Option<Box>): (a: Action)
    // typing is never intercepted
    ensures IsTextElement(e.target) ==> a == Pass
    // the listener touches the event exactly when a rule fires and finds its target
    ensures a.preventDefault <==>
      !IsTextElement(e.target) &&
      ((ZoomGesture(c, e) && axis.Some?) || (PanGesture(c, e) && chart.Some?) || SymbolGesture(c, e))
    ensures !a.preventDefault ==> a == Pass
  {
    if IsTextElement(e.target) then Pass
    else if ZoomGesture(c, e) then
      (if axis.Some? then Action(true, false, Some(ZoomWheel(e.key, axis.value))) else Pass)
    else if PanGesture(c, e) then
      (if chart.Some? then Action(true, true, Some(PanWheel(e.key, chart.value))) else Pass)
    else if SymbolGesture(c, e) then Block
    else Pass
  }

  /** The three rules never apply to the same event, so the order in which
      the chain tests them does not change any outcome. */
  lemma GesturesDisjoint(c: Config, e: InputEvent)
    ensures !(ZoomGesture(c, e) && PanGesture(c, e))
    ensures !(ZoomGesture(c, e) && SymbolGesture(c, e))
    ensures !(PanGesture(c, e) && SymbolGesture(c, e))
  {
  }

  /** Rule 1: with an axis, the key is prevented but still propagates, and a
      wheel event with Alt set zooms the axis by half its height. */
  lemma AltArrowZoom(c: Config, e: InputEvent, axis: Option<Box>, chart: Option<Box>)
    requires !IsTextElement(e.target) && ZoomGesture(c, e)
    ensures axis.None? ==> KeyDown(c, e, axis, chart) == Pass
    ensures axis.Some? ==>
      var a := KeyDown(c, e, axis, chart);
      && a.preventDefault && !a.stopImmediatePropagation && a.dispatched.Some?
      && var w := a.dispatched.value;
      && w.eventType == "wheel" && w.target == PriceAxis && w.altKey && w.isRedirected
      && w.deltaX == 0.0 && w.deltaMode == 0
      && (e.key == "ArrowUp" ==> w.deltaY == -axis.value.height / 2.0)
      && (e.key == "ArrowDown" ==> w.deltaY == axis.value.height / 2.0)
      && (axis.value.height > 0.0 ==> (w.deltaY < 0.0 <==> e.key == "ArrowUp"))
  {
  }

  /** Rule 2: with a chart, the key is swallowed and a horizontal wheel event
      scrolls the chart by a sixth of its width. */
  lemma ArrowPan(c: Config, e: InputEvent, axis: Option<Box>, chart: Option<Box>)
    requires !IsTextElement(e.target) && PanGesture(c, e)
    ensures chart.None? ==> KeyDown(c, e, axis, chart) == Pass
    ensures chart.Some? ==>
      var a := KeyDown(c, e, axis, chart);
      && a.preventDefault && a.stopImmediatePropagation && a.dispatched.Some?
      && var w := a.dispatched.value;
      && w.eventType == "wheel" && w.target == ChartWrapper && !w.altKey
      && w.deltaY == 0.0
      && (e.key == "ArrowLeft" ==> w.deltaX == -chart.value.width / 6.0)
      && (e.key == "ArrowRight" ==> w.deltaX == chart.value.width / 6.0)
      && (chart.value.width > 0.0 ==> (w.deltaX < 0.0 <==> e.key == "ArrowLeft"))
  {
  }

  /** Rule 3: a key is swallowed with nothing in its place exactly when it is
      a symbol-changing key whose suppression is on; Alt+Up/Down never is. */
  lemma SymbolKeysBlocked(c: Config, e: InputEvent, axis: Option<Box>, chart: Option<Box>)
    ensures KeyDown(c, e, axis, chart) == Block <==> !IsTextElement(e.target) && SymbolGesture(c, e)
    ensures AltOnly(e) && IsUpDown(e.key) ==> KeyDown(c, e, axis, chart) != Block
  {
  }
}
