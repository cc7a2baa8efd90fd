/** The abstract view of a DOM event as the listeners read it, and of what a
    listener does with it: call `preventDefault`, call
    `stopImmediatePropagation`, and dispatch a replacement event. */
module Events {
  import opened Wrappers

  /** The two properties of an event target that `isTextElement` inspects. */
  datatype Element = Element(tagName: string, isContentEditable: bool)

  /** `isTextElement` (content.js:48-49): an absent target is not a text
      element; INPUT, TEXTAREA and content-editable elements are. */
  predicate IsTextElement(target: Option<Element>)
  {
    match target
    case None => false
    case Some(el) => el.tagName == "INPUT" || el.tagName == "TEXTAREA" || el.isContentEditable
  }

  /** The fields of a keyboard, mouse or wheel event the listeners read.
      `isRedirected` is the marker the script puts on its own replacements. */
  datatype InputEvent = InputEvent(
    key: string,
    altKey: bool, shiftKey: bool, ctrlKey: bool, metaKey: bool,
    button: int,
    deltaY: real,
    isRedirected: bool,
    target: Option<Element>)

  predicate AltOnly(e: InputEvent)
  {
    e.altKey && !e.shiftKey && !e.ctrlKey && !e.metaKey
  }

  predicate NoMods(e: InputEvent)
  {
    !e.altKey && !e.shiftKey && !e.ctrlKey && !e.metaKey
  }

  /** Width and height of a located element's bounding rectangle. */
  datatype Box = Box(width: real, height: real)

  /** Where a replacement event is dispatched. */
  datatype Target = PriceAxis | ChartWrapper

  /** A replacement event: its type ("wheel", "mousedown", "mousemove" or
      "mouseup"), where it goes, its wheel deltas (zero for mouse events),
      its `altKey` and whether it carries the `isRedirected` marker. */
  datatype Synthetic = Synthetic(
    eventType: string,
    target: Target,
    deltaX: real,
    deltaY: real,
    deltaMode: int,
    altKey: bool,
    isRedirected: bool)

  datatype Action = Action(preventDefault: bool, stopImmediatePropagation: bool, dispatched: Option<Synthetic>)

  /** The listener returns without touching the event. */
  const Pass: Action := Action(false, false, None)

  /** The event is swallowed and nothing replaces it. */
  const Block: Action := Action(true, true, None)

  /** `dispatchToAxis` (content.js:51-64): nothing is dispatched when no price
      axis is found; otherwise the event goes to the axis with the marker set. */
  function ToAxis(eventType: string, deltaY: real, altKey: bool, axis: Option<Box>): Option<Synthetic>
  {
    if axis.Some? then Some(Synthetic(eventType, PriceAxis, 0.0, deltaY, 0, altKey, true)) else None
  }
}
