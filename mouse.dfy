/** The mouse, wheel, click and keyup listeners (content.js:123-190) as step
    functions over the three session flags: each takes the flags before the
    event and gives the flags after it together with what was done to the
    event. `axis` is what `getMainPriceAxis(e.target)` finds. */
module Mouse {
  import opened Wrappers
  import opened Settings
  import opened Events

  datatype Flags = Flags(isDraggingAxis: bool, wasDraggingAxis: bool, wasWheelingAxis: bool)

  /** All three flags start out false (content.js:124-126). */
  const Idle: Flags := Flags(false, false, false)

  datatype Outcome = Outcome(flags: Flags, action: Action)

  /** The real event is swallowed and `dispatchToAxis` sends its replacement. */
  function Redirect(eventType: string, deltaY: real, axis: Option<Box>): Action
  {
    Action(true, true, ToAxis(eventType, deltaY, false, axis))
  }

  /** A real Alt-only primary-button press outside a text field, drag zoom on. */
  predicate StartsDrag(c: Config, e: InputEvent)
  {
    !e.isRedirected && !IsTextElement(e.target) && On(c, DragZoom) && AltOnly(e) && e.button == 0
  }

  /** A real Alt-only wheel turn outside a text field, wheel zoom on. */
  predicate ZoomsWheel(c: Config, e: InputEvent)
  {
    !e.isRedirected && !IsTextElement(e.target) && On(c, WheelZoom) && AltOnly(e)
  }

  /** A real release of the Alt key with no modifier left down. */
  predicate ReleasesAlt(e: InputEvent)
  {
    !e.isRedirected && e.key == "Alt" && NoMods(e)
  }

  function MouseDown(c: Config, f: Flags, e: InputEvent, axis: Option<Box>): Outcome
  {
    if e.isRedirected || IsTextElement(e.target) then Outcome(f, Pass)
    else if On(c, DragZoom) && AltOnly(e) && e.button == 0 then
      Outcome(f.(isDraggingAxis := true), Redirect("mousedown", 0.0, axis))
    else Outcome(f, Pass)
  }

  function MouseMove(f: Flags, e: InputEvent, axis: Option<Box>): Outcome
  {
    if !f.isDraggingAxis || e.isRedirected then Outcome(f, Pass)
    else Outcome(f.(wasDraggingAxis := true), Redirect("mousemove", 0.0, axis))
  }

  function MouseUp(f: Flags, e: InputEvent, axis: Option<Box>): Outcome
  {
    if !f.isDraggingAxis || e.isRedirected then Outcome(f, Pass)
    else Outcome(f.(isDraggingAxis := false), Redirect("mouseup", 0.0, axis))
  }

  function Click(f: Flags, e: InputEvent): Outcome
  {
    if f.wasDraggingAxis && !e.isRedirected then Outcome(f.(wasDraggingAxis := false), Block)
    else Outcome(f, Pass)
  }

  function Wheel(c: Config, f: Flags, e: InputEvent, axis: Option<Box>): Outcome
  {
    if e.isRedirected || IsTextElement(e.target) then Outcome(f, Pass)
    else if On(c, WheelZoom) && AltOnly(e) then
      Outcome(f.(wasWheelingAxis := true), Redirect("wheel", e.deltaY * 5.0, axis))
    else Outcome(f, Pass)
  }

  function KeyUp(f: Flags, e: InputEvent): Outcome
  {
    if f.wasWheelingAxis && !e.isRedirected && e.key == "Alt" && NoMods(e) then
      Outcome(f.(wasWheelingAxis := false), Block)
    else Outcome(f, Pass)
  }

  /** A qualifying press starts a drag whether or not an axis is found, and
      swallows the press; any other press changes nothing and passes. */
  lemma DragStart(c: Config, f: Flags, e: InputEvent, axis: Option<Box>)
    ensures var o := MouseDown(c, f, e, axis);
      && o.flags == (if StartsDrag(c, e) then f.(isDraggingAxis := true) else f)
      && (StartsDrag(c, e) ==> o.action.preventDefault && o.action.stopImmediatePropagation
                               && (o.action.dispatched.Some? <==> axis.Some?))
      && (!StartsDrag(c, e) ==> o.action == Pass)
  {
  }

  /** Moves and releases act only during a drag and only on real events; a
      move marks the drag as having moved, a release ends the drag, and both
      are prevented, stopped and replayed on the axis when one is found. */
  lemma MoveAndReleaseOnlyWhileDragging(f: Flags, e: InputEvent, axis: Option<Box>)
    ensures !f.isDraggingAxis || e.isRedirected ==>
      MouseMove(f, e, axis) == Outcome(f, Pass) && MouseUp(f, e, axis) == Outcome(f, Pass)
    ensures f.isDraggingAxis && !e.isRedirected ==>
      && MouseMove(f, e, axis).flags == Flags(true, true, f.wasWheelingAxis)
      && MouseUp(f, e, axis).flags == Flags(false, f.wasDraggingAxis, f.wasWheelingAxis)
      && MouseMove(f, e, axis).action == Redirect("mousemove", 0.0, axis)
      && MouseUp(f, e, axis).action == Redirect("mouseup", 0.0, axis)
      && (axis.Some? ==> MouseUp(f, e, axis).action.dispatched.value.target == PriceAxis)
  {
  }

  /** An Alt wheel turn is swallowed, leaves the Alt-release trap armed and
      sends the axis a five times larger vertical delta in pixel mode. */
  lemma AltWheelZoom(c: Config, f: Flags, e: InputEvent, axis: Option<Box>)
    ensures !ZoomsWheel(c, e) ==> Wheel(c, f, e, axis) == Outcome(f, Pass)
    ensures ZoomsWheel(c, e) ==>
      var o := Wheel(c, f, e, axis);
      && o.flags == f.(wasWheelingAxis := true)
      && o.action.preventDefault && o.action.stopImmediatePropagation
      && (o.action.dispatched.Some? <==> axis.Some?)
      && (axis.Some? ==>
            var w := o.action.dispatched.value;
            w.eventType == "wheel" && w.target == PriceAxis && w.isRedirected
            && w.deltaY == 5.0 * e.deltaY && w.deltaMode == 0)
  {
  }
}
