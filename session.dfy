/** The content script as one state machine: the settings object and the
    three session flags, driven by the sequence of events the browser
    delivers to its capture-phase listeners and by storage callbacks. */
module Session {
  import opened Wrappers
  import opened Settings
  import opened Events
  import Keyboard
  import Mouse

  datatype State = State(settings: Config, flags: Mouse.Flags)

  /** State at script load, before the storage read answers. */
  const Initial: State := State(Defaults, Mouse.Idle)

  /** One delivery to a listener, with what the locators find at that moment. */
  datatype Input =
    | OnKeyDown(e: InputEvent, axis: Option<Box>, chart: Option<Box>)
    | OnMouseDown(e: InputEvent, axis: Option<Box>)
    | OnMouseMove(e: InputEvent, axis: Option<Box>)
    | OnMouseUp(e: InputEvent, axis: Option<Box>)
    | OnClick(e: InputEvent)
    | OnWheel(e: InputEvent, axis: Option<Box>)
    | OnKeyUp(e: InputEvent)
    | OnLoad(data: Option<map<string, bool>>)
    | OnStorageChange(changes: seq<Change>)

  datatype Reaction = Reaction(state: State, action: Action)

  function Lift(s: State, o: Mouse.Outcome): Reaction
  {
    Reaction(s.(flags := o.flags), o.action)
  }

  function Step(s: State, i: Input): Reaction
  {
    match i
    case OnKeyDown(e, axis, chart) => Reaction(s, Keyboard.KeyDown(s.settings, e, axis, chart))
    case OnMouseDown(e, axis) => Lift(s, Mouse.MouseDown(s.settings, s.flags, e, axis))
    case OnMouseMove(e, axis) => Lift(s, Mouse.MouseMove(s.flags, e, axis))
    case OnMouseUp(e, axis) => Lift(s, Mouse.MouseUp(s.flags, e, axis))
    case OnClick(e) => Lift(s, Mouse.Click(s.flags, e))
    case OnWheel(e, axis) => Lift(s, Mouse.Wheel(s.settings, s.flags, e, axis))
    case OnKeyUp(e) => Lift(s, Mouse.KeyUp(s.flags, e))
    case OnLoad(data) => Reaction(s.(settings := Merged(s.settings, data)), Pass)
    case OnStorageChange(changes) => Reaction(s.(settings := Applied(s.settings, changes)), Pass)
  }

  /** What each listener does to each event of a trace, in order. */
  function Actions(s: State, t: seq<Input>): (r: seq<Action>)
    ensures |r| == |t|
    decreases |t|
  {
    if t == [] then [] else [Step(s, t[0]).action] + Actions(Step(s, t[0]).state, t[1..])
  }

  /** The state after a whole trace. */
  function Final(s: State, t: seq<Input>): State
    decreases |t|
  {
    if t == [] then s else Final(Step(s, t[0]).state, t[1..])
  }

  /** Running two traces one after the other is running their concatenation. */
  lemma {:induction false} RunAppend(s: State, t1: seq<Input>, t2: seq<Input>)
    ensures Actions(s, t1 + t2) == Actions(s, t1) + Actions(Final(s, t1), t2)
    ensures Final(s, t1 + t2) == Final(Final(s, t1), t2)
    decreases |t1|
  {
    if t1 != [] {
      assert (t1 + t2)[0] == t1[0];
      assert (t1 + t2)[1..] == t1[1..] + t2;
      RunAppend(Step(s, t1[0]).state, t1[1..], t2);
    } else {
      assert t1 + t2 == t2;
    }
  }

  /** Events on the pointer, wheel, click and keyup paths. */
  predicate GuardedByMarker(i: Input)
  {
    i.OnMouseDown? || i.OnMouseMove? || i.OnMouseUp? || i.OnClick? || i.OnWheel? || i.OnKeyUp?
  }

  /** A trace made only of marked (redirected) events on those paths. */
  predicate AllRedirected(t: seq<Input>)
  {
    forall j :: 0 <= j < |t| ==> GuardedByMarker(t[j]) && t[j].e.isRedirected
  }

  /** Marked events are ignored by every listener that checks the marker:
      they change no flag and are passed through untouched. */
  lemma {:induction false} RedirectedIgnored(s: State, t: seq<Input>)
    requires AllRedirected(t)
    ensures Final(s, t) == s
    ensures forall j :: 0 <= j < |t| ==> Actions(s, t)[j] == Pass
    decreases |t|
  {
    if t != [] {
      assert Step(s, t[0]) == Reaction(s, Pass);
      RedirectedIgnored(s, t[1..]);
    }
  }

  /** Which listener may raise which flag: only a press starts a drag, only
      a move marks it as moved, only a wheel turn arms the Alt-release trap. */
  lemma FlagSources(s: State, i: Input)
    ensures !i.OnMouseDown? && !s.flags.isDraggingAxis ==> !Step(s, i).state.flags.isDraggingAxis
    ensures !i.OnMouseMove? && !s.flags.wasDraggingAxis ==> !Step(s, i).state.flags.wasDraggingAxis
    ensures !i.OnWheel? && !s.flags.wasWheelingAxis ==> !Step(s, i).state.flags.wasWheelingAxis
  {
  }

  /** A click the click listener acts on: one without the marker. */
  predicate RealClick(i: Input)
  {
    i.OnClick? && !i.e.isRedirected
  }

  /** A keyup the keyup listener acts on: a real plain release of Alt. */
  predicate RealAltRelease(i: Input)
  {
    i.OnKeyUp? && Mouse.ReleasesAlt(i.e)
  }

  /** Which listener may lower which of the two traps: only a real click
      clears `wasDraggingAxis`, only a real plain Alt release clears
      `wasWheelingAxis`. */
  lemma FlagClears(s: State, i: Input)
    ensures s.flags.wasDraggingAxis && !RealClick(i) ==> Step(s, i).state.flags.wasDraggingAxis
    ensures s.flags.wasWheelingAxis && !RealAltRelease(i) ==> Step(s, i).state.flags.wasWheelingAxis
  {
  }

  /** An armed click trap survives every trace without a real click. */
  lemma {:induction false} DragFlagPersists(s: State, t: seq<Input>)
    requires s.flags.wasDraggingAxis
    requires forall j :: 0 <= j < |t| ==> !RealClick(t[j])
    ensures Final(s, t).flags.wasDraggingAxis
    decreases |t|
  {
    if t != [] {
      FlagClears(s, t[0]);
      DragFlagPersists(Step(s, t[0]).state, t[1..]);
    }
  }

  /** An armed Alt-release trap survives every trace without a real plain
      Alt release (a Shift keyup, or Alt released with Ctrl still down). */
  lemma {:induction false} WheelFlagPersists(s: State, t: seq<Input>)
    requires s.flags.wasWheelingAxis
    requires forall j :: 0 <= j < |t| ==> !RealAltRelease(t[j])
    ensures Final(s, t).flags.wasWheelingAxis
    decreases |t|
  {
    if t != [] {
      FlagClears(s, t[0]);
      WheelFlagPersists(Step(s, t[0]).state, t[1..]);
    }
  }

  predicate NoMove(t: seq<Input>)
  {
    forall j :: 0 <= j < |t| ==> !t[j].OnMouseMove?
  }

  predicate NoWheel(t: seq<Input>)
  {
    forall j :: 0 <= j < |t| ==> !t[j].OnWheel?
  }

  /** Without a drag that moved, no click is swallowed until a move happens. */
  lemma {:induction false} QuietClicks(s: State, t: seq<Input>)
    requires !s.flags.wasDraggingAxis && NoMove(t)
    ensures forall j :: 0 <= j < |t| && t[j].OnClick? ==> Actions(s, t)[j] == Pass
    ensures !Final(s, t).flags.wasDraggingAxis
    decreases |t|
  {
    if t != [] {
      FlagSources(s, t[0]);
      QuietClicks(Step(s, t[0]).state, t[1..]);
    }
  }

  /** Without a wheel zoom, no Alt release is swallowed until a wheel turn. */
  lemma {:induction false} QuietAltReleases(s: State, t: seq<Input>)
    requires !s.flags.wasWheelingAxis && NoWheel(t)
    ensures forall j :: 0 <= j < |t| && t[j].OnKeyUp? ==> Actions(s, t)[j] == Pass
    ensures !Final(s, t).flags.wasWheelingAxis
    decreases |t|
  {
    if t != [] {
      FlagSources(s, t[0]);
      QuietAltReleases(Step(s, t[0]).state, t[1..]);
    }
  }

  /** The first real click after a drag that moved is swallowed, and no later
      click is, as long as no further move happens. */
  lemma ClickSuppressedOnce(s: State, e: InputEvent, rest: seq<Input>)
    requires !e.isRedirected && NoMove(rest)
    ensures var t := [OnClick(e)] + rest;
      && Actions(s, t)[0] == (if s.flags.wasDraggingAxis then Block else Pass)
      && forall j :: 1 <= j < |t| && t[j].OnClick? ==> Actions(s, t)[j] == Pass
  {
    var t := [OnClick(e)] + rest;
    assert t[1..] == rest;
    QuietClicks(Step(s, t[0]).state, rest);
  }

  /** The first real plain Alt release after a wheel zoom is swallowed, and no
      later one is, as long as no further wheel turn happens. */
  lemma AltReleaseSuppressedOnce(s: State, e: InputEvent, rest: seq<Input>)
    requires Mouse.ReleasesAlt(e) && NoWheel(rest)
    ensures var t := [OnKeyUp(e)] + rest;
      && Actions(s, t)[0] == (if s.flags.wasWheelingAxis then Block else Pass)
      && forall j :: 1 <= j < |t| && t[j].OnKeyUp? ==> Actions(s, t)[j] == Pass
  {
    var t := [OnKeyUp(e)] + rest;
    assert t[1..] == rest;
    QuietAltReleases(Step(s, t[0]).state, rest);
  }

  /** After a real move during a drag, whatever comes in between, the next
      real click is swallowed, and no later click is until another move. */
  lemma NextClickAfterMove(s: State, move: InputEvent, axis: Option<Box>, mid: seq<Input>,
                           click: InputEvent, rest: seq<Input>)
    requires s.flags.isDraggingAxis && !move.isRedirected
    requires forall j :: 0 <= j < |mid| ==> !RealClick(mid[j])
    requires !click.isRedirected && NoMove(rest)
    ensures var t := [OnMouseMove(move, axis)] + mid + [OnClick(click)] + rest;
      && Actions(s, t)[|mid| + 1] == Block
      && forall j :: |mid| + 1 < j < |t| && t[j].OnClick? ==> Actions(s, t)[j] == Pass
  {
    var pre := [OnMouseMove(move, axis)] + mid;
    var s1 := Step(s, OnMouseMove(move, axis)).state;
    assert s1.flags.wasDraggingAxis;
    assert pre[1..] == mid;
    DragFlagPersists(s1, mid);
    assert Final(s, pre) == Final(s1, mid);
    RunAppend(s, pre, [OnClick(click)] + rest);
    ClickSuppressedOnce(Final(s, pre), click, rest);
    assert pre + [OnClick(click)] + rest == pre + ([OnClick(click)] + rest);
  }

  /** After an Alt wheel zoom, whatever comes in between, the next real plain
      Alt release is swallowed, and no later keyup is until another wheel
      turn. */
  lemma NextAltReleaseAfterWheel(s: State, wheel: InputEvent, axis: Option<Box>, mid: seq<Input>,
                                 release: InputEvent, rest: seq<Input>)
    requires Mouse.ZoomsWheel(s.settings, wheel)
    requires forall j :: 0 <= j < |mid| ==> !RealAltRelease(mid[j])
    requires Mouse.ReleasesAlt(release) && NoWheel(rest)
    ensures var t := [OnWheel(wheel, axis)] + mid + [OnKeyUp(release)] + rest;
      && Actions(s, t)[|mid| + 1] == Block
      && forall j :: |mid| + 1 < j < |t| && t[j].OnKeyUp? ==> Actions(s, t)[j] == Pass
  {
    var pre := [OnWheel(wheel, axis)] + mid;
    var s1 := Step(s, OnWheel(wheel, axis)).state;
    assert s1.flags.wasWheelingAxis;
    assert pre[1..] == mid;
    WheelFlagPersists(s1, mid);
    assert Final(s, pre) == Final(s1, mid);
    RunAppend(s, pre, [OnKeyUp(release)] + rest);
    AltReleaseSuppressedOnce(Final(s, pre), release, rest);
    assert pre + [OnKeyUp(release)] + rest == pre + ([OnKeyUp(release)] + rest);
  }

  /** As written, the click trap is armed by drag moves only: a real click
      right after an Alt wheel zoom is passed to the page. */
  lemma ClickAfterWheelZoomPasses(s: State, wheel: InputEvent, axis: Option<Box>, click: InputEvent)
    requires !s.flags.wasDraggingAxis && Mouse.ZoomsWheel(s.settings, wheel) && !click.isRedirected
    ensures Actions(s, [OnWheel(wheel, axis), OnClick(click)])[1] == Pass
  {
    QuietClicks(s, [OnWheel(wheel, axis), OnClick(click)]);
  }

  /** Real moves of the mouse. */
  predicate RealMoves(t: seq<Input>)
  {
    forall j :: 0 <= j < |t| ==> t[j].OnMouseMove? && !t[j].e.isRedirected
  }

  /** During a drag every real move is swallowed and replayed on the axis. */
  lemma {:induction false} MovesWhileDragging(s: State, moves: seq<Input>)
    requires s.flags.isDraggingAxis && RealMoves(moves)
    ensures Final(s, moves) == (if moves == [] then s else s.(flags := s.flags.(wasDraggingAxis := true)))
    ensures forall j :: 0 <= j < |moves| ==>
      Actions(s, moves)[j] == Mouse.Redirect("mousemove", 0.0, moves[j].axis)
    decreases |moves|
  {
    if moves != [] {
      MovesWhileDragging(Step(s, moves[0]).state, moves[1..]);
    }
  }

  /** A whole drag zoom: the press, every move and the release are swallowed
      and replayed on the axis, the drag is over afterwards, and the click the
      browser sends after the release is swallowed. */
  lemma DragSession(s: State, down: InputEvent, downAxis: Option<Box>, moves: seq<Input>,
                    up: InputEvent, upAxis: Option<Box>, click: InputEvent)
    requires Mouse.StartsDrag(s.settings, down) && moves != [] && RealMoves(moves)
    requires !up.isRedirected && !click.isRedirected
    ensures var t := [OnMouseDown(down, downAxis)] + moves + [OnMouseUp(up, upAxis), OnClick(click)];
      var acts := Actions(s, t);
      && acts[0] == Mouse.Redirect("mousedown", 0.0, downAxis)
      && (forall j :: 1 <= j <= |moves| ==> acts[j] == Mouse.Redirect("mousemove", 0.0, moves[j - 1].axis))
      && acts[|moves| + 1] == Mouse.Redirect("mouseup", 0.0, upAxis)
      && acts[|moves| + 2] == Block
      && Final(s, t) == s.(flags := s.flags.(isDraggingAxis := false, wasDraggingAxis := false))
  {
    var pre := [OnMouseDown(down, downAxis)];
    var post := [OnMouseUp(up, upAxis), OnClick(click)];
    var s1 := Step(s, pre[0]).state;
    assert s1 == s.(flags := s.flags.(isDraggingAxis := true));
    assert Actions(s, pre) == [Mouse.Redirect("mousedown", 0.0, downAxis)];
    assert Final(s, pre) == s1;
    MovesWhileDragging(s1, moves);
    var s2 := Final(s1, moves);
    RunAppend(s, pre, moves);
    RunAppend(s, pre + moves, post);
    var s3 := Step(s2, post[0]).state;
    assert post[1..] == [OnClick(click)];
    assert Actions(s2, post) == [Mouse.Redirect("mouseup", 0.0, upAxis), Block];
    assert Final(s2, post) == Final(Step(s3, OnClick(click)).state, []);
  }

  /** The element a replacement event reaches first: the axis canvas or the
      chart wrapper, neither of them a text element. */
  function TargetElement(t: Target): Element
  {
    match t
    case PriceAxis => Element("CANVAS", false)
    case ChartWrapper => Element("DIV", false)
  }

  /** A replacement event as the script's own capture listeners receive it
      while it is being dispatched. */
  function Reentry(x: Synthetic, axis: Option<Box>): Input
  {
    var e := InputEvent("", x.altKey, false, false, false, 0, x.deltaY, x.isRedirected, Some(TargetElement(x.target)));
    if x.eventType == "mousedown" then OnMouseDown(e, axis)
    else if x.eventType == "mousemove" then OnMouseMove(e, axis)
    else if x.eventType == "mouseup" then OnMouseUp(e, axis)
    else OnWheel(e, axis)
  }

  /** No replacement event re-triggers a remapping: whatever a listener
      dispatches reaches the listeners again in the state that listener left
      and is passed through with no state change. This holds for the
      Left/Right wheel too, which carries no marker but no Alt either. */
  lemma SyntheticIsInert(s: State, i: Input, axis: Option<Box>)
    ensures var r := Step(s, i);
      r.action.dispatched.Some? ==>
        && r.action.dispatched.value.eventType in {"wheel", "mousedown", "mousemove", "mouseup"}
        && Step(r.state, Reentry(r.action.dispatched.value, axis)) == Reaction(r.state, Pass)
  {
  }
}
