/** The content script's module-level state and listeners (content.js): the
    `settings` object and the three session flags as fields of one object,
    one method per listener, each proved against Session.Step so that the
    trace lemmas of Session describe any sequence of calls. */
module ContentScript {
  import opened Wrappers
  import opened Settings
  import opened Events
  import Keyboard
  import Mouse
  import Session

  class Remapper {
    var settings: Config
    var isDraggingAxis: bool
    var wasDraggingAxis: bool
    var wasWheelingAxis: bool

    function Flags(): Mouse.Flags
      reads this
    {
      Mouse.Flags(isDraggingAxis, wasDraggingAxis, wasWheelingAxis)
    }

    function State(): Session.State
      reads this
    {
      Session.State(settings, Flags())
    }

    /** Script load: the six options all on, no gesture in progress. */
    constructor ()
      ensures State() == Session.Initial
      ensures settings.Keys == set n | n in Names
      ensures forall n :: n in Names ==> On(settings, n)
    {
      settings := Defaults;
      isDraggingAxis, wasDraggingAxis, wasWheelingAxis := false, false, false;
    }

    /** The storage read callback. */
    method Load(data: Option<map<string, bool>>)
      modifies this
      ensures Session.Step(old(State()), Session.OnLoad(data)) == Session.Reaction(State(), Pass)
      ensures data.Some? ==> forall k :: k in data.value ==> settings[k] == Some(data.value[k])
      ensures forall k :: k in old(settings) && (data.None? || k !in data.value) ==> settings[k] == old(settings)[k]
    {
      if data.Some? {
        settings := Merged(settings, data);
      }
    }

    /** The storage change listener: one assignment per changed key. */
    method OnChanged(changes: seq<Change>)
      modifies this
      ensures Session.Step(old(State()), Session.OnStorageChange(changes)) == Session.Reaction(State(), Pass)
      ensures forall k :: k in old(settings) && k !in ChangedKeys(changes) ==> settings[k] == old(settings)[k]
    {
      var i := 0;
      while i < |changes|
        invariant 0 <= i <= |changes|
        invariant settings == Applied(old(settings), changes[..i])
        invariant Flags() == old(Flags())
      {
        settings := settings[changes[i].key := changes[i].newValue];
        assert changes[..i + 1][..i] == changes[..i];
        i := i + 1;
      }
      assert changes[..|changes|] == changes;
    }

    /** The keydown listener reads the settings and changes nothing. */
    method KeyDown(e: InputEvent, axis: Option<Box>, chart: Option<Box>) returns (a: Action)
      ensures Session.Step(State(), Session.OnKeyDown(e, axis, chart)) == Session.Reaction(State(), a)
      ensures IsTextElement(e.target) ==> a == Pass
    {
      a := Keyboard.KeyDown(settings, e, axis, chart);
    }

    method MouseDown(e: InputEvent, axis: Option<Box>) returns (a: Action)
      modifies this
      ensures Session.Step(old(State()), Session.OnMouseDown(e, axis)) == Session.Reaction(State(), a)
    {
      a := Pass;
      if e.isRedirected || IsTextElement(e.target) {
        return;
      }
      if On(settings, DragZoom) && AltOnly(e) && e.button == 0 {
        isDraggingAxis := true;
        a := Mouse.Redirect("mousedown", 0.0, axis);
      }
    }

    method MouseMove(e: InputEvent, axis: Option<Box>) returns (a: Action)
      modifies this
      ensures Session.Step(old(State()), Session.OnMouseMove(e, axis)) == Session.Reaction(State(), a)
    {
      a := Pass;
      if !isDraggingAxis || e.isRedirected {
        return;
      }
      wasDraggingAxis := true;
      a := Mouse.Redirect("mousemove", 0.0, axis);
    }

    method MouseUp(e: InputEvent, axis: Option<Box>) returns (a: Action)
      modifies this
      ensures Session.Step(old(State()), Session.OnMouseUp(e, axis)) == Session.Reaction(State(), a)
    {
      a := Pass;
      if !isDraggingAxis || e.isRedirected {
        return;
      }
      isDraggingAxis := false;
      a := Mouse.Redirect("mouseup", 0.0, axis);
    }

    method Click(e: InputEvent) returns (a: Action)
      modifies this
      ensures Session.Step(old(State()), Session.OnClick(e)) == Session.Reaction(State(), a)
    {
      a := Pass;
      if wasDraggingAxis && !e.isRedirected {
        wasDraggingAxis := false;
        a := Block;
      }
    }

    method Wheel(e: InputEvent, axis: Option<Box>) returns (a: Action)
      modifies this
      ensures Session.Step(old(State()), Session.OnWheel(e, axis)) == Session.Reaction(State(), a)
    {
      a := Pass;
      if e.isRedirected || IsTextElement(e.target) {
        return;
      }
      if On(settings, WheelZoom) && AltOnly(e) {
        wasWheelingAxis := true;
        a := Mouse.Redirect("wheel", e.deltaY * 5.0, axis);
      }
    }

    method KeyUp(e: InputEvent) returns (a: Action)
      modifies this
      ensures Session.Step(old(State()), Session.OnKeyUp(e)) == Session.Reaction(State(), a)
    {
      a := Pass;
      if wasWheelingAxis && !e.isRedirected && e.key == "Alt" && NoMods(e) {
        wasWheelingAxis := false;
        a := Block;
      }
    }
  }
}
