/**
 * The WGSL shader-quad widget: a fixed-size quad drawn by a user shader,
 * with optional messages for press, hover-entering and hover-leaving, and a
 * small per-widget state (which button is held, whether it is hovered) that
 * is packed into three bits for the shader.
 *
 * `bounds.contains(cursor_position)` is an input (`inBounds`); the shell the
 * widget publishes to is a `Shell` object whose message list grows.
 */
module WgslShaderQuadWidget {
  import opened Wrappers
  import opened Core
  import opened Events
  import Shader
  import Renderer

  /** The pressed axis of the widget state; `NotPressed` is the source's `None` and the default. */
  datatype ShaderMouseState = NotPressed | LeftPressed | RightPressed

  /** The local state of the widget, kept in the widget tree. */
  datatype State = State(mouse: ShaderMouseState, hover: bool)

  /** `State::new()`, the derived default. */
  function NewState(): (s: State)
    ensures s.mouse == NotPressed && !s.hover
  {
    State(NotPressed, false)
  }

  // ---------------------------------------------------------------------------
  // Mouse-state encoding

  /**
   * `ShaderMouseState::encode`: bit 0 is set for a held left button, bit 1
   * for a held right button, bit 2 when hovered.
   */
  function Encode(mouse: ShaderMouseState, hovered: bool): (bits: bv32)
    ensures bits < 8
    ensures bits & 3 != 3
    ensures bits & 1 == 1 <==> mouse == LeftPressed
    ensures bits & 2 == 2 <==> mouse == RightPressed
    ensures bits & 4 == 4 <==> hovered
  {
    var left: bv32 := if mouse == LeftPressed then 1 else 0;
    var right: bv32 := if mouse == RightPressed then 1 else 0;
    var hover: bv32 := if hovered then 1 else 0;
    (hover << 2) | (right << 1) | left
  }

  /** What a shader reads back from the packed value; `None` for values `Encode` never produces. */
  function Decode(bits: bv32): Option<State> {
    if bits >= 8 || bits & 3 == 3 then None
    else
      var mouse := if bits & 1 == 1 then LeftPressed else if bits & 2 == 2 then RightPressed else NotPressed;
      Some(State(mouse, bits & 4 == 4))
  }

  /** Decoding an encoded state gives the state back. */
  lemma DecodeEncode(s: State)
    ensures Decode(Encode(s.mouse, s.hover)) == Some(s)
  {
  }

  /** Every value that decodes is the encoding of what it decodes to. */
  lemma EncodeDecode(bits: bv32)
    requires Decode(bits).Some?
    ensures Encode(Decode(bits).value.mouse, Decode(bits).value.hover) == bits
  {
  }

  /** Distinct states have distinct encodings. */
  lemma EncodeInjective(s: State, t: State)
    requires Encode(s.mouse, s.hover) == Encode(t.mouse, t.hover)
    ensures s == t
  {
    DecodeEncode(s);
    DecodeEncode(t);
  }

  /** Sample encodings: hovered alone is 4, a held left button alone 1, a held right button alone 2. */
  lemma KnownEncodings()
    ensures Encode(LeftPressed, false) == 1
    ensures Encode(RightPressed, false) == 2
    ensures Encode(LeftPressed, true) == 5
    ensures Encode(RightPressed, true) == 6
    ensures Encode(NotPressed, false) == 0
    ensures Encode(NotPressed, true) == 4
  {
  }

  // ---------------------------------------------------------------------------
  // Widget configuration

  /** `Padding`, in whole units on each side. */
  datatype Padding = Padding(top: u16, right: u16, bottom: u16, left: u16)

  /** `Padding::new(p)`: the same padding on every side. */
  function UniformPadding(p: u16): Padding {
    Padding(p, p, p, p)
  }

  /** The widget, generic in the application's message type. */
  datatype WgslShaderQuad<M> = WgslShaderQuad(
    onPress: Option<M>,
    onHoverEntering: Option<M>,
    onHoverLeaving: Option<M>,
    width: real,
    height: real,
    padding: Padding,
    time: Duration,
    handle: Shader.Handle)

  /** `WgslShaderQuad::new`: no messages configured, padding 5, time zero. */
  function New<M>(handle: Shader.Handle, width: real, height: real): (w: WgslShaderQuad<M>)
    ensures w.onPress == None && w.onHoverEntering == None && w.onHoverLeaving == None
    ensures w.width == width && w.height == height && w.handle == handle
    ensures w.padding == Padding(5, 5, 5, 5)
    ensures w.time == 0
  {
    WgslShaderQuad(None, None, None, width, height, UniformPadding(5), 0, handle)
  }

  function SetWidth<M>(w: WgslShaderQuad<M>, width: real): WgslShaderQuad<M> {
    w.(width := width)
  }

  function SetHeight<M>(w: WgslShaderQuad<M>, height: real): WgslShaderQuad<M> {
    w.(height := height)
  }

  function SetPadding<M>(w: WgslShaderQuad<M>, padding: Padding): WgslShaderQuad<M> {
    w.(padding := padding)
  }

  function SetHandle<M>(w: WgslShaderQuad<M>, handle: Shader.Handle): WgslShaderQuad<M> {
    w.(handle := handle)
  }

  /** `set_time`, which the source applies in place to the widget value its owner holds. */
  function SetTime<M>(w: WgslShaderQuad<M>, time: Duration): WgslShaderQuad<M> {
    w.(time := time)
  }

  function OnPress<M>(w: WgslShaderQuad<M>, msg: M): WgslShaderQuad<M> {
    w.(onPress := Some(msg))
  }

  function OnHoverLeaving<M>(w: WgslShaderQuad<M>, msg: M): WgslShaderQuad<M> {
    w.(onHoverLeaving := Some(msg))
  }

  function OnHoverEntering<M>(w: WgslShaderQuad<M>, msg: M): WgslShaderQuad<M> {
    w.(onHoverEntering := Some(msg))
  }

  /** Each builder and `set_time` sets its own field to the given value and leaves every other field as it was. */
  lemma BuildersChangeOnlyTheirField<M>(w: WgslShaderQuad<M>, x: real, p: Padding, h: Shader.Handle, t: Duration, msg: M)
    ensures SetWidth(w, x) == w.(width := x)
    ensures SetHeight(w, x) == w.(height := x)
    ensures SetPadding(w, p) == w.(padding := p)
    ensures SetHandle(w, h) == w.(handle := h)
    ensures SetTime(w, t) == w.(time := t)
    ensures OnPress(w, msg) == w.(onPress := Some(msg))
    ensures OnHoverLeaving(w, msg) == w.(onHoverLeaving := Some(msg))
    ensures OnHoverEntering(w, msg) == w.(onHoverEntering := Some(msg))
  {
  }

  // ---------------------------------------------------------------------------
  // Cursor shape and drawing

  /** `mouse_interaction`: a pointer over the widget when it can be pressed, the default otherwise. */
  function MouseInteraction<M>(w: WgslShaderQuad<M>, inBounds: bool): (r: Interaction)
    ensures r == Pointer <==> inBounds && w.onPress.Some?
    ensures r != Pointer ==> r == Idle
  {
    if inBounds && w.onPress.Some? then Pointer else Idle
  }

  /**
   * The primitive `draw` records: the widget's bounds, handle and time, the
   * cursor, frame number 1, and the state packed by `Encode`.
   */
  function DrawPrimitive<M>(w: WgslShaderQuad<M>, s: State, bounds: Rectangle<real>, cursor: Point): (q: Renderer.CustomShaderQuad)
    ensures Decode(q.mouseClick) == Some(s)
    ensures q.bounds == bounds && q.mousePosition == cursor
    ensures q.handle == w.handle && q.time == w.time && q.frameNumber == 1
  {
    DecodeEncode(s);
    Renderer.CustomShaderQuad(bounds, cursor, Encode(s.mouse, s.hover), w.time, 1, w.handle)
  }

  // ---------------------------------------------------------------------------
  // Event handling

  /** The outcome of one event: the new state, the status returned and the messages published. */
  datatype Reaction<M> = Reaction(state: State, status: Status, published: seq<M>)

  /** `on_event` as a function of the widget, its state, the event and whether the cursor is inside. */
  function Step<M>(w: WgslShaderQuad<M>, s: State, event: Event, inBounds: bool): Reaction<M> {
    match event
    case Mouse(ButtonPressed(Left)) =>
      if w.onPress.Some? && inBounds then Reaction(s.(mouse := LeftPressed), Captured, [])
      else Reaction(s, Ignored, [])
    case Mouse(ButtonPressed(Right)) =>
      if inBounds then Reaction(s.(mouse := RightPressed), Captured, [])
      else Reaction(s, Ignored, [])
    case Mouse(ButtonReleased(Left)) =>
      if w.onPress.Some? && s.mouse == LeftPressed then
        if inBounds then Reaction(s.(mouse := NotPressed), Captured, [w.onPress.value])
        else Reaction(s, Captured, [])
      else Reaction(s, Ignored, [])
    case Mouse(ButtonReleased(Right)) =>
      if s.mouse == RightPressed then Reaction(s.(mouse := NotPressed), Captured, [])
      else Reaction(s, Ignored, [])
    case Mouse(CursorMoved(_)) =>
      if w.onHoverEntering.Some? && !s.hover && inBounds then
        Reaction(s.(hover := inBounds), Captured, [w.onHoverEntering.value])
      else if w.onHoverLeaving.Some? && s.hover && !inBounds then
        Reaction(s.(hover := inBounds), Captured, [w.onHoverLeaving.value])
      else Reaction(s, Ignored, [])
    case _ => Reaction(s, Ignored, [])
  }

  /** The widget tree node that holds the widget's state. */
  class Tree {
    var state: State

    constructor ()
      ensures state == NewState()
    {
      state := NewState();
    }
  }

  /** The shell that collects the messages widgets publish. */
  class Shell<M> {
    var messages: seq<M>

    constructor ()
      ensures messages == []
    {
      messages := [];
    }

    method Publish(msg: M)
      modifies this
      ensures messages == old(messages) + [msg]
    {
      messages := messages + [msg];
    }
  }

  /** `on_event`: update the tree's state in place and publish to the shell. */
  method OnEvent<M>(w: WgslShaderQuad<M>, tree: Tree, event: Event, inBounds: bool, shell: Shell<M>)
    returns (status: Status)
    modifies tree, shell
    ensures tree.state == Step(w, old(tree.state), event, inBounds).state
    ensures status == Step(w, old(tree.state), event, inBounds).status
    ensures shell.messages == old(shell.messages) + Step(w, old(tree.state), event, inBounds).published
  {
    match event {
    case Mouse(ButtonPressed(Left)) =>
      if w.onPress.Some? {
        if inBounds {
          tree.state := tree.state.(mouse := LeftPressed);
          return Captured;
        }
      }
    case Mouse(ButtonPressed(Right)) =>
      if inBounds {
        tree.state := tree.state.(mouse := RightPressed);
        return Captured;
      }
    case Mouse(ButtonReleased(Left)) =>
      if w.onPress.Some? {
        if tree.state.mouse == LeftPressed {
          if inBounds {
            tree.state := tree.state.(mouse := NotPressed);
            shell.Publish(w.onPress.value);
          }
          return Captured;
        }
      }
    case Mouse(ButtonReleased(Right)) =>
      if tree.state.mouse == RightPressed {
        tree.state := tree.state.(mouse := NotPressed);
        return Captured;
      }
    case Mouse(CursorMoved(_)) =>
      if w.onHoverEntering.Some? {
        if !tree.state.hover && inBounds {
          tree.state := tree.state.(hover := inBounds);
          shell.Publish(w.onHoverEntering.value);
          return Captured;
        }
      }
      if w.onHoverLeaving.Some? {
        if tree.state.hover && !inBounds {
          tree.state := tree.state.(hover := inBounds);
          shell.Publish(w.onHoverLeaving.value);
          return Captured;
        }
      }
    case _ =>
    }
    status := Ignored;
  }

  // ---------------------------------------------------------------------------
  // Properties of one event

  /** An ignored event changes nothing and publishes nothing; one event publishes at most one message, and only when captured. */
  lemma StepPublishesAtMostOne<M>(w: WgslShaderQuad<M>, s: State, event: Event, inBounds: bool)
    ensures |Step(w, s, event, inBounds).published| <= 1
    ensures Step(w, s, event, inBounds).status == Ignored ==>
              Step(w, s, event, inBounds).state == s && Step(w, s, event, inBounds).published == []
  {
  }

  /** The five kinds of event the widget reacts to. */
  predicate Handled(event: Event) {
    event.Mouse? &&
    (event.mouse.ButtonPressed? || event.mouse.ButtonReleased? || event.mouse.CursorMoved?) &&
    (event.mouse.ButtonPressed? || event.mouse.ButtonReleased? ==>
       event.mouse.button == Left || event.mouse.button == Right)
  }

  /** Every other event leaves the state alone and is ignored. */
  lemma UnhandledIgnored<M>(w: WgslShaderQuad<M>, s: State, event: Event, inBounds: bool)
    requires !Handled(event)
    ensures Step(w, s, event, inBounds) == Reaction(s, Ignored, [])
  {
  }

  /** A left press is captured, and then sets LeftPressed, exactly when a press message is configured and the cursor is inside. */
  lemma LeftPress<M>(w: WgslShaderQuad<M>, s: State, inBounds: bool)
    ensures var r := Step(w, s, Mouse(ButtonPressed(Left)), inBounds);
      && (r.status == Captured <==> w.onPress.Some? && inBounds)
      && r.state == (if r.status == Captured then s.(mouse := LeftPressed) else s)
      && r.published == []
  {
  }

  /** A left release while LeftPressed with a press message configured is captured; it commits only inside. */
  lemma LeftReleaseWhilePressed<M>(w: WgslShaderQuad<M>, s: State, inBounds: bool)
    requires w.onPress.Some? && s.mouse == LeftPressed
    ensures var r := Step(w, s, Mouse(ButtonReleased(Left)), inBounds);
      && r.status == Captured
      && (inBounds ==> r.state == State(NotPressed, s.hover) && r.published == [w.onPress.value])
      && (!inBounds ==> r.state == s && r.published == [])
  {
  }

  /** A left release in any other situation is ignored. */
  lemma LeftReleaseOtherwise<M>(w: WgslShaderQuad<M>, s: State, inBounds: bool)
    requires w.onPress.None? || s.mouse != LeftPressed
    ensures Step(w, s, Mouse(ButtonReleased(Left)), inBounds) == Reaction(s, Ignored, [])
  {
  }

  /** A right press inside sets RightPressed from any state, including LeftPressed; outside it is ignored. */
  lemma RightPress<M>(w: WgslShaderQuad<M>, s: State, inBounds: bool)
    ensures var r := Step(w, s, Mouse(ButtonPressed(Right)), inBounds);
      && (inBounds ==> r == Reaction(State(RightPressed, s.hover), Captured, []))
      && (!inBounds ==> r == Reaction(s, Ignored, []))
  {
  }

  /** A right release acts only from RightPressed: it resets the button and publishes nothing. */
  lemma RightRelease<M>(w: WgslShaderQuad<M>, s: State, inBounds: bool)
    ensures var r := Step(w, s, Mouse(ButtonReleased(Right)), inBounds);
      && (r.status == Captured <==> s.mouse == RightPressed)
      && r.state == (if s.mouse == RightPressed then State(NotPressed, s.hover) else s)
      && r.published == []
  {
  }

  /**
   * A cursor move changes only the hover flag; it turns on only when an
   * entering message is configured (publishing it) and off only when a
   * leaving message is configured (publishing it).
   */
  lemma CursorMove<M>(w: WgslShaderQuad<M>, s: State, p: Point, inBounds: bool)
    ensures var r := Step(w, s, Mouse(CursorMoved(p)), inBounds);
      && r.state.mouse == s.mouse
      && (!s.hover && r.state.hover <==> w.onHoverEntering.Some? && !s.hover && inBounds)
      && (s.hover && !r.state.hover <==> w.onHoverLeaving.Some? && s.hover && !inBounds)
      && (!s.hover && r.state.hover ==> r.published == [w.onHoverEntering.value])
      && (s.hover && !r.state.hover ==> r.published == [w.onHoverLeaving.value])
      && (r.state.hover == s.hover ==> r == Reaction(s, Ignored, []))
  {
  }

  /** With both hover messages configured, the hover flag follows the cursor after every move. */
  lemma HoverFollowsCursor<M>(w: WgslShaderQuad<M>, s: State, p: Point, inBounds: bool)
    requires w.onHoverEntering.Some? && w.onHoverLeaving.Some?
    ensures Step(w, s, Mouse(CursorMoved(p)), inBounds).state.hover == inBounds
  {
  }

  // ---------------------------------------------------------------------------
  // Properties of event sequences

  /** One delivered event together with whether the cursor was inside the bounds. */
  datatype Input = Input(event: Event, inBounds: bool)

  /** The final state and all messages published after a sequence of events. */
  datatype Trace<M> = Trace(state: State, published: seq<M>)

  function Run<M>(w: WgslShaderQuad<M>, s: State, inputs: seq<Input>): Trace<M>
    decreases |inputs|
  {
    if inputs == [] then Trace(s, [])
    else
      var r := Step(w, s, inputs[0].event, inputs[0].inBounds);
      var rest := Run(w, r.state, inputs[1..]);
      Trace(rest.state, r.published + rest.published)
  }

  /** Over any sequence of events, at most one message is published per event. */
  lemma {:induction false} RunPublishesAtMostOnePerEvent<M>(w: WgslShaderQuad<M>, s: State, inputs: seq<Input>)
    ensures |Run(w, s, inputs).published| <= |inputs|
    decreases |inputs|
  {
    if inputs != [] {
      var r := Step(w, s, inputs[0].event, inputs[0].inBounds);
      StepPublishesAtMostOne(w, s, inputs[0].event, inputs[0].inBounds);
      RunPublishesAtMostOnePerEvent(w, r.state, inputs[1..]);
    }
  }

  /** Without an entering message the widget never becomes hovered, so bit 2 of its encoding stays clear. */
  lemma {:induction false} NoHoverWithoutEntering<M>(w: WgslShaderQuad<M>, s: State, inputs: seq<Input>)
    requires w.onHoverEntering.None? && !s.hover
    ensures !Run(w, s, inputs).state.hover
    ensures Encode(Run(w, s, inputs).state.mouse, Run(w, s, inputs).state.hover) & 4 == 0
    decreases |inputs|
  {
    if inputs != [] {
      var r := Step(w, s, inputs[0].event, inputs[0].inBounds);
      NoHoverWithoutEntering(w, r.state, inputs[1..]);
    }
  }

  /** Without a press message the widget never becomes LeftPressed. */
  lemma {:induction false} NoLeftPressWithoutOnPress<M>(w: WgslShaderQuad<M>, s: State, inputs: seq<Input>)
    requires w.onPress.None? && s.mouse != LeftPressed
    ensures Run(w, s, inputs).state.mouse != LeftPressed
    decreases |inputs|
  {
    if inputs != [] {
      var r := Step(w, s, inputs[0].event, inputs[0].inBounds);
      NoLeftPressWithoutOnPress(w, r.state, inputs[1..]);
    }
  }

  /**
   * A full click from a fresh state: hover in, press and release inside,
   * hover out publishes entering, press and leaving, each exactly once, and
   * ends not pressed and not hovered.
   */
  lemma ClickScenario<M>(w: WgslShaderQuad<M>, inside: Point, outside: Point)
    requires w.onPress.Some? && w.onHoverEntering.Some? && w.onHoverLeaving.Some?
    ensures var inputs := [
        Input(Mouse(CursorMoved(inside)), true),
        Input(Mouse(ButtonPressed(Left)), true),
        Input(Mouse(ButtonReleased(Left)), true),
        Input(Mouse(CursorMoved(outside)), false)];
      Run(w, NewState(), inputs) ==
        Trace(NewState(), [w.onHoverEntering.value, w.onPress.value, w.onHoverLeaving.value])
  {
    var inputs := [
        Input(Mouse(CursorMoved(inside)), true),
        Input(Mouse(ButtonPressed(Left)), true),
        Input(Mouse(ButtonReleased(Left)), true),
        Input(Mouse(CursorMoved(outside)), false)];
    var s1 := State(NotPressed, true);
    var s2 := State(LeftPressed, true);
    assert Step<M>(w, NewState(), inputs[0].event, true) == Reaction(s1, Captured, [w.onHoverEntering.value]);
    assert Step<M>(w, s1, inputs[1].event, true) == Reaction(s2, Captured, []);
    assert Step<M>(w, s2, inputs[2].event, true) == Reaction(s1, Captured, [w.onPress.value]);
    assert Step<M>(w, s1, inputs[3].event, false) == Reaction(NewState(), Captured, [w.onHoverLeaving.value]);
    assert inputs[3..][1..] == [];
    assert Run(w, s1, inputs[3..]) == Trace(NewState(), [w.onHoverLeaving.value]);
    assert inputs[2..][1..] == inputs[3..];
    assert Run(w, s2, inputs[2..]) == Trace(NewState(), [w.onPress.value, w.onHoverLeaving.value]);
    assert inputs[1..][1..] == inputs[2..];
    assert Run(w, s1, inputs[1..]) == Trace(NewState(), [w.onPress.value, w.onHoverLeaving.value]);
  }

  /** A press that is released outside the bounds does not commit: the widget stays LeftPressed. */
  lemma ReleaseOutsideKeepsPressed<M>(w: WgslShaderQuad<M>)
    requires w.onPress.Some?
    ensures var inputs := [Input(Mouse(ButtonPressed(Left)), true), Input(Mouse(ButtonReleased(Left)), false)];
      Run(w, NewState(), inputs) == Trace(State(LeftPressed, false), [])
  {
    var inputs := [Input(Mouse(ButtonPressed(Left)), true), Input(Mouse(ButtonReleased(Left)), false)];
    assert inputs[1..][1..] == [];
  }

  // ---------------------------------------------------------------------------
  // A click that commits although its press was ended outside

  /**
   * A left press inside with no left release after it: the only situation
   * in which releasing the left button should commit a click.
   */
  ghost predicate PressPending(inputs: seq<Input>) {
    exists j :: 0 <= j < |inputs| && inputs[j] == Input(Mouse(ButtonPressed(Left)), true) &&
      forall m :: j < m < |inputs| ==> inputs[m].event != Mouse(ButtonReleased(Left))
  }

  /**
   * As written, a release outside keeps the press alive, so pressing inside,
   * releasing outside, pressing outside and releasing inside publishes the
   * press message, although the last release does not end a press made
   * inside.
   */
  lemma ClickCommitsAfterReleaseOutside<M>(w: WgslShaderQuad<M>, p: Point)
    requires w.onPress.Some?
    ensures var inputs := [Input(Mouse(ButtonPressed(Left)), true), Input(Mouse(ButtonReleased(Left)), false),
                           Input(Mouse(ButtonPressed(Left)), false), Input(Mouse(ButtonReleased(Left)), true)];
      && Run(w, NewState(), inputs).published == [w.onPress.value]
      && !PressPending(inputs[..3])
  {
    var inputs := [Input(Mouse(ButtonPressed(Left)), true), Input(Mouse(ButtonReleased(Left)), false),
                   Input(Mouse(ButtonPressed(Left)), false), Input(Mouse(ButtonReleased(Left)), true)];
    var pressed := State(LeftPressed, false);
    assert inputs[3..][1..] == [];
    assert Run(w, pressed, inputs[3..]) == Trace(NewState(), [w.onPress.value]);
    assert inputs[2..][1..] == inputs[3..];
    assert inputs[1..][1..] == inputs[2..];
    assert Run(w, NewState(), inputs) == Trace(NewState(), [w.onPress.value]);
    assert inputs[..3][1].event == Mouse(ButtonReleased(Left));
  }

  /**
   * The evidently intended `on_event`: a left release ends a left press
   * wherever the cursor is, as a right release already does, and commits
   * the click only inside. Every other event is handled as written.
   */
  function StrictStep<M>(w: WgslShaderQuad<M>, s: State, event: Event, inBounds: bool): Reaction<M> {
    match event
    case Mouse(ButtonReleased(Left)) =>
      if s.mouse == LeftPressed then
        Reaction(s.(mouse := NotPressed), Captured,
                 if w.onPress.Some? && inBounds then [w.onPress.value] else [])
      else Reaction(s, Ignored, [])
    case _ => Step(w, s, event, inBounds)
  }

  /** The state after some events under `StrictStep`, folded from the last event back. */
  function StrictStateAfter<M>(w: WgslShaderQuad<M>, s: State, inputs: seq<Input>): State
    decreases |inputs|
  {
    if inputs == [] then s
    else
      var last := inputs[|inputs| - 1];
      StrictStep(w, StrictStateAfter(w, s, inputs[..|inputs| - 1]), last.event, last.inBounds).state
  }

  /** Under `StrictStep`, the widget is LeftPressed only while a press inside is pending. */
  lemma {:induction false} StrictLeftPressedOnlyWhilePending<M>(w: WgslShaderQuad<M>, s: State, inputs: seq<Input>)
    requires s.mouse != LeftPressed
    ensures StrictStateAfter(w, s, inputs).mouse == LeftPressed ==> PressPending(inputs)
    decreases |inputs|
  {
    if inputs != [] {
      var n := |inputs| - 1;
      var init := inputs[..n];
      var last := inputs[n];
      var before := StrictStateAfter(w, s, init);
      StrictLeftPressedOnlyWhilePending(w, s, init);
      if StrictStateAfter(w, s, inputs).mouse == LeftPressed {
        if last == Input(Mouse(ButtonPressed(Left)), true) {
          assert inputs[n] == Input(Mouse(ButtonPressed(Left)), true);
        } else {
          assert before.mouse == LeftPressed && last.event != Mouse(ButtonReleased(Left));
          var j :| 0 <= j < |init| && init[j] == Input(Mouse(ButtonPressed(Left)), true) &&
            forall m :: j < m < |init| ==> init[m].event != Mouse(ButtonReleased(Left));
          assert inputs[j] == init[j];
          forall m | j < m < |inputs| ensures inputs[m].event != Mouse(ButtonReleased(Left)) {
            if m < n {
              assert inputs[m] == init[m];
            }
          }
        }
      }
    }
  }

  /**
   * Under `StrictStep`, a left release publishes the press message only
   * inside the bounds, and only when it ends a press made inside with no
   * left release since.
   */
  lemma StrictClickNeedsPressInside<M>(w: WgslShaderQuad<M>, s: State, inputs: seq<Input>, k: nat)
    requires s.mouse != LeftPressed && k < |inputs|
    requires inputs[k].event == Mouse(ButtonReleased(Left))
    ensures var r := StrictStep(w, StrictStateAfter(w, s, inputs[..k]), inputs[k].event, inputs[k].inBounds);
      r.published != [] ==> r.published == [w.onPress.value] && inputs[k].inBounds && PressPending(inputs[..k])
  {
    StrictLeftPressedOnlyWhilePending(w, s, inputs[..k]);
  }

  /** Under `StrictStep`, a left release while LeftPressed ends the press wherever the cursor is. */
  lemma StrictReleaseEndsPress<M>(w: WgslShaderQuad<M>, s: State, inBounds: bool)
    requires s.mouse == LeftPressed
    ensures StrictStep(w, s, Mouse(ButtonReleased(Left)), inBounds).state == s.(mouse := NotPressed)
    ensures StrictStep(w, s, Mouse(ButtonReleased(Left)), inBounds).status == Captured
  {
  }

  /** Under `StrictStep`, the four events of `ClickCommitsAfterReleaseOutside` publish nothing. */
  lemma StrictIgnoresClickAfterReleaseOutside<M>(w: WgslShaderQuad<M>)
    requires w.onPress.Some?
    ensures var inputs := [Input(Mouse(ButtonPressed(Left)), true), Input(Mouse(ButtonReleased(Left)), false),
                           Input(Mouse(ButtonPressed(Left)), false), Input(Mouse(ButtonReleased(Left)), true)];
      StrictStep(w, StrictStateAfter(w, NewState(), inputs[..3]), inputs[3].event, inputs[3].inBounds).published == []
  {
    var inputs := [Input(Mouse(ButtonPressed(Left)), true), Input(Mouse(ButtonReleased(Left)), false),
                   Input(Mouse(ButtonPressed(Left)), false), Input(Mouse(ButtonReleased(Left)), true)];
    assert inputs[..3][..2] == inputs[..2];
    assert inputs[..2][..1] == inputs[..1];
    assert inputs[..1][..0] == [];
    assert StrictStateAfter(w, NewState(), inputs[..1]) == State(LeftPressed, false);
    assert StrictStateAfter(w, NewState(), inputs[..2]) == NewState();
    assert StrictStateAfter(w, NewState(), inputs[..3]) == NewState();
  }
}
