/**
 * The custom-shader-quad example application: sliders set the four corner
 * radii and the border width of a shadered quad, and mouse presses and
 * releases set the two click flags the shader reads.
 *
 * The pane grid's state and every view are not part of this model; a pane
 * is named by its number.
 */
module CustomQuadExample {
  import Wrappers
  import opened Core
  import opened Events
  import Renderer

  datatype Message =
    | RadiusTopLeftChanged(radius: real)
    | RadiusTopRightChanged(radius: real)
    | RadiusBottomRightChanged(radius: real)
    | RadiusBottomLeftChanged(radius: real)
    | BorderWidthChanged(width: real)
    | LeftMousePress(point: Point)
    | LeftMouseRelease(point: Point)
    | RightMousePress(point: Point)
    | RightMouseRelease(point: Point)
    | RightMouseReleaseGeneral
    | LeftMouseReleaseGeneral
    | Tick
    | ArrowPressed
    | PaneClicked(pane: nat)
    | PaneReleased(pane: nat)
    | None

  /** The application's own record of held modifier keys (never updated by the modelled code). */
  datatype ModifierKeys = ModifierKeys(shift: bool, ctrl: bool, alt: bool, logo: bool)

  /** A two-dimensional vector. */
  datatype Vector = Vector(x: real, y: real)

  /** The canvas program's state: its own copy of the click flags. */
  datatype Uniform = Uniform(mouseClick: Vector)

  /** The application's state as a value. */
  datatype Model = Model(radius: Renderer.Corners, borderWidth: real, mouseClick: Point,
                         modifierKeys: ModifierKeys, uniform: Uniform)

  /** The state `new` builds: every radius 50, no border, both click flags 0. */
  function Init(): (m: Model)
    ensures forall k :: 0 <= k < 4 ==> m.radius[k] == 50.0
    ensures m.borderWidth == 0.0 && m.mouseClick == Point(0.0, 0.0)
    ensures m.modifierKeys == ModifierKeys(false, false, false, false)
    ensures m.uniform.mouseClick == Vector(0.0, 0.0)
  {
    Model([50.0, 50.0, 50.0, 50.0], 0.0, Point(0.0, 0.0), ModifierKeys(false, false, false, false), Uniform(Vector(0.0, 0.0)))
  }

  /** `update` as a function of the state and the message. */
  function UpdateModel(m: Model, message: Message): Model {
    var tl, tr, br, bl := m.radius[0], m.radius[1], m.radius[2], m.radius[3];
    match message
    case RadiusTopLeftChanged(r) => m.(radius := [r, tr, br, bl])
    case RadiusTopRightChanged(r) => m.(radius := [tl, r, br, bl])
    case RadiusBottomRightChanged(r) => m.(radius := [tl, tr, r, bl])
    case RadiusBottomLeftChanged(r) => m.(radius := [tl, tr, br, r])
    case BorderWidthChanged(w) => m.(borderWidth := w)
    case LeftMousePress(_) => m
    case RightMousePress(_) => m.(mouseClick := m.mouseClick.(y := 1.0))
    case LeftMouseRelease(_) => m.(mouseClick := m.mouseClick.(x := 0.0))
    case RightMouseRelease(_) => m.(mouseClick := m.mouseClick.(y := 0.0))
    case ArrowPressed => m
    case PaneClicked(_) => m.(mouseClick := m.mouseClick.(x := 1.0))
    case RightMouseReleaseGeneral => m.(mouseClick := m.mouseClick.(y := 0.0))
    case LeftMouseReleaseGeneral => m.(mouseClick := m.mouseClick.(x := 0.0))
    case _ => m
  }

  class Example {
    var radius: Renderer.Corners
    var borderWidth: real
    var mouseClick: Point
    var modifierKeys: ModifierKeys
    var uniform: Uniform

    function Snapshot(): Model
      reads this
    {
      Model(radius, borderWidth, mouseClick, modifierKeys, uniform)
    }

    /** `Example::new`. */
    constructor ()
      ensures Snapshot() == Init()
    {
      radius := [50.0, 50.0, 50.0, 50.0];
      borderWidth := 0.0;
      mouseClick := Point(0.0, 0.0);
      modifierKeys := ModifierKeys(false, false, false, false);
      uniform := Uniform(Vector(0.0, 0.0));
    }

    /** `Example::update`: assign the changed corner, the border width or one click flag in place. */
    method Update(message: Message)
      modifies this
      ensures Snapshot() == UpdateModel(old(Snapshot()), message)
    {
      var tl, tr, br, bl := radius[0], radius[1], radius[2], radius[3];
      match message {
        case RadiusTopLeftChanged(r) => radius := [r, tr, br, bl];
        case RadiusTopRightChanged(r) => radius := [tl, r, br, bl];
        case RadiusBottomRightChanged(r) => radius := [tl, tr, r, bl];
        case RadiusBottomLeftChanged(r) => radius := [tl, tr, br, r];
        case BorderWidthChanged(w) => borderWidth := w;
        case LeftMousePress(_) =>
        case RightMousePress(_) => mouseClick := mouseClick.(y := 1.0);
        case LeftMouseRelease(_) => mouseClick := mouseClick.(x := 0.0);
        case RightMouseRelease(_) => mouseClick := mouseClick.(y := 0.0);
        case ArrowPressed =>
        case PaneClicked(_) => mouseClick := mouseClick.(x := 1.0);
        case RightMouseReleaseGeneral => mouseClick := mouseClick.(y := 0.0);
        case LeftMouseReleaseGeneral => mouseClick := mouseClick.(x := 0.0);
        case _ =>
      }
    }
  }

  // ---------------------------------------------------------------------------
  // Properties of `update`

  /** Each radius message replaces exactly its own corner (top-left 0, top-right 1, bottom-right 2, bottom-left 3). */
  lemma RadiusMessagesReplaceTheirCorner(m: Model, r: real)
    ensures UpdateModel(m, RadiusTopLeftChanged(r)) == m.(radius := m.radius[0 := r])
    ensures UpdateModel(m, RadiusTopRightChanged(r)) == m.(radius := m.radius[1 := r])
    ensures UpdateModel(m, RadiusBottomRightChanged(r)) == m.(radius := m.radius[2 := r])
    ensures UpdateModel(m, RadiusBottomLeftChanged(r)) == m.(radius := m.radius[3 := r])
    ensures UpdateModel(m, BorderWidthChanged(r)) == m.(borderWidth := r)
  {
    assert [r, m.radius[1], m.radius[2], m.radius[3]] == m.radius[0 := r];
    assert [m.radius[0], r, m.radius[2], m.radius[3]] == m.radius[1 := r];
    assert [m.radius[0], m.radius[1], r, m.radius[3]] == m.radius[2 := r];
    assert [m.radius[0], m.radius[1], m.radius[2], r] == m.radius[3 := r];
  }

  /**
   * The click flags: `x` becomes 1 on a pane click and 0 on either left
   * release; `y` becomes 1 on a right press and 0 on either right release.
   * Every other field is kept.
   */
  lemma MouseClickFlags(m: Model, p: Point, pane: nat)
    ensures UpdateModel(m, PaneClicked(pane)) == m.(mouseClick := Point(1.0, m.mouseClick.y))
    ensures UpdateModel(m, LeftMouseRelease(p)) == m.(mouseClick := Point(0.0, m.mouseClick.y))
    ensures UpdateModel(m, LeftMouseReleaseGeneral) == m.(mouseClick := Point(0.0, m.mouseClick.y))
    ensures UpdateModel(m, RightMousePress(p)) == m.(mouseClick := Point(m.mouseClick.x, 1.0))
    ensures UpdateModel(m, RightMouseRelease(p)) == m.(mouseClick := Point(m.mouseClick.x, 0.0))
    ensures UpdateModel(m, RightMouseReleaseGeneral) == m.(mouseClick := Point(m.mouseClick.x, 0.0))
  {
  }

  /** A left press, an arrow, a pane release, a tick and `None` leave the state unchanged. */
  lemma InertMessages(m: Model, p: Point, pane: nat)
    ensures UpdateModel(m, LeftMousePress(p)) == m
    ensures UpdateModel(m, ArrowPressed) == m
    ensures UpdateModel(m, PaneReleased(pane)) == m
    ensures UpdateModel(m, Tick) == m
    ensures UpdateModel(m, None) == m
  {
  }

  /** Both click flags are 0 or 1. */
  ghost predicate FlagsBinary(m: Model) {
    (m.mouseClick.x == 0.0 || m.mouseClick.x == 1.0) && (m.mouseClick.y == 0.0 || m.mouseClick.y == 1.0)
  }

  /** The state after handling some messages in order. */
  function Run(m: Model, messages: seq<Message>): Model
    decreases |messages|
  {
    if messages == [] then m else Run(UpdateModel(m, messages[0]), messages[1..])
  }

  /** From the initial state, over any messages, both click flags stay 0 or 1. */
  lemma {:induction false} FlagsStayBinary(m: Model, messages: seq<Message>)
    requires FlagsBinary(m)
    ensures FlagsBinary(Run(m, messages))
    decreases |messages|
  {
    if messages != [] {
      assert FlagsBinary(UpdateModel(m, messages[0]));
      FlagsStayBinary(UpdateModel(m, messages[0]), messages[1..]);
    }
  }

  /** The initial state starts with binary flags. */
  lemma InitFlagsBinary()
    ensures FlagsBinary(Init())
    ensures forall messages :: FlagsBinary(Run(Init(), messages))
  {
    forall messages ensures FlagsBinary(Run(Init(), messages)) {
      FlagsStayBinary(Init(), messages);
    }
  }

  // ---------------------------------------------------------------------------
  // Keyboard and global events

  /** `handle_hotkey`: an arrow key is `ArrowPressed`, any other key nothing. */
  function HandleHotkey(keyCode: KeyCode): (r: Wrappers.Option<Message>)
    ensures r.Some? <==> keyCode in {ArrowLeft, ArrowRight, ArrowUp, ArrowDown}
    ensures r.Some? ==> r.value == ArrowPressed
  {
    match keyCode
    case ArrowLeft => Wrappers.Some(ArrowPressed)
    case ArrowRight => Wrappers.Some(ArrowPressed)
    case ArrowUp => Wrappers.Some(ArrowPressed)
    case ArrowDown => Wrappers.Some(ArrowPressed)
    case _ => Wrappers.None
  }

  /**
   * The filter `subscription` installs on every shell event; the event's
   * capture status is not consulted.
   */
  function SubscriptionFilter(event: Event, status: Status): Wrappers.Option<Message> {
    match event
    case Keyboard(KeyPressed(keyCode, modifiers)) =>
      if modifiers.command || modifiers.shift || modifiers.alt then HandleHotkey(keyCode) else Wrappers.None
    case Mouse(ButtonReleased(Left)) => Wrappers.Some(LeftMouseReleaseGeneral)
    case Mouse(ButtonReleased(Right)) => Wrappers.Some(RightMouseReleaseGeneral)
    case _ => Wrappers.None
  }

  /**
   * A key press yields a message only for an arrow key held with command,
   * shift or alt; a left or right release anywhere yields the general
   * release message; every other event, and every capture status, yields
   * nothing else.
   */
  lemma SubscriptionFilterCases(event: Event, status: Status)
    ensures var r := SubscriptionFilter(event, status);
      && (r.Some? <==>
            || event == Mouse(ButtonReleased(Left))
            || event == Mouse(ButtonReleased(Right))
            || (&& event.Keyboard? && event.keyboard.KeyPressed?
                && (event.keyboard.modifiers.command || event.keyboard.modifiers.shift || event.keyboard.modifiers.alt)
                && event.keyboard.keyCode in {ArrowLeft, ArrowRight, ArrowUp, ArrowDown}))
      && (event == Mouse(ButtonReleased(Left)) ==> r == Wrappers.Some(LeftMouseReleaseGeneral))
      && (event == Mouse(ButtonReleased(Right)) ==> r == Wrappers.Some(RightMouseReleaseGeneral))
      && (event.Keyboard? ==> r == Wrappers.None || r == Wrappers.Some(ArrowPressed))
      && r == SubscriptionFilter(event, if status == Ignored then Captured else Ignored)
  {
  }

  // ---------------------------------------------------------------------------
  // The canvas program

  /** An event delivered to a canvas program (`canvas::Event`). */
  datatype CanvasEvent = CanvasMouse(mouse: MouseEvent) | CanvasTouch(touch: TouchEvent) | CanvasKeyboard(keyboard: KeyboardEvent)

  /**
   * `Uniform::update`, where `cursorPosition` is the cursor's position
   * relative to the bounds when it lies inside them.
   */
  function UniformUpdate(event: CanvasEvent, cursorPosition: Wrappers.Option<Point>): (Status, Wrappers.Option<Message>) {
    if cursorPosition.None? then (Ignored, Wrappers.None)
    else
      var position := cursorPosition.value;
      match event
      case CanvasTouch(FingerMoved(_)) => (Ignored, Wrappers.None)
      case CanvasMouse(ButtonPressed(button)) =>
        var message := match button
          case Left => Wrappers.Some(LeftMousePress(position))
          case Right => Wrappers.Some(RightMousePress(position))
          case _ => Wrappers.None;
        (Captured, message)
      case CanvasMouse(ButtonReleased(button)) =>
        var message := match button
          case Left => Wrappers.Some(LeftMouseRelease(position))
          case Right => Wrappers.Some(RightMouseRelease(position))
          case _ => Wrappers.None;
        (Captured, message)
      case CanvasMouse(CursorMoved(_)) => (Ignored, Wrappers.None)
      case CanvasMouse(WheelScrolled(_)) => (Ignored, Wrappers.None)
      case CanvasMouse(_) => (Ignored, Wrappers.None)
      case _ => (Ignored, Wrappers.None)
  }

  /** Outside the bounds every event is ignored and yields nothing. */
  lemma UniformIgnoresOutside(event: CanvasEvent)
    ensures UniformUpdate(event, Wrappers.None) == (Ignored, Wrappers.None)
  {
  }

  /**
   * Inside the bounds an event is captured exactly when it is a button
   * press or release; a left or right button then yields the matching
   * message carrying the cursor position and any other button nothing; an
   * event that is not captured yields nothing.
   */
  lemma UniformInside(event: CanvasEvent, position: Point)
    ensures var (status, message) := UniformUpdate(event, Wrappers.Some(position));
      && (status == Captured <==> event.CanvasMouse? && (event.mouse.ButtonPressed? || event.mouse.ButtonReleased?))
      && (status == Ignored ==> message == Wrappers.None)
      && (event == CanvasMouse(ButtonPressed(Left)) ==> message == Wrappers.Some(LeftMousePress(position)))
      && (event == CanvasMouse(ButtonPressed(Right)) ==> message == Wrappers.Some(RightMousePress(position)))
      && (event == CanvasMouse(ButtonReleased(Left)) ==> message == Wrappers.Some(LeftMouseRelease(position)))
      && (event == CanvasMouse(ButtonReleased(Right)) ==> message == Wrappers.Some(RightMouseRelease(position)))
      && (status == Captured && message == Wrappers.None <==>
            event.CanvasMouse? && (event.mouse.ButtonPressed? || event.mouse.ButtonReleased?)
            && event.mouse.button !in {Left, Right})
  {
  }

  /**
   * A press and release on the canvas feed `update` consistently: a right
   * press then a right release inside the canvas leave the `y` flag 0.
   */
  lemma CanvasRightClickRoundTrip(m: Model, position: Point)
    ensures var (_, press) := UniformUpdate(CanvasMouse(ButtonPressed(Right)), Wrappers.Some(position));
      var (_, release) := UniformUpdate(CanvasMouse(ButtonReleased(Right)), Wrappers.Some(position));
      && press.Some? && release.Some?
      && UpdateModel(m, press.value).mouseClick.y == 1.0
      && UpdateModel(UpdateModel(m, press.value), release.value) == m.(mouseClick := Point(m.mouseClick.x, 0.0))
  {
  }
}
