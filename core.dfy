/** The conventional optional value, used for configured callbacks and message results. */
module Wrappers {
  datatype Option<+T> = None | Some(value: T)
}

/**
 * Primitive types of the UI toolkit that the shader-quad core consumes:
 * fixed-width integers, geometry, colours and time.
 *
 * Floating-point values (`f32`) are only copied around by the modelled code,
 * never computed with, so they are modelled as `real`.
 */
module Core {
  newtype u16 = x: int | 0 <= x < 0x1_0000
  newtype u32 = x: int | 0 <= x < 0x1_0000_0000
  newtype u64 = x: int | 0 <= x < 0x1_0000_0000_0000_0000

  /** A point on the screen (`iced_native::Point`). */
  datatype Point = Point(x: real, y: real)

  /** An axis-aligned rectangle (`iced_native::Rectangle<T>`). */
  datatype Rectangle<T> = Rectangle(x: T, y: T, width: T, height: T)

  /** A colour in linear RGBA (`iced_native::Color`). */
  datatype Color = Color(r: real, g: real, b: real, a: real)

  const BLACK: Color := Color(0.0, 0.0, 0.0, 1.0)

  /** `std::time::Duration`, counted in nanoseconds. */
  type Duration = nat

  /** `std::time::Instant`, a reading of a monotonic clock in nanoseconds. */
  type Instant = nat

  /**
   * `Instant - Instant`: the time elapsed from `earlier` to `later`,
   * saturating at zero when `earlier` is the later reading.
   */
  function Elapsed(later: Instant, earlier: Instant): (d: Duration)
    ensures earlier <= later ==> earlier + d == later
    ensures later < earlier ==> d == 0
  {
    if earlier <= later then later - earlier else 0
  }
}

/** The input events of the UI toolkit (`iced_native::event`, `mouse`, `keyboard`, `touch`). */
module Events {
  import opened Core

  /** Whether a widget consumed an event (`event::Status`). */
  datatype Status = Ignored | Captured

  datatype MouseButton = Left | Right | Middle | Other(code: u16)

  datatype ScrollDelta = Lines(x: real, y: real) | Pixels(x: real, y: real)

  datatype MouseEvent =
    | CursorEntered
    | CursorLeft
    | CursorMoved(position: Point)
    | ButtonPressed(button: MouseButton)
    | ButtonReleased(button: MouseButton)
    | WheelScrolled(delta: ScrollDelta)

  /** The cursor shape a widget asks for (`mouse::Interaction`); `Idle` is the default. */
  datatype Interaction = Idle | Pointer | Grab | Text | Crosshair | Working | Grabbing

  datatype KeyCode = ArrowLeft | ArrowRight | ArrowUp | ArrowDown | OtherKey(code: nat)

  /**
   * The modifier keys held, as the three queries `command()`, `shift()` and
   * `alt()` report them (`command` is the platform's main modifier).
   */
  datatype Modifiers = Modifiers(command: bool, shift: bool, alt: bool)

  datatype KeyboardEvent =
    | KeyPressed(keyCode: KeyCode, modifiers: Modifiers)
    | KeyReleased(keyCode: KeyCode, modifiers: Modifiers)
    | CharacterReceived(c: char)
    | ModifiersChanged(modifiers: Modifiers)

  datatype TouchEvent =
    | FingerPressed(position: Point)
    | FingerMoved(position: Point)
    | FingerLifted(position: Point)
    | FingerLost(position: Point)

  /** A window event; its content is never inspected by the modelled code. */
  datatype WindowEvent = Resized(width: u32, height: u32) | CloseRequested | Focused | Unfocused

  /** An event delivered by the shell (`iced_native::Event`). */
  datatype Event =
    | Keyboard(keyboard: KeyboardEvent)
    | Mouse(mouse: MouseEvent)
    | Window(window: WindowEvent)
    | Touch(touch: TouchEvent)
}
