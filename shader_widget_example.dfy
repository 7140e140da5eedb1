/**
 * The shader-widget example application: a shader quad that starts a
 * stopwatch while hovered, stops it when left, and forwards the accumulated
 * time to the widget on every tick.
 *
 * The clock is a parameter: `Instant::now()` in the hover handler is the
 * `clock` reading passed to `Update`. The shader's absolute path, built from
 * the working directory, is passed to the constructor.
 */
module ShaderWidgetExample {
  import opened Wrappers
  import opened Core
  import Shader
  import W = WgslShaderQuadWidget

  datatype Direction = Leaving | Entering

  datatype Message = Tick(now: Instant) | HoveredShader(dir: Direction) | PressedShader

  /** Whether the stopwatch runs, and when it last ticked. */
  datatype TickState = Idle | Ticking(lastTick: Instant)

  /** One millisecond, in the nanoseconds `Duration` counts. */
  const MILLISECOND: Duration := 1000000

  /** The period of the tick subscription: 10 ms. */
  const TICK_PERIOD: Duration := 10 * MILLISECOND

  /** The application's state as a value. */
  datatype Model = Model(durationSinceLastClick: Duration, customShaderQuad: W.WgslShaderQuad<Message>, state: TickState)

  /**
   * The state `new` builds: a 200 x 200 quad on the shader file, publishing
   * `PressedShader` on a click and `HoveredShader` on entering and leaving;
   * the stopwatch idle at zero.
   */
  function Init(hasher: Shader.Hasher, shaderPath: Shader.PathBuf): (m: Model)
    ensures m.state == Idle && m.durationSinceLastClick == 0
    ensures m.customShaderQuad.onPress == Some(PressedShader)
    ensures m.customShaderQuad.onHoverEntering == Some(HoveredShader(Entering))
    ensures m.customShaderQuad.onHoverLeaving == Some(HoveredShader(Leaving))
    ensures m.customShaderQuad.width == 200.0 && m.customShaderQuad.height == 200.0
    ensures m.customShaderQuad.handle == Shader.FromContent(hasher, Shader.Path(shaderPath))
    ensures m.customShaderQuad.time == m.durationSinceLastClick
  {
    var quad := W.New(Shader.FromContent(hasher, Shader.Path(shaderPath)), 200.0, 200.0);
    var quad := W.OnPress(quad, PressedShader);
    var quad := W.OnHoverEntering(quad, HoveredShader(Entering));
    var quad := W.OnHoverLeaving(quad, HoveredShader(Leaving));
    Model(0, quad, Idle)
  }

  /** `update` as a function of the state, the message and the clock reading taken while handling it. */
  function Next(m: Model, message: Message, clock: Instant): Model {
    match message
    case Tick(now) =>
      if m.state.Ticking? then
        var duration := m.durationSinceLastClick + Elapsed(now, m.state.lastTick);
        Model(duration, W.SetTime(m.customShaderQuad, duration), Ticking(now))
      else m
    case HoveredShader(Entering) => m.(state := Ticking(clock))
    case HoveredShader(Leaving) => m.(state := Idle)
    case PressedShader => m
  }

  /** `subscription`: nothing while idle, a tick every 10 ms while the stopwatch runs. */
  function Subscription(state: TickState): (every: Option<Duration>)
    ensures every == None <==> state == Idle
    ensures every != None ==> every.value == TICK_PERIOD && TICK_PERIOD == 10 * MILLISECOND
  {
    match state
    case Idle => None
    case Ticking(_) => Some(TICK_PERIOD)
  }

  class Example {
    var durationSinceLastClick: Duration
    var customShaderQuad: W.WgslShaderQuad<Message>
    var state: TickState

    function Snapshot(): Model
      reads this
    {
      Model(durationSinceLastClick, customShaderQuad, state)
    }

    /** `Example::new`. */
    constructor (hasher: Shader.Hasher, shaderPath: Shader.PathBuf)
      ensures Snapshot() == Init(hasher, shaderPath)
    {
      var quad := W.New(Shader.FromContent(hasher, Shader.Path(shaderPath)), 200.0, 200.0);
      quad := W.OnPress(quad, PressedShader);
      quad := W.OnHoverEntering(quad, HoveredShader(Entering));
      quad := W.OnHoverLeaving(quad, HoveredShader(Leaving));
      durationSinceLastClick := 0;
      customShaderQuad := quad;
      state := Idle;
    }

    /** `Example::update`, where `clock` is the reading of `Instant::now()`. */
    method Update(message: Message, clock: Instant)
      modifies this
      ensures Snapshot() == Next(old(Snapshot()), message, clock)
    {
      match message {
        case Tick(now) =>
          if state.Ticking? {
            durationSinceLastClick := durationSinceLastClick + Elapsed(now, state.lastTick);
            state := Ticking(now);
            customShaderQuad := W.SetTime(customShaderQuad, durationSinceLastClick);
          }
        case HoveredShader(dir) =>
          match dir {
            case Entering => state := Ticking(clock);
            case Leaving => state := Idle;
          }
        case PressedShader =>
      }
    }
  }

  // ---------------------------------------------------------------------------
  // Properties of `update`

  /** A tick while idle changes nothing. */
  lemma TickWhileIdle(m: Model, now: Instant, clock: Instant)
    requires m.state == Idle
    ensures Next(m, Tick(now), clock) == m
  {
  }

  /**
   * A tick at `now` while ticking since `last` (no earlier than it) adds
   * `now - last` to the duration, restarts the stopwatch at `now`, and hands
   * the new duration to the widget; nothing else changes.
   */
  lemma TickWhileTicking(m: Model, last: Instant, now: Instant, clock: Instant)
    requires m.state == Ticking(last) && last <= now
    ensures var m' := Next(m, Tick(now), clock);
      && m'.durationSinceLastClick == m.durationSinceLastClick + (now - last)
      && m'.state == Ticking(now)
      && m'.customShaderQuad == m.customShaderQuad.(time := m'.durationSinceLastClick)
  {
  }

  /** Entering restarts the stopwatch at the current clock reading, even when it already runs; the duration is kept. */
  lemma EnteringStartsTicking(m: Model, clock: Instant)
    ensures Next(m, HoveredShader(Entering), clock) == m.(state := Ticking(clock))
    ensures Subscription(Next(m, HoveredShader(Entering), clock).state) == Some(TICK_PERIOD)
  {
  }

  /** Leaving stops the stopwatch and keeps the duration; a press changes nothing. */
  lemma LeavingAndPressing(m: Model, clock: Instant)
    ensures Next(m, HoveredShader(Leaving), clock) == m.(state := Idle)
    ensures Subscription(Next(m, HoveredShader(Leaving), clock).state) == None
    ensures Next(m, PressedShader, clock) == m
  {
  }

  /** The widget shows the accumulated duration. */
  ghost predicate Synced(m: Model) {
    m.customShaderQuad.time == m.durationSinceLastClick
  }

  /** Every message keeps the widget's time equal to the accumulated duration, and never lowers it. */
  lemma NextKeepsSynced(m: Model, message: Message, clock: Instant)
    requires Synced(m)
    ensures Synced(Next(m, message, clock))
    ensures Next(m, message, clock).durationSinceLastClick >= m.durationSinceLastClick
  {
  }

  /** A message together with the clock reading taken while handling it. */
  datatype Delivery = Delivery(message: Message, clock: Instant)

  /** The state after handling some messages in order. */
  function Run(m: Model, deliveries: seq<Delivery>): Model
    decreases |deliveries|
  {
    if deliveries == [] then m
    else Run(Next(m, deliveries[0].message, deliveries[0].clock), deliveries[1..])
  }

  /**
   * Over any sequence of messages the duration never decreases, and the
   * widget's time always equals it.
   */
  lemma {:induction false} RunKeepsSynced(m: Model, deliveries: seq<Delivery>)
    requires Synced(m)
    ensures Synced(Run(m, deliveries))
    ensures Run(m, deliveries).durationSinceLastClick >= m.durationSinceLastClick
    decreases |deliveries|
  {
    if deliveries != [] {
      NextKeepsSynced(m, deliveries[0].message, deliveries[0].clock);
      RunKeepsSynced(Next(m, deliveries[0].message, deliveries[0].clock), deliveries[1..]);
    }
  }

  /**
   * Hovering at time `t0` and ticking at `t1 >= t0` then `t2 >= t1` adds
   * exactly the hovered time `t2 - t0` to the duration.
   */
  lemma HoverThenTwoTicks(m: Model, t0: Instant, t1: Instant, t2: Instant)
    requires t0 <= t1 <= t2
    ensures var deliveries := [Delivery(HoveredShader(Entering), t0), Delivery(Tick(t1), t1), Delivery(Tick(t2), t2)];
      && Run(m, deliveries).durationSinceLastClick == m.durationSinceLastClick + (t2 - t0)
      && Run(m, deliveries).state == Ticking(t2)
  {
    var deliveries := [Delivery(HoveredShader(Entering), t0), Delivery(Tick(t1), t1), Delivery(Tick(t2), t2)];
    var m1 := Next(m, HoveredShader(Entering), t0);
    var m2 := Next(m1, Tick(t1), t1);
    var m3 := Next(m2, Tick(t2), t2);
    assert deliveries[1..][1..][1..] == [];
    assert Run(m, deliveries) == Run(m1, deliveries[1..]) == Run(m2, deliveries[1..][1..]) == m3;
  }
}
