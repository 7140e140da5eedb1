# Custom shader quads for iced, modelled in Dafny

This project models the custom-shader-quad feature of an iced fork. A widget
draws a user-supplied WGSL fragment shader on a rectangle. It feeds the
shader the cursor, the press and hover state, and an elapsed time. The wgpu
backend draws instances in chunks of at most 100 000. It compiles the shader
of each chunk's first instance the first time that id is seen, and caches it
by id.

The modules follow the source files:

- `Core` and `Events` (core.dfy) hold the shared vocabulary: integer widths,
  points, rectangles, colours, `Duration`/`Instant` as natural numbers, and
  the toolkit's mouse, keyboard, touch and window events. `Wrappers` holds
  `Option`.
- `Shader` (shader.dfy) models `native/src/shader.rs`: handles identified by
  a hash of their content. The hasher is a pair of functions given by the
  caller.
- `Renderer` (renderer.dfy) models the `BorderRadius` conversions, the
  default `Style` and the `CustomShaderQuad` primitive of
  `native/src/renderer.rs`.
- `LayerQuad` (layer_quad.dfy) models the projection in
  `graphics/src/layer/custom_shader_quad.rs`. It drops the shader code from
  a quad record.
- `WgslShaderQuadWidget` (widget.dfy) models
  `native/src/widget/wgsl_shader_quad.rs`. It covers:
  - the 3-bit mouse-state encoding;
  - the by-value builders;
  - the mouse interaction;
  - the primitive recorded by `draw`;
  - `on_event`, as a method over a `Tree` that holds the state and a `Shell`
    that collects published messages. The method is proved equal to the
    pure transition function `Step`, and sequences of events are folded by
    `Run`.
- `CustomShaderQuadPipeline` (pipeline.dfy) models
  `wgpu/src/custom_shader_quad.rs`. The class `Pipeline` holds the bound
  render pipeline and the shader-module cache. A `CommandEncoder` is the log
  of uniform writes, instance uploads and indexed draws. `Draw` runs the
  source's `while i < total` loop and is proved to record exactly
  `DrawCommands`, the log built from the batch plan `PlanBatches`. GPU
  modules and pipelines are tokens that record what they were built from.
- `ShaderWidgetExample` (shader_widget_example.dfy) models the hover
  stopwatch of `examples/shader_widget/src/main.rs`.
- `CustomQuadExample` (custom_quad_example.dfy) models
  `examples/custom_shader_quad/src/main.rs`:
  - `update` on the radii and click flags;
  - `handle_hotkey`;
  - the global event filter;
  - the canvas program's `update`.

A left release outside the bounds while `LeftPressed` is captured but leaves
the state `LeftPressed` (`WgslShaderQuadWidget.ReleaseOutsideKeepsPressed`).
A later left release inside then commits the click, even when the press
before it was made outside. This is recorded under "## Findings".

The doc comment on `mouse_click` (native/src/renderer.rs:78-83) says 1 means
hover, 2 a left click and 3 a right click. The value the widget actually
sends is `encode`'s bit set: hovered alone is 4, a held left button alone 1
and a held right button alone 2, with the hover bit added to a press
(`WgslShaderQuadWidget.KnownEncodings`, `WgslShaderQuadWidget.Encode`). The
model follows the code.

## Model

| member | source | states |
|---|---|---|
| Core.Elapsed | examples/shader_widget/src/main.rs:98 | `now - last_tick` is the time from the earlier to the later reading, and zero when the clock reading is earlier (saturating `Instant` subtraction) |
| Shader.FromContent | native/src/shader.rs:30-51 | a handle keeps its content unchanged and its id is the hash of the path or of the in-memory code |
| Shader.Id | native/src/shader.rs:23-28 | `id()` is the value handle equality compares: equal to another handle's id exactly when the two handles are equal |
| Shader.EqualContentsEqualHandles | native/src/shader.rs:30-51 | handles built from equal contents are equal, whatever the hasher |
| Shader.EqIgnoresContent | native/src/shader.rs:17-21 | equality looks at the id only: two handles with one id and different contents are equal |
| Shader.EqIsEquivalence | native/src/shader.rs:17-21 | handle equality is reflexive, symmetric and transitive |
| Shader.EqualHandlesHashEqually | native/src/shader.rs:53-57 | hashing feeds the id alone, so equal handles hash equally under any hasher |
| Shader.Eq | native/src/shader.rs:17-21 | handle equality; `Shader.Id`, `Shader.EqIgnoresContent` and `Shader.EqIsEquivalence` state what it compares and that it is an equivalence |
| Shader.HashFeed | native/src/shader.rs:53-57 | what `Hash` feeds the hasher: the id alone; `Shader.EqualHandlesHashEqually` states the consequence |
| Renderer.DefaultBorderRadius | native/src/renderer.rs:97-98 | the default border radius is zero on all four corners |
| Renderer.FromRadius | native/src/renderer.rs:100-104 | a single radius gives all four corners that radius |
| Renderer.FromCorners | native/src/renderer.rs:106-110 | the four-corner conversion; `Renderer.CornersRoundTrip` and `Renderer.BorderRadiusRoundTrip` state that it and `ToCorners` are inverse |
| Renderer.ToCorners | native/src/renderer.rs:112-116 | the conversion back to an array; inverse of `FromCorners` by the two round-trip lemmas |
| Renderer.CornersRoundTrip | native/src/renderer.rs:106-116 | array to border radius to array is the identity |
| Renderer.BorderRadiusRoundTrip | native/src/renderer.rs:106-116 | border radius to array to border radius is the identity |
| Renderer.FromRadiusAgreesWithCorners | native/src/renderer.rs:100-110 | a uniform radius equals the four-corner radius with every corner equal to it |
| Renderer.DefaultStyle | native/src/renderer.rs:125-131 | the default style has black text (0, 0, 0, 1) |
| LayerQuad.FromWithCode | graphics/src/layer/custom_shader_quad.rs:42-57 | every field except the shader code is copied unchanged |
| LayerQuad.ProjectionInvertsWithCode | graphics/src/layer/custom_shader_quad.rs:42-57 | projecting a record with any code attached gives the record back |
| LayerQuad.WithCodeInvertsProjection | graphics/src/layer/custom_shader_quad.rs:42-57 | re-attaching the dropped code rebuilds the original record, so nothing but the code is lost |
| LayerQuad.ProjectionForgetsOnlyCode | graphics/src/layer/custom_shader_quad.rs:42-57 | two records project to the same value if and only if they differ at most in their shader code |
| WgslShaderQuadWidget.NewState | native/src/widget/wgsl_shader_quad.rs:121-133 | a fresh state is not pressed and not hovered |
| WgslShaderQuadWidget.Encode | native/src/widget/wgsl_shader_quad.rs:34-46 | the encoding is below 8, never has bits 0 and 1 both set, and bit 0 / bit 1 / bit 2 are set exactly when left-pressed / right-pressed / hovered |
| WgslShaderQuadWidget.DecodeEncode | native/src/widget/wgsl_shader_quad.rs:34-46 | decoding an encoded state gives the state back |
| WgslShaderQuadWidget.EncodeDecode | native/src/widget/wgsl_shader_quad.rs:34-46 | every decodable word is the encoding of its decoding |
| WgslShaderQuadWidget.EncodeInjective | native/src/widget/wgsl_shader_quad.rs:34-46 | distinct states have distinct encodings |
| WgslShaderQuadWidget.KnownEncodings | native/src/widget/wgsl_shader_quad.rs:34-46 | (left, hovered) = 5, (right, hovered) = 6, (none, not hovered) = 0, (none, hovered) = 4, (left, not hovered) = 1, (right, not hovered) = 2 |
| WgslShaderQuadWidget.New | native/src/widget/wgsl_shader_quad.rs:57-69 | a new widget has no messages configured, the given size and handle, padding 5 and time zero |
| WgslShaderQuadWidget.SetWidth | native/src/widget/wgsl_shader_quad.rs:72-75 | `width`; `BuildersChangeOnlyTheirField` states it changes the width alone |
| WgslShaderQuadWidget.SetHeight | native/src/widget/wgsl_shader_quad.rs:78-81 | `height`; `BuildersChangeOnlyTheirField` states it changes the height alone |
| WgslShaderQuadWidget.SetPadding | native/src/widget/wgsl_shader_quad.rs:84-87 | `padding`; `BuildersChangeOnlyTheirField` states it changes the padding alone |
| WgslShaderQuadWidget.SetHandle | native/src/widget/wgsl_shader_quad.rs:90-93 | `handle`; `BuildersChangeOnlyTheirField` states it changes the handle alone |
| WgslShaderQuadWidget.SetTime | native/src/widget/wgsl_shader_quad.rs:96-98 | `set_time`; `BuildersChangeOnlyTheirField` states it changes the time alone |
| WgslShaderQuadWidget.OnPress | native/src/widget/wgsl_shader_quad.rs:103-106 | `on_press`; `BuildersChangeOnlyTheirField` states it sets the press message alone |
| WgslShaderQuadWidget.OnHoverLeaving | native/src/widget/wgsl_shader_quad.rs:109-112 | `on_hover_leaving`; `BuildersChangeOnlyTheirField` states it sets the leaving message alone |
| WgslShaderQuadWidget.OnHoverEntering | native/src/widget/wgsl_shader_quad.rs:115-118 | `on_hover_entering`; `BuildersChangeOnlyTheirField` states it sets the entering message alone |
| WgslShaderQuadWidget.BuildersChangeOnlyTheirField | native/src/widget/wgsl_shader_quad.rs:71-118 | each builder and `set_time` replaces its own field and leaves every other field unchanged |
| WgslShaderQuadWidget.MouseInteraction | native/src/widget/wgsl_shader_quad.rs:165-180 | the cursor is a pointer exactly when it is inside and a press message is configured, and the default otherwise |
| WgslShaderQuadWidget.DrawPrimitive | native/src/widget/wgsl_shader_quad.rs:263-294 | the recorded primitive's `mouse_click` decodes back to the widget state; bounds, cursor, handle and time are copied and the frame number is 1 |
| WgslShaderQuadWidget.Step | native/src/widget/wgsl_shader_quad.rs:182-261 | `on_event` as a transition on values; its cases are stated by `LeftPress`, `LeftReleaseWhilePressed`, `LeftReleaseOtherwise`, `RightPress`, `RightRelease`, `CursorMove` and `UnhandledIgnored`, and `OnEvent` is proved equal to it |
| WgslShaderQuadWidget.OnEvent | native/src/widget/wgsl_shader_quad.rs:182-261 | the new state, the returned status and the messages appended to the shell are those of `Step` |
| WgslShaderQuadWidget.StepPublishesAtMostOne | native/src/widget/wgsl_shader_quad.rs:182-261 | one event publishes at most one message; an ignored event changes nothing and publishes nothing |
| WgslShaderQuadWidget.UnhandledIgnored | native/src/widget/wgsl_shader_quad.rs:257-260 | any event other than a left/right press or release or a cursor move is ignored and changes nothing |
| WgslShaderQuadWidget.LeftPress | native/src/widget/wgsl_shader_quad.rs:195-204 | a left press is captured and sets LeftPressed exactly when a press message is configured and the cursor is inside; otherwise it is ignored with the state unchanged |
| WgslShaderQuadWidget.LeftReleaseWhilePressed | native/src/widget/wgsl_shader_quad.rs:215-226 | a left release while LeftPressed with a press message is captured; inside, it resets the state and publishes the press message once; outside, it keeps the state and publishes nothing |
| WgslShaderQuadWidget.LeftReleaseOtherwise | native/src/widget/wgsl_shader_quad.rs:215-226 | a left release without a press message or not LeftPressed is ignored and changes nothing |
| WgslShaderQuadWidget.RightPress | native/src/widget/wgsl_shader_quad.rs:206-213 | a right press inside sets RightPressed from any state, LeftPressed included, and is captured; outside it is ignored |
| WgslShaderQuadWidget.RightRelease | native/src/widget/wgsl_shader_quad.rs:228-235 | a right release acts only from RightPressed: it resets the state, publishes nothing and is captured |
| WgslShaderQuadWidget.CursorMove | native/src/widget/wgsl_shader_quad.rs:237-256 | hover turns on only with an entering message (publishing it), turns off only with a leaving message (publishing it), and otherwise stays put with the event ignored |
| WgslShaderQuadWidget.HoverFollowsCursor | native/src/widget/wgsl_shader_quad.rs:237-256 | with both hover messages configured, the hover flag after a cursor move is whether the cursor is inside |
| WgslShaderQuadWidget.RunPublishesAtMostOnePerEvent | native/src/widget/wgsl_shader_quad.rs:182-261 | over any event sequence, no more messages are published than events delivered |
| WgslShaderQuadWidget.NoHoverWithoutEntering | native/src/widget/wgsl_shader_quad.rs:241-247 | without an entering message, a non-hovered widget never becomes hovered and bit 2 of its encoding stays clear |
| WgslShaderQuadWidget.NoLeftPressWithoutOnPress | native/src/widget/wgsl_shader_quad.rs:195-204 | without a press message, a widget not LeftPressed never becomes LeftPressed |
| WgslShaderQuadWidget.ClickScenario | native/src/widget/wgsl_shader_quad.rs:182-261 | hover in, press and release inside, hover out: publishes entering, press, leaving once each and ends in the fresh state |
| WgslShaderQuadWidget.ReleaseOutsideKeepsPressed | native/src/widget/wgsl_shader_quad.rs:215-226 | a press inside released outside publishes nothing and leaves the widget LeftPressed |
| WgslShaderQuadWidget.ClickCommitsAfterReleaseOutside | native/src/widget/wgsl_shader_quad.rs:215-224 | press inside, release outside, press outside, release inside publishes the press message, although no press inside is pending at the last release |
| WgslShaderQuadWidget.StrictStep | native/src/widget/wgsl_shader_quad.rs:182-261 | the corrected `on_event`: a left release while LeftPressed ends the press wherever the cursor is and commits only inside; `StrictReleaseEndsPress` and `StrictClickNeedsPressInside` state it |
| WgslShaderQuadWidget.StrictReleaseEndsPress | native/src/widget/wgsl_shader_quad.rs:215-235 | with the correction, a left release while LeftPressed is captured and resets the button wherever the cursor is, as a right release does |
| WgslShaderQuadWidget.StrictLeftPressedOnlyWhilePending | native/src/widget/wgsl_shader_quad.rs:195-224 | with the correction, starting not LeftPressed, the widget is LeftPressed only while a left press inside has had no left release since |
| WgslShaderQuadWidget.StrictClickNeedsPressInside | native/src/widget/wgsl_shader_quad.rs:215-224 | with the correction, over any events, a left release publishes only the press message, only inside, and only when a press inside is pending |
| WgslShaderQuadWidget.StrictIgnoresClickAfterReleaseOutside | native/src/widget/wgsl_shader_quad.rs:215-224 | with the correction, the four events of `ClickCommitsAfterReleaseOutside` publish nothing at the last release |
| CustomShaderQuadPipeline.QuadIndicesInRange | wgpu/src/custom_shader_quad.rs:442-457 | the quad has six indices and four vertices, and every index names a vertex |
| CustomShaderQuadPipeline.MakePipeline | wgpu/src/custom_shader_quad.rs:178-250 | a render pipeline built from a shader module; `PipelineFollowsInserts` and `RebindingDrawsOwnShader` state which module each chunk's pipeline is built from |
| CustomShaderQuadPipeline.PlanBatches | wgpu/src/custom_shader_quad.rs:349-431 | every chunk lies inside the instances, is non-empty and holds at most `MAX_INSTANCES` instances |
| CustomShaderQuadPipeline.PlanLayout | wgpu/src/custom_shader_quad.rs:349-371 | a draw makes ceil(remaining / MAX_INSTANCES) chunks; chunk k starts at `i + k * MAX_INSTANCES`, ends `MAX_INSTANCES` later or at the total, and consults only the handle of its first instance |
| CustomShaderQuadPipeline.PlanChained | wgpu/src/custom_shader_quad.rs:349-371 | the chunks are consecutive and disjoint: the first starts at `i`, each starts where the previous ends, the last ends at the total |
| CustomShaderQuadPipeline.ChainedUploads | wgpu/src/custom_shader_quad.rs:370-384 | consecutive chunks upload exactly the records they cover, in order |
| CustomShaderQuadPipeline.UploadsCoverInstances | wgpu/src/custom_shader_quad.rs:370-384 | the uploads of a draw concatenate to `serializable_instances[i..total]` |
| CustomShaderQuadPipeline.BatchCommandsCounts | wgpu/src/custom_shader_quad.rs:349-431 | the chunk commands hold one draw per chunk and no uniform write |
| CustomShaderQuadPipeline.BatchCommands | wgpu/src/custom_shader_quad.rs:370-428 | the commands of the chunks; `CommandsLayout`, `CommandShapes`, `BatchCommandsCounts` and `UploadsCoverInstances` state their order, shapes, counts and uploaded records |
| CustomShaderQuadPipeline.CommandsLayout | wgpu/src/custom_shader_quad.rs:370-428 | chunk k becomes command 2k, the upload of its records at offset 0 with size amount × record size, then command 2k+1, a draw of indices 0..6 from base vertex 0 over instances 0..amount with the bound pipeline and the scissor |
| CustomShaderQuadPipeline.CommandShapes | wgpu/src/custom_shader_quad.rs:370-428 | every chunk command is an upload at offset 0 of 1 to `MAX_INSTANCES` whole records, or a draw of all six quad indices over 1 to `MAX_INSTANCES` instances |
| CustomShaderQuadPipeline.DrawLog | wgpu/src/custom_shader_quad.rs:322-433 | a draw writes the uniforms exactly once and first, records only that write when there are no instances, issues ceil(total / MAX_INSTANCES) draws, and uploads exactly `serializable_instances[..total]` |
| CustomShaderQuadPipeline.DrawCommands | wgpu/src/custom_shader_quad.rs:322-433 | the whole log of a draw; `DrawLog` states what it contains and `Pipeline.Draw` is proved to record it |
| CustomShaderQuadPipeline.PipelineFollowsInserts | wgpu/src/custom_shader_quad.rs:353-368 | a chunk rebinds exactly when its first shader was newly compiled, to that shader's pipeline; otherwise it draws with the pipeline bound before it |
| CustomShaderQuadPipeline.BoundAfterPlan | wgpu/src/custom_shader_quad.rs:353-368 | the pipeline left bound is the last chunk's, or the previous one when nothing is drawn |
| CustomShaderQuadPipeline.InsertedIffFirstSighting | wgpu/src/custom_shader_quad.rs:283-312 | a chunk compiles its first shader exactly when that id is neither cached at the start nor the first shader of an earlier chunk |
| CustomShaderQuadPipeline.CacheKeysAfterPlan | wgpu/src/custom_shader_quad.rs:283-312 | after a draw the cache keeps every old entry unchanged and gains exactly the ids of the chunks' first shaders |
| CustomShaderQuadPipeline.CacheHoldsCompiledHeads | wgpu/src/custom_shader_quad.rs:298-312 | each newly cached id maps to the module compiled from its chunk's shader source |
| CustomShaderQuadPipeline.AllCachedNoSwap | wgpu/src/custom_shader_quad.rs:353-368 | when every shader is cached already, a draw compiles nothing, never rebinds, and draws every chunk with the pipeline bound before it |
| CustomShaderQuadPipeline.StalePipelineAfterSwitchBack | wgpu/src/custom_shader_quad.rs:353-368 | drawing shader A, then B, then A again draws the third time with B's pipeline |
| CustomShaderQuadPipeline.MixedChunkDrawsWithFirstShader | wgpu/src/custom_shader_quad.rs:353-428 | one draw of an instance of shader A then one of shader B makes a single chunk, drawn with A's pipeline, and never compiles B |
| CustomShaderQuadPipeline.SameShaderEnd | wgpu/src/custom_shader_quad.rs:370 | the corrected chunk end: within the limit, every instance before it shares the first instance's shader id, and the instance at it (when below the limit) has another id |
| CustomShaderQuadPipeline.PlanRebinding | wgpu/src/custom_shader_quad.rs:349-431 | the corrected loop's chunks lie inside the instances, are non-empty and hold at most `MAX_INSTANCES` instances |
| CustomShaderQuadPipeline.RebindingDrawsOwnShader | wgpu/src/custom_shader_quad.rs:353-428 | with the corrected loop, every instance is drawn with the pipeline compiled from its own shader, whatever was cached and bound before, and the cache stays faithful |
| CustomShaderQuadPipeline.RebindingCoversInstances | wgpu/src/custom_shader_quad.rs:349-431 | the corrected loop's chunks still cover all instances consecutively without overlap, and a chunk ends short of `MAX_INSTANCES` only where the next instance has another shader |
| CustomShaderQuadPipeline.RebindingSplitsMixedChunk | wgpu/src/custom_shader_quad.rs:353-428 | the corrected loop draws A then B as two chunks, with A's and then B's pipeline, and compiles both |
| CustomShaderQuadPipeline.RebindingAfterSwitchBack | wgpu/src/custom_shader_quad.rs:353-368 | with rebinding, the A, B, A sequence draws the third time with A's pipeline |
| CustomShaderQuadPipeline.Pipeline.constructor | wgpu/src/custom_shader_quad.rs:164-176 | a new pipeline object binds the default shader's pipeline and has an empty cache |
| CustomShaderQuadPipeline.Pipeline.InsertShaderModule | wgpu/src/custom_shader_quad.rs:283-320 | returns true exactly when the id was absent; then inserts exactly that id with the compiled source, otherwise leaves the cache untouched; afterwards the id is cached and no key was lost, so a repeat call returns false |
| CustomShaderQuadPipeline.Pipeline.DrawChunk | wgpu/src/custom_shader_quad.rs:352-431 | one loop turn: the cache gains the chunk's first shader when absent, the pipeline is rebuilt only then, and an upload then a draw with the now-bound pipeline are recorded |
| CustomShaderQuadPipeline.Pipeline.Draw | wgpu/src/custom_shader_quad.rs:322-433 | the encoder receives exactly `DrawCommands` of the old cache and pipeline, and the cache and bound pipeline end as the batch plan says |
| ShaderWidgetExample.Init | examples/shader_widget/src/main.rs:65-85 | the stopwatch starts idle at zero; the 200 × 200 quad on the shader path has press, entering and leaving messages set and shows time zero |
| ShaderWidgetExample.Example.constructor | examples/shader_widget/src/main.rs:65-85 | the new application is in the state `Init` describes |
| ShaderWidgetExample.Example.Update | examples/shader_widget/src/main.rs:91-119 | the fields are updated in place to the state `Next` gives |
| ShaderWidgetExample.Subscription | examples/shader_widget/src/main.rs:142-149 | no subscription exactly when idle; a tick every 10 ms while ticking |
| ShaderWidgetExample.Next | examples/shader_widget/src/main.rs:91-119 | `update` as a transition on values; its cases are stated by `TickWhileIdle`, `TickWhileTicking`, `EnteringStartsTicking` and `LeavingAndPressing` |
| ShaderWidgetExample.TickWhileIdle | examples/shader_widget/src/main.rs:96-103 | a tick while idle changes nothing |
| ShaderWidgetExample.TickWhileTicking | examples/shader_widget/src/main.rs:96-103 | a tick at `now` after `last` adds `now - last`, restarts at `now`, and sets the widget time to the new duration |
| ShaderWidgetExample.EnteringStartsTicking | examples/shader_widget/src/main.rs:105-110 | hover entering starts ticking at the current clock reading, even if already ticking, keeps the duration, and turns the tick subscription on |
| ShaderWidgetExample.LeavingAndPressing | examples/shader_widget/src/main.rs:111-115 | hover leaving goes idle keeping the duration and turns the subscription off; a press changes nothing |
| ShaderWidgetExample.NextKeepsSynced | examples/shader_widget/src/main.rs:96-103 | every message keeps the widget time equal to the duration and never lowers the duration |
| ShaderWidgetExample.RunKeepsSynced | examples/shader_widget/src/main.rs:91-119 | over any message sequence the duration never decreases and the widget time stays equal to it |
| ShaderWidgetExample.HoverThenTwoTicks | examples/shader_widget/src/main.rs:96-110 | entering at t0 and ticking at t1 then t2 adds exactly t2 - t0 |
| CustomQuadExample.Init | examples/custom_shader_quad/src/main.rs:189-204 | radii 50 on all corners, border width 0, click flags (0, 0), default modifier keys and a zero uniform |
| CustomQuadExample.Example.constructor | examples/custom_shader_quad/src/main.rs:189-204 | the new application is in the state `Init` describes |
| CustomQuadExample.Example.Update | examples/custom_shader_quad/src/main.rs:210-274 | the fields are updated in place to the state `UpdateModel` gives |
| CustomQuadExample.UpdateModel | examples/custom_shader_quad/src/main.rs:210-274 | `update` as a transition on values; its cases are stated by `RadiusMessagesReplaceTheirCorner`, `MouseClickFlags` and `InertMessages` |
| CustomQuadExample.RadiusMessagesReplaceTheirCorner | examples/custom_shader_quad/src/main.rs:211-232 | each radius message replaces exactly its corner (TL 0, TR 1, BR 2, BL 3) and the border-width message only the width |
| CustomQuadExample.MouseClickFlags | examples/custom_shader_quad/src/main.rs:238-268 | x becomes 1 on a pane click and 0 on either left release; y becomes 1 on a right press and 0 on either right release; nothing else changes |
| CustomQuadExample.InertMessages | examples/custom_shader_quad/src/main.rs:234-270 | a left press, an arrow, a pane release, a tick and `None` leave the state unchanged |
| CustomQuadExample.FlagsStayBinary | examples/custom_shader_quad/src/main.rs:238-268 | when both click flags are 0 or 1, they stay 0 or 1 after any messages |
| CustomQuadExample.InitFlagsBinary | examples/custom_shader_quad/src/main.rs:189-274 | from the initial state, the click flags are 0 or 1 after any messages |
| CustomQuadExample.HandleHotkey | examples/custom_shader_quad/src/main.rs:403-412 | exactly the four arrow keys give `ArrowPressed`; every other key gives nothing |
| CustomQuadExample.SubscriptionFilter | examples/custom_shader_quad/src/main.rs:361-400 | the global event filter; `SubscriptionFilterCases` states which events give which message |
| CustomQuadExample.SubscriptionFilterCases | examples/custom_shader_quad/src/main.rs:361-400 | a message comes exactly from a left or right release (the general release messages) or an arrow key pressed with command, shift or alt; the capture status makes no difference |
| CustomQuadExample.UniformIgnoresOutside | examples/custom_shader_quad/src/main.rs:433-438 | outside the bounds every event is ignored with no message |
| CustomQuadExample.UniformUpdate | examples/custom_shader_quad/src/main.rs:421-483 | the canvas program's `update`; `UniformIgnoresOutside` and `UniformInside` state its results |
| CustomQuadExample.UniformInside | examples/custom_shader_quad/src/main.rs:440-482 | inside, exactly button presses and releases are captured; left and right give messages carrying the cursor position, other buttons none; ignored events give no message |
| CustomQuadExample.CanvasRightClickRoundTrip | examples/custom_shader_quad/src/main.rs:446-469 | a right press then release on the canvas sets the y flag to 1, then back to 0, and changes nothing else |

## Findings

| source | as written | input that shows it | evidently intended | confidence | as-written member | corrected member |
|---|---|---|---|---|---|---|
| wgpu/src/custom_shader_quad.rs:353-368 | the bound pipeline is rebuilt only when the chunk's first shader was newly compiled, so a chunk whose shader is already cached is drawn with whatever pipeline is bound | three draws on one pipeline object, with one instance of shader A, then one of B, then one of A (A and B with different ids and sources): the third is drawn with B's pipeline | every chunk is drawn with the pipeline of its own shader, never a stale one | medium, not executed | CustomShaderQuadPipeline.StalePipelineAfterSwitchBack | CustomShaderQuadPipeline.RebindingDrawsOwnShader |
| wgpu/src/custom_shader_quad.rs:353-428 | a chunk looks up only the shader of its first instance and draws all of its up to `MAX_INSTANCES` instances with that one pipeline | one draw of two instances, the first with shader A and the second with shader B (different ids and sources): one chunk, drawn with A's pipeline, and B is never compiled | instances with different shaders are never drawn by the same call, and each is drawn with its own shader's pipeline | medium, not executed | CustomShaderQuadPipeline.MixedChunkDrawsWithFirstShader | CustomShaderQuadPipeline.RebindingDrawsOwnShader |
| native/src/widget/wgsl_shader_quad.rs:215-224 | a left release outside while LeftPressed is captured but keeps LeftPressed, so a later release inside commits the click | press inside, release outside, press outside, release inside: the press message is published at the last release | a click commits only when its press and its release both land inside, and any left release ends the press, as a right release does (lines 231-233) | medium, not executed | WgslShaderQuadWidget.ClickCommitsAfterReleaseOutside | WgslShaderQuadWidget.StrictClickNeedsPressInside |

`Pipeline.Draw` models the loop as written. The corrected loop,
`PlanRebinding`, corrects both rows:
- It ends a chunk after `MAX_INSTANCES` instances or at the first instance
  with another shader (`SameShaderEnd`).
- It binds the pipeline of the chunk's module on every chunk.

It is proved for a reader that gives equal sources for equal ids:
- to draw every instance with its own shader's pipeline
  (`RebindingDrawsOwnShader`, `RebindingAfterSwitchBack`,
  `RebindingSplitsMixedChunk`);
- to still cover every instance once, in order (`RebindingCoversInstances`).

## Left out

- GPU resource creation is not modelled: `Pipeline::new`'s buffers, bind groups and layouts, `make_pipeline`'s descriptor, the staging belt, render passes and byte casting. Modules and pipelines are tokens naming what they were built from, and the encoder is a command log.
- `read_shader` is a total function supplied by the caller. File I/O and its three panics (missing file, unreadable file, invalid UTF-8) are outside the model. So is its use of a `path` field that `Handle` does not have.
- The hash algorithm of the toolkit's `Hasher` is a pair of caller-supplied functions.
- The `Debug` formatting of `ShaderContent` is not modelled.
- Floating point is modelled as `real`: f32 values are only copied, never computed on, in the modelled code. `Duration::as_secs_f32` is not modelled, and the widget primitive carries the `Duration` itself.
- The uniforms' matrix contents and their padding are not modelled.
- `Rectangle::contains` and `Cursor::position_in` are inputs: whether the cursor is inside, and the relative position when it is.
- `Instant::now()` is the `clock` parameter of `ShaderWidgetExample.Example.Update`. The shader path built from `current_dir` is a constructor parameter. `println!` is omitted.
- `Instant` subtraction saturates at zero, as current Rust does; older Rust panicked instead.
- Layout, `view`, themes, the pane grid's state, `responsive`, `Canvas::draw`, the example's `CustomQuad` widget and the background colour are not modelled.
- The `Renderer` trait's layering and `fill_quad` interface are not modelled.
- The WGSL shader sources are not modelled.
- `Modifiers::command()` is taken as already resolved for the platform (a boolean field).
- The wgpu code's `layer::CustomShaderQuadWithHandle` is modelled as the one field it consults, the shader handle. `layer::Quad`, which sizes the instance buffer and its vertex stride, is not part of this model.
- CustomShaderQuadPipeline.CommandShapes: bounds each upload by `MAX_INSTANCES` records of the uploaded `CustomShaderQuad` (92 bytes each), not by the `layer::Quad`-based size of the instance buffer, because `layer::Quad` is not part of this model.
- CustomShaderQuadPipeline.Pipeline.Draw: requires at least as many records as instances. The panic of the slice `serializable_instances[i..end]` (wgpu/src/custom_shader_quad.rs:374) when there are fewer is not modelled. Records beyond the last instance are allowed and never uploaded.
- The `bytemuck` `Pod`/`Zeroable` layout requirements are not modelled.
- The 32-bit conversions of the draw ranges (`as u32`) are not modelled: at most `MAX_INSTANCES` instances and six indices are ever passed, far below 2^32.
