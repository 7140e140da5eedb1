/**
 * The wgpu pipeline for custom-shader quads: a cache of compiled shader
 * modules keyed by shader id, the one render pipeline currently bound, and
 * the batched draw that uploads instance records and issues indexed draws.
 *
 * GPU objects are tokens: a shader module records the source it was compiled
 * from, a render pipeline the module it was built from. The command encoder
 * is a log of the buffer writes and draws recorded into it. Reading a
 * shader's source is a function supplied by the caller.
 */
module CustomShaderQuadPipeline {
  import opened Core
  import Shader
  import LayerQuad

  /** The largest number of instances uploaded and drawn by one draw call. */
  const MAX_INSTANCES: nat := 100000

  /** Two triangles over the four corners of the unit quad. */
  const QUAD_INDICES: seq<u16> := [0, 1, 2, 0, 2, 3]

  datatype Vertex = Vertex(position: seq<real>)

  const QUAD_VERTS: seq<Vertex> :=
    [Vertex([0.0, 0.0]), Vertex([1.0, 0.0]), Vertex([1.0, 1.0]), Vertex([0.0, 1.0])]

  /** The quad geometry is six indices, each naming one of the four vertices. */
  lemma QuadIndicesInRange()
    ensures |QUAD_INDICES| == 6 && |QUAD_VERTS| == 4
    ensures forall k :: 0 <= k < |QUAD_INDICES| ==> QUAD_INDICES[k] as int < |QUAD_VERTS|
  {
  }

  /** A compiled shader module: the built-in default shader, or one compiled from source text. */
  datatype ShaderModule = DefaultQuadShader | Compiled(source: string)

  /** A render pipeline, identified by the shader module it was built from. */
  datatype RenderPipeline = RenderPipeline(shaderModule: ShaderModule)

  /** `make_pipeline`: every pipeline shares layout, blending and topology; only the module differs. */
  function MakePipeline(shaderModule: ShaderModule): RenderPipeline {
    RenderPipeline(shaderModule)
  }

  /** The per-frame uniforms: the projection transform and the scale factor. */
  datatype Uniforms = Uniforms(transform: seq<real>, scale: real)

  /** `read_shader`: the source text of a handle's shader, which the model takes to be always readable. */
  type ShaderReader = Shader.Handle -> string

  /** An instance to draw, of which the pipeline consults only the shader handle. */
  datatype CustomShaderQuadWithHandle = CustomShaderQuadWithHandle(shaderHandle: Shader.Handle)

  /** A half-open range `start..end`. */
  datatype Range = Range(start: nat, end: nat)

  /** A command recorded into the encoder. */
  datatype Command =
    | WriteUniforms(uniforms: Uniforms)
    | UploadInstances(offset: nat, range: Range, records: seq<LayerQuad.CustomShaderQuad>, byteSize: nat)
    | DrawIndexed(pipeline: RenderPipeline, indices: Range, baseVertex: int, instances: Range, scissor: Rectangle<u32>)

  /** The command encoder, as the log of what has been recorded into it. */
  class CommandEncoder {
    var commands: seq<Command>

    constructor ()
      ensures commands == []
    {
      commands := [];
    }

    method Record(c: Command)
      modifies this
      ensures commands == old(commands) + [c]
    {
      commands := commands + [c];
    }
  }

  function Min(a: nat, b: nat): nat {
    if a <= b then a else b
  }

  // ---------------------------------------------------------------------------
  // The batch plan of `draw`

  /**
   * One iteration of the draw loop: the instance range `start..end`, the
   * handle of its first instance, whether that handle's module was newly
   * compiled, and the pipeline bound when the batch is drawn.
   */
  datatype Batch = Batch(start: nat, end: nat, head: Shader.Handle, inserted: bool, pipeline: RenderPipeline)

  /** The batches of a draw, and the cache and bound pipeline it leaves behind. */
  datatype Plan = Plan(batches: seq<Batch>, cache: map<u64, ShaderModule>, bound: RenderPipeline)

  /** Every batch lies inside `from..n`, is non-empty and holds at most `MAX_INSTANCES` instances. */
  ghost predicate BatchesWithin(batches: seq<Batch>, from: nat, n: nat) {
    forall k :: 0 <= k < |batches| ==>
      from <= batches[k].start < batches[k].end <= n && batches[k].end - batches[k].start <= MAX_INSTANCES
  }

  /** The number of instances from index `i` on. */
  function Remaining(i: nat, n: nat): nat {
    if i < n then n - i else 0
  }

  /**
   * The loop of `draw` from index `i` on: look the first instance's shader up
   * in the cache (compiling it when absent), rebuild the bound pipeline only
   * when it was newly compiled, and take the next `MAX_INSTANCES` instances.
   */
  function PlanBatches(cache: map<u64, ShaderModule>, bound: RenderPipeline, read: ShaderReader,
                       instances: seq<CustomShaderQuadWithHandle>, i: nat): (p: Plan)
    ensures BatchesWithin(p.batches, i, |instances|)
    decreases Remaining(i, |instances|)
  {
    if i >= |instances| then Plan([], cache, bound)
    else
      var head := instances[i].shaderHandle;
      var inserted := head.id !in cache;
      var cache' := if inserted then cache[head.id := Compiled(read(head))] else cache;
      var bound' := if inserted then MakePipeline(cache'[head.id]) else bound;
      var end := Min(i + MAX_INSTANCES, |instances|);
      var rest := PlanBatches(cache', bound', read, instances, i + MAX_INSTANCES);
      Plan([Batch(i, end, head, inserted, bound')] + rest.batches, rest.cache, rest.bound)
  }

  /** The commands recorded for some batches: per batch, an upload at offset 0 and one indexed draw. */
  function BatchCommands(batches: seq<Batch>, serial: seq<LayerQuad.CustomShaderQuad>, scissor: Rectangle<u32>): seq<Command>
    requires BatchesWithin(batches, 0, |serial|)
  {
    if batches == [] then []
    else
      var b := batches[0];
      var amount := b.end - b.start;
      [UploadInstances(0, Range(b.start, b.end), serial[b.start..b.end], amount * LayerQuad.CUSTOM_SHADER_QUAD_SIZE),
       DrawIndexed(b.pipeline, Range(0, |QUAD_INDICES|), 0, Range(0, amount), scissor)]
      + BatchCommands(batches[1..], serial, scissor)
  }

  lemma BatchesWithinWiden(batches: seq<Batch>, from: nat, n: nat, from': nat, n': nat)
    requires BatchesWithin(batches, from, n) && from' <= from && n <= n'
    ensures BatchesWithin(batches, from', n')
  {
  }

  /** One step of the plan: the batch at `i`, then the plan from `i + MAX_INSTANCES` with the updated cache and pipeline. */
  lemma PlanStep(cache: map<u64, ShaderModule>, bound: RenderPipeline, read: ShaderReader,
                 instances: seq<CustomShaderQuadWithHandle>, i: nat)
    requires i < |instances|
    ensures var head := instances[i].shaderHandle;
      var inserted := head.id !in cache;
      var cache' := if inserted then cache[head.id := Compiled(read(head))] else cache;
      var bound' := if inserted then MakePipeline(cache'[head.id]) else bound;
      var rest := PlanBatches(cache', bound', read, instances, i + MAX_INSTANCES);
      PlanBatches(cache, bound, read, instances, i) ==
        Plan([Batch(i, Min(i + MAX_INSTANCES, |instances|), head, inserted, bound')] + rest.batches, rest.cache, rest.bound)
  {
  }

  /** The commands of a first batch followed by the commands of the rest. */
  lemma CommandsStep(b: Batch, rest: seq<Batch>, serial: seq<LayerQuad.CustomShaderQuad>, scissor: Rectangle<u32>)
    requires b.start < b.end <= |serial|
    requires BatchesWithin([b] + rest, 0, |serial|)
    ensures BatchesWithin(rest, 0, |serial|)
    ensures BatchCommands([b] + rest, serial, scissor) ==
      [UploadInstances(0, Range(b.start, b.end), serial[b.start..b.end], (b.end - b.start) * LayerQuad.CUSTOM_SHADER_QUAD_SIZE),
       DrawIndexed(b.pipeline, Range(0, |QUAD_INDICES|), 0, Range(0, b.end - b.start), scissor)]
      + BatchCommands(rest, serial, scissor)
  {
    assert ([b] + rest)[0] == b;
    assert ([b] + rest)[1..] == rest;
    forall k | 0 <= k < |rest| ensures 0 <= rest[k].start < rest[k].end <= |serial| && rest[k].end - rest[k].start <= MAX_INSTANCES {
      assert rest[k] == ([b] + rest)[k + 1];
    }
  }

  /**
   * One turn of the draw loop keeps its invariant: the commands recorded so
   * far followed by those of the remaining plan are the commands of the
   * whole plan, and the remaining plan ends in the same cache and pipeline.
   */
  lemma AdvancePlan(cache: map<u64, ShaderModule>, bound: RenderPipeline, read: ShaderReader,
                    instances: seq<CustomShaderQuadWithHandle>, i: nat,
                    serial: seq<LayerQuad.CustomShaderQuad>, scissor: Rectangle<u32>, done: seq<Command>)
    requires i < |instances| <= |serial|
    ensures var head := instances[i].shaderHandle;
      var cache' := if head.id !in cache then cache[head.id := Compiled(read(head))] else cache;
      var bound' := if head.id !in cache then MakePipeline(cache'[head.id]) else bound;
      var end := Min(i + MAX_INSTANCES, |instances|);
      var before := PlanBatches(cache, bound, read, instances, i);
      var after := PlanBatches(cache', bound', read, instances, i + MAX_INSTANCES);
      && after.cache == before.cache && after.bound == before.bound
      && done + [UploadInstances(0, Range(i, end), serial[i..end], (end - i) * LayerQuad.CUSTOM_SHADER_QUAD_SIZE)]
         + [DrawIndexed(bound', Range(0, |QUAD_INDICES|), 0, Range(0, end - i), scissor)]
         + BatchCommands(after.batches, serial, scissor)
         == done + BatchCommands(before.batches, serial, scissor)
  {
    var head := instances[i].shaderHandle;
    var cache' := if head.id !in cache then cache[head.id := Compiled(read(head))] else cache;
    var bound' := if head.id !in cache then MakePipeline(cache'[head.id]) else bound;
    var end := Min(i + MAX_INSTANCES, |instances|);
    var before := PlanBatches(cache, bound, read, instances, i);
    var after := PlanBatches(cache', bound', read, instances, i + MAX_INSTANCES);
    PlanStep(cache, bound, read, instances, i);
    var batch := Batch(i, end, head, head.id !in cache, bound');
    assert before.batches == [batch] + after.batches;
    CommandsStep(batch, after.batches, serial, scissor);
    var u := UploadInstances(0, Range(i, end), serial[i..end], (end - i) * LayerQuad.CUSTOM_SHADER_QUAD_SIZE);
    var d := DrawIndexed(bound', Range(0, |QUAD_INDICES|), 0, Range(0, end - i), scissor);
    var tail := BatchCommands(after.batches, serial, scissor);
    assert done + [u] + [d] + tail == done + ([u, d] + tail);
  }

  // ---------------------------------------------------------------------------
  // What the plan looks like

  /**
   * The plan from index `i` cuts the remaining instances into
   * ceil(remaining / MAX_INSTANCES) chunks; chunk `k` starts at
   * `i + k * MAX_INSTANCES`, ends `MAX_INSTANCES` later or at the last
   * instance, and consults the handle of its first instance only.
   */
  lemma {:induction false} PlanLayout(cache: map<u64, ShaderModule>, bound: RenderPipeline, read: ShaderReader,
                                      instances: seq<CustomShaderQuadWithHandle>, i: nat)
    ensures var p := PlanBatches(cache, bound, read, instances, i);
      && |p.batches| == (Remaining(i, |instances|) + MAX_INSTANCES - 1) / MAX_INSTANCES
      && forall k :: 0 <= k < |p.batches| ==>
           && p.batches[k].start == i + k * MAX_INSTANCES
           && p.batches[k].end == Min(i + k * MAX_INSTANCES + MAX_INSTANCES, |instances|)
           && p.batches[k].head == instances[p.batches[k].start].shaderHandle
    decreases Remaining(i, |instances|)
  {
    var n := |instances|;
    if i < n {
      PlanStep(cache, bound, read, instances, i);
      var head := instances[i].shaderHandle;
      var cache' := if head.id !in cache then cache[head.id := Compiled(read(head))] else cache;
      var bound' := if head.id !in cache then MakePipeline(cache'[head.id]) else bound;
      PlanLayout(cache', bound', read, instances, i + MAX_INSTANCES);
      var p := PlanBatches(cache, bound, read, instances, i);
      var rest := PlanBatches(cache', bound', read, instances, i + MAX_INSTANCES);
      assert p.batches == [p.batches[0]] + rest.batches;
      if i + MAX_INSTANCES < n {
        assert Remaining(i, n) == Remaining(i + MAX_INSTANCES, n) + MAX_INSTANCES;
      } else {
        assert 1 <= Remaining(i, n) <= MAX_INSTANCES;
      }
      forall k | 1 <= k < |p.batches|
        ensures p.batches[k].start == i + k * MAX_INSTANCES
      {
        assert p.batches[k] == rest.batches[k - 1];
        assert i + MAX_INSTANCES + (k - 1) * MAX_INSTANCES == i + k * MAX_INSTANCES;
      }
    }
  }

  // ---------------------------------------------------------------------------
  // What the command log of a draw contains

  /** The records uploaded by a command log, concatenated in the order of the uploads. */
  function UploadedRecords(cmds: seq<Command>): seq<LayerQuad.CustomShaderQuad> {
    if cmds == [] then []
    else (if cmds[0].UploadInstances? then cmds[0].records else []) + UploadedRecords(cmds[1..])
  }

  /** The number of draw calls in a command log. */
  function DrawCount(cmds: seq<Command>): nat {
    if cmds == [] then 0
    else (if cmds[0].DrawIndexed? then 1 else 0) + DrawCount(cmds[1..])
  }

  /** The number of uniform writes in a command log. */
  function UniformWrites(cmds: seq<Command>): nat {
    if cmds == [] then 0
    else (if cmds[0].WriteUniforms? then 1 else 0) + UniformWrites(cmds[1..])
  }

  /** The counting functions over a log split at any point. */
  lemma {:induction false} LogAppend(a: seq<Command>, b: seq<Command>)
    ensures UploadedRecords(a + b) == UploadedRecords(a) + UploadedRecords(b)
    ensures DrawCount(a + b) == DrawCount(a) + DrawCount(b)
    ensures UniformWrites(a + b) == UniformWrites(a) + UniformWrites(b)
  {
    if a == [] {
      assert a + b == b;
    } else {
      assert (a + b)[0] == a[0];
      assert (a + b)[1..] == a[1..] + b;
      LogAppend(a[1..], b);
    }
  }

  /** A log of batches holds one draw per batch and no uniform write. */
  lemma {:induction false} BatchCommandsCounts(batches: seq<Batch>, serial: seq<LayerQuad.CustomShaderQuad>, scissor: Rectangle<u32>)
    requires BatchesWithin(batches, 0, |serial|)
    ensures DrawCount(BatchCommands(batches, serial, scissor)) == |batches|
    ensures UniformWrites(BatchCommands(batches, serial, scissor)) == 0
  {
    if batches != [] {
      var b := batches[0];
      var amount := b.end - b.start;
      var head := [UploadInstances(0, Range(b.start, b.end), serial[b.start..b.end], amount * LayerQuad.CUSTOM_SHADER_QUAD_SIZE),
                   DrawIndexed(b.pipeline, Range(0, |QUAD_INDICES|), 0, Range(0, amount), scissor)];
      var tail := BatchCommands(batches[1..], serial, scissor);
      assert BatchCommands(batches, serial, scissor) == head + tail;
      BatchCommandsCounts(batches[1..], serial, scissor);
      LogAppend(head, tail);
      assert head[1..][1..] == [];
    }
  }

  /**
   * Batch `k` becomes commands `2k` and `2k + 1`: the upload of its records
   * at offset 0, then one indexed draw of all quad indices with the batch's
   * pipeline, `end - start` instances and the scissor rectangle.
   */
  lemma {:induction false} CommandsLayout(batches: seq<Batch>, serial: seq<LayerQuad.CustomShaderQuad>, scissor: Rectangle<u32>)
    requires BatchesWithin(batches, 0, |serial|)
    ensures var cmds := BatchCommands(batches, serial, scissor);
      && |cmds| == 2 * |batches|
      && forall k :: 0 <= k < |batches| ==>
           && cmds[2 * k] == UploadInstances(0, Range(batches[k].start, batches[k].end),
                                             serial[batches[k].start..batches[k].end],
                                             (batches[k].end - batches[k].start) * LayerQuad.CUSTOM_SHADER_QUAD_SIZE)
           && cmds[2 * k + 1] == DrawIndexed(batches[k].pipeline, Range(0, |QUAD_INDICES|), 0,
                                             Range(0, batches[k].end - batches[k].start), scissor)
  {
    if batches != [] {
      var b := batches[0];
      var amount := b.end - b.start;
      var head := [UploadInstances(0, Range(b.start, b.end), serial[b.start..b.end], amount * LayerQuad.CUSTOM_SHADER_QUAD_SIZE),
                   DrawIndexed(b.pipeline, Range(0, |QUAD_INDICES|), 0, Range(0, amount), scissor)];
      var tail := BatchCommands(batches[1..], serial, scissor);
      var cmds := BatchCommands(batches, serial, scissor);
      assert cmds == head + tail;
      CommandsLayout(batches[1..], serial, scissor);
      forall k | 1 <= k < |batches|
        ensures cmds[2 * k] == tail[2 * (k - 1)] && cmds[2 * k + 1] == tail[2 * (k - 1) + 1]
      {
      }
      forall k | 1 <= k < |batches|
        ensures batches[k] == batches[1..][k - 1]
      {
      }
    }
  }

  /** The uploads of a first batch followed by those of the rest. */
  lemma UploadsStep(b: Batch, rest: seq<Batch>, serial: seq<LayerQuad.CustomShaderQuad>, scissor: Rectangle<u32>)
    requires b.start < b.end <= |serial|
    requires BatchesWithin([b] + rest, 0, |serial|)
    ensures BatchesWithin(rest, 0, |serial|)
    ensures UploadedRecords(BatchCommands([b] + rest, serial, scissor))
            == serial[b.start..b.end] + UploadedRecords(BatchCommands(rest, serial, scissor))
  {
    CommandsStep(b, rest, serial, scissor);
    var u := UploadInstances(0, Range(b.start, b.end), serial[b.start..b.end], (b.end - b.start) * LayerQuad.CUSTOM_SHADER_QUAD_SIZE);
    var d := DrawIndexed(b.pipeline, Range(0, |QUAD_INDICES|), 0, Range(0, b.end - b.start), scissor);
    LogAppend([u, d], BatchCommands(rest, serial, scissor));
    assert [u, d][1..][1..] == [];
  }

  /**
   * The batches cover `from..n` without gap or overlap: the first starts at
   * `from`, each next one starts where the previous one ends, and the last
   * ends at `n`.
   */
  ghost predicate Chained(batches: seq<Batch>, from: nat, n: nat)
    decreases |batches|
  {
    if batches == [] then from == n
    else batches[0].start == from && Chained(batches[1..], batches[0].end, n)
  }

  /** The plan from index `i` chains its chunks over `i..total`. */
  lemma {:induction false} PlanChained(cache: map<u64, ShaderModule>, bound: RenderPipeline, read: ShaderReader,
                                       instances: seq<CustomShaderQuadWithHandle>, i: nat)
    requires i <= |instances|
    ensures Chained(PlanBatches(cache, bound, read, instances, i).batches, i, |instances|)
    decreases Remaining(i, |instances|)
  {
    var n := |instances|;
    if i < n {
      var head := instances[i].shaderHandle;
      var cache' := if head.id !in cache then cache[head.id := Compiled(read(head))] else cache;
      var bound' := if head.id !in cache then MakePipeline(cache'[head.id]) else bound;
      var end := Min(i + MAX_INSTANCES, n);
      PlanStep(cache, bound, read, instances, i);
      var p := PlanBatches(cache, bound, read, instances, i);
      var rest := PlanBatches(cache', bound', read, instances, i + MAX_INSTANCES);
      assert p.batches[1..] == rest.batches;
      if end < n {
        PlanChained(cache', bound', read, instances, i + MAX_INSTANCES);
      }
    }
  }

  /** Chained batches upload exactly the records they cover, in order. */
  lemma {:induction false} ChainedUploads(batches: seq<Batch>, from: nat, n: nat,
                                          serial: seq<LayerQuad.CustomShaderQuad>, scissor: Rectangle<u32>)
    requires BatchesWithin(batches, 0, |serial|) && Chained(batches, from, n) && from <= n <= |serial|
    ensures UploadedRecords(BatchCommands(batches, serial, scissor)) == serial[from..n]
    decreases |batches|
  {
    if batches != [] {
      var b := batches[0];
      assert batches == [b] + batches[1..];
      UploadsStep(b, batches[1..], serial, scissor);
      ChainedEnd(batches[1..], b.end, n);
      ChainedUploads(batches[1..], b.end, n, serial, scissor);
      assert serial[from..b.end] + serial[b.end..n] == serial[from..n];
    }
  }

  /** A chain of non-empty batches ends no earlier than it starts. */
  lemma {:induction false} ChainedEnd(batches: seq<Batch>, from: nat, n: nat)
    requires Chained(batches, from, n) && forall k :: 0 <= k < |batches| ==> batches[k].start < batches[k].end
    ensures from <= n
    decreases |batches|
  {
    if batches != [] {
      ChainedEnd(batches[1..], batches[0].end, n);
    }
  }

  /**
   * The uploads of the plan from index `i` carry the records
   * `serial[i..total]`, each exactly once and in order.
   */
  lemma UploadsCoverInstances(cache: map<u64, ShaderModule>, bound: RenderPipeline, read: ShaderReader,
                              instances: seq<CustomShaderQuadWithHandle>, i: nat,
                              serial: seq<LayerQuad.CustomShaderQuad>, scissor: Rectangle<u32>)
    requires i <= |instances| <= |serial|
    ensures var p := PlanBatches(cache, bound, read, instances, i);
      BatchesWithin(p.batches, 0, |serial|)
      && UploadedRecords(BatchCommands(p.batches, serial, scissor)) == serial[i..|instances|]
  {
    var p := PlanBatches(cache, bound, read, instances, i);
    BatchesWithinWiden(p.batches, i, |instances|, 0, |serial|);
    PlanChained(cache, bound, read, instances, i);
    ChainedUploads(p.batches, i, |instances|, serial, scissor);
  }

  /**
   * Every command of a batch log is an upload at offset 0 of 1 to
   * `MAX_INSTANCES` whole records, or an indexed draw of all six quad
   * indices from vertex 0 over 1 to `MAX_INSTANCES` instances.
   */
  lemma CommandShapes(batches: seq<Batch>, serial: seq<LayerQuad.CustomShaderQuad>, scissor: Rectangle<u32>)
    requires BatchesWithin(batches, 0, |serial|)
    ensures var cmds := BatchCommands(batches, serial, scissor);
      forall j :: 0 <= j < |cmds| ==>
        || (&& cmds[j].UploadInstances? && cmds[j].offset == 0
            && 1 <= |cmds[j].records| <= MAX_INSTANCES
            && cmds[j].byteSize == |cmds[j].records| * LayerQuad.CUSTOM_SHADER_QUAD_SIZE)
        || (&& cmds[j].DrawIndexed? && cmds[j].indices == Range(0, |QUAD_INDICES|) && cmds[j].baseVertex == 0
            && cmds[j].instances.start == 0 && 1 <= cmds[j].instances.end <= MAX_INSTANCES)
  {
    var cmds := BatchCommands(batches, serial, scissor);
    CommandsLayout(batches, serial, scissor);
    forall j | 0 <= j < |cmds|
      ensures || (&& cmds[j].UploadInstances? && cmds[j].offset == 0
                  && 1 <= |cmds[j].records| <= MAX_INSTANCES
                  && cmds[j].byteSize == |cmds[j].records| * LayerQuad.CUSTOM_SHADER_QUAD_SIZE)
              || (&& cmds[j].DrawIndexed? && cmds[j].indices == Range(0, |QUAD_INDICES|) && cmds[j].baseVertex == 0
                  && cmds[j].instances.start == 0 && 1 <= cmds[j].instances.end <= MAX_INSTANCES)
    {
      var k := j / 2;
      assert 0 <= k < |batches|;
      if j % 2 == 0 {
        assert cmds[j] == cmds[2 * k];
      } else {
        assert cmds[j] == cmds[2 * k + 1];
      }
    }
  }

  /** The whole log of one draw: the uniform write, then the commands of every chunk. */
  function DrawCommands(cache: map<u64, ShaderModule>, bound: RenderPipeline, read: ShaderReader,
                        instances: seq<CustomShaderQuadWithHandle>, serial: seq<LayerQuad.CustomShaderQuad>,
                        uniforms: Uniforms, scissor: Rectangle<u32>): seq<Command>
    requires |instances| <= |serial|
  {
    [WriteUniforms(uniforms)] + BatchCommands(PlanBatches(cache, bound, read, instances, 0).batches, serial, scissor)
  }

  /**
   * What one draw records: the uniforms exactly once and first, even with no
   * instance; ceil(total / MAX_INSTANCES) draw calls; uploads that together
   * carry `serial[..total]` in order; and every other command an upload or
   * a draw of the shape `CommandShapes` states.
   */
  lemma DrawLog(cache: map<u64, ShaderModule>, bound: RenderPipeline, read: ShaderReader,
                instances: seq<CustomShaderQuadWithHandle>, serial: seq<LayerQuad.CustomShaderQuad>,
                uniforms: Uniforms, scissor: Rectangle<u32>)
    requires |instances| <= |serial|
    ensures var log := DrawCommands(cache, bound, read, instances, serial, uniforms, scissor);
      && log[0] == WriteUniforms(uniforms) && UniformWrites(log) == 1
      && DrawCount(log) == (|instances| + MAX_INSTANCES - 1) / MAX_INSTANCES
      && (|instances| == 0 <==> log == [WriteUniforms(uniforms)])
      && UploadedRecords(log) == serial[..|instances|]
      && forall j :: 1 <= j < |log| ==> log[j].UploadInstances? || log[j].DrawIndexed?
  {
    var p := PlanBatches(cache, bound, read, instances, 0);
    BatchesWithinWiden(p.batches, 0, |instances|, 0, |serial|);
    var cmds := BatchCommands(p.batches, serial, scissor);
    var log := DrawCommands(cache, bound, read, instances, serial, uniforms, scissor);
    PlanLayout(cache, bound, read, instances, 0);
    BatchCommandsCounts(p.batches, serial, scissor);
    CommandsLayout(p.batches, serial, scissor);
    UploadsCoverInstances(cache, bound, read, instances, 0, serial, scissor);
    CommandShapes(p.batches, serial, scissor);
    LogAppend([WriteUniforms(uniforms)], cmds);
    assert [WriteUniforms(uniforms)][1..] == [];
    forall j | 1 <= j < |log| ensures log[j].UploadInstances? || log[j].DrawIndexed? {
      assert log[j] == cmds[j - 1];
    }
  }

  // ---------------------------------------------------------------------------
  // Which pipeline each chunk is drawn with

  /** The pipeline bound when chunk `k` begins: the caller's for the first chunk, else the previous chunk's. */
  function BoundBefore(batches: seq<Batch>, k: nat, bound: RenderPipeline): RenderPipeline
    requires k <= |batches|
  {
    if k == 0 then bound else batches[k - 1].pipeline
  }

  /**
   * A chunk rebinds the pipeline exactly when its first shader was newly
   * compiled, to a pipeline built from that shader; otherwise it is drawn
   * with the pipeline the previous chunk (or, for the first, the caller)
   * left bound.
   */
  lemma {:induction false} PipelineFollowsInserts(cache: map<u64, ShaderModule>, bound: RenderPipeline, read: ShaderReader,
                                                  instances: seq<CustomShaderQuadWithHandle>, i: nat)
    ensures var b := PlanBatches(cache, bound, read, instances, i).batches;
      forall k :: 0 <= k < |b| ==>
        b[k].pipeline == if b[k].inserted then MakePipeline(Compiled(read(b[k].head))) else BoundBefore(b, k, bound)
    decreases Remaining(i, |instances|)
  {
    if i < |instances| {
      var head := instances[i].shaderHandle;
      var cache' := if head.id !in cache then cache[head.id := Compiled(read(head))] else cache;
      var bound' := if head.id !in cache then MakePipeline(cache'[head.id]) else bound;
      PlanStep(cache, bound, read, instances, i);
      PipelineFollowsInserts(cache', bound', read, instances, i + MAX_INSTANCES);
      var b := PlanBatches(cache, bound, read, instances, i).batches;
      var rest := PlanBatches(cache', bound', read, instances, i + MAX_INSTANCES).batches;
      var first := Batch(i, Min(i + MAX_INSTANCES, |instances|), head, head.id !in cache, bound');
      assert b == [first] + rest;
      forall k | 0 <= k < |b|
        ensures b[k].pipeline == if b[k].inserted then MakePipeline(Compiled(read(b[k].head))) else BoundBefore(b, k, bound)
      {
        if k > 0 {
          assert b[k] == rest[k - 1];
          if k > 1 {
            assert b[k - 1] == rest[k - 2];
          }
        }
      }
    }
  }

  /** The pipeline a draw leaves bound is the last chunk's, or the one bound before when nothing was drawn. */
  lemma {:induction false} BoundAfterPlan(cache: map<u64, ShaderModule>, bound: RenderPipeline, read: ShaderReader,
                                          instances: seq<CustomShaderQuadWithHandle>, i: nat)
    ensures var p := PlanBatches(cache, bound, read, instances, i);
      p.bound == if p.batches == [] then bound else p.batches[|p.batches| - 1].pipeline
    decreases Remaining(i, |instances|)
  {
    if i < |instances| {
      var head := instances[i].shaderHandle;
      var cache' := if head.id !in cache then cache[head.id := Compiled(read(head))] else cache;
      var bound' := if head.id !in cache then MakePipeline(cache'[head.id]) else bound;
      PlanStep(cache, bound, read, instances, i);
      BoundAfterPlan(cache', bound', read, instances, i + MAX_INSTANCES);
      var p := PlanBatches(cache, bound, read, instances, i);
      var rest := PlanBatches(cache', bound', read, instances, i + MAX_INSTANCES);
      var first := Batch(i, Min(i + MAX_INSTANCES, |instances|), head, head.id !in cache, bound');
      assert p.batches == [first] + rest.batches;
      if rest.batches != [] {
        assert p.batches[|p.batches| - 1] == rest.batches[|rest.batches| - 1];
      }
    }
  }

  /** The ids of the first shaders of some chunks. */
  ghost function HeadIds(batches: seq<Batch>): set<u64> {
    set k | 0 <= k < |batches| :: batches[k].head.id
  }

  /** The first shaders of a first chunk and the chunks after it. */
  lemma HeadIdsCons(b: Batch, rest: seq<Batch>)
    ensures HeadIds([b] + rest) == {b.head.id} + HeadIds(rest)
  {
    var all := [b] + rest;
    assert all[0] == b;
    forall id | id in HeadIds(all) ensures id in {b.head.id} + HeadIds(rest) {
      var k :| 0 <= k < |all| && all[k].head.id == id;
      if k > 0 {
        assert all[k] == rest[k - 1];
      }
    }
    forall id | id in HeadIds(rest) ensures id in HeadIds(all) {
      var k :| 0 <= k < |rest| && rest[k].head.id == id;
      assert all[k + 1] == rest[k];
    }
  }

  /**
   * A chunk compiles its first shader exactly when that shader's id is
   * neither in the cache the draw started with nor the first shader of an
   * earlier chunk.
   */
  lemma {:induction false} InsertedIffFirstSighting(cache: map<u64, ShaderModule>, bound: RenderPipeline, read: ShaderReader,
                                                    instances: seq<CustomShaderQuadWithHandle>, i: nat)
    ensures var b := PlanBatches(cache, bound, read, instances, i).batches;
      forall k :: 0 <= k < |b| ==> (b[k].inserted <==> b[k].head.id !in cache.Keys + HeadIds(b[..k]))
    decreases Remaining(i, |instances|)
  {
    if i < |instances| {
      var head := instances[i].shaderHandle;
      var cache' := if head.id !in cache then cache[head.id := Compiled(read(head))] else cache;
      var bound' := if head.id !in cache then MakePipeline(cache'[head.id]) else bound;
      PlanStep(cache, bound, read, instances, i);
      InsertedIffFirstSighting(cache', bound', read, instances, i + MAX_INSTANCES);
      var b := PlanBatches(cache, bound, read, instances, i).batches;
      var rest := PlanBatches(cache', bound', read, instances, i + MAX_INSTANCES).batches;
      assert b[0].head == head;
      assert b[..0] == [];
      assert cache'.Keys == cache.Keys + {head.id};
      forall k | 1 <= k < |b|
        ensures b[k].inserted <==> b[k].head.id !in cache.Keys + HeadIds(b[..k])
      {
        assert b[k] == rest[k - 1];
        assert b[..k] == [b[0]] + rest[..k - 1];
        HeadIdsCons(b[0], rest[..k - 1]);
      }
    }
  }

  /**
   * The cache a draw leaves behind keeps every entry it had and gains
   * exactly the ids of the chunks' first shaders.
   */
  lemma {:induction false} CacheKeysAfterPlan(cache: map<u64, ShaderModule>, bound: RenderPipeline, read: ShaderReader,
                                              instances: seq<CustomShaderQuadWithHandle>, i: nat)
    ensures var p := PlanBatches(cache, bound, read, instances, i);
      && p.cache.Keys == cache.Keys + HeadIds(p.batches)
      && (forall id :: id in cache ==> p.cache[id] == cache[id])
    decreases Remaining(i, |instances|)
  {
    if i < |instances| {
      var head := instances[i].shaderHandle;
      var cache' := if head.id !in cache then cache[head.id := Compiled(read(head))] else cache;
      var bound' := if head.id !in cache then MakePipeline(cache'[head.id]) else bound;
      PlanStep(cache, bound, read, instances, i);
      CacheKeysAfterPlan(cache', bound', read, instances, i + MAX_INSTANCES);
      var p := PlanBatches(cache, bound, read, instances, i);
      var rest := PlanBatches(cache', bound', read, instances, i + MAX_INSTANCES);
      HeadIdsCons(p.batches[0], rest.batches);
      assert p.batches == [p.batches[0]] + rest.batches;
    }
  }

  /** Each newly compiled id ends up mapped to the module compiled from its chunk's first shader. */
  lemma {:induction false} CacheHoldsCompiledHeads(cache: map<u64, ShaderModule>, bound: RenderPipeline, read: ShaderReader,
                                                   instances: seq<CustomShaderQuadWithHandle>, i: nat)
    ensures var p := PlanBatches(cache, bound, read, instances, i);
      forall k :: 0 <= k < |p.batches| && p.batches[k].inserted ==>
        p.batches[k].head.id in p.cache && p.cache[p.batches[k].head.id] == Compiled(read(p.batches[k].head))
    decreases Remaining(i, |instances|)
  {
    if i < |instances| {
      var head := instances[i].shaderHandle;
      var cache' := if head.id !in cache then cache[head.id := Compiled(read(head))] else cache;
      var bound' := if head.id !in cache then MakePipeline(cache'[head.id]) else bound;
      PlanStep(cache, bound, read, instances, i);
      CacheHoldsCompiledHeads(cache', bound', read, instances, i + MAX_INSTANCES);
      CacheKeysAfterPlan(cache', bound', read, instances, i + MAX_INSTANCES);
      var p := PlanBatches(cache, bound, read, instances, i);
      var rest := PlanBatches(cache', bound', read, instances, i + MAX_INSTANCES);
      assert p.batches[0].head == head;
      forall k | 1 <= k < |p.batches| && p.batches[k].inserted
        ensures p.batches[k].head.id in p.cache && p.cache[p.batches[k].head.id] == Compiled(read(p.batches[k].head))
      {
        assert p.batches[k] == rest.batches[k - 1];
      }
    }
  }

  /**
   * When every instance's shader is already compiled, a draw compiles
   * nothing, never rebinds, and draws every chunk with the pipeline bound
   * before it.
   */
  lemma {:induction false} AllCachedNoSwap(cache: map<u64, ShaderModule>, bound: RenderPipeline, read: ShaderReader,
                                           instances: seq<CustomShaderQuadWithHandle>, i: nat)
    requires forall j :: i <= j < |instances| ==> instances[j].shaderHandle.id in cache
    ensures var p := PlanBatches(cache, bound, read, instances, i);
      && p.cache == cache && p.bound == bound
      && forall k :: 0 <= k < |p.batches| ==> !p.batches[k].inserted && p.batches[k].pipeline == bound
    decreases Remaining(i, |instances|)
  {
    if i < |instances| {
      PlanStep(cache, bound, read, instances, i);
      AllCachedNoSwap(cache, bound, read, instances, i + MAX_INSTANCES);
      var p := PlanBatches(cache, bound, read, instances, i);
      var rest := PlanBatches(cache, bound, read, instances, i + MAX_INSTANCES);
      forall k | 1 <= k < |p.batches|
        ensures p.batches[k] == rest.batches[k - 1]
      {
      }
    }
  }

  // ---------------------------------------------------------------------------
  // Chunks drawn with a pipeline that is not their shader's

  /**
   * As written, three draws on one pipeline object with shaders A, B, then A
   * again draw the third with B's pipeline: A is cached by then, so nothing
   * is rebuilt and B's pipeline stays bound.
   */
  lemma StalePipelineAfterSwitchBack(read: ShaderReader, a: Shader.Handle, b: Shader.Handle)
    requires a.id != b.id && read(a) != read(b)
    ensures var first := PlanBatches(map[], MakePipeline(DefaultQuadShader), read, [CustomShaderQuadWithHandle(a)], 0);
      var second := PlanBatches(first.cache, first.bound, read, [CustomShaderQuadWithHandle(b)], 0);
      var third := PlanBatches(second.cache, second.bound, read, [CustomShaderQuadWithHandle(a)], 0);
      && |third.batches| == 1 && third.batches[0].head == a
      && third.batches[0].pipeline == MakePipeline(Compiled(read(b)))
      && third.batches[0].pipeline != MakePipeline(Compiled(read(a)))
  {
    var first := PlanBatches(map[], MakePipeline(DefaultQuadShader), read, [CustomShaderQuadWithHandle(a)], 0);
    PlanStep(map[], MakePipeline(DefaultQuadShader), read, [CustomShaderQuadWithHandle(a)], 0);
    var second := PlanBatches(first.cache, first.bound, read, [CustomShaderQuadWithHandle(b)], 0);
    PlanStep(first.cache, first.bound, read, [CustomShaderQuadWithHandle(b)], 0);
    assert second.bound == MakePipeline(Compiled(read(b)));
    PlanStep(second.cache, second.bound, read, [CustomShaderQuadWithHandle(a)], 0);
  }

  /** The reader gives equal sources for handles with equal ids. */
  ghost predicate ReadById(read: ShaderReader) {
    forall h1: Shader.Handle, h2: Shader.Handle :: Shader.Eq(h1, h2) ==> read(h1) == read(h2)
  }

  /** Every cached module is the one compiled from the source of any handle with that id. */
  ghost predicate CacheMatches(cache: map<u64, ShaderModule>, read: ShaderReader) {
    forall h: Shader.Handle :: h.id in cache ==> cache[h.id] == Compiled(read(h))
  }

  /**
   * As written, one draw of an instance with shader A followed by one with
   * shader B makes a single chunk: only A is looked up and compiled, and B's
   * instance is drawn with A's pipeline.
   */
  lemma MixedChunkDrawsWithFirstShader(read: ShaderReader, a: Shader.Handle, b: Shader.Handle)
    requires a.id != b.id && read(a) != read(b)
    ensures var p := PlanBatches(map[], MakePipeline(DefaultQuadShader), read,
                                 [CustomShaderQuadWithHandle(a), CustomShaderQuadWithHandle(b)], 0);
      && |p.batches| == 1 && p.batches[0].start == 0 && p.batches[0].end == 2
      && p.batches[0].pipeline == MakePipeline(Compiled(read(a)))
      && p.batches[0].pipeline != MakePipeline(Compiled(read(b)))
      && b.id !in p.cache
  {
    PlanStep(map[], MakePipeline(DefaultQuadShader), read,
             [CustomShaderQuadWithHandle(a), CustomShaderQuadWithHandle(b)], 0);
  }

  /**
   * The end of the run of instances that share the shader id of
   * `instances[i]`, scanning from `j` and stopping at `limit`.
   */
  function SameShaderEnd(instances: seq<CustomShaderQuadWithHandle>, i: nat, j: nat, limit: nat): (e: nat)
    requires i < j <= limit <= |instances|
    requires forall k :: i <= k < j ==> instances[k].shaderHandle.id == instances[i].shaderHandle.id
    ensures j <= e <= limit
    ensures forall k :: i <= k < e ==> instances[k].shaderHandle.id == instances[i].shaderHandle.id
    ensures e < limit ==> instances[e].shaderHandle.id != instances[i].shaderHandle.id
    decreases limit - j
  {
    if j < limit && instances[j].shaderHandle.id == instances[i].shaderHandle.id then
      SameShaderEnd(instances, i, j + 1, limit)
    else j
  }

  /**
   * The evidently intended loop: a chunk ends after `MAX_INSTANCES`
   * instances or at the first instance with another shader; its shader is
   * compiled when absent, and the pipeline of its module is bound in every
   * case.
   */
  function PlanRebinding(cache: map<u64, ShaderModule>, bound: RenderPipeline, read: ShaderReader,
                         instances: seq<CustomShaderQuadWithHandle>, i: nat): (p: Plan)
    ensures BatchesWithin(p.batches, i, |instances|)
    decreases Remaining(i, |instances|)
  {
    if i >= |instances| then Plan([], cache, bound)
    else
      var head := instances[i].shaderHandle;
      var inserted := head.id !in cache;
      var cache' := if inserted then cache[head.id := Compiled(read(head))] else cache;
      var bound' := MakePipeline(cache'[head.id]);
      var end := SameShaderEnd(instances, i, i + 1, Min(i + MAX_INSTANCES, |instances|));
      var rest := PlanRebinding(cache', bound', read, instances, end);
      Plan([Batch(i, end, head, inserted, bound')] + rest.batches, rest.cache, rest.bound)
  }

  /**
   * With the corrected loop, every instance is drawn with the pipeline of its
   * own shader, whatever was bound before, starting from a faithful cache,
   * and the cache stays faithful.
   */
  lemma {:induction false} RebindingDrawsOwnShader(cache: map<u64, ShaderModule>, bound: RenderPipeline, read: ShaderReader,
                                                   instances: seq<CustomShaderQuadWithHandle>, i: nat)
    requires ReadById(read) && CacheMatches(cache, read)
    ensures var p := PlanRebinding(cache, bound, read, instances, i);
      && CacheMatches(p.cache, read)
      && (forall k :: 0 <= k < |p.batches| ==> p.batches[k].pipeline == MakePipeline(Compiled(read(p.batches[k].head))))
      && forall k, j :: 0 <= k < |p.batches| && p.batches[k].start <= j < p.batches[k].end ==>
           p.batches[k].pipeline == MakePipeline(Compiled(read(instances[j].shaderHandle)))
    decreases Remaining(i, |instances|)
  {
    if i < |instances| {
      var head := instances[i].shaderHandle;
      var cache' := if head.id !in cache then cache[head.id := Compiled(read(head))] else cache;
      var bound' := MakePipeline(cache'[head.id]);
      var end := SameShaderEnd(instances, i, i + 1, Min(i + MAX_INSTANCES, |instances|));
      assert CacheMatches(cache', read) by {
        forall h: Shader.Handle | h.id in cache' ensures cache'[h.id] == Compiled(read(h)) {
          if h.id == head.id && head.id !in cache {
            assert Shader.Eq(h, head);
          }
        }
      }
      RebindingDrawsOwnShader(cache', bound', read, instances, end);
      var p := PlanRebinding(cache, bound, read, instances, i);
      var rest := PlanRebinding(cache', bound', read, instances, end);
      assert p.batches[0] == Batch(i, end, head, head.id !in cache, bound');
      assert bound' == MakePipeline(Compiled(read(head)));
      forall j | i <= j < end
        ensures bound' == MakePipeline(Compiled(read(instances[j].shaderHandle)))
      {
        assert Shader.Eq(instances[j].shaderHandle, head);
      }
      forall k | 1 <= k < |p.batches|
        ensures p.batches[k] == rest.batches[k - 1]
      {
      }
    }
  }

  /**
   * The corrected loop still draws every instance exactly once, in order,
   * and ends a chunk short of `MAX_INSTANCES` only where the shader changes.
   */
  lemma {:induction false} RebindingCoversInstances(cache: map<u64, ShaderModule>, bound: RenderPipeline, read: ShaderReader,
                                                    instances: seq<CustomShaderQuadWithHandle>, i: nat)
    requires i <= |instances|
    ensures var p := PlanRebinding(cache, bound, read, instances, i);
      && Chained(p.batches, i, |instances|)
      && forall k :: 0 <= k < |p.batches| && p.batches[k].end < |instances|
                     && p.batches[k].end - p.batches[k].start < MAX_INSTANCES ==>
           instances[p.batches[k].end].shaderHandle.id != instances[p.batches[k].start].shaderHandle.id
    decreases Remaining(i, |instances|)
  {
    if i < |instances| {
      var head := instances[i].shaderHandle;
      var cache' := if head.id !in cache then cache[head.id := Compiled(read(head))] else cache;
      var bound' := MakePipeline(cache'[head.id]);
      var end := SameShaderEnd(instances, i, i + 1, Min(i + MAX_INSTANCES, |instances|));
      RebindingCoversInstances(cache', bound', read, instances, end);
      var p := PlanRebinding(cache, bound, read, instances, i);
      var rest := PlanRebinding(cache', bound', read, instances, end);
      assert p.batches[0] == Batch(i, end, head, head.id !in cache, bound');
      assert p.batches[1..] == rest.batches;
      forall k | 1 <= k < |p.batches|
        ensures p.batches[k] == rest.batches[k - 1]
      {
      }
    }
  }

  /** The corrected loop splits the mixed draw of A then B into one chunk per shader. */
  lemma RebindingSplitsMixedChunk(read: ShaderReader, a: Shader.Handle, b: Shader.Handle)
    requires ReadById(read) && a.id != b.id
    ensures var p := PlanRebinding(map[], MakePipeline(DefaultQuadShader), read,
                                   [CustomShaderQuadWithHandle(a), CustomShaderQuadWithHandle(b)], 0);
      && |p.batches| == 2
      && p.batches[0].pipeline == MakePipeline(Compiled(read(a)))
      && p.batches[1].pipeline == MakePipeline(Compiled(read(b)))
      && a.id in p.cache && b.id in p.cache
  {
    var instances := [CustomShaderQuadWithHandle(a), CustomShaderQuadWithHandle(b)];
    RebindingDrawsOwnShader(map[], MakePipeline(DefaultQuadShader), read, instances, 0);
    RebindingCoversInstances(map[], MakePipeline(DefaultQuadShader), read, instances, 0);
    var p := PlanRebinding(map[], MakePipeline(DefaultQuadShader), read, instances, 0);
    assert SameShaderEnd(instances, 0, 1, 2) == 1;
    var cacheA := map[a.id := Compiled(read(a))];
    var rest := PlanRebinding(cacheA, MakePipeline(Compiled(read(a))), read, instances, 1);
    assert SameShaderEnd(instances, 1, 2, 2) == 2;
    var cacheAB := cacheA[b.id := Compiled(read(b))];
    assert PlanRebinding(cacheAB, MakePipeline(Compiled(read(b))), read, instances, 2) ==
           Plan([], cacheAB, MakePipeline(Compiled(read(b))));
    assert rest.batches == [Batch(1, 2, b, true, MakePipeline(Compiled(read(b))))] && rest.cache == cacheAB;
    assert p.batches == [p.batches[0]] + rest.batches && p.cache == cacheAB;
  }

  /** The rebinding loop draws the third chunk of the A, B, A sequence with A's pipeline. */
  lemma RebindingAfterSwitchBack(read: ShaderReader, a: Shader.Handle, b: Shader.Handle)
    requires ReadById(read)
    ensures var first := PlanRebinding(map[], MakePipeline(DefaultQuadShader), read, [CustomShaderQuadWithHandle(a)], 0);
      var second := PlanRebinding(first.cache, first.bound, read, [CustomShaderQuadWithHandle(b)], 0);
      var third := PlanRebinding(second.cache, second.bound, read, [CustomShaderQuadWithHandle(a)], 0);
      |third.batches| == 1 && third.batches[0].pipeline == MakePipeline(Compiled(read(a)))
  {
    var first := PlanRebinding(map[], MakePipeline(DefaultQuadShader), read, [CustomShaderQuadWithHandle(a)], 0);
    RebindingDrawsOwnShader(map[], MakePipeline(DefaultQuadShader), read, [CustomShaderQuadWithHandle(a)], 0);
    var second := PlanRebinding(first.cache, first.bound, read, [CustomShaderQuadWithHandle(b)], 0);
    RebindingDrawsOwnShader(first.cache, first.bound, read, [CustomShaderQuadWithHandle(b)], 0);
    RebindingDrawsOwnShader(second.cache, second.bound, read, [CustomShaderQuadWithHandle(a)], 0);
  }

  // ---------------------------------------------------------------------------
  // The pipeline object

  class Pipeline {
    /** The render pipeline currently bound for drawing. */
    var pipeline: RenderPipeline
    /** Compiled shader modules by shader id; entries are never removed. */
    var shaderModulesCache: map<u64, ShaderModule>

    /** The state `Pipeline::new` leaves: the default shader's pipeline bound and an empty cache. */
    constructor ()
      ensures pipeline == MakePipeline(DefaultQuadShader)
      ensures shaderModulesCache == map[]
    {
      pipeline := MakePipeline(DefaultQuadShader);
      shaderModulesCache := map[];
    }

    /**
     * `insert_shader_module`: compile and cache the handle's shader unless
     * its id is cached already; report whether it was inserted.
     */
    method InsertShaderModule(read: ShaderReader, handle: Shader.Handle) returns (inserted: bool)
      modifies this`shaderModulesCache
      ensures inserted <==> handle.id !in old(shaderModulesCache)
      ensures shaderModulesCache ==
                if inserted then old(shaderModulesCache)[handle.id := Compiled(read(handle))]
                else old(shaderModulesCache)
      ensures handle.id in shaderModulesCache
      ensures old(shaderModulesCache).Keys <= shaderModulesCache.Keys
    {
      if handle.id in shaderModulesCache {
        return false;
      }
      var shaderCode := read(handle);
      var shaderModule := Compiled(shaderCode);
      shaderModulesCache := shaderModulesCache[handle.id := shaderModule];
      return true;
    }

    /**
     * `draw`: write the uniforms once, then walk the instances in chunks of
     * `MAX_INSTANCES`, swapping the bound pipeline when the chunk's first
     * shader is newly compiled, uploading the chunk at offset 0 and drawing it.
     * Slicing the records panics when there are fewer records than
     * instances; records beyond the last instance are never uploaded.
     */
    method Draw(read: ShaderReader, encoder: CommandEncoder,
                instances: seq<CustomShaderQuadWithHandle>, serial: seq<LayerQuad.CustomShaderQuad>,
                transformation: seq<real>, scale: real, bounds: Rectangle<u32>)
      requires |instances| <= |serial|
      modifies this, encoder
      ensures encoder.commands ==
                old(encoder.commands)
                + DrawCommands(old(shaderModulesCache), old(pipeline), read, instances, serial,
                               Uniforms(transformation, scale), bounds)
      ensures var plan := PlanBatches(old(shaderModulesCache), old(pipeline), read, instances, 0);
        shaderModulesCache == plan.cache && pipeline == plan.bound
    {
      var uniforms := Uniforms(transformation, scale);
      ghost var before := encoder.commands;
      encoder.Record(WriteUniforms(uniforms));

      ghost var plan := PlanBatches(shaderModulesCache, pipeline, read, instances, 0);
      BatchesWithinWiden(plan.batches, 0, |instances|, 0, |serial|);
      ghost var target := encoder.commands + BatchCommands(plan.batches, serial, bounds);

      var i: nat := 0;
      var total := |instances|;
      while i < total
        invariant PlanBatches(shaderModulesCache, pipeline, read, instances, i).cache == plan.cache
        invariant PlanBatches(shaderModulesCache, pipeline, read, instances, i).bound == plan.bound
        invariant encoder.commands
                  + BatchCommands(PlanBatches(shaderModulesCache, pipeline, read, instances, i).batches, serial, bounds)
                  == target
        decreases Remaining(i, total)
      {
        AdvancePlan(shaderModulesCache, pipeline, read, instances, i, serial, bounds, encoder.commands);
        DrawChunk(read, encoder, instances, serial, i, bounds);
        i := i + MAX_INSTANCES;
      }
      assert target == before + ([WriteUniforms(uniforms)] + BatchCommands(plan.batches, serial, bounds));
    }

    /**
     * One turn of the loop of `draw`: make sure the chunk's first shader is
     * compiled, rebuild the bound pipeline when it was newly compiled, then
     * upload the chunk's records at offset 0 and draw them.
     */
    method DrawChunk(read: ShaderReader, encoder: CommandEncoder,
                     instances: seq<CustomShaderQuadWithHandle>, serial: seq<LayerQuad.CustomShaderQuad>,
                     i: nat, bounds: Rectangle<u32>)
      requires i < |instances| <= |serial|
      modifies this, encoder
      ensures var head := instances[i].shaderHandle;
        var end := Min(i + MAX_INSTANCES, |instances|);
        && shaderModulesCache ==
             (if head.id !in old(shaderModulesCache) then old(shaderModulesCache)[head.id := Compiled(read(head))]
              else old(shaderModulesCache))
        && pipeline == (if head.id !in old(shaderModulesCache) then MakePipeline(shaderModulesCache[head.id]) else old(pipeline))
        && encoder.commands ==
             old(encoder.commands)
             + [UploadInstances(0, Range(i, end), serial[i..end], (end - i) * LayerQuad.CUSTOM_SHADER_QUAD_SIZE)]
             + [DrawIndexed(pipeline, Range(0, |QUAD_INDICES|), 0, Range(0, end - i), bounds)]
    {
      var shaderHandle := instances[i].shaderHandle;
      var hasNewShaderModule := InsertShaderModule(read, shaderHandle);
      if hasNewShaderModule {
        var shaderModule := shaderModulesCache[shaderHandle.id];
        pipeline := MakePipeline(shaderModule);
      }

      var end := Min(i + MAX_INSTANCES, |instances|);
      var amount := end - i;
      var instanceBytes := serial[i..end];
      var byteSize := amount * LayerQuad.CUSTOM_SHADER_QUAD_SIZE;
      // `BufferSize::new(..).unwrap()` succeeds: the chunk is never empty.
      assert amount >= 1 && LayerQuad.CUSTOM_SHADER_QUAD_SIZE == 92;
      assert byteSize > 0;
      encoder.Record(UploadInstances(0, Range(i, end), instanceBytes, byteSize));
      encoder.Record(DrawIndexed(pipeline, Range(0, |QUAD_INDICES|), 0, Range(0, amount), bounds));
    }
  }
}
