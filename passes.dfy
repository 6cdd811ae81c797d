/** A reference reading of a recorded command stream: which pipeline, vertex
    buffer, index buffer and vertex uniform are bound, and which draw calls a
    render pass receives. The render service's draw helpers are proved
    against this reading rather than against their own command lists. */
module Passes {
  import opened Types
  import opened Gpu

  /** The state a draw call sees. */
  datatype Bindings = Bindings(
    pipeline: Ptr, vertexBuffer: Ptr, indexBuffer: Ptr, indexSize: IndexElementSize,
    vertexUniform: Option<Mat4>)

  /** One draw the GPU receives: what was bound, and how many vertices or
      indices it reads. `indices` is None for a non-indexed draw. */
  datatype DrawCall = DrawCall(
    pipeline: Ptr, vertexBuffer: Ptr, indices: Option<(Ptr, IndexElementSize)>,
    count: nat, instances: nat, vertexUniform: Option<Mat4>)

  datatype PassView = PassView(bound: Bindings, draws: seq<DrawCall>)

  const Unbound: Bindings := Bindings(Null, Null, Null, Index16, None)

  /** The effect of one command. SDL rejects calls on a null pass or command
      buffer, so those change nothing; only vertex-buffer slot 0 and vertex
      uniform slot 0 are followed. */
  function Step(v: PassView, c: Command): PassView
  {
    match c
    case BeginRenderPass(_, _, _, pass) =>
      if pass.Addr? then v.(bound := v.bound.(pipeline := Null, vertexBuffer := Null, indexBuffer := Null)) else v
    case BindPipeline(pass, p) =>
      if pass.Addr? then v.(bound := v.bound.(pipeline := p)) else v
    case BindVertexBuffer(pass, slot, b, _) =>
      if pass.Addr? && slot == 0 then v.(bound := v.bound.(vertexBuffer := b)) else v
    case BindIndexBuffer(pass, b, size) =>
      if pass.Addr? then v.(bound := v.bound.(indexBuffer := b, indexSize := size)) else v
    case PushVertexUniform(cb, slot, m) =>
      if cb.Addr? && slot == 0 then v.(bound := v.bound.(vertexUniform := Some(m))) else v
    case Draw(pass, n, k) =>
      if pass.Addr?
      then v.(draws := v.draws + [DrawCall(v.bound.pipeline, v.bound.vertexBuffer, None, n, k, v.bound.vertexUniform)])
      else v
    case DrawIndexed(pass, n, k) =>
      if pass.Addr?
      then v.(draws := v.draws + [DrawCall(v.bound.pipeline, v.bound.vertexBuffer,
                                            Some((v.bound.indexBuffer, v.bound.indexSize)), n, k, v.bound.vertexUniform)])
      else v
    case _ => v
  }

  /** The commands applied in order. */
  function Run(v: PassView, cmds: seq<Command>): PassView
    decreases |cmds|
  {
    if cmds == [] then v else Run(Step(v, cmds[0]), cmds[1..])
  }

  /** Short command lists, unrolled. */
  lemma RunShort(v: PassView, a: Command, b: Command, c: Command)
    ensures Run(v, [a]) == Step(v, a)
    ensures Run(v, [a, b]) == Step(Step(v, a), b)
    ensures Run(v, [a, b, c]) == Step(Step(Step(v, a), b), c)
  {
    assert Run(v, [a]) == Run(Step(v, a), []);
    assert [a, b][1..] == [b];
    assert Run(v, [a, b]) == Run(Step(v, a), [b]) == Run(Step(Step(v, a), b), []);
    assert [a, b, c][1..] == [b, c];
    assert [b, c][1..] == [c];
    assert Run(v, [a, b, c]) == Run(Step(v, a), [b, c]) == Run(Step(Step(v, a), b), [c]);
    assert Run(Step(Step(v, a), b), [c]) == Run(Step(Step(Step(v, a), b), c), []);
  }

  /** Running two stretches of commands is running the first, then the second. */
  lemma {:induction false} RunAppend(v: PassView, a: seq<Command>, b: seq<Command>)
    ensures Run(v, a + b) == Run(Run(v, a), b)
    decreases |a|
  {
    if a == [] {
      assert a + b == b;
    } else {
      assert (a + b)[0] == a[0];
      assert (a + b)[1..] == a[1..] + b;
      RunAppend(Step(v, a[0]), a[1..], b);
    }
  }

  /** Commands never take draws back: what was drawn stays a prefix. */
  lemma {:induction false} RunKeepsDraws(v: PassView, cmds: seq<Command>)
    ensures v.draws <= Run(v, cmds).draws
    decreases |cmds|
  {
    if cmds != [] {
      var w := Step(v, cmds[0]);
      assert v.draws <= w.draws;
      RunKeepsDraws(w, cmds[1..]);
    }
  }

  /** A stretch without draw commands adds no draw calls. */
  lemma {:induction false} RunWithoutDrawsAddsNone(v: PassView, cmds: seq<Command>)
    requires forall i | 0 <= i < |cmds| :: !cmds[i].Draw? && !cmds[i].DrawIndexed?
    ensures Run(v, cmds).draws == v.draws
    decreases |cmds|
  {
    if cmds != [] {
      RunWithoutDrawsAddsNone(Step(v, cmds[0]), cmds[1..]);
    }
  }
}
