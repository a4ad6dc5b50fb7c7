/** What the renderer's per-frame step records on the command list, as values:
    the draws one frame issues (instance by instance, mesh by mesh), the two inline
    constants pushed ahead of each draw, and the frame prologue that binds the
    pipeline, clears the targets and binds the active slot's structured buffers. */
module DrawSubmission {
  import opened LevelData

  /** One indexed, instanced draw together with the inline constants pushed for it. */
  datatype Draw = Draw(
    materialIndex: nat,
    transformStart: nat,
    indexCount: nat,
    instanceCount: nat,
    startIndex: nat,
    baseVertex: nat,
    startInstance: nat
  )

  /** The two 32-bit constants of root parameter 1 (`MESH_DATA`). */
  datatype MeshData = MeshData(materialIndex: nat, transformIndexStart: nat)

  datatype RootConstants = SceneConstants | MeshConstants(data: MeshData)

  /** A structured buffer of one frame slot. */
  datatype BufferRef = TransformBuffer(slot: nat) | MaterialBuffer(slot: nat)

  /** The command-list calls the frame step makes, in the order it makes them.
      `SetupPipeline` stands for the fixed state setup (root signature, descriptor
      heap, render targets, pipeline state, vertex and index buffers, topology). */
  datatype Command =
    | SetupPipeline
    | ClearRenderTarget
    | ClearDepthStencil
    | SetRootConstants(rootParameter: nat, count: nat, payload: RootConstants)
    | SetRootShaderResource(rootParameter: nat, buffer: BufferRef)
    | DrawIndexedInstanced(indexCountPerInstance: nat, instanceCount: nat,
                           startIndexLocation: nat, baseVertexLocation: nat,
                           startInstanceLocation: nat)

  // Root signature layout: 32 scene constants, 2 mesh constants, two root SRVs.
  const SceneParameter: nat := 0
  const SceneConstantCount: nat := 32
  const MeshParameter: nat := 1
  const MeshConstantCount: nat := 2
  const TransformsParameter: nat := 2
  const MaterialsParameter: nat := 3

  // ---------------------------------------------------------------------------
  // The draws of one frame

  /** The draw issued for instance `i` and global mesh index `m`. */
  function DrawFor<T, A>(level: Level<T, A>, i: nat, m: nat): Draw
    requires WellFormed(level) && i < |level.instances|
    requires ModelOf(level, i).meshStart <= m < ModelOf(level, i).meshStart + ModelOf(level, i).meshCount
  {
    var inst := level.instances[i];
    var model := ModelOf(level, i);
    Draw(m, inst.transformStart, level.meshes[m].indexCount, inst.transformCount,
         model.indexStart + level.meshes[m].indexOffset, model.vertexStart, 0)
  }

  /** The draws of instance `i`: one per mesh of its model's mesh range, ascending. */
  function InstanceDraws<T, A>(level: Level<T, A>, i: nat): seq<Draw>
    requires WellFormed(level) && i < |level.instances|
  {
    var model := ModelOf(level, i);
    seq(model.meshCount, k requires 0 <= k < model.meshCount => DrawFor(level, i, model.meshStart + k))
  }

  lemma InstanceDrawsAt<T, A>(level: Level<T, A>, i: nat, k: nat)
    requires WellFormed(level) && i < |level.instances| && k < ModelOf(level, i).meshCount
    ensures |InstanceDraws(level, i)| == ModelOf(level, i).meshCount
    ensures InstanceDraws(level, i)[k] == DrawFor(level, i, ModelOf(level, i).meshStart + k)
  {
  }

  /** The draws of the first `n` instances, in instance order. */
  function DrawsUpTo<T, A>(level: Level<T, A>, n: nat): seq<Draw>
    requires WellFormed(level) && n <= |level.instances|
  {
    if n == 0 then [] else DrawsUpTo(level, n - 1) + InstanceDraws(level, n - 1)
  }

  /** Every draw of one frame. */
  function FrameDraws<T, A>(level: Level<T, A>): seq<Draw>
    requires WellFormed(level)
  {
    DrawsUpTo(level, |level.instances|)
  }

  /** The sum of `meshCount` over the models of the first `n` instances. */
  function MeshCountUpTo<T, A>(level: Level<T, A>, n: nat): nat
    requires WellFormed(level) && n <= |level.instances|
  {
    if n == 0 then 0 else MeshCountUpTo(level, n - 1) + ModelOf(level, n - 1).meshCount
  }

  function TotalMeshCount<T, A>(level: Level<T, A>): nat
    requires WellFormed(level)
  {
    MeshCountUpTo(level, |level.instances|)
  }

  /** The number of draws of the first `n` instances is the sum of their models' mesh counts. */
  lemma {:induction false} DrawsUpToLength<T, A>(level: Level<T, A>, n: nat)
    requires WellFormed(level) && n <= |level.instances|
    ensures |DrawsUpTo(level, n)| == MeshCountUpTo(level, n)
  {
    if n > 0 {
      DrawsUpToLength(level, n - 1);
    }
  }

  /** One frame issues exactly `sum of meshCount` draws; no instances, no draws. */
  lemma FrameDrawCount<T, A>(level: Level<T, A>)
    requires WellFormed(level)
    ensures |FrameDraws(level)| == TotalMeshCount(level)
    ensures level.instances == [] ==> FrameDraws(level) == []
  {
    DrawsUpToLength(level, |level.instances|);
  }

  /** The draws of instance `i` lie wholly before those of any later instance. */
  lemma {:induction false} MeshCountMonotone<T, A>(level: Level<T, A>, i: nat, n: nat)
    requires WellFormed(level) && i < n <= |level.instances|
    ensures MeshCountUpTo(level, i) + ModelOf(level, i).meshCount <= MeshCountUpTo(level, n)
  {
    if i < n - 1 {
      MeshCountMonotone(level, i, n - 1);
    }
  }

  /** Draw `(i, meshStart + k)` sits at position `MeshCountUpTo(level, i) + k`. */
  lemma {:induction false} DrawPosition<T, A>(level: Level<T, A>, n: nat, i: nat, k: nat)
    requires WellFormed(level) && n <= |level.instances|
    requires i < n && k < ModelOf(level, i).meshCount
    ensures MeshCountUpTo(level, i) + k < |DrawsUpTo(level, n)|
    ensures DrawsUpTo(level, n)[MeshCountUpTo(level, i) + k]
         == DrawFor(level, i, ModelOf(level, i).meshStart + k)
  {
    DrawsUpToLength(level, n - 1);
    DrawsUpToLength(level, n);
    if i < n - 1 {
      DrawPosition(level, n - 1, i, k);
      MeshCountMonotone(level, i, n - 1);
    }
  }

  /** Conversely, every draw of the first `n` instances is the draw of some
      instance `i < n` and some mesh of its model, at exactly that position. */
  lemma {:induction false} DrawOrigin<T, A>(level: Level<T, A>, n: nat, p: nat) returns (i: nat, k: nat)
    requires WellFormed(level) && n <= |level.instances|
    requires p < |DrawsUpTo(level, n)|
    ensures i < n && k < ModelOf(level, i).meshCount
    ensures p == MeshCountUpTo(level, i) + k
    ensures DrawsUpTo(level, n)[p] == DrawFor(level, i, ModelOf(level, i).meshStart + k)
  {
    DrawsUpToLength(level, n - 1);
    if p < MeshCountUpTo(level, n - 1) {
      i, k := DrawOrigin(level, n - 1, p);
    } else {
      i, k := n - 1, p - MeshCountUpTo(level, n - 1);
    }
  }

  /** Draws are ordered by instance first, then by mesh within the instance. */
  lemma DrawOrder<T, A>(level: Level<T, A>, i: nat, k: nat, i': nat, k': nat)
    requires WellFormed(level)
    requires i < |level.instances| && k < ModelOf(level, i).meshCount
    requires i' < |level.instances| && k' < ModelOf(level, i').meshCount
    requires i < i' || (i == i' && k < k')
    ensures MeshCountUpTo(level, i) + k < MeshCountUpTo(level, i') + k'
  {
    if i < i' {
      MeshCountMonotone(level, i, i');
    }
  }

  /** Every draw names a mesh that exists, starts at instance 0, and takes its
      arguments from one instance and one mesh of that instance's model. */
  lemma FrameDrawsInBounds<T, A>(level: Level<T, A>, p: nat)
    requires WellFormed(level) && p < |FrameDraws(level)|
    ensures FrameDraws(level)[p].materialIndex < |level.meshes|
    ensures FrameDraws(level)[p].startInstance == 0
    ensures exists i :: 0 <= i < |level.instances|
              && FrameDraws(level)[p].transformStart == level.instances[i].transformStart
              && FrameDraws(level)[p].instanceCount == level.instances[i].transformCount
  {
    var i, k := DrawOrigin(level, |level.instances|, p);
  }

  /** A level with one instance of a two-mesh model drawn three times gives two
      draws, one per mesh in mesh order, each instanced three times from the
      instance's first transform. */
  lemma TwoMeshScenario<T, A>(level: Level<T, A>)
    requires WellFormed(level) && |level.instances| == 1
    requires ModelOf(level, 0).meshCount == 2 && level.instances[0].transformCount == 3
    ensures |FrameDraws(level)| == 2
    ensures forall p :: 0 <= p < 2 ==> FrameDraws(level)[p].instanceCount == 3
    ensures forall p :: 0 <= p < 2 ==> FrameDraws(level)[p].materialIndex == ModelOf(level, 0).meshStart + p
    ensures forall p :: 0 <= p < 2 ==> FrameDraws(level)[p].transformStart == level.instances[0].transformStart
  {
    assert DrawsUpTo(level, 1) == DrawsUpTo(level, 0) + InstanceDraws(level, 0);
    assert DrawsUpTo(level, 0) + InstanceDraws(level, 0) == InstanceDraws(level, 0);
    forall p | 0 <= p < 2
      ensures FrameDraws(level)[p].instanceCount == 3
      ensures FrameDraws(level)[p].materialIndex == ModelOf(level, 0).meshStart + p
      ensures FrameDraws(level)[p].transformStart == level.instances[0].transformStart
    {
      assert InstanceDraws(level, 0)[p] == DrawFor(level, 0, ModelOf(level, 0).meshStart + p);
    }
  }

  // ---------------------------------------------------------------------------
  // The command list

  /** The inline constants and the draw call issued for one draw. */
  function Encode(d: Draw): seq<Command> {
    [ SetRootConstants(MeshParameter, MeshConstantCount, MeshConstants(MeshData(d.materialIndex, d.transformStart))),
      DrawIndexedInstanced(d.indexCount, d.instanceCount, d.startIndex, d.baseVertex, d.startInstance) ]
  }

  function Encoded(ds: seq<Draw>): seq<Command> {
    if ds == [] then [] else Encoded(ds[..|ds| - 1]) + Encode(ds[|ds| - 1])
  }

  lemma {:induction false} EncodedAppend(a: seq<Draw>, b: seq<Draw>)
    ensures Encoded(a + b) == Encoded(a) + Encoded(b)
  {
    if b != [] {
      assert (a + b)[..|a + b| - 1] == a + b[..|b| - 1];
      EncodedAppend(a, b[..|b| - 1]);
    } else {
      assert a + b == a;
    }
  }

  lemma EncodedSnoc(ds: seq<Draw>, d: Draw)
    ensures Encoded(ds + [d]) == Encoded(ds) + Encode(d)
  {
    assert (ds + [d])[..|ds|] == ds;
  }

  /** Draw `k` becomes commands `2k` (its constants) and `2k + 1` (the draw call). */
  lemma {:induction false} EncodedAt(ds: seq<Draw>, k: nat)
    requires k < |ds|
    ensures |Encoded(ds)| == 2 * |ds|
    ensures Encoded(ds)[2 * k] == Encode(ds[k])[0]
    ensures Encoded(ds)[2 * k + 1] == Encode(ds[k])[1]
  {
    EncodedLength(ds);
    if k < |ds| - 1 {
      EncodedAt(ds[..|ds| - 1], k);
    }
  }

  lemma {:induction false} EncodedLength(ds: seq<Draw>)
    ensures |Encoded(ds)| == 2 * |ds|
  {
    if ds != [] {
      EncodedLength(ds[..|ds| - 1]);
    }
  }

  /** The draw part of the command list holds only mesh constants and draws. */
  lemma {:induction false} EncodedKinds(ds: seq<Draw>)
    ensures forall c :: c in Encoded(ds) ==>
              (c.SetRootConstants? && c.rootParameter == MeshParameter && c.count == MeshConstantCount)
              || c.DrawIndexedInstanced?
  {
    if ds != [] {
      EncodedKinds(ds[..|ds| - 1]);
    }
  }

  /** The commands recorded before the draw loop. Both clears are issued only
      when both the render-target and the depth-stencil handle were obtained. */
  function Prologue(clear: bool, slot: nat): seq<Command> {
    [SetupPipeline]
    + (if clear then [ClearRenderTarget, ClearDepthStencil] else [])
    + [ SetRootConstants(SceneParameter, SceneConstantCount, SceneConstants),
        SetRootShaderResource(TransformsParameter, TransformBuffer(slot)),
        SetRootShaderResource(MaterialsParameter, MaterialBuffer(slot)) ]
  }

  /** Everything one frame records on the command list. */
  function FrameCommands<T, A>(clear: bool, slot: nat, level: Level<T, A>): seq<Command>
    requires WellFormed(level)
  {
    Prologue(clear, slot) + Encoded(FrameDraws(level))
  }

  /** The number of draw calls in a command sequence. */
  function CountDraws(cs: seq<Command>): nat {
    if cs == [] then 0
    else CountDraws(cs[..|cs| - 1]) + (if cs[|cs| - 1].DrawIndexedInstanced? then 1 else 0)
  }

  lemma {:induction false} CountDrawsAppend(a: seq<Command>, b: seq<Command>)
    ensures CountDraws(a + b) == CountDraws(a) + CountDraws(b)
  {
    if b != [] {
      assert (a + b)[..|a + b| - 1] == a + b[..|b| - 1];
      CountDrawsAppend(a, b[..|b| - 1]);
    } else {
      assert a + b == a;
    }
  }

  lemma {:induction false} CountDrawsEncoded(ds: seq<Draw>)
    ensures CountDraws(Encoded(ds)) == |ds|
  {
    if ds != [] {
      var last := ds[|ds| - 1];
      CountDrawsEncoded(ds[..|ds| - 1]);
      CountDrawsAppend(Encoded(ds[..|ds| - 1]), Encode(last));
      assert Encode(last) == [Encode(last)[0]] + [Encode(last)[1]];
      CountDrawsAppend([Encode(last)[0]], [Encode(last)[1]]);
      assert [Encode(last)[0]][..0] == [];
      assert [Encode(last)[1]][..0] == [];
    }
  }

  /** A frame issues exactly one draw call per mesh of every instance's model,
      whether or not the clears happened. */
  lemma FrameDrawCallCount<T, A>(clear: bool, slot: nat, level: Level<T, A>)
    requires WellFormed(level)
    ensures CountDraws(FrameCommands(clear, slot, level)) == TotalMeshCount(level)
  {
    var pro := Prologue(clear, slot);
    CountDrawsAppend(pro, Encoded(FrameDraws(level)));
    CountDrawsEncoded(FrameDraws(level));
    FrameDrawCount(level);
    CountDrawsPrologue(clear, slot);
  }

  lemma CountDrawsPrologue(clear: bool, slot: nat)
    ensures CountDraws(Prologue(clear, slot)) == 0
  {
    var pro := Prologue(clear, slot);
    forall j | 0 <= j <= |pro|
      ensures CountDraws(pro[..j]) == 0
    {
      CountDrawsNone(pro, j);
    }
    assert pro[..|pro|] == pro;
  }

  lemma {:induction false} CountDrawsNone(cs: seq<Command>, j: nat)
    requires j <= |cs|
    requires forall c :: c in cs ==> !c.DrawIndexedInstanced?
    ensures CountDraws(cs[..j]) == 0
  {
    if j > 0 {
      assert cs[..j][..j - 1] == cs[..j - 1];
      CountDrawsNone(cs, j - 1);
    }
  }

  /** The clears are recorded if and only if both target handles were obtained. */
  lemma ClearsOnlyWithHandles<T, A>(clear: bool, slot: nat, level: Level<T, A>)
    requires WellFormed(level)
    ensures ClearRenderTarget in FrameCommands(clear, slot, level) <==> clear
    ensures ClearDepthStencil in FrameCommands(clear, slot, level) <==> clear
  {
    EncodedKinds(FrameDraws(level));
    if clear {
      assert FrameCommands(clear, slot, level)[1] == ClearRenderTarget;
      assert FrameCommands(clear, slot, level)[2] == ClearDepthStencil;
    }
  }

  /** The only structured buffers a frame binds are those of its own slot, one
      transform buffer at root parameter 2 and one material buffer at 3. */
  lemma BindsOnlyItsSlot<T, A>(clear: bool, slot: nat, level: Level<T, A>)
    requires WellFormed(level)
    ensures SetRootShaderResource(TransformsParameter, TransformBuffer(slot)) in FrameCommands(clear, slot, level)
    ensures SetRootShaderResource(MaterialsParameter, MaterialBuffer(slot)) in FrameCommands(clear, slot, level)
    ensures forall c :: c in FrameCommands(clear, slot, level) && c.SetRootShaderResource? ==> c.buffer.slot == slot
  {
    EncodedKinds(FrameDraws(level));
    var pro := Prologue(clear, slot);
    assert pro[|pro| - 2] == SetRootShaderResource(TransformsParameter, TransformBuffer(slot));
    assert pro[|pro| - 1] == SetRootShaderResource(MaterialsParameter, MaterialBuffer(slot));
    assert FrameCommands(clear, slot, level)[|pro| - 2] == pro[|pro| - 2];
    assert FrameCommands(clear, slot, level)[|pro| - 1] == pro[|pro| - 1];
  }

  /** After the prologue, draw `k` of the frame is recorded as its two mesh
      constants (material index = global mesh index, transform start of the
      instance) immediately followed by its draw call. */
  lemma FrameCommandsAt<T, A>(clear: bool, slot: nat, level: Level<T, A>, k: nat)
    requires WellFormed(level) && k < |FrameDraws(level)|
    ensures var p := |Prologue(clear, slot)| + 2 * k;
            var d := FrameDraws(level)[k];
            p + 1 < |FrameCommands(clear, slot, level)|
            && FrameCommands(clear, slot, level)[p]
               == SetRootConstants(MeshParameter, MeshConstantCount,
                                   MeshConstants(MeshData(d.materialIndex, d.transformStart)))
            && FrameCommands(clear, slot, level)[p + 1]
               == DrawIndexedInstanced(d.indexCount, d.instanceCount, d.startIndex, d.baseVertex, d.startInstance)
  {
    EncodedAt(FrameDraws(level), k);
  }

  /** Every draw call of a frame is immediately preceded by exactly two inline
      constants for root parameter 1. */
  lemma ConstantsPrecedeDraws<T, A>(clear: bool, slot: nat, level: Level<T, A>, p: nat)
    requires WellFormed(level)
    requires p < |FrameCommands(clear, slot, level)| && FrameCommands(clear, slot, level)[p].DrawIndexedInstanced?
    ensures p >= 1
    ensures FrameCommands(clear, slot, level)[p - 1].SetRootConstants?
    ensures FrameCommands(clear, slot, level)[p - 1].rootParameter == MeshParameter
    ensures FrameCommands(clear, slot, level)[p - 1].count == MeshConstantCount
  {
    var pro := Prologue(clear, slot);
    var ds := FrameDraws(level);
    var fc := FrameCommands(clear, slot, level);
    EncodedLength(ds);
    assert p >= |pro|;
    var q := p - |pro|;
    assert fc[p] == Encoded(ds)[q];
    var k := q / 2;
    EncodedAt(ds, k);
    assert q != 2 * k;
    assert q == 2 * k + 1;
    assert fc[p - 1] == Encoded(ds)[2 * k];
  }
}
