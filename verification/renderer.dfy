/** The Direct3D 12 rendering system: its setup chain, the per-slot transform and
    material buffers, the per-frame draw step, and the enable/disable state of its
    three scheduler systems. Device calls are abstracted: buffers are sequences of
    opaque elements (`T` a transform matrix, `A` a material's attributes) and the
    command list is the trace of commands it has been given. */
module Renderer {
  import opened LevelData
  import opened DrawSubmission
  import opened FrameResources

  // ---------------------------------------------------------------------------
  // Scheduler systems

  /** A handle to a scheduler system: whether the system exists and whether it
      is enabled. A default handle refers to no system. */
  datatype SystemHandle = SystemHandle(alive: bool, enabled: bool)

  const NoSystem := SystemHandle(false, false)
  /** A freshly registered system exists and is enabled. */
  const NewSystem := SystemHandle(true, true)

  /** A system runs in a tick when it exists and is enabled. */
  predicate Runs(h: SystemHandle) {
    h.alive && h.enabled
  }

  /** The renderer's three systems: pre-update, update and post-update. */
  datatype DrawSystems = DrawSystems(startDraw: SystemHandle, updateDraw: SystemHandle, completeDraw: SystemHandle)

  predicate AllAlive(s: DrawSystems) {
    s.startDraw.alive && s.updateDraw.alive && s.completeDraw.alive
  }

  datatype ActivationResult = ActivationResult(ok: bool, systems: DrawSystems)

  /** Enabling or disabling the group: only when all three systems exist. */
  function Activation(s: DrawSystems, run: bool): (r: ActivationResult)
    ensures r.ok <==> AllAlive(s)
    ensures r.ok ==> (AllAlive(r.systems)
                      && (Runs(r.systems.startDraw) <==> run)
                      && (Runs(r.systems.updateDraw) <==> run)
                      && (Runs(r.systems.completeDraw) <==> run))
    ensures !r.ok ==> r.systems == s
  {
    if AllAlive(s) then
      ActivationResult(true, DrawSystems(s.startDraw.(enabled := run),
                                  s.updateDraw.(enabled := run),
                                  s.completeDraw.(enabled := run)))
    else
      ActivationResult(false, s)
  }

  /** Repeating an activation changes nothing and reports the same result. */
  lemma ActivationIdempotent(s: DrawSystems, run: bool)
    ensures Activation(Activation(s, run).systems, run) == Activation(s, run)
  {
  }

  /** Destroying all three systems; afterwards none runs and none can be re-enabled. */
  function Destructed(s: DrawSystems): (r: DrawSystems)
    ensures !r.startDraw.alive && !r.updateDraw.alive && !r.completeDraw.alive
    ensures forall run :: !Activation(r, run).ok
  {
    DrawSystems(s.startDraw.(alive := false), s.updateDraw.(alive := false), s.completeDraw.(alive := false))
  }

  // ---------------------------------------------------------------------------
  // The rendering system

  /** The mesh constants last written by a loop that issued `ds`, starting from `init`. */
  function LastMeshData(init: MeshData, ds: seq<Draw>): MeshData {
    if ds == [] then init
    else MeshData(ds[|ds| - 1].materialIndex, ds[|ds| - 1].transformStart)
  }

  lemma LastMeshDataAppend(init: MeshData, a: seq<Draw>, b: seq<Draw>)
    ensures LastMeshData(init, a + b) == LastMeshData(LastMeshData(init, a), b)
  {
    if b == [] {
      assert a + b == a;
    }
  }

  /** Appending the draws of instance `i` to those of the instances before it. */
  lemma DrawLevelStep<T, A>(level: Level<T, A>, i: nat, start: seq<Command>, init: MeshData)
    requires WellFormed(level) && i < |level.instances|
    ensures start + Encoded(DrawsUpTo(level, i)) + Encoded(InstanceDraws(level, i))
            == start + Encoded(DrawsUpTo(level, i + 1))
    ensures LastMeshData(LastMeshData(init, DrawsUpTo(level, i)), InstanceDraws(level, i))
            == LastMeshData(init, DrawsUpTo(level, i + 1))
  {
    EncodedAppend(DrawsUpTo(level, i), InstanceDraws(level, i));
    LastMeshDataAppend(init, DrawsUpTo(level, i), InstanceDraws(level, i));
  }

  class DirX12RendererLogic<T, A> {
    var level: Level<T, A>
    /** The swap chain's buffer count: the number of frame slots. */
    var maxActiveFrames: nat
    /** The CPU-side transform list copied to the active slot every frame. */
    var transformsForGPU: seq<T>
    var transformBuffers: seq<seq<T>>
    var materialBuffers: seq<seq<A>>
    var descriptorHeap: seq<Descriptor>
    var vertexView: VertexView
    var indexView: IndexView
    var meshData: MeshData
    var systems: DrawSystems
    /** Everything recorded on the command list so far. */
    var commands: seq<Command>

    /** The state after `Init` from a fresh object: the level's mesh ranges are
        in bounds, there is one transform and one material buffer per slot, each
        transform buffer holds one element per level transform, and the
        per-frame copy fits in every transform buffer. */
    ghost predicate Ready()
      reads this
    {
      && WellFormed(level)
      && |transformBuffers| == maxActiveFrames
      && |materialBuffers| == maxActiveFrames
      && (forall k :: 0 <= k < maxActiveFrames ==> |transformBuffers[k]| == |level.transforms|)
      && |transformsForGPU| <= |level.transforms|
    }

    constructor ()
      ensures level == EmptyLevel() && maxActiveFrames == 0
      ensures transformsForGPU == [] && transformBuffers == [] && materialBuffers == []
      ensures descriptorHeap == [] && commands == []
      ensures systems == DrawSystems(NoSystem, NoSystem, NoSystem)
    {
      level := EmptyLevel();
      maxActiveFrames := 0;
      transformsForGPU := [];
      transformBuffers := [];
      materialBuffers := [];
      descriptorHeap := [];
      vertexView := VertexView(0, 0);
      indexView := IndexView(R32Uint, 0);
      meshData := MeshData(0, 0);
      systems := DrawSystems(NoSystem, NoSystem, NoSystem);
      commands := [];
    }

    /** Loads the level, records the swap chain's buffer count, then runs the
        three setup steps in order, stopping at the first that fails. */
    method Init(loaded: Level<T, A>, bufferCount: nat) returns (ok: bool)
      modifies this
      ensures ok
      ensures level == loaded && maxActiveFrames == bufferCount
      ensures transformsForGPU == old(transformsForGPU) + loaded.transforms
      ensures |transformBuffers| == bufferCount && |materialBuffers| == bufferCount
      ensures forall k :: 0 <= k < bufferCount ==>
                transformBuffers[k] == loaded.transforms && materialBuffers[k] == Attributes(loaded.materials)
      ensures descriptorHeap == HeapLayout(bufferCount, |loaded.transforms|, |loaded.materials|)
      ensures vertexView == VertexViewFor(loaded.vertexCount) && indexView == IndexViewFor(loaded.indexCount)
      ensures systems == DrawSystems(NewSystem, NewSystem, NewSystem)
      ensures commands == old(commands) && meshData == old(meshData)
      ensures WellFormed(loaded) && old(transformsForGPU) == [] ==> Ready()
    {
      level := loaded;
      maxActiveFrames := bufferCount;
      ok := SetupShaderVars();
      if ok {
        ok := SetupGraphics();
      }
      if ok {
        ok := SetupDrawcalls();
      }
    }

    method SetupShaderVars() returns (ok: bool)
      modifies this`transformsForGPU
      ensures ok
      ensures transformsForGPU == old(transformsForGPU) + level.transforms
    {
      InitializeSceneDataForGPU();
      ok := true;
    }

    method SetupGraphics() returns (ok: bool)
      modifies this`vertexView, this`indexView, this`transformBuffers, this`materialBuffers, this`descriptorHeap
      ensures ok
      ensures vertexView == VertexViewFor(level.vertexCount) && indexView == IndexViewFor(level.indexCount)
      ensures |transformBuffers| == maxActiveFrames && |materialBuffers| == maxActiveFrames
      ensures forall k :: 0 <= k < maxActiveFrames ==>
                transformBuffers[k] == level.transforms && materialBuffers[k] == Attributes(level.materials)
      ensures descriptorHeap == HeapLayout(maxActiveFrames, |level.transforms|, |level.materials|)
    {
      InitializeGraphics();
      ok := true;
    }

    /** Registers the three systems; a newly registered system is enabled. */
    method SetupDrawcalls() returns (ok: bool)
      modifies this`systems
      ensures ok
      ensures systems == DrawSystems(NewSystem, NewSystem, NewSystem)
    {
      systems := DrawSystems(NewSystem, NewSystem, NewSystem);
      ok := true;
    }

    /** Appends every level transform, in order, to the CPU-side transform list. */
    method InitializeSceneDataForGPU()
      modifies this`transformsForGPU
      ensures transformsForGPU == old(transformsForGPU) + level.transforms
    {
      var i := 0;
      while i < |level.transforms|
        invariant 0 <= i <= |level.transforms|
        invariant transformsForGPU == old(transformsForGPU) + level.transforms[..i]
      {
        transformsForGPU := transformsForGPU + [level.transforms[i]];
        i := i + 1;
      }
      assert level.transforms[..i] == level.transforms;
    }

    method InitializeGraphics()
      modifies this`vertexView, this`indexView, this`transformBuffers, this`materialBuffers, this`descriptorHeap
      ensures vertexView == VertexViewFor(level.vertexCount) && indexView == IndexViewFor(level.indexCount)
      ensures |transformBuffers| == maxActiveFrames && |materialBuffers| == maxActiveFrames
      ensures forall k :: 0 <= k < maxActiveFrames ==>
                transformBuffers[k] == level.transforms && materialBuffers[k] == Attributes(level.materials)
      ensures descriptorHeap == HeapLayout(maxActiveFrames, |level.transforms|, |level.materials|)
    {
      vertexView := VertexViewFor(level.vertexCount);
      indexView := IndexViewFor(level.indexCount);
      transformBuffers := Resize(transformBuffers, maxActiveFrames, []);
      materialBuffers := Resize(materialBuffers, maxActiveFrames, []);
      InitializeDescriptorHeap();
      InitializeStructuredBuffersAndViews();
    }

    /** A new heap with one (not yet written) descriptor per structured buffer. */
    method InitializeDescriptorHeap()
      modifies this`descriptorHeap
      ensures |descriptorHeap| == DescriptorCount(maxActiveFrames)
      ensures forall j :: 0 <= j < |descriptorHeap| ==> descriptorHeap[j] == Unwritten
    {
      var numberOfStructuredBuffers := maxActiveFrames * 2;
      descriptorHeap := seq(numberOfStructuredBuffers, _ => Unwritten);
    }

    /** Fills every slot's transform buffer with the level transforms and every
        slot's material buffer with the packed material attributes, writing one
        view per buffer at consecutive heap positions. */
    method InitializeStructuredBuffersAndViews()
      requires |transformBuffers| == maxActiveFrames && |materialBuffers| == maxActiveFrames
      requires |descriptorHeap| == DescriptorCount(maxActiveFrames)
      modifies this`transformBuffers, this`materialBuffers, this`descriptorHeap
      ensures |transformBuffers| == maxActiveFrames && |materialBuffers| == maxActiveFrames
      ensures forall k :: 0 <= k < maxActiveFrames ==>
                transformBuffers[k] == level.transforms && materialBuffers[k] == Attributes(level.materials)
      ensures descriptorHeap == HeapLayout(maxActiveFrames, |level.transforms|, |level.materials|)
    {
      var layout := HeapLayout(maxActiveFrames, |level.transforms|, |level.materials|);
      var handle := 0;
      var i := 0;
      while i < maxActiveFrames
        invariant 0 <= i <= maxActiveFrames && handle == i
        invariant |transformBuffers| == maxActiveFrames && |descriptorHeap| == |layout|
        invariant forall k :: 0 <= k < i ==> transformBuffers[k] == level.transforms
        invariant materialBuffers == old(materialBuffers)
        invariant descriptorHeap[..handle] == layout[..handle]
      {
        transformBuffers := transformBuffers[i := level.transforms];
        descriptorHeap := descriptorHeap[handle := Srv(ShaderView(TransformBuffer(i), |level.transforms|))];
        handle := handle + 1;
        i := i + 1;
      }
      i := 0;
      while i < maxActiveFrames
        invariant 0 <= i <= maxActiveFrames && handle == maxActiveFrames + i
        invariant |materialBuffers| == maxActiveFrames && |descriptorHeap| == |layout|
        invariant forall k :: 0 <= k < i ==> materialBuffers[k] == Attributes(level.materials)
        invariant |transformBuffers| == maxActiveFrames
        invariant forall k :: 0 <= k < maxActiveFrames ==> transformBuffers[k] == level.transforms
        invariant descriptorHeap[..handle] == layout[..handle]
      {
        // The mapped buffer is written attribute by attribute, advancing the write position.
        var written: seq<A> := [];
        var j := 0;
        while j < |level.materials|
          invariant 0 <= j <= |level.materials|
          invariant written == Attributes(level.materials[..j])
        {
          assert level.materials[..j + 1][..j] == level.materials[..j];
          written := written + [level.materials[j].attrib];
          j := j + 1;
        }
        assert level.materials[..j] == level.materials;
        materialBuffers := materialBuffers[i := written];
        descriptorHeap := descriptorHeap[handle := Srv(ShaderView(MaterialBuffer(i), |level.materials|))];
        handle := handle + 1;
        i := i + 1;
      }
      assert descriptorHeap[..handle] == descriptorHeap;
      assert layout[..handle] == layout;
    }

    /** Copies the CPU-side transform list into the start of slot `frame`'s
        transform buffer. No other slot and no material buffer changes. */
    method UpdateTransformsForGPU(frame: nat)
      requires frame < |transformBuffers| && |transformsForGPU| <= |transformBuffers[frame]|
      modifies this`transformBuffers
      ensures transformBuffers == old(transformBuffers)[frame := Overwrite(old(transformBuffers[frame]), transformsForGPU)]
    {
      transformBuffers := transformBuffers[frame := Overwrite(transformBuffers[frame], transformsForGPU)];
    }

    /** Enables (`run`) or disables all three systems when all exist. */
    method Activate(run: bool) returns (ok: bool)
      modifies this`systems
      ensures ActivationResult(ok, systems) == Activation(old(systems), run)
    {
      if systems.startDraw.alive && systems.updateDraw.alive && systems.completeDraw.alive {
        if run {
          systems := systems.(startDraw := systems.startDraw.(enabled := true));
          systems := systems.(updateDraw := systems.updateDraw.(enabled := true));
          systems := systems.(completeDraw := systems.completeDraw.(enabled := true));
        } else {
          systems := systems.(startDraw := systems.startDraw.(enabled := false));
          systems := systems.(updateDraw := systems.updateDraw.(enabled := false));
          systems := systems.(completeDraw := systems.completeDraw.(enabled := false));
        }
        return true;
      }
      return false;
    }

    method Shutdown() returns (ok: bool)
      modifies this`systems
      ensures ok && systems == Destructed(old(systems))
    {
      systems := Destructed(systems);
      ok := true;
    }

    /** The post-update step of one frame. `targetsOk` says whether both the
        render-target and the depth-stencil handle were obtained; `frame` is the
        swap chain's current back-buffer index. */
    method CompleteDraw(targetsOk: bool, frame: nat)
      requires Ready() && frame < maxActiveFrames
      modifies this`commands, this`meshData, this`transformBuffers
      ensures Ready()
      ensures commands == old(commands) + FrameCommands(targetsOk, frame, level)
      ensures transformBuffers == old(transformBuffers)[frame := Overwrite(old(transformBuffers[frame]), transformsForGPU)]
      ensures |transformsForGPU| == |level.transforms| ==> transformBuffers[frame] == transformsForGPU
      ensures meshData == LastMeshData(old(meshData), FrameDraws(level))
    {
      commands := commands + [SetupPipeline];
      if targetsOk {
        commands := commands + [ClearRenderTarget, ClearDepthStencil];
      }
      UpdateTransformsForGPU(frame);
      commands := commands + [SetRootConstants(SceneParameter, SceneConstantCount, SceneConstants)];
      commands := commands + [SetRootShaderResource(TransformsParameter, TransformBuffer(frame))];
      commands := commands + [SetRootShaderResource(MaterialsParameter, MaterialBuffer(frame))];
      assert commands == old(commands) + Prologue(targetsOk, frame);
      DrawLevel();
    }

    /** The draw loop of the post-update step: for every instance, in order, and
        every mesh of its model's mesh range, push the two mesh constants and
        issue one indexed, instanced draw. */
    method DrawLevel()
      requires WellFormed(level)
      modifies this`commands, this`meshData
      ensures commands == old(commands) + Encoded(FrameDraws(level))
      ensures meshData == LastMeshData(old(meshData), FrameDraws(level))
    {
      var instance := 0;
      while instance < |level.instances|
        invariant 0 <= instance <= |level.instances|
        invariant commands == old(commands) + Encoded(DrawsUpTo(level, instance))
        invariant meshData == LastMeshData(old(meshData), DrawsUpTo(level, instance))
      {
        DrawInstance(instance);
        DrawLevelStep(level, instance, old(commands), old(meshData));
        instance := instance + 1;
      }
    }

    /** The inner loop of `DrawLevel` for one instance: one draw per mesh of the
        instance's model, in ascending mesh order. */
    method DrawInstance(instance: nat)
      requires WellFormed(level) && instance < |level.instances|
      modifies this`commands, this`meshData
      ensures commands == old(commands) + Encoded(InstanceDraws(level, instance))
      ensures meshData == LastMeshData(old(meshData), InstanceDraws(level, instance))
    {
      var model := level.instances[instance].modelIndex;
      assert InstanceInBounds(level, instance);
      ghost var row := InstanceDraws(level, instance);
      ghost var drawn: seq<Draw> := [];
      var mesh := level.models[model].meshStart;
      while mesh < level.models[model].meshStart + level.models[model].meshCount
        invariant level.models[model].meshStart <= mesh <= level.models[model].meshStart + level.models[model].meshCount
        invariant |drawn| == mesh - level.models[model].meshStart
        invariant drawn == row[..|drawn|]
        invariant commands == old(commands) + Encoded(drawn)
        invariant meshData == LastMeshData(old(meshData), drawn)
      {
        ghost var k := mesh - level.models[model].meshStart;
        InstanceDrawsAt(level, instance, k);
        ghost var d := row[k];
        meshData := MeshData(mesh, level.instances[instance].transformStart);
        commands := commands + [SetRootConstants(MeshParameter, MeshConstantCount, MeshConstants(meshData))];
        commands := commands + [DrawIndexedInstanced(level.meshes[mesh].indexCount,
                                                     level.instances[instance].transformCount,
                                                     level.models[model].indexStart + level.meshes[mesh].indexOffset,
                                                     level.models[model].vertexStart, 0)];
        EncodedSnoc(drawn, d);
        assert row[..k + 1] == drawn + [d];
        drawn := drawn + [d];
        mesh := mesh + 1;
      }
      assert drawn == row;
    }
  }
}
