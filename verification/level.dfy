/** The level data the renderer draws: a flattened scene loaded once before the
    GPU resources are created and read-only afterwards. A level instance names a
    model and a range of transforms; a model owns a contiguous range of meshes and
    the offsets of its geometry in the shared vertex and index buffers; a mesh owns
    a contiguous range of indices. Transforms (4x4 float matrices) and material
    attributes are opaque to this model, hence the type parameters. */
module LevelData {

  datatype Instance = Instance(modelIndex: nat, transformStart: nat, transformCount: nat)

  datatype Model = Model(meshStart: nat, meshCount: nat, indexStart: nat, vertexStart: nat)

  datatype Mesh = Mesh(indexCount: nat, indexOffset: nat)

  datatype Material<A> = Material(attrib: A)

  datatype Level<T, A> = Level(
    instances: seq<Instance>,
    models: seq<Model>,
    meshes: seq<Mesh>,
    transforms: seq<T>,
    materials: seq<Material<A>>,
    vertexCount: nat,   // number of vertices in the shared vertex buffer
    indexCount: nat     // number of 32-bit indices in the shared index buffer
  )

  /** The level that exists before anything is loaded. */
  function EmptyLevel<T, A>(): Level<T, A> {
    Level([], [], [], [], [], 0, 0)
  }

  /** Instance `i` refers to an existing model whose mesh range lies inside the
      mesh list: exactly what the draw loop indexes. */
  predicate InstanceInBounds<T, A>(level: Level<T, A>, i: nat)
    requires i < |level.instances|
  {
    var inst := level.instances[i];
    inst.modelIndex < |level.models| &&
    level.models[inst.modelIndex].meshStart + level.models[inst.modelIndex].meshCount <= |level.meshes|
  }

  /** The draw loop reads `levelModels[model]` and `levelMeshes[mesh]` unchecked;
      a loaded level must keep those indices in range. */
  predicate WellFormed<T, A>(level: Level<T, A>) {
    forall i :: 0 <= i < |level.instances| ==> InstanceInBounds(level, i)
  }

  /** The model referenced by instance `i`. */
  function ModelOf<T, A>(level: Level<T, A>, i: nat): (m: Model)
    requires i < |level.instances| && WellFormed(level)
    ensures m in level.models
    ensures m.meshStart + m.meshCount <= |level.meshes|
  {
    assert InstanceInBounds(level, i);
    level.models[level.instances[i].modelIndex]
  }
}
