/** The pieces of the frame resource multiplexer that do not depend on the
    renderer's state: how a slot's buffer is overwritten by a copy, how the
    per-slot buffer vectors are resized, how material attributes are packed, how
    the shader-resource views fill the descriptor heap, and the byte sizes of the
    vertex and index buffer views. */
module FrameResources {
  import opened LevelData
  import opened DrawSubmission

  /** A copy of `data` into the start of `buffer` (the renderer's `memcpy` into a
      mapped buffer): the first `|data|` elements are replaced, the rest stay. */
  function Overwrite<T>(buffer: seq<T>, data: seq<T>): (r: seq<T>)
    requires |data| <= |buffer|
    ensures |r| == |buffer|
    ensures r[..|data|] == data
    ensures forall j :: |data| <= j < |buffer| ==> r[j] == buffer[j]
    ensures |data| == |buffer| ==> r == data
  {
    data + buffer[|data|..]
  }

  /** `std::vector::resize(n)`: keeps the first `n` elements, pads with `fill`. */
  function Resize<X>(s: seq<X>, n: nat, fill: X): (r: seq<X>)
    ensures |r| == n
    ensures forall j :: 0 <= j < n && j < |s| ==> r[j] == s[j]
    ensures forall j :: |s| <= j < n ==> r[j] == fill
  {
    if n <= |s| then s[..n] else s + seq(n - |s|, _ => fill)
  }

  /** The material attributes laid out one after another, in material order. */
  function Attributes<A>(materials: seq<Material<A>>): (r: seq<A>)
    ensures |r| == |materials|
    ensures forall j :: 0 <= j < |materials| ==> r[j] == materials[j].attrib
  {
    if materials == [] then []
    else Attributes(materials[..|materials| - 1]) + [materials[|materials| - 1].attrib]
  }

  // ---------------------------------------------------------------------------
  // Descriptor heap

  /** A structured-buffer shader-resource view: which buffer, how many elements. */
  datatype ShaderView = ShaderView(buffer: BufferRef, numElements: nat)

  datatype Descriptor = Unwritten | Srv(view: ShaderView)

  /** The heap holds one descriptor per structured buffer: two per frame slot. */
  function DescriptorCount(frames: nat): nat {
    frames * 2
  }

  /** The heap after initialisation: the `frames` transform views, then the
      `frames` material views. */
  function HeapLayout(frames: nat, transformCount: nat, materialCount: nat): (h: seq<Descriptor>)
    ensures |h| == DescriptorCount(frames)
  {
    seq(frames, (k: nat) => Srv(ShaderView(TransformBuffer(k), transformCount)))
    + seq(frames, (k: nat) => Srv(ShaderView(MaterialBuffer(k), materialCount)))
  }

  /** Every descriptor of the heap is written, and every structured buffer of
      every slot has exactly one view in it. */
  lemma HeapLayoutOnePerBuffer(frames: nat, transformCount: nat, materialCount: nat)
    ensures forall j :: 0 <= j < DescriptorCount(frames) ==> HeapLayout(frames, transformCount, materialCount)[j].Srv?
    ensures forall j, j' :: 0 <= j < j' < DescriptorCount(frames) ==>
              HeapLayout(frames, transformCount, materialCount)[j].view.buffer
              != HeapLayout(frames, transformCount, materialCount)[j'].view.buffer
    ensures forall k :: 0 <= k < frames ==>
              Srv(ShaderView(TransformBuffer(k), transformCount)) in HeapLayout(frames, transformCount, materialCount)
              && Srv(ShaderView(MaterialBuffer(k), materialCount)) in HeapLayout(frames, transformCount, materialCount)
  {
    var h := HeapLayout(frames, transformCount, materialCount);
    forall k | 0 <= k < frames
      ensures Srv(ShaderView(TransformBuffer(k), transformCount)) in h
      ensures Srv(ShaderView(MaterialBuffer(k), materialCount)) in h
    {
      assert h[k] == Srv(ShaderView(TransformBuffer(k), transformCount));
      assert h[frames + k] == Srv(ShaderView(MaterialBuffer(k), materialCount));
    }
  }

  /** Byte offsets, from the heap start, of `count` views written through a CPU
      handle that advances by `step` bytes after each view. */
  function ViewOffsets(count: nat, step: nat): (r: seq<nat>)
    ensures |r| == count
    ensures count > 0 ==> r[0] == 0
    ensures forall k :: 0 < k < count ==> r[k] == r[k - 1] + step
  {
    seq(count, (k: nat) => k * step)
  }

  /** As written, the handle advances by the byte size of the level's transform
      (or material) vector object instead of the device's descriptor increment.
      When that size is smaller than the increment, the second view is written
      inside the first view's descriptor; when it is larger, the last view of a
      heap sized for `count` descriptors ends past the heap. */
  lemma AsWrittenHandleMisplacesViews(count: nat, vectorSize: nat, increment: nat)
    requires 2 <= count
    ensures vectorSize < increment ==>
              ViewOffsets(count, vectorSize)[1] < ViewOffsets(count, vectorSize)[0] + increment
    ensures increment < vectorSize ==>
              ViewOffsets(count, vectorSize)[count - 1] + increment > count * increment
  {
    if increment < vectorSize {
      MulMonotone(increment, vectorSize, count - 1);
    }
  }

  /** A concrete instance: a 24-byte vector object (three pointers on a 64-bit
      build) and a 32-byte descriptor increment: the material view of a single
      slot starts 24 bytes into the transform view's 32-byte descriptor. */
  lemma AsWrittenTwoSlots()
    ensures ViewOffsets(2, 24)[1] == 24
    ensures ViewOffsets(2, 24)[0] + 32 > ViewOffsets(2, 24)[1]
  {
  }

  /** Advancing by the descriptor increment gives every view its own descriptor,
      in writing order, all inside a heap of `count` descriptors. */
  lemma {:induction false} HandleAdvancedByIncrement(count: nat, increment: nat)
    ensures forall a, b :: 0 <= a < b < count ==>
              ViewOffsets(count, increment)[a] + increment <= ViewOffsets(count, increment)[b]
    ensures count > 0 ==> ViewOffsets(count, increment)[count - 1] + increment == count * increment
  {
    var o := ViewOffsets(count, increment);
    forall a, b | 0 <= a < b < count
      ensures o[a] + increment <= o[b]
    {
      MulMonotone(a, b, increment);
    }
  }

  /** `a < b` implies `a * c + c <= b * c`. */
  lemma {:induction false} MulMonotone(a: nat, b: nat, c: nat)
    requires a < b
    ensures a * c + c <= b * c
  {
    if b > a + 1 {
      MulMonotone(a, b - 1, c);
      assert b * c == (b - 1) * c + c;
    } else {
      assert b * c == a * c + c;
    }
  }

  // ---------------------------------------------------------------------------
  // Vertex and index buffer views

  /** `sizeof(H2B::VERTEX)`: three 3-float elements (position, uvw, normal). */
  const VertexStride: nat := 36
  /** `sizeof(unsigned)`: indices are 32-bit. */
  const IndexStride: nat := 4
  /** Byte sizes are passed as `unsigned int`, so they are taken modulo 2^32. */
  const UintRange: nat := 0x1_0000_0000

  function ToUint(x: nat): (r: nat)
    ensures r < UintRange && r <= x
    ensures (x - r) % UintRange == 0
    ensures x < UintRange ==> r == x
  {
    x % UintRange
  }

  datatype IndexFormat = R32Uint

  datatype VertexView = VertexView(strideInBytes: nat, sizeInBytes: nat)

  datatype IndexView = IndexView(format: IndexFormat, sizeInBytes: nat)

  function VertexViewFor(vertexCount: nat): (v: VertexView)
    ensures v.strideInBytes == VertexStride
    ensures VertexStride * vertexCount < UintRange ==> v.sizeInBytes == VertexStride * vertexCount
  {
    VertexView(VertexStride, ToUint(VertexStride * vertexCount))
  }

  function IndexViewFor(indexCount: nat): (v: IndexView)
    ensures v.format == R32Uint
    ensures IndexStride * indexCount < UintRange ==> v.sizeInBytes == IndexStride * indexCount
  {
    IndexView(R32Uint, ToUint(IndexStride * indexCount))
  }

  /** As long as the byte sizes fit in 32 bits, the views cover exactly the
      level's vertices and indices: size divided by element size is the count. */
  lemma ViewsCoverBuffers(vertexCount: nat, indexCount: nat)
    requires VertexStride * vertexCount < UintRange && IndexStride * indexCount < UintRange
    ensures VertexViewFor(vertexCount).sizeInBytes / VertexViewFor(vertexCount).strideInBytes == vertexCount
    ensures IndexViewFor(indexCount).sizeInBytes / IndexStride == indexCount
    ensures VertexViewFor(vertexCount).sizeInBytes % VertexStride == 0
  {
  }
}
