/**
 * What the three meshing jobs share: the face-visibility test, the quad a job
 * emits, the four vertices and six indices a quad occupies in the output
 * buffers, and the buffers themselves with their quad counter.
 *
 * Vertex positions and texture coordinates are floats in the source; the
 * widths and heights passed to the emitter are always whole numbers, so they
 * are integers here.
 */
module MeshCommon {
  import opened VoxelUtil

  /** The atlas is 8 by 8 tiles. */
  const AtlasWidth: int := 8
  const AtlasHeight: int := 8

  /**
   * `TransparencyCheck`: despite its name, true when the position holds an
   * opaque voxel, i.e. the face looking at it is hidden. Out-of-chunk
   * positions count as not opaque, so chunk-boundary faces are always emitted.
   */
  predicate TransparencyCheck(voxels: seq<Voxel>, position: Int3, chunkSize: Int3)
    requires ValidSize(chunkSize) && |voxels| == Volume(chunkSize)
  {
    BoundaryCheck(position, chunkSize) && voxels[To1DIndex(position, chunkSize)].data != Air
  }

  /** The voxel at an in-chunk position. */
  function VoxelAt(voxels: seq<Voxel>, chunkSize: Int3, p: Int3): Voxel
    requires ValidSize(chunkSize) && |voxels| == Volume(chunkSize) && BoundaryCheck(p, chunkSize)
  {
    voxels[To1DIndex(p, chunkSize)]
  }

  /**
   * The face of the voxel at p looking in direction d is visible: the voxel is
   * not Air, and its neighbour in that direction is outside the chunk or Air.
   * This is the reference the jobs' `TransparencyCheck` tests are proved
   * against.
   */
  predicate FaceVisible(voxels: seq<Voxel>, chunkSize: Int3, p: Int3, d: Direction)
    requires ValidSize(chunkSize) && |voxels| == Volume(chunkSize) && BoundaryCheck(p, chunkSize)
  {
    && VoxelAt(voxels, chunkSize, p).data != Air
    && var neighbor := p.Plus(VoxelDirectionOffset(d));
       !BoundaryCheck(neighbor, chunkSize) || VoxelAt(voxels, chunkSize, neighbor).data == Air
  }

  /**
   * For a voxel that is not Air, the jobs' test on its neighbour in direction
   * d fails exactly when that face is visible.
   */
  lemma TransparencyCheckHidesFace(voxels: seq<Voxel>, chunkSize: Int3, p: Int3, d: Direction)
    requires ValidSize(chunkSize) && |voxels| == Volume(chunkSize) && BoundaryCheck(p, chunkSize)
    requires VoxelAt(voxels, chunkSize, p).data != Air
    ensures !TransparencyCheck(voxels, p.Plus(VoxelDirectionOffset(d)), chunkSize) <==> FaceVisible(voxels, chunkSize, p, d)
  {
  }

  /**
   * One emitted quad: a face direction, the voxel type that textures it, its
   * extent along the direction's width and height axes, and its base cell.
   */
  datatype Quad = Quad(direction: Direction, data: VoxelType, width: int, height: int, position: Int3)
  {
    /** The depth slice the quad lies in. */
    function Depth(): int { position.Get(AlignedZ(direction)) }
    /** First in-plane coordinate of the quad's base cell (width axis). */
    function U(): int { position.Get(AlignedX(direction)) }
    /** Second in-plane coordinate of the quad's base cell (height axis). */
    function V(): int { position.Get(AlignedY(direction)) }

    /** The quad's footprint covers the cell at in-plane (u, v) of its slice. */
    predicate Covers(u: int, v: int) {
      U() <= u < U() + width && V() <= v < V() + height
    }
  }

  /** Two quads of one direction never share a cell of their footprints. */
  predicate Disjoint(a: Quad, b: Quad) {
    a.Depth() != b.Depth()
    || a.U() + a.width <= b.U() || b.U() + b.width <= a.U()
    || a.V() + a.height <= b.V() || b.V() + b.height <= a.V()
  }

  /** The quads of each direction have pairwise disjoint footprints. */
  predicate PairwiseDisjoint(quads: seq<Quad>) {
    forall i, j :: 0 <= i < j < |quads| && quads[i].direction == quads[j].direction ==>
      Disjoint(quads[i], quads[j])
  }

  /** Every cell a quad covers lies in the chunk and holds the quad's type. */
  ghost predicate UniformInBounds(voxels: seq<Voxel>, chunkSize: Int3, q: Quad)
    requires ValidSize(chunkSize) && |voxels| == Volume(chunkSize)
  {
    var d := q.direction;
    && 0 <= q.Depth() < SliceDepth(chunkSize, d)
    && 0 <= q.U() && q.U() + q.width <= SliceWidth(chunkSize, d)
    && 0 <= q.V() && q.V() + q.height <= SliceHeight(chunkSize, d)
    && forall u, v {:trigger PlanePosition(d, u, v, q.Depth())} ::
         q.Covers(u, v) ==>
           && BoundaryCheck(PlanePosition(d, u, v, q.Depth()), chunkSize)
           && VoxelAt(voxels, chunkSize, PlanePosition(d, u, v, q.Depth())).data == q.data
  }

  /** `GPUVertex`: position, normal and (u, v, tile x, tile y) texture data. */
  datatype GPUVertex = GPUVertex(position: Int3, normal: Int3, uv: UV)
  datatype UV = UV(u: int, v: int, tileX: int, tileY: int)

  /**
   * The atlas tile of a (type, direction) pair: tile number t*6+d laid out
   * row by row in an atlas AtlasWidth tiles wide.
   */
  function AtlasTile(data: VoxelType, direction: Direction): (tile: (int, int))
    ensures 0 <= tile.0 < AtlasWidth && 0 <= tile.1
    ensures tile.1 * AtlasWidth + tile.0 == data * 6 + direction
  {
    var atlasIndex := data * 6 + direction;
    (atlasIndex % AtlasWidth, atlasIndex / AtlasWidth)
  }

  /** Distinct (type, direction) pairs get distinct atlas tiles. */
  lemma {:induction false} AtlasTileInjective(t1: VoxelType, d1: Direction, t2: VoxelType, d2: Direction)
    ensures AtlasTile(t1, d1) == AtlasTile(t2, d2) <==> t1 == t2 && d1 == d2
  {
    if AtlasTile(t1, d1) == AtlasTile(t2, d2) {
      assert t1 * 6 + d1 == t2 * 6 + d2;
      assert 6 * (t1 - t2) == d2 - d1;
      if t1 != t2 {
        MulAtLeastFactor(6, if t1 > t2 then t1 - t2 else t2 - t1);
      }
    }
  }

  /**
   * Vertex i (0..3) of a quad, as the vertex loop of `AddQuadByDirection`
   * computes it: the face corner stretched by width and height along the
   * aligned axes, moved to the grid position, with the atlas tile.
   */
  function QuadVertex(q: Quad, i: nat): GPUVertex
    requires i < 4
  {
    var d := q.direction;
    var corner := CubeVertex(CubeFace(i + d * 4));
    var widened := corner.Set(AlignedX(d), corner.Get(AlignedX(d)) * q.width);
    var stretched := widened.Set(AlignedY(d), widened.Get(AlignedY(d)) * q.height);
    var tile := AtlasTile(q.data, d);
    GPUVertex(stretched.Plus(q.position), VoxelDirectionOffset(d),
              UV(CubeUV(i).0 * q.width, CubeUV(i).1 * q.height, tile.0, tile.1))
  }

  function QuadVertices(q: Quad): (vs: seq<GPUVertex>)
    ensures |vs| == 4
  {
    seq(4, i requires 0 <= i < 4 => QuadVertex(q, i))
  }

  /** The six indices of the quad in slot `slot`: the face's triangles, offset by 4*slot. */
  function QuadIndices(q: Quad, slot: nat): (ix: seq<int>)
    ensures |ix| == 6
  {
    seq(6, i requires 0 <= i < 6 => FaceTriangles[i] + 4 * slot)
  }

  /** Blocks laid end to end. */
  function Concat<T>(blocks: seq<seq<T>>): seq<T>
  {
    if blocks == [] then [] else Concat(blocks[..|blocks| - 1]) + blocks[|blocks| - 1]
  }

  /** The four vertices of each quad, in slot order. */
  function VertexBlocks(quads: seq<Quad>): seq<seq<GPUVertex>>
  {
    seq(|quads|, j requires 0 <= j < |quads| => QuadVertices(quads[j]))
  }

  /** The six indices of each quad, in slot order. */
  function IndexBlocks(quads: seq<Quad>): seq<seq<int>>
  {
    seq(|quads|, j requires 0 <= j < |quads| => QuadIndices(quads[j], j))
  }

  /** The used prefix of the vertex buffer: the quads' vertices, quad after quad. */
  function VerticesOf(quads: seq<Quad>): seq<GPUVertex>
  {
    Concat(VertexBlocks(quads))
  }

  /** The used prefix of the index buffer: the quads' indices, quad after quad. */
  function IndicesOf(quads: seq<Quad>): seq<int>
  {
    Concat(IndexBlocks(quads))
  }

  /** Blocks of a common length k: Concat is k per block long. */
  lemma {:induction false} ConcatLength<T>(blocks: seq<seq<T>>, k: nat)
    requires forall i :: 0 <= i < |blocks| ==> |blocks[i]| == k
    ensures |Concat(blocks)| == k * |blocks|
  {
    if blocks != [] {
      var n := |blocks| - 1;
      ConcatLength(blocks[..n], k);
      MulSucc(k, n);
    }
  }

  lemma MulMonotone(k: nat, a: int, b: int)
    requires a <= b
    ensures k * a <= k * b
  {
    MulNonneg(k, b - a);
    assert k * (b - a) == k * b - k * a;
  }

  lemma MulSucc(k: int, n: int)
    ensures k * (n + 1) == k * n + k
  {
  }

  /** Blocks of a common length k: block j sits at k*j .. k*j+k of Concat. */
  lemma {:induction false} ConcatSlot<T>(blocks: seq<seq<T>>, k: nat, j: nat)
    requires forall i :: 0 <= i < |blocks| ==> |blocks[i]| == k
    requires j < |blocks|
    ensures |Concat(blocks)| == k * |blocks|
    ensures k * j + k <= k * |blocks|
    ensures Concat(blocks)[k * j .. k * j + k] == blocks[j]
  {
    var n := |blocks| - 1;
    var init := blocks[..n];
    ConcatLength(blocks, k);
    ConcatLength(init, k);
    MulSucc(k, n);
    MulSucc(k, j);
    MulMonotone(k, j, n);
    var whole, front := Concat(blocks), Concat(init);
    assert whole == front + blocks[n];
    var start, prefix := k * j, k * n;
    assert |front| == prefix && start + k <= prefix + k;
    if j < n {
      ConcatSlot(init, k, j);
      MulMonotone(k, j + 1, n);
      assert start + k <= prefix;
      assert whole[start .. start + k] == front[start .. start + k];
    } else {
      assert start == prefix;
      assert whole[start .. start + k] == blocks[n];
    }
  }

  /** Emitting one more quad appends its vertices and indices to the used prefixes. */
  lemma AppendQuad(quads: seq<Quad>, q: Quad)
    ensures VerticesOf(quads + [q]) == VerticesOf(quads) + QuadVertices(q)
    ensures IndicesOf(quads + [q]) == IndicesOf(quads) + QuadIndices(q, |quads|)
  {
    assert VertexBlocks(quads + [q])[..|quads|] == VertexBlocks(quads);
    assert IndexBlocks(quads + [q])[..|quads|] == IndexBlocks(quads);
  }

  /** The used prefixes are 4 vertices and 6 indices per quad long. */
  lemma PrefixLengths(quads: seq<Quad>)
    ensures |VerticesOf(quads)| == 4 * |quads| && |IndicesOf(quads)| == 6 * |quads|
  {
    ConcatLength(VertexBlocks(quads), 4);
    ConcatLength(IndexBlocks(quads), 6);
  }

  /**
   * Quad j of the emitted list occupies vertices 4j..4j+3 and indices
   * 6j..6j+5 of the used prefixes, its indices offset by 4j.
   */
  lemma SlotOfQuad(quads: seq<Quad>, j: nat)
    requires j < |quads|
    ensures |VerticesOf(quads)| == 4 * |quads| && |IndicesOf(quads)| == 6 * |quads|
    ensures VerticesOf(quads)[4 * j .. 4 * j + 4] == QuadVertices(quads[j])
    ensures IndicesOf(quads)[6 * j .. 6 * j + 6] == QuadIndices(quads[j], j)
  {
    ConcatSlot(VertexBlocks(quads), 4, j);
    ConcatSlot(IndexBlocks(quads), 6, j);
  }

  /** The buffers' used prefixes hold exactly the emitted quads, in slot order. */
  ghost predicate SlotsHold(vertices: seq<GPUVertex>, indices: seq<int>, quads: seq<Quad>)
  {
    && 4 * |quads| <= |vertices| && 6 * |quads| <= |indices|
    && vertices[..4 * |quads|] == VerticesOf(quads)
    && indices[..6 * |quads|] == IndicesOf(quads)
  }

  /** Writing quad q into the next slot, and nothing else, extends the emitted list by q. */
  lemma SlotsAppend(before: seq<GPUVertex>, beforeIndices: seq<int>, after: seq<GPUVertex>, afterIndices: seq<int>,
                    quads: seq<Quad>, q: Quad)
    requires SlotsHold(before, beforeIndices, quads)
    requires |after| == |before| && |afterIndices| == |beforeIndices|
    requires 4 * |quads| + 4 <= |after| && 6 * |quads| + 6 <= |afterIndices|
    requires after[..4 * |quads|] == before[..4 * |quads|]
    requires after[4 * |quads| .. 4 * |quads| + 4] == QuadVertices(q)
    requires afterIndices[..6 * |quads|] == beforeIndices[..6 * |quads|]
    requires afterIndices[6 * |quads| .. 6 * |quads| + 6] == QuadIndices(q, |quads|)
    ensures SlotsHold(after, afterIndices, quads + [q])
  {
    var n := |quads|;
    AppendQuad(quads, q);
    assert after[..4 * (n + 1)] == after[..4 * n] + after[4 * n .. 4 * n + 4];
    assert afterIndices[..6 * (n + 1)] == afterIndices[..6 * n] + afterIndices[6 * n .. 6 * n + 6];
  }

  /**
   * `AddQuadByDirection`: writes the quad in slot `quadIndex`, i.e. vertices
   * 4q..4q+3 and indices 6q..6q+5, and nothing else.
   */
  method AddQuadByDirection(direction: Direction, data: VoxelType, width: int, height: int,
                            gridPosition: Int3, quadIndex: nat,
                            vertices: array<GPUVertex>, indices: array<int>)
    requires 4 * quadIndex + 4 <= vertices.Length && 6 * quadIndex + 6 <= indices.Length
    modifies vertices, indices
    ensures vertices[4 * quadIndex .. 4 * quadIndex + 4] == QuadVertices(Quad(direction, data, width, height, gridPosition))
    ensures indices[6 * quadIndex .. 6 * quadIndex + 6] == QuadIndices(Quad(direction, data, width, height, gridPosition), quadIndex)
    ensures vertices[..4 * quadIndex] == old(vertices[..4 * quadIndex])
    ensures vertices[4 * quadIndex + 4..] == old(vertices[4 * quadIndex + 4..])
    ensures indices[..6 * quadIndex] == old(indices[..6 * quadIndex])
    ensures indices[6 * quadIndex + 6..] == old(indices[6 * quadIndex + 6..])
  {
    WriteQuadVertices(Quad(direction, data, width, height, gridPosition), quadIndex, vertices);
    WriteQuadIndices(Quad(direction, data, width, height, gridPosition), quadIndex, indices);
  }

  /** The vertex loop of `AddQuadByDirection`: vertices 4q..4q+3 receive the quad's corners. */
  method WriteQuadVertices(q: Quad, quadIndex: nat, vertices: array<GPUVertex>)
    requires 4 * quadIndex + 4 <= vertices.Length
    modifies vertices
    ensures vertices[4 * quadIndex .. 4 * quadIndex + 4] == QuadVertices(q)
    ensures vertices[..4 * quadIndex] == old(vertices[..4 * quadIndex])
    ensures vertices[4 * quadIndex + 4..] == old(vertices[4 * quadIndex + 4..])
  {
    ghost var qv := QuadVertices(q);
    var vertexStart := quadIndex * 4;
    for i := 0 to 4
      invariant forall k :: 0 <= k < i ==> vertices[vertexStart + k] == qv[k]
      invariant vertices[..vertexStart] == old(vertices[..vertexStart])
      invariant vertices[vertexStart + 4..] == old(vertices[vertexStart + 4..])
    {
      vertices[vertexStart + i] := QuadVertex(q, i);
    }
    assert vertices[vertexStart .. vertexStart + 4] == qv;
  }

  /** The index loop of `AddQuadByDirection`: indices 6q..6q+5 receive the face's triangles. */
  method WriteQuadIndices(q: Quad, quadIndex: nat, indices: array<int>)
    requires 6 * quadIndex + 6 <= indices.Length
    modifies indices
    ensures indices[6 * quadIndex .. 6 * quadIndex + 6] == QuadIndices(q, quadIndex)
    ensures indices[..6 * quadIndex] == old(indices[..6 * quadIndex])
    ensures indices[6 * quadIndex + 6..] == old(indices[6 * quadIndex + 6..])
  {
    var direction := q.direction;
    ghost var qi := QuadIndices(q, quadIndex);
    var indexStart := quadIndex * 6;
    var baseVertex := quadIndex * 4;
    for i := 0 to 6
      invariant forall k :: 0 <= k < i ==> indices[indexStart + k] == qi[k]
      invariant forall k :: 0 <= k < indices.Length && !(indexStart <= k < indexStart + i) ==> indices[k] == old(indices[k])
    {
      CubeIndicesRow(direction, i);
      indices[indexStart + i] := CubeIndices[direction * 6 + i] + baseVertex;
    }
    assert indices[indexStart .. indexStart + 6] == qi;
  }

  /**
   * `NativeMeshData`: the voxel copy a job meshes, the pre-sized vertex and
   * index buffers, and the quad counter. `Quads` is the list of quads emitted
   * so far, in slot order; `count` is the counter.
   */
  class NativeMeshData {
    const chunkSize: Int3
    var nativeVoxels: seq<Voxel>
    const nativeVertices: array<GPUVertex>
    const nativeIndices: array<int>
    var count: nat
    ghost var Quads: seq<Quad>

    ghost predicate Valid()
      reads this, nativeVertices, nativeIndices
    {
      && ValidSize(chunkSize)
      && |nativeVoxels| == Volume(chunkSize)
      && count == |Quads|
      && SlotsHold(nativeVertices[..], nativeIndices[..], Quads)
    }

    /** Buffers sized from the estimate 12 vertices and 18 indices per voxel. */
    constructor (chunkSize: Int3)
      requires ValidSize(chunkSize)
      ensures Valid() && fresh(nativeVertices) && fresh(nativeIndices)
      ensures this.chunkSize == chunkSize && Quads == [] && count == 0
      ensures nativeVertices.Length == 12 * Volume(chunkSize)
      ensures nativeIndices.Length == 18 * Volume(chunkSize)
    {
      var numVoxels := chunkSize.x * chunkSize.y * chunkSize.z;
      this.chunkSize := chunkSize;
      nativeVoxels := seq(numVoxels, _ => Empty);
      nativeVertices := new GPUVertex[12 * numVoxels];
      nativeIndices := new int[18 * numVoxels];
      count := 0;
      Quads := [];
    }

    /** `NativeCounter.Increment`: returns the slot number, then counts it. */
    method Increment() returns (slot: nat)
      modifies this`count
      ensures count == old(count) + 1 && slot == old(count)
    {
      slot := count;
      count := count + 1;
    }

    /**
     * `AddQuadByDirection(..., counter.Increment(), vertices, indices)`, the
     * emission step every job performs: the next slot receives the quad.
     * Valid only while the buffers have room for it, which no job checks.
     */
    method Emit(q: Quad)
      requires Valid()
      requires 4 * (count + 1) <= nativeVertices.Length && 6 * (count + 1) <= nativeIndices.Length
      modifies this`count, this`Quads, nativeVertices, nativeIndices
      ensures Valid() && Quads == old(Quads) + [q]
    {
      var slot := Increment();
      ghost var vertices, indices := nativeVertices[..], nativeIndices[..];
      AddQuadByDirection(q.direction, q.data, q.width, q.height, q.position, slot, nativeVertices, nativeIndices);
      SlotsAppend(vertices, indices, nativeVertices[..], nativeIndices[..], Quads, q);
      Quads := Quads + [q];
    }

    /**
     * `GetMeshInformation`: the used prefixes are 4*count vertices and
     * 6*count indices, and they hold exactly the emitted quads in slot order.
     */
    method GetMeshInformation() returns (verticeSize: nat, indicesSize: nat)
      requires Valid()
      ensures verticeSize == 4 * count && indicesSize == 6 * count
      ensures verticeSize <= nativeVertices.Length && indicesSize <= nativeIndices.Length
      ensures nativeVertices[..verticeSize] == VerticesOf(Quads)
      ensures nativeIndices[..indicesSize] == IndicesOf(Quads)
    {
      verticeSize := count * 4;
      indicesSize := count * 6;
    }
  }

  /** The buffers have room for n more quads. */
  predicate HasRoom(data: NativeMeshData, n: nat)
    reads data
  {
    && 4 * (data.count + n) <= data.nativeVertices.Length
    && 6 * (data.count + n) <= data.nativeIndices.Length
  }

  lemma Assoc<T>(a: seq<T>, b: seq<T>, c: seq<T>)
    ensures (a + b) + c == a + (b + c)
  {
  }

  /** The voxels a job reads and the chunk size agree. */
  predicate GridOk(voxels: seq<Voxel>, chunkSize: Int3) {
    ValidSize(chunkSize) && |voxels| == Volume(chunkSize)
  }

  /** In-plane (u, v) of depth slice `depth` lies inside the sweep of direction d. */
  predicate InSlice(chunkSize: Int3, d: Direction, u: int, v: int, depth: int) {
    0 <= u < SliceWidth(chunkSize, d) && 0 <= v < SliceHeight(chunkSize, d) && 0 <= depth < SliceDepth(chunkSize, d)
  }

  /** Strip u (the cells of in-plane column u) of a depth slice exists. */
  predicate InStrip(chunkSize: Int3, d: Direction, depth: int, u: int) {
    0 <= u < SliceWidth(chunkSize, d) && 0 <= depth < SliceDepth(chunkSize, d)
  }

  /** The type of the voxel at in-plane (u, v) of a depth slice. */
  function SliceCell(voxels: seq<Voxel>, chunkSize: Int3, d: Direction, u: int, v: int, depth: int): (t: VoxelType)
    requires GridOk(voxels, chunkSize) && InSlice(chunkSize, d, u, v, depth)
    ensures BoundaryCheck(PlanePosition(d, u, v, depth), chunkSize)
  {
    PlanePositionInBounds(chunkSize, d, u, v, depth);
    VoxelAt(voxels, chunkSize, PlanePosition(d, u, v, depth)).data
  }

  /** The face in direction d at in-plane (u, v) of a depth slice is visible. */
  predicate SliceFaceVisible(voxels: seq<Voxel>, chunkSize: Int3, d: Direction, u: int, v: int, depth: int)
    requires GridOk(voxels, chunkSize) && InSlice(chunkSize, d, u, v, depth)
  {
    PlanePositionInBounds(chunkSize, d, u, v, depth);
    FaceVisible(voxels, chunkSize, PlanePosition(d, u, v, depth), d)
  }

  /** In an all-Air chunk no face is visible, so no list of quads that each start at a visible face has an element. */
  lemma AllAirHasNoStarts(voxels: seq<Voxel>, chunkSize: Int3, quads: seq<Quad>)
    requires GridOk(voxels, chunkSize)
    requires forall i :: 0 <= i < |voxels| ==> voxels[i].data == Air
    requires forall q :: q in quads ==>
               && InSlice(chunkSize, q.direction, q.U(), q.V(), q.Depth())
               && SliceFaceVisible(voxels, chunkSize, q.direction, q.U(), q.V(), q.Depth())
    ensures quads == []
  {
    if quads != [] {
      var q := quads[0];
      PlanePositionInBounds(chunkSize, q.direction, q.U(), q.V(), q.Depth());
      assert false;
    }
  }

  /** Two lists with disjoint footprints, and disjoint from each other, concatenate disjointly. */
  lemma DisjointAppend(a: seq<Quad>, b: seq<Quad>)
    requires PairwiseDisjoint(a) && PairwiseDisjoint(b)
    requires forall p, q :: p in a && q in b && p.direction == q.direction ==> Disjoint(p, q)
    ensures PairwiseDisjoint(a + b)
  {
    forall i, j | 0 <= i < j < |a + b| && (a + b)[i].direction == (a + b)[j].direction
      ensures Disjoint((a + b)[i], (a + b)[j])
    {
      if i < |a| && j >= |a| {
        assert (a + b)[i] in a && (a + b)[j] in b;
      }
    }
  }
}
