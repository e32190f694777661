/**
 * `VoxelGreedyMeshingOnlyHeightJob`: for each direction and depth slice, each
 * strip of constant in-plane u is scanned along v; a visible face starts a
 * quad of width 1 that grows along v while the next cell has the start cell's
 * type, and the scan resumes after the run.
 *
 * StripQuads is what the v scan of one strip emits from a given v on (the
 * scan jumps, so it is written from the cursor forward); SliceQuads,
 * DirectionQuads and GreedyOnlyHeightQuads follow the u, depth and direction
 * loops. The job is proved to append exactly GreedyOnlyHeightQuads; the
 * lemmas show every quad is a uniform run starting at a visible face and
 * extending upward until the slice edge or a type change,
 * the quads of a direction never overlap, and every visible face is covered.
 */
module GreedyOnlyHeightJob {
  import opened VoxelUtil
  import opened MeshCommon

  /**
   * The height the run loop settles on for the run starting at (u, v), once
   * cells v .. v+h-1 are known to continue it: it stops at the slice edge or
   * at the first cell of a different type.
   */
  function RunHeight(voxels: seq<Voxel>, chunkSize: Int3, d: Direction, depth: int, u: int, v: int, h: int): (r: int)
    requires GridOk(voxels, chunkSize) && InSlice(chunkSize, d, u, v, depth)
    requires 1 <= h && v + h <= SliceHeight(chunkSize, d)
    ensures h <= r && v + r <= SliceHeight(chunkSize, d)
    decreases SliceHeight(chunkSize, d) - v - h
  {
    if v + h == SliceHeight(chunkSize, d) then h
    else if SliceCell(voxels, chunkSize, d, u, v + h, depth) != SliceCell(voxels, chunkSize, d, u, v, depth) then h
    else RunHeight(voxels, chunkSize, d, depth, u, v, h + 1)
  }

  /** The quad a visible start cell (u, v) receives. */
  function RunQuad(voxels: seq<Voxel>, chunkSize: Int3, d: Direction, depth: int, u: int, v: int): Quad
    requires GridOk(voxels, chunkSize) && InSlice(chunkSize, d, u, v, depth)
  {
    Quad(d, SliceCell(voxels, chunkSize, d, u, v, depth), 1, RunHeight(voxels, chunkSize, d, depth, u, v, 1),
         PlanePosition(d, u, v, depth))
  }

  /** What the v scan of strip u emits from cursor v to the end of the strip. */
  function StripQuads(voxels: seq<Voxel>, chunkSize: Int3, d: Direction, depth: int, u: int, v: int): seq<Quad>
    requires GridOk(voxels, chunkSize) && InStrip(chunkSize, d, depth, u) && 0 <= v <= SliceHeight(chunkSize, d)
    decreases SliceHeight(chunkSize, d) - v
  {
    if v == SliceHeight(chunkSize, d) then []
    else if !SliceFaceVisible(voxels, chunkSize, d, u, v, depth) then StripQuads(voxels, chunkSize, d, depth, u, v + 1)
    else
      [RunQuad(voxels, chunkSize, d, depth, u, v)]
      + StripQuads(voxels, chunkSize, d, depth, u, v + RunHeight(voxels, chunkSize, d, depth, u, v, 1))
  }

  /** What depth slice `depth` of direction d has emitted after the first n strips. */
  function SliceQuads(voxels: seq<Voxel>, chunkSize: Int3, d: Direction, depth: int, n: int): seq<Quad>
    requires GridOk(voxels, chunkSize) && 0 <= depth < SliceDepth(chunkSize, d) && 0 <= n <= SliceWidth(chunkSize, d)
    decreases n
  {
    if n == 0 then []
    else SliceQuads(voxels, chunkSize, d, depth, n - 1) + StripQuads(voxels, chunkSize, d, depth, n - 1, 0)
  }

  /** What direction d has emitted after its first n depth slices. */
  function DirectionQuads(voxels: seq<Voxel>, chunkSize: Int3, d: Direction, n: int): seq<Quad>
    requires GridOk(voxels, chunkSize) && 0 <= n <= SliceDepth(chunkSize, d)
    decreases n
  {
    if n == 0 then []
    else DirectionQuads(voxels, chunkSize, d, n - 1) + SliceQuads(voxels, chunkSize, d, n - 1, SliceWidth(chunkSize, d))
  }

  /** What the job has emitted after its first n directions. */
  function SweepQuads(voxels: seq<Voxel>, chunkSize: Int3, n: int): seq<Quad>
    requires GridOk(voxels, chunkSize) && 0 <= n <= 6
    decreases n
  {
    if n == 0 then []
    else SweepQuads(voxels, chunkSize, n - 1) + DirectionQuads(voxels, chunkSize, n - 1, SliceDepth(chunkSize, n - 1))
  }

  /** Everything the job emits, in emission order. */
  function GreedyOnlyHeightQuads(voxels: seq<Voxel>, chunkSize: Int3): seq<Quad>
    requires GridOk(voxels, chunkSize)
  {
    SweepQuads(voxels, chunkSize, 6)
  }

  lemma {:induction false} StripFits(voxels: seq<Voxel>, chunkSize: Int3, d: Direction, depth: int, n: int, m: int)
    requires GridOk(voxels, chunkSize) && 0 <= depth < SliceDepth(chunkSize, d) && 0 <= n < m <= SliceWidth(chunkSize, d)
    ensures |SliceQuads(voxels, chunkSize, d, depth, n)| + |StripQuads(voxels, chunkSize, d, depth, n, 0)|
         <= |SliceQuads(voxels, chunkSize, d, depth, m)|
    decreases m
  {
    if n < m - 1 {
      StripFits(voxels, chunkSize, d, depth, n, m - 1);
    }
    assert SliceQuads(voxels, chunkSize, d, depth, m)
        == SliceQuads(voxels, chunkSize, d, depth, m - 1) + StripQuads(voxels, chunkSize, d, depth, m - 1, 0);
  }

  lemma {:induction false} SliceFits(voxels: seq<Voxel>, chunkSize: Int3, d: Direction, n: int, m: int)
    requires GridOk(voxels, chunkSize) && 0 <= n < m <= SliceDepth(chunkSize, d)
    ensures |DirectionQuads(voxels, chunkSize, d, n)| + |SliceQuads(voxels, chunkSize, d, n, SliceWidth(chunkSize, d))|
         <= |DirectionQuads(voxels, chunkSize, d, m)|
    decreases m
  {
    if n < m - 1 {
      SliceFits(voxels, chunkSize, d, n, m - 1);
    }
  }

  lemma {:induction false} DirectionFits(voxels: seq<Voxel>, chunkSize: Int3, n: int, m: int)
    requires GridOk(voxels, chunkSize) && 0 <= n < m <= 6
    ensures |SweepQuads(voxels, chunkSize, n)| + |DirectionQuads(voxels, chunkSize, n, SliceDepth(chunkSize, n))|
         <= |SweepQuads(voxels, chunkSize, m)|
    decreases m
  {
    if n < m - 1 {
      DirectionFits(voxels, chunkSize, n, m - 1);
    }
  }

  /** The run loop: how far the run starting at the visible cell (x, y) extends. */
  method RunLength(voxels: seq<Voxel>, chunkSize: Int3, direction: Direction, depth: int, x: int, y: int,
                   gridPosition: Int3, voxel: Voxel) returns (height: int)
    requires GridOk(voxels, chunkSize) && InSlice(chunkSize, direction, x, y, depth)
    requires gridPosition == PlanePosition(direction, x, y, depth)
    requires voxel == VoxelAt(voxels, chunkSize, gridPosition)
    ensures height == RunHeight(voxels, chunkSize, direction, depth, x, y, 1)
  {
    height := 1;
    while height + y < chunkSize.Get(AlignedY(direction))
      invariant 1 <= height && y + height <= SliceHeight(chunkSize, direction)
      invariant RunHeight(voxels, chunkSize, direction, depth, x, y, height)
             == RunHeight(voxels, chunkSize, direction, depth, x, y, 1)
      decreases SliceHeight(chunkSize, direction) - height
    {
      var nextPosition := gridPosition.Set(AlignedY(direction), gridPosition.Get(AlignedY(direction)) + height);
      PlanePositionShift(direction, x, y, depth, height);
      PlanePositionInBounds(chunkSize, direction, x, y + height, depth);
      var nextVoxel := voxels[To1DIndex(nextPosition, chunkSize)];
      if nextVoxel.data != voxel.data {
        break;
      }
      height := height + 1;
    }
  }

  /** The y loop over strip x of a depth slice: the scan that jumps over each run it emits. */
  method ScanStrip(voxels: seq<Voxel>, chunkSize: Int3, direction: Direction, depth: int, x: int, data: NativeMeshData)
    requires GridOk(voxels, chunkSize) && InStrip(chunkSize, direction, depth, x)
    requires data.Valid() && HasRoom(data, |StripQuads(voxels, chunkSize, direction, depth, x, 0)|)
    modifies data`count, data`Quads, data.nativeVertices, data.nativeIndices
    ensures data.Valid()
    ensures data.Quads == old(data.Quads) + StripQuads(voxels, chunkSize, direction, depth, x, 0)
  {
    ghost var before := data.Quads;
    var y := 0;
    while y < chunkSize.Get(AlignedY(direction))
      invariant 0 <= y <= SliceHeight(chunkSize, direction)
      invariant data.Valid()
      invariant before + StripQuads(voxels, chunkSize, direction, depth, x, 0)
             == data.Quads + StripQuads(voxels, chunkSize, direction, depth, x, y)
      decreases SliceHeight(chunkSize, direction) - y
    {
      y := ScanCell(voxels, chunkSize, direction, depth, x, y, data);
    }
  }

  /** One pass of the y loop: skips cell y, or emits the run starting there; returns the next cursor. */
  method ScanCell(voxels: seq<Voxel>, chunkSize: Int3, direction: Direction, depth: int, x: int, y: int,
                  data: NativeMeshData) returns (next: int)
    requires GridOk(voxels, chunkSize) && InStrip(chunkSize, direction, depth, x)
    requires 0 <= y < SliceHeight(chunkSize, direction)
    requires data.Valid() && HasRoom(data, |StripQuads(voxels, chunkSize, direction, depth, x, y)|)
    modifies data`count, data`Quads, data.nativeVertices, data.nativeIndices
    ensures y < next <= SliceHeight(chunkSize, direction)
    ensures data.Valid()
    ensures old(data.Quads) + StripQuads(voxels, chunkSize, direction, depth, x, y)
         == data.Quads + StripQuads(voxels, chunkSize, direction, depth, x, next)
  {
    var gridPosition := PlanePosition(direction, x, y, depth);
    PlanePositionInBounds(chunkSize, direction, x, y, depth);
    var voxel := voxels[To1DIndex(gridPosition, chunkSize)];
    if voxel.data == Air {
      return y + 1;
    }
    var neighborPosition := gridPosition.Plus(VoxelDirectionOffset(direction));
    TransparencyCheckHidesFace(voxels, chunkSize, gridPosition, direction);
    if TransparencyCheck(voxels, neighborPosition, chunkSize) {
      return y + 1;
    }
    var height := RunLength(voxels, chunkSize, direction, depth, x, y, gridPosition, voxel);
    Assoc(data.Quads, [RunQuad(voxels, chunkSize, direction, depth, x, y)],
          StripQuads(voxels, chunkSize, direction, depth, x, y + height));
    data.Emit(Quad(direction, voxel.data, 1, height, gridPosition));
    next := y + height;
  }

  /** The x loop over the strips of one depth slice. */
  method ScanSlice(voxels: seq<Voxel>, chunkSize: Int3, direction: Direction, depth: int, data: NativeMeshData)
    requires GridOk(voxels, chunkSize) && 0 <= depth < SliceDepth(chunkSize, direction)
    requires data.Valid()
    requires HasRoom(data, |SliceQuads(voxels, chunkSize, direction, depth, SliceWidth(chunkSize, direction))|)
    modifies data`count, data`Quads, data.nativeVertices, data.nativeIndices
    ensures data.Valid()
    ensures data.Quads == old(data.Quads) + SliceQuads(voxels, chunkSize, direction, depth, SliceWidth(chunkSize, direction))
  {
    ghost var before := data.Quads;
    for x := 0 to chunkSize.Get(AlignedX(direction))
      invariant data.Valid()
      invariant data.Quads == before + SliceQuads(voxels, chunkSize, direction, depth, x)
    {
      StripFits(voxels, chunkSize, direction, depth, x, SliceWidth(chunkSize, direction));
      ScanStrip(voxels, chunkSize, direction, depth, x, data);
      Assoc(before, SliceQuads(voxels, chunkSize, direction, depth, x), StripQuads(voxels, chunkSize, direction, depth, x, 0));
    }
  }

  /** The depth loop of one direction. */
  method ScanDirection(voxels: seq<Voxel>, chunkSize: Int3, direction: Direction, data: NativeMeshData)
    requires GridOk(voxels, chunkSize) && data.Valid()
    requires HasRoom(data, |DirectionQuads(voxels, chunkSize, direction, SliceDepth(chunkSize, direction))|)
    modifies data`count, data`Quads, data.nativeVertices, data.nativeIndices
    ensures data.Valid()
    ensures data.Quads == old(data.Quads) + DirectionQuads(voxels, chunkSize, direction, SliceDepth(chunkSize, direction))
  {
    ghost var before := data.Quads;
    for depth := 0 to chunkSize.Get(AlignedZ(direction))
      invariant data.Valid()
      invariant data.Quads == before + DirectionQuads(voxels, chunkSize, direction, depth)
    {
      SliceFits(voxels, chunkSize, direction, depth, SliceDepth(chunkSize, direction));
      ScanSlice(voxels, chunkSize, direction, depth, data);
      Assoc(before, DirectionQuads(voxels, chunkSize, direction, depth),
            SliceQuads(voxels, chunkSize, direction, depth, SliceWidth(chunkSize, direction)));
    }
  }

  /** `VoxelGreedyMeshingOnlyHeightJob.Execute`: appends GreedyOnlyHeightQuads to the buffers. */
  method VoxelGreedyMeshingOnlyHeightJobExecute(voxels: seq<Voxel>, chunkSize: Int3, data: NativeMeshData)
    requires GridOk(voxels, chunkSize) && data.Valid()
    requires HasRoom(data, |GreedyOnlyHeightQuads(voxels, chunkSize)|)
    modifies data`count, data`Quads, data.nativeVertices, data.nativeIndices
    ensures data.Valid()
    ensures data.Quads == old(data.Quads) + GreedyOnlyHeightQuads(voxels, chunkSize)
  {
    ghost var before := data.Quads;
    for direction := 0 to 6
      invariant data.Valid()
      invariant data.Quads == before + SweepQuads(voxels, chunkSize, direction)
    {
      DirectionFits(voxels, chunkSize, direction, 6);
      ScanDirection(voxels, chunkSize, direction, data);
      Assoc(before, SweepQuads(voxels, chunkSize, direction),
            DirectionQuads(voxels, chunkSize, direction, SliceDepth(chunkSize, direction)));
    }
  }

  // ---------------------------------------------------------------------------
  // What the emitted quads are

  /**
   * A run that extends upward as far as it can, stated without reference to
   * the scan: uniform, inside the slice, and ended by the slice edge or a cell
   * of another type above it. The cell below its start may share its type (a
   * hidden-faced cell the scan skipped), so it is not maximal downward.
   */
  ghost predicate IsUpwardMaximalRun(voxels: seq<Voxel>, chunkSize: Int3, q: Quad)
    requires GridOk(voxels, chunkSize)
  {
    var d := q.direction;
    && InSlice(chunkSize, d, q.U(), q.V(), q.Depth())
    && q.width == 1 && 1 <= q.height && q.V() + q.height <= SliceHeight(chunkSize, d)
    && SliceFaceVisible(voxels, chunkSize, d, q.U(), q.V(), q.Depth())
    && q.data == SliceCell(voxels, chunkSize, d, q.U(), q.V(), q.Depth())
    && UniformInBounds(voxels, chunkSize, q)
    && (q.V() + q.height == SliceHeight(chunkSize, d)
        || SliceCell(voxels, chunkSize, d, q.U(), q.V() + q.height, q.Depth()) != q.data)
  }

  /** The quad the scan emits at its own base cell, which shows a face. */
  ghost predicate IsScanRun(voxels: seq<Voxel>, chunkSize: Int3, q: Quad)
    requires GridOk(voxels, chunkSize)
  {
    && InSlice(chunkSize, q.direction, q.U(), q.V(), q.Depth())
    && SliceFaceVisible(voxels, chunkSize, q.direction, q.U(), q.V(), q.Depth())
    && q == RunQuad(voxels, chunkSize, q.direction, q.Depth(), q.U(), q.V())
  }

  /** The run loop keeps every cell it passes of the start cell's type and stops only at a change or the edge. */
  lemma {:induction false} RunHeightUniform(voxels: seq<Voxel>, chunkSize: Int3, d: Direction, depth: int, u: int, v: int, h: int)
    requires GridOk(voxels, chunkSize) && InSlice(chunkSize, d, u, v, depth)
    requires 1 <= h && v + h <= SliceHeight(chunkSize, d)
    requires forall w :: v <= w < v + h ==> SliceCell(voxels, chunkSize, d, u, w, depth) == SliceCell(voxels, chunkSize, d, u, v, depth)
    ensures var r := RunHeight(voxels, chunkSize, d, depth, u, v, h);
      && (forall w :: v <= w < v + r ==> SliceCell(voxels, chunkSize, d, u, w, depth) == SliceCell(voxels, chunkSize, d, u, v, depth))
      && (v + r == SliceHeight(chunkSize, d)
          || SliceCell(voxels, chunkSize, d, u, v + r, depth) != SliceCell(voxels, chunkSize, d, u, v, depth))
    decreases SliceHeight(chunkSize, d) - v - h
  {
    if v + h < SliceHeight(chunkSize, d)
       && SliceCell(voxels, chunkSize, d, u, v + h, depth) == SliceCell(voxels, chunkSize, d, u, v, depth)
    {
      RunHeightUniform(voxels, chunkSize, d, depth, u, v, h + 1);
    }
  }

  /** The quad a visible start cell receives extends upward until the slice edge or a type change. */
  lemma RunQuadExtendsUpward(voxels: seq<Voxel>, chunkSize: Int3, d: Direction, depth: int, u: int, v: int)
    requires GridOk(voxels, chunkSize) && InSlice(chunkSize, d, u, v, depth)
    requires SliceFaceVisible(voxels, chunkSize, d, u, v, depth)
    ensures IsUpwardMaximalRun(voxels, chunkSize, RunQuad(voxels, chunkSize, d, depth, u, v))
  {
    var q := RunQuad(voxels, chunkSize, d, depth, u, v);
    assert q.direction == d && q.U() == u && q.V() == v && q.Depth() == depth;
    RunHeightUniform(voxels, chunkSize, d, depth, u, v, 1);
    forall u', v' {:trigger PlanePosition(d, u', v', depth)} | q.Covers(u', v')
      ensures BoundaryCheck(PlanePosition(d, u', v', depth), chunkSize)
      ensures VoxelAt(voxels, chunkSize, PlanePosition(d, u', v', depth)).data == q.data
    {
      assert u' == u && v <= v' < v + q.height;
      assert InSlice(chunkSize, d, u, v', depth);
      assert SliceCell(voxels, chunkSize, d, u, v', depth) == q.data;
    }
    assert UniformInBounds(voxels, chunkSize, q);
  }

  /** A scan run extends upward until the slice edge or a type change. */
  lemma ScanRunExtendsUpward(voxels: seq<Voxel>, chunkSize: Int3, q: Quad)
    requires GridOk(voxels, chunkSize) && IsScanRun(voxels, chunkSize, q)
    ensures IsUpwardMaximalRun(voxels, chunkSize, q)
  {
    RunQuadExtendsUpward(voxels, chunkSize, q.direction, q.Depth(), q.U(), q.V());
  }

  /** Every quad of strip u from cursor v is a scan run based at or after v in that strip. */
  lemma {:induction false} StripMembers(voxels: seq<Voxel>, chunkSize: Int3, d: Direction, depth: int, u: int, v: int)
    requires GridOk(voxels, chunkSize) && InStrip(chunkSize, d, depth, u) && 0 <= v <= SliceHeight(chunkSize, d)
    ensures forall q :: q in StripQuads(voxels, chunkSize, d, depth, u, v) ==>
      && IsScanRun(voxels, chunkSize, q) && q.direction == d && q.Depth() == depth && q.U() == u
      && q.width == 1 && v <= q.V() && q.V() + q.height <= SliceHeight(chunkSize, d)
    decreases SliceHeight(chunkSize, d) - v
  {
    if v == SliceHeight(chunkSize, d) {
    } else if !SliceFaceVisible(voxels, chunkSize, d, u, v, depth) {
      StripMembers(voxels, chunkSize, d, depth, u, v + 1);
    } else {
      StripMembers(voxels, chunkSize, d, depth, u, v + RunHeight(voxels, chunkSize, d, depth, u, v, 1));
    }
  }

  /** The runs of one strip do not overlap: each starts where the previous one ended or later. */
  lemma {:induction false} StripDisjoint(voxels: seq<Voxel>, chunkSize: Int3, d: Direction, depth: int, u: int, v: int)
    requires GridOk(voxels, chunkSize) && InStrip(chunkSize, d, depth, u) && 0 <= v <= SliceHeight(chunkSize, d)
    ensures PairwiseDisjoint(StripQuads(voxels, chunkSize, d, depth, u, v))
    decreases SliceHeight(chunkSize, d) - v
  {
    if v == SliceHeight(chunkSize, d) {
    } else if !SliceFaceVisible(voxels, chunkSize, d, u, v, depth) {
      StripDisjoint(voxels, chunkSize, d, depth, u, v + 1);
    } else {
      var h := RunHeight(voxels, chunkSize, d, depth, u, v, 1);
      StripDisjoint(voxels, chunkSize, d, depth, u, v + h);
      StripMembers(voxels, chunkSize, d, depth, u, v + h);
      DisjointAppend([RunQuad(voxels, chunkSize, d, depth, u, v)], StripQuads(voxels, chunkSize, d, depth, u, v + h));
    }
  }

  lemma {:induction false} StripPlaces(voxels: seq<Voxel>, chunkSize: Int3, d: Direction, depth: int, u: int)
    requires GridOk(voxels, chunkSize) && InStrip(chunkSize, d, depth, u)
    ensures forall q :: q in StripQuads(voxels, chunkSize, d, depth, u, 0) ==>
      q.direction == d && q.Depth() == depth && q.U() == u && q.width == 1
  {
    StripMembers(voxels, chunkSize, d, depth, u, 0);
  }

  lemma {:induction false} SliceMembers(voxels: seq<Voxel>, chunkSize: Int3, d: Direction, depth: int, n: int)
    requires GridOk(voxels, chunkSize) && 0 <= depth < SliceDepth(chunkSize, d) && 0 <= n <= SliceWidth(chunkSize, d)
    ensures forall q :: q in SliceQuads(voxels, chunkSize, d, depth, n) ==> IsScanRun(voxels, chunkSize, q)
    decreases n
  {
    if n > 0 {
      SliceMembers(voxels, chunkSize, d, depth, n - 1);
      StripMembers(voxels, chunkSize, d, depth, n - 1, 0);
    }
  }

  lemma {:induction false} SlicePlaces(voxels: seq<Voxel>, chunkSize: Int3, d: Direction, depth: int, n: int)
    requires GridOk(voxels, chunkSize) && 0 <= depth < SliceDepth(chunkSize, d) && 0 <= n <= SliceWidth(chunkSize, d)
    ensures forall q :: q in SliceQuads(voxels, chunkSize, d, depth, n) ==>
      q.direction == d && q.Depth() == depth && q.width == 1 && q.U() < n
    decreases n
  {
    if n > 0 {
      SlicePlaces(voxels, chunkSize, d, depth, n - 1);
      StripPlaces(voxels, chunkSize, d, depth, n - 1);
    }
  }

  lemma {:induction false} SliceDisjoint(voxels: seq<Voxel>, chunkSize: Int3, d: Direction, depth: int, n: int)
    requires GridOk(voxels, chunkSize) && 0 <= depth < SliceDepth(chunkSize, d) && 0 <= n <= SliceWidth(chunkSize, d)
    ensures PairwiseDisjoint(SliceQuads(voxels, chunkSize, d, depth, n))
    decreases n
  {
    if n > 0 {
      SliceDisjoint(voxels, chunkSize, d, depth, n - 1);
      StripDisjoint(voxels, chunkSize, d, depth, n - 1, 0);
      SlicePlaces(voxels, chunkSize, d, depth, n - 1);
      StripPlaces(voxels, chunkSize, d, depth, n - 1);
      DisjointAppend(SliceQuads(voxels, chunkSize, d, depth, n - 1), StripQuads(voxels, chunkSize, d, depth, n - 1, 0));
    }
  }

  lemma {:induction false} DirectionMembers(voxels: seq<Voxel>, chunkSize: Int3, d: Direction, n: int)
    requires GridOk(voxels, chunkSize) && 0 <= n <= SliceDepth(chunkSize, d)
    ensures forall q :: q in DirectionQuads(voxels, chunkSize, d, n) ==> IsScanRun(voxels, chunkSize, q)
    decreases n
  {
    if n > 0 {
      DirectionMembers(voxels, chunkSize, d, n - 1);
      SliceMembers(voxels, chunkSize, d, n - 1, SliceWidth(chunkSize, d));
    }
  }

  lemma {:induction false} DirectionPlaces(voxels: seq<Voxel>, chunkSize: Int3, d: Direction, n: int)
    requires GridOk(voxels, chunkSize) && 0 <= n <= SliceDepth(chunkSize, d)
    ensures forall q :: q in DirectionQuads(voxels, chunkSize, d, n) ==> q.direction == d && q.Depth() < n
    decreases n
  {
    if n > 0 {
      DirectionPlaces(voxels, chunkSize, d, n - 1);
      SlicePlaces(voxels, chunkSize, d, n - 1, SliceWidth(chunkSize, d));
    }
  }

  lemma {:induction false} DirectionDisjoint(voxels: seq<Voxel>, chunkSize: Int3, d: Direction, n: int)
    requires GridOk(voxels, chunkSize) && 0 <= n <= SliceDepth(chunkSize, d)
    ensures PairwiseDisjoint(DirectionQuads(voxels, chunkSize, d, n))
    decreases n
  {
    if n > 0 {
      var w := SliceWidth(chunkSize, d);
      DirectionDisjoint(voxels, chunkSize, d, n - 1);
      SliceDisjoint(voxels, chunkSize, d, n - 1, w);
      DirectionPlaces(voxels, chunkSize, d, n - 1);
      SlicePlaces(voxels, chunkSize, d, n - 1, w);
      DisjointAppend(DirectionQuads(voxels, chunkSize, d, n - 1), SliceQuads(voxels, chunkSize, d, n - 1, w));
    }
  }

  lemma {:induction false} SweepMembers(voxels: seq<Voxel>, chunkSize: Int3, n: int)
    requires GridOk(voxels, chunkSize) && 0 <= n <= 6
    ensures forall q :: q in SweepQuads(voxels, chunkSize, n) ==> IsScanRun(voxels, chunkSize, q)
    decreases n
  {
    if n > 0 {
      SweepMembers(voxels, chunkSize, n - 1);
      DirectionMembers(voxels, chunkSize, n - 1, SliceDepth(chunkSize, n - 1));
    }
  }

  lemma {:induction false} SweepPlaces(voxels: seq<Voxel>, chunkSize: Int3, n: int)
    requires GridOk(voxels, chunkSize) && 0 <= n <= 6
    ensures forall q :: q in SweepQuads(voxels, chunkSize, n) ==> q.direction < n
    decreases n
  {
    if n > 0 {
      SweepPlaces(voxels, chunkSize, n - 1);
      DirectionPlaces(voxels, chunkSize, n - 1, SliceDepth(chunkSize, n - 1));
    }
  }

  lemma {:induction false} SweepDisjoint(voxels: seq<Voxel>, chunkSize: Int3, n: int)
    requires GridOk(voxels, chunkSize) && 0 <= n <= 6
    ensures PairwiseDisjoint(SweepQuads(voxels, chunkSize, n))
    decreases n
  {
    if n > 0 {
      SweepDisjoint(voxels, chunkSize, n - 1);
      DirectionDisjoint(voxels, chunkSize, n - 1, SliceDepth(chunkSize, n - 1));
      SweepPlaces(voxels, chunkSize, n - 1);
      DirectionPlaces(voxels, chunkSize, n - 1, SliceDepth(chunkSize, n - 1));
      DisjointAppend(SweepQuads(voxels, chunkSize, n - 1), DirectionQuads(voxels, chunkSize, n - 1, SliceDepth(chunkSize, n - 1)));
    }
  }

  /**
   * Every quad the job emits is a run of one voxel type, inside the chunk,
   * starting at a visible face and extending upward until the slice edge or a
   * type change; and no two quads of one
   * direction share a cell.
   */
  lemma GreedyOnlyHeightQuadsAreRuns(voxels: seq<Voxel>, chunkSize: Int3)
    requires GridOk(voxels, chunkSize)
    ensures forall q :: q in GreedyOnlyHeightQuads(voxels, chunkSize) ==> IsUpwardMaximalRun(voxels, chunkSize, q)
    ensures PairwiseDisjoint(GreedyOnlyHeightQuads(voxels, chunkSize))
  {
    SweepMembers(voxels, chunkSize, 6);
    SweepDisjoint(voxels, chunkSize, 6);
    forall q | q in GreedyOnlyHeightQuads(voxels, chunkSize)
      ensures IsUpwardMaximalRun(voxels, chunkSize, q)
    {
      ScanRunExtendsUpward(voxels, chunkSize, q);
    }
  }

  /** An all-Air chunk produces no quads: every run starts at a visible face. */
  lemma AllAirEmitsNothing(voxels: seq<Voxel>, chunkSize: Int3)
    requires GridOk(voxels, chunkSize)
    requires forall i :: 0 <= i < |voxels| ==> voxels[i].data == Air
    ensures GreedyOnlyHeightQuads(voxels, chunkSize) == []
  {
    GreedyOnlyHeightQuadsAreRuns(voxels, chunkSize);
    AllAirHasNoStarts(voxels, chunkSize, GreedyOnlyHeightQuads(voxels, chunkSize));
  }

  // ---------------------------------------------------------------------------
  // Every visible face is drawn

  /** A visible cell at or after cursor v0 lies in a quad the strip scan emits from v0 on. */
  lemma {:induction false} StripCover(voxels: seq<Voxel>, chunkSize: Int3, d: Direction, depth: int, u: int, v0: int, w: int)
    returns (q: Quad)
    requires GridOk(voxels, chunkSize) && InStrip(chunkSize, d, depth, u)
    requires 0 <= v0 <= w < SliceHeight(chunkSize, d) && SliceFaceVisible(voxels, chunkSize, d, u, w, depth)
    ensures q in StripQuads(voxels, chunkSize, d, depth, u, v0) && q.direction == d && q.Depth() == depth && q.Covers(u, w)
    decreases SliceHeight(chunkSize, d) - v0
  {
    if !SliceFaceVisible(voxels, chunkSize, d, u, v0, depth) {
      q := StripCover(voxels, chunkSize, d, depth, u, v0 + 1, w);
    } else {
      var h := RunHeight(voxels, chunkSize, d, depth, u, v0, 1);
      if w < v0 + h {
        q := RunQuad(voxels, chunkSize, d, depth, u, v0);
      } else {
        q := StripCover(voxels, chunkSize, d, depth, u, v0 + h, w);
      }
    }
  }

  lemma {:induction false} SliceCover(voxels: seq<Voxel>, chunkSize: Int3, d: Direction, depth: int, n: int, u: int, w: int)
    returns (q: Quad)
    requires GridOk(voxels, chunkSize) && InSlice(chunkSize, d, u, w, depth) && u < n <= SliceWidth(chunkSize, d)
    requires SliceFaceVisible(voxels, chunkSize, d, u, w, depth)
    ensures q in SliceQuads(voxels, chunkSize, d, depth, n) && q.direction == d && q.Depth() == depth && q.Covers(u, w)
    decreases n
  {
    if u == n - 1 {
      q := StripCover(voxels, chunkSize, d, depth, u, 0, w);
    } else {
      q := SliceCover(voxels, chunkSize, d, depth, n - 1, u, w);
    }
  }

  lemma {:induction false} DirectionCover(voxels: seq<Voxel>, chunkSize: Int3, d: Direction, n: int, depth: int, u: int, w: int)
    returns (q: Quad)
    requires GridOk(voxels, chunkSize) && InSlice(chunkSize, d, u, w, depth) && depth < n <= SliceDepth(chunkSize, d)
    requires SliceFaceVisible(voxels, chunkSize, d, u, w, depth)
    ensures q in DirectionQuads(voxels, chunkSize, d, n) && q.direction == d && q.Depth() == depth && q.Covers(u, w)
    decreases n
  {
    if depth == n - 1 {
      q := SliceCover(voxels, chunkSize, d, depth, SliceWidth(chunkSize, d), u, w);
    } else {
      q := DirectionCover(voxels, chunkSize, d, n - 1, depth, u, w);
    }
  }

  lemma {:induction false} SweepCover(voxels: seq<Voxel>, chunkSize: Int3, n: int, d: Direction, depth: int, u: int, w: int)
    returns (q: Quad)
    requires GridOk(voxels, chunkSize) && InSlice(chunkSize, d, u, w, depth) && d < n <= 6
    requires SliceFaceVisible(voxels, chunkSize, d, u, w, depth)
    ensures q in SweepQuads(voxels, chunkSize, n) && q.direction == d && q.Depth() == depth && q.Covers(u, w)
    decreases n
  {
    if d == n - 1 {
      q := DirectionCover(voxels, chunkSize, d, SliceDepth(chunkSize, d), depth, u, w);
    } else {
      q := SweepCover(voxels, chunkSize, n - 1, d, depth, u, w);
    }
  }

  /** Every visible face of the chunk lies in the footprint of an emitted quad of its direction and slice. */
  lemma GreedyOnlyHeightCovers(voxels: seq<Voxel>, chunkSize: Int3, p: Int3, d: Direction)
    requires GridOk(voxels, chunkSize) && BoundaryCheck(p, chunkSize) && FaceVisible(voxels, chunkSize, p, d)
    ensures exists q :: q in GreedyOnlyHeightQuads(voxels, chunkSize) && q.direction == d
                   && q.Depth() == p.Get(AlignedZ(d)) && q.Covers(p.Get(AlignedX(d)), p.Get(AlignedY(d)))
  {
    var u, w, depth := p.Get(AlignedX(d)), p.Get(AlignedY(d)), p.Get(AlignedZ(d));
    PlanePositionOf(d, p);
    var q := SweepCover(voxels, chunkSize, 6, d, depth, u, w);
  }

  /**
   * Only the start cell's face is tested for visibility: the cell above a
   * run's start joins it whenever it has the same type, whether or not its own
   * face is hidden by a neighbour.
   */
  lemma NextCellJoinsRun(voxels: seq<Voxel>, chunkSize: Int3, d: Direction, depth: int, u: int, v: int)
    requires GridOk(voxels, chunkSize) && InSlice(chunkSize, d, u, v, depth) && v + 1 < SliceHeight(chunkSize, d)
    requires SliceCell(voxels, chunkSize, d, u, v + 1, depth) == SliceCell(voxels, chunkSize, d, u, v, depth)
    ensures RunQuad(voxels, chunkSize, d, depth, u, v).Covers(u, v + 1)
  {
  }
}
