/**
 * `VoxelGreedyMeshingJob`: like the height-only job, but a run may also grow
 * sideways, and a set of visited grid positions (the job's hash map) keeps
 * every cell a quad has already taken from starting or joining another quad.
 * The map is created empty for each direction and cleared after every depth
 * slice, so each slice starts from an empty set.
 *
 * The scan of one strip jumps and threads the visited set, so GreedyStrip is
 * written from the cursor forward and returns both what it emits and the set
 * it leaves; GreedySlice, DirectionQuads and GreedyQuads follow the x, depth
 * and direction loops. The job is proved to append exactly GreedyQuads; the
 * lemmas show every quad lies in the chunk on cells of one type with a visible
 * base face, no two quads of a direction share a cell, and every visible face
 * is covered.
 */
module GreedyJob {
  import opened VoxelUtil
  import opened MeshCommon

  /** `hashMap.ContainsKey` for the cell (u, v) of a depth slice. */
  predicate Seen(visited: set<Int3>, d: Direction, u: int, v: int, depth: int) {
    PlanePosition(d, u, v, depth) in visited
  }

  /** Grid positions of cells v .. v+h-1 of column u of a depth slice. */
  function ColumnCells(d: Direction, depth: int, u: int, v: int, h: nat): set<Int3>
    decreases h
  {
    if h == 0 then {} else ColumnCells(d, depth, u, v, h - 1) + {PlanePosition(d, u, v + h - 1, depth)}
  }

  /** Grid positions of the w x h block of cells whose corner is (u, v). */
  function Footprint(d: Direction, depth: int, u: int, v: int, w: nat, h: nat): set<Int3>
    decreases w
  {
    if w == 0 then {} else Footprint(d, depth, u, v, w - 1, h) + ColumnCells(d, depth, u + w - 1, v, h)
  }

  lemma {:induction false} ColumnCellsMembers(d: Direction, depth: int, u: int, v: int, h: nat)
    ensures forall a, b {:trigger PlanePosition(d, a, b, depth)} ::
      PlanePosition(d, a, b, depth) in ColumnCells(d, depth, u, v, h) <==> a == u && v <= b < v + h
    decreases h
  {
    if h > 0 {
      ColumnCellsMembers(d, depth, u, v, h - 1);
    }
  }

  lemma {:induction false} FootprintMembers(d: Direction, depth: int, u: int, v: int, w: nat, h: nat)
    ensures forall a, b {:trigger PlanePosition(d, a, b, depth)} ::
      PlanePosition(d, a, b, depth) in Footprint(d, depth, u, v, w, h) <==> u <= a < u + w && v <= b < v + h
    decreases w
  {
    if w > 0 {
      FootprintMembers(d, depth, u, v, w - 1, h);
      ColumnCellsMembers(d, depth, u + w - 1, v, h);
    }
  }

  /**
   * The height loop: the run from (u, v) grows while the next cell of column
   * u exists, has the start cell's type and has not been visited.
   */
  function GreedyHeight(voxels: seq<Voxel>, chunkSize: Int3, d: Direction, depth: int, u: int, v: int,
                        visited: set<Int3>, h: int): (r: int)
    requires GridOk(voxels, chunkSize) && InSlice(chunkSize, d, u, v, depth)
    requires 1 <= h && v + h <= SliceHeight(chunkSize, d)
    ensures h <= r && v + r <= SliceHeight(chunkSize, d)
    decreases SliceHeight(chunkSize, d) - v - h
  {
    if v + h == SliceHeight(chunkSize, d) then h
    else if SliceCell(voxels, chunkSize, d, u, v + h, depth) != SliceCell(voxels, chunkSize, d, u, v, depth) then h
    else if Seen(visited, d, u, v + h, depth) then h
    else GreedyHeight(voxels, chunkSize, d, depth, u, v, visited, h + 1)
  }

  /** Column a, rows v .. v+h-1, all hold type t and none is visited: the width loop may take it. */
  predicate ColumnFree(voxels: seq<Voxel>, chunkSize: Int3, d: Direction, depth: int, a: int, v: int, h: int,
                       t: VoxelType, visited: set<Int3>)
    requires GridOk(voxels, chunkSize) && 0 <= a < SliceWidth(chunkSize, d) && 0 <= depth < SliceDepth(chunkSize, d)
    requires 0 <= v && v + h <= SliceHeight(chunkSize, d)
  {
    forall b :: v <= b < v + h ==>
      SliceCell(voxels, chunkSize, d, a, b, depth) == t && !Seen(visited, d, a, b, depth)
  }

  /** The width loop: the w-column block grows while the next column exists and is free. */
  function GreedyWidth(voxels: seq<Voxel>, chunkSize: Int3, d: Direction, depth: int, u: int, v: int, h: int,
                       t: VoxelType, visited: set<Int3>, w: int): (r: int)
    requires GridOk(voxels, chunkSize) && InSlice(chunkSize, d, u, v, depth) && v + h <= SliceHeight(chunkSize, d)
    requires 1 <= w && u + w <= SliceWidth(chunkSize, d)
    ensures w <= r && u + r <= SliceWidth(chunkSize, d)
    decreases SliceWidth(chunkSize, d) - u - w
  {
    if u + w == SliceWidth(chunkSize, d) then w
    else if !ColumnFree(voxels, chunkSize, d, depth, u + w, v, h, t, visited) then w
    else GreedyWidth(voxels, chunkSize, d, depth, u, v, h, t, visited, w + 1)
  }

  /** The quad started at the unvisited visible cell (u, v). */
  function GreedyQuad(voxels: seq<Voxel>, chunkSize: Int3, d: Direction, depth: int, u: int, v: int,
                      visited: set<Int3>): Quad
    requires GridOk(voxels, chunkSize) && InSlice(chunkSize, d, u, v, depth)
  {
    var t := SliceCell(voxels, chunkSize, d, u, v, depth);
    var h := GreedyHeight(voxels, chunkSize, d, depth, u, v, visited, 1);
    Quad(d, t, GreedyWidth(voxels, chunkSize, d, depth, u, v, h, t, visited, 1), h, PlanePosition(d, u, v, depth))
  }

  /** A cell at (u, v) starts a quad: its face is visible and no earlier quad took it. */
  predicate StartsQuad(voxels: seq<Voxel>, chunkSize: Int3, d: Direction, depth: int, u: int, v: int,
                       visited: set<Int3>)
    requires GridOk(voxels, chunkSize) && InSlice(chunkSize, d, u, v, depth)
  {
    SliceFaceVisible(voxels, chunkSize, d, u, v, depth) && !Seen(visited, d, u, v, depth)
  }

  /** What the y scan of strip u emits from cursor v, and the visited set it leaves. */
  function GreedyStrip(voxels: seq<Voxel>, chunkSize: Int3, d: Direction, depth: int, u: int, v: int,
                       visited: set<Int3>): (seq<Quad>, set<Int3>)
    requires GridOk(voxels, chunkSize) && InStrip(chunkSize, d, depth, u) && 0 <= v <= SliceHeight(chunkSize, d)
    decreases SliceHeight(chunkSize, d) - v
  {
    if v == SliceHeight(chunkSize, d) then ([], visited)
    else if !StartsQuad(voxels, chunkSize, d, depth, u, v, visited) then
      GreedyStrip(voxels, chunkSize, d, depth, u, v + 1, visited)
    else
      var q := GreedyQuad(voxels, chunkSize, d, depth, u, v, visited);
      var rest := GreedyStrip(voxels, chunkSize, d, depth, u, v + q.height,
                              visited + Footprint(d, depth, u, v, q.width, q.height));
      ([q] + rest.0, rest.1)
  }

  /** What depth slice `depth` has emitted after n strips, and the visited set then (empty at the start). */
  function GreedySlice(voxels: seq<Voxel>, chunkSize: Int3, d: Direction, depth: int, n: int): (seq<Quad>, set<Int3>)
    requires GridOk(voxels, chunkSize) && 0 <= depth < SliceDepth(chunkSize, d) && 0 <= n <= SliceWidth(chunkSize, d)
    decreases n
  {
    if n == 0 then ([], {})
    else
      var prev := GreedySlice(voxels, chunkSize, d, depth, n - 1);
      var strip := GreedyStrip(voxels, chunkSize, d, depth, n - 1, 0, prev.1);
      (prev.0 + strip.0, strip.1)
  }

  /** Everything one depth slice emits. */
  function SliceQuads(voxels: seq<Voxel>, chunkSize: Int3, d: Direction, depth: int): seq<Quad>
    requires GridOk(voxels, chunkSize) && 0 <= depth < SliceDepth(chunkSize, d)
  {
    GreedySlice(voxels, chunkSize, d, depth, SliceWidth(chunkSize, d)).0
  }

  /** What direction d has emitted after its first n depth slices. */
  function DirectionQuads(voxels: seq<Voxel>, chunkSize: Int3, d: Direction, n: int): seq<Quad>
    requires GridOk(voxels, chunkSize) && 0 <= n <= SliceDepth(chunkSize, d)
    decreases n
  {
    if n == 0 then []
    else DirectionQuads(voxels, chunkSize, d, n - 1) + SliceQuads(voxels, chunkSize, d, n - 1)
  }

  /** What the job has emitted after its first n directions. */
  function SweepQuads(voxels: seq<Voxel>, chunkSize: Int3, n: int): seq<Quad>
    requires GridOk(voxels, chunkSize) && 0 <= n <= 6
    decreases n
  {
    if n == 0 then []
    else SweepQuads(voxels, chunkSize, n - 1) + DirectionQuads(voxels, chunkSize, n - 1, SliceDepth(chunkSize, n - 1))
  }

  /** Everything the job emits, in emission order. */
  function GreedyQuads(voxels: seq<Voxel>, chunkSize: Int3): seq<Quad>
    requires GridOk(voxels, chunkSize)
  {
    SweepQuads(voxels, chunkSize, 6)
  }

  lemma {:induction false} StripFits(voxels: seq<Voxel>, chunkSize: Int3, d: Direction, depth: int, n: int, m: int)
    requires GridOk(voxels, chunkSize) && 0 <= depth < SliceDepth(chunkSize, d) && 0 <= n < m <= SliceWidth(chunkSize, d)
    ensures |GreedySlice(voxels, chunkSize, d, depth, n).0|
            + |GreedyStrip(voxels, chunkSize, d, depth, n, 0, GreedySlice(voxels, chunkSize, d, depth, n).1).0|
         <= |GreedySlice(voxels, chunkSize, d, depth, m).0|
    decreases m
  {
    var prev := GreedySlice(voxels, chunkSize, d, depth, m - 1);
    assert GreedySlice(voxels, chunkSize, d, depth, m).0 == prev.0 + GreedyStrip(voxels, chunkSize, d, depth, m - 1, 0, prev.1).0;
    if n < m - 1 {
      StripFits(voxels, chunkSize, d, depth, n, m - 1);
    }
  }

  lemma {:induction false} SliceFits(voxels: seq<Voxel>, chunkSize: Int3, d: Direction, n: int, m: int)
    requires GridOk(voxels, chunkSize) && 0 <= n < m <= SliceDepth(chunkSize, d)
    ensures |DirectionQuads(voxels, chunkSize, d, n)| + |SliceQuads(voxels, chunkSize, d, n)|
         <= |DirectionQuads(voxels, chunkSize, d, m)|
    decreases m
  {
    if n < m - 1 {
      SliceFits(voxels, chunkSize, d, n, m - 1);
    }
  }

  lemma {:induction false} DirectionFits(voxels: seq<Voxel>, chunkSize: Int3, n: int, m: int)
    requires GridOk(voxels, chunkSize) && 0 <= n < m <= 6
    ensures |SweepQuads(voxels, chunkSize, n)| + |DirectionQuads(voxels, chunkSize, n, SliceDepth(chunkSize, n))|
         <= |SweepQuads(voxels, chunkSize, m)|
    decreases m
  {
    if n < m - 1 {
      DirectionFits(voxels, chunkSize, n, m - 1);
    }
  }

  // ---------------------------------------------------------------------------
  // The job

  /**
   * The height loop, entered with the start cell already marked: grows the run
   * and marks each cell it takes.
   */
  method ExtendHeight(voxels: seq<Voxel>, chunkSize: Int3, direction: Direction, depth: int, x: int, y: int,
                      gridPosition: Int3, voxel: Voxel, visited: set<Int3>, ghost seen: set<Int3>)
    returns (height: int, marked: set<Int3>)
    requires GridOk(voxels, chunkSize) && InSlice(chunkSize, direction, x, y, depth)
    requires gridPosition == PlanePosition(direction, x, y, depth)
    requires voxel == VoxelAt(voxels, chunkSize, gridPosition)
    requires visited == seen + ColumnCells(direction, depth, x, y, 1)
    ensures height == GreedyHeight(voxels, chunkSize, direction, depth, x, y, seen, 1)
    ensures marked == seen + ColumnCells(direction, depth, x, y, height)
  {
    height := 1;
    marked := visited;
    while height + y < chunkSize.Get(AlignedY(direction))
      invariant 1 <= height && y + height <= SliceHeight(chunkSize, direction)
      invariant GreedyHeight(voxels, chunkSize, direction, depth, x, y, seen, height)
             == GreedyHeight(voxels, chunkSize, direction, depth, x, y, seen, 1)
      invariant marked == seen + ColumnCells(direction, depth, x, y, height)
      decreases SliceHeight(chunkSize, direction) - height
    {
      var nextPosition := gridPosition.Set(AlignedY(direction), gridPosition.Get(AlignedY(direction)) + height);
      PlanePositionShift(direction, x, y, depth, height);
      PlanePositionInBounds(chunkSize, direction, x, y + height, depth);
      var nextVoxel := voxels[To1DIndex(nextPosition, chunkSize)];
      if nextVoxel.data != voxel.data {
        break;
      }
      ColumnCellsMembers(direction, depth, x, y, height);
      if nextPosition in marked {
        break;
      }
      marked := marked + {nextPosition};
      height := height + 1;
    }
  }

  /** The check loop of one width step: whether column x+width fails to continue the block. */
  method ColumnBlocked(voxels: seq<Voxel>, chunkSize: Int3, direction: Direction, depth: int, x: int, y: int,
                       width: int, height: int, gridPosition: Int3, voxel: Voxel, visited: set<Int3>)
    returns (isDone: bool)
    requires GridOk(voxels, chunkSize) && InSlice(chunkSize, direction, x, y, depth)
    requires 1 <= width && x + width < SliceWidth(chunkSize, direction)
    requires 1 <= height && y + height <= SliceHeight(chunkSize, direction)
    requires gridPosition == PlanePosition(direction, x, y, depth)
    ensures isDone == !ColumnFree(voxels, chunkSize, direction, depth, x + width, y, height, voxel.data, visited)
  {
    for dy := 0 to height
      invariant ColumnFree(voxels, chunkSize, direction, depth, x + width, y, dy, voxel.data, visited)
    {
      var nextPosition := gridPosition.Set(AlignedX(direction), gridPosition.Get(AlignedX(direction)) + width);
      PlanePositionShift(direction, x, y, depth, width);
      nextPosition := nextPosition.Set(AlignedY(direction), nextPosition.Get(AlignedY(direction)) + dy);
      PlanePositionShift(direction, x + width, y, depth, dy);
      PlanePositionInBounds(chunkSize, direction, x + width, y + dy, depth);
      var nextVoxel := voxels[To1DIndex(nextPosition, chunkSize)];
      if nextVoxel.data != voxel.data || nextPosition in visited {
        assert SliceCell(voxels, chunkSize, direction, x + width, y + dy, depth) == nextVoxel.data;
        return true;
      }
    }
    return false;
  }

  /** The marking loop of one width step: adds column x+width, rows y .. y+height-1. */
  method MarkColumn(direction: Direction, depth: int, x: int, y: int, width: int, height: int,
                    gridPosition: Int3, visited: set<Int3>) returns (marked: set<Int3>)
    requires 0 <= height && gridPosition == PlanePosition(direction, x, y, depth)
    ensures marked == visited + ColumnCells(direction, depth, x + width, y, height)
  {
    marked := visited;
    for dy := 0 to height
      invariant marked == visited + ColumnCells(direction, depth, x + width, y, dy)
    {
      var nextPosition := gridPosition.Set(AlignedX(direction), gridPosition.Get(AlignedX(direction)) + width);
      PlanePositionShift(direction, x, y, depth, width);
      nextPosition := nextPosition.Set(AlignedY(direction), nextPosition.Get(AlignedY(direction)) + dy);
      PlanePositionShift(direction, x + width, y, depth, dy);
      marked := marked + {nextPosition};
    }
  }

  /** Marked cells of the block do not change whether a column to its right is free. */
  lemma FootprintLeavesColumn(voxels: seq<Voxel>, chunkSize: Int3, d: Direction, depth: int, x: int, y: int,
                              w: nat, h: int, t: VoxelType, seen: set<Int3>)
    requires GridOk(voxels, chunkSize) && 0 <= x && x + w < SliceWidth(chunkSize, d) && 0 <= depth < SliceDepth(chunkSize, d)
    requires 0 <= y && 0 <= h && y + h <= SliceHeight(chunkSize, d)
    ensures ColumnFree(voxels, chunkSize, d, depth, x + w, y, h, t, seen + Footprint(d, depth, x, y, w, h))
        == ColumnFree(voxels, chunkSize, d, depth, x + w, y, h, t, seen)
  {
    FootprintMembers(d, depth, x, y, w, h);
    var a := x + w;
    forall b | y <= b < y + h
      ensures Seen(seen + Footprint(d, depth, x, y, w, h), d, a, b, depth) == Seen(seen, d, a, b, depth)
    {
    }
  }

  /** The width loop: grows the block column by column, marking each column it takes. */
  method ExtendWidth(voxels: seq<Voxel>, chunkSize: Int3, direction: Direction, depth: int, x: int, y: int,
                     gridPosition: Int3, voxel: Voxel, height: int, visited: set<Int3>, ghost seen: set<Int3>)
    returns (width: int, marked: set<Int3>)
    requires GridOk(voxels, chunkSize) && InSlice(chunkSize, direction, x, y, depth)
    requires 1 <= height && y + height <= SliceHeight(chunkSize, direction)
    requires gridPosition == PlanePosition(direction, x, y, depth)
    requires visited == seen + Footprint(direction, depth, x, y, 1, height)
    ensures width == GreedyWidth(voxels, chunkSize, direction, depth, x, y, height, voxel.data, seen, 1)
    ensures marked == seen + Footprint(direction, depth, x, y, width, height)
  {
    width := 1;
    marked := visited;
    while width + x < chunkSize.Get(AlignedX(direction))
      invariant 1 <= width && x + width <= SliceWidth(chunkSize, direction)
      invariant GreedyWidth(voxels, chunkSize, direction, depth, x, y, height, voxel.data, seen, width)
             == GreedyWidth(voxels, chunkSize, direction, depth, x, y, height, voxel.data, seen, 1)
      invariant marked == seen + Footprint(direction, depth, x, y, width, height)
      decreases SliceWidth(chunkSize, direction) - width
    {
      var isDone := ColumnBlocked(voxels, chunkSize, direction, depth, x, y, width, height, gridPosition, voxel, marked);
      FootprintLeavesColumn(voxels, chunkSize, direction, depth, x, y, width, height, voxel.data, seen);
      if isDone {
        break;
      }
      marked := MarkColumn(direction, depth, x, y, width, height, gridPosition, marked);
      width := width + 1;
    }
  }

  /** One pass of the y loop: skips cell y, or emits the quad starting there; returns the next cursor. */
  method ScanCell(voxels: seq<Voxel>, chunkSize: Int3, direction: Direction, depth: int, x: int, y: int,
                  visited: set<Int3>, data: NativeMeshData) returns (next: int, marked: set<Int3>)
    requires GridOk(voxels, chunkSize) && InStrip(chunkSize, direction, depth, x)
    requires 0 <= y < SliceHeight(chunkSize, direction)
    requires data.Valid() && HasRoom(data, |GreedyStrip(voxels, chunkSize, direction, depth, x, y, visited).0|)
    modifies data`count, data`Quads, data.nativeVertices, data.nativeIndices
    ensures y < next <= SliceHeight(chunkSize, direction)
    ensures data.Valid()
    ensures old(data.Quads) + GreedyStrip(voxels, chunkSize, direction, depth, x, y, visited).0
         == data.Quads + GreedyStrip(voxels, chunkSize, direction, depth, x, next, marked).0
    ensures GreedyStrip(voxels, chunkSize, direction, depth, x, y, visited).1
         == GreedyStrip(voxels, chunkSize, direction, depth, x, next, marked).1
  {
    var gridPosition := PlanePosition(direction, x, y, depth);
    PlanePositionInBounds(chunkSize, direction, x, y, depth);
    var voxel := voxels[To1DIndex(gridPosition, chunkSize)];
    if voxel.data == Air {
      StripSkips(voxels, chunkSize, direction, depth, x, y, visited);
      return y + 1, visited;
    }
    if gridPosition in visited {
      StripSkips(voxels, chunkSize, direction, depth, x, y, visited);
      return y + 1, visited;
    }
    var neighborPosition := gridPosition.Plus(VoxelDirectionOffset(direction));
    TransparencyCheckHidesFace(voxels, chunkSize, gridPosition, direction);
    if TransparencyCheck(voxels, neighborPosition, chunkSize) {
      StripSkips(voxels, chunkSize, direction, depth, x, y, visited);
      return y + 1, visited;
    }
    var height;
    ghost var before := data.Quads;
    height, marked := BuildQuad(voxels, chunkSize, direction, depth, x, y, gridPosition, voxel, visited, data);
    StripAfterQuad(voxels, chunkSize, direction, depth, x, y, visited, height, marked, before, data.Quads);
    next := y + height;
  }

  /** Emitting the quad of a start cell and marking its footprint accounts for the strip's next quad. */
  lemma StripAfterQuad(voxels: seq<Voxel>, chunkSize: Int3, d: Direction, depth: int, u: int, v: int, visited: set<Int3>,
                       height: int, marked: set<Int3>, before: seq<Quad>, after: seq<Quad>)
    requires GridOk(voxels, chunkSize) && InStrip(chunkSize, d, depth, u) && 0 <= v < SliceHeight(chunkSize, d)
    requires StartsQuad(voxels, chunkSize, d, depth, u, v, visited)
    requires var q := GreedyQuad(voxels, chunkSize, d, depth, u, v, visited);
      && height == q.height && marked == visited + Footprint(d, depth, u, v, q.width, q.height)
      && after == before + [q]
    ensures v < v + height <= SliceHeight(chunkSize, d)
    ensures before + GreedyStrip(voxels, chunkSize, d, depth, u, v, visited).0
         == after + GreedyStrip(voxels, chunkSize, d, depth, u, v + height, marked).0
    ensures GreedyStrip(voxels, chunkSize, d, depth, u, v, visited).1
         == GreedyStrip(voxels, chunkSize, d, depth, u, v + height, marked).1
  {
    var q := GreedyQuad(voxels, chunkSize, d, depth, u, v, visited);
    StripStarts(voxels, chunkSize, d, depth, u, v, visited);
    Assoc(before, [q], GreedyStrip(voxels, chunkSize, d, depth, u, v + height, marked).0);
  }

  /** A cell that starts no quad adds nothing: the scan moves on to the next cell. */
  lemma StripSkips(voxels: seq<Voxel>, chunkSize: Int3, d: Direction, depth: int, u: int, v: int, visited: set<Int3>)
    requires GridOk(voxels, chunkSize) && InStrip(chunkSize, d, depth, u) && 0 <= v < SliceHeight(chunkSize, d)
    requires !StartsQuad(voxels, chunkSize, d, depth, u, v, visited)
    ensures GreedyStrip(voxels, chunkSize, d, depth, u, v, visited) == GreedyStrip(voxels, chunkSize, d, depth, u, v + 1, visited)
  {
  }

  /** A cell that starts a quad emits it, then the scan resumes past its height with its footprint marked. */
  lemma StripStarts(voxels: seq<Voxel>, chunkSize: Int3, d: Direction, depth: int, u: int, v: int, visited: set<Int3>)
    requires GridOk(voxels, chunkSize) && InStrip(chunkSize, d, depth, u) && 0 <= v < SliceHeight(chunkSize, d)
    requires StartsQuad(voxels, chunkSize, d, depth, u, v, visited)
    ensures var q := GreedyQuad(voxels, chunkSize, d, depth, u, v, visited);
      && 1 <= q.height && v + q.height <= SliceHeight(chunkSize, d)
      && GreedyStrip(voxels, chunkSize, d, depth, u, v, visited)
         == ([q] + GreedyStrip(voxels, chunkSize, d, depth, u, v + q.height,
                               visited + Footprint(d, depth, u, v, q.width, q.height)).0,
             GreedyStrip(voxels, chunkSize, d, depth, u, v + q.height,
                         visited + Footprint(d, depth, u, v, q.width, q.height)).1)
  {
  }

  /**
   * The body of the y loop past its three skip tests: marks the start cell,
   * runs the height and width loops and emits the quad.
   */
  method BuildQuad(voxels: seq<Voxel>, chunkSize: Int3, direction: Direction, depth: int, x: int, y: int,
                   gridPosition: Int3, voxel: Voxel, visited: set<Int3>, data: NativeMeshData)
    returns (height: int, marked: set<Int3>)
    requires GridOk(voxels, chunkSize) && InSlice(chunkSize, direction, x, y, depth)
    requires gridPosition == PlanePosition(direction, x, y, depth)
    requires voxel == VoxelAt(voxels, chunkSize, gridPosition)
    requires data.Valid() && HasRoom(data, 1)
    modifies data`count, data`Quads, data.nativeVertices, data.nativeIndices
    ensures var q := GreedyQuad(voxels, chunkSize, direction, depth, x, y, visited);
      && height == q.height
      && marked == visited + Footprint(direction, depth, x, y, q.width, q.height)
      && data.Valid() && data.Quads == old(data.Quads) + [q]
  {
    marked := visited + {gridPosition};
    height, marked := ExtendHeight(voxels, chunkSize, direction, depth, x, y, gridPosition, voxel, marked, visited);
    var width;
    width, marked := ExtendWidth(voxels, chunkSize, direction, depth, x, y, gridPosition, voxel, height, marked, visited);
    data.Emit(Quad(direction, voxel.data, width, height, gridPosition));
  }

  /** The y loop over strip x of a depth slice. */
  method ScanStrip(voxels: seq<Voxel>, chunkSize: Int3, direction: Direction, depth: int, x: int,
                   visited: set<Int3>, data: NativeMeshData) returns (marked: set<Int3>)
    requires GridOk(voxels, chunkSize) && InStrip(chunkSize, direction, depth, x)
    requires data.Valid() && HasRoom(data, |GreedyStrip(voxels, chunkSize, direction, depth, x, 0, visited).0|)
    modifies data`count, data`Quads, data.nativeVertices, data.nativeIndices
    ensures data.Valid()
    ensures data.Quads == old(data.Quads) + GreedyStrip(voxels, chunkSize, direction, depth, x, 0, visited).0
    ensures marked == GreedyStrip(voxels, chunkSize, direction, depth, x, 0, visited).1
  {
    ghost var before := data.Quads;
    marked := visited;
    var y := 0;
    while y < chunkSize.Get(AlignedY(direction))
      invariant 0 <= y <= SliceHeight(chunkSize, direction)
      invariant data.Valid()
      invariant before + GreedyStrip(voxels, chunkSize, direction, depth, x, 0, visited).0
             == data.Quads + GreedyStrip(voxels, chunkSize, direction, depth, x, y, marked).0
      invariant GreedyStrip(voxels, chunkSize, direction, depth, x, 0, visited).1
             == GreedyStrip(voxels, chunkSize, direction, depth, x, y, marked).1
      decreases SliceHeight(chunkSize, direction) - y
    {
      y, marked := ScanCell(voxels, chunkSize, direction, depth, x, y, marked, data);
    }
  }

  /** The x loop over the strips of one depth slice, entered with the visited set empty. */
  method ScanSlice(voxels: seq<Voxel>, chunkSize: Int3, direction: Direction, depth: int,
                   visited: set<Int3>, data: NativeMeshData) returns (marked: set<Int3>)
    requires GridOk(voxels, chunkSize) && 0 <= depth < SliceDepth(chunkSize, direction) && visited == {}
    requires data.Valid() && HasRoom(data, |SliceQuads(voxels, chunkSize, direction, depth)|)
    modifies data`count, data`Quads, data.nativeVertices, data.nativeIndices
    ensures data.Valid()
    ensures data.Quads == old(data.Quads) + SliceQuads(voxels, chunkSize, direction, depth)
    ensures marked == GreedySlice(voxels, chunkSize, direction, depth, SliceWidth(chunkSize, direction)).1
  {
    ghost var before := data.Quads;
    marked := visited;
    for x := 0 to chunkSize.Get(AlignedX(direction))
      invariant data.Valid()
      invariant data.Quads == before + GreedySlice(voxels, chunkSize, direction, depth, x).0
      invariant marked == GreedySlice(voxels, chunkSize, direction, depth, x).1
    {
      StripFits(voxels, chunkSize, direction, depth, x, SliceWidth(chunkSize, direction));
      marked := ScanStrip(voxels, chunkSize, direction, depth, x, marked, data);
      Assoc(before, GreedySlice(voxels, chunkSize, direction, depth, x).0,
            GreedyStrip(voxels, chunkSize, direction, depth, x, 0, GreedySlice(voxels, chunkSize, direction, depth, x).1).0);
    }
  }

  /** The depth loop of one direction; the visited set is created empty and cleared after each slice. */
  method ScanDirection(voxels: seq<Voxel>, chunkSize: Int3, direction: Direction, data: NativeMeshData)
    requires GridOk(voxels, chunkSize) && data.Valid()
    requires HasRoom(data, |DirectionQuads(voxels, chunkSize, direction, SliceDepth(chunkSize, direction))|)
    modifies data`count, data`Quads, data.nativeVertices, data.nativeIndices
    ensures data.Valid()
    ensures data.Quads == old(data.Quads) + DirectionQuads(voxels, chunkSize, direction, SliceDepth(chunkSize, direction))
  {
    ghost var before := data.Quads;
    var hashMap: set<Int3> := {};
    for depth := 0 to chunkSize.Get(AlignedZ(direction))
      invariant data.Valid() && hashMap == {}
      invariant data.Quads == before + DirectionQuads(voxels, chunkSize, direction, depth)
    {
      SliceFits(voxels, chunkSize, direction, depth, SliceDepth(chunkSize, direction));
      hashMap := ScanSlice(voxels, chunkSize, direction, depth, hashMap, data);
      Assoc(before, DirectionQuads(voxels, chunkSize, direction, depth), SliceQuads(voxels, chunkSize, direction, depth));
      hashMap := {};
    }
  }

  /** `VoxelGreedyMeshingJob.Execute`: appends GreedyQuads to the buffers. */
  method VoxelGreedyMeshingJobExecute(voxels: seq<Voxel>, chunkSize: Int3, data: NativeMeshData)
    requires GridOk(voxels, chunkSize) && data.Valid()
    requires HasRoom(data, |GreedyQuads(voxels, chunkSize)|)
    modifies data`count, data`Quads, data.nativeVertices, data.nativeIndices
    ensures data.Valid()
    ensures data.Quads == old(data.Quads) + GreedyQuads(voxels, chunkSize)
  {
    ghost var before := data.Quads;
    for direction := 0 to 6
      invariant data.Valid()
      invariant data.Quads == before + SweepQuads(voxels, chunkSize, direction)
    {
      DirectionFits(voxels, chunkSize, direction, 6);
      ScanDirection(voxels, chunkSize, direction, data);
      Assoc(before, SweepQuads(voxels, chunkSize, direction),
            DirectionQuads(voxels, chunkSize, direction, SliceDepth(chunkSize, direction)));
    }
  }

  // ---------------------------------------------------------------------------
  // What the emitted quads are

  /** Columns u .. u+w-1 are all free for a block of type t over rows v .. v+h-1. */
  ghost predicate BlockFree(voxels: seq<Voxel>, chunkSize: Int3, d: Direction, depth: int, u: int, v: int, w: int, h: int,
                            t: VoxelType, visited: set<Int3>)
    requires GridOk(voxels, chunkSize) && 0 <= u && u + w <= SliceWidth(chunkSize, d) && 0 <= depth < SliceDepth(chunkSize, d)
    requires 0 <= v && v + h <= SliceHeight(chunkSize, d)
  {
    forall a :: u <= a < u + w ==> ColumnFree(voxels, chunkSize, d, depth, a, v, h, t, visited)
  }

  /**
   * A block quad: based at a visible face inside the sweep, at least one cell
   * wide and high, and every cell it covers is in the chunk and of its type.
   */
  ghost predicate IsGreedyBlock(voxels: seq<Voxel>, chunkSize: Int3, q: Quad)
    requires GridOk(voxels, chunkSize)
  {
    && InSlice(chunkSize, q.direction, q.U(), q.V(), q.Depth())
    && SliceFaceVisible(voxels, chunkSize, q.direction, q.U(), q.V(), q.Depth())
    && 1 <= q.width && 1 <= q.height
    && UniformInBounds(voxels, chunkSize, q)
  }

  /** No cell q covers is in the visited set. */
  ghost predicate Avoids(q: Quad, visited: set<Int3>) {
    forall a, b :: q.Covers(a, b) ==> !Seen(visited, q.direction, a, b, q.Depth())
  }

  /** Every cell q covers is in the visited set. */
  ghost predicate Within(q: Quad, visited: set<Int3>) {
    forall a, b :: q.Covers(a, b) ==> Seen(visited, q.direction, a, b, q.Depth())
  }

  /** The height loop only takes free cells of the start cell's type. */
  lemma {:induction false} GreedyHeightFree(voxels: seq<Voxel>, chunkSize: Int3, d: Direction, depth: int, u: int, v: int,
                                            visited: set<Int3>, h: int)
    requires GridOk(voxels, chunkSize) && InSlice(chunkSize, d, u, v, depth)
    requires 1 <= h && v + h <= SliceHeight(chunkSize, d)
    requires ColumnFree(voxels, chunkSize, d, depth, u, v, h, SliceCell(voxels, chunkSize, d, u, v, depth), visited)
    ensures ColumnFree(voxels, chunkSize, d, depth, u, v, GreedyHeight(voxels, chunkSize, d, depth, u, v, visited, h),
                       SliceCell(voxels, chunkSize, d, u, v, depth), visited)
    decreases SliceHeight(chunkSize, d) - v - h
  {
    if v + h < SliceHeight(chunkSize, d)
       && SliceCell(voxels, chunkSize, d, u, v + h, depth) == SliceCell(voxels, chunkSize, d, u, v, depth)
       && !Seen(visited, d, u, v + h, depth)
    {
      GreedyHeightFree(voxels, chunkSize, d, depth, u, v, visited, h + 1);
    }
  }

  /** The width loop only takes free columns. */
  lemma {:induction false} GreedyWidthFree(voxels: seq<Voxel>, chunkSize: Int3, d: Direction, depth: int, u: int, v: int,
                                           h: int, t: VoxelType, visited: set<Int3>, w: int)
    requires GridOk(voxels, chunkSize) && InSlice(chunkSize, d, u, v, depth) && v + h <= SliceHeight(chunkSize, d)
    requires 1 <= w && u + w <= SliceWidth(chunkSize, d)
    requires BlockFree(voxels, chunkSize, d, depth, u, v, w, h, t, visited)
    ensures BlockFree(voxels, chunkSize, d, depth, u, v, GreedyWidth(voxels, chunkSize, d, depth, u, v, h, t, visited, w),
                      h, t, visited)
    decreases SliceWidth(chunkSize, d) - u - w
  {
    if u + w < SliceWidth(chunkSize, d) && ColumnFree(voxels, chunkSize, d, depth, u + w, v, h, t, visited) {
      GreedyWidthFree(voxels, chunkSize, d, depth, u, v, h, t, visited, w + 1);
    }
  }

  /** The quad started at (u, v) is a block of cells of its type that were free when it started. */
  lemma GreedyQuadFree(voxels: seq<Voxel>, chunkSize: Int3, d: Direction, depth: int, u: int, v: int, visited: set<Int3>)
    requires GridOk(voxels, chunkSize) && InSlice(chunkSize, d, u, v, depth) && StartsQuad(voxels, chunkSize, d, depth, u, v, visited)
    ensures var q := GreedyQuad(voxels, chunkSize, d, depth, u, v, visited);
      BlockFree(voxels, chunkSize, d, depth, u, v, q.width, q.height, q.data, visited)
  {
    var q := GreedyQuad(voxels, chunkSize, d, depth, u, v, visited);
    GreedyHeightFree(voxels, chunkSize, d, depth, u, v, visited, 1);
    GreedyWidthFree(voxels, chunkSize, d, depth, u, v, q.height, q.data, visited, 1);
  }

  /** The quad started at (u, v) is a block quad based there. */
  lemma GreedyQuadIsBlock(voxels: seq<Voxel>, chunkSize: Int3, d: Direction, depth: int, u: int, v: int, visited: set<Int3>)
    requires GridOk(voxels, chunkSize) && InSlice(chunkSize, d, u, v, depth) && StartsQuad(voxels, chunkSize, d, depth, u, v, visited)
    ensures var q := GreedyQuad(voxels, chunkSize, d, depth, u, v, visited);
      && q.direction == d && q.Depth() == depth && q.U() == u && q.V() == v
      && IsGreedyBlock(voxels, chunkSize, q)
  {
    var q := GreedyQuad(voxels, chunkSize, d, depth, u, v, visited);
    GreedyQuadFree(voxels, chunkSize, d, depth, u, v, visited);
    forall a, b {:trigger PlanePosition(d, a, b, depth)} | q.Covers(a, b)
      ensures BoundaryCheck(PlanePosition(d, a, b, depth), chunkSize)
      ensures VoxelAt(voxels, chunkSize, PlanePosition(d, a, b, depth)).data == q.data
    {
      assert ColumnFree(voxels, chunkSize, d, depth, a, v, q.height, q.data, visited);
      assert SliceCell(voxels, chunkSize, d, a, b, depth) == q.data;
    }
  }

  /** The quad started at (u, v) takes no cell that was already visited. */
  lemma GreedyQuadAvoids(voxels: seq<Voxel>, chunkSize: Int3, d: Direction, depth: int, u: int, v: int, visited: set<Int3>)
    requires GridOk(voxels, chunkSize) && InSlice(chunkSize, d, u, v, depth) && StartsQuad(voxels, chunkSize, d, depth, u, v, visited)
    ensures var q := GreedyQuad(voxels, chunkSize, d, depth, u, v, visited);
      && q.direction == d && q.Depth() == depth && q.U() == u && q.V() == v
      && Avoids(q, visited)
  {
    var q := GreedyQuad(voxels, chunkSize, d, depth, u, v, visited);
    GreedyQuadFree(voxels, chunkSize, d, depth, u, v, visited);
    forall a, b | q.Covers(a, b)
      ensures !Seen(visited, d, a, b, depth)
    {
      assert ColumnFree(voxels, chunkSize, d, depth, a, v, q.height, q.data, visited);
    }
  }

  /** A quad inside the visited set and one avoiding it share no cell. */
  lemma MarksSeparate(p: Quad, q: Quad, visited: set<Int3>)
    requires p.direction == q.direction && p.Depth() == q.Depth()
    requires 1 <= p.width && 1 <= p.height && 1 <= q.width && 1 <= q.height
    requires Within(p, visited) && Avoids(q, visited)
    ensures Disjoint(p, q)
  {
    var a := if p.U() < q.U() then q.U() else p.U();
    var b := if p.V() < q.V() then q.V() else p.V();
    assert !(p.Covers(a, b) && q.Covers(a, b));
  }

  /** The quads a block covers are inside the visited set once its footprint is added. */
  lemma FootprintHolds(q: Quad, visited: set<Int3>)
    requires 0 <= q.width && 0 <= q.height
    ensures Within(q, visited + Footprint(q.direction, q.Depth(), q.U(), q.V(), q.width, q.height))
  {
    FootprintMembers(q.direction, q.Depth(), q.U(), q.V(), q.width, q.height);
  }

  /** The strip scan only adds to the visited set. */
  lemma {:induction false} StripGrows(voxels: seq<Voxel>, chunkSize: Int3, d: Direction, depth: int, u: int, v: int,
                                      visited: set<Int3>)
    requires GridOk(voxels, chunkSize) && InStrip(chunkSize, d, depth, u) && 0 <= v <= SliceHeight(chunkSize, d)
    ensures visited <= GreedyStrip(voxels, chunkSize, d, depth, u, v, visited).1
    decreases SliceHeight(chunkSize, d) - v
  {
    if v == SliceHeight(chunkSize, d) {
    } else if !StartsQuad(voxels, chunkSize, d, depth, u, v, visited) {
      StripGrows(voxels, chunkSize, d, depth, u, v + 1, visited);
    } else {
      var q := GreedyQuad(voxels, chunkSize, d, depth, u, v, visited);
      StripGrows(voxels, chunkSize, d, depth, u, v + q.height, visited + Footprint(d, depth, u, v, q.width, q.height));
    }
  }

  /** Every quad of a strip scan is a block quad of the strip's direction and slice. */
  lemma {:induction false} StripBlocks(voxels: seq<Voxel>, chunkSize: Int3, d: Direction, depth: int, u: int, v: int,
                                       visited: set<Int3>)
    requires GridOk(voxels, chunkSize) && InStrip(chunkSize, d, depth, u) && 0 <= v <= SliceHeight(chunkSize, d)
    ensures forall q :: q in GreedyStrip(voxels, chunkSize, d, depth, u, v, visited).0 ==>
      IsGreedyBlock(voxels, chunkSize, q) && q.direction == d && q.Depth() == depth
    decreases SliceHeight(chunkSize, d) - v
  {
    if v == SliceHeight(chunkSize, d) {
    } else if !StartsQuad(voxels, chunkSize, d, depth, u, v, visited) {
      StripBlocks(voxels, chunkSize, d, depth, u, v + 1, visited);
    } else {
      var q := GreedyQuad(voxels, chunkSize, d, depth, u, v, visited);
      GreedyQuadIsBlock(voxels, chunkSize, d, depth, u, v, visited);
      StripBlocks(voxels, chunkSize, d, depth, u, v + q.height, visited + Footprint(d, depth, u, v, q.width, q.height));
    }
  }

  /**
   * Every quad of a strip scan avoids the visited set the scan started from
   * and lies inside the set it leaves.
   */
  lemma {:induction false} StripMarks(voxels: seq<Voxel>, chunkSize: Int3, d: Direction, depth: int, u: int, v: int,
                                      visited: set<Int3>)
    requires GridOk(voxels, chunkSize) && InStrip(chunkSize, d, depth, u) && 0 <= v <= SliceHeight(chunkSize, d)
    ensures var r := GreedyStrip(voxels, chunkSize, d, depth, u, v, visited);
      forall q :: q in r.0 ==>
        q.direction == d && q.Depth() == depth && 1 <= q.width && 1 <= q.height
        && Avoids(q, visited) && Within(q, r.1)
    decreases SliceHeight(chunkSize, d) - v
  {
    if v == SliceHeight(chunkSize, d) {
    } else if !StartsQuad(voxels, chunkSize, d, depth, u, v, visited) {
      StripMarks(voxels, chunkSize, d, depth, u, v + 1, visited);
    } else {
      var q := GreedyQuad(voxels, chunkSize, d, depth, u, v, visited);
      var marked := visited + Footprint(d, depth, u, v, q.width, q.height);
      GreedyQuadAvoids(voxels, chunkSize, d, depth, u, v, visited);
      FootprintHolds(q, visited);
      StripGrows(voxels, chunkSize, d, depth, u, v + q.height, marked);
      StripMarks(voxels, chunkSize, d, depth, u, v + q.height, marked);
    }
  }

  /** The quads of one strip scan do not overlap. */
  lemma {:induction false} StripDisjoint(voxels: seq<Voxel>, chunkSize: Int3, d: Direction, depth: int, u: int, v: int,
                                         visited: set<Int3>)
    requires GridOk(voxels, chunkSize) && InStrip(chunkSize, d, depth, u) && 0 <= v <= SliceHeight(chunkSize, d)
    ensures PairwiseDisjoint(GreedyStrip(voxels, chunkSize, d, depth, u, v, visited).0)
    decreases SliceHeight(chunkSize, d) - v
  {
    if v == SliceHeight(chunkSize, d) {
    } else if !StartsQuad(voxels, chunkSize, d, depth, u, v, visited) {
      StripDisjoint(voxels, chunkSize, d, depth, u, v + 1, visited);
    } else {
      var q := GreedyQuad(voxels, chunkSize, d, depth, u, v, visited);
      var marked := visited + Footprint(d, depth, u, v, q.width, q.height);
      StripDisjoint(voxels, chunkSize, d, depth, u, v + q.height, marked);
      StripStartDisjoint(voxels, chunkSize, d, depth, u, v, visited);
    }
  }

  /** The quad a strip scan emits at v does not overlap anything the scan emits after it. */
  lemma StripStartDisjoint(voxels: seq<Voxel>, chunkSize: Int3, d: Direction, depth: int, u: int, v: int,
                           visited: set<Int3>)
    requires GridOk(voxels, chunkSize) && InStrip(chunkSize, d, depth, u) && 0 <= v < SliceHeight(chunkSize, d)
    requires StartsQuad(voxels, chunkSize, d, depth, u, v, visited)
    requires var q := GreedyQuad(voxels, chunkSize, d, depth, u, v, visited);
      PairwiseDisjoint(GreedyStrip(voxels, chunkSize, d, depth, u, v + q.height,
                                   visited + Footprint(d, depth, u, v, q.width, q.height)).0)
    ensures PairwiseDisjoint(GreedyStrip(voxels, chunkSize, d, depth, u, v, visited).0)
  {
    var q := GreedyQuad(voxels, chunkSize, d, depth, u, v, visited);
    GreedyQuadShape(voxels, chunkSize, d, depth, u, v, visited);
    var marked := visited + Footprint(d, depth, u, v, q.width, q.height);
    var rest := GreedyStrip(voxels, chunkSize, d, depth, u, v + q.height, marked).0;
    StripStarts(voxels, chunkSize, d, depth, u, v, visited);
    FootprintHolds(q, visited);
    StripMarks(voxels, chunkSize, d, depth, u, v + q.height, marked);
    assert PairwiseDisjoint([q]) && Within(q, marked);
    SeparatedAppend([q], rest, marked, d, depth);
    assert GreedyStrip(voxels, chunkSize, d, depth, u, v, visited).0 == [q] + rest;
  }

  /** The quad of a start cell sits at that cell, in its direction and slice, and spans at least one cell. */
  lemma GreedyQuadShape(voxels: seq<Voxel>, chunkSize: Int3, d: Direction, depth: int, u: int, v: int, visited: set<Int3>)
    requires GridOk(voxels, chunkSize) && InSlice(chunkSize, d, u, v, depth)
    ensures var q := GreedyQuad(voxels, chunkSize, d, depth, u, v, visited);
      && q.direction == d && q.U() == u && q.V() == v && q.Depth() == depth
      && 1 <= q.width && u + q.width <= SliceWidth(chunkSize, d)
      && 1 <= q.height && v + q.height <= SliceHeight(chunkSize, d)
  {
  }

  /** Every quad of a slice is a block quad of the slice. */
  lemma {:induction false} SliceBlocks(voxels: seq<Voxel>, chunkSize: Int3, d: Direction, depth: int, n: int)
    requires GridOk(voxels, chunkSize) && 0 <= depth < SliceDepth(chunkSize, d) && 0 <= n <= SliceWidth(chunkSize, d)
    ensures forall q :: q in GreedySlice(voxels, chunkSize, d, depth, n).0 ==>
      IsGreedyBlock(voxels, chunkSize, q) && q.direction == d && q.Depth() == depth
    decreases n
  {
    if n > 0 {
      SliceBlocks(voxels, chunkSize, d, depth, n - 1);
      StripBlocks(voxels, chunkSize, d, depth, n - 1, 0, GreedySlice(voxels, chunkSize, d, depth, n - 1).1);
    }
  }

  /** Every quad of a slice after n strips lies inside the visited set then. */
  lemma {:induction false} SliceMarks(voxels: seq<Voxel>, chunkSize: Int3, d: Direction, depth: int, n: int)
    requires GridOk(voxels, chunkSize) && 0 <= depth < SliceDepth(chunkSize, d) && 0 <= n <= SliceWidth(chunkSize, d)
    ensures var r := GreedySlice(voxels, chunkSize, d, depth, n);
      forall q :: q in r.0 ==>
        q.direction == d && q.Depth() == depth && 1 <= q.width && 1 <= q.height && Within(q, r.1)
    decreases n
  {
    if n > 0 {
      var prev := GreedySlice(voxels, chunkSize, d, depth, n - 1);
      SliceMarks(voxels, chunkSize, d, depth, n - 1);
      StripGrows(voxels, chunkSize, d, depth, n - 1, 0, prev.1);
      StripMarks(voxels, chunkSize, d, depth, n - 1, 0, prev.1);
    }
  }

  /** The quads of one slice do not overlap: later strips avoid every cell earlier ones marked. */
  lemma {:induction false} SliceDisjoint(voxels: seq<Voxel>, chunkSize: Int3, d: Direction, depth: int, n: int)
    requires GridOk(voxels, chunkSize) && 0 <= depth < SliceDepth(chunkSize, d) && 0 <= n <= SliceWidth(chunkSize, d)
    ensures PairwiseDisjoint(GreedySlice(voxels, chunkSize, d, depth, n).0)
    decreases n
  {
    if n > 0 {
      SliceDisjoint(voxels, chunkSize, d, depth, n - 1);
      SliceStepDisjoint(voxels, chunkSize, d, depth, n);
    }
  }

  /** Strip n-1 does not overlap the strips before it. */
  lemma SliceStepDisjoint(voxels: seq<Voxel>, chunkSize: Int3, d: Direction, depth: int, n: int)
    requires GridOk(voxels, chunkSize) && 0 <= depth < SliceDepth(chunkSize, d) && 0 < n <= SliceWidth(chunkSize, d)
    requires PairwiseDisjoint(GreedySlice(voxels, chunkSize, d, depth, n - 1).0)
    ensures PairwiseDisjoint(GreedySlice(voxels, chunkSize, d, depth, n).0)
  {
    var prev := GreedySlice(voxels, chunkSize, d, depth, n - 1);
    var strip := GreedyStrip(voxels, chunkSize, d, depth, n - 1, 0, prev.1).0;
    SliceMarks(voxels, chunkSize, d, depth, n - 1);
    StripMarks(voxels, chunkSize, d, depth, n - 1, 0, prev.1);
    StripDisjoint(voxels, chunkSize, d, depth, n - 1, 0, prev.1);
    SeparatedAppend(prev.0, strip, prev.1, d, depth);
  }

  /** Quads inside a visited set followed by quads avoiding it, all of one slice, do not overlap. */
  lemma SeparatedAppend(a: seq<Quad>, b: seq<Quad>, visited: set<Int3>, d: Direction, depth: int)
    requires PairwiseDisjoint(a) && PairwiseDisjoint(b)
    requires forall p :: p in a ==> p.direction == d && p.Depth() == depth && 1 <= p.width && 1 <= p.height && Within(p, visited)
    requires forall q :: q in b ==> q.direction == d && q.Depth() == depth && 1 <= q.width && 1 <= q.height && Avoids(q, visited)
    ensures PairwiseDisjoint(a + b)
  {
    forall p, q | p in a && q in b && p.direction == q.direction
      ensures Disjoint(p, q)
    {
      MarksSeparate(p, q, visited);
    }
    DisjointAppend(a, b);
  }

  lemma {:induction false} DirectionBlocks(voxels: seq<Voxel>, chunkSize: Int3, d: Direction, n: int)
    requires GridOk(voxels, chunkSize) && 0 <= n <= SliceDepth(chunkSize, d)
    ensures forall q :: q in DirectionQuads(voxels, chunkSize, d, n) ==>
      IsGreedyBlock(voxels, chunkSize, q) && q.direction == d && q.Depth() < n
    decreases n
  {
    if n > 0 {
      DirectionBlocks(voxels, chunkSize, d, n - 1);
      SliceBlocks(voxels, chunkSize, d, n - 1, SliceWidth(chunkSize, d));
    }
  }

  lemma {:induction false} DirectionPlaces(voxels: seq<Voxel>, chunkSize: Int3, d: Direction, n: int)
    requires GridOk(voxels, chunkSize) && 0 <= n <= SliceDepth(chunkSize, d)
    ensures forall q :: q in DirectionQuads(voxels, chunkSize, d, n) ==> q.direction == d && q.Depth() < n
    decreases n
  {
    if n > 0 {
      DirectionPlaces(voxels, chunkSize, d, n - 1);
      SliceMarks(voxels, chunkSize, d, n - 1, SliceWidth(chunkSize, d));
    }
  }

  lemma {:induction false} DirectionDisjoint(voxels: seq<Voxel>, chunkSize: Int3, d: Direction, n: int)
    requires GridOk(voxels, chunkSize) && 0 <= n <= SliceDepth(chunkSize, d)
    ensures PairwiseDisjoint(DirectionQuads(voxels, chunkSize, d, n))
    decreases n
  {
    if n > 0 {
      DirectionDisjoint(voxels, chunkSize, d, n - 1);
      DirectionPlaces(voxels, chunkSize, d, n - 1);
      SliceMarks(voxels, chunkSize, d, n - 1, SliceWidth(chunkSize, d));
      SliceDisjoint(voxels, chunkSize, d, n - 1, SliceWidth(chunkSize, d));
      DisjointAppend(DirectionQuads(voxels, chunkSize, d, n - 1), SliceQuads(voxels, chunkSize, d, n - 1));
    }
  }

  lemma {:induction false} SweepBlocks(voxels: seq<Voxel>, chunkSize: Int3, n: int)
    requires GridOk(voxels, chunkSize) && 0 <= n <= 6
    ensures forall q :: q in SweepQuads(voxels, chunkSize, n) ==> IsGreedyBlock(voxels, chunkSize, q)
    decreases n
  {
    if n > 0 {
      SweepBlocks(voxels, chunkSize, n - 1);
      DirectionBlocks(voxels, chunkSize, n - 1, SliceDepth(chunkSize, n - 1));
    }
  }

  lemma {:induction false} SweepDisjoint(voxels: seq<Voxel>, chunkSize: Int3, n: int)
    requires GridOk(voxels, chunkSize) && 0 <= n <= 6
    ensures forall q :: q in SweepQuads(voxels, chunkSize, n) ==> q.direction < n
    ensures PairwiseDisjoint(SweepQuads(voxels, chunkSize, n))
    decreases n
  {
    if n > 0 {
      SweepDisjoint(voxels, chunkSize, n - 1);
      DirectionPlaces(voxels, chunkSize, n - 1, SliceDepth(chunkSize, n - 1));
      DirectionDisjoint(voxels, chunkSize, n - 1, SliceDepth(chunkSize, n - 1));
      DisjointAppend(SweepQuads(voxels, chunkSize, n - 1), DirectionQuads(voxels, chunkSize, n - 1, SliceDepth(chunkSize, n - 1)));
    }
  }

  /**
   * Every quad the greedy job emits covers, inside the chunk, only cells of
   * its own type, starting from a visible face; no cell is covered twice.
   */
  lemma GreedyQuadsAreBlocks(voxels: seq<Voxel>, chunkSize: Int3)
    requires GridOk(voxels, chunkSize)
    ensures forall q :: q in GreedyQuads(voxels, chunkSize) ==> IsGreedyBlock(voxels, chunkSize, q)
    ensures PairwiseDisjoint(GreedyQuads(voxels, chunkSize))
  {
    SweepBlocks(voxels, chunkSize, 6);
    SweepDisjoint(voxels, chunkSize, 6);
  }

  /** An all-Air chunk produces no quads: every block starts at a visible face. */
  lemma AllAirEmitsNothing(voxels: seq<Voxel>, chunkSize: Int3)
    requires GridOk(voxels, chunkSize)
    requires forall i :: 0 <= i < |voxels| ==> voxels[i].data == Air
    ensures GreedyQuads(voxels, chunkSize) == []
  {
    GreedyQuadsAreBlocks(voxels, chunkSize);
    AllAirHasNoStarts(voxels, chunkSize, GreedyQuads(voxels, chunkSize));
  }

  // ---------------------------------------------------------------------------
  // Every visible face is drawn

  /** A cell the strip scan marked, and that was not marked before, lies in a quad the scan emitted. */
  lemma {:induction false} StripMarkedCovered(voxels: seq<Voxel>, chunkSize: Int3, d: Direction, depth: int, u: int, v: int,
                                              visited: set<Int3>, a: int, b: int) returns (q: Quad)
    requires GridOk(voxels, chunkSize) && InStrip(chunkSize, d, depth, u) && 0 <= v <= SliceHeight(chunkSize, d)
    ensures Seen(GreedyStrip(voxels, chunkSize, d, depth, u, v, visited).1, d, a, b, depth) && !Seen(visited, d, a, b, depth) ==>
      q in GreedyStrip(voxels, chunkSize, d, depth, u, v, visited).0 && q.direction == d && q.Depth() == depth && q.Covers(a, b)
    decreases SliceHeight(chunkSize, d) - v
  {
    q := Quad(d, Air, 0, 0, PlanePosition(d, a, b, depth));
    if v == SliceHeight(chunkSize, d) {
    } else if !StartsQuad(voxels, chunkSize, d, depth, u, v, visited) {
      q := StripMarkedCovered(voxels, chunkSize, d, depth, u, v + 1, visited, a, b);
    } else {
      var q0 := GreedyQuad(voxels, chunkSize, d, depth, u, v, visited);
      var marked := visited + Footprint(d, depth, u, v, q0.width, q0.height);
      FootprintMembers(d, depth, u, v, q0.width, q0.height);
      if Seen(marked, d, a, b, depth) {
        q := q0;
      } else {
        q := StripMarkedCovered(voxels, chunkSize, d, depth, u, v + q0.height, marked, a, b);
      }
    }
  }

  /** Every cell in a slice's visited set lies in a quad the slice emitted. */
  lemma {:induction false} SliceMarkedCovered(voxels: seq<Voxel>, chunkSize: Int3, d: Direction, depth: int, n: int,
                                              a: int, b: int) returns (q: Quad)
    requires GridOk(voxels, chunkSize) && 0 <= depth < SliceDepth(chunkSize, d) && 0 <= n <= SliceWidth(chunkSize, d)
    ensures Seen(GreedySlice(voxels, chunkSize, d, depth, n).1, d, a, b, depth) ==>
      q in GreedySlice(voxels, chunkSize, d, depth, n).0 && q.direction == d && q.Depth() == depth && q.Covers(a, b)
    decreases n
  {
    q := Quad(d, Air, 0, 0, PlanePosition(d, a, b, depth));
    if n > 0 {
      var prev := GreedySlice(voxels, chunkSize, d, depth, n - 1);
      if Seen(prev.1, d, a, b, depth) {
        q := SliceMarkedCovered(voxels, chunkSize, d, depth, n - 1, a, b);
      } else {
        q := StripMarkedCovered(voxels, chunkSize, d, depth, n - 1, 0, prev.1, a, b);
      }
    }
  }

  /** A visible cell at or after cursor v0 that was not yet marked lies in a quad the strip scan emits. */
  lemma {:induction false} StripCover(voxels: seq<Voxel>, chunkSize: Int3, d: Direction, depth: int, u: int, v0: int,
                                      visited: set<Int3>, w: int) returns (q: Quad)
    requires GridOk(voxels, chunkSize) && InStrip(chunkSize, d, depth, u)
    requires 0 <= v0 <= w < SliceHeight(chunkSize, d) && SliceFaceVisible(voxels, chunkSize, d, u, w, depth)
    ensures !Seen(visited, d, u, w, depth) ==>
      q in GreedyStrip(voxels, chunkSize, d, depth, u, v0, visited).0 && q.direction == d && q.Depth() == depth && q.Covers(u, w)
    decreases SliceHeight(chunkSize, d) - v0
  {
    q := Quad(d, Air, 0, 0, PlanePosition(d, u, w, depth));
    if !StartsQuad(voxels, chunkSize, d, depth, u, v0, visited) {
      if v0 < w {
        q := StripCover(voxels, chunkSize, d, depth, u, v0 + 1, visited, w);
      }
    } else {
      var q0 := GreedyQuad(voxels, chunkSize, d, depth, u, v0, visited);
      if w < v0 + q0.height {
        q := q0;
      } else {
        var marked := visited + Footprint(d, depth, u, v0, q0.width, q0.height);
        FootprintMembers(d, depth, u, v0, q0.width, q0.height);
        q := StripCover(voxels, chunkSize, d, depth, u, v0 + q0.height, marked, w);
      }
    }
  }

  lemma {:induction false} SliceCover(voxels: seq<Voxel>, chunkSize: Int3, d: Direction, depth: int, n: int, u: int, w: int)
    returns (q: Quad)
    requires GridOk(voxels, chunkSize) && InSlice(chunkSize, d, u, w, depth) && u < n <= SliceWidth(chunkSize, d)
    requires SliceFaceVisible(voxels, chunkSize, d, u, w, depth)
    ensures q in GreedySlice(voxels, chunkSize, d, depth, n).0 && q.direction == d && q.Depth() == depth && q.Covers(u, w)
    decreases n
  {
    if u == n - 1 {
      var prev := GreedySlice(voxels, chunkSize, d, depth, n - 1);
      if Seen(prev.1, d, u, w, depth) {
        q := SliceMarkedCovered(voxels, chunkSize, d, depth, n - 1, u, w);
      } else {
        q := StripCover(voxels, chunkSize, d, depth, u, 0, prev.1, w);
      }
    } else {
      q := SliceCover(voxels, chunkSize, d, depth, n - 1, u, w);
    }
  }

  lemma {:induction false} DirectionCover(voxels: seq<Voxel>, chunkSize: Int3, d: Direction, n: int, depth: int, u: int, w: int)
    returns (q: Quad)
    requires GridOk(voxels, chunkSize) && InSlice(chunkSize, d, u, w, depth) && depth < n <= SliceDepth(chunkSize, d)
    requires SliceFaceVisible(voxels, chunkSize, d, u, w, depth)
    ensures q in DirectionQuads(voxels, chunkSize, d, n) && q.direction == d && q.Depth() == depth && q.Covers(u, w)
    decreases n
  {
    if depth == n - 1 {
      q := SliceCover(voxels, chunkSize, d, depth, SliceWidth(chunkSize, d), u, w);
    } else {
      q := DirectionCover(voxels, chunkSize, d, n - 1, depth, u, w);
    }
  }

  lemma {:induction false} SweepCover(voxels: seq<Voxel>, chunkSize: Int3, n: int, d: Direction, depth: int, u: int, w: int)
    returns (q: Quad)
    requires GridOk(voxels, chunkSize) && InSlice(chunkSize, d, u, w, depth) && d < n <= 6
    requires SliceFaceVisible(voxels, chunkSize, d, u, w, depth)
    ensures q in SweepQuads(voxels, chunkSize, n) && q.direction == d && q.Depth() == depth && q.Covers(u, w)
    decreases n
  {
    if d == n - 1 {
      q := DirectionCover(voxels, chunkSize, d, SliceDepth(chunkSize, d), depth, u, w);
    } else {
      q := SweepCover(voxels, chunkSize, n - 1, d, depth, u, w);
    }
  }

  /** Every visible face of the chunk lies in the footprint of an emitted quad of its direction and slice. */
  lemma GreedyCovers(voxels: seq<Voxel>, chunkSize: Int3, p: Int3, d: Direction)
    requires GridOk(voxels, chunkSize) && BoundaryCheck(p, chunkSize) && FaceVisible(voxels, chunkSize, p, d)
    ensures exists q :: q in GreedyQuads(voxels, chunkSize) && q.direction == d
                   && q.Depth() == p.Get(AlignedZ(d)) && q.Covers(p.Get(AlignedX(d)), p.Get(AlignedY(d)))
  {
    var u, w, depth := p.Get(AlignedX(d)), p.Get(AlignedY(d)), p.Get(AlignedZ(d));
    PlanePositionOf(d, p);
    var q := SweepCover(voxels, chunkSize, 6, d, depth, u, w);
  }

  /**
   * Only the start cell's face is tested for visibility: the cell above a
   * quad's start joins it whenever it has the same type and is unvisited,
   * whether or not its own face is hidden by a neighbour.
   */
  lemma NextCellJoinsWithoutVisibilityTest(voxels: seq<Voxel>, chunkSize: Int3, d: Direction, depth: int, u: int, v: int,
                                           visited: set<Int3>)
    requires GridOk(voxels, chunkSize) && InSlice(chunkSize, d, u, v, depth) && v + 1 < SliceHeight(chunkSize, d)
    requires StartsQuad(voxels, chunkSize, d, depth, u, v, visited)
    requires SliceCell(voxels, chunkSize, d, u, v + 1, depth) == SliceCell(voxels, chunkSize, d, u, v, depth)
    requires !Seen(visited, d, u, v + 1, depth)
    ensures GreedyQuad(voxels, chunkSize, d, depth, u, v, visited).Covers(u, v + 1)
  {
  }
}
