/**
 * The terrain generator: it streams chunks in around a moving target,
 * creating at most a capped number of chunks per frame, nearest first; it owns
 * the coordinate-to-chunk map, gates each chunk's rebuilds on its 3x3x3
 * neighbourhood being generated, and routes world-space voxel edits to the
 * owning chunk and to the neighbouring chunks whose faces the edit can change.
 *
 * World positions are integer voxel coordinates; the chunk holding a position
 * is found by floor division by the chunk size.
 */
module Terrain {
  import opened VoxelUtil
  import opened MeshCommon
  import opened VoxelMeshBuilder
  import opened Chunks
  import opened StreamingQueue

  const IntMinValue: int := -0x8000_0000
  const IntMaxValue: int := 0x7FFF_FFFF

  /** The initial `lastTargetChunkPosition`, a coordinate no target is expected to reach. */
  const Sentinel: Int3 := Int3(IntMinValue, IntMaxValue, IntMinValue)

  /** `VoxelUtil.WorldToChunk`: the chunk coordinate holding a world position. */
  function WorldToChunk(world: Int3, chunkSize: Int3): Int3
    requires ValidSize(chunkSize)
  {
    Int3(world.x / chunkSize.x, world.y / chunkSize.y, world.z / chunkSize.z)
  }

  /** `VoxelUtil.WorldToGrid`: a world position relative to a chunk's origin. */
  function WorldToGrid(world: Int3, chunkPosition: Int3, chunkSize: Int3): Int3 {
    Int3(world.x - chunkPosition.x * chunkSize.x,
         world.y - chunkPosition.y * chunkSize.y,
         world.z - chunkPosition.z * chunkSize.z)
  }

  /** Along one axis: w + o stays in w's chunk exactly when its offset in the chunk stays in [0, s). */
  lemma AxisStaysInChunk(w: int, s: int, o: int)
    requires s > 0
    ensures 0 <= w - (w / s) * s < s
    ensures (w + o) / s == w / s <==> 0 <= w - (w / s) * s + o < s
  {
    var q := w / s;
    var g := w - q * s;
    assert g == w % s;
    assert (w + o) / s == q ==> (w + o) % s == g + o;
    if 0 <= g + o < s {
      DivModOfSum(g + o, q, s);
      assert g + o + s * q == w + o;
    }
  }

  /**
   * The grid position of a world position lies in its chunk, and a
   * neighbouring position lies in another chunk exactly when its grid position
   * leaves the chunk's box.
   */
  lemma LeavesChunkIffOutOfGrid(world: Int3, chunkSize: Int3, off: Int3)
    requires ValidSize(chunkSize)
    ensures BoundaryCheck(WorldToGrid(world, WorldToChunk(world, chunkSize), chunkSize), chunkSize)
    ensures var cp := WorldToChunk(world, chunkSize);
            var inside := BoundaryCheck(WorldToGrid(world, cp, chunkSize).Plus(off), chunkSize);
            (WorldToChunk(world.Plus(off), chunkSize) == cp <==> inside)
  {
    AxisStaysInChunk(world.x, chunkSize.x, off.x);
    AxisStaysInChunk(world.y, chunkSize.y, off.y);
    AxisStaysInChunk(world.z, chunkSize.z, off.z);
  }

  class TerrainGenerator {
    const chunkSize: Int3
    /** `chunkSpawnSize.x`, the spawn radius on x and z. */
    const spawnX: int
    /** `chunkSpawnSize.y`, the spawn radius on y. */
    const spawnY: int
    const maxGenerateChunksInFrame: int
    const simplifying: SimplifyingMethod
    /** `updatingChunks` with the cap it is compared against. */
    const budget: UpdateBudget

    var chunks: map<Int3, Chunk>
    var lastTargetChunkPosition: Int3
    var generateChunkQueue: seq<ChunkNode>

    /** Every resident chunk sits at its own coordinate and shares this generator's settings. */
    ghost predicate Valid()
      reads this`chunks
    {
      && ValidSize(chunkSize)
      && simplifying != GPUCulling
      && budget.maxGenerateChunksInFrame == maxGenerateChunksInFrame
      && forall p :: p in chunks ==>
           && chunks[p].chunkPosition == p && chunks[p].chunkSize == chunkSize
           && chunks[p].generator == budget && chunks[p].simplifying == simplifying
    }

    /** Every resident chunk's voxel array fits its box, and no two chunks share one. */
    ghost predicate ChunksValid()
      reads this`chunks
    {
      && (forall p :: p in chunks ==> chunks[p].Shaped())
      && forall p, q :: p in chunks && q in chunks && p != q ==> chunks[p].voxels != chunks[q].voxels
    }

    /** The resident coordinates whose chunk has a rebuild in flight. */
    ghost var rebuilding: set<Int3>

    /**
     * `rebuilding` is exactly the resident chunks with a rebuild in flight;
     * `updatingChunks` counts them, and, since a rebuild starts only while the
     * count is at most the cap, it is either zero or at most one above the cap.
     */
    ghost predicate RebuildsCounted()
      reads this`chunks, this`rebuilding, chunks.Values`pending, budget`updatingChunks
    {
      && (forall q :: q in rebuilding ==> q in chunks)
      && (forall q :: q in chunks ==> (chunks[q].pending <==> q in rebuilding))
      && CountMatches(budget.updatingChunks, rebuilding, maxGenerateChunksInFrame)
    }

    constructor (chunkSize: Int3, spawnX: int, spawnY: int, maxGenerateChunksInFrame: int, simplifying: SimplifyingMethod)
      requires ValidSize(chunkSize) && simplifying != GPUCulling
      ensures Valid() && ChunksValid() && RebuildsCounted()
      ensures this.chunkSize == chunkSize && this.spawnX == spawnX && this.spawnY == spawnY
      ensures this.maxGenerateChunksInFrame == maxGenerateChunksInFrame && this.simplifying == simplifying
      ensures chunks == map[] && generateChunkQueue == [] && lastTargetChunkPosition == Sentinel
      ensures fresh(budget) && budget.updatingChunks == 0
    {
      this.chunkSize := chunkSize;
      this.spawnX := spawnX;
      this.spawnY := spawnY;
      this.maxGenerateChunksInFrame := maxGenerateChunksInFrame;
      this.simplifying := simplifying;
      budget := new UpdateBudget(maxGenerateChunksInFrame);
      chunks := map[];
      lastTargetChunkPosition := Sentinel;
      generateChunkQueue := [];
      rebuilding := {};
    }

    // -------------------------------------------------------------------------
    // Streaming around the target

    /** The first pass of a target change: evict entries outside the box, re-prioritise the rest. */
    method ReprioritiseQueue(targetPosition: Int3)
      modifies this`generateChunkQueue
      ensures generateChunkQueue == Reprioritised(old(generateChunkQueue), targetPosition, spawnX, spawnY)
    {
      var queue := generateChunkQueue;
      var kept := [];
      for i := 0 to |queue|
        invariant kept == Reprioritised(queue[..i], targetPosition, spawnX, spawnY)
      {
        assert queue[..i + 1][..i] == queue[..i];
        var chunkNode := queue[i];
        var deltaPosition := targetPosition.Minus(chunkNode.chunkPosition);
        if spawnX < Abs(deltaPosition.x) || spawnY < Abs(deltaPosition.y) || spawnX < Abs(deltaPosition.z) {
          continue;
        }
        kept := kept + [chunkNode.(priority := targetPosition.Minus(chunkNode.chunkPosition).SqrMagnitude())];
      }
      assert queue[..|queue|] == queue;
      generateChunkQueue := kept;
    }

    /** The innermost loop of the box: z over the spawn radius at (x, y). */
    method EnqueueColumn(targetPosition: Int3, x: int, y: int)
      modifies this`generateChunkQueue
      ensures generateChunkQueue
                == old(generateChunkQueue) + ColumnNodes(chunks.Keys, targetPosition, spawnX, x, y, targetPosition.z + spawnX + 1)
    {
      var z := targetPosition.z - spawnX;
      while z <= targetPosition.z + spawnX
        invariant z <= targetPosition.z + spawnX + 1 || z == targetPosition.z - spawnX
        invariant generateChunkQueue == old(generateChunkQueue) + ColumnNodes(chunks.Keys, targetPosition, spawnX, x, y, z)
        decreases targetPosition.z + spawnX - z
      {
        var chunkPosition := Int3(x, y, z);
        ghost var column := ColumnNodes(chunks.Keys, targetPosition, spawnX, x, y, z);
        ghost var cell := NodeAt(chunks.Keys, targetPosition, chunkPosition);
        assert ColumnNodes(chunks.Keys, targetPosition, spawnX, x, y, z + 1) == column + cell;
        Assoc(old(generateChunkQueue), column, cell);
        if chunkPosition !in chunks {
          generateChunkQueue := generateChunkQueue + [ChunkNode(chunkPosition, targetPosition.Minus(chunkPosition).SqrMagnitude())];
        }
        z := z + 1;
      }
    }

    /** The middle loop of the box: y over the vertical spawn radius at x. */
    method EnqueuePlane(targetPosition: Int3, x: int)
      modifies this`generateChunkQueue
      ensures generateChunkQueue
                == old(generateChunkQueue) + PlaneNodes(chunks.Keys, targetPosition, spawnX, spawnY, x, targetPosition.y + spawnY + 1)
    {
      var y := targetPosition.y - spawnY;
      while y <= targetPosition.y + spawnY
        invariant y <= targetPosition.y + spawnY + 1 || y == targetPosition.y - spawnY
        invariant generateChunkQueue == old(generateChunkQueue) + PlaneNodes(chunks.Keys, targetPosition, spawnX, spawnY, x, y)
        decreases targetPosition.y + spawnY - y
      {
        ghost var plane := PlaneNodes(chunks.Keys, targetPosition, spawnX, spawnY, x, y);
        ghost var column := ColumnNodes(chunks.Keys, targetPosition, spawnX, x, y, targetPosition.z + spawnX + 1);
        assert PlaneNodes(chunks.Keys, targetPosition, spawnX, spawnY, x, y + 1) == plane + column;
        Assoc(old(generateChunkQueue), plane, column);
        EnqueueColumn(targetPosition, x, y);
        y := y + 1;
      }
    }

    /** The second pass of a target change: enqueue the box around the target. */
    method EnqueueSpawnBox(targetPosition: Int3)
      modifies this`generateChunkQueue
      ensures generateChunkQueue == old(generateChunkQueue) + SpawnBoxNodes(chunks.Keys, targetPosition, spawnX, spawnY)
    {
      var x := targetPosition.x - spawnX;
      while x <= targetPosition.x + spawnX
        invariant x <= targetPosition.x + spawnX + 1 || x == targetPosition.x - spawnX
        invariant generateChunkQueue == old(generateChunkQueue) + BoxNodes(chunks.Keys, targetPosition, spawnX, spawnY, x)
        decreases targetPosition.x + spawnX - x
      {
        ghost var box := BoxNodes(chunks.Keys, targetPosition, spawnX, spawnY, x);
        ghost var plane := PlaneNodes(chunks.Keys, targetPosition, spawnX, spawnY, x, targetPosition.y + spawnY + 1);
        assert BoxNodes(chunks.Keys, targetPosition, spawnX, spawnY, x + 1) == box + plane;
        Assoc(old(generateChunkQueue), box, plane);
        EnqueuePlane(targetPosition, x);
        x := x + 1;
      }
    }

    /**
     * `GenerateChunkByTargetPosition`, with the target's chunk coordinate as
     * input (`hasTarget` false when there is no target): nothing happens until
     * the target enters a new chunk; then the queue is re-prioritised and the
     * spawn box enqueued, and the new coordinate remembered.
     */
    method GenerateChunkByTargetPosition(hasTarget: bool, targetPosition: Int3)
      modifies this`generateChunkQueue, this`lastTargetChunkPosition
      ensures !hasTarget || old(lastTargetChunkPosition) == targetPosition ==>
                generateChunkQueue == old(generateChunkQueue) && lastTargetChunkPosition == old(lastTargetChunkPosition)
      ensures hasTarget && old(lastTargetChunkPosition) != targetPosition ==>
                && lastTargetChunkPosition == targetPosition
                && generateChunkQueue == Reprioritised(old(generateChunkQueue), targetPosition, spawnX, spawnY)
                                         + SpawnBoxNodes(chunks.Keys, targetPosition, spawnX, spawnY)
    {
      if !hasTarget {
        return;
      }
      if lastTargetChunkPosition == targetPosition {
        return;
      }
      ReprioritiseQueue(targetPosition);
      EnqueueSpawnBox(targetPosition);
      lastTargetChunkPosition := targetPosition;
    }

    // -------------------------------------------------------------------------
    // Creating chunks

    /**
     * `GenerateChunk`: the resident chunk at the coordinate, or a new chunk
     * registered there, wired to this generator.
     */
    method GenerateChunk(chunkPosition: Int3) returns (chunk: Chunk)
      requires Valid() && ChunksValid() && RebuildsCounted()
      modifies this`chunks
      ensures Valid() && ChunksValid() && RebuildsCounted()
      ensures chunkPosition in chunks && chunk == chunks[chunkPosition]
      ensures chunks.Keys == old(chunks.Keys) + {chunkPosition}
      ensures forall p :: p in old(chunks) ==> chunks[p] == old(chunks)[p]
      ensures chunkPosition in old(chunks) ==> chunks == old(chunks)
      ensures chunkPosition !in old(chunks) ==>
                && fresh(chunk) && chunks == old(chunks)[chunkPosition := chunk]
                && !chunk.initialized && !chunk.dirty && !chunk.updating
                && fresh(chunk.voxels) && forall i :: 0 <= i < chunk.voxels.Length ==> chunk.voxels[i] == Empty
    {
      if chunkPosition in chunks {
        return chunks[chunkPosition];
      }
      chunk := new Chunk(chunkPosition, chunkSize, budget, simplifying);
      chunks := chunks[chunkPosition := chunk];
    }

    /** `Dequeue` on the priority queue: remove and return a least-priority entry. */
    method Dequeue() returns (node: ChunkNode)
      requires |generateChunkQueue| > 0
      modifies this`generateChunkQueue
      ensures node == old(generateChunkQueue)[MinIndex(old(generateChunkQueue))]
      ensures generateChunkQueue == RemoveAt(old(generateChunkQueue), MinIndex(old(generateChunkQueue)))
    {
      var i := MinIndex(generateChunkQueue);
      node := generateChunkQueue[i];
      generateChunkQueue := RemoveAt(generateChunkQueue, i);
    }

    /**
     * One step of the drain: dequeue the nearest entry and create its chunk.
     * `resident` is the map before the drain began, `queue` the queue then.
     */
    method GenerateNearest(ghost queue: seq<ChunkNode>, ghost k: nat, ghost resident: map<Int3, Chunk>)
      requires Valid() && ChunksValid() && RebuildsCounted()
      requires k < |queue| && generateChunkQueue == Drain(queue, k).1
      requires chunks.Keys == resident.Keys + Positions(Drain(queue, k).0)
      requires forall p :: p in resident ==> p in chunks && chunks[p] == resident[p]
      modifies this`generateChunkQueue, this`chunks
      ensures Valid() && ChunksValid() && RebuildsCounted()
      ensures generateChunkQueue == Drain(queue, k + 1).1
      ensures chunks.Keys == resident.Keys + Positions(Drain(queue, k + 1).0)
      ensures forall p :: p in resident ==> p in chunks && chunks[p] == resident[p]
    {
      ghost var keys := chunks.Keys;
      var node := Dequeue();
      var chunk := GenerateChunk(node.chunkPosition);
      DrainStepKeys(queue, k, resident.Keys, keys, chunks.Keys);
    }

    /**
     * `ProcessGenerateChunkQueue`: dequeue nearest-first and create a chunk for
     * each entry, at most `maxGenerateChunksInFrame` of them, stopping early
     * when the queue runs out.
     */
    method ProcessGenerateChunkQueue()
      requires Valid() && ChunksValid() && RebuildsCounted()
      modifies this`generateChunkQueue, this`chunks
      ensures Valid() && ChunksValid() && RebuildsCounted()
      ensures var k := DrainCount(maxGenerateChunksInFrame, |old(generateChunkQueue)|);
              && generateChunkQueue == Drain(old(generateChunkQueue), k).1
              && chunks.Keys == old(chunks.Keys) + Positions(Drain(old(generateChunkQueue), k).0)
      ensures forall p :: p in old(chunks) ==> p in chunks && chunks[p] == old(chunks)[p]
    {
      ghost var queue, resident := generateChunkQueue, chunks;
      var numChunks := 0;
      while |generateChunkQueue| != 0
        invariant Valid() && ChunksValid() && RebuildsCounted()
        invariant numChunks <= |queue| && (numChunks == 0 || numChunks <= maxGenerateChunksInFrame)
        invariant generateChunkQueue == Drain(queue, numChunks).1
        invariant chunks.Keys == resident.Keys + Positions(Drain(queue, numChunks).0)
        invariant forall p :: p in resident ==> p in chunks && chunks[p] == resident[p]
        decreases |generateChunkQueue|
      {
        if numChunks >= maxGenerateChunksInFrame {
          break;
        }
        GenerateNearest(queue, numChunks, resident);
        numChunks := numChunks + 1;
      }
      assert numChunks == DrainCount(maxGenerateChunksInFrame, |queue|);
    }

    // -------------------------------------------------------------------------
    // The neighbour predicate

    /** A chunk is resident at p and has finished generating. */
    predicate Resident(p: Int3)
      reads this, chunks.Values
    {
      p in chunks && chunks[p].initialized
    }

    /** The predicate's innermost loop, z over the 3 coordinates around the chunk. */
    method ColumnReady(chunkPosition: Int3, x: int, y: int) returns (ready: bool)
      ensures ready <==> forall z :: chunkPosition.z - 1 <= z <= chunkPosition.z + 1 ==> Resident(Int3(x, y, z))
    {
      for z := chunkPosition.z - 1 to chunkPosition.z + 2
        invariant forall z' :: chunkPosition.z - 1 <= z' < z ==> Resident(Int3(x, y, z'))
      {
        var neighborChunkPosition := Int3(x, y, z);
        if neighborChunkPosition in chunks {
          if !chunks[neighborChunkPosition].initialized {
            return false;
          }
        } else {
          return false;
        }
      }
      return true;
    }

    method PlaneReady(chunkPosition: Int3, x: int) returns (ready: bool)
      ensures ready <==> forall y, z :: (chunkPosition.y - 1 <= y <= chunkPosition.y + 1
                                      && chunkPosition.z - 1 <= z <= chunkPosition.z + 1) ==> Resident(Int3(x, y, z))
    {
      for y := chunkPosition.y - 1 to chunkPosition.y + 2
        invariant forall y', z :: (chunkPosition.y - 1 <= y' < y
                                 && chunkPosition.z - 1 <= z <= chunkPosition.z + 1) ==> Resident(Int3(x, y', z))
      {
        ready := ColumnReady(chunkPosition, x, y);
        if !ready {
          return false;
        }
      }
      return true;
    }

    /**
     * The `CanUpdate` delegate `GenerateChunk` attaches to each chunk: true
     * exactly when all 27 chunks of the 3x3x3 block around it, itself
     * included, are resident and initialised.
     */
    method NeighborsReady(chunkPosition: Int3) returns (ready: bool)
      ensures ready <==> forall x, y, z :: (chunkPosition.x - 1 <= x <= chunkPosition.x + 1
                                         && chunkPosition.y - 1 <= y <= chunkPosition.y + 1
                                         && chunkPosition.z - 1 <= z <= chunkPosition.z + 1) ==> Resident(Int3(x, y, z))
    {
      for x := chunkPosition.x - 1 to chunkPosition.x + 2
        invariant forall x', y, z :: (chunkPosition.x - 1 <= x' < x
                                    && chunkPosition.y - 1 <= y <= chunkPosition.y + 1
                                    && chunkPosition.z - 1 <= z <= chunkPosition.z + 1) ==> Resident(Int3(x', y, z))
      {
        ready := PlaneReady(chunkPosition, x);
        if !ready {
          return false;
        }
      }
      return true;
    }

    // -------------------------------------------------------------------------
    // Rebuilds

    /**
     * One frame of a resident chunk's `Update`, its `CanUpdate` event being
     * the neighbour predicate `GenerateChunk` installs. A rebuild that starts
     * is counted in, so the count keeps matching the chunks rebuilding.
     */
    method UpdateChunk(p: Int3)
      requires Valid() && ChunksValid() && RebuildsCounted()
      requires p in chunks && chunks[p].Valid()
      requires chunks[p].initialized ==> MeshFits(simplifying, chunks[p].voxels[..], chunkSize)
      modifies chunks[p], budget, this`rebuilding
      ensures Valid() && ChunksValid() && RebuildsCounted()
      ensures chunks == old(chunks) && chunks[p].Valid()
      ensures rebuilding == old(rebuilding) + (if chunks[p].pending && !old(chunks[p].pending) then {p} else {})
    {
      var ready := NeighborsReady(p);
      UpdateWith(p, ready);
    }

    /** `Update` of the chunk at p given the value of its `CanUpdate` event. */
    method UpdateWith(p: Int3, neighborsReady: bool)
      requires Valid() && ChunksValid() && RebuildsCounted()
      requires p in chunks && chunks[p].Valid()
      requires chunks[p].initialized ==> MeshFits(simplifying, chunks[p].voxels[..], chunkSize)
      modifies chunks[p], budget, this`rebuilding
      ensures Valid() && ChunksValid() && RebuildsCounted()
      ensures chunks == old(chunks) && chunks[p].Valid()
      ensures rebuilding == old(rebuilding) + (if chunks[p].pending && !old(chunks[p].pending) then {p} else {})
    {
      var chunk := chunks[p];
      ghost var wasPending, count := chunk.pending, budget.updatingChunks;
      assert forall q :: q in chunks && q != p ==> chunks[q] != chunk;
      chunk.Update(neighborsReady);
      ghost var started := chunk.pending && !wasPending;
      CountStart(count, rebuilding, maxGenerateChunksInFrame, p, started);
      rebuilding := if started then rebuilding + {p} else rebuilding;
      forall q | q in chunks
        ensures chunks[q].pending <==> q in rebuilding
      {
        if q != p {
          assert chunks[q] != chunk;
        }
      }
    }

    /** The end of a resident chunk's rebuild: it is counted out and stops rebuilding. */
    method FinishChunkUpdate(p: Int3)
      requires Valid() && ChunksValid() && RebuildsCounted()
      requires p in chunks && chunks[p].Valid() && chunks[p].pending
      modifies chunks[p], budget, this`rebuilding
      ensures Valid() && ChunksValid() && RebuildsCounted()
      ensures chunks == old(chunks) && chunks[p].Valid()
      ensures rebuilding == old(rebuilding) - {p}
    {
      var chunk := chunks[p];
      ghost var count := budget.updatingChunks;
      assert forall q :: q in chunks && q != p ==> chunks[q] != chunk;
      chunk.FinishUpdateMesh();
      CountFinish(count, rebuilding, maxGenerateChunksInFrame, p);
      rebuilding := rebuilding - {p};
      forall q | q in chunks
        ensures chunks[q].pending <==> q in rebuilding
      {
        if q != p {
          assert chunks[q] != chunk;
        }
      }
    }

    /** Since the test is `<=`, up to one more chunk than the cap can be rebuilding at once, and no more. */
    lemma RebuildsAtMostCapPlusOne()
      requires RebuildsCounted()
      ensures |rebuilding| <= if maxGenerateChunksInFrame < 0 then 0 else maxGenerateChunksInFrame + 1
    {
    }

    // -------------------------------------------------------------------------
    // World-space access

    /** `GetVoxel` at a world position: the voxel of the owning chunk, if it has generated. */
    method GetVoxel(worldPosition: Int3) returns (found: bool, voxel: Voxel)
      requires Valid() && ChunksValid()
      ensures var cp := WorldToChunk(worldPosition, chunkSize);
              && (found <==> cp in chunks && chunks[cp].initialized)
              && (found ==> voxel == chunks[cp].voxels[To1DIndex(GridOf(worldPosition, chunkSize), chunkSize)])
              && (!found ==> voxel == Empty)
    {
      var chunkPosition := WorldToChunk(worldPosition, chunkSize);
      if chunkPosition in chunks {
        var chunk := chunks[chunkPosition];
        var gridPosition := WorldToGrid(worldPosition, chunkPosition, chunkSize);
        found, voxel := chunk.GetVoxel(gridPosition);
        if found {
          return;
        }
      }
      found, voxel := false, Empty;
    }

    /** `IsAir`: a generated air voxel; an unknown position is not air. */
    method IsAir(worldPosition: Int3) returns (air: bool)
      requires Valid() && ChunksValid()
      ensures var cp := WorldToChunk(worldPosition, chunkSize);
              air <==> && cp in chunks && chunks[cp].initialized
                       && chunks[cp].voxels[To1DIndex(GridOf(worldPosition, chunkSize), chunkSize)].data == Air
    {
      var found, voxel := GetVoxel(worldPosition);
      if found {
        return voxel.data == Air;
      }
      return false;
    }

    /**
     * The body of the border check for one offset: skip it while it stays in
     * the edited chunk's box or in the edited chunk, else tell the chunk it
     * reaches, if one is resident.
     */
    method NotifyOffset(worldPosition: Int3, offset: Int3)
      requires Valid()
      modifies chunks.Values`dirty, chunks.Values`argent
      ensures forall p :: p in chunks ==> chunks[p].dirty == (old(chunks[p].dirty) || NotifiesAt(worldPosition, chunkSize, offset, p))
      ensures forall p :: p in chunks ==> chunks[p].argent == (old(chunks[p].argent) || NotifiesAt(worldPosition, chunkSize, offset, p))
    {
      var chunkPosition := WorldToChunk(worldPosition, chunkSize);
      var gridPosition := WorldToGrid(worldPosition, chunkPosition, chunkSize);
      if BoundaryCheck(gridPosition.Plus(offset), chunkSize) {
        return;
      }
      var neighborChunkPosition := WorldToChunk(worldPosition.Plus(offset), chunkSize);
      if chunkPosition == neighborChunkPosition {
        return;
      }
      if neighborChunkPosition in chunks {
        chunks[neighborChunkPosition].NeighborChunkIsChanged();
      }
    }

    /** The z loop of the border check: offsets (x, y, -1..1). */
    method NotifyColumn(worldPosition: Int3, x: int, y: int)
      requires Valid()
      modifies chunks.Values`dirty, chunks.Values`argent
      ensures forall p :: p in chunks ==>
                chunks[p].dirty == (old(chunks[p].dirty) || ColumnNotifies(worldPosition, chunkSize, x, y, 2, p))
      ensures forall p :: p in chunks ==>
                chunks[p].argent == (old(chunks[p].argent) || ColumnNotifies(worldPosition, chunkSize, x, y, 2, p))
    {
      for z := -1 to 2
        invariant forall p :: p in chunks ==>
                    chunks[p].dirty == (old(chunks[p].dirty) || ColumnNotifies(worldPosition, chunkSize, x, y, z, p))
        invariant forall p :: p in chunks ==>
                    chunks[p].argent == (old(chunks[p].argent) || ColumnNotifies(worldPosition, chunkSize, x, y, z, p))
      {
        NotifyOffset(worldPosition, Int3(x, y, z));
      }
    }

    /** The y loop of the border check. */
    method NotifyPlane(worldPosition: Int3, x: int)
      requires Valid()
      modifies chunks.Values`dirty, chunks.Values`argent
      ensures forall p :: p in chunks ==> chunks[p].dirty == (old(chunks[p].dirty) || PlaneNotifies(worldPosition, chunkSize, x, 2, p))
      ensures forall p :: p in chunks ==> chunks[p].argent == (old(chunks[p].argent) || PlaneNotifies(worldPosition, chunkSize, x, 2, p))
    {
      for y := -1 to 2
        invariant forall p :: p in chunks ==> chunks[p].dirty == (old(chunks[p].dirty) || PlaneNotifies(worldPosition, chunkSize, x, y, p))
        invariant forall p :: p in chunks ==> chunks[p].argent == (old(chunks[p].argent) || PlaneNotifies(worldPosition, chunkSize, x, y, p))
      {
        NotifyColumn(worldPosition, x, y);
      }
    }

    /**
     * The border check after a successful edit: every resident chunk other
     * than the edited one that holds a position adjacent to the edited voxel,
     * diagonals included, is told its neighbour changed.
     */
    method NotifyNeighbors(worldPosition: Int3)
      requires Valid()
      modifies chunks.Values`dirty, chunks.Values`argent
      ensures forall p :: p in chunks ==> chunks[p].dirty == (old(chunks[p].dirty) || Notified(worldPosition, chunkSize, p))
      ensures forall p :: p in chunks ==> chunks[p].argent == (old(chunks[p].argent) || Notified(worldPosition, chunkSize, p))
    {
      for x := -1 to 2
        invariant forall p :: p in chunks ==> chunks[p].dirty == (old(chunks[p].dirty) || BlockNotifies(worldPosition, chunkSize, x, p))
        invariant forall p :: p in chunks ==> chunks[p].argent == (old(chunks[p].argent) || BlockNotifies(worldPosition, chunkSize, x, p))
      {
        NotifyPlane(worldPosition, x);
      }
    }

    /**
     * `SetVoxel` at a world position: edit the owning chunk if it has
     * generated, then mark the neighbouring chunks whose border faces the edit
     * can change. Fails, changing nothing, when the owning chunk is missing or
     * not yet generated.
     */
    method SetVoxel(worldPosition: Int3, t: VoxelType) returns (ok: bool)
      requires Valid() && ChunksValid() && RebuildsCounted()
      modifies chunks.Values`dirty, chunks.Values`argent, set c | c in chunks.Values :: c.voxels
      ensures Valid() && ChunksValid() && RebuildsCounted()
      ensures var cp := WorldToChunk(worldPosition, chunkSize);
              && (ok <==> cp in chunks && chunks[cp].initialized)
              && (ok ==> chunks[cp].voxels[..]
                              == old(chunks[cp].voxels[..])[To1DIndex(GridOf(worldPosition, chunkSize), chunkSize) := Voxel(t)])
      ensures var cp := WorldToChunk(worldPosition, chunkSize);
              forall p :: p in chunks && (!ok || p != cp) ==>
                chunks[p].voxels[..] == old(chunks[p].voxels[..])
      ensures var cp := WorldToChunk(worldPosition, chunkSize);
              forall p :: p in chunks ==>
                chunks[p].dirty == (old(chunks[p].dirty) || (ok && (p == cp || Notified(worldPosition, chunkSize, p))))
      ensures var cp := WorldToChunk(worldPosition, chunkSize);
              forall p :: p in chunks ==>
                chunks[p].argent == (old(chunks[p].argent) || (ok && (p == cp || Notified(worldPosition, chunkSize, p))))
    {
      var chunkPosition := WorldToChunk(worldPosition, chunkSize);
      if chunkPosition !in chunks {
        return false;
      }
      var chunk := chunks[chunkPosition];
      var gridPosition := WorldToGrid(worldPosition, chunkPosition, chunkSize);
      LeavesChunkIffOutOfGrid(worldPosition, chunkSize, Int3(0, 0, 0));
      ok := chunk.SetVoxel(gridPosition, t);
      assert ChunksValid();
      if ok {
        NotifyNeighbors(worldPosition);
      }
    }

    // -------------------------------------------------------------------------
    // Neighbour voxels

    /** Each resident coordinate with its chunk's voxel array, allocated at `Init`. */
    function VoxelArrays(): map<Int3, array?<Voxel>>
      reads this`chunks
    {
      map p | p in chunks :: chunks[p].voxels
    }

    /** The z loop of `GetNeighborVoxels`. */
    method AddNeighborColumn(neighborVoxels: seq<array?<Voxel>>, lo: Int3, hi: Int3, x: int, y: int)
      returns (r: seq<array?<Voxel>>)
      ensures r == neighborVoxels + NeighborColumn(VoxelArrays(), lo, x, y, hi.z + 1)
    {
      r := neighborVoxels;
      var z := lo.z;
      while z <= hi.z
        invariant z <= hi.z + 1 || z == lo.z
        invariant r == neighborVoxels + NeighborColumn(VoxelArrays(), lo, x, y, z)
        decreases hi.z - z
      {
        var neighborChunkPosition := Int3(x, y, z);
        if neighborChunkPosition in chunks {
          r := r + [chunks[neighborChunkPosition].voxels];
        } else {
          r := r + [null];
        }
        z := z + 1;
      }
    }

    /** The y loop of `GetNeighborVoxels`. */
    method AddNeighborPlane(neighborVoxels: seq<array?<Voxel>>, lo: Int3, hi: Int3, x: int)
      returns (r: seq<array?<Voxel>>)
      ensures r == neighborVoxels + NeighborPlane(VoxelArrays(), lo, hi, x, hi.y + 1)
    {
      r := neighborVoxels;
      var y := lo.y;
      while y <= hi.y
        invariant y <= hi.y + 1 || y == lo.y
        invariant r == neighborVoxels + NeighborPlane(VoxelArrays(), lo, hi, x, y)
        decreases hi.y - y
      {
        r := AddNeighborColumn(r, lo, hi, x, y);
        y := y + 1;
      }
    }

    /**
     * `GetNeighborVoxels`: the voxel arrays of the cube of side
     * 2 * numNeighbor + 1 around a chunk, x-major then y then z, with null for
     * every coordinate that has no chunk. A chunk still generating contributes
     * the array it allocated at `Init`.
     */
    method GetNeighborVoxels(chunkPosition: Int3, numNeighbor: int) returns (neighborVoxels: seq<array?<Voxel>>)
      ensures numNeighbor < 0 ==> neighborVoxels == []
      ensures numNeighbor >= 0 ==>
                var side := 2 * numNeighbor + 1;
                CubeInOrder(neighborVoxels, VoxelArrays(), chunkPosition.Minus(Int3(numNeighbor, numNeighbor, numNeighbor)), side, side * side)
    {
      var lo := chunkPosition.Minus(Int3(numNeighbor, numNeighbor, numNeighbor));
      var hi := chunkPosition.Plus(Int3(numNeighbor, numNeighbor, numNeighbor));
      neighborVoxels := [];
      var x := lo.x;
      while x <= hi.x
        invariant x <= hi.x + 1 || x == lo.x
        invariant neighborVoxels == NeighborBlock(VoxelArrays(), lo, hi, x)
        decreases hi.x - x
      {
        neighborVoxels := AddNeighborPlane(neighborVoxels, lo, hi, x);
        x := x + 1;
      }
      if numNeighbor >= 0 {
        var side := 2 * numNeighbor + 1;
        assert x == lo.x + side;
        NeighborBlockInOrder(VoxelArrays(), lo, hi, side, side * side);
      }
    }

    /**
     * What `GetNeighborVoxels` lists for one coordinate: null exactly when no
     * chunk is resident there, and otherwise that chunk's own array, whether
     * or not it has finished generating.
     */
    lemma NeighborArrayAt(p: Int3)
      ensures ArrayAt(VoxelArrays(), p) == null <==> p !in chunks
      ensures p in chunks ==> ArrayAt(VoxelArrays(), p) == chunks[p].voxels
    {
    }
  }

  /**
   * The admission count agrees with the set of chunks rebuilding, and is zero
   * or at most one above the cap.
   */
  predicate CountMatches(count: int, rebuilding: set<Int3>, cap: int) {
    count == |rebuilding| && (count == 0 || count <= cap + 1)
  }

  /**
   * A frame in which a rebuild may start: one admitted while the count is
   * within the cap, and counted in, keeps the count in step.
   */
  lemma CountStart(count: int, rebuilding: set<Int3>, cap: int, p: Int3, started: bool)
    requires CountMatches(count, rebuilding, cap) && (started ==> p !in rebuilding && count <= cap)
    ensures CountMatches(count + (if started then 1 else 0), if started then rebuilding + {p} else rebuilding, cap)
  {
  }

  /** A finished rebuild counted out keeps the count in step. */
  lemma CountFinish(count: int, rebuilding: set<Int3>, cap: int, p: Int3)
    requires CountMatches(count, rebuilding, cap) && p in rebuilding
    ensures CountMatches(count - 1, rebuilding - {p}, cap)
  {
    assert rebuilding == (rebuilding - {p}) + {p};
  }

  /** The grid position of a world position in its own chunk. */
  function GridOf(world: Int3, chunkSize: Int3): (g: Int3)
    requires ValidSize(chunkSize)
    ensures BoundaryCheck(g, chunkSize)
  {
    LeavesChunkIffOutOfGrid(world, chunkSize, Int3(0, 0, 0));
    WorldToGrid(world, WorldToChunk(world, chunkSize), chunkSize)
  }

  /**
   * The border check's test for one offset: the offset position leaves the
   * edited chunk's box, lies in another chunk, and that chunk is at p.
   */
  ghost predicate NotifiesAt(world: Int3, chunkSize: Int3, o: Int3, p: Int3)
    requires ValidSize(chunkSize)
  {
    var cp := WorldToChunk(world, chunkSize);
    && !BoundaryCheck(WorldToGrid(world, cp, chunkSize).Plus(o), chunkSize)
    && WorldToChunk(world.Plus(o), chunkSize) != cp
    && WorldToChunk(world.Plus(o), chunkSize) == p
  }

  /** Some offset (x, y, z) with z in [-1, zEnd) tells the chunk at p. */
  ghost predicate ColumnNotifies(world: Int3, chunkSize: Int3, x: int, y: int, zEnd: int, p: Int3)
    requires ValidSize(chunkSize)
  {
    exists z :: -1 <= z < zEnd && NotifiesAt(world, chunkSize, Int3(x, y, z), p)
  }

  /** Some offset (x, y, z) with y in [-1, yEnd) and z in [-1, 1] tells the chunk at p. */
  ghost predicate PlaneNotifies(world: Int3, chunkSize: Int3, x: int, yEnd: int, p: Int3)
    requires ValidSize(chunkSize)
  {
    exists y :: -1 <= y < yEnd && ColumnNotifies(world, chunkSize, x, y, 2, p)
  }

  /** Some offset with x in [-1, xEnd) and y, z in [-1, 1] tells the chunk at p. */
  ghost predicate BlockNotifies(world: Int3, chunkSize: Int3, xEnd: int, p: Int3)
    requires ValidSize(chunkSize)
  {
    exists x :: -1 <= x < xEnd && PlaneNotifies(world, chunkSize, x, 2, p)
  }

  /** Some offset in the 3x3x3 block around the edited voxel tells the chunk at p. */
  ghost predicate Notified(world: Int3, chunkSize: Int3, p: Int3)
    requires ValidSize(chunkSize)
  {
    BlockNotifies(world, chunkSize, 2, p)
  }

  /** Along one axis, a step of at most one voxel reaches the same or an adjacent chunk. */
  lemma AxisStepAdjacent(w: int, s: int, o: int)
    requires s > 0 && -1 <= o <= 1
    ensures w / s - 1 <= (w + o) / s <= w / s + 1
  {
    var q, r := w / s, w % s;
    assert w == r + s * q;
    if 0 <= r + o < s {
      DivModOfSum(r + o, q, s);
    } else if r + o < 0 {
      assert s * (q - 1) == s * q - s;
      DivModOfSum(s - 1, q - 1, s);
    } else {
      assert s * (q + 1) == s * q + s;
      DivModOfSum(0, q + 1, s);
    }
  }

  /**
   * The chunks an edit notifies are exactly the other chunks holding one of
   * the 26 positions around the edited voxel: the border check's two skips
   * (the offset position stays in the chunk's box, it stays in the chunk)
   * agree, so either alone would do.
   */
  lemma NotifiedIff(world: Int3, chunkSize: Int3, p: Int3)
    requires ValidSize(chunkSize)
    ensures Notified(world, chunkSize, p) <==>
              && p != WorldToChunk(world, chunkSize)
              && exists x, y, z :: -1 <= x <= 1 && -1 <= y <= 1 && -1 <= z <= 1
                                  && WorldToChunk(world.Plus(Int3(x, y, z)), chunkSize) == p
  {
    var cp := WorldToChunk(world, chunkSize);
    if Notified(world, chunkSize, p) {
      var x :| -1 <= x < 2 && PlaneNotifies(world, chunkSize, x, 2, p);
      var y :| -1 <= y < 2 && ColumnNotifies(world, chunkSize, x, y, 2, p);
      var z :| -1 <= z < 2 && NotifiesAt(world, chunkSize, Int3(x, y, z), p);
      assert WorldToChunk(world.Plus(Int3(x, y, z)), chunkSize) == p;
    }
    if p != cp && exists x, y, z :: -1 <= x <= 1 && -1 <= y <= 1 && -1 <= z <= 1
                                    && WorldToChunk(world.Plus(Int3(x, y, z)), chunkSize) == p {
      var x, y, z :| -1 <= x <= 1 && -1 <= y <= 1 && -1 <= z <= 1
                     && WorldToChunk(world.Plus(Int3(x, y, z)), chunkSize) == p;
      LeavesChunkIffOutOfGrid(world, chunkSize, Int3(x, y, z));
      assert NotifiesAt(world, chunkSize, Int3(x, y, z), p);
      assert ColumnNotifies(world, chunkSize, x, y, 2, p);
      assert PlaneNotifies(world, chunkSize, x, 2, p);
    }
  }

  /** A notified chunk is one of the 26 chunks around the edited one. */
  lemma NotifiedIsAdjacent(world: Int3, chunkSize: Int3, p: Int3)
    requires ValidSize(chunkSize) && Notified(world, chunkSize, p)
    ensures var cp := WorldToChunk(world, chunkSize);
            && p != cp
            && Abs(p.x - cp.x) <= 1 && Abs(p.y - cp.y) <= 1 && Abs(p.z - cp.z) <= 1
  {
    NotifiedIff(world, chunkSize, p);
    var x, y, z :| -1 <= x <= 1 && -1 <= y <= 1 && -1 <= z <= 1
                   && WorldToChunk(world.Plus(Int3(x, y, z)), chunkSize) == p;
    StepAdjacent(world, chunkSize, Int3(x, y, z));
  }

  /** A step of at most one voxel per axis reaches the same or an adjacent chunk. */
  lemma StepAdjacent(world: Int3, chunkSize: Int3, o: Int3)
    requires ValidSize(chunkSize) && -1 <= o.x <= 1 && -1 <= o.y <= 1 && -1 <= o.z <= 1
    ensures var cp, np := WorldToChunk(world, chunkSize), WorldToChunk(world.Plus(o), chunkSize);
            Abs(np.x - cp.x) <= 1 && Abs(np.y - cp.y) <= 1 && Abs(np.z - cp.z) <= 1
  {
    AxisStepAdjacent(world.x, chunkSize.x, o.x);
    AxisStepAdjacent(world.y, chunkSize.y, o.y);
    AxisStepAdjacent(world.z, chunkSize.z, o.z);
  }

  /** The coordinates of a list of entries, built in list order. */
  function Positions(nodes: seq<ChunkNode>): set<Int3> {
    if |nodes| == 0 then {} else Positions(nodes[..|nodes| - 1]) + {nodes[|nodes| - 1].chunkPosition}
  }

  /** A coordinate is among the positions exactly when some entry carries it. */
  lemma {:induction false} PositionsMembers(nodes: seq<ChunkNode>, p: Int3)
    ensures p in Positions(nodes) <==> exists i :: 0 <= i < |nodes| && nodes[i].chunkPosition == p
  {
    if |nodes| > 0 {
      var init := nodes[..|nodes| - 1];
      PositionsMembers(init, p);
      if p in Positions(init) {
        var i :| 0 <= i < |init| && init[i].chunkPosition == p;
        assert nodes[i] == init[i];
      }
      if exists i :: 0 <= i < |nodes| && nodes[i].chunkPosition == p {
        var i :| 0 <= i < |nodes| && nodes[i].chunkPosition == p;
        if i < |init| {
          assert init[i] == nodes[i];
        }
      }
    }
  }

  /** Adding one coordinate after a union, or to its second part, is the same. */
  lemma UnionAddAssoc(a: set<Int3>, b: set<Int3>, p: Int3)
    ensures (a + b) + {p} == a + (b + {p})
  {
  }

  /** One more remove-min step adds the taken entry's coordinate. */
  /** The keys after one drain step: the resident ones and every position taken so far. */
  lemma DrainStepKeys(queue: seq<ChunkNode>, k: nat, resident: set<Int3>, before: set<Int3>, after: set<Int3>)
    requires k < |queue|
    requires before == resident + Positions(Drain(queue, k).0)
    requires after == before + {Drain(queue, k).1[MinIndex(Drain(queue, k).1)].chunkPosition}
    ensures Drain(queue, k + 1).1 == RemoveAt(Drain(queue, k).1, MinIndex(Drain(queue, k).1))
    ensures after == resident + Positions(Drain(queue, k + 1).0)
  {
    DrainPositionsStep(queue, k + 1);
    UnionAddAssoc(resident, Positions(Drain(queue, k).0), Drain(queue, k).1[MinIndex(Drain(queue, k).1)].chunkPosition);
  }

  lemma DrainPositionsStep(queue: seq<ChunkNode>, k: nat)
    requires 0 < k <= |queue|
    ensures var prev := Drain(queue, k - 1);
            && Drain(queue, k).1 == RemoveAt(prev.1, MinIndex(prev.1))
            && Positions(Drain(queue, k).0) == Positions(prev.0) + {prev.1[MinIndex(prev.1)].chunkPosition}
  {
    var prev := Drain(queue, k - 1);
    var taken := Drain(queue, k).0;
    assert taken == prev.0 + [prev.1[MinIndex(prev.1)]];
    assert taken[..|taken| - 1] == prev.0;
  }

  // ---------------------------------------------------------------------------
  // The order of `GetNeighborVoxels`

  /** A coordinate's voxel array, null where there is no chunk. */
  function ArrayAt(arrays: map<Int3, array?<Voxel>>, p: Int3): array?<Voxel> {
    if p in arrays then arrays[p] else null
  }

  /** The z loop at (x, y), for z in [lo.z, z). */
  function NeighborColumn(arrays: map<Int3, array?<Voxel>>, lo: Int3, x: int, y: int, z: int): seq<array?<Voxel>>
    decreases z - lo.z
  {
    if z <= lo.z then [] else NeighborColumn(arrays, lo, x, y, z - 1) + [ArrayAt(arrays, Int3(x, y, z - 1))]
  }

  /** The y loop at x, for y in [lo.y, y), each column running up to hi.z. */
  function NeighborPlane(arrays: map<Int3, array?<Voxel>>, lo: Int3, hi: Int3, x: int, y: int): seq<array?<Voxel>>
    decreases y - lo.y
  {
    if y <= lo.y then [] else NeighborPlane(arrays, lo, hi, x, y - 1) + NeighborColumn(arrays, lo, x, y - 1, hi.z + 1)
  }

  /** The x loop, for x in [lo.x, x). */
  function NeighborBlock(arrays: map<Int3, array?<Voxel>>, lo: Int3, hi: Int3, x: int): seq<array?<Voxel>>
    decreases x - lo.x
  {
    if x <= lo.x then [] else NeighborBlock(arrays, lo, hi, x - 1) + NeighborPlane(arrays, lo, hi, x - 1, hi.y + 1)
  }

  lemma {:induction false} NeighborColumnAt(arrays: map<Int3, array?<Voxel>>, lo: Int3, x: int, y: int, z: int, k: int)
    requires lo.z <= z && 0 <= k < z - lo.z
    ensures |NeighborColumn(arrays, lo, x, y, z)| == z - lo.z
    ensures NeighborColumn(arrays, lo, x, y, z)[k] == ArrayAt(arrays, Int3(x, y, lo.z + k))
    decreases z - lo.z
  {
    if k < z - 1 - lo.z {
      NeighborColumnAt(arrays, lo, x, y, z - 1, k);
    } else if z - 1 > lo.z {
      NeighborColumnAt(arrays, lo, x, y, z - 1, 0);
    }
  }

  /** The cell (i, j, k) from the corner lo sits at k + side * j + plane * i of `s`. */
  ghost predicate CellInOrder(s: seq<array?<Voxel>>, arrays: map<Int3, array?<Voxel>>, lo: Int3, side: int, plane: int,
                              i: int, j: int, k: int) {
    && 0 <= k + side * j + plane * i < |s|
    && s[k + side * j + plane * i] == ArrayAt(arrays, lo.Plus(Int3(i, j, k)))
  }

  /**
   * `s` lists the arrays of the cube of the given side whose least corner is
   * lo: x-major, then y, then z, where plane = side * side.
   */
  ghost predicate CubeInOrder(s: seq<array?<Voxel>>, arrays: map<Int3, array?<Voxel>>, lo: Int3, side: int, plane: int) {
    && |s| == plane * side
    && forall i, j, k :: 0 <= i < side && 0 <= j < side && 0 <= k < side ==> CellInOrder(s, arrays, lo, side, plane, i, j, k)
  }

  lemma MulPred(p: int, n: int)
    ensures p * n == p * (n - 1) + p
  {
  }

  lemma {:induction false} NeighborPlaneAt(arrays: map<Int3, array?<Voxel>>, lo: Int3, hi: Int3, side: int, x: int,
                                           n: int, j: int, k: int)
    requires side == hi.z + 1 - lo.z && 0 <= j < n && 0 <= k < side
    ensures |NeighborPlane(arrays, lo, hi, x, lo.y + n)| == side * n
    ensures 0 <= k + side * j < side * n
    ensures NeighborPlane(arrays, lo, hi, x, lo.y + n)[k + side * j] == ArrayAt(arrays, Int3(x, lo.y + j, lo.z + k))
    decreases n
  {
    var prev := NeighborPlane(arrays, lo, hi, x, lo.y + (n - 1));
    var column := NeighborColumn(arrays, lo, x, lo.y + (n - 1), hi.z + 1);
    assert NeighborPlane(arrays, lo, hi, x, lo.y + n) == prev + column;
    NeighborColumnAt(arrays, lo, x, lo.y + (n - 1), hi.z + 1, k);
    if n == 1 {
      assert prev == [];
    } else {
      NeighborPlaneAt(arrays, lo, hi, side, x, n - 1, 0, 0);
    }
    assert |prev| == side * (n - 1);
    MulPred(side, n);
    MulStrictBound(k, j, side, n);
    if j < n - 1 {
      NeighborPlaneAt(arrays, lo, hi, side, x, n - 1, j, k);
    } else {
      assert side * j == |prev|;
    }
  }

  lemma {:induction false} NeighborBlockAt(arrays: map<Int3, array?<Voxel>>, lo: Int3, hi: Int3, side: int, plane: int,
                                           n: int, i: int, j: int, k: int)
    requires side == hi.z + 1 - lo.z && hi.y + 1 == lo.y + side && plane == side * side
    requires 0 <= i < n && 0 <= j < side && 0 <= k < side
    ensures |NeighborBlock(arrays, lo, hi, lo.x + n)| == plane * n
    ensures 0 <= k + side * j + plane * i < plane * n
    ensures NeighborBlock(arrays, lo, hi, lo.x + n)[k + side * j + plane * i] == ArrayAt(arrays, Int3(lo.x + i, lo.y + j, lo.z + k))
    decreases n
  {
    var prev := NeighborBlock(arrays, lo, hi, lo.x + (n - 1));
    var layer := NeighborPlane(arrays, lo, hi, lo.x + (n - 1), hi.y + 1);
    assert NeighborBlock(arrays, lo, hi, lo.x + n) == prev + layer;
    var cell := k + side * j;
    NeighborPlaneAt(arrays, lo, hi, side, lo.x + (n - 1), side, j, k);
    assert |layer| == plane && 0 <= cell < plane;
    if n == 1 {
      assert prev == [];
    } else {
      NeighborBlockAt(arrays, lo, hi, side, plane, n - 1, 0, 0, 0);
    }
    assert |prev| == plane * (n - 1);
    MulPred(plane, n);
    MulStrictBound(cell, i, plane, n);
    var base := plane * i;
    var target := ArrayAt(arrays, Int3(lo.x + i, lo.y + j, lo.z + k));
    if i < n - 1 {
      NeighborBlockAt(arrays, lo, hi, side, plane, n - 1, i, j, k);
      assert prev[cell + base] == target;
      assert (prev + layer)[cell + base] == prev[cell + base];
    } else {
      assert base == |prev|;
      assert layer[cell] == target;
      assert (prev + layer)[cell + base] == layer[cell];
    }
  }

  /** The whole cube, in the order `CubeInOrder` describes. */
  lemma NeighborBlockInOrder(arrays: map<Int3, array?<Voxel>>, lo: Int3, hi: Int3, side: int, plane: int)
    requires side > 0 && plane == side * side && hi == lo.Plus(Int3(side - 1, side - 1, side - 1))
    ensures CubeInOrder(NeighborBlock(arrays, lo, hi, lo.x + side), arrays, lo, side, plane)
  {
    var s := NeighborBlock(arrays, lo, hi, lo.x + side);
    NeighborBlockAt(arrays, lo, hi, side, plane, side, 0, 0, 0);
    forall i, j, k | 0 <= i < side && 0 <= j < side && 0 <= k < side
      ensures CellInOrder(s, arrays, lo, side, plane, i, j, k)
    {
      NeighborBlockAt(arrays, lo, hi, side, plane, side, i, j, k);
    }
  }
}
