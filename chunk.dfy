/**
 * A terrain chunk's life cycle: generation fills its voxel array, an edit or
 * a neighbour's edit marks it dirty, and a rebuild meshes a copy of its voxels
 * and clears the flags. Rebuilds are admitted against the generator's count of
 * chunks currently rebuilding.
 *
 * The engine's coroutines become separate methods, one per segment that runs
 * without yielding: `Update` starts `UpdateMesh`, whose code up to its first
 * yield runs at once (`BeginUpdateMesh`), and `FinishUpdateMesh` is the rest,
 * run once the meshing job has completed. The job's result depends only on the
 * voxel copy taken when it is scheduled, so the model runs it at that point.
 */
module Chunks {
  import opened VoxelUtil
  import opened MeshCommon
  import opened VoxelMeshBuilder

  /**
   * The generator's admission counter: `UpdatingChunks`, the number of chunks
   * between the start and the end of a rebuild, and the per-frame cap.
   */
  class UpdateBudget {
    var updatingChunks: int
    const maxGenerateChunksInFrame: int

    constructor (maxGenerateChunksInFrame: int)
      ensures updatingChunks == 0 && this.maxGenerateChunksInFrame == maxGenerateChunksInFrame
    {
      updatingChunks := 0;
      this.maxGenerateChunksInFrame := maxGenerateChunksInFrame;
    }

    /** `TerrainGenerator.CanUpdate`. */
    predicate CanUpdate()
      reads this
    {
      Admits(updatingChunks, maxGenerateChunksInFrame)
    }
  }

  /** The admission test: the count is at most the cap, not below it. */
  predicate Admits(updating: int, cap: int) {
    updating <= cap
  }

  class Chunk {
    const chunkPosition: Int3
    const chunkSize: Int3
    /** The generator's simplifying method; only the CPU methods are modelled. */
    const simplifying: SimplifyingMethod
    const generator: UpdateBudget

    var initialized: bool
    var dirty: bool
    var argent: bool
    /** Allocated once, at `Init`; generation and edits write into it in place. */
    const voxels: array<Voxel>
    /** `Updating`, i.e. `meshUpdator != null`. */
    var updating: bool
    var meshData: NativeMeshData?
    /** The rendered mesh's vertex and index lists. */
    var meshVertices: seq<GPUVertex>
    var meshIndices: seq<int>

    /** A meshing job has been scheduled and its rebuild has not finished. */
    ghost var pending: bool
    /** The voxel copy the pending job meshes. */
    ghost var scheduled: seq<Voxel>

    /** From `Init` on, the chunk holds one voxel per cell of its box. */
    ghost predicate Shaped() {
      && ValidSize(chunkSize)
      && simplifying != GPUCulling
      && voxels.Length == Volume(chunkSize)
    }

    /** Shaped, and a pending job's buffers hold the mesh of the voxels it was given. */
    ghost predicate Valid()
      reads this`updating, this`meshData, this`pending, this`scheduled, meshData
      reads if meshData == null then {} else {meshData.nativeVertices, meshData.nativeIndices}
    {
      && Shaped()
      && (pending ==>
            && updating
            && meshData != null && meshData.Valid() && meshData.chunkSize == chunkSize
            && GridOk(scheduled, chunkSize)
            && meshData.Quads == MeshQuads(simplifying, scheduled, chunkSize))
    }

    /**
     * `AddComponent<Chunk>` followed by `Init`. `Init` starts `InitUpdator`,
     * whose code up to its first yield runs at once: it allocates the voxel
     * array, x*y*z default voxels, before generation fills it. Nothing is
     * generated yet and there is nothing to rebuild.
     */
    constructor (position: Int3, chunkSize: Int3, generator: UpdateBudget, simplifying: SimplifyingMethod)
      requires ValidSize(chunkSize) && simplifying != GPUCulling
      ensures Valid()
      ensures chunkPosition == position && this.chunkSize == chunkSize
      ensures this.generator == generator && this.simplifying == simplifying
      ensures !initialized && !dirty && !argent && !updating && !pending
      ensures fresh(voxels) && voxels.Length == Volume(chunkSize)
      ensures forall i :: 0 <= i < voxels.Length ==> voxels[i] == Empty
      ensures meshData == null && meshVertices == [] && meshIndices == []
    {
      chunkPosition := position;
      this.chunkSize := chunkSize;
      this.generator := generator;
      this.simplifying := simplifying;
      initialized, dirty, argent, updating := false, false, false, false;
      var numVoxels := chunkSize.x * chunkSize.y * chunkSize.z;
      voxels := new Voxel[numVoxels](_ => Empty);
      meshData := null;
      meshVertices, meshIndices := [], [];
      pending := false;
      scheduled := [];
    }

    /**
     * The rest of `InitUpdator`, once generation has completed: generation
     * has written its content into the array allocated at `Init`, and the
     * chunk is initialised and dirty so that its first rebuild follows.
     */
    method InitUpdator(generated: seq<Voxel>)
      requires Valid() && |generated| == Volume(chunkSize)
      modifies this`dirty, this`initialized, voxels
      ensures Valid()
      ensures voxels[..] == generated
      ensures initialized && dirty
      ensures meshData == old(meshData) && scheduled == old(scheduled)
      ensures argent == old(argent) && updating == old(updating) && pending == old(pending)
      ensures meshVertices == old(meshVertices) && meshIndices == old(meshIndices)
    {
      forall i | 0 <= i < voxels.Length {
        voxels[i] := generated[i];
      }
      dirty := true;
      initialized := true;
    }

    /** `GetVoxel`: the stored cell, or not found and `Voxel.Empty`. */
    method GetVoxel(gridPosition: Int3) returns (found: bool, voxel: Voxel)
      requires Shaped()
      ensures found <==> initialized && BoundaryCheck(gridPosition, chunkSize)
      ensures found ==> voxel == voxels[To1DIndex(gridPosition, chunkSize)]
      ensures !found ==> voxel == Empty
    {
      if !initialized {
        return false, Empty;
      }
      if !BoundaryCheck(gridPosition, chunkSize) {
        return false, Empty;
      }
      voxel := voxels[To1DIndex(gridPosition, chunkSize)];
      found := true;
    }

    /**
     * `SetVoxel` on the CPU path: an accepted write changes exactly the
     * addressed cell's type and marks the chunk dirty and argent; a refused
     * one changes nothing.
     */
    method SetVoxel(gridPosition: Int3, t: VoxelType) returns (ok: bool)
      requires Shaped()
      modifies this`dirty, this`argent, voxels
      ensures ok <==> initialized && BoundaryCheck(gridPosition, chunkSize)
      ensures ok ==> dirty && argent
                     && voxels[..] == old(voxels[..])[To1DIndex(gridPosition, chunkSize) := Voxel(t)]
      ensures !ok ==> dirty == old(dirty) && argent == old(argent)
      ensures !ok ==> voxels[..] == old(voxels[..])
    {
      if !initialized {
        return false;
      }
      if !BoundaryCheck(gridPosition, chunkSize) {
        return false;
      }
      voxels[To1DIndex(gridPosition, chunkSize)] := Voxel(t);
      dirty := true;
      argent := true;
      ok := true;
    }

    /** `NeighborChunkIsChanged`: the chunk must be rebuilt, urgently. */
    method NeighborChunkIsChanged()
      modifies this`dirty, this`argent
      ensures dirty && argent
    {
      dirty := true;
      argent := true;
    }

    /**
     * `UpdateMesh` up to its first yield, which the engine runs inside the
     * `StartCoroutine` call, before `meshUpdator` is assigned. It gives up if
     * a rebuild is running or the generator refuses one; otherwise it counts
     * the rebuild in and schedules the job on a copy of the voxels.
     */
    method BeginUpdateMesh() returns (started: bool)
      requires Valid() && initialized && MeshFits(simplifying, voxels[..], chunkSize)
      modifies this, generator
      ensures started <==> !old(updating) && old(generator.CanUpdate())
      ensures started ==> pending && scheduled == old(voxels[..]) && meshData != null && fresh(meshData)
      ensures !started ==> pending == old(pending) && meshData == old(meshData) && scheduled == old(scheduled)
      ensures generator.updatingChunks == old(generator.updatingChunks) + (if started then 1 else 0)
      ensures initialized && dirty == old(dirty) && argent == old(argent)
      ensures updating == old(updating)
      ensures meshVertices == old(meshVertices) && meshIndices == old(meshIndices)
      ensures started ==> meshData.Valid() && meshData.chunkSize == chunkSize
      ensures started ==> meshData.Quads == MeshQuads(simplifying, scheduled, chunkSize)
      ensures !started ==> Valid()
    {
      if updating {
        return false;
      }
      if !generator.CanUpdate() {
        return false;
      }
      generator.updatingChunks := generator.updatingChunks + 1;
      var data := new NativeMeshData(chunkSize);
      ScheduleMeshingJob(data, voxels[..], chunkSize, simplifying);
      meshData := data;
      scheduled := voxels[..];
      pending := true;
      started := true;
    }

    /**
     * `Update`, once a frame: a rebuild is requested only for an initialised,
     * dirty chunk with none running, and only when the neighbour predicate
     * (`neighborsReady`, the value of the `CanUpdate` event) holds. The chunk
     * then counts as Updating whether or not the generator let the rebuild
     * start.
     */
    method Update(neighborsReady: bool)
      requires Valid()
      requires initialized ==> MeshFits(simplifying, voxels[..], chunkSize)
      modifies this, generator
      ensures Valid()
      ensures var requested := old(initialized && !updating && dirty) && neighborsReady;
              && updating == (old(updating) || requested)
              && pending == (old(pending) || (requested && old(generator.CanUpdate())))
              && generator.updatingChunks
                   == old(generator.updatingChunks) + (if requested && old(generator.CanUpdate()) then 1 else 0)
              && (requested && old(generator.CanUpdate()) ==> scheduled == old(voxels[..]))
              && (!(requested && old(generator.CanUpdate())) ==> scheduled == old(scheduled))
      ensures pending != old(pending) ==> pending && old(generator.CanUpdate())
      ensures generator.updatingChunks == old(generator.updatingChunks) + (if pending != old(pending) then 1 else 0)
      ensures initialized == old(initialized) && dirty == old(dirty) && argent == old(argent)
      ensures meshVertices == old(meshVertices) && meshIndices == old(meshIndices)
    {
      if !initialized {
        return;
      }
      if updating {
        return;
      }
      if !dirty {
        return;
      }
      if !neighborsReady {
        return;
      }
      var started := BeginUpdateMesh();
      updating := true;
    }

    /**
     * The rest of `UpdateMesh`, after the job completes: a non-empty mesh
     * replaces the rendered one (an empty one leaves it as it was), the flags
     * are cleared, the chunk stops Updating and the rebuild is counted out.
     */
    method FinishUpdateMesh()
      requires Valid() && pending
      modifies this, generator
      ensures Valid() && !dirty && !argent && !updating && !pending
      ensures generator.updatingChunks == old(generator.updatingChunks) - 1
      ensures var quads := MeshQuads(simplifying, old(scheduled), chunkSize);
              && (|quads| > 0 ==> meshVertices == VerticesOf(quads) && meshIndices == IndicesOf(quads))
              && (|quads| == 0 ==> meshVertices == old(meshVertices) && meshIndices == old(meshIndices))
      ensures initialized == old(initialized)
    {
      var verticeSize, indicesSize := meshData.GetMeshInformation();
      if verticeSize > 0 && indicesSize > 0 {
        meshVertices := meshData.nativeVertices[..verticeSize];
        meshIndices := meshData.nativeIndices[..indicesSize];
      }
      dirty := false;
      argent := false;
      updating := false;
      pending := false;
      generator.updatingChunks := generator.updatingChunks - 1;
    }

    /**
     * `Update` with the refusal corrected: the chunk counts as Updating only
     * when the generator let the rebuild start, so a refused chunk asks again
     * on a later frame.
     */
    method UpdateRetrying(neighborsReady: bool)
      requires Valid() && (updating <==> pending)
      requires initialized ==> MeshFits(simplifying, voxels[..], chunkSize)
      modifies this, generator
      ensures Valid() && (updating <==> pending)
      ensures var started := old(initialized && !updating && dirty && generator.CanUpdate()) && neighborsReady;
              && updating == (old(updating) || started)
              && generator.updatingChunks == old(generator.updatingChunks) + (if started then 1 else 0)
              && (started ==> scheduled == old(voxels[..]))
      ensures initialized == old(initialized) && dirty == old(dirty) && argent == old(argent)
      ensures meshVertices == old(meshVertices) && meshIndices == old(meshIndices)
    {
      if !initialized || updating || !dirty || !neighborsReady {
        return;
      }
      var started := BeginUpdateMesh();
      if started {
        updating := true;
      }
    }
  }

  /**
   * An edit made while a rebuild is in flight is lost: it reaches the voxels,
   * but the rebuild shows the copy taken before it and then clears `dirty`,
   * so `Update` requests nothing until the next edit.
   */
  method LostEdit(c: Chunk, p: Int3, t: VoxelType)
    requires c.Valid() && c.pending && c.initialized && BoundaryCheck(p, c.chunkSize)
    requires c.scheduled[To1DIndex(p, c.chunkSize)] != Voxel(t)
    modifies c, c.voxels, c.generator
    ensures c.Valid() && c.initialized && !c.dirty && !c.updating && !c.pending
    ensures c.voxels[To1DIndex(p, c.chunkSize)] == Voxel(t)
    ensures old(c.scheduled)[To1DIndex(p, c.chunkSize)] != Voxel(t)
    ensures var quads := MeshQuads(c.simplifying, old(c.scheduled), c.chunkSize);
            |quads| > 0 ==> c.meshVertices == VerticesOf(quads)
  {
    var ok := c.SetVoxel(p, t);
    c.FinishUpdateMesh();
  }

  /**
   * A rebuild the generator refuses leaves the chunk Updating with no job
   * pending. `Update` then returns early on every later frame, even once the
   * generator would admit it, and only `FinishUpdateMesh`, which needs a
   * pending job, clears `updating`: the chunk is never rebuilt again.
   */
  method StuckAfterRefusal(c: Chunk)
    requires c.Valid() && c.initialized && c.dirty && !c.updating && !c.generator.CanUpdate()
    requires MeshFits(c.simplifying, c.voxels[..], c.chunkSize)
    requires 0 <= c.generator.maxGenerateChunksInFrame
    modifies c, c.generator
    ensures c.Valid() && c.updating && !c.pending && c.dirty
    ensures c.generator.CanUpdate()
  {
    c.Update(true);
    c.generator.updatingChunks := 0;
    c.Update(true);
  }

  /** With the correction, the same chunk starts its rebuild once the generator admits it. */
  method RefusedUpdateRetries(c: Chunk)
    requires c.Valid() && c.initialized && c.dirty && !c.updating && !c.generator.CanUpdate()
    requires MeshFits(c.simplifying, c.voxels[..], c.chunkSize)
    requires 0 <= c.generator.maxGenerateChunksInFrame
    modifies c, c.generator
    ensures c.Valid() && c.updating && c.pending && c.dirty
    ensures c.scheduled == old(c.voxels[..])
  {
    c.UpdateRetrying(true);
    c.generator.updatingChunks := 0;
    c.UpdateRetrying(true);
  }

  /** A chunk the generator would let start a rebuild, were the count within the cap. */
  ghost predicate ReadyToStart(c: Chunk, b: UpdateBudget)
    reads c, c.voxels, c.meshData
    reads if c.meshData == null then {} else {c.meshData.nativeVertices, c.meshData.nativeIndices}
  {
    && c.generator == b && c.Valid() && c.initialized && !c.updating && !c.pending
    && MeshFits(c.simplifying, c.voxels[..], c.chunkSize)
  }

  /**
   * Since the test is `<=`, a cap of n admits n + 1 concurrent rebuilds: from
   * no rebuilds, n + 2 chunks asking in turn see the first n + 1 start and the
   * last one refused.
   */
  method AdmitsCapPlusOne(b: UpdateBudget, cs: seq<Chunk>)
    requires b.updatingChunks == 0 && 0 <= b.maxGenerateChunksInFrame && |cs| == b.maxGenerateChunksInFrame + 2
    requires forall i, j :: 0 <= i < j < |cs| ==> cs[i] != cs[j]
    requires forall i :: 0 <= i < |cs| ==> ReadyToStart(cs[i], b)
    modifies b, set c | c in cs
    ensures b.updatingChunks == b.maxGenerateChunksInFrame + 1 && !b.CanUpdate()
    ensures forall i :: 0 <= i < |cs| ==> cs[i].pending == (i <= b.maxGenerateChunksInFrame)
  {
    var i := 0;
    while i < |cs|
      invariant 0 <= i <= |cs|
      invariant b.updatingChunks == if i <= b.maxGenerateChunksInFrame + 1 then i else b.maxGenerateChunksInFrame + 1
      invariant forall j :: 0 <= j < i ==> cs[j].pending == (j <= b.maxGenerateChunksInFrame)
      invariant forall j :: i <= j < |cs| ==> ReadyToStart(cs[j], b)
    {
      assert forall j :: 0 <= j < |cs| && j != i ==> cs[j] != cs[i];
      var started := cs[i].BeginUpdateMesh();
      assert cs[i].pending == started == (i <= b.maxGenerateChunksInFrame);
      i := i + 1;
    }
  }
}
