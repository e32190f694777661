/**
 * `VoxelMeshBuilder`'s entry point: `ScheduleMeshingJob` copies a chunk's
 * voxels into the mesh data and runs the job the simplifying method selects.
 * The three CPU meshers differ in how they merge faces, but each draws every
 * visible face; the GPU method has no CPU job and falls to the default case.
 */
module VoxelMeshBuilder {
  import opened VoxelUtil
  import opened MeshCommon
  import CullingJob
  import GreedyOnlyHeightJob
  import GreedyJob

  /** `VoxelMeshBuilder.SimplifyingMethod`. */
  datatype SimplifyingMethod = Culling | GreedyOnlyHeight | Greedy | GPUCulling

  /** The CPU job a schedule call runs. */
  datatype MeshingJob = RunCulling | RunGreedyOnlyHeight | RunGreedy

  /**
   * The switch of `ScheduleMeshingJob`: each CPU method runs its own job, and
   * every other method (the GPU one) takes the default branch, the full greedy
   * job.
   */
  function JobFor(simplifying: SimplifyingMethod): (job: MeshingJob)
    ensures job == RunCulling <==> simplifying == Culling
    ensures job == RunGreedyOnlyHeight <==> simplifying == GreedyOnlyHeight
    ensures job == RunGreedy <==> simplifying == Greedy || simplifying == GPUCulling
  {
    match simplifying
    case Culling => RunCulling
    case GreedyOnlyHeight => RunGreedyOnlyHeight
    case Greedy => RunGreedy
    case _ => RunGreedy
  }

  /** The quads, in emission order, that the job selected by `simplifying` emits. */
  function MeshQuads(simplifying: SimplifyingMethod, voxels: seq<Voxel>, chunkSize: Int3): seq<Quad>
    requires GridOk(voxels, chunkSize)
  {
    match JobFor(simplifying)
    case RunCulling => CullingJob.CullingQuads(voxels, chunkSize)
    case RunGreedyOnlyHeight => GreedyOnlyHeightJob.GreedyOnlyHeightQuads(voxels, chunkSize)
    case RunGreedy => GreedyJob.GreedyQuads(voxels, chunkSize)
  }

  /**
   * The buffers of a fresh `NativeMeshData`, 12 vertices and 18 indices per
   * voxel, hold the mesh: at most three quads per voxel.
   */
  predicate MeshFits(simplifying: SimplifyingMethod, voxels: seq<Voxel>, chunkSize: Int3)
    requires GridOk(voxels, chunkSize)
  {
    |MeshQuads(simplifying, voxels, chunkSize)| <= 3 * Volume(chunkSize)
  }

  /**
   * Whatever the method, every visible face of the chunk lies in a quad of its
   * direction and depth slice: the meshers differ only in how faces merge.
   */
  lemma MeshCoversVisibleFaces(simplifying: SimplifyingMethod, voxels: seq<Voxel>, chunkSize: Int3, p: Int3, d: Direction)
    requires GridOk(voxels, chunkSize) && BoundaryCheck(p, chunkSize) && FaceVisible(voxels, chunkSize, p, d)
    ensures exists q :: q in MeshQuads(simplifying, voxels, chunkSize) && q.direction == d
                   && q.Depth() == p.Get(AlignedZ(d)) && q.Covers(p.Get(AlignedX(d)), p.Get(AlignedY(d)))
  {
    match JobFor(simplifying)
    case RunCulling =>
      var q := CullingJob.UnitQuad(voxels, chunkSize, p, d);
      CullingJob.CullingQuadsMembers(voxels, chunkSize, q);
      assert q in MeshQuads(simplifying, voxels, chunkSize);
    case RunGreedyOnlyHeight =>
      GreedyOnlyHeightJob.GreedyOnlyHeightCovers(voxels, chunkSize, p, d);
    case RunGreedy =>
      GreedyJob.GreedyCovers(voxels, chunkSize, p, d);
  }

  /**
   * The merging meshers never draw a cell twice: within a direction their
   * quads have pairwise disjoint footprints, each uniform in type and inside
   * the chunk.
   */
  lemma MergedMeshIsDisjoint(simplifying: SimplifyingMethod, voxels: seq<Voxel>, chunkSize: Int3)
    requires GridOk(voxels, chunkSize) && simplifying != Culling
    ensures PairwiseDisjoint(MeshQuads(simplifying, voxels, chunkSize))
    ensures forall q :: q in MeshQuads(simplifying, voxels, chunkSize) ==> UniformInBounds(voxels, chunkSize, q)
  {
    if simplifying == GreedyOnlyHeight {
      GreedyOnlyHeightJob.GreedyOnlyHeightQuadsAreRuns(voxels, chunkSize);
    } else {
      GreedyJob.GreedyQuadsAreBlocks(voxels, chunkSize);
    }
  }

  /**
   * `NativeMeshData.ScheduleMeshingJob`: copy the voxels into the job's own
   * array, run the selected job to completion, and leave its quads appended to
   * the buffers. The buffers must have room for them, which nothing checks.
   */
  method ScheduleMeshingJob(data: NativeMeshData, voxels: seq<Voxel>, chunkSize: Int3, simplifying: SimplifyingMethod)
    requires data.Valid() && data.chunkSize == chunkSize && |voxels| == |data.nativeVoxels|
    requires HasRoom(data, |MeshQuads(simplifying, voxels, chunkSize)|)
    modifies data`nativeVoxels, data`count, data`Quads, data.nativeVertices, data.nativeIndices
    ensures data.Valid() && data.nativeVoxels == voxels
    ensures data.Quads == old(data.Quads) + MeshQuads(simplifying, voxels, chunkSize)
  {
    data.nativeVoxels := voxels;
    match simplifying
    case Culling =>
      CullingJob.VoxelCullingJobExecute(data.nativeVoxels, chunkSize, data);
    case GreedyOnlyHeight =>
      GreedyOnlyHeightJob.VoxelGreedyMeshingOnlyHeightJobExecute(data.nativeVoxels, chunkSize, data);
    case Greedy =>
      GreedyJob.VoxelGreedyMeshingJobExecute(data.nativeVoxels, chunkSize, data);
    case _ =>
      GreedyJob.VoxelGreedyMeshingJobExecute(data.nativeVoxels, chunkSize, data);
  }
}
