# Voxel terrain: meshers, chunk streaming and chunk life cycle

A Dafny model of the CPU core of a Unity voxel terrain. It covers three parts.

- **Surface extraction** (`VoxelMeshBuilder`). Three jobs turn a chunk's dense
  grid of typed voxels into quads, and each quad's four vertices and six indices
  go into pre-sized buffers at a slot numbered by a counter.
  - *Culling* emits one unit quad per visible face.
  - *GreedyOnlyHeight* merges vertical runs of one type within a depth slice.
  - *Greedy* grows each run sideways into a rectangle, and uses a visited set,
    cleared per slice, to avoid covering a cell twice.

  `ScheduleMeshingJob` picks the job from the simplifying method, and
  `GetMeshInformation` reports the used buffer prefixes.
- **Chunk streaming** (`TerrainGenerator`). The generator keeps a map from chunk
  coordinate to chunk, and a priority queue of coordinates still to create.
  - When the target enters a new chunk cell, it re-prioritises or evicts the
    queued entries and enqueues the spawn box around the target.
  - Each frame it creates at most `maxGenerateChunksInFrame` chunks, nearest
    first.
  - It gates a chunk's rebuild on its 3x3x3 neighbourhood having generated, and
    on a global count of rebuilds in flight.
  - It routes voxel edits to the owning chunk and tells the neighbouring chunks
    whose border the edit touches.
- **Chunk life cycle** (`Chunk`). A state machine over `initialized`, `dirty`,
  `argent` and `Updating`, plus the voxel array, with bounds-checked reads and
  writes.

## Modules

| file | module | models |
|---|---|---|
| voxel_util.dfy | `VoxelUtil` | `Int3`, `To1DIndex`, `BoundaryCheck`, direction and cube tables |
| mesh_common.dfy | `MeshCommon` | `TransparencyCheck`, `AddQuadByDirection`, `NativeMeshData` |
| culling_job.dfy | `CullingJob` | `VoxelCullingJob` |
| greedy_only_height_job.dfy | `GreedyOnlyHeightJob` | `VoxelGreedyMeshingOnlyHeightJob` |
| greedy_job.dfy | `GreedyJob` | `VoxelGreedyMeshingJob` |
| voxel_mesh_builder.dfy | `VoxelMeshBuilder` | `SimplifyingMethod`, `ScheduleMeshingJob` |
| chunk.dfy | `Chunks` | `Chunk`, and the generator's `UpdatingChunks`/`CanUpdate` counter |
| streaming_queue.dfy | `StreamingQueue` | the generation queue as a sequence with remove-min |
| terrain_generator.dfy | `Terrain` | `TerrainGenerator` |

### How the meshers are modelled

Each job is a set of `method`s, one per source loop. The methods write into a
`NativeMeshData` class whose vertex and index buffers are `array`s.

- Each loop method is proved against a function that lists the quads the loop
  emits, in emission order. Examples are `CullingQuads`, `StripQuads` and
  `GreedyStrip`; `GreedyStrip` also returns the visited set it leaves.
- A ghost field `Quads` records the emitted quads, and `NativeMeshData.Valid`
  ties it to the buffers: vertices `4j..4j+3` and indices `6j..6j+5` hold quad
  `j`, for every `j`.
- What the jobs promise is proved about the functions:
  - every visible face is covered;
  - quads are uniform in type and lie inside the chunk;
  - quads of one direction never overlap;
  - GreedyOnlyHeight's runs extend upward until the slice edge or a type change;
  - the culling output is exactly the set of visible faces, each once.

### How the engine's coroutines are modelled

- `Init` starts `InitUpdator`, whose code up to its first yield runs inside
  `StartCoroutine`: the chunk's voxel array, x·y·z default voxels, exists as
  soon as `Init` returns. The model allocates it in the `Chunk` constructor,
  and `Chunk.InitUpdator` is the rest, after generation has filled that same
  array in place. The generated voxels are a parameter.
- `Chunk.Update` runs the part of `UpdateMesh` that executes inside
  `StartCoroutine`, as `BeginUpdateMesh`, and then sets `Updating`, as line 96
  does.
- `FinishUpdateMesh` is the rest of `UpdateMesh`, after the job has completed.

The job meshes a copy of the voxels taken when it is scheduled. So the model
runs it at that point and records the copy in a ghost field `scheduled`; a ghost
`pending` marks a scheduled job that has not finished. The neighbour predicate
that `GenerateChunk` attaches to the chunk's `CanUpdate` event is computed by
`TerrainGenerator.NeighborsReady` and passed to `Chunk.Update` as
`neighborsReady`.

## Model

| member | source | states |
|---|---|---|
| `MeshCommon.TransparencyCheck` | Assets/Scripts/Voxel/VoxelMeshBuilder.cs:388-394 | The source's test, transcribed (no contract of its own): false outside the chunk, otherwise whether the voxel is not Air. What it means for a face is proved in `MeshCommon.TransparencyCheckHidesFace`. |
| `MeshCommon.TransparencyCheckHidesFace` | Assets/Scripts/Voxel/VoxelMeshBuilder.cs:388-394 | For an in-chunk voxel that is not Air, `TransparencyCheck` on its neighbour in direction d is false exactly when that face is visible, i.e. the neighbour is outside the chunk or Air. |
| `MeshCommon.AtlasTile` | Assets/Scripts/Voxel/VoxelMeshBuilder.cs:407-408 | The tile's column is below the atlas width of 8, its row is at least 0, and row·8 + column is the tile number t·6 + d. |
| `MeshCommon.AtlasTileInjective` | Assets/Scripts/Voxel/VoxelMeshBuilder.cs:407-408 | Two (type, direction) pairs get the same atlas tile exactly when they are equal. |
| `MeshCommon.WriteQuadVertices` | Assets/Scripts/Voxel/VoxelMeshBuilder.cs:398-411 | Vertices 4q..4q+3 receive the quad's four corners, stretched by width and height along the aligned axes, with its normal and atlas tile. Every other vertex is unchanged. |
| `MeshCommon.WriteQuadIndices` | Assets/Scripts/Voxel/VoxelMeshBuilder.cs:413-418 | Indices 6q..6q+5 receive the direction's `CubeIndices` row plus 4q. Every other index is unchanged. |
| `MeshCommon.AddQuadByDirection` | Assets/Scripts/Voxel/VoxelMeshBuilder.cs:396-419 | For quad number q it writes exactly vertices 4q..4q+3 and indices 6q..6q+5, and leaves both buffers unchanged outside those slots. |
| `MeshCommon.SlotOfQuad` | Assets/Scripts/Voxel/VoxelMeshBuilder.cs:396-418 | In the used prefixes, quad j of the emitted list occupies vertices 4j..4j+3 and indices 6j..6j+5, and its indices are offset by 4j. |
| `MeshCommon.NativeMeshData.constructor` | Assets/Scripts/Voxel/VoxelMeshBuilder.cs:38-48 | The buffers hold 12 vertices and 18 indices per voxel, and the counter starts at 0 with nothing emitted. |
| `MeshCommon.NativeMeshData.Increment` | Assets/Scripts/Voxel/VoxelMeshBuilder.cs:189 | `counter.Increment()` returns the current count as the slot number and adds one. |
| `MeshCommon.NativeMeshData.Emit` | Assets/Scripts/Voxel/VoxelMeshBuilder.cs:189 | Adding a quad at `counter.Increment()` appends it to the emitted list, and the buffers keep holding every emitted quad in slot order. |
| `MeshCommon.NativeMeshData.GetMeshInformation` | Assets/Scripts/Voxel/VoxelMeshBuilder.cs:98-102 | The sizes are 4 and 6 times the number of quads emitted. Both fit the buffers, and the prefixes they delimit hold exactly the vertices and indices of the emitted quads, in slot order. |
| `CullingJob.VoxelCullingJobExecute` | Assets/Scripts/Voxel/VoxelMeshBuilder.cs:166-194 | The job appends exactly `CullingQuads`, the x-y-z-direction sweep of visible unit faces, to the buffers. |
| `CullingJob.CullPlane` | Assets/Scripts/Voxel/VoxelMeshBuilder.cs:170-192 | The y loop of plane x appends that plane's quads. |
| `CullingJob.CullColumn` | Assets/Scripts/Voxel/VoxelMeshBuilder.cs:172-191 | The z loop of column (x, y) appends that column's quads. |
| `CullingJob.CullVoxel` | Assets/Scripts/Voxel/VoxelMeshBuilder.cs:182-190 | The direction loop of a non-Air voxel appends its visible faces, in direction order. |
| `CullingJob.CullFace` | Assets/Scripts/Voxel/VoxelMeshBuilder.cs:184-189 | One direction step emits the face's unit quad exactly when the face is visible: `TransparencyCheck` on the neighbour is false exactly when the neighbour is outside the chunk or Air. |
| `CullingJob.AirCellEmitsNothing` | Assets/Scripts/Voxel/VoxelMeshBuilder.cs:179-180 | Skipping an Air cell's direction loop loses no quad. |
| `CullingJob.CullingQuadsMembers` | Assets/Scripts/Voxel/VoxelMeshBuilder.cs:168-190 | A quad is emitted exactly when it is the 1x1 quad of a non-Air voxel's face whose neighbour is out of the chunk or Air. |
| `CullingJob.CullingQuadsDistinct` | Assets/Scripts/Voxel/VoxelMeshBuilder.cs:168-190 | No quad is emitted twice: each visible face gets exactly one quad. |
| `CullingJob.AllAirEmitsNothing` | Assets/Scripts/Voxel/VoxelMeshBuilder.cs:179-180 | An all-Air grid emits no quads. |
| `CullingJob.SingleSolidVoxelOverflows` | Assets/Scripts/Voxel/VoxelMeshBuilder.cs:40-42 | A 1x1x1 solid grid under Culling emits 6 quads, i.e. 24 vertices and 36 indices, more than the 12 and 18 the buffers are sized for. |
| `CullingJob.SolidVoxelFaceVisible` | Assets/Scripts/Voxel/VoxelMeshBuilder.cs:184-187 | Every face of a lone solid voxel looks out of the chunk, so it is visible. |
| `GreedyOnlyHeightJob.RunHeight` | Assets/Scripts/Voxel/VoxelMeshBuilder.cs:249-260 | The run loop's height is at least 1, and the run ends inside the slice: y + height ≤ the aligned Y size. |
| `GreedyOnlyHeightJob.RunLength` | Assets/Scripts/Voxel/VoxelMeshBuilder.cs:248-260 | The `for (height = 1; …)` loop ends at `RunHeight`. |
| `GreedyOnlyHeightJob.RunHeightUniform` | Assets/Scripts/Voxel/VoxelMeshBuilder.cs:249-260 | Every cell of the run has the start cell's type, and the run stops only at the slice edge or at a cell of another type. |
| `GreedyOnlyHeightJob.RunQuadExtendsUpward` | Assets/Scripts/Voxel/VoxelMeshBuilder.cs:234-263 | A visible start cell receives a width-1 quad of its type, inside the chunk, that extends upward until the slice edge or a cell of another type. |
| `GreedyOnlyHeightJob.ScanCell` | Assets/Scripts/Voxel/VoxelMeshBuilder.cs:223-263 | One pass of the y loop skips an Air or hidden cell, or emits its run. The cursor then strictly advances but stays within the slice, so the loop terminates. |
| `GreedyOnlyHeightJob.ScanStrip` | Assets/Scripts/Voxel/VoxelMeshBuilder.cs:221-264 | The y loop of strip x appends `StripQuads` from 0. |
| `GreedyOnlyHeightJob.ScanSlice` | Assets/Scripts/Voxel/VoxelMeshBuilder.cs:219-265 | The x loop of one depth slice appends that slice's runs. |
| `GreedyOnlyHeightJob.ScanDirection` | Assets/Scripts/Voxel/VoxelMeshBuilder.cs:217-266 | The depth loop of one direction appends that direction's runs. |
| `GreedyOnlyHeightJob.VoxelGreedyMeshingOnlyHeightJobExecute` | Assets/Scripts/Voxel/VoxelMeshBuilder.cs:213-268 | The job appends exactly `GreedyOnlyHeightQuads` to the buffers. |
| `GreedyOnlyHeightJob.StripMembers` | Assets/Scripts/Voxel/VoxelMeshBuilder.cs:234-263 | Every quad of a strip scan starts at a visible cell at or after the cursor, has width 1, and ends inside the slice. |
| `GreedyOnlyHeightJob.StripDisjoint` | Assets/Scripts/Voxel/VoxelMeshBuilder.cs:263 | Because the scan resumes at y + height, the runs of one column do not overlap. |
| `GreedyOnlyHeightJob.GreedyOnlyHeightQuadsAreRuns` | Assets/Scripts/Voxel/VoxelMeshBuilder.cs:213-268 | Every emitted quad is a run of one type, inside the chunk, that starts at a visible face and extends upward until the slice edge or a type change. No two quads of one direction share a cell. |
| `GreedyOnlyHeightJob.AllAirEmitsNothing` | Assets/Scripts/Voxel/VoxelMeshBuilder.cs:234-235 | An all-Air grid emits no quads. |
| `GreedyOnlyHeightJob.GreedyOnlyHeightCovers` | Assets/Scripts/Voxel/VoxelMeshBuilder.cs:213-268 | Every visible face lies in an emitted quad of its direction and depth slice. |
| `GreedyOnlyHeightJob.NextCellJoinsRun` | Assets/Scripts/Voxel/VoxelMeshBuilder.cs:249-260 | Only the start cell's visibility is tested: the next cell joins the run whenever its type matches, even if its own face is hidden. |
| `GreedyJob.GreedyHeight` | Assets/Scripts/Voxel/VoxelMeshBuilder.cs:327-341 | The height loop's result is at least 1, and y + height stays inside the slice. |
| `GreedyJob.GreedyWidth` | Assets/Scripts/Voxel/VoxelMeshBuilder.cs:345-374 | The width loop's result is at least 1, and x + width stays inside the slice. |
| `GreedyJob.ExtendHeight` | Assets/Scripts/Voxel/VoxelMeshBuilder.cs:326-341 | The height loop ends at `GreedyHeight`, having marked exactly the run's cells. |
| `GreedyJob.ColumnBlocked` | Assets/Scripts/Voxel/VoxelMeshBuilder.cs:347-360 | `isDone` is set exactly when some cell of column x+width in rows y..y+height-1 has another type or is visited. |
| `GreedyJob.MarkColumn` | Assets/Scripts/Voxel/VoxelMeshBuilder.cs:367-373 | The marking loop adds exactly column x+width, rows y..y+height-1, to the visited set. |
| `GreedyJob.ExtendWidth` | Assets/Scripts/Voxel/VoxelMeshBuilder.cs:343-374 | The width loop ends at `GreedyWidth`, having marked exactly the block's footprint. |
| `GreedyJob.BuildQuad` | Assets/Scripts/Voxel/VoxelMeshBuilder.cs:324-376 | Past the skip tests, the start cell is marked, the height and width loops run, and the resulting quad is emitted. |
| `GreedyJob.ScanCell` | Assets/Scripts/Voxel/VoxelMeshBuilder.cs:298-378 | One pass of the y loop skips an Air, visited or hidden cell, or emits its block. The cursor strictly advances and stays in the slice, and the pass accounts for the strip's next quad and visited set. |
| `GreedyJob.ScanStrip` | Assets/Scripts/Voxel/VoxelMeshBuilder.cs:298-378 | The y loop of strip x appends `GreedyStrip`'s quads and leaves its visited set. |
| `GreedyJob.ScanSlice` | Assets/Scripts/Voxel/VoxelMeshBuilder.cs:296-379 | Starting from an empty visited set, the x loop of one depth slice appends that slice's quads. |
| `GreedyJob.ScanDirection` | Assets/Scripts/Voxel/VoxelMeshBuilder.cs:293-383 | The depth loop appends each slice in turn, and the visited set is cleared after every slice. |
| `GreedyJob.VoxelGreedyMeshingJobExecute` | Assets/Scripts/Voxel/VoxelMeshBuilder.cs:289-385 | The job appends exactly `GreedyQuads` to the buffers. |
| `GreedyJob.GreedyHeightFree` | Assets/Scripts/Voxel/VoxelMeshBuilder.cs:327-341 | The height loop takes only unvisited cells of the start cell's type. |
| `GreedyJob.GreedyWidthFree` | Assets/Scripts/Voxel/VoxelMeshBuilder.cs:345-374 | The width loop takes only columns whose cells are all unvisited and of the start cell's type. |
| `GreedyJob.GreedyQuadIsBlock` | Assets/Scripts/Voxel/VoxelMeshBuilder.cs:318-376 | The quad is based at a visible start cell, at least 1x1, inside the slice, and every covered cell has the start cell's type. |
| `GreedyJob.GreedyQuadAvoids` | Assets/Scripts/Voxel/VoxelMeshBuilder.cs:310-372 | A new quad covers no cell that an earlier quad marked. |
| `GreedyJob.StripDisjoint` | Assets/Scripts/Voxel/VoxelMeshBuilder.cs:298-378 | The quads of one strip scan do not overlap. |
| `GreedyJob.SliceDisjoint` | Assets/Scripts/Voxel/VoxelMeshBuilder.cs:296-381 | Within a depth slice no cell is covered by two quads. |
| `GreedyJob.SliceMarkedCovered` | Assets/Scripts/Voxel/VoxelMeshBuilder.cs:324-372 | Every cell in a slice's visited set lies in a quad that the slice emitted. |
| `GreedyJob.GreedyQuadsAreBlocks` | Assets/Scripts/Voxel/VoxelMeshBuilder.cs:289-385 | Every emitted quad is a uniform block inside the chunk, based at a visible face, and no two quads of one direction share a cell. |
| `GreedyJob.AllAirEmitsNothing` | Assets/Scripts/Voxel/VoxelMeshBuilder.cs:304-305 | An all-Air grid emits no quads. |
| `GreedyJob.GreedyCovers` | Assets/Scripts/Voxel/VoxelMeshBuilder.cs:289-385 | Every visible face lies in an emitted quad of its direction and depth slice. |
| `GreedyJob.NextCellJoinsWithoutVisibilityTest` | Assets/Scripts/Voxel/VoxelMeshBuilder.cs:327-341 | Merged cells are checked only for type and visited status: an unvisited cell of the same type joins even if its face is hidden. |
| `VoxelMeshBuilder.JobFor` | Assets/Scripts/Voxel/VoxelMeshBuilder.cs:74-88 | Culling, GreedyOnlyHeight and Greedy run their own jobs. Every other method, including GPUCulling, runs Greedy. |
| `VoxelMeshBuilder.ScheduleMeshingJob` | Assets/Scripts/Voxel/VoxelMeshBuilder.cs:71-96 | The voxels are copied into the job's array, and the selected job's quads are appended to the buffers. |
| `VoxelMeshBuilder.MeshCoversVisibleFaces` | Assets/Scripts/Voxel/VoxelMeshBuilder.cs:74-88 | Whatever the method, every visible face lies in an emitted quad of its direction and slice. |
| `VoxelMeshBuilder.MergedMeshIsDisjoint` | Assets/Scripts/Voxel/VoxelMeshBuilder.cs:74-88 | The two merging methods emit uniform, in-chunk quads that never overlap within a direction. |
| `VoxelUtil.To1DIndexFromIndex` | Assets/Scripts/Chunk.cs:164 | `To1DIndex` maps the chunk box onto [0, x·y·z): every flat index names an in-box position. |
| `VoxelUtil.To1DIndexInjective` | Assets/Scripts/Chunk.cs:164 | Two in-box positions share a flat index only if they are equal. |
| `VoxelUtil.AlignedAxesArePermutation` | Assets/Scripts/Voxel/VoxelMeshBuilder.cs:223-228 | The aligned X, Y and Z axes of a direction are three distinct axes, and the face normal lies along Z. |
| `Chunks.UpdateBudget.constructor` | Assets/Scripts/TerrainGenerator.cs:28 | The count of rebuilds in flight starts at 0 (the field default) and the cap is the configured one. |
| `Chunks.UpdateBudget.CanUpdate` | Assets/Scripts/TerrainGenerator.cs:42 | `CanUpdate` is `Admits` of the current count and the cap. Its consequence, cap + 1 admissions from zero, is stated by `Chunks.AdmitsCapPlusOne`. |
| `Chunks.Admits` | Assets/Scripts/TerrainGenerator.cs:42 | The count is at most the cap, so a count equal to the cap is still admitted. |
| `Chunks.AdmitsCapPlusOne` | Assets/Scripts/Chunk.cs:99-107 | Because the test is `<=`, from no rebuilds and a cap of n, n + 2 ready chunks asking in turn see the first n + 1 start their rebuilds and the last refused; the count ends at n + 1 and `CanUpdate` is false. |
| `Chunks.Chunk.constructor` | Assets/Scripts/Chunk.cs:58-72 | A new chunk is not initialised, not dirty and not Updating, has no rebuild pending, and already holds a fresh array of x·y·z default (Air) voxels, allocated before `InitUpdator`'s first yield. |
| `Chunks.Chunk.InitUpdator` | Assets/Scripts/Chunk.cs:74-77 | After generation, the array allocated at `Init` holds the generated content, filled in place, and the chunk is both initialised and dirty; its mesh and rebuild state are unchanged. |
| `Chunks.Chunk.GetVoxel` | Assets/Scripts/Chunk.cs:150-166 | Found exactly when initialised and in bounds, returning the stored cell; otherwise it returns `Voxel.Empty`. |
| `Chunks.Chunk.SetVoxel` | Assets/Scripts/Chunk.cs:168-186 | Succeeds exactly when initialised and in bounds. It then changes only cell `To1DIndex(p)` and sets `dirty` and `argent`; on failure nothing changes. |
| `Chunks.Chunk.NeighborChunkIsChanged` | Assets/Scripts/Chunk.cs:188-192 | Sets `dirty` and `argent`, and changes nothing else. |
| `Chunks.Chunk.Update` | Assets/Scripts/Chunk.cs:79-97 | A rebuild is requested only when the chunk is initialised, not Updating, dirty and its neighbours are ready, so at most one is requested at a time. The chunk then counts as Updating whether or not the generator let the rebuild start. The count rises by one exactly when the rebuild starts, and only if the generator admitted it. |
| `Chunks.Chunk.BeginUpdateMesh` | Assets/Scripts/Chunk.cs:99-115 | Starts exactly when not Updating and the generator admits it. A start counts the rebuild in once and schedules a job on a copy of the voxels; a refusal changes nothing. |
| `Chunks.Chunk.FinishUpdateMesh` | Assets/Scripts/Chunk.cs:117-143 | The rebuild is counted out once. A non-empty mesh of the copied voxels replaces the rendered one, and `dirty`, `argent` and Updating are cleared. |
| `Chunks.LostEdit` | Assets/Scripts/Chunk.cs:115-138 | An edit made while a job is in flight reaches the voxels, but the mesh shows the older copy and `dirty` ends cleared. |
| `Chunks.StuckAfterRefusal` | Assets/Scripts/Chunk.cs:84-105 | After a refusal, the chunk stays Updating with no job and is never rebuilt, even once the generator admits rebuilds again. |
| `Chunks.Chunk.UpdateRetrying` | Assets/Scripts/Chunk.cs:79-97 | Corrected `Update`: the chunk counts as Updating only when its rebuild actually started, and Updating always means a job is pending. |
| `Chunks.RefusedUpdateRetries` | Assets/Scripts/Chunk.cs:84-105 | With the correction, a refused chunk starts its rebuild once the generator admits it. |
| `StreamingQueue.InSpawnBoxIff` | Assets/Scripts/TerrainGenerator.cs:74-76 | The eviction test keeps exactly the coordinates of the box the enqueue loops walk: ±spawn.x on x and z, ±spawn.y on y. |
| `StreamingQueue.ReprioritisedMembers` | Assets/Scripts/TerrainGenerator.cs:70-83 | After the re-prioritisation pass, an entry survives exactly when its coordinate was queued and lies in the spawn box, and its priority is then the squared distance. |
| `StreamingQueue.SpawnBoxNodesMembers` | Assets/Scripts/TerrainGenerator.cs:86-101 | The enqueue loops add exactly the spawn-box coordinates that are not resident, each with squared-distance priority. |
| `StreamingQueue.RetargetedQueueInBox` | Assets/Scripts/TerrainGenerator.cs:70-101 | After a target change, every queue entry lies in the spawn box and has squared-distance priority. |
| `StreamingQueue.EnqueueDuplicates` | Assets/Scripts/TerrainGenerator.cs:96-101 | Since `Contains` is given a freshly built node, a coordinate that is already queued and still in the box is queued a second time. |
| `StreamingQueue.MinIndex` | Assets/Scripts/TerrainGenerator.cs:117 | `Dequeue` takes an entry of least priority, the first one among equals. |
| `StreamingQueue.DrainCount` | Assets/Scripts/TerrainGenerator.cs:111-120 | The drain takes min(cap, queue length) entries, and none when the cap is not positive. |
| `StreamingQueue.DrainIsPermutation` | Assets/Scripts/TerrainGenerator.cs:112-120 | The dequeued entries plus the remaining queue are a permutation of the queue before the drain. |
| `StreamingQueue.DrainTakesLowestFirst` | Assets/Scripts/TerrainGenerator.cs:112-120 | The entries are dequeued in non-decreasing priority, and none is above any entry still queued. |
| `Terrain.LeavesChunkIffOutOfGrid` | Assets/Scripts/TerrainGenerator.cs:210-215 | A world position's grid position lies in its chunk. An offset position lies in another chunk exactly when its grid position fails `BoundaryCheck`. |
| `Terrain.GridOf` | Assets/Scripts/TerrainGenerator.cs:199-200 | `WorldToGrid` of a position in its own chunk passes `BoundaryCheck`. |
| `Terrain.NotifiedIff` | Assets/Scripts/TerrainGenerator.cs:204-221 | The chunks an edit notifies are exactly the chunks other than the edited one that hold one of the 26 positions around the edited voxel. |
| `Terrain.NotifiedIsAdjacent` | Assets/Scripts/TerrainGenerator.cs:204-221 | A notified chunk is one of the 26 chunks around the edited chunk. |
| `Terrain.TerrainGenerator.constructor` | Assets/Scripts/TerrainGenerator.cs:24-28 | No chunks, an empty queue, no chunk rebuilding and none counted, and `lastTargetChunkPosition` set to the sentinel (int.MinValue, int.MaxValue, int.MinValue). |
| `Terrain.TerrainGenerator.ReprioritiseQueue` | Assets/Scripts/TerrainGenerator.cs:70-83 | The queue becomes `Reprioritised`: out-of-box entries are evicted, and the others get squared-distance priority. |
| `Terrain.TerrainGenerator.EnqueueColumn` | Assets/Scripts/TerrainGenerator.cs:90-102 | The z loop appends the column's non-resident coordinates. |
| `Terrain.TerrainGenerator.EnqueuePlane` | Assets/Scripts/TerrainGenerator.cs:88-103 | The y loop appends the plane's non-resident coordinates. |
| `Terrain.TerrainGenerator.EnqueueSpawnBox` | Assets/Scripts/TerrainGenerator.cs:86-104 | The x loop appends `SpawnBoxNodes`. |
| `Terrain.TerrainGenerator.GenerateChunkByTargetPosition` | Assets/Scripts/TerrainGenerator.cs:59-107 | With no target, or the same chunk coordinate, nothing changes. Otherwise the queue is re-prioritised, the spawn box is enqueued, and the coordinate is remembered. |
| `Terrain.TerrainGenerator.GenerateChunk` | Assets/Scripts/TerrainGenerator.cs:123-163 | For an existing coordinate it returns that chunk and leaves the map unchanged. Otherwise it adds exactly one fresh, uninitialised chunk whose own fresh array holds x·y·z default voxels; the rebuild count still matches. |
| `Terrain.TerrainGenerator.Dequeue` | Assets/Scripts/TerrainGenerator.cs:117 | It returns the least-priority entry and removes exactly that entry. |
| `Terrain.TerrainGenerator.GenerateNearest` | Assets/Scripts/TerrainGenerator.cs:117-119 | One drain step dequeues the nearest entry and makes its coordinate resident. |
| `Terrain.TerrainGenerator.ProcessGenerateChunkQueue` | Assets/Scripts/TerrainGenerator.cs:109-121 | It creates chunks for the first `DrainCount` entries in remove-min order, stopping early when the queue is empty, and keeps every existing chunk. |
| `Terrain.TerrainGenerator.ColumnReady` | Assets/Scripts/TerrainGenerator.cs:141-155 | The z loop's verdict: true exactly when the column's three coordinates are resident and initialised. |
| `Terrain.TerrainGenerator.PlaneReady` | Assets/Scripts/TerrainGenerator.cs:139-156 | The y loop's verdict over a 3x3 plane. |
| `Terrain.TerrainGenerator.NeighborsReady` | Assets/Scripts/TerrainGenerator.cs:135-159 | The neighbour predicate is true exactly when all 27 coordinates of the 3x3x3 block, the chunk itself included, are resident and initialised. |
| `Terrain.TerrainGenerator.GetVoxel` | Assets/Scripts/TerrainGenerator.cs:171-183 | Found exactly when the owning chunk is resident and initialised, returning its cell at the position's grid index; otherwise it returns `Voxel.Empty`. |
| `Terrain.TerrainGenerator.UpdateChunk` | Assets/Scripts/Chunk.cs:79-97 | One frame's `Update` of a resident chunk, with its neighbour predicate: the chunk joins the set rebuilding exactly when its rebuild starts, and the count keeps matching that set and stays at most one above the cap. |
| `Terrain.TerrainGenerator.UpdateWith` | Assets/Scripts/Chunk.cs:90-96 | The same step for a given value of the `CanUpdate` event. |
| `Terrain.TerrainGenerator.FinishChunkUpdate` | Assets/Scripts/Chunk.cs:137-142 | A finished rebuild leaves the set rebuilding and is counted out, so the count still matches. |
| `Terrain.TerrainGenerator.RebuildsAtMostCapPlusOne` | Assets/Scripts/TerrainGenerator.cs:42 | While the count matches, at most cap + 1 chunks rebuild at once, and none when the cap is negative. |
| `Terrain.CountStart` | Assets/Scripts/Chunk.cs:104-107 | A rebuild admitted while the count is at most the cap, and counted in, keeps the count equal to the number rebuilding and at most cap + 1. |
| `Terrain.CountFinish` | Assets/Scripts/Chunk.cs:142 | Counting a finished rebuild out keeps the count equal to the number rebuilding. |
| `Terrain.TerrainGenerator.IsAir` | Assets/Scripts/TerrainGenerator.cs:185-193 | True exactly when the voxel is found and is Air. A missing chunk counts as not Air. |
| `Terrain.TerrainGenerator.NotifyOffset` | Assets/Scripts/TerrainGenerator.cs:210-220 | One offset tells the chunk it reaches, if resident, exactly when the offset position leaves the edited chunk. |
| `Terrain.TerrainGenerator.NotifyColumn` | Assets/Scripts/TerrainGenerator.cs:208-221 | The z loop marks exactly the chunks that its offsets reach. |
| `Terrain.TerrainGenerator.NotifyPlane` | Assets/Scripts/TerrainGenerator.cs:206-222 | The y loop marks exactly the chunks that its offsets reach. |
| `Terrain.TerrainGenerator.NotifyNeighbors` | Assets/Scripts/TerrainGenerator.cs:204-223 | Resident chunks become dirty and argent exactly when `Notified`, and no other chunk changes. |
| `Terrain.TerrainGenerator.SetVoxel` | Assets/Scripts/TerrainGenerator.cs:195-229 | Fails, changing nothing, when the owning chunk is missing or rejects the write. On success it changes only the addressed cell, and marks the edited chunk and exactly the notified neighbours dirty and argent. |
| `Terrain.TerrainGenerator.AddNeighborColumn` | Assets/Scripts/TerrainGenerator.cs:244-255 | The z loop appends each coordinate's voxel array, or null where no chunk exists; a chunk still generating contributes the array allocated at `Init`. |
| `Terrain.TerrainGenerator.AddNeighborPlane` | Assets/Scripts/TerrainGenerator.cs:242-256 | The y loop appends its columns in order. |
| `Terrain.TerrainGenerator.GetNeighborVoxels` | Assets/Scripts/TerrainGenerator.cs:236-260 | The list holds the cube of side 2n+1 around the chunk, with cell (i, j, k) at index k + side·j + side²·i and null where no chunk exists. A chunk still generating contributes its array. A negative n gives an empty list. |
| `Terrain.TerrainGenerator.NeighborArrayAt` | Assets/Scripts/TerrainGenerator.cs:246-254 | A listed entry is null exactly when no chunk is resident at its coordinate, and otherwise is that chunk's own array, whether or not it has finished generating. |
| `Terrain.NeighborBlockInOrder` | Assets/Scripts/TerrainGenerator.cs:240-257 | The triple loop lists the cube x-major, then y, then z. |

## Left out

- GPU paths: `GPUVoxelData.Generate`, the compute shaders, `SetGPUVoxel` and
  `UpdateGPUMesh` are not part of this model. A chunk and the generator require
  a CPU simplifying method. `ScheduleMeshingJob`'s default branch for
  GPUCulling is modelled.
- Voxel generation: `InitUpdator`'s content comes from a compute shader, so it
  is a parameter of `Chunk.InitUpdator`.
- Unity Jobs, Burst, `JobHandle` and coroutine timing are not modelled. Each job
  runs to completion when it is scheduled, on its own copy of the voxels, which
  gives the same result. The `WaitUntil(... || argent)` shortcut at
  VoxelMeshBuilder.cs:90-95 still ends in `jobHandle.Complete()`, so it does not
  change the result.
- Mesh API calls, `RecalculateNormals`/`Bounds`, the collider path
  (`SetSharedMesh`, `VoxelColliderBuilder`) and the layer change are left out.
  `FinishUpdateMesh` keeps only the rendered vertex and index lists.
- `Dispose` and the finalizers are resource management with no behaviour to
  model.
- `InitializeShaderParameter`, `OnDrawGizmos`, `Awake`/`Start` and the
  `Singleton` base are left out.
- Floats: world positions are integer voxel coordinates, and `WorldToChunk` is
  floor division per axis. Vertex positions and UVs are integers, because the
  widths and heights passed in are integers.
- `FastPriorityQueue` internals: the queue is a sequence whose remove-min takes
  the first entry of least priority. The heap's own order among equal
  priorities is not modelled, nor is its 100000-entry capacity. Removing
  during `foreach` is modelled as a filter over the queue.
- The code's `Contains` is given a freshly built node, so the model never
  deduplicates (`StreamingQueue.EnqueueDuplicates`).
- The target transform is replaced by the target's chunk coordinate plus a
  `hasTarget` flag. A target whose chunk coordinate equals the sentinel would be
  skipped on the first call; world positions near ±2³¹ chunks are not
  considered.
- 32-bit overflow is not modelled: `updatingChunks`, `sqrMagnitude`, the buffer
  sizes `12·x·y·z`, and `To1DIndex` are unbounded integers here.
- `VoxelUtil` is not part of this model. `To1DIndex` (x fastest),
  `BoundaryCheck`, `VoxelDirectionOffsets`, the aligned-axis tables and the
  `Cube*` tables are stand-ins with the properties the meshers rely on. Air is
  type 0 and `Voxel.Empty` is an Air voxel.
- The chunk's `CanUpdate` event is the neighbour predicate that `GenerateChunk`
  installs. `Chunk.Update` receives its value as a parameter; the event's
  default `() => true` and the `CanUpdate == null` test are not modelled.
- `GetChunk` is a map lookup inside `GetVoxel` and `SetVoxel`.
- The generator's invariant records that every resident chunk is well shaped,
  that the ghost set `rebuilding` is exactly the resident chunks with a rebuild
  in flight, and that `updatingChunks` is its size. The engine's frame loop,
  which calls every chunk's `Update` and finishes jobs as they complete, is
  not modelled as a scheduler: `UpdateChunk` and `FinishChunkUpdate` are its
  single steps.
- MeshCommon.NativeMeshData.Emit: requires the buffers to have room for the
  quad, which the source never checks (see
  `CullingJob.SingleSolidVoxelOverflows`).
- MeshCommon.AddQuadByDirection: requires both buffers to have room for slot
  `quadIndex`, which the source never checks, for the same reason.
- VoxelMeshBuilder.ScheduleMeshingJob: requires the selected job's output to
  fit the buffers, for the same reason.
- Chunks.Chunk.BeginUpdateMesh: requires the mesh to fit the 12-vertex and
  18-index per voxel buffers (`MeshFits`).
- Chunks.Chunk.Update: same `MeshFits` requirement for an initialised chunk.
- Terrain.TerrainGenerator.UpdateChunk: inherits `Chunks.Chunk.Update`'s
  `MeshFits` requirement for an initialised chunk.
- Terrain.TerrainGenerator.UpdateWith: the same inherited `MeshFits`
  requirement.
- Chunks.Chunk.Update: assumes `StartCoroutine` returns a non-null handle for a
  coroutine that ends at its first `yield break` (Chunk.cs:101-105), so line 96
  leaves the chunk Updating after a refusal. If the engine returns null there,
  the chunk is not left Updating and `Chunks.Chunk.UpdateRetrying` is the
  faithful model of `Update`.
- Chunks.Chunk.UpdateRetrying: same `MeshFits` requirement.

## Findings

| source | as written | input that shows it | evidently intended | confidence | as-written member | corrected member |
|---|---|---|---|---|---|---|
| Assets/Scripts/Chunk.cs:96 | `Update` stores the coroutine in `meshUpdator` even when `UpdateMesh` exits at its `generator.CanUpdate` test (lines 104-105), and only line 141 resets it | an initialised, dirty chunk with its neighbours generated, updated while `updatingChunks` exceeds `maxGenerateChunksInFrame` | a refused rebuild leaves the chunk not Updating, so a later frame asks again | low: depends on `StartCoroutine` returning a handle for a coroutine that ends before its first yield; not executed | `Chunks.StuckAfterRefusal` | `Chunks.Chunk.UpdateRetrying` |
