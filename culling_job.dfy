/**
 * `VoxelCullingJob`: one unit quad per visible face, no merging. The sweep is
 * x outermost, then y, then z, then the six directions of each non-Air voxel.
 *
 * CullingQuads is the list of quads the job emits, in emission order, built
 * from the loops of the job: ColumnQuads walks the z and direction loops of
 * one column, PlaneQuads the y loop, SweepQuads the x loop. The job is proved
 * to append exactly that list to the buffers; the lemmas then characterise
 * the list: its members are exactly the unit quads of visible faces, each
 * once.
 */
module CullingJob {
  import opened VoxelUtil
  import opened MeshCommon

  /** The unit quad of the face of p looking in direction d. */
  function UnitQuad(voxels: seq<Voxel>, chunkSize: Int3, p: Int3, d: Direction): Quad
    requires GridOk(voxels, chunkSize) && BoundaryCheck(p, chunkSize)
  {
    Quad(d, VoxelAt(voxels, chunkSize, p).data, 1, 1, p)
  }

  /** The quad is the unit quad of a visible face of some in-chunk voxel. */
  ghost predicate IsVisibleFaceQuad(voxels: seq<Voxel>, chunkSize: Int3, q: Quad)
    requires GridOk(voxels, chunkSize)
  {
    && BoundaryCheck(q.position, chunkSize)
    && FaceVisible(voxels, chunkSize, q.position, q.direction)
    && q == UnitQuad(voxels, chunkSize, q.position, q.direction)
  }

  /** What the direction loop emits for face d of p: its unit quad if visible. */
  function FaceQuad(voxels: seq<Voxel>, chunkSize: Int3, p: Int3, d: Direction): seq<Quad>
    requires GridOk(voxels, chunkSize) && BoundaryCheck(p, chunkSize)
  {
    if FaceVisible(voxels, chunkSize, p, d) then [UnitQuad(voxels, chunkSize, p, d)] else []
  }

  /** Where the z and direction loops of a column may stand: cell z, direction d. */
  predicate ColumnStep(chunkSize: Int3, z: int, d: nat) {
    0 <= z <= chunkSize.z && d <= 6 && (z == chunkSize.z ==> d == 0)
  }

  /**
   * What column (x, y) has emitted when its loops reach direction d of cell z:
   * all faces of the cells below z, then faces 0..d-1 of cell z.
   */
  function ColumnQuads(voxels: seq<Voxel>, chunkSize: Int3, x: int, y: int, z: int, d: nat): seq<Quad>
    requires GridOk(voxels, chunkSize) && 0 <= x < chunkSize.x && 0 <= y < chunkSize.y
    requires ColumnStep(chunkSize, z, d)
    decreases z, d
  {
    if d == 0 then
      (if z == 0 then [] else ColumnQuads(voxels, chunkSize, x, y, z - 1, 6))
    else
      ColumnQuads(voxels, chunkSize, x, y, z, d - 1) + FaceQuad(voxels, chunkSize, Int3(x, y, z), d - 1)
  }

  /** What plane x has emitted after the first n iterations of its y loop. */
  function PlaneQuads(voxels: seq<Voxel>, chunkSize: Int3, x: int, n: int): seq<Quad>
    requires GridOk(voxels, chunkSize) && 0 <= x < chunkSize.x && 0 <= n <= chunkSize.y
    decreases n
  {
    if n == 0 then []
    else PlaneQuads(voxels, chunkSize, x, n - 1) + ColumnQuads(voxels, chunkSize, x, n - 1, chunkSize.z, 0)
  }

  /** What the job has emitted after the first n iterations of its x loop. */
  function SweepQuads(voxels: seq<Voxel>, chunkSize: Int3, n: int): seq<Quad>
    requires GridOk(voxels, chunkSize) && 0 <= n <= chunkSize.x
    decreases n
  {
    if n == 0 then []
    else SweepQuads(voxels, chunkSize, n - 1) + PlaneQuads(voxels, chunkSize, n - 1, chunkSize.y)
  }

  /** Everything the culling job emits, in emission order. */
  function CullingQuads(voxels: seq<Voxel>, chunkSize: Int3): seq<Quad>
    requires GridOk(voxels, chunkSize)
  {
    SweepQuads(voxels, chunkSize, chunkSize.x)
  }

  /** An Air cell emits nothing: skipping its direction loop loses no quad. */
  lemma {:induction false} AirCellEmitsNothing(voxels: seq<Voxel>, chunkSize: Int3, x: int, y: int, z: int, d: nat)
    requires GridOk(voxels, chunkSize) && BoundaryCheck(Int3(x, y, z), chunkSize) && d <= 6
    requires VoxelAt(voxels, chunkSize, Int3(x, y, z)).data == Air
    ensures ColumnQuads(voxels, chunkSize, x, y, z, d) == ColumnQuads(voxels, chunkSize, x, y, z, 0)
  {
    if d > 0 {
      AirCellEmitsNothing(voxels, chunkSize, x, y, z, d - 1);
    }
  }

  /** A column's output only grows as its loops advance. */
  lemma {:induction false} ColumnQuadsGrow(voxels: seq<Voxel>, chunkSize: Int3, x: int, y: int, z: int, d: nat)
    requires GridOk(voxels, chunkSize) && 0 <= x < chunkSize.x && 0 <= y < chunkSize.y
    requires ColumnStep(chunkSize, z, d)
    ensures |ColumnQuads(voxels, chunkSize, x, y, z, d)| <= |ColumnQuads(voxels, chunkSize, x, y, chunkSize.z, 0)|
    decreases chunkSize.z - z, 6 - d
  {
    if z < chunkSize.z {
      if d < 6 {
        ColumnQuadsGrow(voxels, chunkSize, x, y, z, d + 1);
      } else {
        ColumnQuadsGrow(voxels, chunkSize, x, y, z + 1, 0);
      }
    }
  }

  /** The y loop has room for column n: its plane holds it after the columns before. */
  lemma {:induction false} ColumnFits(voxels: seq<Voxel>, chunkSize: Int3, x: int, n: int, m: int)
    requires GridOk(voxels, chunkSize) && 0 <= x < chunkSize.x && 0 <= n < m <= chunkSize.y
    ensures |PlaneQuads(voxels, chunkSize, x, n)| + |ColumnQuads(voxels, chunkSize, x, n, chunkSize.z, 0)|
         <= |PlaneQuads(voxels, chunkSize, x, m)|
    decreases m
  {
    if n < m - 1 {
      ColumnFits(voxels, chunkSize, x, n, m - 1);
    }
    assert PlaneQuads(voxels, chunkSize, x, m)
        == PlaneQuads(voxels, chunkSize, x, m - 1) + ColumnQuads(voxels, chunkSize, x, m - 1, chunkSize.z, 0);
  }

  /** The x loop has room for plane n: the sweep holds it after the planes before. */
  lemma {:induction false} PlaneFits(voxels: seq<Voxel>, chunkSize: Int3, n: int, m: int)
    requires GridOk(voxels, chunkSize) && 0 <= n < m <= chunkSize.x
    ensures |SweepQuads(voxels, chunkSize, n)| + |PlaneQuads(voxels, chunkSize, n, chunkSize.y)|
         <= |SweepQuads(voxels, chunkSize, m)|
    decreases m
  {
    if n < m - 1 {
      PlaneFits(voxels, chunkSize, n, m - 1);
    }
    assert SweepQuads(voxels, chunkSize, m)
        == SweepQuads(voxels, chunkSize, m - 1) + PlaneQuads(voxels, chunkSize, m - 1, chunkSize.y);
  }

  /** The z loop over column (x, y). */
  method CullColumn(voxels: seq<Voxel>, chunkSize: Int3, x: int, y: int, data: NativeMeshData)
    requires GridOk(voxels, chunkSize) && 0 <= x < chunkSize.x && 0 <= y < chunkSize.y
    requires data.Valid() && HasRoom(data, |ColumnQuads(voxels, chunkSize, x, y, chunkSize.z, 0)|)
    modifies data`count, data`Quads, data.nativeVertices, data.nativeIndices
    ensures data.Valid()
    ensures data.Quads == old(data.Quads) + ColumnQuads(voxels, chunkSize, x, y, chunkSize.z, 0)
  {
    ghost var before := data.Quads;
    for z := 0 to chunkSize.z
      invariant data.Valid()
      invariant data.Quads == before + ColumnQuads(voxels, chunkSize, x, y, z, 0)
    {
      var gridPosition := Int3(x, y, z);
      var voxel := voxels[To1DIndex(gridPosition, chunkSize)];
      if voxel.data == Air {
        AirCellEmitsNothing(voxels, chunkSize, x, y, z, 6);
        continue;
      }
      CullVoxel(voxels, chunkSize, gridPosition, voxel, data, before);
    }
  }

  /** The direction loop over the six faces of the non-Air voxel at gridPosition. */
  method CullVoxel(voxels: seq<Voxel>, chunkSize: Int3, gridPosition: Int3, voxel: Voxel,
                   data: NativeMeshData, ghost emitted: seq<Quad>)
    requires GridOk(voxels, chunkSize) && BoundaryCheck(gridPosition, chunkSize)
    requires voxel == VoxelAt(voxels, chunkSize, gridPosition) && voxel.data != Air
    requires data.Valid()
    requires data.Quads == emitted + ColumnQuads(voxels, chunkSize, gridPosition.x, gridPosition.y, gridPosition.z, 0)
    requires 4 * (|emitted| + |ColumnQuads(voxels, chunkSize, gridPosition.x, gridPosition.y, chunkSize.z, 0)|)
          <= data.nativeVertices.Length
    requires 6 * (|emitted| + |ColumnQuads(voxels, chunkSize, gridPosition.x, gridPosition.y, chunkSize.z, 0)|)
          <= data.nativeIndices.Length
    modifies data`count, data`Quads, data.nativeVertices, data.nativeIndices
    ensures data.Valid()
    ensures data.Quads == emitted + ColumnQuads(voxels, chunkSize, gridPosition.x, gridPosition.y, gridPosition.z, 6)
  {
    var x, y, z := gridPosition.x, gridPosition.y, gridPosition.z;
    for direction := 0 to 6
      invariant data.Valid()
      invariant data.Quads == emitted + ColumnQuads(voxels, chunkSize, x, y, z, direction)
    {
      CullFace(voxels, chunkSize, gridPosition, voxel, direction, data, emitted);
    }
  }

  /** One iteration of the direction loop: emits face `direction` when its neighbour hides nothing. */
  method CullFace(voxels: seq<Voxel>, chunkSize: Int3, gridPosition: Int3, voxel: Voxel, direction: Direction,
                  data: NativeMeshData, ghost emitted: seq<Quad>)
    requires GridOk(voxels, chunkSize) && BoundaryCheck(gridPosition, chunkSize)
    requires voxel == VoxelAt(voxels, chunkSize, gridPosition) && voxel.data != Air
    requires data.Valid()
    requires data.Quads == emitted + ColumnQuads(voxels, chunkSize, gridPosition.x, gridPosition.y, gridPosition.z, direction)
    requires 4 * (|emitted| + |ColumnQuads(voxels, chunkSize, gridPosition.x, gridPosition.y, chunkSize.z, 0)|)
          <= data.nativeVertices.Length
    requires 6 * (|emitted| + |ColumnQuads(voxels, chunkSize, gridPosition.x, gridPosition.y, chunkSize.z, 0)|)
          <= data.nativeIndices.Length
    modifies data`count, data`Quads, data.nativeVertices, data.nativeIndices
    ensures data.Valid()
    ensures data.Quads == emitted + ColumnQuads(voxels, chunkSize, gridPosition.x, gridPosition.y, gridPosition.z, direction + 1)
  {
    var x, y, z := gridPosition.x, gridPosition.y, gridPosition.z;
    var neighborPosition := gridPosition.Plus(VoxelDirectionOffset(direction));
    TransparencyCheckHidesFace(voxels, chunkSize, gridPosition, direction);
    if TransparencyCheck(voxels, neighborPosition, chunkSize) {
      return;
    }
    ColumnQuadsGrow(voxels, chunkSize, x, y, z, direction + 1);
    Assoc(emitted, ColumnQuads(voxels, chunkSize, x, y, z, direction),
          [UnitQuad(voxels, chunkSize, gridPosition, direction)]);
    data.Emit(Quad(direction, voxel.data, 1, 1, gridPosition));
  }

  /** The y loop over plane x. */
  method CullPlane(voxels: seq<Voxel>, chunkSize: Int3, x: int, data: NativeMeshData)
    requires GridOk(voxels, chunkSize) && 0 <= x < chunkSize.x
    requires data.Valid() && HasRoom(data, |PlaneQuads(voxels, chunkSize, x, chunkSize.y)|)
    modifies data`count, data`Quads, data.nativeVertices, data.nativeIndices
    ensures data.Valid()
    ensures data.Quads == old(data.Quads) + PlaneQuads(voxels, chunkSize, x, chunkSize.y)
  {
    ghost var before := data.Quads;
    for y := 0 to chunkSize.y
      invariant data.Valid()
      invariant data.Quads == before + PlaneQuads(voxels, chunkSize, x, y)
    {
      ColumnFits(voxels, chunkSize, x, y, chunkSize.y);
      CullColumn(voxels, chunkSize, x, y, data);
      assert PlaneQuads(voxels, chunkSize, x, y + 1)
          == PlaneQuads(voxels, chunkSize, x, y) + ColumnQuads(voxels, chunkSize, x, y, chunkSize.z, 0);
      Assoc(before, PlaneQuads(voxels, chunkSize, x, y), ColumnQuads(voxels, chunkSize, x, y, chunkSize.z, 0));
    }
  }

  /** `VoxelCullingJob.Execute`: appends CullingQuads to the buffers. */
  method VoxelCullingJobExecute(voxels: seq<Voxel>, chunkSize: Int3, data: NativeMeshData)
    requires GridOk(voxels, chunkSize) && data.Valid()
    requires HasRoom(data, |CullingQuads(voxels, chunkSize)|)
    modifies data`count, data`Quads, data.nativeVertices, data.nativeIndices
    ensures data.Valid()
    ensures data.Quads == old(data.Quads) + CullingQuads(voxels, chunkSize)
  {
    ghost var before := data.Quads;
    for x := 0 to chunkSize.x
      invariant data.Valid()
      invariant data.Quads == before + SweepQuads(voxels, chunkSize, x)
    {
      PlaneFits(voxels, chunkSize, x, chunkSize.x);
      CullPlane(voxels, chunkSize, x, data);
      assert SweepQuads(voxels, chunkSize, x + 1)
          == SweepQuads(voxels, chunkSize, x) + PlaneQuads(voxels, chunkSize, x, chunkSize.y);
      Assoc(before, SweepQuads(voxels, chunkSize, x), PlaneQuads(voxels, chunkSize, x, chunkSize.y));
    }
  }

  /** No quad appears twice. */
  predicate Distinct<T(==)>(s: seq<T>) {
    forall i, j :: 0 <= i < j < |s| ==> s[i] != s[j]
  }

  lemma DistinctAppend<T>(a: seq<T>, b: seq<T>)
    requires Distinct(a) && Distinct(b)
    requires forall q :: q in b ==> q !in a
    ensures Distinct(a + b)
  {
    forall i, j | 0 <= i < j < |a + b|
      ensures (a + b)[i] != (a + b)[j]
    {
      if i < |a| && j >= |a| {
        assert (a + b)[j] in b;
      }
    }
  }

  /** The quad is a visible unit face of column (x, y) that the loops reach before (z, d). */
  ghost predicate EmittedBefore(voxels: seq<Voxel>, chunkSize: Int3, q: Quad, x: int, y: int, z: int, d: int)
    requires GridOk(voxels, chunkSize)
  {
    && IsVisibleFaceQuad(voxels, chunkSize, q)
    && q.position.x == x && q.position.y == y
    && (q.position.z < z || (q.position.z == z && q.direction < d))
  }

  lemma {:induction false} ColumnQuadsMembers(voxels: seq<Voxel>, chunkSize: Int3, x: int, y: int, z: int, d: nat, q: Quad)
    requires GridOk(voxels, chunkSize) && 0 <= x < chunkSize.x && 0 <= y < chunkSize.y
    requires ColumnStep(chunkSize, z, d)
    ensures q in ColumnQuads(voxels, chunkSize, x, y, z, d) <==> EmittedBefore(voxels, chunkSize, q, x, y, z, d)
    decreases z, d
  {
    if d == 0 {
      if z > 0 {
        ColumnQuadsMembers(voxels, chunkSize, x, y, z - 1, 6, q);
      }
    } else {
      ColumnQuadsMembers(voxels, chunkSize, x, y, z, d - 1, q);
    }
  }

  lemma {:induction false} ColumnQuadsDistinct(voxels: seq<Voxel>, chunkSize: Int3, x: int, y: int, z: int, d: nat)
    requires GridOk(voxels, chunkSize) && 0 <= x < chunkSize.x && 0 <= y < chunkSize.y
    requires ColumnStep(chunkSize, z, d)
    ensures Distinct(ColumnQuads(voxels, chunkSize, x, y, z, d))
    decreases z, d
  {
    if d == 0 {
      if z > 0 {
        ColumnQuadsDistinct(voxels, chunkSize, x, y, z - 1, 6);
      }
    } else {
      ColumnQuadsDistinct(voxels, chunkSize, x, y, z, d - 1);
      var face := FaceQuad(voxels, chunkSize, Int3(x, y, z), d - 1);
      forall q | q in face
        ensures q !in ColumnQuads(voxels, chunkSize, x, y, z, d - 1)
      {
        ColumnQuadsMembers(voxels, chunkSize, x, y, z, d - 1, q);
      }
      DistinctAppend(ColumnQuads(voxels, chunkSize, x, y, z, d - 1), face);
    }
  }

  lemma {:induction false} PlaneQuadsMembers(voxels: seq<Voxel>, chunkSize: Int3, x: int, n: int, q: Quad)
    requires GridOk(voxels, chunkSize) && 0 <= x < chunkSize.x && 0 <= n <= chunkSize.y
    ensures q in PlaneQuads(voxels, chunkSize, x, n) <==>
      IsVisibleFaceQuad(voxels, chunkSize, q) && q.position.x == x && q.position.y < n
    decreases n
  {
    if n > 0 {
      PlaneQuadsMembers(voxels, chunkSize, x, n - 1, q);
      ColumnQuadsMembers(voxels, chunkSize, x, n - 1, chunkSize.z, 0, q);
    }
  }

  lemma {:induction false} PlaneQuadsDistinct(voxels: seq<Voxel>, chunkSize: Int3, x: int, n: int)
    requires GridOk(voxels, chunkSize) && 0 <= x < chunkSize.x && 0 <= n <= chunkSize.y
    ensures Distinct(PlaneQuads(voxels, chunkSize, x, n))
    decreases n
  {
    if n > 0 {
      PlaneQuadsDistinct(voxels, chunkSize, x, n - 1);
      ColumnQuadsDistinct(voxels, chunkSize, x, n - 1, chunkSize.z, 0);
      var column := ColumnQuads(voxels, chunkSize, x, n - 1, chunkSize.z, 0);
      forall q | q in column
        ensures q !in PlaneQuads(voxels, chunkSize, x, n - 1)
      {
        ColumnQuadsMembers(voxels, chunkSize, x, n - 1, chunkSize.z, 0, q);
        PlaneQuadsMembers(voxels, chunkSize, x, n - 1, q);
      }
      DistinctAppend(PlaneQuads(voxels, chunkSize, x, n - 1), column);
    }
  }

  lemma {:induction false} SweepQuadsMembers(voxels: seq<Voxel>, chunkSize: Int3, n: int, q: Quad)
    requires GridOk(voxels, chunkSize) && 0 <= n <= chunkSize.x
    ensures q in SweepQuads(voxels, chunkSize, n) <==>
      IsVisibleFaceQuad(voxels, chunkSize, q) && q.position.x < n
    decreases n
  {
    if n > 0 {
      SweepQuadsMembers(voxels, chunkSize, n - 1, q);
      PlaneQuadsMembers(voxels, chunkSize, n - 1, chunkSize.y, q);
    }
  }

  lemma {:induction false} SweepQuadsDistinct(voxels: seq<Voxel>, chunkSize: Int3, n: int)
    requires GridOk(voxels, chunkSize) && 0 <= n <= chunkSize.x
    ensures Distinct(SweepQuads(voxels, chunkSize, n))
    decreases n
  {
    if n > 0 {
      SweepQuadsDistinct(voxels, chunkSize, n - 1);
      PlaneQuadsDistinct(voxels, chunkSize, n - 1, chunkSize.y);
      var plane := PlaneQuads(voxels, chunkSize, n - 1, chunkSize.y);
      forall q | q in plane
        ensures q !in SweepQuads(voxels, chunkSize, n - 1)
      {
        PlaneQuadsMembers(voxels, chunkSize, n - 1, chunkSize.y, q);
        SweepQuadsMembers(voxels, chunkSize, n - 1, q);
      }
      DistinctAppend(SweepQuads(voxels, chunkSize, n - 1), plane);
    }
  }

  /**
   * The culling job's output is exactly the set of unit quads of visible
   * faces: a quad is emitted iff its voxel is non-Air and its neighbour in
   * the quad's direction is not an in-chunk non-Air voxel.
   */
  lemma CullingQuadsMembers(voxels: seq<Voxel>, chunkSize: Int3, q: Quad)
    requires GridOk(voxels, chunkSize)
    ensures q in CullingQuads(voxels, chunkSize) <==> IsVisibleFaceQuad(voxels, chunkSize, q)
  {
    SweepQuadsMembers(voxels, chunkSize, chunkSize.x, q);
  }

  /** Each visible face is emitted exactly once. */
  lemma CullingQuadsDistinct(voxels: seq<Voxel>, chunkSize: Int3)
    requires GridOk(voxels, chunkSize)
    ensures Distinct(CullingQuads(voxels, chunkSize))
  {
    SweepQuadsDistinct(voxels, chunkSize, chunkSize.x);
  }

  /** An all-Air chunk produces no quads. */
  lemma AllAirEmitsNothing(voxels: seq<Voxel>, chunkSize: Int3)
    requires GridOk(voxels, chunkSize)
    requires forall i :: 0 <= i < |voxels| ==> voxels[i].data == Air
    ensures CullingQuads(voxels, chunkSize) == []
  {
    var quads := CullingQuads(voxels, chunkSize);
    if quads != [] {
      CullingQuadsMembers(voxels, chunkSize, quads[0]);
      assert false;
    }
  }

  /**
   * A single solid voxel shows all six faces, so the job emits 6 quads, 24
   * vertices and 36 indices, while NativeMeshData sizes its buffers for 12
   * vertices and 18 indices per voxel: the culling job's output does not fit.
   */
  lemma SingleSolidVoxelOverflows(t: VoxelType)
    requires t != Air
    ensures |CullingQuads([Voxel(t)], Int3(1, 1, 1))| == 6
    ensures 4 * |CullingQuads([Voxel(t)], Int3(1, 1, 1))| > 12 * Volume(Int3(1, 1, 1))
    ensures 6 * |CullingQuads([Voxel(t)], Int3(1, 1, 1))| > 18 * Volume(Int3(1, 1, 1))
  {
    var voxels, size := [Voxel(t)], Int3(1, 1, 1);
    for d := 0 to 6
      invariant |ColumnQuads(voxels, size, 0, 0, 0, d)| == d
    {
      SolidVoxelFaceVisible(t, d);
    }
    assert |CullingQuads(voxels, size)| == |ColumnQuads(voxels, size, 0, 0, 1, 0)|;
  }

  /** Every face of a lone solid voxel looks out of the chunk, so it is visible. */
  lemma SolidVoxelFaceVisible(t: VoxelType, d: Direction)
    requires t != Air
    ensures FaceVisible([Voxel(t)], Int3(1, 1, 1), Int3(0, 0, 0), d)
  {
    assert !BoundaryCheck(Int3(0, 0, 0).Plus(VoxelDirectionOffset(d)), Int3(1, 1, 1));
    assert To1DIndex(Int3(0, 0, 0), Int3(1, 1, 1)) == 0;
  }
}
