/**
 * Grid geometry shared by the mesher, the chunk and the streaming scheduler:
 * integer 3-vectors, the chunk-size box, the linearisation of a grid position
 * into the flat voxel array, and the per-direction tables of the face sweep.
 *
 * The helper class that defines these in the repository is not part of this
 * model. The tables below are concrete stand-ins chosen to satisfy exactly the
 * assumptions the mesher relies on, and each assumption is proved here as a
 * lemma: BoundaryCheck is "0 <= p < size on every axis", To1DIndex is a
 * bijection onto [0, x*y*z), and the three aligned axes of every direction are
 * a permutation of {0, 1, 2} whose depth axis is the axis of the direction's
 * unit offset.
 */
module VoxelUtil {

  /** The voxel type enumeration; its underlying integer feeds the atlas index. */
  type VoxelType = nat

  /** The distinguished empty/transparent type (the first enumerator). */
  const Air: VoxelType := 0

  /** A voxel is stored by value and compared by its type. */
  datatype Voxel = Voxel(data: VoxelType)

  /** `Voxel.Empty`, returned by reads that find nothing. */
  const Empty: Voxel := Voxel(Air)

  type Axis = a: nat | a < 3

  /** One of the six face directions. */
  type Direction = d: nat | d < 6

  datatype Int3 = Int3(x: int, y: int, z: int) {
    /** Component access by axis, as `int3[axis]`. */
    function Get(axis: Axis): int {
      if axis == 0 then x else if axis == 1 then y else z
    }

    /** Component update by axis, as `int3[axis] = v`. */
    function Set(axis: Axis, v: int): (r: Int3)
      ensures r.Get(axis) == v
      ensures forall a: Axis :: a != axis ==> r.Get(a) == Get(a)
    {
      if axis == 0 then this.(x := v) else if axis == 1 then this.(y := v) else this.(z := v)
    }

    function Plus(o: Int3): Int3 {
      Int3(x + o.x, y + o.y, z + o.z)
    }

    function Minus(o: Int3): Int3 {
      Int3(x - o.x, y - o.y, z - o.z)
    }

    /** `Vector3Int.sqrMagnitude`. */
    function SqrMagnitude(): int {
      x * x + y * y + z * z
    }
  }

  /** A chunk size: positive on every axis. */
  predicate ValidSize(size: Int3) {
    size.x > 0 && size.y > 0 && size.z > 0
  }

  /** Number of voxels in a chunk of the given size. */
  function Volume(size: Int3): int {
    size.x * size.y * size.z
  }

  /** `VoxelUtil.BoundaryCheck`: the position lies inside the chunk on every axis. */
  predicate BoundaryCheck(p: Int3, size: Int3) {
    0 <= p.x < size.x && 0 <= p.y < size.y && 0 <= p.z < size.z
  }

  lemma {:induction false} MulNonneg(x: int, y: int)
    requires 0 <= x && 0 <= y
    ensures 0 <= x * y
    decreases y
  {
    if y > 0 {
      MulNonneg(x, y - 1);
      assert x * y == x * (y - 1) + x;
    }
  }

  lemma {:induction false} MulStrictBound(a: int, b: int, n: int, m: int)
    requires 0 <= a < n && 0 <= b < m
    ensures a + n * b < n * m
    ensures 0 <= a + n * b
  {
    MulNonneg(n, b);
    MulNonneg(n, m - 1 - b);
    assert n * (m - 1 - b) == n * m - n - n * b;
  }

  /** `VoxelUtil.To1DIndex`: x-fastest linearisation. */
  function To1DIndex(p: Int3, size: Int3): (i: nat)
    requires ValidSize(size) && BoundaryCheck(p, size)
    ensures i < Volume(size)
  {
    MulStrictBound(p.y, p.z, size.y, size.z);
    MulStrictBound(p.x, p.y + size.y * p.z, size.x, size.y * size.z);
    assert Volume(size) == size.x * (size.y * size.z);
    p.x + size.x * (p.y + size.y * p.z)
  }

  /** The position stored at a flat index: the inverse of To1DIndex. */
  function FromIndex(i: nat, size: Int3): Int3
    requires ValidSize(size)
  {
    Int3(i % size.x, (i / size.x) % size.y, (i / size.x) / size.y)
  }

  lemma MulAtLeastFactor(n: int, k: int)
    requires n > 0 && k >= 1
    ensures n * k >= n
  {
    MulNonneg(n, k - 1);
    assert n * k == n + n * (k - 1);
  }

  lemma MulAtMostMinusFactor(n: int, k: int)
    requires n > 0 && k <= -1
    ensures n * k <= -n
  {
    MulNonneg(n, -k - 1);
    assert n * k == -n - n * (-k - 1);
  }

  /** A multiple of n strictly between -n and n is zero. */
  lemma SmallMultipleIsZero(n: int, k: int)
    requires n > 0 && -n < n * k < n
    ensures k == 0
  {
    if k >= 1 {
      MulAtLeastFactor(n, k);
    } else if k <= -1 {
      MulAtMostMinusFactor(n, k);
    }
  }

  lemma {:induction false} DivModOfSum(a: int, b: int, n: int)
    requires 0 <= a < n
    ensures (a + n * b) / n == b && (a + n * b) % n == a
  {
    var q, r := (a + n * b) / n, (a + n * b) % n;
    assert a + n * b == n * q + r && 0 <= r < n;
    assert n * (q - b) == a - r by {
      assert n * q - n * b == n * (q - b);
    }
    SmallMultipleIsZero(n, q - b);
  }

  /** To1DIndex is injective on the box: FromIndex undoes it. */
  lemma {:induction false} FromIndexTo1DIndex(p: Int3, size: Int3)
    requires ValidSize(size) && BoundaryCheck(p, size)
    ensures FromIndex(To1DIndex(p, size), size) == p
  {
    var k := p.y + size.y * p.z;
    DivModOfSum(p.x, k, size.x);
    DivModOfSum(p.y, p.z, size.y);
  }

  lemma {:induction false} QuotientBound(i: int, n: int, m: int)
    requires n > 0 && m > 0 && 0 <= i < n * m
    ensures 0 <= i / n < m
  {
    var q := i / n;
    assert i == n * q + i % n;
    assert n * q - n * m == n * (q - m);
    if q - m >= 0 {
      MulAtLeastFactor(n, q - m + 1);
    }
    if q <= -1 {
      MulAtMostMinusFactor(n, q);
    }
  }

  /** To1DIndex is onto [0, Volume): every flat index names an in-box position. */
  lemma {:induction false} To1DIndexFromIndex(i: nat, size: Int3)
    requires ValidSize(size) && i < Volume(size)
    ensures BoundaryCheck(FromIndex(i, size), size)
    ensures To1DIndex(FromIndex(i, size), size) == i
  {
    var x, y, z := size.x, size.y, size.z;
    var q := i / x;
    assert Volume(size) == x * (y * z);
    QuotientBound(i, x, y * z);
    QuotientBound(q, y, z);
    var p := FromIndex(i, size);
    assert p == Int3(i % x, q % y, q / y);
    assert q % y + y * (q / y) == q;
    assert i % x + x * q == i;
  }

  lemma To1DIndexInjective(p: Int3, q: Int3, size: Int3)
    requires ValidSize(size) && BoundaryCheck(p, size) && BoundaryCheck(q, size)
    ensures To1DIndex(p, size) == To1DIndex(q, size) <==> p == q
  {
    FromIndexTo1DIndex(p, size);
    FromIndexTo1DIndex(q, size);
  }

  /** `VoxelUtil.VoxelDirectionOffset(d)`: the outward unit normal of direction d. */
  function VoxelDirectionOffset(d: Direction): Int3 {
    match d
    case 0 => Int3(1, 0, 0) case 1 => Int3(-1, 0, 0)
    case 2 => Int3(0, 1, 0) case 3 => Int3(0, -1, 0)
    case 4 => Int3(0, 0, 1) case _ => Int3(0, 0, -1)
  }

  /** `VoxelUtil.DirectionAlignedX[d]`: the in-plane width axis of direction d's sweep. */
  function AlignedX(d: Direction): Axis {
    if d < 2 then 1 else if d < 4 then 2 else 0
  }

  /** `VoxelUtil.DirectionAlignedY[d]`: the in-plane height axis of direction d's sweep. */
  function AlignedY(d: Direction): Axis {
    if d < 2 then 2 else if d < 4 then 0 else 1
  }

  /** `VoxelUtil.DirectionAlignedZ[d]`: the depth axis (the face normal's axis) of direction d's sweep. */
  function AlignedZ(d: Direction): Axis {
    if d < 2 then 0 else if d < 4 then 1 else 2
  }

  /** The assumption the sweep relies on, stated for the stand-in tables. */
  lemma AlignedAxesArePermutation(d: Direction)
    ensures AlignedX(d) != AlignedY(d) && AlignedY(d) != AlignedZ(d) && AlignedX(d) != AlignedZ(d)
    ensures VoxelDirectionOffset(d).Get(AlignedX(d)) == 0
    ensures VoxelDirectionOffset(d).Get(AlignedY(d)) == 0
    ensures VoxelDirectionOffset(d).Get(AlignedZ(d)) in {-1, 1}
  {
  }

  /**
   * `new int3 { [AlignedX] = u, [AlignedY] = v, [AlignedZ] = depth }`: the grid
   * position at in-plane coordinates (u, v) of the given depth slice.
   */
  function PlanePosition(d: Direction, u: int, v: int, depth: int): (p: Int3)
    ensures p.Get(AlignedX(d)) == u && p.Get(AlignedY(d)) == v && p.Get(AlignedZ(d)) == depth
  {
    AlignedAxesArePermutation(d);
    Int3(0, 0, 0).Set(AlignedX(d), u).Set(AlignedY(d), v).Set(AlignedZ(d), depth)
  }

  /** Every position is the plane position of its own aligned components. */
  lemma PlanePositionOf(d: Direction, p: Int3)
    ensures p == PlanePosition(d, p.Get(AlignedX(d)), p.Get(AlignedY(d)), p.Get(AlignedZ(d)))
  {
  }

  /** Two vectors that agree on every axis are equal. */
  lemma Int3Ext(p: Int3, q: Int3)
    requires p.Get(0) == q.Get(0) && p.Get(1) == q.Get(1) && p.Get(2) == q.Get(2)
    ensures p == q
  {
  }

  /**
   * `nextPosition[AlignedY] += k` on a plane position moves it k cells along
   * the slice's height axis, `nextPosition[AlignedX] += k` along its width axis.
   */
  lemma PlanePositionShift(d: Direction, u: int, v: int, depth: int, k: int)
    ensures var p := PlanePosition(d, u, v, depth);
      p.Set(AlignedY(d), p.Get(AlignedY(d)) + k) == PlanePosition(d, u, v + k, depth)
    ensures var p := PlanePosition(d, u, v, depth);
      p.Set(AlignedX(d), p.Get(AlignedX(d)) + k) == PlanePosition(d, u + k, v, depth)
  {
    AlignedAxesArePermutation(d);
    var p := PlanePosition(d, u, v, depth);
    Int3Ext(p.Set(AlignedY(d), v + k), PlanePosition(d, u, v + k, depth));
    Int3Ext(p.Set(AlignedX(d), u + k), PlanePosition(d, u + k, v, depth));
  }

  /** Sweep extents of a direction: width, height and depth of its slices. */
  function SliceWidth(size: Int3, d: Direction): int { size.Get(AlignedX(d)) }
  function SliceHeight(size: Int3, d: Direction): int { size.Get(AlignedY(d)) }
  function SliceDepth(size: Int3, d: Direction): int { size.Get(AlignedZ(d)) }

  /** A plane position inside the sweep extents is inside the chunk. */
  lemma PlanePositionInBounds(size: Int3, d: Direction, u: int, v: int, depth: int)
    requires 0 <= u < SliceWidth(size, d) && 0 <= v < SliceHeight(size, d) && 0 <= depth < SliceDepth(size, d)
    ensures BoundaryCheck(PlanePosition(d, u, v, depth), size)
  {
  }

  /** The sweep extents of a direction multiply to the chunk volume. */
  lemma SliceExtentsVolume(size: Int3, d: Direction)
    ensures SliceWidth(size, d) * SliceHeight(size, d) * SliceDepth(size, d) == Volume(size)
  {
  }

  /** `VoxelUtil.CubeVertices[c]`: corner c of the unit cube. */
  function CubeVertex(c: nat): Int3
    requires c < 8
  {
    match c
    case 0 => Int3(0, 0, 0) case 1 => Int3(1, 0, 0) case 2 => Int3(1, 1, 0) case 3 => Int3(0, 1, 0)
    case 4 => Int3(0, 0, 1) case 5 => Int3(1, 0, 1) case 6 => Int3(1, 1, 1) case _ => Int3(0, 1, 1)
  }

  /** `VoxelUtil.CubeFaces[k]`: corner number k mod 4 of the face of direction k / 4. */
  function CubeFace(k: nat): (c: nat)
    requires k < 24
    ensures c < 8
  {
    match k
    case 0 => 1  case 1 => 2  case 2 => 6  case 3 => 5
    case 4 => 4  case 5 => 7  case 6 => 3  case 7 => 0
    case 8 => 3  case 9 => 7  case 10 => 6 case 11 => 2
    case 12 => 0 case 13 => 1 case 14 => 5 case 15 => 4
    case 16 => 4 case 17 => 5 case 18 => 6 case 19 => 7
    case 20 => 1 case 21 => 0 case 22 => 3 case _ => 2
  }

  /** `VoxelUtil.CubeUVs[i]`: texture corner i of a face. */
  function CubeUV(i: nat): (int, int)
    requires i < 4
  {
    match i
    case 0 => (0, 0) case 1 => (1, 0) case 2 => (1, 1) case _ => (0, 1)
  }

  /** The two triangles over a face's four corners, as corner numbers 0..3. */
  const FaceTriangles: seq<nat> := [0, 1, 2, 0, 2, 3]

  /** `VoxelUtil.CubeIndices`: six triangle-corner numbers per direction. */
  const CubeIndices: seq<int> :=
    [0, 1, 2, 0, 2, 3,  0, 1, 2, 0, 2, 3,  0, 1, 2, 0, 2, 3,
     0, 1, 2, 0, 2, 3,  0, 1, 2, 0, 2, 3,  0, 1, 2, 0, 2, 3]

  /** Every direction's row of CubeIndices is the same pair of triangles. */
  lemma CubeIndicesRow(d: Direction, i: nat)
    requires i < 6
    ensures CubeIndices[d * 6 + i] == FaceTriangles[i]
  {
  }
}
