/**
 * The generation queue of the terrain generator, as values: entries of a
 * chunk coordinate and a priority, the squared distance to the target's chunk.
 * When the target crosses into a new chunk, the pass over the queue keeps the
 * entries inside the spawn box with their priorities recomputed, and the box
 * around the target is then enqueued cell by cell (x outermost, z innermost),
 * skipping resident chunks but not coordinates already queued. The drain
 * removes minimum-priority entries one at a time.
 *
 * The queue's heap is abstracted as a sequence; remove-min takes the first
 * entry of least priority.
 */
module StreamingQueue {
  import opened VoxelUtil

  /** `ChunkNode` with its queue priority. */
  datatype ChunkNode = ChunkNode(chunkPosition: Int3, priority: int)

  function Abs(a: int): nat {
    if a < 0 then -a else a
  }

  /**
   * The spawn box around the target: within `sx` chunks on x and z and within
   * `sy` chunks on y.
   */
  predicate InSpawnBox(target: Int3, sx: int, sy: int, p: Int3) {
    Abs(target.x - p.x) <= sx && Abs(target.y - p.y) <= sy && Abs(target.z - p.z) <= sx
  }

  lemma InSpawnBoxIff(target: Int3, sx: int, sy: int, p: Int3)
    ensures InSpawnBox(target, sx, sy, p) <==>
              && target.x - sx <= p.x <= target.x + sx
              && target.y - sy <= p.y <= target.y + sy
              && target.z - sx <= p.z <= target.z + sx
  {
  }

  /** The squared distance from the target, `(target - p).sqrMagnitude`. */
  function Priority(target: Int3, p: Int3): int {
    target.Minus(p).SqrMagnitude()
  }

  // ---------------------------------------------------------------------------
  // Re-prioritisation pass

  /** What the pass keeps of one entry. */
  function Reprioritise(target: Int3, sx: int, sy: int, node: ChunkNode): seq<ChunkNode> {
    if sx < Abs(target.x - node.chunkPosition.x) || sy < Abs(target.y - node.chunkPosition.y)
       || sx < Abs(target.z - node.chunkPosition.z)
    then []
    else [node.(priority := Priority(target, node.chunkPosition))]
  }

  /** The pass over the first |queue| entries, in queue order. */
  function Reprioritised(queue: seq<ChunkNode>, target: Int3, sx: int, sy: int): seq<ChunkNode> {
    if |queue| == 0 then []
    else Reprioritised(queue[..|queue| - 1], target, sx, sy) + Reprioritise(target, sx, sy, queue[|queue| - 1])
  }

  /** The queue holds an entry for coordinate p. */
  predicate Queued(queue: seq<ChunkNode>, p: Int3) {
    exists i :: 0 <= i < |queue| && queue[i].chunkPosition == p
  }

  /**
   * After the pass, an entry is queued exactly when its coordinate was queued
   * and lies in the spawn box, and its priority is the squared distance.
   */
  lemma {:induction false} ReprioritisedMembers(queue: seq<ChunkNode>, target: Int3, sx: int, sy: int, n: ChunkNode)
    ensures n in Reprioritised(queue, target, sx, sy) <==>
              && Queued(queue, n.chunkPosition)
              && InSpawnBox(target, sx, sy, n.chunkPosition)
              && n.priority == Priority(target, n.chunkPosition)
  {
    if |queue| > 0 {
      var init, last := queue[..|queue| - 1], queue[|queue| - 1];
      ReprioritisedMembers(init, target, sx, sy, n);
      if Queued(queue, n.chunkPosition) && n.chunkPosition != last.chunkPosition {
        var i :| 0 <= i < |queue| && queue[i].chunkPosition == n.chunkPosition;
        assert init[i].chunkPosition == n.chunkPosition;
      }
      if Queued(init, n.chunkPosition) {
        var i :| 0 <= i < |init| && init[i].chunkPosition == n.chunkPosition;
        assert queue[i].chunkPosition == n.chunkPosition;
      }
    }
  }

  // ---------------------------------------------------------------------------
  // Enqueueing the spawn box

  /** What the box loop enqueues for coordinate p: nothing for a resident chunk. */
  function NodeAt(resident: set<Int3>, target: Int3, p: Int3): seq<ChunkNode> {
    if p in resident then [] else [ChunkNode(p, Priority(target, p))]
  }

  /** The z loop at (x, y), for z in [target.z - sx, z). */
  function ColumnNodes(resident: set<Int3>, target: Int3, sx: int, x: int, y: int, z: int): seq<ChunkNode>
    decreases z - (target.z - sx)
  {
    if z <= target.z - sx then []
    else ColumnNodes(resident, target, sx, x, y, z - 1) + NodeAt(resident, target, Int3(x, y, z - 1))
  }

  /** The y loop at x, for y in [target.y - sy, y). */
  function PlaneNodes(resident: set<Int3>, target: Int3, sx: int, sy: int, x: int, y: int): seq<ChunkNode>
    decreases y - (target.y - sy)
  {
    if y <= target.y - sy then []
    else PlaneNodes(resident, target, sx, sy, x, y - 1) + ColumnNodes(resident, target, sx, x, y - 1, target.z + sx + 1)
  }

  /** The x loop, for x in [target.x - sx, x). */
  function BoxNodes(resident: set<Int3>, target: Int3, sx: int, sy: int, x: int): seq<ChunkNode>
    decreases x - (target.x - sx)
  {
    if x <= target.x - sx then []
    else BoxNodes(resident, target, sx, sy, x - 1) + PlaneNodes(resident, target, sx, sy, x - 1, target.y + sy + 1)
  }

  /** Everything one target change enqueues. */
  function SpawnBoxNodes(resident: set<Int3>, target: Int3, sx: int, sy: int): seq<ChunkNode> {
    BoxNodes(resident, target, sx, sy, target.x + sx + 1)
  }

  lemma {:induction false} ColumnNodesMembers(resident: set<Int3>, target: Int3, sx: int, x: int, y: int, z: int, n: ChunkNode)
    ensures n in ColumnNodes(resident, target, sx, x, y, z) <==>
              && n.chunkPosition.x == x && n.chunkPosition.y == y
              && target.z - sx <= n.chunkPosition.z < z
              && n.chunkPosition !in resident && n.priority == Priority(target, n.chunkPosition)
    decreases z - (target.z - sx)
  {
    if z > target.z - sx {
      ColumnNodesMembers(resident, target, sx, x, y, z - 1, n);
    }
  }

  lemma {:induction false} PlaneNodesMembers(resident: set<Int3>, target: Int3, sx: int, sy: int, x: int, y: int, n: ChunkNode)
    ensures n in PlaneNodes(resident, target, sx, sy, x, y) <==>
              && n.chunkPosition.x == x
              && target.y - sy <= n.chunkPosition.y < y
              && target.z - sx <= n.chunkPosition.z <= target.z + sx
              && n.chunkPosition !in resident && n.priority == Priority(target, n.chunkPosition)
    decreases y - (target.y - sy)
  {
    if y > target.y - sy {
      PlaneNodesMembers(resident, target, sx, sy, x, y - 1, n);
      ColumnNodesMembers(resident, target, sx, x, y - 1, target.z + sx + 1, n);
    }
  }

  lemma {:induction false} BoxNodesMembers(resident: set<Int3>, target: Int3, sx: int, sy: int, x: int, n: ChunkNode)
    ensures n in BoxNodes(resident, target, sx, sy, x) <==>
              && target.x - sx <= n.chunkPosition.x < x
              && target.y - sy <= n.chunkPosition.y <= target.y + sy
              && target.z - sx <= n.chunkPosition.z <= target.z + sx
              && n.chunkPosition !in resident && n.priority == Priority(target, n.chunkPosition)
    decreases x - (target.x - sx)
  {
    if x > target.x - sx {
      BoxNodesMembers(resident, target, sx, sy, x - 1, n);
      PlaneNodesMembers(resident, target, sx, sy, x - 1, target.y + sy + 1, n);
    }
  }

  /**
   * The box loop enqueues exactly the non-resident coordinates of the spawn
   * box, each with its squared distance: the same box the pass keeps.
   */
  lemma SpawnBoxNodesMembers(resident: set<Int3>, target: Int3, sx: int, sy: int, n: ChunkNode)
    ensures n in SpawnBoxNodes(resident, target, sx, sy) <==>
              && InSpawnBox(target, sx, sy, n.chunkPosition)
              && n.chunkPosition !in resident && n.priority == Priority(target, n.chunkPosition)
  {
    var box := BoxNodes(resident, target, sx, sy, target.x + sx + 1);
    assert SpawnBoxNodes(resident, target, sx, sy) == box;
    BoxNodesMembers(resident, target, sx, sy, target.x + sx + 1, n);
    InSpawnBoxIff(target, sx, sy, n.chunkPosition);
  }

  /**
   * The queue after a target change, re-prioritised entries first and new
   * ones after: every entry lies in the spawn box and carries its squared
   * distance.
   */
  lemma RetargetedQueueInBox(queue: seq<ChunkNode>, resident: set<Int3>, target: Int3, sx: int, sy: int, n: ChunkNode)
    requires n in Reprioritised(queue, target, sx, sy) + SpawnBoxNodes(resident, target, sx, sy)
    ensures InSpawnBox(target, sx, sy, n.chunkPosition) && n.priority == Priority(target, n.chunkPosition)
  {
    ReprioritisedMembers(queue, target, sx, sy, n);
    SpawnBoxNodesMembers(resident, target, sx, sy, n);
  }

  /**
   * Enqueueing does not deduplicate: a non-resident coordinate of the box that
   * was already queued ends up queued twice, with equal priorities.
   */
  lemma EnqueueDuplicates(queue: seq<ChunkNode>, resident: set<Int3>, target: Int3, sx: int, sy: int, p: Int3)
    requires Queued(queue, p) && InSpawnBox(target, sx, sy, p) && p !in resident
    ensures multiset(Reprioritised(queue, target, sx, sy) + SpawnBoxNodes(resident, target, sx, sy))[ChunkNode(p, Priority(target, p))] >= 2
  {
    var n := ChunkNode(p, Priority(target, p));
    var kept, added := Reprioritised(queue, target, sx, sy), SpawnBoxNodes(resident, target, sx, sy);
    ReprioritisedMembers(queue, target, sx, sy, n);
    SpawnBoxNodesMembers(resident, target, sx, sy, n);
    assert multiset(kept + added) == multiset(kept) + multiset(added);
  }

  // ---------------------------------------------------------------------------
  // Remove-min and the drain

  /** The first entry of least priority. */
  function MinIndex(queue: seq<ChunkNode>): (i: nat)
    requires |queue| > 0
    ensures i < |queue|
    ensures forall j :: 0 <= j < |queue| ==> queue[i].priority <= queue[j].priority
    ensures forall j :: 0 <= j < i ==> queue[i].priority < queue[j].priority
  {
    if |queue| == 1 then 0
    else
      var m := MinIndex(queue[..|queue| - 1]);
      if queue[|queue| - 1].priority < queue[m].priority then |queue| - 1 else m
  }

  function RemoveAt(queue: seq<ChunkNode>, i: nat): seq<ChunkNode>
    requires i < |queue|
  {
    queue[..i] + queue[i + 1..]
  }

  lemma RemoveAtMultiset(queue: seq<ChunkNode>, i: nat)
    requires i < |queue|
    ensures multiset(RemoveAt(queue, i)) + multiset{queue[i]} == multiset(queue)
  {
    assert queue == queue[..i] + [queue[i]] + queue[i + 1..];
  }

  /** k successive remove-min steps: the entries taken, in order, and what is left. */
  function Drain(queue: seq<ChunkNode>, k: nat): (r: (seq<ChunkNode>, seq<ChunkNode>))
    requires k <= |queue|
    ensures |r.0| == k && |r.1| == |queue| - k
  {
    if k == 0 then ([], queue)
    else
      var prev := Drain(queue, k - 1);
      var i := MinIndex(prev.1);
      (prev.0 + [prev.1[i]], RemoveAt(prev.1, i))
  }

  /** How many entries one drain call takes: at most the cap, at most the queue. */
  function DrainCount(cap: int, length: nat): (k: nat)
    ensures k <= length && (cap <= 0 ==> k == 0) && (0 < cap ==> k == if cap < length then cap else length)
  {
    if cap <= 0 then 0 else if cap < length then cap else length
  }

  /** One remove-min step moves an entry from what is left to what is taken. */
  lemma DrainStepMoves(queue: seq<ChunkNode>, k: nat)
    requires 0 < k <= |queue|
    ensures multiset(Drain(queue, k).0) + multiset(Drain(queue, k).1)
            == multiset(Drain(queue, k - 1).0) + multiset(Drain(queue, k - 1).1)
  {
    var taken, rest := Drain(queue, k - 1).0, Drain(queue, k - 1).1;
    var m := MinIndex(rest);
    assert Drain(queue, k) == (taken + [rest[m]], RemoveAt(rest, m));
    RemoveAtMultiset(rest, m);
    var a, e, r := multiset(taken), multiset{rest[m]}, multiset(RemoveAt(rest, m));
    assert multiset(taken + [rest[m]]) == a + e;
    assert (a + e) + r == a + (r + e);
  }

  /** The drain only moves entries: taken and left over are the queue again. */
  lemma {:induction false} DrainIsPermutation(queue: seq<ChunkNode>, k: nat)
    requires k <= |queue|
    ensures multiset(Drain(queue, k).0) + multiset(Drain(queue, k).1) == multiset(queue)
  {
    if k == 0 {
      assert Drain(queue, k).0 == [] && Drain(queue, k).1 == queue;
      assert multiset(Drain(queue, k).0) == multiset{};
    } else {
      DrainIsPermutation(queue, k - 1);
      DrainStepMoves(queue, k);
    }
  }

  /**
   * One remove-min step takes an entry of the queue left so far whose
   * priority no entry there undercuts, and leaves the others.
   */
  lemma DrainStepTakesMin(queue: seq<ChunkNode>, k: nat)
    requires 0 < k <= |queue|
    ensures Drain(queue, k).0 == Drain(queue, k - 1).0 + [Drain(queue, k).0[k - 1]]
    ensures Drain(queue, k).0[k - 1] in Drain(queue, k - 1).1
    ensures forall n :: n in Drain(queue, k - 1).1 ==> Drain(queue, k).0[k - 1].priority <= n.priority
    ensures forall n :: n in Drain(queue, k).1 ==> n in Drain(queue, k - 1).1
  {
    var taken, rest := Drain(queue, k - 1).0, Drain(queue, k - 1).1;
    var m := MinIndex(rest);
    assert Drain(queue, k) == (taken + [rest[m]], RemoveAt(rest, m));
    RemoveAtMultiset(rest, m);
    forall n | n in RemoveAt(rest, m)
      ensures n in rest
    {
      assert n in multiset(RemoveAt(rest, m));
    }
  }

  /**
   * Lowest priority first: the entries taken come in non-decreasing priority,
   * and none has a greater priority than any entry left in the queue.
   */
  lemma {:induction false} DrainTakesLowestFirst(queue: seq<ChunkNode>, k: nat)
    requires k <= |queue|
    ensures forall i, j :: 0 <= i < j < k ==> Drain(queue, k).0[i].priority <= Drain(queue, k).0[j].priority
    ensures forall i, n :: 0 <= i < k && n in Drain(queue, k).1 ==> Drain(queue, k).0[i].priority <= n.priority
  {
    if k > 0 {
      DrainTakesLowestFirst(queue, k - 1);
      DrainStepTakesMin(queue, k);
      var before, after := Drain(queue, k - 1).0, Drain(queue, k).0;
      assert forall i :: 0 <= i < k - 1 ==> after[i] == before[i];
    }
  }
}
