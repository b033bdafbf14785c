// The frustum-culling sample: every update culls the scene's nodes against
// the main camera and an observer camera into two node queues, every draw
// renders the queues (emptying them) and optionally the nodes' bounding boxes
// in instanced batches, and the camera uniform blocks rotate through three
// frame slots of two cameras each.

module CullingFrustum {
  import opened GLTypes
  import opened Memory
  import S = Scene
  import F = Frustum
  import SeqUtil

  /** Frame slots of the uniform buffers, and cameras per slot. */
  const NrUniformBuffers: nat := 3
  const NrCameras: nat := 2
  /** Six 4x4 float matrices and three vec4 light terms. */
  const UniformBlockSize: nat := 6 * 64 + 3 * 16
  /** sizeof(glm::mat4). */
  const Mat4Size: nat := 64
  const MaxInstanceBatch: nat := 512

  // ---------------------------------------------------------------- queues

  /** A FIFO queue of scene nodes (std::queue), shared by reference. */
  class NodeQueue {
    var items: seq<S.Node>

    constructor (initial: seq<S.Node>)
      ensures items == initial
    {
      items := initial;
    }

    predicate Empty()
      reads this
      ensures Empty() <==> items == []
    {
      items == []
    }

    function Front(): (n: S.Node)
      requires items != []
      reads this
      ensures n == items[0]
    {
      items[0]
    }

    method Push(n: S.Node)
      modifies this
      ensures items == old(items) + [n]
    {
      items := items + [n];
    }

    method Pop()
      requires items != []
      modifies this
      ensures items == old(items)[1..]
    {
      items := items[1..];
    }

    /** Assignment from another queue: a copy of its contents. */
    method Assign(other: NodeQueue)
      modifies this
      ensures items == old(other.items)
    {
      items := other.items;
    }
  }

  /**
   * SceneFrustum::render(queue): renders the front node and pops it until
   * the queue is empty, so the nodes are drawn in FIFO order with
   * consecutive node counters.
   */
  method RenderQueue(scene: S.Scene, queue: NodeQueue) returns (draws: seq<S.DrawCall>)
    requires scene.Valid() && S.AllDrawable(scene.Loaded(), queue.items)
    modifies scene`currentNodeIndex, queue
    ensures queue.items == []
    ensures draws == S.DrawsFrom(scene.Loaded(), old(queue.items), old(scene.currentNodeIndex))
    ensures scene.currentNodeIndex == old(scene.currentNodeIndex) + |old(queue.items)|
  {
    ghost var q := queue.items;
    ghost var start := scene.currentNodeIndex;
    draws := [];
    ghost var k := 0;
    while !queue.Empty()
      invariant 0 <= k <= |q| && queue.items == q[k..]
      invariant scene.Valid() && scene.Loaded() == old(scene.Loaded()) && S.AllDrawable(scene.Loaded(), q)
      invariant scene.currentNodeIndex == start + k
      invariant draws == S.QueueDraws(scene.Loaded(), q, start, k)
      decreases |queue.items|
    {
      draws := RenderFront(scene, queue, q, start, k, draws);
      k := k + 1;
    }
    assert k == |q|;
  }

  /** One iteration of render(queue): the front node is rendered and popped. */
  method RenderFront(scene: S.Scene, queue: NodeQueue, ghost q: seq<S.Node>, ghost start: nat, ghost k: nat,
                     draws: seq<S.DrawCall>) returns (after: seq<S.DrawCall>)
    requires scene.Valid() && S.AllDrawable(scene.Loaded(), q)
    requires k < |q| && queue.items == q[k..] && scene.currentNodeIndex == start + k
    requires draws == S.QueueDraws(scene.Loaded(), q, start, k)
    modifies scene`currentNodeIndex, queue
    ensures scene.Valid() && scene.Loaded() == old(scene.Loaded())
    ensures queue.items == q[k + 1..] && scene.currentNodeIndex == start + k + 1
    ensures after == S.QueueDraws(scene.Loaded(), q, start, k + 1)
  {
    var node := queue.Front();
    assert node == q[k];
    var rebind, nodeDraws := scene.RenderNode(node);
    after := draws + nodeDraws;
    queue.Pop();
    assert q[k..][1..] == q[k + 1..];
  }

  // --------------------------------------------------------------- culling

  /** The sample's culling switches. */
  datatype CullSettings = CullSettings(useFrustumCulling: bool, useSphereCulling: bool)

  /**
   * The foreign geometry: a node's world-space box (its bounds moved by its
   * transform), the sphere around a box, and the per-plane rejection tests.
   */
  datatype Geometry<!P, !V> = Geometry(
    worldBound: S.Node -> F.Aabb<V>,
    sphereOf: F.Aabb<V> -> F.BoundingSphere<V>,
    rejectsAabb: (P, F.Aabb<V>) -> bool,
    rejectsSphere: (P, F.BoundingSphere<V>) -> bool)

  /** The camera keeps a node: culling is off, or the selected test reports it inside. */
  predicate Visible<P, V>(s: CullSettings, f: F.Frustum<P>, g: Geometry<P, V>, n: S.Node)
    requires F.Valid(f)
  {
    var aabb := g.worldBound(n);
    var inside :=
      if s.useSphereCulling then F.Classify(f, g.sphereOf(aabb), g.rejectsSphere) == F.In
      else F.Classify(f, aabb, g.rejectsAabb) == F.In;
    inside || !s.useFrustumCulling
  }

  /** c copies of x. */
  function Copies<T>(x: T, c: nat): (r: seq<T>)
    ensures |r| == c && forall k :: 0 <= k < c ==> r[k] == x
  {
    seq(c, _ => x)
  }

  /** The queue after culling the first k nodes: a kept node is pushed once per geometry. */
  function CullQueue<P, V>(nodes: seq<S.Node>, k: nat, s: CullSettings, f: F.Frustum<P>, g: Geometry<P, V>)
    : seq<S.Node>
    requires k <= |nodes| && F.Valid(f)
  {
    if k == 0 then []
    else
      var n := nodes[k - 1];
      CullQueue(nodes, k - 1, s, f, g) + Copies(n, if Visible(s, f, g, n) then |n.geometryObjectIndex| else 0)
  }

  /** The geometry count of every node, in order. */
  function GeometryCounts(nodes: seq<S.Node>): (r: seq<nat>)
    ensures |r| == |nodes| && forall i :: 0 <= i < |nodes| ==> r[i] == |nodes[i].geometryObjectIndex|
  {
    seq(|nodes|, i requires 0 <= i < |nodes| => |nodes[i].geometryObjectIndex|)
  }

  /** Every node once per geometry, in node order. */
  function PerGeometry(nodes: seq<S.Node>): seq<S.Node>
  {
    if nodes == [] then []
    else
      var n := |nodes| - 1;
      PerGeometry(nodes[..n]) + Copies(nodes[n], |nodes[n].geometryObjectIndex|)
  }

  /**
   * With culling off, the queue is every node repeated once per geometry, in
   * node order: there is no early exit from the geometry loop.
   */
  lemma {:induction false} CullingOffKeepsCopies<P, V>(nodes: seq<S.Node>, k: nat, s: CullSettings,
                                                      f: F.Frustum<P>, g: Geometry<P, V>)
    requires k <= |nodes| && F.Valid(f) && !s.useFrustumCulling
    ensures CullQueue(nodes, k, s, f, g) == PerGeometry(nodes[..k])
    ensures |CullQueue(nodes, k, s, f, g)| == Sum(GeometryCounts(nodes[..k]))
  {
    if k > 0 {
      CullingOffKeepsCopies(nodes, k - 1, s, f, g);
      assert nodes[..k][..k - 1] == nodes[..k - 1];
      assert GeometryCounts(nodes[..k])[..k - 1] == GeometryCounts(nodes[..k - 1]);
    }
  }

  /** A node is in the queue exactly when it is kept and has a geometry. */
  lemma {:induction false} CullQueueMembers<P, V>(nodes: seq<S.Node>, k: nat, s: CullSettings,
                                                 f: F.Frustum<P>, g: Geometry<P, V>, n: S.Node)
    requires k <= |nodes| && F.Valid(f)
    ensures n in CullQueue(nodes, k, s, f, g) <==>
      n in nodes[..k] && Visible(s, f, g, n) && |n.geometryObjectIndex| > 0
  {
    if k > 0 {
      CullQueueMembers(nodes, k - 1, s, f, g, n);
      var m := nodes[k - 1];
      var c := if Visible(s, f, g, m) then |m.geometryObjectIndex| else 0;
      assert CullQueue(nodes, k, s, f, g) == CullQueue(nodes, k - 1, s, f, g) + Copies(m, c);
      assert n in Copies(m, c) <==> c > 0 && n == m by {
        if c > 0 && n == m {
          assert Copies(m, c)[0] == n;
        }
      }
      assert nodes[..k] == nodes[..k - 1] + [m];
    }
  }

  /** One geometry of one node against one camera: the test update's loop runs. */
  method TestNode<P, V>(s: CullSettings, f: F.Frustum<P>, g: Geometry<P, V>, n: S.Node) returns (push: bool)
    requires F.Valid(f)
    ensures push == Visible(s, f, g, n)
  {
    var aabb := g.worldBound(n);
    var r;
    if s.useSphereCulling {
      r := F.IntersectionSphere(f, g.sphereOf(aabb), g.rejectsSphere);
      assert r == F.Classify(f, g.sphereOf(aabb), g.rejectsSphere);
    } else {
      r := F.IntersectionAabb(f, aabb, g.rejectsAabb);
    }
    push := r == F.In || !s.useFrustumCulling;
  }

  /** The geometry loop of one node: it is pushed to each camera's queue once per geometry when kept. */
  method CullNode<P, V>(node: S.Node, s: CullSettings, mainFrustum: F.Frustum<P>, observerFrustum: F.Frustum<P>,
                        g: Geometry<P, V>, mainQueue: NodeQueue, secondQueue: NodeQueue)
    requires F.Valid(mainFrustum) && F.Valid(observerFrustum) && mainQueue != secondQueue
    modifies mainQueue, secondQueue
    ensures mainQueue.items
         == old(mainQueue.items) + Copies(node, if Visible(s, mainFrustum, g, node) then |node.geometryObjectIndex| else 0)
    ensures secondQueue.items
         == old(secondQueue.items) + Copies(node, if Visible(s, observerFrustum, g, node) then |node.geometryObjectIndex| else 0)
  {
    var i := 0;
    while i < |node.geometryObjectIndex|
      invariant 0 <= i <= |node.geometryObjectIndex|
      invariant mainQueue.items == old(mainQueue.items) + Copies(node, if Visible(s, mainFrustum, g, node) then i else 0)
      invariant secondQueue.items
             == old(secondQueue.items) + Copies(node, if Visible(s, observerFrustum, g, node) then i else 0)
    {
      var inMain := TestNode(s, mainFrustum, g, node);
      if inMain {
        mainQueue.Push(node);
      }
      var inSecond := TestNode(s, observerFrustum, g, node);
      if inSecond {
        secondQueue.Push(node);
      }
      i := i + 1;
    }
  }

  /**
   * The culling loop of update: both queues are cleared, then every
   * geometry of every node tests the node against each camera and pushes it
   * to that camera's queue when it is kept.
   */
  method Cull<P, V>(nodes: seq<S.Node>, s: CullSettings, mainFrustum: F.Frustum<P>, observerFrustum: F.Frustum<P>,
                    g: Geometry<P, V>, mainQueue: NodeQueue, secondQueue: NodeQueue)
    requires F.Valid(mainFrustum) && F.Valid(observerFrustum) && mainQueue != secondQueue
    modifies mainQueue, secondQueue
    ensures mainQueue.items == CullQueue(nodes, |nodes|, s, mainFrustum, g)
    ensures secondQueue.items == CullQueue(nodes, |nodes|, s, observerFrustum, g)
  {
    mainQueue.items := [];
    secondQueue.items := [];
    var x := 0;
    while x < |nodes|
      invariant 0 <= x <= |nodes|
      invariant mainQueue.items == CullQueue(nodes, x, s, mainFrustum, g)
      invariant secondQueue.items == CullQueue(nodes, x, s, observerFrustum, g)
    {
      CullNode(nodes[x], s, mainFrustum, observerFrustum, g, mainQueue, secondQueue);
      x := x + 1;
    }
  }

  // ------------------------------------------------- uniform buffer layout

  /** instanceBatch: as many matrices as the largest uniform block holds, at most 512. */
  function InstanceBatch(uniformMaxSize: nat): (r: nat)
    ensures r <= MaxInstanceBatch && r * Mat4Size <= uniformMaxSize
    ensures r == MaxInstanceBatch || uniformMaxSize < (r + 1) * Mat4Size
  {
    Min(uniformMaxSize / Mat4Size, MaxInstanceBatch)
  }

  /** Bytes of the uniform buffer: NrUniformBuffers slots of NrCameras blocks each. */
  function BufferSize(alignSize: nat): nat
  {
    6 * alignSize
  }

  /** Where uniform slot `slot` starts: every earlier slot holds one block per camera. */
  function SlotOffset(slot: nat, alignSize: nat): nat
  {
    if slot == 0 then 0 else SlotOffset(slot - 1, alignSize) + 2 * alignSize
  }

  /** The main camera's block of frame slot frame % 3. */
  function MainCameraOffset(frame: nat, alignSize: nat): nat
  {
    SlotOffset(frame % NrUniformBuffers, alignSize)
  }

  /** The observer camera's block follows the main camera's in the same slot. */
  function ObserverCameraOffset(frame: nat, alignSize: nat): nat
  {
    MainCameraOffset(frame, alignSize) + alignSize
  }

  /** Each of the three slots ends inside the 3 x 2 block buffer. */
  lemma SlotBlock(s: nat, alignSize: nat)
    requires s < NrUniformBuffers
    ensures SlotOffset(s, alignSize) + 2 * alignSize <= BufferSize(alignSize)
  {
    if s == 2 {
      assert SlotOffset(1, alignSize) == 2 * alignSize;
    }
  }

  /** A later slot starts after the whole of an earlier one. */
  lemma {:induction false} SlotsApart(i: nat, j: nat, alignSize: nat)
    requires i < j
    ensures SlotOffset(i, alignSize) + 2 * alignSize <= SlotOffset(j, alignSize)
  {
    if i < j - 1 {
      SlotsApart(i, j - 1, alignSize);
    }
  }

  /**
   * update maps the two blocks of the next frame slot; both lie inside the
   * buffer, sized as the class allocates it.
   */
  function WriteOffset(frame: nat, alignSize: nat): (r: nat)
    ensures r + 2 * alignSize <= BufferSize(alignSize)
  {
    SlotBlock((frame + 1) % NrUniformBuffers, alignSize);
    SlotOffset((frame + 1) % NrUniformBuffers, alignSize)
  }

  /** A buffer with the main camera's block copied in at at and the observer's one aligned block later. */
  function CameraBlocksWritten(buffer: seq<bv8>, at: nat, alignSize: nat, mainBlock: seq<bv8>, observerBlock: seq<bv8>)
    : seq<bv8>
    requires at + 2 * alignSize <= |buffer| && |mainBlock| <= alignSize && |observerBlock| <= alignSize
  {
    Overwrite(Overwrite(buffer, at, mainBlock), at + alignSize, observerBlock)
  }

  /** The uniform half of update: the two camera blocks go side by side from offset at. */
  method WriteCameraBlocks(buffer: array<bv8>, at: nat, alignSize: nat, mainBlock: seq<bv8>, observerBlock: seq<bv8>)
    requires at + 2 * alignSize <= buffer.Length
    requires |mainBlock| <= alignSize && |observerBlock| <= alignSize
    modifies buffer
    ensures buffer[..] == CameraBlocksWritten(old(buffer[..]), at, alignSize, mainBlock, observerBlock)
  {
    ghost var before := buffer[..];
    Memcpy(buffer, at, mainBlock);
    ghost var between := buffer[..];
    assert between == Overwrite(before, at, mainBlock);
    Memcpy(buffer, at + alignSize, observerBlock);
    assert buffer[..] == Overwrite(between, at + alignSize, observerBlock);
  }

  /**
   * The blocks a frame reads and the blocks update writes for the next frame
   * are two different slots of the 3 x 2 block buffer; the next frame reads
   * exactly the blocks written, main camera first.
   */
  lemma CameraSlots(frame: nat, alignSize: nat)
    requires alignSize > 0
    ensures ObserverCameraOffset(frame, alignSize) + alignSize <= BufferSize(alignSize)
    ensures WriteOffset(frame, alignSize) + 2 * alignSize <= BufferSize(alignSize)
    ensures WriteOffset(frame, alignSize) + 2 * alignSize <= MainCameraOffset(frame, alignSize)
         || ObserverCameraOffset(frame, alignSize) + alignSize <= WriteOffset(frame, alignSize)
    ensures MainCameraOffset(frame + 1, alignSize) == WriteOffset(frame, alignSize)
    ensures ObserverCameraOffset(frame + 1, alignSize) == WriteOffset(frame, alignSize) + alignSize
  {
    var r, w := frame % 3, (frame + 1) % 3;
    SlotBlock(r, alignSize);
    SlotBlock(w, alignSize);
    if w < r {
      SlotsApart(w, r, alignSize);
    } else {
      assert r != w;
      SlotsApart(r, w, alignSize);
    }
  }

  // ----------------------------------------------- bounding-box rendering

  /** The bounding-box matrices of the nodes: one per geometry of every node, in queue order. */
  function BoundMatrices<M>(nodes: seq<S.Node>, boundMatrix: S.Node -> M): (r: seq<M>)
  {
    if nodes == [] then []
    else
      var n := |nodes| - 1;
      BoundMatrices(nodes[..n], boundMatrix) + Copies(boundMatrix(nodes[n]), |nodes[n].geometryObjectIndex|)
  }

  lemma {:induction false} BoundMatricesCount<M>(nodes: seq<S.Node>, boundMatrix: S.Node -> M)
    ensures |BoundMatrices(nodes, boundMatrix)| == Sum(GeometryCounts(nodes))
  {
    if nodes != [] {
      var n := |nodes| - 1;
      BoundMatricesCount(nodes[..n], boundMatrix);
      assert GeometryCounts(nodes)[..n] == GeometryCounts(nodes[..n]);
    }
  }

  /**
   * One instanced draw: the loop's matrix index x when it was issued (which
   * reaches no GL call), its instance count, and the instance range bound.
   */
  datatype BatchDraw = BatchDraw(first: nat, count: nat, rangeOffset: nat, rangeSize: nat)

  /** The batch loop from matrix x on: batches of up to `batch` matrices, all bound to the same range. */
  function Batches(total: nat, batch: nat, x: nat, rangeOffset: nat, rangeSize: nat): seq<BatchDraw>
    requires batch > 0
    decreases total - x
  {
    if x >= total then []
    else [BatchDraw(x, Min(total - x, batch), rangeOffset, rangeSize)]
         + Batches(total, batch, x + batch, rangeOffset, rangeSize)
  }

  /** The instance counts of the batches. */
  function Counts(bs: seq<BatchDraw>): nat
  {
    if bs == [] then 0 else bs[0].count + Counts(bs[1..])
  }

  /** The batches' instance counts add up to the matrices from x on. */
  lemma {:induction false} BatchesCount(total: nat, batch: nat, x: nat, rangeOffset: nat, rangeSize: nat)
    requires batch > 0 && x <= total
    ensures Counts(Batches(total, batch, x, rangeOffset, rangeSize)) == total - x
    decreases total - x
  {
    if x + batch < total {
      BatchesCount(total, batch, x + batch, rangeOffset, rangeSize);
    }
  }

  /** There are ceil((total - x) / batch) batches. */
  lemma {:induction false} BatchesLength(total: nat, batch: nat, x: nat, rangeOffset: nat, rangeSize: nat)
    requires batch > 0 && x <= total
    ensures |Batches(total, batch, x, rangeOffset, rangeSize)| == CeilDiv(total - x, batch)
    decreases total - x
  {
    if x + batch < total {
      BatchesLength(total, batch, x + batch, rangeOffset, rangeSize);
      var m := total - x - batch;
      assert (m + batch + batch - 1) / batch == (m + batch - 1) / batch + 1 by {
        DivPlusOne(m + batch - 1, batch);
      }
    } else if x < total {
      assert 0 < total - x <= batch;
      assert (total - x + batch - 1) / batch == 1;
    }
  }

  lemma DivPlusOne(a: nat, d: nat)
    requires d > 0
    ensures (a + d) / d == a / d + 1
  {
    var q, r := a / d, a % d;
    DivModParts(a, d);
    assert a + d == (q + 1) * d + r;
    DivUnique(a + d, d, q + 1, r);
  }

  /**
   * Batch j starts j batches after x, holds between 1 and `batch` matrices
   * (exactly `batch` unless it is the last), and every batch binds the same
   * instance range.
   */
  lemma {:induction false} BatchesShape(total: nat, batch: nat, x: nat, rangeOffset: nat, rangeSize: nat, j: nat)
    requires batch > 0 && j < |Batches(total, batch, x, rangeOffset, rangeSize)|
    ensures var bs := Batches(total, batch, x, rangeOffset, rangeSize);
      && bs[j].first == x + j * batch && 0 < bs[j].count <= batch && bs[j].first + bs[j].count <= total
      && (j < |bs| - 1 ==> bs[j].count == batch)
      && bs[j].rangeOffset == rangeOffset && bs[j].rangeSize == rangeSize
    decreases total - x
  {
    var bs := Batches(total, batch, x, rangeOffset, rangeSize);
    var rest := Batches(total, batch, x + batch, rangeOffset, rangeSize);
    assert bs == [bs[0]] + rest;
    if j > 0 {
      BatchesShape(total, batch, x + batch, rangeOffset, rangeSize, j - 1);
      assert bs[j] == rest[j - 1];
      assert x + batch + (j - 1) * batch == x + j * batch;
    } else if |bs| > 1 {
      assert rest != [];
    }
  }

  /** The batch loop of renderBoundingBox. */
  method BatchLoop(total: nat, batch: nat, rangeOffset: nat, rangeSize: nat) returns (draws: seq<BatchDraw>)
    requires batch > 0
    ensures draws == Batches(total, batch, 0, rangeOffset, rangeSize)
  {
    draws := [];
    var x := 0;
    while x < total
      invariant draws + Batches(total, batch, x, rangeOffset, rangeSize) == Batches(total, batch, 0, rangeOffset, rangeSize)
      decreases total - x
    {
      var nrDrawInstances := Min(total - x, batch);
      var d := BatchDraw(x, nrDrawInstances, rangeOffset, rangeSize);
      assert Batches(total, batch, x, rangeOffset, rangeSize) == [d] + Batches(total, batch, x + batch, rangeOffset, rangeSize);
      SeqUtil.AppendAssoc(draws, [d], Batches(total, batch, x + batch, rangeOffset, rangeSize));
      draws := draws + [d];
      x := x + batch;
    }
    assert Batches(total, batch, x, rangeOffset, rangeSize) == [];
  }

  /** The byte offset instance i of draw d reads its matrix from: the i-th matrix of the bound range. */
  function InstanceAt(d: BatchDraw, i: nat): nat
  {
    d.rangeOffset + i * Mat4Size
  }

  /** Matrix m, stored m matrices after slotOffset, is read by some instance of some draw. */
  predicate Drawn(draws: seq<BatchDraw>, slotOffset: nat, m: nat)
  {
    exists j, i :: 0 <= j < |draws| && 0 <= i < draws[j].count && InstanceAt(draws[j], i) == slotOffset + m * Mat4Size
  }

  /** Matrices of equal byte offsets are the same matrix. */
  lemma MatrixOffsets(a: nat, b: nat, c: nat)
    ensures a * Mat4Size + b * Mat4Size == c * Mat4Size <==> a + b == c
  {
  }

  /**
   * As written, every batch binds the start of the frame's slot and draws
   * instances 0 to count - 1, so exactly the first min(total, batch) matrices
   * are drawn: with more matrices than a batch, the later batches draw the
   * first matrices again and the rest are never drawn.
   */
  lemma BatchesDrawOnlyFirst(total: nat, batch: nat, slotOffset: nat, rangeSize: nat, m: nat)
    requires batch > 0
    ensures Drawn(Batches(total, batch, 0, slotOffset, rangeSize), slotOffset, m) <==> m < Min(total, batch)
  {
    var bs := Batches(total, batch, 0, slotOffset, rangeSize);
    if Drawn(bs, slotOffset, m) {
      var j, i :| 0 <= j < |bs| && 0 <= i < bs[j].count && InstanceAt(bs[j], i) == slotOffset + m * Mat4Size;
      BatchesShape(total, batch, 0, slotOffset, rangeSize, j);
      MatrixOffsets(0, i, m);
    }
    if m < Min(total, batch) {
      assert bs[0] == BatchDraw(0, Min(total, batch), slotOffset, rangeSize);
      MatrixOffsets(0, m, m);
      assert InstanceAt(bs[0], m) == slotOffset + m * Mat4Size;
    }
  }

  /** Three matrices in batches of two: the second batch draws matrix 0 again and matrix 2 is never drawn. */
  lemma ThirdMatrixNeverDrawn(slotOffset: nat, rangeSize: nat)
    ensures Batches(3, 2, 0, slotOffset, rangeSize)
         == [BatchDraw(0, 2, slotOffset, rangeSize), BatchDraw(2, 1, slotOffset, rangeSize)]
    ensures InstanceAt(Batches(3, 2, 0, slotOffset, rangeSize)[1], 0) == slotOffset
    ensures !Drawn(Batches(3, 2, 0, slotOffset, rangeSize), slotOffset, 2)
  {
    BatchesDrawOnlyFirst(3, 2, slotOffset, rangeSize, 2);
  }

  /**
   * The batch loop with each batch binding its own matrices: the range of
   * the batch issued at x starts x matrices into the slot and holds that
   * batch's matrices.
   */
  function SlicedBatches(total: nat, batch: nat, x: nat, slotOffset: nat): (r: seq<BatchDraw>)
    requires batch > 0
    decreases total - x
  {
    if x >= total then []
    else
      var count := Min(total - x, batch);
      [BatchDraw(x, count, slotOffset + x * Mat4Size, count * Mat4Size)] + SlicedBatches(total, batch, x + batch, slotOffset)
  }

  /** A draw list with one more draw in front draws what that draw reads and what the rest draws. */
  lemma DrawnFront(d: BatchDraw, rest: seq<BatchDraw>, slotOffset: nat, m: nat)
    ensures Drawn([d] + rest, slotOffset, m)
        <==> (exists i :: 0 <= i < d.count && InstanceAt(d, i) == slotOffset + m * Mat4Size) || Drawn(rest, slotOffset, m)
  {
    var bs := [d] + rest;
    if Drawn(rest, slotOffset, m) {
      var j, i :| 0 <= j < |rest| && 0 <= i < rest[j].count && InstanceAt(rest[j], i) == slotOffset + m * Mat4Size;
      assert bs[j + 1] == rest[j];
    }
    if Drawn(bs, slotOffset, m) {
      var j, i :| 0 <= j < |bs| && 0 <= i < bs[j].count && InstanceAt(bs[j], i) == slotOffset + m * Mat4Size;
      if j > 0 {
        assert rest[j - 1] == bs[j];
      }
    }
    if exists i :: 0 <= i < d.count && InstanceAt(d, i) == slotOffset + m * Mat4Size {
      var i :| 0 <= i < d.count && InstanceAt(d, i) == slotOffset + m * Mat4Size;
      assert bs[0] == d;
    }
  }

  /** With each batch bound to its own range, every matrix from x on is drawn, and no other. */
  lemma {:induction false} SlicedBatchesDrawAll(total: nat, batch: nat, x: nat, slotOffset: nat, m: nat)
    requires batch > 0
    ensures Drawn(SlicedBatches(total, batch, x, slotOffset), slotOffset, m) <==> x <= m < total
    decreases total - x
  {
    if x < total {
      var count := Min(total - x, batch);
      var d := BatchDraw(x, count, slotOffset + x * Mat4Size, count * Mat4Size);
      var rest := SlicedBatches(total, batch, x + batch, slotOffset);
      DrawnFront(d, rest, slotOffset, m);
      SlicedBatchesDrawAll(total, batch, x + batch, slotOffset, m);
      if x <= m < x + count {
        MatrixOffsets(x, m - x, m);
        assert InstanceAt(d, m - x) == slotOffset + m * Mat4Size;
      }
      forall i | 0 <= i < count && InstanceAt(d, i) == slotOffset + m * Mat4Size
        ensures x <= m < x + count
      {
        MatrixOffsets(x, i, m);
      }
    }
  }

  /** The 64 bytes of one glm::mat4 in host memory. */
  type MatrixBytes = s: seq<bv8> | |s| == Mat4Size witness seq(64, _ => 0 as bv8)

  /** The matrix vector's data as memcpy reads it: each matrix's bytes, in order. */
  function MatrixData<M>(ms: seq<M>, bytes: M -> MatrixBytes): (r: seq<bv8>)
    ensures |r| == |ms| * Mat4Size
  {
    if ms == [] then [] else MatrixData(ms[..|ms| - 1], bytes) + bytes(ms[|ms| - 1])
  }

  /** Matrix k's bytes lie k matrices into the vector's data. */
  lemma {:induction false} MatrixDataAt<M>(ms: seq<M>, bytes: M -> MatrixBytes, k: nat)
    requires k < |ms|
    ensures k * Mat4Size + Mat4Size <= |MatrixData(ms, bytes)|
    ensures MatrixData(ms, bytes)[k * Mat4Size..k * Mat4Size + Mat4Size] == bytes(ms[k])
  {
    var n := |ms| - 1;
    var front := MatrixData(ms[..n], bytes);
    assert MatrixData(ms, bytes) == front + bytes(ms[n]);
    if k < n {
      MatrixDataAt(ms[..n], bytes, k);
      assert ms[..n][k] == ms[k];
    } else {
      assert k * Mat4Size == |front|;
    }
  }

  /** Start of the frame's slot in the instance buffer: slot frame % 3 of three. */
  function InstanceSlot(frame: nat, slotSize: nat): (r: nat)
    ensures r + slotSize <= slotSize * NrUniformBuffers
  {
    var slot := frame % NrUniformBuffers;
    assert slot * slotSize + slotSize <= slotSize * NrUniformBuffers by {
      if slot == 0 {
      } else if slot == 1 {
      } else {
        assert slot == 2;
      }
    }
    slot * slotSize
  }

  /**
   * The instance buffer after renderBoundingBox's transfer: the vector's bytes
   * from the start of the frame's slot, as far as the mapped slot reaches.
   */
  function InstancesUploaded(buffer: seq<bv8>, frame: nat, slotSize: nat, data: seq<bv8>): (r: seq<bv8>)
    requires |buffer| == slotSize * NrUniformBuffers
    ensures |r| == |buffer|
  {
    Overwrite(buffer, InstanceSlot(frame, slotSize), data[..Min(|data|, slotSize)])
  }

  /**
   * After the transfer, matrix m sits m matrices into the frame's slot, the
   * offset the draws read it from, whenever it fits in the slot; bytes
   * outside the slot are unchanged.
   */
  lemma UploadedMatrix<M>(buffer: seq<bv8>, frame: nat, slotSize: nat, ms: seq<M>, bytes: M -> MatrixBytes, m: nat)
    requires |buffer| == slotSize * NrUniformBuffers
    requires m < |ms| && m * Mat4Size + Mat4Size <= slotSize
    ensures var at := InstanceSlot(frame, slotSize) + m * Mat4Size;
      InstancesUploaded(buffer, frame, slotSize, MatrixData(ms, bytes))[at..at + Mat4Size] == bytes(ms[m])
  {
    var data := MatrixData(ms, bytes);
    var lo := m * Mat4Size;
    MatrixDataAt(ms, bytes, m);
    var n := Min(|data|, slotSize);
    PrefixWindow(data, n, lo, lo + Mat4Size);
    OverwriteWindow(buffer, InstanceSlot(frame, slotSize), data[..n], lo, lo + Mat4Size);
  }

  /** A window inside a prefix is the same window of the whole sequence. */
  lemma PrefixWindow<T>(s: seq<T>, n: nat, lo: nat, hi: nat)
    requires lo <= hi <= n <= |s|
    ensures s[..n][lo..hi] == s[lo..hi]
  {
  }

  /** Both bounding-box passes of a frame copy the same data to the same slot: the second changes nothing. */
  lemma UploadTwice(buffer: seq<bv8>, frame: nat, slotSize: nat, data: seq<bv8>)
    requires |buffer| == slotSize * NrUniformBuffers
    ensures InstancesUploaded(InstancesUploaded(buffer, frame, slotSize, data), frame, slotSize, data)
         == InstancesUploaded(buffer, frame, slotSize, data)
  {
    OverwriteTwice(buffer, InstanceSlot(frame, slotSize), data[..Min(|data|, slotSize)]);
  }

  /**
   * The transfer block of renderBoundingBox: memcpy of the matrix vector into
   * the mapped slot. A vector larger than the slot overruns the mapping;
   * only the bytes that fit are written, and overrun says so.
   */
  method UploadInstances(buffer: array<bv8>, frame: nat, slotSize: nat, data: seq<bv8>) returns (overrun: bool)
    requires buffer.Length == slotSize * NrUniformBuffers
    modifies buffer
    ensures overrun <==> |data| > slotSize
    ensures buffer[..] == InstancesUploaded(old(buffer[..]), frame, slotSize, data)
  {
    Memcpy(buffer, InstanceSlot(frame, slotSize), data[..Min(|data|, slotSize)]);
    overrun := |data| > slotSize;
  }

  /**
   * renderBoundingBox(camera, queue): pops every node, collects one bound
   * matrix per geometry, copies them into the instance buffer's slot
   * frame % 3, and draws them in batches that all bind that slot.
   */
  method RenderBoundingBox<M>(queue: NodeQueue, boundMatrix: S.Node -> M, bytes: M -> MatrixBytes,
                              instanceBuffer: array<bv8>, frame: nat, instanceBatch: nat, uniformInstanceSize: nat)
    returns (matrices: seq<M>, overrun: bool, draws: seq<BatchDraw>)
    requires instanceBatch > 0 && instanceBuffer.Length == uniformInstanceSize * NrUniformBuffers
    modifies queue, instanceBuffer
    ensures queue.items == []
    ensures matrices == BoundMatrices(old(queue.items), boundMatrix)
    ensures instanceBuffer[..] == InstancesUploaded(old(instanceBuffer[..]), frame, uniformInstanceSize,
                                                    MatrixData(matrices, bytes))
    ensures overrun <==> |matrices| * Mat4Size > uniformInstanceSize
    ensures draws == Batches(|matrices|, instanceBatch, 0, (frame % NrUniformBuffers) * uniformInstanceSize,
                             uniformInstanceSize)
  {
    ghost var q := queue.items;
    matrices := [];
    ghost var k := 0;
    while !queue.Empty()
      invariant 0 <= k <= |q| && queue.items == q[k..]
      invariant matrices == BoundMatrices(q[..k], boundMatrix)
      invariant instanceBuffer[..] == old(instanceBuffer[..])
      decreases |queue.items|
    {
      var node := queue.Front();
      queue.Pop();
      var i := 0;
      while i < |node.geometryObjectIndex|
        invariant 0 <= i <= |node.geometryObjectIndex|
        invariant matrices == BoundMatrices(q[..k], boundMatrix) + Copies(boundMatrix(node), i)
      {
        matrices := matrices + [boundMatrix(node)];
        i := i + 1;
      }
      assert q[..k + 1][..k] == q[..k];
      assert q[k..][1..] == q[k + 1..];
      k := k + 1;
    }
    assert q[..k] == q;
    overrun := UploadInstances(instanceBuffer, frame, uniformInstanceSize, MatrixData(matrices, bytes));
    draws := BatchLoop(|matrices|, instanceBatch, (frame % NrUniformBuffers) * uniformInstanceSize, uniformInstanceSize);
  }

  // ------------------------------------------------------------ the sample

  /** Which optional views draw renders. */
  datatype ViewSettings = ViewSettings(showBoundsInMainView: bool, showSecondCameraView: bool, showBoundIn2Camera: bool)

  /** One bounding-box pass: its matrices, whether their copy overran the slot, and its batches. */
  datatype BoundsPass<M> = BoundsPass(matrices: seq<M>, overrun: bool, draws: seq<BatchDraw>)

  /** What one draw renders: each camera's scene draws and bounding boxes. */
  datatype FrameDraws<M> = FrameDraws(
    mainScene: seq<S.DrawCall>, mainBounds: Option<BoundsPass<M>>,
    observerScene: Option<seq<S.DrawCall>>, observerBounds: Option<BoundsPass<M>>)

  class FrustumCulling {
    const mainCameraNodeQueue: NodeQueue
    const secondCameraNodeQueue: NodeQueue
    var uniformAlignBufferSize: nat
    var instanceBatch: nat
    var uniformInstanceSize: nat
    var uniformBuffer: array<bv8>
    /** The instance buffer: three slots of uniformInstanceSize bytes. */
    var instanceBuffer: array<bv8>

    predicate Valid()
      reads this
    {
      && mainCameraNodeQueue != secondCameraNodeQueue
      && UniformBlockSize <= uniformAlignBufferSize
      && uniformBuffer.Length == BufferSize(uniformAlignBufferSize)
      && instanceBatch > 0
      && instanceBuffer.Length == uniformInstanceSize * NrUniformBuffers
    }

    /**
     * Initialize's buffer setup: the camera block is aligned to the offset
     * alignment, the instance batch fits the largest uniform block.
     */
    constructor (minMapBufferSize: nat, uniformMaxSize: nat)
      requires minMapBufferSize > 0 && uniformMaxSize >= Mat4Size
      ensures Valid() && fresh(uniformBuffer) && fresh(instanceBuffer)
      ensures fresh(mainCameraNodeQueue) && fresh(secondCameraNodeQueue)
      ensures mainCameraNodeQueue.items == [] && secondCameraNodeQueue.items == []
      ensures uniformAlignBufferSize == Align(UniformBlockSize, minMapBufferSize)
      ensures instanceBatch == InstanceBatch(uniformMaxSize)
      ensures uniformInstanceSize == Align(instanceBatch * Mat4Size, minMapBufferSize)
    {
      mainCameraNodeQueue := new NodeQueue([]);
      secondCameraNodeQueue := new NodeQueue([]);
      var alignSize := Align(UniformBlockSize, minMapBufferSize);
      uniformAlignBufferSize := alignSize;
      uniformBuffer := new bv8[BufferSize(alignSize)](_ => 0);
      instanceBatch := InstanceBatch(uniformMaxSize);
      var instanceSize := Align(InstanceBatch(uniformMaxSize) * Mat4Size, minMapBufferSize);
      uniformInstanceSize := instanceSize;
      instanceBuffer := new bv8[instanceSize * NrUniformBuffers](_ => 0);
    }

    /**
     * update: writes both camera blocks into the next frame slot, then culls
     * the nodes into the two queues.
     */
    method Update<P, V>(frame: nat, mainBlock: seq<bv8>, observerBlock: seq<bv8>, nodes: seq<S.Node>,
                        s: CullSettings, mainFrustum: F.Frustum<P>, observerFrustum: F.Frustum<P>,
                        g: Geometry<P, V>)
      requires Valid() && |mainBlock| == UniformBlockSize && |observerBlock| == UniformBlockSize
      requires F.Valid(mainFrustum) && F.Valid(observerFrustum)
      modifies uniformBuffer, mainCameraNodeQueue, secondCameraNodeQueue
      ensures Valid()
      ensures uniformBuffer[..] == CameraBlocksWritten(old(uniformBuffer[..]), WriteOffset(frame, uniformAlignBufferSize),
                                                       uniformAlignBufferSize, mainBlock, observerBlock)
      ensures mainCameraNodeQueue.items == CullQueue(nodes, |nodes|, s, mainFrustum, g)
      ensures secondCameraNodeQueue.items == CullQueue(nodes, |nodes|, s, observerFrustum, g)
    {
      WriteUniforms(frame, mainBlock, observerBlock);
      CullQueues(nodes, s, mainFrustum, observerFrustum, g);
    }

    /** The uniform half of update. */
    method WriteUniforms(frame: nat, mainBlock: seq<bv8>, observerBlock: seq<bv8>)
      requires Valid() && |mainBlock| == UniformBlockSize && |observerBlock| == UniformBlockSize
      modifies uniformBuffer
      ensures Valid()
      ensures uniformBuffer[..] == CameraBlocksWritten(old(uniformBuffer[..]), WriteOffset(frame, uniformAlignBufferSize),
                                                       uniformAlignBufferSize, mainBlock, observerBlock)
    {
      WriteCameraBlocks(uniformBuffer, WriteOffset(frame, uniformAlignBufferSize), uniformAlignBufferSize,
                        mainBlock, observerBlock);
    }

    /** The culling half of update: both queues are refilled; the uniform buffer is left alone. */
    method CullQueues<P, V>(nodes: seq<S.Node>, s: CullSettings, mainFrustum: F.Frustum<P>,
                            observerFrustum: F.Frustum<P>, g: Geometry<P, V>)
      requires Valid() && F.Valid(mainFrustum) && F.Valid(observerFrustum)
      modifies mainCameraNodeQueue, secondCameraNodeQueue
      ensures unchanged(this) && uniformBuffer[..] == old(uniformBuffer[..])
      ensures mainCameraNodeQueue.items == CullQueue(nodes, |nodes|, s, mainFrustum, g)
      ensures secondCameraNodeQueue.items == CullQueue(nodes, |nodes|, s, observerFrustum, g)
    {
      Cull(nodes, s, mainFrustum, observerFrustum, g, mainCameraNodeQueue, secondCameraNodeQueue);
    }

    /**
     * draw: the observer queue is first replaced by a copy of the main
     * queue; the main view renders (and empties) the main queue; the
     * observer view renders a copy of that same copy and, when bounds are
     * shown there, consumes it.
     */
    method Draw<M>(scene: S.Scene, frame: nat, v: ViewSettings, boundMatrix: S.Node -> M, bytes: M -> MatrixBytes)
      returns (f: FrameDraws<M>)
      requires Valid() && scene.Valid() && S.AllDrawable(scene.Loaded(), mainCameraNodeQueue.items)
      modifies scene`currentNodeIndex, mainCameraNodeQueue, secondCameraNodeQueue, instanceBuffer
      ensures mainCameraNodeQueue.items == []
      ensures f.mainScene == S.DrawsFrom(scene.Loaded(), old(mainCameraNodeQueue.items), old(scene.currentNodeIndex))
      ensures f.mainBounds.Some? <==> v.showBoundsInMainView
      ensures f.mainBounds.Some? ==> f.mainBounds.value.matrices == BoundMatrices(old(mainCameraNodeQueue.items), boundMatrix)
      ensures f.observerScene.Some? <==> v.showSecondCameraView
      ensures f.observerScene.Some? ==>
        f.observerScene.value == S.DrawsFrom(scene.Loaded(), old(mainCameraNodeQueue.items),
                                             old(scene.currentNodeIndex) + |old(mainCameraNodeQueue.items)|)
      ensures f.observerBounds.Some? <==> v.showSecondCameraView && v.showBoundIn2Camera
      ensures f.observerBounds.Some? ==>
        f.observerBounds.value.matrices == BoundMatrices(old(mainCameraNodeQueue.items), boundMatrix)
      ensures secondCameraNodeQueue.items == if f.observerBounds.Some? then [] else old(mainCameraNodeQueue.items)
      ensures instanceBuffer[..] == if f.mainBounds.Some? || f.observerBounds.Some?
        then InstancesUploaded(old(instanceBuffer[..]), frame, uniformInstanceSize,
                               MatrixData(BoundMatrices(old(mainCameraNodeQueue.items), boundMatrix), bytes))
        else old(instanceBuffer[..])
    {
      ghost var q := mainCameraNodeQueue.items;
      ghost var start := scene.currentNodeIndex;
      ghost var buffer := instanceBuffer[..];
      secondCameraNodeQueue.Assign(mainCameraNodeQueue);
      var mainScene := RenderQueue(scene, mainCameraNodeQueue);
      var mainBounds: Option<BoundsPass<M>> := None;
      if v.showBoundsInMainView {
        var copyNode := new NodeQueue(secondCameraNodeQueue.items);
        var matrices, overrun, draws := RenderBoundingBox(copyNode, boundMatrix, bytes, instanceBuffer, frame,
                                                          instanceBatch, uniformInstanceSize);
        mainBounds := Some(BoundsPass(matrices, overrun, draws));
      }
      var observerScene, observerBounds := ObserverView(scene, frame, v, boundMatrix, bytes);
      if mainBounds.Some? && observerBounds.Some? {
        UploadTwice(buffer, frame, uniformInstanceSize, MatrixData(BoundMatrices(q, boundMatrix), bytes));
      }
      f := FrameDraws(mainScene, mainBounds, observerScene, observerBounds);
    }

    /**
     * The observer half of draw: when the second view is shown, a copy of
     * the observer queue is rendered, and when bounds are shown there too,
     * the observer queue itself is consumed by the bounding-box pass.
     */
    method ObserverView<M>(scene: S.Scene, frame: nat, v: ViewSettings, boundMatrix: S.Node -> M, bytes: M -> MatrixBytes)
      returns (observerScene: Option<seq<S.DrawCall>>, observerBounds: Option<BoundsPass<M>>)
      requires Valid() && scene.Valid() && S.AllDrawable(scene.Loaded(), secondCameraNodeQueue.items)
      modifies scene`currentNodeIndex, secondCameraNodeQueue, instanceBuffer
      ensures observerScene.Some? <==> v.showSecondCameraView
      ensures observerScene.Some? ==>
        observerScene.value == S.DrawsFrom(scene.Loaded(), old(secondCameraNodeQueue.items), old(scene.currentNodeIndex))
      ensures observerBounds.Some? <==> v.showSecondCameraView && v.showBoundIn2Camera
      ensures observerBounds.Some? ==>
        observerBounds.value.matrices == BoundMatrices(old(secondCameraNodeQueue.items), boundMatrix)
      ensures secondCameraNodeQueue.items == if observerBounds.Some? then [] else old(secondCameraNodeQueue.items)
      ensures instanceBuffer[..] == if observerBounds.Some?
        then InstancesUploaded(old(instanceBuffer[..]), frame, uniformInstanceSize,
                               MatrixData(BoundMatrices(old(secondCameraNodeQueue.items), boundMatrix), bytes))
        else old(instanceBuffer[..])
    {
      observerScene := None;
      observerBounds := None;
      if v.showSecondCameraView {
        var copyObserver := new NodeQueue(secondCameraNodeQueue.items);
        var draws := RenderQueue(scene, copyObserver);
        observerScene := Some(draws);
        if v.showBoundIn2Camera {
          var matrices, overrun, batches := RenderBoundingBox(secondCameraNodeQueue, boundMatrix, bytes, instanceBuffer,
                                                              frame, instanceBatch, uniformInstanceSize);
          observerBounds := Some(BoundsPass(matrices, overrun, batches));
        }
      }
    }
  }
}
