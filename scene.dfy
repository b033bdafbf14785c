// The scene renderer's bookkeeping: how a material picks its render domain,
// which nodes survive culling, how visible nodes are sorted into per-domain
// buckets and one render deque, which texture each slot binds, how the node
// counter selects the uniform window every 1024 nodes, and the layout of the
// shared uniform buffer. GL calls are recorded as values; floats are reals.

module Scene {
  import opened GLTypes
  import opened SeqUtil
  import F = Frustum

  /** Render domains, in declaration order. */
  datatype RenderQueue = Background | Geometry | AlphaTest | GeometryLast | Transparent | Overlay

  /** The enumerator value of a domain; `domain >= Transparent` compares these. */
  function Rank(q: RenderQueue): nat
  {
    match q
    case Background => 0
    case Geometry => 1
    case AlphaTest => 2
    case GeometryLast => 3
    case Transparent => 4
    case Overlay => 5
  }

  /** The order in which render() draws the buckets. */
  const DrawOrder: seq<RenderQueue> := [Background, Geometry, AlphaTest, GeometryLast, Transparent, Overlay]

  datatype Color = Color(r: real, g: real, b: real, a: real)

  /** The per-texture-type slots of a material (a fixed-size array indexed by texture type). */
  datatype TextureIndices = TextureIndices(
    diffuse: int, normal: int, alphaMask: int, emission: int, ambientOcclusion: int,
    displacement: int, specular: int, irradiance: int, depthBuffer: int)

  function IndexOf(ti: TextureIndices, t: TextureType): int
  {
    match t
    case Diffuse => ti.diffuse
    case Normal => ti.normal
    case AlphaMask => ti.alphaMask
    case Emission => ti.emission
    case AmbientOcclusion => ti.ambientOcclusion
    case Displacement => ti.displacement
    case Specular => ti.specular
    case Irradiance => ti.irradiance
    case DepthBuffer => ti.depthBuffer
  }

  datatype Material = Material(
    ambient: Color, diffuse: Color, specular: Color, emission: Color, transparent: Color,
    shininess: real, clipping: real, opacity: real,
    textureIndex: TextureIndices, maskTextureIndex: int,
    wireframeMode: bool, cullingBothSideMode: bool)

  /** A scene node: its material and geometry index lists, its world transform and its bounds. */
  datatype Node = Node(
    name: string, materialIndex: seq<int>, geometryObjectIndex: seq<int>,
    modelGlobalTransform: seq<real>, bound: Bound)

  /** The material attributes uploaded to the material uniform region. */
  datatype MaterialData = MaterialData(
    ambientColor: Color, diffuseColor: Color, specularRoughness: Color,
    emission: Color, transparency: Color, clip0: real)

  /** getQueueDomain: wireframe first, then blending, then alpha clipping, else opaque geometry. */
  function GetQueueDomain(m: Material): (d: RenderQueue)
    ensures m.wireframeMode ==> d == Overlay
    ensures !m.wireframeMode ==>
      (d == Transparent <==>
        m.transparent.a < 1.0 || (IndexOf(m.textureIndex, AlphaMask) >= 0 && m.clipping >= 1.0))
    ensures !m.wireframeMode && d != Transparent ==> (d == AlphaTest <==> m.clipping < 1.0)
    ensures d != Background && d != GeometryLast
  {
    var useGeometryAlpha := m.clipping < 1.0;
    var useBlending := m.transparent.a < 1.0 || (IndexOf(m.textureIndex, AlphaMask) >= 0 && !useGeometryAlpha);
    if m.wireframeMode then Overlay
    else if useBlending then Transparent
    else if useGeometryAlpha then AlphaTest
    else Geometry
  }

  /** computeMaterialPriority: 1000 for a translucent material plus 100 for a valid mask texture. */
  function ComputeMaterialPriority(m: Material, nrTextures: nat): (p: int)
    ensures p == 0 || p == 100 || p == 1000 || p == 1100
    ensures p >= 1000 <==> m.opacity < 1.0
    ensures (p == 100 || p == 1100) <==> 0 <= m.maskTextureIndex < nrTextures
  {
    var useClipping := m.maskTextureIndex >= 0 && m.maskTextureIndex < nrTextures;
    var useBlending := m.opacity < 1.0;
    (if useBlending then 1000 else 0) + (if useClipping then 100 else 0)
  }

  // ---------------------------------------------------------------------
  // Uniform buffer layout

  /** The byte sizes of the uniform structures (their declarations are not part of this model). */
  datatype StructSizes = StructSizes(common: nat, node: nat, material: nat, light: nat)

  datatype UboLayout = UboLayout(
    commonSizeAlign: nat, commonSizeTotalAlign: nat, commonOffset: nat,
    nodeSizeAlign: nat, nodeSizeTotalAlign: nat, maxNodePerBinding: nat,
    materialAlignSize: nat, materialAlignTotalSize: nat,
    lightAlignSize: nat, lightAlignTotalSize: nat,
    nodeOffset: nat, materialOffset: nat, lightOffset: nat, totalSize: nat)

  /** Four regions (common, node, material, light) packed back to back, each nrUniformBuffer aligned slots. */
  function ComputeUboLayout(minAlignment: nat, sizes: StructSizes, nrUniformBuffer: nat): (l: UboLayout)
    requires minAlignment > 0
    ensures l.commonOffset == 0
    ensures l.nodeOffset == l.commonOffset + l.commonSizeTotalAlign
    ensures l.materialOffset == l.nodeOffset + l.nodeSizeTotalAlign
    ensures l.lightOffset == l.materialOffset + l.materialAlignTotalSize
    ensures l.totalSize == l.lightOffset + l.lightAlignTotalSize
    ensures l.commonSizeTotalAlign == l.commonSizeAlign * nrUniformBuffer
    ensures l.nodeSizeTotalAlign == l.nodeSizeAlign * nrUniformBuffer
    ensures l.materialAlignTotalSize == l.materialAlignSize * nrUniformBuffer
    ensures l.lightAlignTotalSize == l.lightAlignSize * nrUniformBuffer
    ensures l.commonSizeAlign % minAlignment == 0 && l.commonSizeAlign >= sizes.common
    ensures l.nodeSizeAlign % minAlignment == 0 && l.nodeSizeAlign >= 4096 * sizes.node
    ensures l.materialAlignSize % minAlignment == 0 && l.materialAlignSize >= 4096 * sizes.material
    ensures l.lightAlignSize % minAlignment == 0 && l.lightAlignSize >= sizes.light
    ensures l.maxNodePerBinding == 1024
  {
    var commonAlign := Align(sizes.common, minAlignment);
    var nodeAlign := Align(Times(4096, sizes.node), minAlignment);
    var materialAlign := Align(Times(4096, sizes.material), minAlignment);
    var lightAlign := Align(sizes.light, minAlignment);
    var commonTotal := Times(commonAlign, nrUniformBuffer);
    var nodeTotal := Times(nodeAlign, nrUniformBuffer);
    var materialTotal := Times(materialAlign, nrUniformBuffer);
    var lightTotal := Times(lightAlign, nrUniformBuffer);
    UboLayout(
      commonAlign, commonTotal, 0,
      nodeAlign, nodeTotal, 1024,
      materialAlign, materialTotal,
      lightAlign, lightTotal,
      commonTotal, commonTotal + nodeTotal, commonTotal + nodeTotal + materialTotal,
      nodeTotal + commonTotal + materialTotal + lightTotal)
  }

  function Times(a: nat, b: nat): (r: nat)
    ensures r == a * b
  {
    a * b
  }

  /** The byte range [start, start + size) of a region. */
  predicate Disjoint(start1: nat, size1: nat, start2: nat, size2: nat)
  {
    start1 + size1 <= start2 || start2 + size2 <= start1
  }

  /** Every region lies inside the buffer and no two regions overlap. */
  lemma UboRegionsDisjoint(minAlignment: nat, sizes: StructSizes, nrUniformBuffer: nat)
    requires minAlignment > 0
    ensures var l := ComputeUboLayout(minAlignment, sizes, nrUniformBuffer);
      && Disjoint(l.commonOffset, l.commonSizeTotalAlign, l.nodeOffset, l.nodeSizeTotalAlign)
      && Disjoint(l.commonOffset, l.commonSizeTotalAlign, l.materialOffset, l.materialAlignTotalSize)
      && Disjoint(l.commonOffset, l.commonSizeTotalAlign, l.lightOffset, l.lightAlignTotalSize)
      && Disjoint(l.nodeOffset, l.nodeSizeTotalAlign, l.materialOffset, l.materialAlignTotalSize)
      && Disjoint(l.nodeOffset, l.nodeSizeTotalAlign, l.lightOffset, l.lightAlignTotalSize)
      && Disjoint(l.materialOffset, l.materialAlignTotalSize, l.lightOffset, l.lightAlignTotalSize)
      && l.lightOffset + l.lightAlignTotalSize <= l.totalSize
  {
  }

  // ---------------------------------------------------------------------
  // Which nodes are kept by sortRenderQueue, and where they go

  /** A node is sorted when it has a material list whose first index names a material. */
  predicate Kept(materials: seq<Material>, n: Node)
  {
    |n.materialIndex| > 0 && 0 <= n.materialIndex[0] < |materials|
  }

  function DomainOf(materials: seq<Material>, n: Node): RenderQueue
    requires Kept(materials, n)
  {
    GetQueueDomain(materials[n.materialIndex[0]])
  }

  predicate InBucket(materials: seq<Material>, d: RenderQueue, n: Node)
  {
    Kept(materials, n) && DomainOf(materials, n) == d
  }

  /** Kept nodes whose domain compares at least Transparent: appended to the deque. */
  predicate Appended(materials: seq<Material>, n: Node)
  {
    Kept(materials, n) && Rank(DomainOf(materials, n)) >= Rank(Transparent)
  }

  /** Kept nodes of an earlier domain: pushed to the front of the deque. */
  predicate Prepended(materials: seq<Material>, n: Node)
  {
    Kept(materials, n) && Rank(DomainOf(materials, n)) < Rank(Transparent)
  }

  function IsPrepended(materials: seq<Material>): Node -> bool { n => Prepended(materials, n) }

  function IsAppended(materials: seq<Material>): Node -> bool { n => Appended(materials, n) }

  function IsInBucket(materials: seq<Material>, d: RenderQueue): Node -> bool { n => InBucket(materials, d, n) }

  /** The bucket of domain d after sorting: its kept nodes in visit order. */
  function Bucket(materials: seq<Material>, visible: seq<Node>, d: RenderQueue): seq<Node>
  {
    Filter(visible, IsInBucket(materials, d))
  }

  /** The render deque after sorting: prepended nodes last-visited first, then appended nodes in visit order. */
  function DequeOf(materials: seq<Material>, visible: seq<Node>): seq<Node>
  {
    Reverse(Filter(visible, IsPrepended(materials))) + Filter(visible, IsAppended(materials))
  }

  /** A missing map key reads as the empty deque (operator[] inserts one). */
  function BucketAt(buckets: map<RenderQueue, seq<Node>>, d: RenderQueue): seq<Node>
  {
    if d in buckets then buckets[d] else []
  }

  /** The nodes render() draws, bucket after bucket in draw order. */
  function DrawSequence(buckets: map<RenderQueue, seq<Node>>): seq<Node>
  {
    DrawnBuckets(buckets, |DrawOrder|)
  }

  /** The first o buckets in draw order, concatenated. */
  function DrawnBuckets(buckets: map<RenderQueue, seq<Node>>, o: nat): seq<Node>
    requires o <= |DrawOrder|
  {
    if o == 0 then [] else DrawnBuckets(buckets, o - 1) + BucketAt(buckets, DrawOrder[o - 1])
  }

  /** Two maps that read alike for every domain draw alike. */
  lemma {:induction false} DrawnBucketsAlike(b1: map<RenderQueue, seq<Node>>, b2: map<RenderQueue, seq<Node>>, o: nat)
    requires o <= |DrawOrder|
    requires forall d :: BucketAt(b1, d) == BucketAt(b2, d)
    ensures DrawnBuckets(b1, o) == DrawnBuckets(b2, o)
  {
    if o > 0 {
      DrawnBucketsAlike(b1, b2, o - 1);
    }
  }

  /** The map after render() has read renderBucketQueue[d] for every domain d: each key present. */
  function WithAllDomains(buckets: map<RenderQueue, seq<Node>>): (r: map<RenderQueue, seq<Node>>)
    ensures forall d :: d in r && BucketAt(r, d) == BucketAt(buckets, d)
  {
    var r := map d | d in DrawOrder :: BucketAt(buckets, d);
    assert forall d :: d in r by {
      forall d ensures d in r {
        InDrawOrder(d);
      }
    }
    r
  }

  /** How visiting one more node extends every bucket. */
  lemma BucketSnoc(materials: seq<Material>, seen: seq<Node>, node: Node)
    ensures forall d :: Bucket(materials, seen + [node], d)
                        == Bucket(materials, seen, d) + (if InBucket(materials, d, node) then [node] else [])
  {
    forall d ensures Bucket(materials, seen + [node], d) ==
        Bucket(materials, seen, d) + (if InBucket(materials, d, node) then [node] else []) {
      FilterSnoc(seen, node, IsInBucket(materials, d));
    }
  }

  /** One visit of sortRenderQueue's loop: where node goes in the deque. */
  function VisitDeque(materials: seq<Material>, queue: seq<Node>, node: Node): seq<Node>
  {
    if Appended(materials, node) then queue + [node]
    else if Prepended(materials, node) then [node] + queue
    else queue
  }

  /** Filtering one more node for the front half. */
  lemma FrontSnoc(materials: seq<Material>, seen: seq<Node>, node: Node)
    ensures Filter(seen + [node], IsPrepended(materials)) ==
            Filter(seen, IsPrepended(materials)) + (if Prepended(materials, node) then [node] else [])
  {
    FilterSnoc(seen, node, IsPrepended(materials));
  }

  /** Filtering one more node for the back half. */
  lemma BackSnoc(materials: seq<Material>, seen: seq<Node>, node: Node)
    ensures Filter(seen + [node], IsAppended(materials)) ==
            Filter(seen, IsAppended(materials)) + (if Appended(materials, node) then [node] else [])
  {
    FilterSnoc(seen, node, IsAppended(materials));
  }

  /**
   * Visiting one more node: a kept node of domain Transparent or later goes to
   * the back of the deque, a kept node of an earlier domain to the front, any
   * other node leaves the deque as it was.
   */
  lemma DequeOfSnoc(materials: seq<Material>, seen: seq<Node>, node: Node)
    ensures DequeOf(materials, seen + [node]) == VisitDeque(materials, DequeOf(materials, seen), node)
  {
    var front, back := Filter(seen, IsPrepended(materials)), Filter(seen, IsAppended(materials));
    var front', back' := Filter(seen + [node], IsPrepended(materials)), Filter(seen + [node], IsAppended(materials));
    FrontSnoc(materials, seen, node);
    BackSnoc(materials, seen, node);
    assert DequeOf(materials, seen + [node]) == Reverse(front') + back';
    if Appended(materials, node) {
      assert front' == front && back' == back + [node];
      assert Reverse(front) + (back + [node]) == (Reverse(front) + back) + [node];
    } else if Prepended(materials, node) {
      assert front' == front + [node] && back' == back;
      ReverseSnoc(front, node);
      assert ([node] + Reverse(front)) + back == [node] + (Reverse(front) + back);
    } else {
      assert front' == front && back' == back;
    }
  }


  /** The bucket map holds, for every domain, the bucket of the nodes seen so far. */
  predicate BucketsMatch(buckets: map<RenderQueue, seq<Node>>, materials: seq<Material>, seen: seq<Node>)
  {
    forall d :: BucketAt(buckets, d) == Bucket(materials, seen, d)
  }

  /** No key of the bucket map holds an empty deque. */
  predicate NoEmptyBucket(buckets: map<RenderQueue, seq<Node>>)
  {
    forall d :: d in buckets ==> |buckets[d]| > 0
  }

  /** bucket[d].push_back(node), inserting an empty deque for a new key. */
  function PushToBucket(buckets: map<RenderQueue, seq<Node>>, d: RenderQueue, node: Node): (r: map<RenderQueue, seq<Node>>)
    ensures r.Keys == buckets.Keys + {d}
    ensures forall e :: BucketAt(r, e) == BucketAt(buckets, e) + (if e == d then [node] else [])
  {
    buckets[d := BucketAt(buckets, d) + [node]]
  }

  /** Every kept visible node is in the bucket of its domain as often as it was visited, and in no other. */
  lemma BucketMultiplicity(materials: seq<Material>, visible: seq<Node>, d: RenderQueue, n: Node)
    ensures multiset(Bucket(materials, visible, d))[n] ==
            if Kept(materials, n) && DomainOf(materials, n) == d then multiset(visible)[n] else 0
  {
    FilterCount(visible, IsInBucket(materials, d), n);
  }

  /** The deque holds every kept visible node exactly as often as it was visited, and nothing else. */
  lemma DequeMultiplicity(materials: seq<Material>, visible: seq<Node>, n: Node)
    ensures multiset(DequeOf(materials, visible))[n] ==
            if Kept(materials, n) then multiset(visible)[n] else 0
  {
    var pre := Filter(visible, IsPrepended(materials));
    var app := Filter(visible, IsAppended(materials));
    ReverseMultiset(pre);
    assert multiset(DequeOf(materials, visible)) == multiset(Reverse(pre)) + multiset(app);
    FilterCount(visible, IsPrepended(materials), n);
    FilterCount(visible, IsAppended(materials), n);
  }

  /** The first half of the deque holds exactly the nodes pushed to the front; the rest, those pushed to the back. */
  lemma DequeHalves(materials: seq<Material>, visible: seq<Node>)
    ensures var pre := Filter(visible, IsPrepended(materials));
      var q := DequeOf(materials, visible);
      && (forall k :: 0 <= k < |pre| ==> Prepended(materials, q[k]))
      && (forall k :: |pre| <= k < |q| ==> Appended(materials, q[k]))
  {
    var pre := Filter(visible, IsPrepended(materials));
    var app := Filter(visible, IsAppended(materials));
    var q := DequeOf(materials, visible);
    FilterMembers(visible, IsPrepended(materials));
    FilterMembers(visible, IsAppended(materials));
    ReverseMembers(pre);
    forall k | 0 <= k < |pre| ensures Prepended(materials, q[k]) {
      assert q[k] == Reverse(pre)[k] && q[k] in Reverse(pre);
    }
    forall k | |pre| <= k < |q| ensures Appended(materials, q[k]) {
      var y := app[k - |pre|];
      assert q[k] == y && y in app;
      assert IsAppended(materials)(y);
    }
  }

  /** No node of an earlier domain follows a Transparent or Overlay node in the deque. */
  lemma DequeDomainOrder(materials: seq<Material>, visible: seq<Node>, i: nat, j: nat)
    requires i < j < |DequeOf(materials, visible)|
    requires Appended(materials, DequeOf(materials, visible)[i])
    ensures Appended(materials, DequeOf(materials, visible)[j])
  {
    DequeHalves(materials, visible);
  }

  /** One visit of sortRenderQueue's loop: the bucket node is appended to, if any. */
  function VisitBuckets(materials: seq<Material>, buckets: map<RenderQueue, seq<Node>>, node: Node)
    : map<RenderQueue, seq<Node>>
  {
    if Kept(materials, node) then PushToBucket(buckets, DomainOf(materials, node), node) else buckets
  }

  /** The bucket map sorting builds from the nodes seen: one deque per domain that received a node. */
  function BucketsOf(materials: seq<Material>, seen: seq<Node>): map<RenderQueue, seq<Node>>
  {
    map d | d in DrawOrder && Bucket(materials, seen, d) != [] :: Bucket(materials, seen, d)
  }

  /** Every domain is in the draw order. */
  lemma InDrawOrder(d: RenderQueue)
    ensures d in DrawOrder
  {
    assert DrawOrder[Rank(d)] == d;
  }

  /** The built map holds each domain's bucket, and no empty deque. */
  lemma BucketsOfMatch(materials: seq<Material>, seen: seq<Node>)
    ensures BucketsMatch(BucketsOf(materials, seen), materials, seen)
    ensures NoEmptyBucket(BucketsOf(materials, seen))
  {
    forall d ensures BucketAt(BucketsOf(materials, seen), d) == Bucket(materials, seen, d) {
      InDrawOrder(d);
    }
  }

  /** After one visit, every domain reads as its bucket over seen + [node]. */
  lemma VisitBucketsAt(materials: seq<Material>, seen: seq<Node>, node: Node, d: RenderQueue)
    ensures BucketAt(VisitBuckets(materials, BucketsOf(materials, seen), node), d)
            == Bucket(materials, seen + [node], d)
  {
    BucketSnoc(materials, seen, node);
    BucketsOfMatch(materials, seen);
  }

  /** One visit turns the map built from seen into the map built from seen + [node]. */
  lemma VisitBucketsStep(materials: seq<Material>, seen: seq<Node>, node: Node)
    ensures VisitBuckets(materials, BucketsOf(materials, seen), node) == BucketsOf(materials, seen + [node])
  {
    var visited, after := VisitBuckets(materials, BucketsOf(materials, seen), node), BucketsOf(materials, seen + [node]);
    BucketsOfMatch(materials, seen);
    BucketsOfMatch(materials, seen + [node]);
    forall d ensures d in visited <==> d in after {
      InDrawOrder(d);
      VisitBucketsAt(materials, seen, node, d);
    }
    forall d | d in visited ensures visited[d] == after[d] {
      VisitBucketsAt(materials, seen, node, d);
    }
  }


  /** The deque after the loop has visited the first x visible nodes. */
  function DequeUpTo(materials: seq<Material>, visible: seq<Node>, x: nat): seq<Node>
    requires x <= |visible|
  {
    if x == 0 then [] else VisitDeque(materials, DequeUpTo(materials, visible, x - 1), visible[x - 1])
  }

  /** The bucket map after the loop has visited the first x visible nodes. */
  function BucketsUpTo(materials: seq<Material>, visible: seq<Node>, x: nat): map<RenderQueue, seq<Node>>
    requires x <= |visible|
  {
    if x == 0 then map[] else VisitBuckets(materials, BucketsUpTo(materials, visible, x - 1), visible[x - 1])
  }

  /** The deque the loop builds is the reverse of the front-pushed nodes followed by the back-pushed ones. */
  lemma {:induction false} DequeUpToIsDequeOf(materials: seq<Material>, visible: seq<Node>, x: nat)
    requires x <= |visible|
    ensures DequeUpTo(materials, visible, x) == DequeOf(materials, visible[..x])
  {
    if x == 0 {
      assert visible[..0] == [];
    } else {
      var seen, node := visible[..x - 1], visible[x - 1];
      DequeUpToIsDequeOf(materials, visible, x - 1);
      assert visible[..x] == seen + [node];
      DequeOfSnoc(materials, seen, node);
    }
  }

  /** The bucket map the loop builds is the one built from the visited nodes. */
  lemma {:induction false} BucketsUpToIsBucketsOf(materials: seq<Material>, visible: seq<Node>, x: nat)
    requires x <= |visible|
    ensures BucketsUpTo(materials, visible, x) == BucketsOf(materials, visible[..x])
  {
    if x == 0 {
      assert visible[..0] == [];
      assert BucketsOf(materials, []) == map[] by {
        forall d ensures Bucket(materials, [], d) == [] {
        }
      }
    } else {
      var seen, node := visible[..x - 1], visible[x - 1];
      BucketsUpToIsBucketsOf(materials, visible, x - 1);
      assert visible[..x] == seen + [node];
      VisitBucketsStep(materials, seen, node);
    }
  }

  /**
   * The loop of sortRenderQueue over the visible nodes, on values: the deque
   * and the per-domain buckets it builds.
   */
  method SortVisible(mats: seq<Material>, visible: seq<Node>)
    returns (queue: seq<Node>, buckets: map<RenderQueue, seq<Node>>)
    ensures queue == DequeOf(mats, visible)
    ensures buckets == BucketsOf(mats, visible)
    ensures BucketsMatch(buckets, mats, visible) && NoEmptyBucket(buckets)
  {
    queue := [];
    buckets := map[];
    var x := 0;
    while x < |visible|
      invariant 0 <= x <= |visible|
      invariant queue == DequeUpTo(mats, visible, x)
      invariant buckets == BucketsUpTo(mats, visible, x)
    {
      var node := visible[x];
      if |node.materialIndex| > 0 && 0 <= node.materialIndex[0] < |mats| {
        var domain := GetQueueDomain(mats[node.materialIndex[0]]);
        buckets := PushToBucket(buckets, domain, node);
        if Rank(domain) >= Rank(Transparent) {
          queue := queue + [node];
        } else {
          queue := [node] + queue;
        }
      }
      x := x + 1;
    }
    DequeUpToIsDequeOf(mats, visible, x);
    BucketsUpToIsBucketsOf(mats, visible, x);
    assert visible[..x] == visible;
    BucketsOfMatch(mats, visible);
  }

  // ---------------------------------------------------------------------
  // Drawing

  datatype RangeBinding = RangeBinding(offset: nat, size: nat)

  /** The node-range and material-range uniform bindings issued at the start of a 1024-node block. */
  datatype Rebind = Rebind(nodeRange: RangeBinding, materialRange: RangeBinding)

  datatype TextureBinding = TextureBinding(unit: nat, texture: int, sampler: nat)

  /**
   * One draw of renderNode: the material and mesh it uses and the node's
   * uniform slot, which together fix the GL state it sets up (StateOf).
   */
  datatype DrawCall = DrawCall(materialIndex: int, geometryIndex: int, nodeSlot: nat)

  /** The state a draw sets up before glDrawElementsBaseVertex, and the call's arguments. */
  datatype DrawState = DrawState(
    textures: seq<TextureBinding>, domain: RenderQueue,
    blend: bool, depthMask: bool, cullFace: bool, polygonLine: bool,
    vao: nat, primitive: PrimitiveType, count: nat, indexByteOffset: nat, baseVertex: nat)

  /** The texture types renderNode binds, in order (the irradiance slot is not bound). */
  const BoundTextureTypes: seq<TextureType> :=
    [Diffuse, Normal, AlphaMask, Emission, AmbientOcclusion, Displacement, Specular, DepthBuffer]

  /**
   * The byte address of the node record the draw at counter value counter
   * reads: the node range bound for its 1024-node block, plus its slot,
   * when every node record is 64 bytes.
   */
  function NodeRecordAddress(nodeOffset: nat, counter: nat): nat
  {
    nodeOffset + (counter / 1024) * 65536 + (counter % 1024) * 64
  }

  /** The block rebinding addresses record `counter` of the staged node array (records of 64 bytes). */
  lemma NodeRecordAddressIsStageIndex(nodeOffset: nat, counter: nat)
    ensures NodeRecordAddress(nodeOffset, counter) == nodeOffset + counter * 64
  {
    var b, s := counter / 1024, counter % 1024;
    assert counter == b * 1024 + s;
    assert b * 65536 + s * 64 == (b * 1024 + s) * 64;
  }

  /** The inner loop of culling: test the node's world box once per geometry, stopping at the first In. */
  method TestNode<P>(f: F.Frustum<P>, node: Node, worldAabb: Node -> F.Aabb<Vec3>,
                     testPlanesAabb: (P, F.Aabb<Vec3>) -> bool) returns (found: bool)
    requires F.Valid(f)
    ensures found <==> |node.geometryObjectIndex| > 0 && F.Classify(f, worldAabb(node), testPlanesAabb) == F.In
  {
    found := false;
    var i := 0;
    while i < |node.geometryObjectIndex|
      invariant 0 <= i <= |node.geometryObjectIndex|
      invariant found ==> F.Classify(f, worldAabb(node), testPlanesAabb) == F.In
      invariant !found && i > 0 ==> F.Classify(f, worldAabb(node), testPlanesAabb) != F.In
      invariant found ==> i > 0
    {
      var r := F.IntersectionAabb(f, worldAabb(node), testPlanesAabb);
      if r == F.In {
        found := true;
        break;
      }
      i := i + 1;
    }
  }

  /** A node culling keeps: it has a geometry and the frustum reports its world box In. */
  predicate InFrustum<P>(f: F.Frustum<P>, worldAabb: Node -> F.Aabb<Vec3>,
                         testPlanesAabb: (P, F.Aabb<Vec3>) -> bool, n: Node)
  {
    F.Valid(f) && |n.geometryObjectIndex| > 0 && F.Classify(f, worldAabb(n), testPlanesAabb) == F.In
  }

  function IsInFrustum<P>(f: F.Frustum<P>, worldAabb: Node -> F.Aabb<Vec3>,
                          testPlanesAabb: (P, F.Aabb<Vec3>) -> bool): Node -> bool
  {
    n => InFrustum(f, worldAabb, testPlanesAabb, n)
  }

  /** The loop of culling over the nodes: each node tested once, the kept ones in node order. */
  method CullNodes<P>(f: F.Frustum<P>, nodes: seq<Node>, worldAabb: Node -> F.Aabb<Vec3>,
                      testPlanesAabb: (P, F.Aabb<Vec3>) -> bool) returns (visible: seq<Node>)
    requires F.Valid(f)
    ensures visible == Filter(nodes, IsInFrustum(f, worldAabb, testPlanesAabb))
  {
    visible := [];
    var x := 0;
    while x < |nodes|
      invariant 0 <= x <= |nodes|
      invariant visible == Filter(nodes[..x], IsInFrustum(f, worldAabb, testPlanesAabb))
    {
      var node := nodes[x];
      ghost var next := Filter(nodes[..x + 1], IsInFrustum(f, worldAabb, testPlanesAabb));
      assert next == visible + (if InFrustum(f, worldAabb, testPlanesAabb, node) then [node] else []) by {
        assert nodes[..x + 1] == nodes[..x] + [node];
        FilterSnoc(nodes[..x], node, IsInFrustum(f, worldAabb, testPlanesAabb));
      }
      var found := TestNode(f, node, worldAabb, testPlanesAabb);
      if found {
        visible := visible + [node];
      }
      x := x + 1;
      assert visible == next;
    }
    assert nodes[..x] == nodes;
  }

  // ---------------------------------------------------------------------
  // What renderNode draws, as a function of the scene's loaded assets

  /** The scene state renderNode reads: materials, meshes, textures, default textures, samplers, the layout. */
  datatype Assets = Assets(
    materials: seq<Material>, refGeometry: seq<MeshObject>, refTexture: seq<TextureAsset>,
    defaultTextures: seq<nat>, samplers: seq<nat>, ubo: UboLayout)

  /** One default texture and one sampler per texture type, and 1024 node records per binding. */
  predicate AssetsValid(a: Assets)
  {
    && |a.defaultTextures| == TextureTypeCount
    && |a.samplers| == TextureTypeCount
    && a.ubo.maxNodePerBinding == 1024
  }

  /** bindTexture: the material's own texture when its index is valid and names a created texture, else the default. */
  function BindTexture(a: Assets, material: Material, t: TextureType): (b: TextureBinding)
    requires AssetsValid(a)
    ensures b.unit == TextureUnit(t)
    ensures b.sampler == a.samplers[TextureUnit(t)]
    ensures var idx := IndexOf(material.textureIndex, t);
      if 0 <= idx < |a.refTexture| && a.refTexture[idx].texture > 0
      then b.texture == a.refTexture[idx].texture
      else b.texture == a.defaultTextures[TextureUnit(t)]
  {
    var idx := IndexOf(material.textureIndex, t);
    var id := if 0 <= idx < |a.refTexture| && a.refTexture[idx].texture > 0
              then a.refTexture[idx].texture
              else a.defaultTextures[TextureUnit(t)];
    TextureBinding(TextureUnit(t), id, a.samplers[TextureUnit(t)])
  }

  /** A node renderNode can draw: every geometry has a material and both indices are in range. */
  predicate Drawable(a: Assets, n: Node)
  {
    && |n.geometryObjectIndex| <= |n.materialIndex|
    && (forall g :: 0 <= g < |n.geometryObjectIndex| ==> 0 <= n.materialIndex[g] < |a.materials|)
    && (forall g :: 0 <= g < |n.geometryObjectIndex| ==> 0 <= n.geometryObjectIndex[g] < |a.refGeometry|)
  }

  predicate AllDrawable(a: Assets, ns: seq<Node>)
  {
    forall i :: 0 <= i < |ns| ==> Drawable(a, ns[i])
  }

  /** The bindings for the texture types renderNode binds, in binding order. */
  function TexturesOf(a: Assets, material: Material): (ts: seq<TextureBinding>)
    requires AssetsValid(a)
    ensures |ts| == |BoundTextureTypes|
    ensures forall k :: 0 <= k < |ts| ==> ts[k] == BindTexture(a, material, BoundTextureTypes[k])
  {
    [BindTexture(a, material, Diffuse), BindTexture(a, material, Normal), BindTexture(a, material, AlphaMask),
     BindTexture(a, material, Emission), BindTexture(a, material, AmbientOcclusion),
     BindTexture(a, material, Displacement), BindTexture(a, material, Specular),
     BindTexture(a, material, DepthBuffer)]
  }

  /** The draw of geometry g of node n at counter value counter. */
  function DrawOf(a: Assets, n: Node, g: nat, counter: nat): DrawCall
    requires AssetsValid(a) && g < |n.geometryObjectIndex| && g < |n.materialIndex|
  {
    DrawCall(n.materialIndex[g], n.geometryObjectIndex[g], counter % a.ubo.maxNodePerBinding)
  }

  /** The draw refers to a loaded material and a loaded mesh. */
  predicate DrawValid(a: Assets, d: DrawCall)
  {
    0 <= d.materialIndex < |a.materials| && 0 <= d.geometryIndex < |a.refGeometry|
  }

  /** What the draw sets up from its material and mesh. */
  function StateOf(a: Assets, d: DrawCall): DrawState
    requires AssetsValid(a) && DrawValid(a, d)
  {
    var material := a.materials[d.materialIndex];
    var mesh := a.refGeometry[d.geometryIndex];
    var domain := GetQueueDomain(material);
    DrawState(TexturesOf(a, material), domain,
              domain == Transparent, domain != Transparent,
              !material.cullingBothSideMode,
              material.wireframeMode && domain != Transparent,
              mesh.vao, mesh.primitiveType, mesh.nrIndicesElements, 4 * mesh.indicesOffset, mesh.vertexOffset)
  }

  /**
   * What one draw of renderNode sets up: the uniform slot within the current
   * 1024-node window, the material's textures (or the defaults), blending and
   * depth writes by domain, face culling by the two-sided flag, line mode for
   * wireframe materials outside the Transparent domain, and the mesh's vertex
   * array, index count, byte offset (4-byte indices) and base vertex.
   */
  lemma DrawOfSpec(a: Assets, n: Node, g: nat, counter: nat)
    requires AssetsValid(a) && Drawable(a, n) && g < |n.geometryObjectIndex|
    ensures var d := DrawOf(a, n, g, counter);
      && d.nodeSlot == counter % 1024 && d.nodeSlot < 1024
      && d.materialIndex == n.materialIndex[g] && d.geometryIndex == n.geometryObjectIndex[g]
      && DrawValid(a, d)
      && var st := StateOf(a, d);
      var material := a.materials[n.materialIndex[g]];
      var mesh := a.refGeometry[n.geometryObjectIndex[g]];
      && |st.textures| == |BoundTextureTypes|
      && (forall k :: 0 <= k < |st.textures| ==>
            st.textures[k] == BindTexture(a, material, BoundTextureTypes[k]))
      && st.domain == GetQueueDomain(material)
      && (st.blend <==> st.domain == Transparent)
      && (st.depthMask <==> st.domain != Transparent)
      && (st.cullFace <==> !material.cullingBothSideMode)
      && (st.polygonLine <==> material.wireframeMode && st.domain != Transparent)
      && st.vao == mesh.vao && st.count == mesh.nrIndicesElements
      && st.indexByteOffset == 4 * mesh.indicesOffset && st.baseVertex == mesh.vertexOffset
      && st.primitive == mesh.primitiveType
  {
  }

  /** The draws renderNode issues for the first g geometries of node n at counter value counter. */
  function NodeDraws(a: Assets, n: Node, counter: nat, g: nat): (ds: seq<DrawCall>)
    requires AssetsValid(a) && g <= |n.geometryObjectIndex| && g <= |n.materialIndex|
    ensures |ds| == g
  {
    if g == 0 then [] else NodeDraws(a, n, counter, g - 1) + [DrawOf(a, n, g - 1, counter)]
  }

  /** Draw k of a node is the draw of its geometry k. */
  lemma {:induction false} NodeDrawsAt(a: Assets, n: Node, counter: nat, g: nat, k: nat)
    requires AssetsValid(a) && Drawable(a, n) && k < g <= |n.geometryObjectIndex|
    ensures NodeDraws(a, n, counter, g)[k] == DrawOf(a, n, k, counter)
  {
    if k < g - 1 {
      NodeDrawsAt(a, n, counter, g - 1, k);
    }
  }

  /**
   * The draws of one node rendered at counter value counter; a node with
   * fewer material indices than geometries (which renderNode would read past)
   * is given none, so that the draws of a whole queue are defined for every queue.
   */
  function DrawsOfNode(a: Assets, n: Node, counter: nat): seq<DrawCall>
  {
    if AssetsValid(a) && |n.geometryObjectIndex| <= |n.materialIndex|
    then NodeDraws(a, n, counter, |n.geometryObjectIndex|) else []
  }

  /** The draws of the first k nodes of q rendered one after another, the first at counter value start. */
  function QueueDraws(a: Assets, q: seq<Node>, start: nat, k: nat): seq<DrawCall>
    requires k <= |q|
  {
    if k == 0 then [] else QueueDraws(a, q, start, k - 1) + DrawsOfNode(a, q[k - 1], start + k - 1)
  }

  /** The draws of the nodes ns rendered one after another, the first at counter value start. */
  function DrawsFrom(a: Assets, ns: seq<Node>, start: nat): seq<DrawCall>
  {
    QueueDraws(a, ns, start, |ns|)
  }

  /** A prefix of x + y draws as the same prefix of x. */
  lemma {:induction false} QueueDrawsPrefix(a: Assets, x: seq<Node>, y: seq<Node>, start: nat, i: nat)
    requires i <= |x|
    ensures QueueDraws(a, x + y, start, i) == QueueDraws(a, x, start, i)
  {
    if i > 0 {
      QueueDrawsPrefix(a, x, y, start, i - 1);
      assert (x + y)[i - 1] == x[i - 1];
    }
  }

  /** Past x, the nodes of x + y draw as those of y with the counter advanced by |x|. */
  lemma {:induction false} QueueDrawsSuffix(a: Assets, x: seq<Node>, y: seq<Node>, start: nat, j: nat)
    requires j <= |y|
    ensures QueueDraws(a, x + y, start, |x| + j) == QueueDraws(a, x, start, |x|) + QueueDraws(a, y, start + |x|, j)
  {
    if j == 0 {
      QueueDrawsPrefix(a, x, y, start, |x|);
    } else {
      QueueDrawsSuffix(a, x, y, start, j - 1);
      assert (x + y)[|x| + j - 1] == y[j - 1];
      AppendAssoc(QueueDraws(a, x, start, |x|), QueueDraws(a, y, start + |x|, j - 1),
                  DrawsOfNode(a, y[j - 1], start + |x| + j - 1));
    }
  }

  /** A bucket holds only kept visible nodes, so it is drawable when they all are. */
  lemma BucketDrawable(a: Assets, visible: seq<Node>, d: RenderQueue)
    requires forall n :: n in visible && Kept(a.materials, n) ==> Drawable(a, n)
    ensures AllDrawable(a, Bucket(a.materials, visible, d))
  {
    FilterMembers(visible, IsInBucket(a.materials, d));
    var b := Bucket(a.materials, visible, d);
    assert forall i :: 0 <= i < |b| ==> b[i] in b;
  }

  /** Rendering x + y draws x's nodes and then y's, the counter running on. */
  lemma DrawsFromAppend(a: Assets, x: seq<Node>, y: seq<Node>, start: nat)
    ensures DrawsFrom(a, x + y, start) == DrawsFrom(a, x, start) + DrawsFrom(a, y, start + |x|)
  {
    QueueDrawsSuffix(a, x, y, start, |y|);
  }

  predicate BucketsDrawable(a: Assets, buckets: map<RenderQueue, seq<Node>>)
  {
    forall d :: AllDrawable(a, BucketAt(buckets, d))
  }



  /**
   * The drawing half of render() on values: every domain's bucket in draw
   * order, the counter starting at 0; afterwards every domain is a key.
   */
  method DrawSorted(a: Assets, visible: seq<Node>, buckets: map<RenderQueue, seq<Node>>)
    returns (rendered: seq<Node>, draws: seq<DrawCall>, after: map<RenderQueue, seq<Node>>)
    requires AssetsValid(a)
    requires forall n :: n in visible && Kept(a.materials, n) ==> Drawable(a, n)
    requires forall d :: BucketAt(buckets, d) == Bucket(a.materials, visible, d)
    ensures rendered == DrawSequence(BucketsOf(a.materials, visible))
    ensures draws == DrawsFrom(a, rendered, 0)
    ensures forall d :: d in after && BucketAt(after, d) == Bucket(a.materials, visible, d)
  {
    forall d ensures AllDrawable(a, BucketAt(buckets, d)) {
      BucketDrawable(a, visible, d);
    }
    rendered, draws := DrawAllBuckets(a, buckets, 0);
    BucketsOfMatch(a.materials, visible);
    DrawnBucketsAlike(buckets, BucketsOf(a.materials, visible), |DrawOrder|);
    after := WithAllDomains(buckets);
  }

  /**
   * renderNode on values: at the first node of every 1024-node block the node
   * and material ranges are rebound, then every geometry is drawn.
   */
  method DrawNode(a: Assets, n: Node, counter: nat) returns (rebind: Option<Rebind>, draws: seq<DrawCall>)
    requires AssetsValid(a) && Drawable(a, n)
    ensures rebind.Some? <==> counter % 1024 == 0
    ensures rebind.Some? ==>
      rebind.value.nodeRange == RangeBinding(a.ubo.nodeOffset + (counter / 1024) * 65536, a.ubo.nodeSizeAlign)
      && rebind.value.materialRange == RangeBinding(a.ubo.materialOffset, a.ubo.materialAlignSize)
    ensures draws == NodeDraws(a, n, counter, |n.geometryObjectIndex|)
    ensures draws == DrawsOfNode(a, n, counter)
  {
    rebind := None;
    if counter % a.ubo.maxNodePerBinding == 0 {
      var block := counter / a.ubo.maxNodePerBinding;
      rebind := Some(Rebind(RangeBinding(a.ubo.nodeOffset + block * 65536, a.ubo.nodeSizeAlign),
                            RangeBinding(a.ubo.materialOffset, a.ubo.materialAlignSize)));
    }
    draws := [];
    var g := 0;
    while g < |n.geometryObjectIndex|
      invariant 0 <= g <= |n.geometryObjectIndex|
      invariant draws == NodeDraws(a, n, counter, g)
    {
      draws := draws + [DrawOf(a, n, g, counter)];
      g := g + 1;
    }
  }

  /** The inner loop of render() on values: every node of one bucket through renderNode, the counter running on. */
  method DrawQueue(a: Assets, nodeQueue: seq<Node>, start: nat) returns (draws: seq<DrawCall>)
    requires AssetsValid(a) && AllDrawable(a, nodeQueue)
    ensures draws == DrawsFrom(a, nodeQueue, start)
  {
    draws := [];
    var k := 0;
    while k < |nodeQueue|
      invariant 0 <= k <= |nodeQueue|
      invariant draws == QueueDraws(a, nodeQueue, start, k)
    {
      var node := nodeQueue[k];
      ghost var next := QueueDraws(a, nodeQueue, start, k + 1);
      assert next == draws + DrawsOfNode(a, node, start + k);
      var rebind, nodeDraws := DrawNode(a, node, start + k);
      draws := draws + nodeDraws;
      k := k + 1;
      assert draws == next;
    }
  }

  /** One round of render()'s outer loop: the bucket of the o-th domain in draw order through the inner loop. */
  method DrawNextBucket(a: Assets, buckets: map<RenderQueue, seq<Node>>, start: nat, o: nat,
                        rendered: seq<Node>, draws: seq<DrawCall>)
    returns (rendered': seq<Node>, draws': seq<DrawCall>)
    requires AssetsValid(a) && BucketsDrawable(a, buckets) && o < |DrawOrder|
    requires rendered == DrawnBuckets(buckets, o) && draws == DrawsFrom(a, rendered, start)
    ensures rendered' == DrawnBuckets(buckets, o + 1) && draws' == DrawsFrom(a, rendered', start)
  {
    var nodeQueue := BucketAt(buckets, DrawOrder[o]);
    var bucketDraws := DrawQueue(a, nodeQueue, start + |rendered|);
    draws' := draws + bucketDraws;
    rendered' := rendered + nodeQueue;
    DrawsFromAppend(a, rendered, nodeQueue, start);
  }

  /** The outer loop of render() on values: the buckets in draw order, each through the inner loop. */
  method DrawAllBuckets(a: Assets, buckets: map<RenderQueue, seq<Node>>, start: nat)
    returns (rendered: seq<Node>, draws: seq<DrawCall>)
    requires AssetsValid(a) && BucketsDrawable(a, buckets)
    ensures rendered == DrawSequence(buckets)
    ensures draws == DrawsFrom(a, rendered, start)
  {
    rendered := [];
    draws := [];
    var o := 0;
    while o < |DrawOrder|
      invariant 0 <= o <= |DrawOrder|
      invariant rendered == DrawnBuckets(buckets, o)
      invariant draws == DrawsFrom(a, rendered, start)
    {
      rendered, draws := DrawNextBucket(a, buckets, start, o, rendered, draws);
      o := o + 1;
    }
  }

  /** The material record updateBuffers writes: colours, specular colour with shininess as fourth component, clipping. */
  function MaterialRecord(m: Material): (r: MaterialData)
    ensures r.ambientColor == m.ambient && r.diffuseColor == m.diffuse
    ensures r.specularRoughness == Color(m.specular.r, m.specular.g, m.specular.b, m.shininess)
    ensures r.emission == m.emission && r.transparency == m.transparent && r.clip0 == m.clipping
  {
    MaterialData(m.ambient, m.diffuse, Color(m.specular.r, m.specular.g, m.specular.b, m.shininess),
                 m.emission, m.transparent, m.clipping)
  }

  /** The ranges updateBuffers flushes: common block, the written node and material records, the light block. */
  function Flushes(ubo: UboLayout, sizes: StructSizes, nodeCount: nat, materialCount: nat): (r: seq<RangeBinding>)
    ensures |r| == 4
    ensures r[0] == RangeBinding(ubo.commonOffset, ubo.commonSizeAlign)
    ensures r[1] == RangeBinding(ubo.nodeOffset, nodeCount * sizes.node)
    ensures r[2] == RangeBinding(ubo.materialOffset, materialCount * sizes.material)
    ensures r[3] == RangeBinding(ubo.lightOffset, ubo.lightAlignSize)
  {
    [RangeBinding(ubo.commonOffset, ubo.commonSizeAlign), RangeBinding(ubo.nodeOffset, nodeCount * sizes.node),
     RangeBinding(ubo.materialOffset, materialCount * sizes.material), RangeBinding(ubo.lightOffset, ubo.lightAlignSize)]
  }

  /**
   * The node loop of updateBuffers: record k takes the world transform of the
   * k-th node of q. Records past the region's capacity have no place in it;
   * overrun says that q held more nodes than the region has records.
   */
  method UploadTransforms(stage: array<seq<real>>, q: seq<Node>) returns (overrun: bool)
    modifies stage
    ensures overrun <==> |q| > stage.Length
    ensures forall k :: 0 <= k < |q| && k < stage.Length ==> stage[k] == q[k].modelGlobalTransform
    ensures forall k :: |q| <= k < stage.Length ==> stage[k] == old(stage[k])
  {
    var i := 0;
    while i < |q| && i < stage.Length
      invariant 0 <= i <= |q| && i <= stage.Length
      invariant forall k :: 0 <= k < i ==> stage[k] == q[k].modelGlobalTransform
      invariant forall k :: i <= k < stage.Length ==> stage[k] == old(stage[k])
    {
      stage[i] := q[i].modelGlobalTransform;
      i := i + 1;
    }
    overrun := i < |q|;
  }

  /**
   * The material loop of updateBuffers: record k takes the colours of
   * material k; overrun says that there were more materials than records.
   */
  method UploadMaterials(stage: array<MaterialData>, materials: seq<Material>) returns (overrun: bool)
    modifies stage
    ensures overrun <==> |materials| > stage.Length
    ensures forall k :: 0 <= k < |materials| && k < stage.Length ==> stage[k] == MaterialRecord(materials[k])
    ensures forall k :: |materials| <= k < stage.Length ==> stage[k] == old(stage[k])
  {
    var i := 0;
    while i < |materials| && i < stage.Length
      invariant 0 <= i <= |materials| && i <= stage.Length
      invariant forall k :: 0 <= k < i ==> stage[k] == MaterialRecord(materials[k])
      invariant forall k :: i <= k < stage.Length ==> stage[k] == old(stage[k])
    {
      stage[i] := MaterialRecord(materials[i]);
      i := i + 1;
    }
    overrun := i < |materials|;
  }

  /** A material of the Geometry domain: opaque, no clipping, no mask texture, filled. */
  const OpaqueMaterial := Material(
    Color(0.0, 0.0, 0.0, 1.0), Color(1.0, 1.0, 1.0, 1.0), Color(0.0, 0.0, 0.0, 1.0),
    Color(0.0, 0.0, 0.0, 1.0), Color(0.0, 0.0, 0.0, 1.0),
    0.0, 1.0, 1.0, TextureIndices(-1, -1, -1, -1, -1, -1, -1, -1, -1), -1, false, false)

  const NodeA := Node("a", [0], [0], [1.0], Bound(Vec3(0.0, 0.0, 0.0), Vec3(1.0, 1.0, 1.0)))
  const NodeB := Node("b", [0], [0], [2.0], Bound(Vec3(0.0, 0.0, 0.0), Vec3(1.0, 1.0, 1.0)))

  /**
   * Two visible nodes of the Geometry domain, A then B: the render deque that
   * updateBuffers uploads from holds B first, while render() draws A first.
   * So draw 0 (node A) reads node record 0, which holds B's transform.
   */
  lemma UploadOrderMismatch()
    ensures DequeOf([OpaqueMaterial], [NodeA, NodeB]) == [NodeB, NodeA]
    ensures DrawSequence(BucketsOf([OpaqueMaterial], [NodeA, NodeB])) == [NodeA, NodeB]
    ensures NodeA.modelGlobalTransform != NodeB.modelGlobalTransform
  {
    var mats, visible := [OpaqueMaterial], [NodeA, NodeB];
    assert GetQueueDomain(OpaqueMaterial) == Geometry;
    assert Prepended(mats, NodeA) && Prepended(mats, NodeB);
    assert !Appended(mats, NodeA) && !Appended(mats, NodeB);
    FilterPair(NodeA, NodeB, IsPrepended(mats));
    FilterPair(NodeA, NodeB, IsAppended(mats));
    assert Filter(visible, IsPrepended(mats)) == [NodeA, NodeB];
    assert Filter(visible, IsAppended(mats)) == [];
    ReversePair(NodeA, NodeB);
    GeometryBuckets(mats, visible);
    DrawnGeometryOnly(BucketsOf(mats, visible), visible);
  }

  /** With both nodes in the Geometry domain, only the Geometry bucket is filled. */
  lemma GeometryBuckets(mats: seq<Material>, visible: seq<Node>)
    requires mats == [OpaqueMaterial] && visible == [NodeA, NodeB]
    ensures forall d :: BucketAt(BucketsOf(mats, visible), d) == if d == Geometry then visible else []
  {
    assert GetQueueDomain(OpaqueMaterial) == Geometry;
    BucketsOfMatch(mats, visible);
    forall d ensures Bucket(mats, visible, d) == if d == Geometry then visible else [] {
      FilterPair(NodeA, NodeB, IsInBucket(mats, d));
    }
  }

  /** A map holding only a Geometry bucket draws exactly that bucket. */
  lemma DrawnGeometryOnly(buckets: map<RenderQueue, seq<Node>>, q: seq<Node>)
    requires forall d :: BucketAt(buckets, d) == if d == Geometry then q else []
    ensures DrawSequence(buckets) == q
  {
    assert DrawnBuckets(buckets, 1) == [];
    assert DrawnBuckets(buckets, 2) == q;
    assert DrawnBuckets(buckets, 3) == q;
    assert DrawnBuckets(buckets, 4) == q;
    assert DrawnBuckets(buckets, 5) == q;
  }


  /**
   * With the transforms uploaded in draw order, the draw at position p reads
   * its own node's transform: record p holds it, and the node range bound for
   * p's block with slot p % 1024 addresses record p.
   */
  lemma DrawReadsOwnTransform(stage: seq<seq<real>>, q: seq<Node>, nodeOffset: nat, p: nat)
    requires forall k :: 0 <= k < |q| && k < |stage| ==> stage[k] == q[k].modelGlobalTransform
    requires p < |q| <= |stage|
    ensures NodeRecordAddress(nodeOffset, p) == nodeOffset + p * 64
    ensures stage[(NodeRecordAddress(nodeOffset, p) - nodeOffset) / 64] == q[p].modelGlobalTransform
  {
    NodeRecordAddressIsStageIndex(nodeOffset, p);
    assert (p * 64) / 64 == p;
  }

  class Scene {
    var nodes: seq<Node>
    var refGeometry: seq<MeshObject>
    var refTexture: seq<TextureAsset>
    var materials: seq<Material>
    var defaultTextures: seq<nat>
    var samplers: seq<nat>
    var frustumCulling: bool
    var visibleNodes: seq<Node>
    var renderQueue: seq<Node>
    var renderBucketQueue: map<RenderQueue, seq<Node>>
    var currentNodeIndex: nat
    var ubo: UboLayout
    var sizes: StructSizes
    /** The mapped node and material regions, one record per entry. */
    var stageNodeData: array<seq<real>>
    var stageMaterialData: array<MaterialData>

    /** The loaded assets renderNode reads. */
    function Loaded(): Assets
      reads this`materials, this`refGeometry, this`refTexture, this`defaultTextures, this`samplers, this`ubo
    {
      Assets(materials, refGeometry, refTexture, defaultTextures, samplers, ubo)
    }

    predicate Valid()
      reads this`materials, this`refGeometry, this`refTexture, this`defaultTextures, this`samplers, this`ubo
    {
      AssetsValid(Loaded())
    }

    /**
     * Scene construction and loading: default textures (white for every slot
     * except normal and displacement), one sampler per slot, the uniform
     * layout, and the importer's nodes, meshes, textures and materials; the
     * culling switch starts as given.
     */
    constructor (white: nat, black: nat, normalForward: nat, samplerNames: seq<nat>,
                 minAlignment: nat, structSizes: StructSizes, nrUniformBuffer: nat,
                 importedNodes: seq<Node>, geometry: seq<MeshObject>,
                 textures: seq<TextureAsset>, importedMaterials: seq<Material>, cullingEnabled: bool)
      requires |samplerNames| == TextureTypeCount
      requires minAlignment > 0
      ensures Valid()
      ensures defaultTextures[TextureUnit(Diffuse)] == white
      ensures forall t :: t != Normal && t != Displacement ==> defaultTextures[TextureUnit(t)] == white
      ensures defaultTextures[TextureUnit(Displacement)] == black
      ensures defaultTextures[TextureUnit(Normal)] == normalForward
      ensures samplers == samplerNames
      ensures ubo == ComputeUboLayout(minAlignment, structSizes, nrUniformBuffer)
      ensures nodes == importedNodes && refGeometry == geometry
      ensures refTexture == textures && materials == importedMaterials
      ensures visibleNodes == [] && renderQueue == [] && renderBucketQueue == map[]
      ensures currentNodeIndex == 0 && frustumCulling == cullingEnabled
      ensures stageNodeData.Length == 4096 * nrUniformBuffer
      ensures stageMaterialData.Length == 4096 * nrUniformBuffer
      ensures fresh(stageNodeData) && fresh(stageMaterialData)
    {
      // Indexed by TextureUnit: Diffuse, Normal, AlphaMask, Emission, AmbientOcclusion,
      // Displacement, Specular, Irradiance, DepthBuffer.
      defaultTextures := [white, normalForward, white, white, white, black, white, white, white];
      samplers := samplerNames;
      ubo := ComputeUboLayout(minAlignment, structSizes, nrUniformBuffer);
      sizes := structSizes;
      nodes := importedNodes;
      refGeometry := geometry;
      refTexture := textures;
      materials := importedMaterials;
      frustumCulling := cullingEnabled;
      visibleNodes := [];
      renderQueue := [];
      renderBucketQueue := map[];
      currentNodeIndex := 0;
      stageNodeData := new seq<real>[4096 * nrUniformBuffer];
      stageMaterialData := new MaterialData[4096 * nrUniformBuffer](_ => MaterialData(
        Color(0.0, 0.0, 0.0, 0.0), Color(0.0, 0.0, 0.0, 0.0), Color(0.0, 0.0, 0.0, 0.0),
        Color(0.0, 0.0, 0.0, 0.0), Color(0.0, 0.0, 0.0, 0.0), 0.0));
    }

    /**
     * renderNode: at the first node of every 1024-node block the node and
     * material ranges are rebound, then every geometry is drawn, and the node
     * counter advances by one.
     */
    method RenderNode(n: Node) returns (rebind: Option<Rebind>, draws: seq<DrawCall>)
      requires Valid() && Drawable(Loaded(), n)
      modifies this`currentNodeIndex
      ensures Loaded() == old(Loaded())
      ensures currentNodeIndex == old(currentNodeIndex) + 1
      ensures rebind.Some? <==> old(currentNodeIndex) % 1024 == 0
      ensures rebind.Some? ==>
        rebind.value.nodeRange ==
          RangeBinding(ubo.nodeOffset + (old(currentNodeIndex) / 1024) * 65536, ubo.nodeSizeAlign)
        && rebind.value.materialRange == RangeBinding(ubo.materialOffset, ubo.materialAlignSize)
      ensures draws == NodeDraws(Loaded(), n, old(currentNodeIndex), |n.geometryObjectIndex|)
    {
      rebind, draws := DrawNode(Loaded(), n, currentNodeIndex);
      currentNodeIndex := currentNodeIndex + 1;
    }

    /**
     * culling: with culling on and a frustum, the nodes with a geometry whose
     * world box the frustum reports In, in node order and at most once each;
     * otherwise every node.
     */
    method Culling<P>(frustum: Option<F.Frustum<P>>, worldAabb: Node -> F.Aabb<Vec3>,
                      testPlanesAabb: (P, F.Aabb<Vec3>) -> bool)
      requires frustum.Some? ==> F.Valid(frustum.value)
      modifies this`visibleNodes
      ensures !(frustumCulling && frustum.Some?) ==> visibleNodes == nodes
      ensures frustumCulling && frustum.Some? ==>
        visibleNodes == Filter(nodes, IsInFrustum(frustum.value, worldAabb, testPlanesAabb))
    {
      if frustumCulling && frustum.Some? {
        visibleNodes := CullNodes(frustum.value, nodes, worldAabb, testPlanesAabb);
      } else {
        visibleNodes := nodes;
      }
    }

    /**
     * sortRenderQueue: both queues are rebuilt from the visible nodes. A
     * node without materials or whose first material index is out of range is
     * skipped; every other node is appended to the bucket of its domain, and
     * pushed to the back of the deque when its domain is Transparent or later,
     * to the front otherwise. The Transparent bucket always exists afterwards.
     */
    method SortRenderQueue()
      modifies this`renderQueue, this`renderBucketQueue
      ensures renderQueue == DequeOf(materials, visibleNodes)
      ensures forall d :: BucketAt(renderBucketQueue, d) == Bucket(materials, visibleNodes, d)
      ensures forall d :: d in renderBucketQueue <==> d == Transparent || Bucket(materials, visibleNodes, d) != []
    {
      var queue, buckets := SortVisible(materials, visibleNodes);
      renderQueue := queue;
      renderBucketQueue := buckets[Transparent := BucketAt(buckets, Transparent)];
    }

    /**
     * render(): the counter restarts at 0, the queues are rebuilt, and every
     * bucket is drawn in draw order, each node through renderNode; reading
     * renderBucketQueue[d] for every domain leaves every domain a key.
     */
    method Render() returns (rendered: seq<Node>, draws: seq<DrawCall>)
      requires Valid()
      requires forall n :: n in visibleNodes && Kept(materials, n) ==> Drawable(Loaded(), n)
      modifies this`currentNodeIndex, this`renderQueue, this`renderBucketQueue
      ensures renderQueue == DequeOf(materials, visibleNodes)
      ensures forall d :: d in renderBucketQueue && BucketAt(renderBucketQueue, d) == Bucket(materials, visibleNodes, d)
      ensures rendered == DrawSequence(BucketsOf(materials, visibleNodes))
      ensures draws == DrawsFrom(Loaded(), rendered, 0)
      ensures currentNodeIndex == |rendered|
    {
      currentNodeIndex := 0;
      SortRenderQueue();
      var after;
      rendered, draws, after := DrawSorted(Loaded(), visibleNodes, renderBucketQueue);
      currentNodeIndex := |rendered|;
      renderBucketQueue := after;
    }

    /** render(camera): culling against the camera's frustum, then render(). */
    method RenderWithCamera<P>(frustum: Option<F.Frustum<P>>, worldAabb: Node -> F.Aabb<Vec3>,
                               testPlanesAabb: (P, F.Aabb<Vec3>) -> bool)
      returns (rendered: seq<Node>, draws: seq<DrawCall>)
      requires Valid()
      requires frustum.Some? ==> F.Valid(frustum.value)
      requires forall n :: n in nodes && Kept(materials, n) ==> Drawable(Loaded(), n)
      modifies this`visibleNodes, this`currentNodeIndex, this`renderQueue, this`renderBucketQueue
      ensures visibleNodes == if frustumCulling && frustum.Some?
        then Filter(nodes, IsInFrustum(frustum.value, worldAabb, testPlanesAabb)) else nodes
      ensures renderQueue == DequeOf(materials, visibleNodes)
      ensures rendered == DrawSequence(BucketsOf(materials, visibleNodes))
      ensures draws == DrawsFrom(Loaded(), rendered, 0)
    {
      Culling(frustum, worldAabb, testPlanesAabb);
      if frustumCulling && frustum.Some? {
        FilterMembers(nodes, IsInFrustum(frustum.value, worldAabb, testPlanesAabb));
      }
      rendered, draws := Render();
    }

    /**
     * updateBuffers: the world transform of the i-th node of the render deque
     * goes to node record i, the i-th material's colours to material record i,
     * and the common, node, material and light ranges are flushed, the node and
     * material ranges sized by every node and material visited. A deque or a
     * material list longer than its region sets overrun; only the records that
     * fit are written.
     */
    method UpdateBuffers() returns (flushes: seq<RangeBinding>, overrun: bool)
      modifies stageNodeData, stageMaterialData
      ensures overrun <==> |renderQueue| > stageNodeData.Length || |materials| > stageMaterialData.Length
      ensures forall k :: 0 <= k < |renderQueue| && k < stageNodeData.Length ==>
        stageNodeData[k] == renderQueue[k].modelGlobalTransform
      ensures forall k :: |renderQueue| <= k < stageNodeData.Length ==> stageNodeData[k] == old(stageNodeData[k])
      ensures forall k :: 0 <= k < |materials| && k < stageMaterialData.Length ==>
        stageMaterialData[k] == MaterialRecord(materials[k])
      ensures forall k :: |materials| <= k < stageMaterialData.Length ==>
        stageMaterialData[k] == old(stageMaterialData[k])
      ensures flushes == Flushes(ubo, sizes, |renderQueue|, |materials|)
    {
      var nodesOverrun := UploadTransforms(stageNodeData, renderQueue);
      var materialsOverrun := UploadMaterials(stageMaterialData, materials);
      flushes := Flushes(ubo, sizes, |renderQueue|, |materials|);
      overrun := nodesOverrun || materialsOverrun;
    }

    /** updateBuffers with the transforms uploaded in the order render() draws the nodes. */
    method UpdateBuffersInDrawOrder() returns (flushes: seq<RangeBinding>, overrun: bool)
      modifies stageNodeData, stageMaterialData
      ensures var q := DrawSequence(renderBucketQueue);
        && (overrun <==> |q| > stageNodeData.Length || |materials| > stageMaterialData.Length)
        && (forall k :: 0 <= k < |q| && k < stageNodeData.Length ==> stageNodeData[k] == q[k].modelGlobalTransform)
        && (forall k :: |q| <= k < stageNodeData.Length ==> stageNodeData[k] == old(stageNodeData[k]))
      ensures forall k :: 0 <= k < |materials| && k < stageMaterialData.Length ==>
        stageMaterialData[k] == MaterialRecord(materials[k])
      ensures forall k :: |materials| <= k < stageMaterialData.Length ==>
        stageMaterialData[k] == old(stageMaterialData[k])
      ensures flushes == Flushes(ubo, sizes, |DrawSequence(renderBucketQueue)|, |materials|)
    {
      var q := DrawSequence(renderBucketQueue);
      var nodesOverrun := UploadTransforms(stageNodeData, q);
      var materialsOverrun := UploadMaterials(stageMaterialData, materials);
      flushes := Flushes(ubo, sizes, |q|, |materials|);
      overrun := nodesOverrun || materialsOverrun;
    }
  }
}
