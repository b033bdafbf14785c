// Shared sample helpers: filling every slot of a round-robin buffer with one
// block of data, and the procedural meshes whose descriptors describe one
// whole generated geometry. The geometry generators belong to a foreign
// library and are parameters here.

module Common {
  import opened GLTypes
  import opened Memory

  /** A generated geometry: its vertices and its triangle-list indices. */
  datatype Geometry<V> = Geometry(vertices: seq<V>, indices: seq<nat>)

  /** The GL names created for a mesh: vertex array, vertex buffer and index buffer. */
  datatype MeshNames = MeshNames(vao: nat, vbo: nat, ibo: nat)

  /**
   * The descriptor after uploading a generated geometry: its names, all of
   * its indices from the buffer's start and its vertices from vertex 0. The
   * primitive type and bounds are not touched.
   */
  function LoadGeometry<V>(mesh: MeshObject, names: MeshNames, g: Geometry<V>): (r: MeshObject)
    ensures r.vao == names.vao && r.vbo == names.vbo && r.ibo == names.ibo
    ensures r.indicesOffset == 0 && r.vertexOffset == 0
    ensures r.nrIndicesElements == |g.indices| && r.nrVertices == |g.vertices|
    ensures r.primitiveType == mesh.primitiveType && r.bound == mesh.bound
  {
    mesh.(vao := names.vao, vbo := names.vbo, ibo := names.ibo,
          nrIndicesElements := |g.indices|, indicesOffset := 0, vertexOffset := 0,
          nrVertices := |g.vertices|)
  }

  /** A second upload leaves nothing of the first one behind. */
  lemma ReloadForgetsPrevious<V>(mesh: MeshObject, n1: MeshNames, g1: Geometry<V>, n2: MeshNames, g2: Geometry<V>)
    ensures LoadGeometry(LoadGeometry(mesh, n1, g1), n2, g2) == LoadGeometry(mesh, n2, g2)
  {
  }

  /** loadPlan: a plane of segmentX by segmentY segments. */
  function LoadPlan<V>(mesh: MeshObject, names: MeshNames, generatePlan: (real, int, int) -> Geometry<V>,
                       scale: real, segmentX: int := 1, segmentY: int := 1): (r: MeshObject)
    ensures r.vao == names.vao && r.vbo == names.vbo && r.ibo == names.ibo
    ensures r.indicesOffset == 0 && r.vertexOffset == 0
    ensures r.nrIndicesElements == |generatePlan(scale, segmentX, segmentY).indices|
    ensures r.nrVertices == |generatePlan(scale, segmentX, segmentY).vertices|
  {
    LoadGeometry(mesh, names, generatePlan(scale, segmentX, segmentY))
  }

  /** loadSphere: a sphere of the given radius, slices and segments. */
  function LoadSphere<V>(mesh: MeshObject, names: MeshNames, generateSphere: (real, int, int) -> Geometry<V>,
                         radius: real := 1.0, slices: int := 8, segments: int := 8): (r: MeshObject)
    ensures r.vao == names.vao && r.vbo == names.vbo && r.ibo == names.ibo
    ensures r.indicesOffset == 0 && r.vertexOffset == 0
    ensures r.nrIndicesElements == |generateSphere(radius, slices, segments).indices|
    ensures r.nrVertices == |generateSphere(radius, slices, segments).vertices|
  {
    LoadGeometry(mesh, names, generateSphere(radius, slices, segments))
  }

  /** loadCube: the generator only takes segmentX; segmentY is ignored. */
  function LoadCube<V>(mesh: MeshObject, names: MeshNames, generateCube: (real, int) -> Geometry<V>,
                       scale: real, segmentX: int := 1, segmentY: int := 1): (r: MeshObject)
    ensures r.vao == names.vao && r.vbo == names.vbo && r.ibo == names.ibo
    ensures r.indicesOffset == 0 && r.vertexOffset == 0
    ensures r.nrIndicesElements == |generateCube(scale, segmentX).indices|
    ensures r.nrVertices == |generateCube(scale, segmentX).vertices|
  {
    LoadGeometry(mesh, names, generateCube(scale, segmentX))
  }

  /** The cube's segmentY argument has no effect on the descriptor. */
  lemma CubeIgnoresSegmentY<V>(mesh: MeshObject, names: MeshNames, generateCube: (real, int) -> Geometry<V>,
                               scale: real, segmentX: int, y1: int, y2: int)
    ensures LoadCube(mesh, names, generateCube, scale, segmentX, y1)
         == LoadCube(mesh, names, generateCube, scale, segmentX, y2)
  {
  }

  /** The first byte of round-robin slot i inside a buffer mapped at offset. */
  function SlotStart(offset: nat, alignSize: nat, i: nat): nat
  {
    if i == 0 then offset else SlotStart(offset, alignSize, i - 1) + alignSize
  }

  /** Slot i starts i * alignSize bytes into the mapped window. */
  lemma {:induction false} SlotStartFormula(offset: nat, alignSize: nat, i: nat)
    ensures SlotStart(offset, alignSize, i) == offset + i * alignSize
  {
    if i > 0 {
      SlotStartFormula(offset, alignSize, i - 1);
      assert i * alignSize == (i - 1) * alignSize + alignSize;
    }
  }

  /** Later slots start at least one slot size further on. */
  lemma {:induction false} SlotsOrdered(offset: nat, alignSize: nat, i: nat, j: nat)
    requires i < j
    ensures SlotStart(offset, alignSize, i) + alignSize <= SlotStart(offset, alignSize, j)
  {
    if i < j - 1 {
      SlotsOrdered(offset, alignSize, i, j - 1);
    }
  }

  /**
   * The mapped window of robin slots (it ends where slot robin would start)
   * fits the buffer, and one block fits a slot.
   */
  predicate FillFits(size: nat, offset: nat, alignSize: nat, robin: nat, blockSize: nat)
  {
    SlotStart(offset, alignSize, robin) <= size && (robin > 0 ==> blockSize <= alignSize)
  }

  /** The buffer after copying src to the start of each of the first robin slots. */
  function Fill(s: seq<bv8>, offset: nat, alignSize: nat, robin: nat, src: seq<bv8>): (r: seq<bv8>)
    requires FillFits(|s|, offset, alignSize, robin, |src|)
    ensures |r| == |s|
  {
    if robin == 0 then s
    else
      Overwrite(Fill(s, offset, alignSize, robin - 1, src), SlotStart(offset, alignSize, robin - 1), src)
  }

  /** Byte k lies inside the copy written to one of the first robin slots. */
  predicate InSomeSlot(k: nat, offset: nat, alignSize: nat, robin: nat, blockSize: nat)
  {
    exists i :: 0 <= i < robin && SlotStart(offset, alignSize, i) <= k < SlotStart(offset, alignSize, i) + blockSize
  }

  /** Every slot holds the block afterwards (the copies do not overlap). */
  lemma {:induction false} FillSlots(s: seq<bv8>, offset: nat, alignSize: nat, robin: nat, src: seq<bv8>, i: nat)
    requires FillFits(|s|, offset, alignSize, robin, |src|)
    requires i < robin
    ensures SlotStart(offset, alignSize, i) + |src| <= |s|
    ensures Fill(s, offset, alignSize, robin, src)[SlotStart(offset, alignSize, i)..SlotStart(offset, alignSize, i) + |src|] == src
  {
    SlotsOrdered(offset, alignSize, robin - 1, robin);
    if i < robin - 1 {
      FillSlots(s, offset, alignSize, robin - 1, src, i);
      FillKeepsEarlierSlot(s, offset, alignSize, robin, src, i);
    }
  }

  /** The last copy of a fill does not touch an earlier slot's block. */
  lemma FillKeepsEarlierSlot(s: seq<bv8>, offset: nat, alignSize: nat, robin: nat, src: seq<bv8>, i: nat)
    requires FillFits(|s|, offset, alignSize, robin, |src|)
    requires i < robin - 1
    requires SlotStart(offset, alignSize, i) + |src| <= |s|
    ensures FillFits(|s|, offset, alignSize, robin - 1, |src|)
    ensures Fill(s, offset, alignSize, robin, src)[SlotStart(offset, alignSize, i)..SlotStart(offset, alignSize, i) + |src|]
         == Fill(s, offset, alignSize, robin - 1, src)[SlotStart(offset, alignSize, i)..SlotStart(offset, alignSize, i) + |src|]
  {
    var start, last := SlotStart(offset, alignSize, i), SlotStart(offset, alignSize, robin - 1);
    SlotsOrdered(offset, alignSize, robin - 1, robin);
    SlotsOrdered(offset, alignSize, i, robin - 1);
    OverwriteElsewhere(Fill(s, offset, alignSize, robin - 1, src), last, src, start, start + |src|);
  }

  /** A byte outside every slot's copy keeps its old value. */
  lemma {:induction false} FillOutside(s: seq<bv8>, offset: nat, alignSize: nat, robin: nat, src: seq<bv8>, k: nat)
    requires FillFits(|s|, offset, alignSize, robin, |src|)
    requires k < |s| && !InSomeSlot(k, offset, alignSize, robin, |src|)
    ensures Fill(s, offset, alignSize, robin, src)[k] == s[k]
  {
    if robin > 0 {
      SlotsOrdered(offset, alignSize, robin - 1, robin);
      assert !InSomeSlot(k, offset, alignSize, robin - 1, |src|);
      FillOutside(s, offset, alignSize, robin - 1, src, k);
      assert !(SlotStart(offset, alignSize, robin - 1) <= k < SlotStart(offset, alignSize, robin - 1) + |src|);
    }
  }

  /** Nothing outside the mapped window [offset, offset + alignSize * robin) is written. */
  lemma FillOutsideWindow(s: seq<bv8>, offset: nat, alignSize: nat, robin: nat, src: seq<bv8>, k: nat)
    requires FillFits(|s|, offset, alignSize, robin, |src|)
    requires k < |s| && (k < offset || offset + alignSize * robin <= k)
    ensures Fill(s, offset, alignSize, robin, src)[k] == s[k]
  {
    SlotStartFormula(offset, alignSize, robin);
    forall i | 0 <= i < robin
      ensures !(SlotStart(offset, alignSize, i) <= k < SlotStart(offset, alignSize, i) + |src|)
    {
      SlotsOrdered(offset, alignSize, i, robin);
      if i > 0 {
        SlotsOrdered(offset, alignSize, 0, i);
      }
    }
    FillOutside(s, offset, alignSize, robin, src, k);
  }

  /**
   * refreshWholeRoundRobinBuffer: maps alignSize * robin bytes at offset and
   * copies the first bufferSize bytes of data to the start of every slot.
   */
  method RefreshWholeRoundRobinBuffer(mapped: array<bv8>, robin: nat, data: seq<bv8>,
                                      alignSize: nat, bufferSize: nat, offset: nat := 0)
    requires bufferSize <= |data|
    requires offset + alignSize * robin <= mapped.Length
    requires robin > 0 ==> bufferSize <= alignSize
    modifies mapped
    ensures FillFits(mapped.Length, offset, alignSize, robin, bufferSize)
    ensures mapped[..] == Fill(old(mapped[..]), offset, alignSize, robin, data[..bufferSize])
  {
    SlotStartFormula(offset, alignSize, robin);
    var src := data[..bufferSize];
    var i := 0;
    while i < robin
      invariant 0 <= i <= robin
      invariant FillFits(mapped.Length, offset, alignSize, i, bufferSize)
      invariant mapped[..] == Fill(old(mapped[..]), offset, alignSize, i, src)
    {
      CopyToSlot(mapped, old(mapped[..]), offset, alignSize, robin, i, src);
      i := i + 1;
    }
  }

  /** One iteration of the copy loop: memcpy of the block to the start of slot i. */
  method CopyToSlot(mapped: array<bv8>, ghost initial: seq<bv8>, offset: nat, alignSize: nat, robin: nat,
                    i: nat, src: seq<bv8>)
    requires i < robin && |initial| == mapped.Length
    requires FillFits(mapped.Length, offset, alignSize, robin, |src|)
    requires FillFits(mapped.Length, offset, alignSize, i, |src|)
    requires mapped[..] == Fill(initial, offset, alignSize, i, src)
    modifies mapped
    ensures FillFits(mapped.Length, offset, alignSize, i + 1, |src|)
    ensures mapped[..] == Fill(initial, offset, alignSize, i + 1, src)
  {
    SlotsOrdered(offset, alignSize, i, robin);
    Memcpy(mapped, SlotStart(offset, alignSize, i), src);
  }
}
