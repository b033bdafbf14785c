// The marching-cube sample: a 32 x 8 x 32 grid of chunks that all share one
// mesh, each chunk owning a fixed range of the shared vertex storage buffer,
// regenerated by one compute dispatch per chunk whenever a setting changed.

module MarchingCube {
  import opened GLTypes
  import C = Common

  /** Chunks along x, y and z. */
  const ChunksX: nat := 16 * 2
  const ChunksY: nat := 8
  const ChunksZ: nat := 16 * 2
  const MaxPointsPerVoxel: nat := 15
  /** A cell record: position, scale, normal and size, eight floats. */
  const CellDataSize: nat := 32

  /** The number of chunks, product(maxWorldChunkSize). */
  function NrChunks(): nat
  {
    ChunksX * ChunksY * ChunksZ
  }

  /** A chunk: whether it points to the shared mesh, and its grid position. */
  datatype Chunk = Chunk(sharesMesh: bool, x: nat, y: nat, z: nat)

  /** The slot of the chunk at (x, y, z): z varies fastest, then y, then x. */
  function ChunkIndex(x: nat, y: nat, z: nat): nat
  {
    x * (ChunksY * ChunksZ) + y * ChunksZ + z
  }

  /** The chunk the construction loop leaves in slot k. */
  function ChunkAt(k: nat): Chunk
  {
    Chunk(true, k / (ChunksY * ChunksZ), (k / ChunksZ) % ChunksY, k % ChunksZ)
  }

  /**
   * Grid positions and slots correspond one to one: the slot of a position
   * in the grid is below 8192 and holds that position.
   */
  lemma ChunkIndexInverse(x: nat, y: nat, z: nat)
    requires x < ChunksX && y < ChunksY && z < ChunksZ
    ensures ChunkIndex(x, y, z) < NrChunks()
    ensures ChunkAt(ChunkIndex(x, y, z)) == Chunk(true, x, y, z)
  {
    var k := ChunkIndex(x, y, z);
    assert k == x * 256 + y * 32 + z;
    DivUnique(k, 256, x, y * 32 + z);
    DivUnique(k, 32, x * 8 + y, z);
    DivUnique(x * 8 + y, 8, x, y);
  }

  /** There are 32 * 8 * 32 = 8192 chunks. */
  lemma ChunkCount()
    ensures NrChunks() == 8192
  {
  }

  /** Two different positions never share a slot. */
  lemma ChunkIndexInjective(x: nat, y: nat, z: nat, x': nat, y': nat, z': nat)
    requires x < ChunksX && y < ChunksY && z < ChunksZ
    requires x' < ChunksX && y' < ChunksY && z' < ChunksZ
    requires ChunkIndex(x, y, z) == ChunkIndex(x', y', z')
    ensures x == x' && y == y' && z == z'
  {
    ChunkIndexInverse(x, y, z);
    ChunkIndexInverse(x', y', z');
  }

  /** The innermost loop: the chunks of one (x, y) column, z from 0 to 31. */
  method FillColumn(chunks: array<Chunk>, x: nat, y: nat, start: nat) returns (next: nat)
    requires x < ChunksX && y < ChunksY && start == ChunkIndex(x, y, 0)
    requires chunks.Length == NrChunks()
    requires forall k :: 0 <= k < start ==> chunks[k] == ChunkAt(k)
    modifies chunks
    ensures next == start + ChunksZ
    ensures forall k :: 0 <= k < next ==> chunks[k] == ChunkAt(k)
  {
    var chunkIndex := start;
    var z := 0;
    while z < ChunksZ
      invariant 0 <= z <= ChunksZ && chunkIndex == ChunkIndex(x, y, z)
      invariant forall k :: 0 <= k < chunkIndex ==> chunks[k] == ChunkAt(k)
    {
      ChunkIndexInverse(x, y, z);
      chunks[chunkIndex] := Chunk(true, x, y, z);
      chunkIndex := chunkIndex + 1;
      z := z + 1;
    }
    next := chunkIndex;
  }

  /**
   * The chunk construction of Initialize: `chunks` is resized to the grid's
   * product and the triple loop, with one running slot counter, sets every
   * slot to the shared mesh and its position.
   */
  method BuildChunks() returns (chunks: array<Chunk>)
    ensures fresh(chunks) && chunks.Length == NrChunks()
    ensures forall k :: 0 <= k < chunks.Length ==> chunks[k] == ChunkAt(k)
  {
    chunks := new Chunk[NrChunks()](_ => Chunk(false, 0, 0, 0));
    var chunkIndex := 0;
    var x := 0;
    while x < ChunksX
      invariant 0 <= x <= ChunksX && chunkIndex == ChunkIndex(x, 0, 0)
      invariant forall k :: 0 <= k < chunkIndex ==> chunks[k] == ChunkAt(k)
    {
      var y := 0;
      while y < ChunksY
        invariant 0 <= y <= ChunksY && chunkIndex == ChunkIndex(x, y, 0)
        invariant forall k :: 0 <= k < chunkIndex ==> chunks[k] == ChunkAt(k)
      {
        chunkIndex := FillColumn(chunks, x, y, chunkIndex);
        y := y + 1;
      }
      x := x + 1;
    }
  }

  // ------------------------------------------------------ buffer layout

  /** Vertices a chunk may emit: 15 per invocation of one work group. */
  function ChunkVertices(localWorkGroupSize: seq<nat>): nat
    requires |localWorkGroupSize| == 3
  {
    MaxPointsPerVoxel * (localWorkGroupSize[0] * localWorkGroupSize[1] * localWorkGroupSize[2])
  }

  /** Bytes of one chunk's range of the vertex buffer. */
  function ChunkSize(localWorkGroupSize: seq<nat>): nat
    requires |localWorkGroupSize| == 3
  {
    ChunkVertices(localWorkGroupSize) * CellDataSize
  }

  /** The whole buffer: every chunk's range, rounded up to the storage-buffer offset alignment. */
  function TotalSize(chunkSize: nat, ssboAlign: nat): (r: nat)
    requires ssboAlign > 0
    ensures chunkSize * NrChunks() <= r < chunkSize * NrChunks() + ssboAlign
  {
    Align(chunkSize * NrChunks(), ssboAlign)
  }

  /**
   * Chunk k's range [k * size, (k + 1) * size) lies inside the buffer, and
   * the ranges of two different chunks do not overlap.
   */
  lemma ChunkRanges(chunkSize: nat, ssboAlign: nat, j: nat, k: nat)
    requires ssboAlign > 0 && j < k < NrChunks()
    ensures k * chunkSize + chunkSize <= TotalSize(chunkSize, ssboAlign)
    ensures j * chunkSize + chunkSize <= k * chunkSize
  {
    C.SlotStartFormula(0, chunkSize, j);
    C.SlotStartFormula(0, chunkSize, k);
    C.SlotStartFormula(0, chunkSize, NrChunks());
    C.SlotsOrdered(0, chunkSize, j, k);
    if k + 1 < NrChunks() {
      C.SlotsOrdered(0, chunkSize, k, NrChunks());
    } else {
      C.SlotStartFormula(0, chunkSize, k + 1);
    }
    assert NrChunks() * chunkSize == chunkSize * NrChunks();
  }

  // ----------------------------------------------------------- the sample

  /** One regeneration dispatch: the chunk's position offset and its bound storage range. */
  datatype ChunkDispatch = ChunkDispatch(x: nat, y: nat, z: nat, rangeOffset: nat, rangeSize: nat)

  /** The dispatches of a regeneration: one per chunk, in slot order, each over its own range. */
  function Regeneration(chunks: seq<Chunk>, chunkSize: nat): (r: seq<ChunkDispatch>)
    ensures |r| == |chunks|
  {
    if chunks == [] then []
    else
      var k := |chunks| - 1;
      Regeneration(chunks[..k], chunkSize)
        + [ChunkDispatch(chunks[k].x, chunks[k].y, chunks[k].z, k * chunkSize, chunkSize)]
  }

  lemma {:induction false} RegenerationAt(chunks: seq<Chunk>, chunkSize: nat, k: nat)
    requires k < |chunks|
    ensures Regeneration(chunks, chunkSize)[k]
         == ChunkDispatch(chunks[k].x, chunks[k].y, chunks[k].z, k * chunkSize, chunkSize)
  {
    var n := |chunks| - 1;
    if k < n {
      RegenerationAt(chunks[..n], chunkSize, k);
    }
  }

  /**
   * A regeneration binds each chunk's range at k times the range size: the
   * ranges of two chunks are disjoint and all lie inside the buffer.
   */
  lemma RegenerationRanges(chunks: seq<Chunk>, chunkSize: nat, ssboAlign: nat, j: nat, k: nat)
    requires ssboAlign > 0 && |chunks| == NrChunks() && j < k < |chunks|
    ensures var ds := Regeneration(chunks, chunkSize);
      && ds[j].rangeOffset + ds[j].rangeSize <= ds[k].rangeOffset
      && ds[k].rangeOffset + ds[k].rangeSize <= TotalSize(chunkSize, ssboAlign)
  {
    RegenerationAt(chunks, chunkSize, j);
    RegenerationAt(chunks, chunkSize, k);
    ChunkRanges(chunkSize, ssboAlign, j, k);
  }

  /** What one draw does: its regeneration dispatches and the vertex count of the single draw. */
  datatype DrawResult = DrawResult(dispatches: seq<ChunkDispatch>, drawCount: nat)

  class MarchingCube {
    var chunks: seq<Chunk>
    var needUpdate: bool
    var marchingCubeSize: nat
    var marchingTotalCubeSize: nat
    var nrVertices: nat

    /**
     * Initialize: the chunk grid, the per-chunk vertex capacity and range
     * size, and the aligned total; a new sample needs a first regeneration.
     */
    constructor (localWorkGroupSize: seq<nat>, ssboAlign: nat)
      requires |localWorkGroupSize| == 3 && ssboAlign > 0
      ensures |chunks| == NrChunks() && forall k :: 0 <= k < |chunks| ==> chunks[k] == ChunkAt(k)
      ensures needUpdate
      ensures nrVertices == ChunkVertices(localWorkGroupSize)
      ensures marchingCubeSize == ChunkSize(localWorkGroupSize)
      ensures marchingTotalCubeSize == TotalSize(marchingCubeSize, ssboAlign)
    {
      var grid := BuildChunks();
      chunks := grid[..];
      needUpdate := true;
      var vertices := ChunkVertices(localWorkGroupSize);
      nrVertices := vertices;
      marchingCubeSize := vertices * CellDataSize;
      marchingTotalCubeSize := TotalSize(vertices * CellDataSize, ssboAlign);
    }

    /** The settings panel: any edited marching-cube setting requests a regeneration. */
    method EditSettings(positionOffset: bool, randomOffset: bool, threshold: bool, voxelSize: bool,
                        mag: bool, scale: bool)
      modifies this`needUpdate
      ensures needUpdate == (old(needUpdate) || positionOffset || randomOffset || threshold || voxelSize || mag || scale)
    {
      if positionOffset {
        needUpdate := true;
      }
      if randomOffset {
        needUpdate := true;
      }
      if threshold {
        needUpdate := true;
      }
      if voxelSize {
        needUpdate := true;
      }
      if mag {
        needUpdate := true;
      }
      if scale {
        needUpdate := true;
      }
    }

    /**
     * draw: when a regeneration is pending, one dispatch per chunk over its
     * own range, then the flag is cleared; always one draw of every chunk's
     * vertices.
     */
    method Draw() returns (r: DrawResult)
      modifies this`needUpdate
      ensures !needUpdate
      ensures r.dispatches == if old(needUpdate) then Regeneration(chunks, marchingCubeSize) else []
      ensures r.drawCount == nrVertices * |chunks|
    {
      var dispatches: seq<ChunkDispatch> := [];
      if needUpdate {
        var chunkIndex := 0;
        while chunkIndex < |chunks|
          invariant 0 <= chunkIndex <= |chunks|
          invariant dispatches == Regeneration(chunks[..chunkIndex], marchingCubeSize)
        {
          var chunk := chunks[chunkIndex];
          assert chunks[..chunkIndex + 1][..chunkIndex] == chunks[..chunkIndex];
          dispatches := dispatches
            + [ChunkDispatch(chunk.x, chunk.y, chunk.z, chunkIndex * marchingCubeSize, marchingCubeSize)];
          chunkIndex := chunkIndex + 1;
        }
        assert chunks[..chunkIndex] == chunks;
        needUpdate := false;
      }
      r := DrawResult(dispatches, nrVertices * |chunks|);
    }
  }
}
