// Chunk identifiers of the voxel world: a triple of 32-bit signed chunk
// coordinates, their equality, a hash in wrapping unsigned 32-bit arithmetic,
// and the mapping from world coordinates to the chunk containing them.

module ChunkID {

  newtype int32 = x: int | -0x8000_0000 <= x < 0x8000_0000

  /** The identifier; the constructor stores its three arguments as they are. */
  datatype ChunkID = ChunkID(X: int32, Y: int32, Z: int32)

  /** operator==: component-wise comparison. */
  function Equals(a: ChunkID, b: ChunkID): (r: bool)
    ensures r <==> a == b
  {
    a.X == b.X && a.Y == b.Y && a.Z == b.Z
  }

  /** operator!=: the negation of operator==. */
  function NotEquals(a: ChunkID, b: ChunkID): (r: bool)
    ensures r <==> !Equals(a, b)
    ensures r <==> a != b
  {
    !(a.X == b.X && a.Y == b.Y && a.Z == b.Z)
  }

  /** The conversion of a signed int to unsigned int: the value modulo 2^32. */
  function ToUnsigned(v: int32): bv32
  {
    if v >= 0 then (v as int) as bv32 else (v as int + 0x1_0000_0000) as bv32
  }

  /** One step of the hash: multiply by 397 (wrapping) and xor in the next value. */
  function Mix(h: bv32, v: bv32): bv32
  {
    (h * 397) ^ v
  }

  /** GetHashCode: h = X; h = h * 397 ^ Y; h = h * 397 ^ Z, all on unsigned 32-bit values. */
  function GetHashCode(c: ChunkID): bv32
  {
    Mix(Mix(ToUnsigned(c.X), ToUnsigned(c.Y)), ToUnsigned(c.Z))
  }

  /** Equal identifiers hash alike, and operator== implies equal hash codes. */
  lemma EqualIdsEqualHash(a: ChunkID, b: ChunkID)
    requires Equals(a, b)
    ensures GetHashCode(a) == GetHashCode(b)
  {
  }

  /**
   * For fixed X and Y the final xor separates Z values: identifiers that
   * differ only in the unsigned image of Z never collide.
   */
  lemma HashSeparatesZ(a: ChunkID, b: ChunkID)
    requires a.X == b.X && a.Y == b.Y && ToUnsigned(a.Z) != ToUnsigned(b.Z)
    ensures GetHashCode(a) != GetHashCode(b)
  {
    MixSeparates(Mix(ToUnsigned(a.X), ToUnsigned(a.Y)), ToUnsigned(a.Z), ToUnsigned(b.Z));
  }

  lemma MixSeparates(h: bv32, u: bv32, v: bv32)
    requires u != v
    ensures Mix(h, u) != Mix(h, v)
  {
    var m := h * 397;
    assert u == m ^ (m ^ u);
    assert v == m ^ (m ^ v);
  }

  /** The hash is not injective: (0, 1, 397) and (0, 0, 0) share hash code 0. */
  lemma HashCollides()
    ensures ChunkID(0, 1, 397) != ChunkID(0, 0, 0)
    ensures GetHashCode(ChunkID(0, 1, 397)) == GetHashCode(ChunkID(0, 0, 0)) == 0
  {
    assert ToUnsigned(0) == 0 && ToUnsigned(1) == 1 && ToUnsigned(397) == 397;
  }

  /** v >> 4 on a signed int: an arithmetic shift, which rounds toward minus infinity. */
  function ShiftRight4(v: int32): (r: int32)
    ensures 16 * (r as int) <= v as int < 16 * (r as int) + 16
  {
    ((v as int) / 16) as int32
  }

  /** The chunk containing world position (x, y, z): each coordinate shifted right by four. */
  function FromWorldPos(x: int32, y: int32, z: int32): (c: ChunkID)
    ensures 16 * (c.X as int) <= x as int < 16 * (c.X as int) + 16
    ensures 16 * (c.Y as int) <= y as int < 16 * (c.Y as int) + 16
    ensures 16 * (c.Z as int) <= z as int < 16 * (c.Z as int) + 16
  {
    ChunkID(ShiftRight4(x), ShiftRight4(y), ShiftRight4(z))
  }

  /** The shift is floor division by 16, negative coordinates included. */
  lemma ShiftIsFloorDivision(v: int32, q: int)
    requires 16 * q <= v as int < 16 * q + 16
    ensures ShiftRight4(v) as int == q
  {
  }

  /** All positions of one aligned 16x16x16 block map to that block's identifier. */
  lemma SameBlockSameChunk(cx: int32, cy: int32, cz: int32, x: int32, y: int32, z: int32)
    requires 16 * (cx as int) <= x as int < 16 * (cx as int) + 16
    requires 16 * (cy as int) <= y as int < 16 * (cy as int) + 16
    requires 16 * (cz as int) <= z as int < 16 * (cz as int) + 16
    ensures FromWorldPos(x, y, z) == ChunkID(cx, cy, cz)
  {
    ShiftIsFloorDivision(x, cx as int);
    ShiftIsFloorDivision(y, cy as int);
    ShiftIsFloorDivision(z, cz as int);
  }

  /** World position -1 lies in chunk -1, not in chunk 0 as a truncating division would give. */
  lemma NegativePositionsRoundDown()
    ensures FromWorldPos(-1, -16, -17) == ChunkID(-1, -1, -2)
  {
  }
}
