// The vector-field sample: particles advected through a fixed 32 x 32 x 32
// grid of force vectors. The particle storage buffer holds three slots that
// rotate with the frame count (one read, one written by the compute pass),
// and the uniform buffer holds three blocks that rotate the same way.

module VectorField {
  import opened GLTypes
  import M = Memory

  /** Particles per cell of the particle box. */
  const ParticleMultipleCount: nat := 8
  /** Slots of the particle storage buffer. */
  const NrParticleBuffers: nat := 3
  /** Blocks of the uniform buffer. */
  const NrUniformBuffers: nat := 3
  /** sizeof(Particle): a position and a velocity, two vec4. */
  const ParticleSize: nat := 32
  /** sizeof(VectorForce): a position and a force, two vec3. */
  const VectorForceSize: nat := 24
  /** vector_field_dims. */
  const FieldDims: seq<nat> := [32, 32, 32]
  /** The particle box the settings start with. */
  const DefaultParticleBox: seq<nat> := [32, 32, 32]

  datatype Vec4 = Vec4(x: real, y: real, z: real, w: real)

  /** A particle: position and time, velocity and mass. */
  datatype Particle = Particle(position: Vec4, velocity: Vec4)

  /** One cell of the vector field: its grid position and the force there. */
  datatype VectorForce = VectorForce(position: Vec3, force: Vec3)

  // ------------------------------------------------------------- sizes

  /** The number of particles: product(particleBox[0..3]) * 8. */
  function NrParticles(particleBox: seq<nat>): nat
    requires |particleBox| == 3
  {
    particleBox[0] * particleBox[1] * particleBox[2] * ParticleMultipleCount
  }

  /** Bytes of one particle slot: the particles, rounded up to the storage alignment. */
  function ParticleMemorySize(nrParticles: nat, storageAlign: nat): (r: nat)
    requires storageAlign > 0
    ensures nrParticles * ParticleSize <= r < nrParticles * ParticleSize + storageAlign
  {
    Align(nrParticles * ParticleSize, storageAlign)
  }

  /** The number of grid cells. */
  function FieldCells(): nat
  {
    FieldDims[0] * FieldDims[1] * FieldDims[2]
  }

  /** Bytes of the vector-field buffer: every cell, rounded up to the storage alignment. */
  function FieldMemorySize(storageAlign: nat): (r: nat)
    requires storageAlign > 0
    ensures FieldCells() * VectorForceSize <= r < FieldCells() * VectorForceSize + storageAlign
  {
    Align(FieldCells() * VectorForceSize, storageAlign)
  }

  /**
   * The particle slots of the storage buffer: slot s is the window
   * [s * size, s * size + size), the three windows are disjoint and fill a
   * buffer of three slots, and slot 0 (the window initialisation maps) holds
   * every particle's 32 bytes.
   */
  lemma ParticleSlots(nrParticles: nat, storageAlign: nat, s: nat, t: nat, i: nat)
    requires storageAlign > 0
    requires s < t < NrParticleBuffers && i < nrParticles
    ensures var size := ParticleMemorySize(nrParticles, storageAlign);
      && s * size + size <= t * size
      && t * size + size <= NrParticleBuffers * size
      && i * ParticleSize + ParticleSize <= size
  {
    var size := ParticleMemorySize(nrParticles, storageAlign);
    assert (s + 1) * size <= t * size;
    assert (t + 1) * size <= 3 * size;
    assert (i + 1) * ParticleSize <= nrParticles * ParticleSize;
  }

  // ------------------------------------------------------ particle init

  /**
   * The initial value of particle i: a position drawn uniformly inside the
   * box, scaled by the box's x size and (for both y and z) its y size, and a
   * drawn velocity. `unit` and `direction` stand for the random engine.
   */
  function InitialParticle(i: nat, xSize: real, ySize: real, unit: nat -> Vec3, direction: nat -> Vec4): Particle
  {
    Particle(Vec4(unit(i).x * xSize, unit(i).y * ySize, unit(i).z * ySize, 0.0), direction(i))
  }

  function InitialParticles(n: nat, xSize: real, ySize: real, unit: nat -> Vec3, direction: nat -> Vec4): (r: seq<Particle>)
    ensures |r| == n
  {
    seq(n, (i: nat) requires i < n => InitialParticle(i, xSize, ySize, unit, direction))
  }

  /**
   * The particle loop of Initialize over the mapped slot 0: entries below
   * nrParticles get their initial values, the rest of the mapping is untouched.
   */
  method FillParticles(mapped: array<Particle>, nrParticles: nat, xSize: real, ySize: real,
                       unit: nat -> Vec3, direction: nat -> Vec4)
    requires nrParticles <= mapped.Length
    modifies mapped
    ensures mapped[..] == InitialParticles(nrParticles, xSize, ySize, unit, direction) + old(mapped[nrParticles..])
  {
    var i := 0;
    while i < nrParticles
      invariant 0 <= i <= nrParticles
      invariant forall k :: 0 <= k < i ==> mapped[k] == InitialParticle(k, xSize, ySize, unit, direction)
      invariant forall k :: i <= k < mapped.Length ==> mapped[k] == old(mapped[k])
    {
      mapped[i] := Particle(Vec4(unit(i).x * xSize, unit(i).y * ySize, unit(i).z * ySize, 0.0), direction(i));
      i := i + 1;
    }
    assert mapped[..] == InitialParticles(nrParticles, xSize, ySize, unit, direction) + old(mapped[nrParticles..]);
  }

  // ------------------------------------------------------ field grid

  /** The slot of cell (x, y, z): x * d0 * d1 + y * d0 + z. */
  function FieldIndex(x: nat, y: nat, z: nat): nat
  {
    x * FieldDims[0] * FieldDims[1] + y * FieldDims[0] + z
  }

  /** The grid position stored in slot k. */
  function CellAt(k: nat): (nat, nat, nat)
  {
    (k / 1024, (k / 32) % 32, k % 32)
  }

  /**
   * For the configured 32 x 32 x 32 grid the slot formula is a bijection
   * between grid positions and [0, 32768): a position's slot is in range and
   * holds that position, and every slot is the slot of the position it holds.
   */
  lemma FieldIndexInverse(x: nat, y: nat, z: nat)
    requires x < FieldDims[0] && y < FieldDims[1] && z < FieldDims[2]
    ensures FieldIndex(x, y, z) < FieldCells() == 32768
    ensures CellAt(FieldIndex(x, y, z)) == (x, y, z)
  {
    var k := FieldIndex(x, y, z);
    assert k == x * 1024 + y * 32 + z;
    DivUnique(k, 1024, x, y * 32 + z);
    DivUnique(k, 32, x * 32 + y, z);
    DivUnique(x * 32 + y, 32, x, y);
  }

  lemma FieldIndexOnto(k: nat)
    requires k < FieldCells()
    ensures CellAt(k).0 < FieldDims[0] && CellAt(k).1 < FieldDims[1] && CellAt(k).2 < FieldDims[2]
    ensures FieldIndex(CellAt(k).0, CellAt(k).1, CellAt(k).2) == k
  {
    var q := k / 32;
    DivModParts(k, 32);
    DivModParts(q, 32);
    DivUnique(k, 1024, q / 32, (q % 32) * 32 + k % 32);
  }

  /** `noise` stands for fragcore::Math::PerlinNoise. */
  function Force(noise: (int, int, int) -> real, x: nat, y: nat, z: nat): Vec3
  {
    var n := noise(x, y * 2, z) * 20.0;
    Vec3(n, n, n)
  }

  /** What the fill loop stores in slot k: the cell's position and the noise force there. */
  function FieldEntry(k: nat, noise: (int, int, int) -> real): VectorForce
  {
    var c := CellAt(k);
    VectorForce(Vec3(c.0 as real, c.1 as real, c.2 as real), Force(noise, c.0, c.1, c.2))
  }

  /** The innermost loop: the cells of one (x, y) column. */
  method FillFieldColumn(field: array<VectorForce>, x: nat, y: nat, noise: (int, int, int) -> real)
    requires field.Length == FieldCells()
    requires x < FieldDims[0] && y < FieldDims[1]
    requires forall k :: 0 <= k < FieldIndex(x, y, 0) ==> field[k] == FieldEntry(k, noise)
    modifies field
    ensures forall k :: 0 <= k < FieldIndex(x, y, FieldDims[2]) ==> field[k] == FieldEntry(k, noise)
  {
    var z := 0;
    while z < FieldDims[2]
      invariant 0 <= z <= FieldDims[2]
      invariant forall k :: 0 <= k < FieldIndex(x, y, z) ==> field[k] == FieldEntry(k, noise)
    {
      var index := x * FieldDims[0] * FieldDims[1] + y * FieldDims[0] + z;
      FieldIndexInverse(x, y, z);
      field[index] := VectorForce(Vec3(x as real, y as real, z as real), Force(noise, x, y, z));
      z := z + 1;
    }
  }

  /**
   * The vector-field fill of Initialize over the mapped field buffer: the
   * triple loop leaves every slot holding its cell's position and force.
   */
  method FillField(field: array<VectorForce>, noise: (int, int, int) -> real)
    requires field.Length == FieldCells()
    modifies field
    ensures forall k :: 0 <= k < field.Length ==> field[k] == FieldEntry(k, noise)
  {
    var x := 0;
    while x < FieldDims[0]
      invariant 0 <= x <= FieldDims[0]
      invariant forall k :: 0 <= k < FieldIndex(x, 0, 0) ==> field[k] == FieldEntry(k, noise)
    {
      var y := 0;
      while y < FieldDims[1]
        invariant 0 <= y <= FieldDims[1]
        invariant forall k :: 0 <= k < FieldIndex(x, y, 0) ==> field[k] == FieldEntry(k, noise)
      {
        FillFieldColumn(field, x, y, noise);
        y := y + 1;
      }
      x := x + 1;
    }
  }

  /** Every cell's 24 bytes lie inside the field buffer. */
  lemma FieldInBuffer(k: nat, storageAlign: nat)
    requires storageAlign > 0 && k < FieldCells()
    ensures k * VectorForceSize + VectorForceSize <= FieldMemorySize(storageAlign)
  {
    assert (k + 1) * VectorForceSize <= FieldCells() * VectorForceSize;
  }

  // ------------------------------------------------------------- frames

  /** A bound buffer range. */
  datatype Range = Range(offset: nat, size: nat)

  /** The simulation pass: the uniform block, the field, the read and write particle slots, the groups. */
  datatype ComputePass = ComputePass(uniform: Range, field: Range, read: Range, write: Range,
                                     groups: (nat, nat, nat))

  /** A point draw sourcing its vertices from the particle buffer at the given offset and stride. */
  datatype PointsDraw = PointsDraw(uniform: Range, vertexOffset: nat, stride: nat, count: nat)

  /** What one draw issues. */
  datatype FrameTrace = FrameTrace(compute: Option<ComputePass>, fieldDraw: Option<PointsDraw>, particleDraw: PointsDraw)

  /** The slot a frame reads, frame % 3. */
  function ReadSlot(frame: nat): nat
  {
    frame % NrParticleBuffers
  }

  /** The slot a frame's simulation writes, (frame + 1) % 3. */
  function WriteSlot(frame: nat): nat
  {
    (frame + 1) % NrParticleBuffers
  }

  /**
   * The simulation never writes the slot it reads, and the slot it writes is
   * the one the next frame reads and draws.
   */
  lemma SlotRotation(frame: nat)
    ensures ReadSlot(frame) < NrParticleBuffers && WriteSlot(frame) < NrParticleBuffers
    ensures ReadSlot(frame) != WriteSlot(frame)
    ensures ReadSlot(frame + 1) == WriteSlot(frame)
  {
  }

  /** An integer quotient q of n by d: q * d <= n < (q + 1) * d. */
  lemma FloorGroups(n: nat, d: nat)
    requires d > 0
    ensures (n / d) * d <= n < (n / d + 1) * d
  {
    DivModParts(n, d);
  }

  class VectorFieldSample {
    var particleBox: seq<nat>
    var localWorkGroupSize: seq<nat>
    var nrParticles: nat
    var particleMemorySize: nat
    var vectorFieldMemorySize: nat
    var uniformAlignBufferSize: nat
    var simulateParticles: bool
    var drawVectorField: bool

    /**
     * The sample before Initialize: a 32 x 32 x 32 particle box, no particles
     * yet, the uniform block size unaligned, simulation on and the field
     * overlay off.
     */
    constructor (uniformBlockSize: nat)
      ensures particleBox == DefaultParticleBox && nrParticles == 0
      ensures particleMemorySize == 0 && vectorFieldMemorySize == 0
      ensures uniformAlignBufferSize == uniformBlockSize
      ensures simulateParticles && !drawVectorField
    {
      particleBox := DefaultParticleBox;
      localWorkGroupSize := [1, 1, 1];
      nrParticles := 0;
      particleMemorySize := 0;
      vectorFieldMemorySize := 0;
      uniformAlignBufferSize := uniformBlockSize;
      simulateParticles := true;
      drawVectorField := false;
    }

    /**
     * The buffer set-up of Initialize: align the uniform block, size the
     * particles and their slots, fill slot 0 with the initial particles and
     * fill the vector field. The two arrays are the mapped windows: slot 0 of
     * the particle buffer, in whole particles, and the field buffer's cells.
     */
    method Initialize(minMapBufferSize: nat, minStorageMapBufferSize: nat, workGroupSize: seq<nat>,
                      unit: nat -> Vec3, direction: nat -> Vec4, noise: (int, int, int) -> real)
      returns (particleSlot: array<Particle>, field: array<VectorForce>)
      requires minMapBufferSize > 0 && minStorageMapBufferSize > 0
      requires |particleBox| == 3 && |workGroupSize| == 3
      modifies this
      ensures particleBox == old(particleBox) && localWorkGroupSize == workGroupSize
      ensures simulateParticles == old(simulateParticles) && drawVectorField == old(drawVectorField)
      ensures uniformAlignBufferSize == Align(old(uniformAlignBufferSize), minMapBufferSize)
      ensures nrParticles == NrParticles(particleBox)
      ensures particleMemorySize == ParticleMemorySize(nrParticles, minStorageMapBufferSize)
      ensures vectorFieldMemorySize == FieldMemorySize(minStorageMapBufferSize)
      ensures fresh(particleSlot) && fresh(field)
      ensures particleSlot.Length == particleMemorySize / ParticleSize
      ensures particleSlot[..nrParticles]
           == InitialParticles(nrParticles, particleBox[0] as real, particleBox[1] as real, unit, direction)
      ensures field.Length == FieldCells()
      ensures forall k :: 0 <= k < field.Length ==> field[k] == FieldEntry(k, noise)
    {
      localWorkGroupSize := workGroupSize;
      uniformAlignBufferSize := Align(uniformAlignBufferSize, minMapBufferSize);
      nrParticles := particleBox[0] * particleBox[1] * particleBox[2] * ParticleMultipleCount;
      particleMemorySize := Align(nrParticles * ParticleSize, minStorageMapBufferSize);
      DivUnique(nrParticles * ParticleSize, ParticleSize, nrParticles, 0);
      assert nrParticles <= particleMemorySize / ParticleSize;
      particleSlot := new Particle[particleMemorySize / ParticleSize](_ => Particle(Vec4(0.0, 0.0, 0.0, 0.0), Vec4(0.0, 0.0, 0.0, 0.0)));
      FillParticles(particleSlot, nrParticles, particleBox[0] as real, particleBox[1] as real, unit, direction);
      vectorFieldMemorySize := Align(FieldCells() * VectorForceSize, minStorageMapBufferSize);
      field := new VectorForce[FieldCells()](_ => VectorForce(Vec3(0.0, 0.0, 0.0), Vec3(0.0, 0.0, 0.0)));
      FillField(field, noise);
    }

    /**
     * draw: the simulation pass (when enabled) binds uniform block frame % 3,
     * the whole field, slot frame % 3 to read and slot (frame + 1) % 3 to
     * write, and dispatches particleBox[i] / localWorkGroupSize[i] groups;
     * the field overlay (when enabled) and the particle draw both source
     * nrParticles points from slot frame % 3.
     */
    method Draw(frame: nat, meshObjectSize: nat) returns (trace: FrameTrace)
      requires |particleBox| == 3 && |localWorkGroupSize| == 3
      requires localWorkGroupSize[0] > 0 && localWorkGroupSize[1] > 0 && localWorkGroupSize[2] > 0
      ensures trace.compute.Some? <==> simulateParticles
      ensures trace.compute.Some? ==>
        var c := trace.compute.value;
        && c.uniform == Range(ReadSlot(frame) * uniformAlignBufferSize, uniformAlignBufferSize)
        && c.field == Range(0, vectorFieldMemorySize)
        && c.read == Range(ReadSlot(frame) * particleMemorySize, particleMemorySize)
        && c.write == Range(WriteSlot(frame) * particleMemorySize, particleMemorySize)
        && c.groups.0 * localWorkGroupSize[0] <= particleBox[0] < (c.groups.0 + 1) * localWorkGroupSize[0]
        && c.groups.1 * localWorkGroupSize[1] <= particleBox[1] < (c.groups.1 + 1) * localWorkGroupSize[1]
        && c.groups.2 * localWorkGroupSize[2] <= particleBox[2] < (c.groups.2 + 1) * localWorkGroupSize[2]
      ensures trace.fieldDraw.Some? <==> drawVectorField
      ensures trace.fieldDraw.Some? ==>
                trace.fieldDraw.value
                == PointsDraw(Range(ReadSlot(frame) * uniformAlignBufferSize, uniformAlignBufferSize),
                              ReadSlot(frame) * particleMemorySize, meshObjectSize, nrParticles)
      ensures trace.particleDraw
        == PointsDraw(Range(ReadSlot(frame) * uniformAlignBufferSize, uniformAlignBufferSize),
                      ReadSlot(frame) * particleMemorySize, ParticleSize, nrParticles)
    {
      var uniform := Range((frame % NrUniformBuffers) * uniformAlignBufferSize, uniformAlignBufferSize);
      var compute: Option<ComputePass> := None;
      if simulateParticles {
        var groups := (particleBox[0] / localWorkGroupSize[0], particleBox[1] / localWorkGroupSize[1],
                       particleBox[2] / localWorkGroupSize[2]);
        FloorGroups(particleBox[0], localWorkGroupSize[0]);
        FloorGroups(particleBox[1], localWorkGroupSize[1]);
        FloorGroups(particleBox[2], localWorkGroupSize[2]);
        compute := Some(ComputePass(uniform, Range(0, vectorFieldMemorySize),
                                    Range((frame % NrParticleBuffers) * particleMemorySize, particleMemorySize),
                                    Range(((frame + 1) % NrParticleBuffers) * particleMemorySize, particleMemorySize),
                                    groups));
      }
      var fieldDraw: Option<PointsDraw> := None;
      if drawVectorField {
        fieldDraw := Some(PointsDraw(uniform, (frame % NrParticleBuffers) * particleMemorySize, meshObjectSize, nrParticles));
      }
      trace := FrameTrace(compute, fieldDraw,
                          PointsDraw(uniform, (frame % NrParticleBuffers) * particleMemorySize, ParticleSize, nrParticles));
    }

    /** update: the staged uniform block is copied into block (frame + 1) % 3. */
    method Update(uniformBuffer: array<bv8>, frame: nat, block: seq<bv8>)
      requires |block| <= uniformAlignBufferSize
      requires NrUniformBuffers * uniformAlignBufferSize <= uniformBuffer.Length
      modifies uniformBuffer
      ensures uniformBuffer[..] == M.Overwrite(old(uniformBuffer[..]), UniformWriteOffset(frame, uniformAlignBufferSize), block)
    {
      UniformBlocks(frame, uniformAlignBufferSize);
      M.Memcpy(uniformBuffer, ((frame + 1) % NrUniformBuffers) * uniformAlignBufferSize, block);
    }
  }

  /** The block update fills: ((frame + 1) % 3) * align. */
  function UniformWriteOffset(frame: nat, alignSize: nat): nat
  {
    ((frame + 1) % NrUniformBuffers) * alignSize
  }

  /**
   * The block update writes lies in the buffer, is not the block the same
   * frame's draw binds, and is the block the next frame's draw binds.
   */
  lemma UniformBlocks(frame: nat, alignSize: nat)
    ensures UniformWriteOffset(frame, alignSize) + alignSize <= NrUniformBuffers * alignSize
    ensures alignSize > 0 ==> UniformWriteOffset(frame, alignSize) != ReadSlot(frame) * alignSize
    ensures UniformWriteOffset(frame, alignSize) == ReadSlot(frame + 1) * alignSize
  {
    var w := (frame + 1) % NrUniformBuffers;
    assert (w + 1) * alignSize <= 3 * alignSize;
    assert alignSize > 0 ==> w * alignSize != (frame % 3) * alignSize;
  }
}
