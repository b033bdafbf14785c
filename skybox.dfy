// The skybox: a uniform buffer with three frame slots used round robin (the
// next frame's slot is written while the current one is bound), and a draw
// that saves the cull, blend and depth state, draws with its own state and
// restores what was saved.

module Skybox {
  import opened GLTypes
  import opened Memory
  import C = Common

  /** sizeof(UniformBufferBlock): two mat4, one vec4 and two floats. */
  const UniformBlockSize: nat := 2 * 64 + 16 + 4 + 4

  const NrUniformBuffer: nat := 3

  /** Depth comparison functions (their OpenGL enumerant values). */
  const GL_LESS: nat := 0x0201
  const GL_LEQUAL: nat := 0x0203

  /** The capabilities the skybox saves and restores. */
  datatype Capability = CullFace | Blend | DepthTest

  /** The part of the GL state the skybox touches. */
  datatype GLState = GLState(cullFace: bool, blend: bool, depthTest: bool, depthFunc: nat)

  /** The GL commands the skybox issues, in the order it issues them. */
  datatype Command =
    | BindUniformRange(offset: nat, size: nat)
    | Enable(cap: Capability)
    | Disable(cap: Capability)
    | DepthFunc(func: nat)
    | UseProgram(program: nat)
    | BindTexture(unit: nat, texture: nat)
    | DrawElements(vao: nat, count: nat)

  function SetCapability(s: GLState, cap: Capability, on: bool): GLState
  {
    match cap
    case CullFace => s.(cullFace := on)
    case Blend => s.(blend := on)
    case DepthTest => s.(depthTest := on)
  }

  /** The effect of one command on the state. */
  function Apply(s: GLState, c: Command): GLState
  {
    match c
    case Enable(cap) => SetCapability(s, cap, true)
    case Disable(cap) => SetCapability(s, cap, false)
    case DepthFunc(f) => s.(depthFunc := f)
    case _ => s
  }

  /** The state after a run of commands. */
  function Run(s: GLState, cs: seq<Command>): GLState
    decreases |cs|
  {
    if cs == [] then s else Run(Apply(s, cs[0]), cs[1..])
  }

  lemma {:induction false} RunAppend(s: GLState, xs: seq<Command>, ys: seq<Command>)
    ensures Run(s, xs + ys) == Run(Run(s, xs), ys)
    decreases |xs|
  {
    if xs == [] {
      assert xs + ys == ys;
    } else {
      assert (xs + ys)[1..] == xs[1..] + ys;
      RunAppend(Apply(s, xs[0]), xs[1..], ys);
    }
  }

  lemma RunSingle(s: GLState, c: Command)
    ensures Run(s, [c]) == Apply(s, c)
  {
    assert [c][1..] == [];
  }

  /** The slot the current frame binds, and the slot it writes for the next frame. */
  function BoundSlot(frameIndex: nat): nat { frameIndex % NrUniformBuffer }
  function WrittenSlot(frameIndex: nat): nat { (frameIndex + 1) % NrUniformBuffer }

  /** A frame never writes the slot it binds. */
  lemma WrittenSlotIsNotBound(frameIndex: nat)
    ensures WrittenSlot(frameIndex) != BoundSlot(frameIndex)
    ensures WrittenSlot(frameIndex) < NrUniformBuffer && BoundSlot(frameIndex) < NrUniformBuffer
  {
  }

  /** The slot written next lies inside a buffer of NrUniformBuffer slots. */
  lemma WrittenSlotFits(frameIndex: nat, uniformSize: nat)
    ensures WrittenSlot(frameIndex) * uniformSize + uniformSize <= uniformSize * NrUniformBuffer
  {
    WrittenSlotIsNotBound(frameIndex);
    assert (WrittenSlot(frameIndex) + 1) * uniformSize <= NrUniformBuffer * uniformSize;
  }

  /** The slot written this frame is the one bound next frame. */
  lemma WrittenSlotIsBoundNext(frameIndex: nat)
    ensures BoundSlot((frameIndex + 1) % NrUniformBuffer) == WrittenSlot(frameIndex)
  {
  }

  /** The skybox's own state while it draws. */
  const SkyboxSetup: seq<Command> := [Disable(CullFace), Disable(Blend), Enable(DepthTest), DepthFunc(GL_LEQUAL)]

  /** Only the saved flags that were on are switched on again; the depth function is put back. */
  function Restore(saved: GLState): (cs: seq<Command>)
  {
    (if saved.cullFace then [Enable(CullFace)] else [])
    + (if saved.blend then [Enable(Blend)] else [])
    + (if saved.depthTest then [Enable(DepthTest)] else [])
    + [DepthFunc(saved.depthFunc)]
  }

  /** The skybox setup turns culling and blending off, the depth test on and selects LEQUAL. */
  lemma {:induction false} SetupState(s: GLState)
    ensures Run(s, SkyboxSetup) == GLState(false, false, true, GL_LEQUAL)
  {
    var s1 := Apply(s, Disable(CullFace));
    var s2 := Apply(s1, Disable(Blend));
    var s3 := Apply(s2, Enable(DepthTest));
    var rest1 := [Disable(Blend), Enable(DepthTest), DepthFunc(GL_LEQUAL)];
    var rest2 := [Enable(DepthTest), DepthFunc(GL_LEQUAL)];
    assert SkyboxSetup[1..] == rest1 && rest1[1..] == rest2 && rest2[1..] == [DepthFunc(GL_LEQUAL)];
    assert Run(s, SkyboxSetup) == Run(s1, rest1);
    assert Run(s1, rest1) == Run(s2, rest2);
    assert Run(s2, rest2) == Run(s3, [DepthFunc(GL_LEQUAL)]);
    RunSingle(s3, DepthFunc(GL_LEQUAL));
  }

  /** Switching a flag back on only when it was on before puts that flag back. */
  lemma ReenableIfSaved(t: GLState, cap: Capability, saved: bool)
    ensures Run(t, if saved then [Enable(cap)] else []) == if saved then SetCapability(t, cap, true) else t
  {
    if saved {
      RunSingle(t, Enable(cap));
    }
  }

  /** Restoring after the skybox setup gives back every saved flag except a disabled depth test. */
  lemma {:induction false} RestoreAfterSetup(s: GLState)
    ensures Run(Run(s, SkyboxSetup), Restore(s)) == s.(depthTest := true)
  {
    var t := Run(s, SkyboxSetup);
    SetupState(s);
    var a := if s.cullFace then [Enable(CullFace)] else [];
    var b := if s.blend then [Enable(Blend)] else [];
    var c := if s.depthTest then [Enable(DepthTest)] else [];
    ReenableIfSaved(t, CullFace, s.cullFace);
    var ta := Run(t, a);
    ReenableIfSaved(ta, Blend, s.blend);
    RunAppend(t, a, b);
    var tb := Run(t, a + b);
    ReenableIfSaved(tb, DepthTest, s.depthTest);
    RunAppend(t, a + b, c);
    RunAppend(t, a + b + c, [DepthFunc(s.depthFunc)]);
    RunSingle(Run(t, a + b + c), DepthFunc(s.depthFunc));
  }

  /** The commands of one enabled skybox frame. */
  function FrameCommands(bindOffset: nat, uniformSize: nat, program: nat, texture: nat,
                         cube: MeshObject, saved: GLState): seq<Command>
  {
    [BindUniformRange(bindOffset, uniformSize)] + SkyboxSetup
    + [UseProgram(program), BindTexture(0, texture), DrawElements(cube.vao, cube.nrIndicesElements)]
    + Restore(saved)
  }

  /** Commands that change no flag and no depth function leave the state alone. */
  lemma {:induction false} RunStateless(s: GLState, cs: seq<Command>)
    requires forall k :: 0 <= k < |cs| ==> !cs[k].Enable? && !cs[k].Disable? && !cs[k].DepthFunc?
    ensures Run(s, cs) == s
    decreases |cs|
  {
    if cs != [] {
      RunStateless(Apply(s, cs[0]), cs[1..]);
    }
  }

  /**
   * A frame draws with face culling and blending off, the depth test on and
   * LEQUAL depth comparison, and afterwards culling, blending and the depth
   * function are as saved while the depth test is left on.
   */
  lemma FrameRestoresState(bindOffset: nat, uniformSize: nat, program: nat, texture: nat,
                           cube: MeshObject, s: GLState)
    ensures var cs := FrameCommands(bindOffset, uniformSize, program, texture, cube, s);
      && cs[7] == DrawElements(cube.vao, cube.nrIndicesElements)
      && Run(s, cs[..7]) == GLState(false, false, true, GL_LEQUAL)
      && Run(s, cs) == s.(depthTest := true)
  {
    var cs := FrameCommands(bindOffset, uniformSize, program, texture, cube, s);
    var head := [BindUniformRange(bindOffset, uniformSize)];
    var draw := [UseProgram(program), BindTexture(0, texture), DrawElements(cube.vao, cube.nrIndicesElements)];
    RunStateless(s, head);
    RunAppend(s, head, SkyboxSetup);
    SetupState(s);
    var t := Run(s, head + SkyboxSetup);
    RunStateless(t, draw);
    RunStateless(t, draw[..2]);
    assert cs[..7] == head + SkyboxSetup + draw[..2];
    RunAppend(s, head + SkyboxSetup, draw[..2]);
    RunAppend(s, head + SkyboxSetup, draw);
    assert cs == (head + SkyboxSetup + draw) + Restore(s);
    RunAppend(s, head + SkyboxSetup + draw, Restore(s));
    RestoreAfterSetup(s);
  }

  class Skybox {
    var frameIndex: nat
    var isEnabled: bool
    var uniformSize: nat
    var uniformBuffer: array<bv8>
    var skyboxCube: MeshObject
    var skyboxProgram: nat
    var skyboxTexturePanoramic: nat

    /** frameIndex stays a slot number and every slot fits the uniform buffer. */
    predicate Valid()
      reads this
    {
      frameIndex < NrUniformBuffer && UniformBlockSize <= uniformSize
      && uniformBuffer.Length == uniformSize * NrUniformBuffer
    }

    /**
     * Init: the slot size is the block size rounded up to the driver's
     * uniform offset alignment, the buffer holds three slots, and the cube
     * is a 1-scale cube.
     */
    constructor Init<V>(texture: nat, program: nat, minMapBufferSize: nat, names: C.MeshNames,
                        generateCube: (real, int) -> C.Geometry<V>)
      requires minMapBufferSize > 0
      ensures Valid() && fresh(uniformBuffer)
      ensures uniformSize == Align(UniformBlockSize, minMapBufferSize)
      ensures uniformSize % minMapBufferSize == 0 && UniformBlockSize <= uniformSize
      ensures uniformBuffer.Length == uniformSize * NrUniformBuffer
      ensures skyboxCube == C.LoadCube(EmptyMesh, names, generateCube, 1.0, 1, 1)
      ensures frameIndex == 0 && isEnabled
      ensures skyboxTexturePanoramic == texture && skyboxProgram == program
    {
      frameIndex := 0;
      isEnabled := true;
      uniformSize := Align(UniformBlockSize, minMapBufferSize);
      uniformBuffer := new bv8[Align(UniformBlockSize, minMapBufferSize) * NrUniformBuffer];
      skyboxCube := C.LoadCube(EmptyMesh, names, generateCube, 1.0, 1, 1);
      skyboxTexturePanoramic := texture;
      skyboxProgram := program;
    }

    /**
     * Render(viewProj): when disabled nothing happens; otherwise the block
     * goes to the next frame's slot, the current slot is bound, the cube is
     * drawn with the state saved and restored around it, and frameIndex
     * advances round robin.
     */
    method Render(block: seq<bv8>, state: GLState) returns (commands: seq<Command>)
      requires Valid() && |block| == UniformBlockSize
      modifies this`frameIndex, uniformBuffer
      ensures Valid()
      ensures !isEnabled ==>
        && commands == [] && frameIndex == old(frameIndex)
        && uniformBuffer[..] == old(uniformBuffer[..])
      ensures isEnabled ==>
        && frameIndex == (old(frameIndex) + 1) % NrUniformBuffer
        && uniformBuffer[..] == Overwrite(old(uniformBuffer[..]), WrittenSlot(old(frameIndex)) * uniformSize, block)
        && commands == FrameCommands(BoundSlot(old(frameIndex)) * uniformSize, uniformSize,
                                     skyboxProgram, skyboxTexturePanoramic, skyboxCube, state)
    {
      if !isEnabled {
        return [];
      }
      WrittenSlotFits(frameIndex, uniformSize);
      Memcpy(uniformBuffer, WrittenSlot(frameIndex) * uniformSize, block);
      commands := [BindUniformRange(BoundSlot(frameIndex) * uniformSize, uniformSize)];
      commands := commands + SkyboxSetup;
      commands := commands + [UseProgram(skyboxProgram), BindTexture(0, skyboxTexturePanoramic),
                              DrawElements(skyboxCube.vao, skyboxCube.nrIndicesElements)];
      var restore := RestoreState(state);
      commands := commands + restore;
      frameIndex := (frameIndex + 1) % NrUniformBuffer;
    }

    /** The end of render: re-enable each saved flag that was on, then put the depth function back. */
    static method RestoreState(state: GLState) returns (commands: seq<Command>)
      ensures commands == Restore(state)
    {
      commands := [];
      if state.cullFace {
        commands := commands + [Enable(CullFace)];
      }
      if state.blend {
        commands := commands + [Enable(Blend)];
      }
      if state.depthTest {
        commands := commands + [Enable(DepthTest)];
      }
      commands := commands + [DepthFunc(state.depthFunc)];
    }
  }
}
