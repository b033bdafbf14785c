// The mip-map visualisation sample: a texture whose every mip level is one
// flat colour, so the level the sampler picks is visible on screen, and a
// scene whose nodes draw their geometries through the first mesh's vertex
// array.

module MipMapVisual {
  import opened GLTypes

  /** An RGB colour of the level palette. */
  datatype Rgb = Rgb(r: real, g: real, b: real)

  /** The palette: yellow, green, cyan, white, red, magenta. */
  const MipColors: seq<Rgb> := [Rgb(1.0, 1.0, 0.0), Rgb(0.0, 1.0, 0.0), Rgb(0.0, 1.0, 1.0),
                                Rgb(1.0, 1.0, 1.0), Rgb(1.0, 0.0, 0.0), Rgb(1.0, 0.0, 1.0)]

  const MipLevels: nat := 6

  /** One uploaded mip level: its level number, its size and its texels. */
  datatype MipLevel = MipLevel(level: nat, width: nat, height: nat, data: seq<Rgb>)

  /** The texture's level range and the sampler's largest level of detail. */
  datatype MipSetup = MipSetup(maxLevel: nat, maxLod: nat, levels: seq<MipLevel>)

  /** `v >> i` for an unsigned v. */
  function ShiftRight(v: nat, i: nat): nat
  {
    if i == 0 then v else ShiftRight(v / 2, i - 1)
  }

  /** The base level's side: `1 << (mip_levels + 1)`. */
  function BaseSize(): nat
  {
    Pow2(MipLevels + 1)
  }

  /** The side of level i. */
  function LevelSize(i: nat): nat
  {
    ShiftRight(BaseSize(), i)
  }

  /** The level the loop uploads as level i: mip_colors[i] in every texel. */
  function ExpectedLevel(i: nat): MipLevel
    requires i < MipLevels
  {
    MipLevel(i, LevelSize(i), LevelSize(i), seq(LevelSize(i) * LevelSize(i), _ => MipColors[i]))
  }

  /** Shifting 2^k right by i <= k bits gives 2^(k - i). */
  lemma {:induction false} ShiftPow2(k: nat, i: nat)
    requires i <= k
    ensures ShiftRight(Pow2(k), i) == Pow2(k - i)
  {
    if i > 0 {
      assert Pow2(k) / 2 == Pow2(k - 1);
      ShiftPow2(k - 1, i - 1);
    }
  }

  /**
   * The base is 128 texels; level i is 2^(7 - i) texels wide, so every level
   * is at least 4 texels, the palette has a colour for every level, and each
   * level has exactly half the side of the previous one.
   */
  lemma LevelSizes(i: nat)
    requires i < MipLevels
    ensures BaseSize() == 128
    ensures LevelSize(i) == Pow2(MipLevels + 1 - i) && LevelSize(i) >= 4
    ensures i + 1 < MipLevels ==> LevelSize(i) == 2 * LevelSize(i + 1)
    ensures MipLevels <= |MipColors|
  {
    assert Pow2(7) == 128;
    ShiftPow2(MipLevels + 1, i);
    assert Pow2(2) == 4;
    Pow2Monotone(2, MipLevels + 1 - i);
    if i + 1 < MipLevels {
      ShiftPow2(MipLevels + 1, i + 1);
    }
  }

  lemma {:induction false} Pow2Monotone(a: nat, b: nat)
    requires a <= b
    ensures Pow2(a) <= Pow2(b)
  {
    if a < b {
      Pow2Monotone(a, b - 1);
    }
  }

  /** The fill loop: a level buffer of w * h texels, each set to the level's colour. */
  method FillLevel(size: nat, color: Rgb) returns (data: array<Rgb>)
    ensures fresh(data)
    ensures data[..] == seq(size, _ => color)
  {
    data := new Rgb[size](_ => Rgb(0.0, 0.0, 0.0));
    var x := 0;
    while x < data.Length
      invariant 0 <= x <= data.Length
      invariant forall k :: 0 <= k < x ==> data[k] == color
    {
      data[x] := color;
      x := x + 1;
    }
  }

  /**
   * The mip-chain construction of Initialize: MAX_LEVEL is mip_levels - 1,
   * level i is (base >> i) square and filled with mip_colors[i], and the
   * sampler's MAX_LOD is mip_levels.
   */
  method BuildMipChain() returns (setup: MipSetup)
    ensures setup.maxLevel == MipLevels - 1 && setup.maxLod == MipLevels
    ensures |setup.levels| == MipLevels
    ensures forall i :: 0 <= i < MipLevels ==> setup.levels[i] == ExpectedLevel(i)
  {
    var noiseW := ShiftRight(Pow2(MipLevels + 1), 0);
    assert noiseW == BaseSize();
    var levels: seq<MipLevel> := [];
    var i := 0;
    while i < MipLevels
      invariant 0 <= i <= MipLevels
      invariant |levels| == i
      invariant forall k :: 0 <= k < i ==> levels[k] == ExpectedLevel(k)
    {
      var w, h := ShiftRight(BaseSize(), i), ShiftRight(BaseSize(), i);
      var data := FillLevel(w * h, MipColors[i]);
      levels := levels + [MipLevel(i, w, h, data[..])];
      i := i + 1;
    }
    setup := MipSetup(MipLevels - 1, MipLevels, levels);
  }

  /** One indexed draw: the vertex array bound, the index count, the byte offset and the base vertex. */
  datatype MipDraw = MipDraw(vao: nat, count: nat, byteOffset: nat, baseVertex: nat)

  /** The draw of one mesh through its own vertex array. */
  function OwnDraw(mesh: MeshObject): MipDraw
  {
    MipDraw(mesh.vao, mesh.nrIndicesElements, 4 * mesh.indicesOffset, mesh.vertexOffset)
  }

  /**
   * MipMapScene::renderNode: one draw per geometry index of the node, with
   * that geometry's count and offsets but always the first mesh's vertex array.
   */
  method RenderNode(refGeometry: seq<MeshObject>, geometryObjectIndex: seq<int>) returns (draws: seq<MipDraw>)
    requires forall i :: 0 <= i < |geometryObjectIndex| ==> 0 <= geometryObjectIndex[i] < |refGeometry|
    ensures |draws| == |geometryObjectIndex|
    ensures forall i :: 0 <= i < |draws| ==>
      draws[i] == OwnDraw(refGeometry[geometryObjectIndex[i]]).(vao := refGeometry[0].vao)
  {
    draws := [];
    var i := 0;
    while i < |geometryObjectIndex|
      invariant 0 <= i <= |geometryObjectIndex| && |draws| == i
      invariant forall k :: 0 <= k < i ==>
        draws[k] == OwnDraw(refGeometry[geometryObjectIndex[k]]).(vao := refGeometry[0].vao)
    {
      var mesh := refGeometry[geometryObjectIndex[i]];
      draws := draws + [MipDraw(refGeometry[0].vao, mesh.nrIndicesElements, 4 * mesh.indicesOffset, mesh.vertexOffset)];
      i := i + 1;
    }
  }

  /**
   * A geometry is drawn as it would be through its own vertex array exactly
   * when it shares the first mesh's vertex array.
   */
  lemma FirstVaoDraw(refGeometry: seq<MeshObject>, g: nat)
    requires 0 < |refGeometry| && g < |refGeometry|
    ensures OwnDraw(refGeometry[g]).(vao := refGeometry[0].vao) == OwnDraw(refGeometry[g])
        <==> refGeometry[g].vao == refGeometry[0].vao
  {
  }
}
