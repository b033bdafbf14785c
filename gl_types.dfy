// Types and small helpers shared by the samples framework: the mesh
// descriptor, the enumerations the renderer switches on, and the integer
// rounding helpers the buffer layouts rely on.

module GLTypes {

  datatype Option<T> = None | Some(value: T)

  datatype Result<T, E> = Ok(value: T) | Err(error: E)

  /** A three-component float vector (floats are modelled as reals). */
  datatype Vec3 = Vec3(x: real, y: real, z: real)

  /** Axis-aligned bounding box of a mesh, as stored in the mesh descriptor. */
  datatype Bound = Bound(aabbMin: Vec3, aabbMax: Vec3)

  /** Draw primitive of a mesh. */
  datatype PrimitiveType = Points | Lines | Triangles

  /**
   * The mesh descriptor a sample draws from: GL object names, the offset and
   * count of its indices inside the shared element buffer and the offset of
   * its first vertex inside its vertex buffer.
   */
  datatype MeshObject = MeshObject(
    vao: nat, vbo: nat, ibo: nat,
    indicesOffset: nat, vertexOffset: nat,
    nrIndicesElements: nat, nrVertices: nat,
    primitiveType: PrimitiveType,
    bound: Bound)

  /** The descriptor of a mesh nothing has been loaded into yet. */
  const EmptyMesh := MeshObject(0, 0, 0, 0, 0, 0, 0, Triangles,
                                Bound(Vec3(0.0, 0.0, 0.0), Vec3(0.0, 0.0, 0.0)))

  /**
   * A texture of an imported model: the GL texture name once created (the
   * importer leaves it 0), where the image comes from, and its embedded data
   * when the model file carries the image itself.
   */
  datatype TextureAsset = TextureAsset(
    texture: int, filepath: string, hasData: bool, width: int, height: int, dataSize: int)

  /** Colour spaces an image or a frame can be in. */
  datatype ColorSpace = Raw | RawLinear | SRGB | ACES | FalseColor | KhronosPBRNeutral | Filmic

  /** Position of each colour space in its enumeration (declaration order). */
  function ColorSpaceOrdinal(c: ColorSpace): (r: nat)
    ensures r < 7
  {
    match c
    case Raw => 0
    case RawLinear => 1
    case SRGB => 2
    case ACES => 3
    case FalseColor => 4
    case KhronosPBRNeutral => 5
    case Filmic => 6
  }

  /** Texture slots of a material. */
  datatype TextureType = Diffuse | Normal | AlphaMask | Emission | AmbientOcclusion
                       | Displacement | Specular | Irradiance | DepthBuffer

  const TextureTypeCount: nat := 9

  /** The enumerator value of a texture type; it is also the texture unit it binds to. */
  function TextureUnit(t: TextureType): (r: nat)
    ensures r < TextureTypeCount
  {
    match t
    case Diffuse => 0
    case Normal => 1
    case AlphaMask => 2
    case Emission => 3
    case AmbientOcclusion => 4
    case Displacement => 5
    case Specular => 6
    case Irradiance => 7
    case DepthBuffer => 8
  }

  /** Rounds size up to the next multiple of alignment. */
  function Align(size: nat, alignment: nat): (r: nat)
    requires alignment > 0
    ensures r % alignment == 0
    ensures size <= r < size + alignment
  {
    var q := size / alignment;
    DivModParts(size, alignment);
    MultipleMod(if size % alignment == 0 then q else q + 1, alignment);
    (if size % alignment == 0 then q else q + 1) * alignment
  }

  lemma DivModParts(n: nat, d: nat)
    requires d > 0
    ensures n == (n / d) * d + n % d && 0 <= n % d < d
  {
  }

  /** Quotient and remainder are the only such pair: x == q * d + r with 0 <= r < d fixes q == x / d. */
  lemma DivUnique(x: nat, d: nat, q: int, r: int)
    requires d > 0 && 0 <= r < d && x == q * d + r
    ensures q == x / d && r == x % d
  {
    var q', r' := x / d, x % d;
    assert x == q' * d + r';
    assert (q - q') * d == r' - r;
    assert q - q' >= 1 ==> (q - q') * d >= d;
    assert q - q' <= -1 ==> (q' - q) * d >= d;
  }

  lemma MultipleMod(k: nat, d: nat)
    requires d > 0
    ensures (k * d) % d == 0
  {
    var m := k * d;
    var q, r := m / d, m % d;
    assert m == q * d + r && 0 <= r < d;
    assert (k - q) * d == r;
    assert k - q >= 1 ==> (k - q) * d >= d;
    assert k - q <= -1 ==> (k - q) * d <= -(d as int);
  }

  /** The number of d-sized groups needed to cover n items (ceil(n / d)). */
  function CeilDiv(n: nat, d: nat): (r: nat)
    requires d > 0
    ensures r * d >= n
    ensures r > 0 ==> (r - 1) * d < n
  {
    (n + d - 1) / d
  }

  function Min(a: int, b: int): int { if a <= b then a else b }

  function Max(a: int, b: int): int { if a >= b then a else b }

  /** 2 to the power k: the value of `1 << k`. */
  function Pow2(k: nat): (r: nat)
    ensures r >= 1
  {
    if k == 0 then 1 else 2 * Pow2(k - 1)
  }

  /** The sum of a sequence of naturals. */
  function Sum(s: seq<nat>): nat
  {
    if s == [] then 0 else Sum(s[..|s| - 1]) + s[|s| - 1]
  }

  lemma {:induction false} SumAppend(s: seq<nat>, t: seq<nat>)
    ensures Sum(s + t) == Sum(s) + Sum(t)
  {
    if t == [] {
      assert s + t == s;
    } else {
      assert (s + t)[..|s + t| - 1] == s + t[..|t| - 1];
      SumAppend(s, t[..|t| - 1]);
    }
  }
}
