// The model importer's mesh packing: every mesh of an imported scene is
// serialised into an interleaved vertex stream of eleven floats per vertex
// (position, texture coordinate, normal, tangent) and a byte stream of
// triangle indices, four bytes per index.

module ModelImporter {
  import opened GLTypes
  import opened SeqUtil

  /** Floats per vertex: position 3, uv 2, normal 3, tangent 3. */
  const VertexFloats: nat := 3 + 2 + 3 + 3
  /** Bytes per index (an unsigned int copied with memcpy). */
  const IndicesSize: nat := 4
  /** Indices per face of a triangulated mesh. */
  const FaceIndices: nat := 3

  /** An unsigned 32-bit vertex index. */
  type Index = x: nat | x < 0x1_0000_0000

  /** A byte of the index buffer. */
  type Byte = x: nat | x < 256

  datatype AiFace = AiFace(indices: seq<Index>)

  /**
   * An imported mesh: its positions, its normals (an array, since packing
   * normalises them in place), its first texture-coordinate channel if it
   * has one, and its faces.
   */
  datatype AiMesh = AiMesh(vertices: seq<Vec3>, normals: array<Vec3>,
                           textureCoords0: Option<seq<Vec3>>, faces: seq<AiFace>)

  /** The packed buffers of one mesh. */
  datatype MeshData = MeshData(vertices: seq<real>, indices: seq<Byte>)

  datatype ImportError =
    | NullScene(message: string)              // the importer returned no scene
    | FaceNotTriangle(mesh: nat, face: nat)   // the face-size assertion fails

  /** Every per-vertex array the importer hands over has one entry per vertex. */
  predicate ValidMesh(m: AiMesh)
  {
    && m.normals.Length == |m.vertices|
    && (m.textureCoords0.Some? ==> |m.textureCoords0.value| == |m.vertices|)
  }

  // ------------------------------------------------------------- indices

  /** The four bytes memcpy stores for index v, least significant first. */
  function LeBytes(v: Index): (r: seq<Byte>)
    ensures |r| == IndicesSize
  {
    var q1 := v / 256;
    var q2 := q1 / 256;
    var q3 := q2 / 256;
    [v % 256, q1 % 256, q2 % 256, q3]
  }

  /** The index four stored bytes encode. */
  function DecodeLe(b: seq<Byte>): nat
    requires |b| == IndicesSize
  {
    b[0] as nat + 256 * (b[1] as nat + 256 * (b[2] as nat + 256 * (b[3] as nat)))
  }

  /** Decoding the stored bytes gives the index back. */
  lemma DecodeLeBytes(v: Index)
    ensures DecodeLe(LeBytes(v)) == v
  {
    var q1 := v / 256;
    var q2 := q1 / 256;
    var q3 := q2 / 256;
    DivModParts(v, 256);
    DivModParts(q1, 256);
    DivModParts(q2, 256);
    var d0, d1, d2 := v % 256, q1 % 256, q2 % 256;
    var b := LeBytes(v);
    assert b[0] == d0 && b[1] == d1 && b[2] == d2 && b[3] == q3;
    assert d2 + 256 * q3 == q2;
    assert d1 + 256 * q2 == q1;
    assert d0 + 256 * q1 == v;
  }

  /** Every four bytes encode some index, and storing it gives the same bytes. */
  lemma LeBytesDecode(b: seq<Byte>)
    requires |b| == IndicesSize
    ensures DecodeLe(b) < 0x1_0000_0000
    ensures LeBytes(DecodeLe(b)) == b
  {
    var b0: nat, b1: nat, b2: nat, b3: nat := b[0], b[1], b[2], b[3];
    var h2: nat := b2 + 256 * b3;
    var h1: nat := b1 + 256 * h2;
    var v: nat := b0 + 256 * h1;
    assert v == DecodeLe(b);
    assert h2 < 65536;
    assert h1 < 16777216;
    DivUnique(v, 256, h1, b0);
    DivUnique(h1, 256, h2, b1);
    DivUnique(h2, 256, b3, b2);
    var r := LeBytes(v);
    assert r[0] == b[0] && r[1] == b[1] && r[2] == b[2] && r[3] == b[3];
  }

  /** The first k faces have exactly three indices each. */
  predicate TrianglesBelow(faces: seq<AiFace>, k: nat)
  {
    forall j :: 0 <= j < k && j < |faces| ==> |faces[j].indices| == FaceIndices
  }

  /** Every face has exactly three indices. */
  predicate Triangulated(faces: seq<AiFace>)
  {
    TrianglesBelow(faces, |faces|)
  }

  /** The first face that is not a triangle. */
  function FirstNonTriangle(faces: seq<AiFace>): (k: nat)
    requires !Triangulated(faces)
    ensures k < |faces| && |faces[k].indices| != FaceIndices
    ensures TrianglesBelow(faces, k)
  {
    if |faces[0].indices| != FaceIndices then 0
    else
      var k := 1 + FirstNonTriangle(faces[1..]);
      assert forall j :: 1 <= j < k ==> faces[j] == faces[1..][j - 1];
      k
  }

  /** The four bytes of each of the face's three indices. */
  function FaceBytes(f: AiFace): (r: seq<Byte>)
    requires |f.indices| == FaceIndices
    ensures |r| == 12
  {
    LeBytes(f.indices[0]) + LeBytes(f.indices[1]) + LeBytes(f.indices[2])
  }

  /** Index j of a face is bytes [4j, 4j + 4) of the face's bytes. */
  lemma FaceBytesAt(f: AiFace, j: nat)
    requires |f.indices| == FaceIndices && j < FaceIndices
    ensures FaceBytes(f)[4 * j..4 * j + 4] == LeBytes(f.indices[j])
  {
  }

  /** The bytes of the first k faces, in face order. */
  function IndexStream(faces: seq<AiFace>, k: nat): (r: seq<Byte>)
    requires k <= |faces| && TrianglesBelow(faces, k)
    ensures |r| == 12 * k
  {
    if k == 0 then [] else IndexStream(faces, k - 1) + FaceBytes(faces[k - 1])
  }

  /** The bytes of the first m faces are a prefix of the bytes of the first n. */
  lemma {:induction false} IndexStreamPrefix(faces: seq<AiFace>, m: nat, n: nat)
    requires m <= n <= |faces| && TrianglesBelow(faces, n)
    ensures IndexStream(faces, n)[..12 * m] == IndexStream(faces, m)
  {
    if m < n {
      IndexStreamPrefix(faces, m, n - 1);
      var s, p := IndexStream(faces, n), IndexStream(faces, n - 1);
      assert s[..12 * (n - 1)] == p;
      assert s[..12 * m] == p[..12 * m];
    }
  }

  /** Index j of face k is stored in bytes [12k + 4j, 12k + 4j + 4). */
  lemma IndexStreamSlice(faces: seq<AiFace>, n: nat, k: nat, j: nat)
    requires n <= |faces| && TrianglesBelow(faces, n)
    requires k < n && j < FaceIndices
    ensures |faces[k].indices| == FaceIndices
    ensures IndexStream(faces, n)[12 * k + 4 * j..12 * k + 4 * j + 4] == LeBytes(faces[k].indices[j])
  {
    var s, head := IndexStream(faces, n), IndexStream(faces, k);
    IndexStreamPrefix(faces, k + 1, n);
    assert s[..12 * k + 12] == head + FaceBytes(faces[k]);
    FaceBytesAt(faces[k], j);
    SliceOfSuffix(head, FaceBytes(faces[k]), 4 * j, 4 * j + 4);
    SliceOfPrefix(s, 12 * k + 12, 12 * k + 4 * j, 12 * k + 4 * j + 4);
  }

  /**
   * Index j of face k is stored at byte (3k + j) * 4, and its four bytes
   * decode to that index.
   */
  lemma IndexStreamAt(faces: seq<AiFace>, n: nat, k: nat, j: nat)
    requires n <= |faces| && TrianglesBelow(faces, n)
    requires k < n && j < FaceIndices
    ensures |faces[k].indices| == FaceIndices
    ensures var s := IndexStream(faces, n);
            var at := 4 * (3 * k + j);
            && s[at..at + 4] == LeBytes(faces[k].indices[j])
            && DecodeLe(s[at..at + 4]) == faces[k].indices[j]
  {
    IndexStreamSlice(faces, n, k, j);
    DecodeLeBytes(faces[k].indices[j]);
  }

  /**
   * The face loop of initMesh: three four-byte index copies per face,
   * aborting at the first face whose size assertion fails.
   */
  method PackIndices(faces: seq<AiFace>, meshIndex: nat) returns (r: Result<seq<Byte>, ImportError>)
    ensures r.Ok? <==> Triangulated(faces)
    ensures r.Ok? ==> r.value == IndexStream(faces, |faces|)
    ensures r.Err? ==> !Triangulated(faces) && r.error == FaceNotTriangle(meshIndex, FirstNonTriangle(faces))
  {
    var indices: seq<Byte> := [];
    var x := 0;
    while x < |faces|
      invariant 0 <= x <= |faces| && TrianglesBelow(faces, x)
      invariant indices == IndexStream(faces, x)
    {
      var face := faces[x];
      if |face.indices| != FaceIndices {
        FirstIsAt(faces, x);
        return Err(FaceNotTriangle(meshIndex, x));
      }
      indices := indices + LeBytes(face.indices[0]);
      indices := indices + LeBytes(face.indices[1]);
      indices := indices + LeBytes(face.indices[2]);
      x := x + 1;
    }
    r := Ok(indices);
  }

  /** When the first x faces are triangles and face x is not, face x is the first non-triangle. */
  lemma FirstIsAt(faces: seq<AiFace>, x: nat)
    requires x < |faces| && TrianglesBelow(faces, x) && |faces[x].indices| != FaceIndices
    ensures !Triangulated(faces) && FirstNonTriangle(faces) == x
  {
  }

  // ------------------------------------------------------------ vertices

  /** The texture coordinate of vertex x: channel 0 if the mesh has it, (0, 0, 0) otherwise. */
  function TexCoord(textureCoords0: Option<seq<Vec3>>, x: nat): Vec3
  {
    if textureCoords0.Some? && x < |textureCoords0.value| then textureCoords0.value[x] else Vec3(0.0, 0.0, 0.0)
  }

  /** The eleven floats of one vertex. */
  function VertexRecord(position: Vec3, uv: Vec3, normal: Vec3, tangent: Vec3): (r: seq<real>)
    ensures |r| == VertexFloats
  {
    [position.x, position.y, position.z, uv.x, uv.y, normal.x, normal.y, normal.z, tangent.x, tangent.y, tangent.z]
  }

  /**
   * The floats of the first k vertices. `tangent` stands for the values of
   * the tangent the loop writes without ever initialising it.
   */
  function VertexStream(vertices: seq<Vec3>, normals: seq<Vec3>, textureCoords0: Option<seq<Vec3>>,
                        tangent: nat -> Vec3, k: nat): (r: seq<real>)
    requires k <= |vertices| && k <= |normals|
    ensures |r| == k * VertexFloats
  {
    if k == 0 then []
    else
      VertexStream(vertices, normals, textureCoords0, tangent, k - 1)
        + VertexRecord(vertices[k - 1], TexCoord(textureCoords0, k - 1), normals[k - 1], tangent(k - 1))
  }

  /**
   * Vertex x occupies floats [11x, 11x + 11): position, then the texture
   * coordinate's u and v (0 and 0 without a channel 0), then its normal.
   */
  lemma {:induction false} VertexStreamAt(vertices: seq<Vec3>, normals: seq<Vec3>, textureCoords0: Option<seq<Vec3>>,
                                          tangent: nat -> Vec3, n: nat, x: nat)
    requires n <= |vertices| && n <= |normals| && x < n
    ensures var s := VertexStream(vertices, normals, textureCoords0, tangent, n);
      && s[VertexFloats * x..VertexFloats * x + VertexFloats]
         == VertexRecord(vertices[x], TexCoord(textureCoords0, x), normals[x], tangent(x))
      && (textureCoords0.None? ==> s[VertexFloats * x + 3] == 0.0 && s[VertexFloats * x + 4] == 0.0)
  {
    VertexStreamSlice(vertices, normals, textureCoords0, tangent, n, x);
    var s := VertexStream(vertices, normals, textureCoords0, tangent, n);
    var at := VertexFloats * x;
    assert s[at + 3] == s[at..at + VertexFloats][3] && s[at + 4] == s[at..at + VertexFloats][4];
  }

  /** Vertex x's record is floats [11x, 11x + 11) of the stream. */
  lemma {:induction false} VertexStreamSlice(vertices: seq<Vec3>, normals: seq<Vec3>, textureCoords0: Option<seq<Vec3>>,
                                             tangent: nat -> Vec3, n: nat, x: nat)
    requires n <= |vertices| && n <= |normals| && x < n
    ensures VertexStream(vertices, normals, textureCoords0, tangent, n)[VertexFloats * x..VertexFloats * x + VertexFloats]
         == VertexRecord(vertices[x], TexCoord(textureCoords0, x), normals[x], tangent(x))
  {
    var prev := VertexStream(vertices, normals, textureCoords0, tangent, n - 1);
    var last := VertexRecord(vertices[n - 1], TexCoord(textureCoords0, n - 1), normals[n - 1], tangent(n - 1));
    if x < n - 1 {
      VertexStreamSlice(vertices, normals, textureCoords0, tangent, n - 1, x);
      SliceOfFront(prev, last, VertexFloats * x, VertexFloats * x + VertexFloats);
    } else {
      SliceOfSuffix(prev, last, 0, VertexFloats);
    }
  }

  /**
   * The vertex loop of initMesh: normalise each normal in place (aiVector3D
   * Normalize, which `normalize` stands for) and append the vertex's eleven
   * floats.
   */
  method PackVertices(mesh: AiMesh, normalize: Vec3 -> Vec3, tangent: nat -> Vec3) returns (vertices: seq<real>)
    requires ValidMesh(mesh)
    modifies mesh.normals
    ensures mesh.normals[..] == Normalized(old(mesh.normals[..]), normalize)
    ensures vertices == VertexStream(mesh.vertices, mesh.normals[..], mesh.textureCoords0, tangent, |mesh.vertices|)
  {
    ghost var target := Normalized(mesh.normals[..], normalize);
    vertices := [];
    var x := 0;
    while x < |mesh.vertices|
      invariant 0 <= x <= |mesh.vertices|
      invariant forall k :: 0 <= k < x ==> mesh.normals[k] == target[k]
      invariant forall k :: x <= k < mesh.normals.Length ==> mesh.normals[k] == old(mesh.normals[k])
      invariant vertices == VertexStream(mesh.vertices, target, mesh.textureCoords0, tangent, x)
    {
      vertices := PackVertex(mesh, normalize, tangent, x, vertices);
      x := x + 1;
    }
    assert mesh.normals[..] == target;
  }

  /** One pass of the vertex loop: normal x is normalised in place, then vertex x's eleven floats are appended. */
  method PackVertex(mesh: AiMesh, normalize: Vec3 -> Vec3, tangent: nat -> Vec3, x: nat, vertices: seq<real>)
    returns (r: seq<real>)
    requires ValidMesh(mesh) && x < |mesh.vertices|
    modifies mesh.normals
    ensures mesh.normals[x] == normalize(old(mesh.normals[x]))
    ensures forall k :: 0 <= k < mesh.normals.Length && k != x ==> mesh.normals[k] == old(mesh.normals[k])
    ensures r == vertices + VertexRecord(mesh.vertices[x], TexCoord(mesh.textureCoords0, x), mesh.normals[x], tangent(x))
  {
    var position := mesh.vertices[x];
    var uv := if mesh.textureCoords0.Some? then mesh.textureCoords0.value[x] else Vec3(0.0, 0.0, 0.0);
    mesh.normals[x] := normalize(mesh.normals[x]);
    var normal := mesh.normals[x];
    var t := tangent(x);
    r := vertices + [position.x, position.y, position.z, uv.x, uv.y,
                     normal.x, normal.y, normal.z, t.x, t.y, t.z];
  }

  /** Every normal passed through normalize. */
  function Normalized(normals: seq<Vec3>, normalize: Vec3 -> Vec3): (r: seq<Vec3>)
    ensures |r| == |normals| && forall k :: 0 <= k < |normals| ==> r[k] == normalize(normals[k])
  {
    seq(|normals|, (k: nat) requires k < |normals| => normalize(normals[k]))
  }

  /** The first k vertices' floats depend only on the first k normals. */
  lemma {:induction false} StreamIgnoresLater(vertices: seq<Vec3>, a: seq<Vec3>, b: seq<Vec3>,
                                              textureCoords0: Option<seq<Vec3>>, tangent: nat -> Vec3, k: nat)
    requires k <= |vertices| && k <= |a| && k <= |b| && a[..k] == b[..k]
    ensures VertexStream(vertices, a, textureCoords0, tangent, k) == VertexStream(vertices, b, textureCoords0, tangent, k)
  {
    if k > 0 {
      assert a[k - 1] == a[..k][k - 1] && b[k - 1] == b[..k][k - 1];
      assert a[..k - 1] == a[..k][..k - 1] && b[..k - 1] == b[..k][..k - 1];
      StreamIgnoresLater(vertices, a, b, textureCoords0, tangent, k - 1);
    }
  }

  // ---------------------------------------------------------- the meshes

  /** What initMesh produces for mesh number `index` once its normals are normalised. */
  function PackMesh(m: AiMesh, normals: seq<Vec3>, index: nat, tangent: nat -> Vec3): (r: Result<MeshData, ImportError>)
    requires |normals| == |m.vertices|
    ensures r.Ok? <==> Triangulated(m.faces)
    ensures r.Ok? ==> |r.value.vertices| == 11 * |m.vertices| && |r.value.indices| == 12 * |m.faces|
    ensures r.Err? ==> r.error == FaceNotTriangle(index, FirstNonTriangle(m.faces))
  {
    if Triangulated(m.faces) then
      assert m.faces[..|m.faces|] == m.faces;
      Ok(MeshData(VertexStream(m.vertices, normals, m.textureCoords0, tangent, |m.vertices|),
                  IndexStream(m.faces, |m.faces|)))
    else Err(FaceNotTriangle(index, FirstNonTriangle(m.faces)))
  }

  /**
   * initMesh: normalise the mesh's normals, write the vertex stream, then
   * the index stream. The result is the contents of the two heap blocks it
   * fills; initMesh itself hands neither of them on.
   */
  method InitMesh(mesh: AiMesh, index: nat, normalize: Vec3 -> Vec3, tangent: nat -> Vec3)
    returns (r: Result<MeshData, ImportError>)
    requires ValidMesh(mesh)
    modifies mesh.normals
    ensures mesh.normals[..] == Normalized(old(mesh.normals[..]), normalize)
    ensures r == PackMesh(mesh, mesh.normals[..], index, tangent)
  {
    var vertices := PackVertices(mesh, normalize, tangent);
    var indices := PackIndices(mesh.faces, index);
    if indices.Err? {
      return Err(indices.error);
    }
    assert mesh.faces[..|mesh.faces|] == mesh.faces;
    r := Ok(MeshData(vertices, indices.value));
  }

  /** The meshes own their normal arrays: no two share one. */
  predicate ValidScene(meshes: seq<AiMesh>)
  {
    && (forall i :: 0 <= i < |meshes| ==> ValidMesh(meshes[i]))
    && (forall i, j :: 0 <= i < j < |meshes| ==> meshes[i].normals != meshes[j].normals)
  }

  function NormalArrays(meshes: seq<AiMesh>): set<array<Vec3>>
  {
    set i | 0 <= i < |meshes| :: meshes[i].normals
  }

  /** One step of initScene: initMesh on mesh x leaves the other meshes' normals alone. */
  method InitNext(meshes: seq<AiMesh>, x: nat, normalize: Vec3 -> Vec3, tangent: nat -> Vec3)
    returns (r: Result<MeshData, ImportError>)
    requires ValidScene(meshes) && x < |meshes|
    modifies meshes[x].normals
    ensures meshes[x].normals[..] == Normalized(old(meshes[x].normals[..]), normalize)
    ensures forall i :: 0 <= i < |meshes| && i != x ==> meshes[i].normals[..] == old(meshes[i].normals[..])
    ensures r == PackMesh(meshes[x], Normalized(old(meshes[x].normals[..]), normalize), x, tangent)
  {
    assert forall i :: 0 <= i < |meshes| && i != x ==> meshes[i].normals != meshes[x].normals;
    r := InitMesh(meshes[x], x, normalize, tangent);
  }

  /**
   * initScene: initMesh on every mesh, in order, with its position as its
   * index, stopping at the first mesh whose face assertion fails. The meshes
   * up to and including that one have their normals normalised.
   */
  method InitScene(meshes: seq<AiMesh>, normalize: Vec3 -> Vec3, tangent: nat -> Vec3)
    returns (r: Result<seq<MeshData>, ImportError>)
    requires ValidScene(meshes)
    modifies NormalArrays(meshes)
    ensures r.Ok? <==> forall i :: 0 <= i < |meshes| ==> Triangulated(meshes[i].faces)
    ensures r.Ok? ==> |r.value| == |meshes|
    ensures r.Ok? ==> forall i :: 0 <= i < |meshes| ==>
      Ok(r.value[i]) == PackMesh(meshes[i], Normalized(old(meshes[i].normals[..]), normalize), i, tangent)
    ensures r.Err? ==>
              && r.error.FaceNotTriangle? && r.error.mesh < |meshes|
              && !Triangulated(meshes[r.error.mesh].faces)
              && (forall i :: 0 <= i < r.error.mesh ==> Triangulated(meshes[i].faces))
    ensures forall i :: 0 <= i < |meshes| ==>
      meshes[i].normals[..]
      == (if r.Ok? || i <= r.error.mesh then Normalized(old(meshes[i].normals[..]), normalize)
          else old(meshes[i].normals[..]))
  {
    var packed: seq<MeshData> := [];
    var x := 0;
    while x < |meshes|
      invariant 0 <= x <= |meshes| && |packed| == x
      invariant forall i :: 0 <= i < x ==> Triangulated(meshes[i].faces)
      invariant forall i :: 0 <= i < x ==>
        Ok(packed[i]) == PackMesh(meshes[i], Normalized(old(meshes[i].normals[..]), normalize), i, tangent)
      invariant forall i :: 0 <= i < x ==> meshes[i].normals[..] == Normalized(old(meshes[i].normals[..]), normalize)
      invariant forall i :: x <= i < |meshes| ==> meshes[i].normals[..] == old(meshes[i].normals[..])
    {
      var res := InitNext(meshes, x, normalize, tangent);
      if res.Err? {
        return Err(res.error);
      }
      packed := packed + [res.value];
      x := x + 1;
    }
    r := Ok(packed);
  }

  /** loadContent: a null scene from the importer throws its error string; otherwise the scene is packed. */
  method LoadContent(scene: Option<seq<AiMesh>>, importerError: string, normalize: Vec3 -> Vec3, tangent: nat -> Vec3)
    returns (r: Result<seq<MeshData>, ImportError>)
    requires scene.Some? ==> ValidScene(scene.value)
    modifies if scene.Some? then NormalArrays(scene.value) else {}
    ensures scene.None? ==> r == Err(NullScene(importerError))
    ensures scene.Some? ==> (r.Ok? <==> forall i :: 0 <= i < |scene.value| ==> Triangulated(scene.value[i].faces))
    ensures scene.Some? && r.Ok? ==> |r.value| == |scene.value|
  {
    if scene.None? {
      return Err(NullScene(importerError));
    }
    r := InitScene(scene.value, normalize, tangent);
  }
}
