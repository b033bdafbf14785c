// Packing imported models into shared GL buffers (ImportHelper): models are
// grouped by vertex stride in a std::map, so groups are visited in ascending
// stride order; all index data goes into one element buffer, each group's
// vertex data into its own vertex buffer, and every mesh descriptor receives
// the offsets of its data inside those buffers.

module ImportHelper {
  import opened GLTypes
  import Memory
  import SeqUtil

  /** A model as the importer hands it over: counts, strides and raw data. */
  datatype ModelSystemObject = ModelSystemObject(
    nrVertices: nat, nrIndices: nat, vertexStride: nat, indicesStride: nat,
    vertexData: seq<bv8>, indicesData: seq<bv8>,
    primitiveType: int, bound: Bound)

  function IndexByteSize(m: ModelSystemObject): nat { m.indicesStride * m.nrIndices }

  function VertexByteSize(m: ModelSystemObject): nat { m.vertexStride * m.nrVertices }

  /** memcpy reads IndexByteSize and VertexByteSize bytes from the model's buffers. */
  predicate Readable(m: ModelSystemObject)
  {
    |m.indicesData| >= IndexByteSize(m) && |m.vertexData| >= VertexByteSize(m)
  }

  predicate AllReadable(models: seq<ModelSystemObject>)
  {
    forall j :: 0 <= j < |models| ==> Readable(models[j])
  }

  // ---------------------------------------------------------------------
  // Sums over sequences of model indices

  /** The per-model quantities the packing loops add up. */
  datatype Measure = IndexCount | VertexCount | IndexBytes | VertexBytes

  function Size(models: seq<ModelSystemObject>, j: nat, f: Measure): nat
  {
    if j < |models| then
      match f
      case IndexCount => models[j].nrIndices
      case VertexCount => models[j].nrVertices
      case IndexBytes => IndexByteSize(models[j])
      case VertexBytes => VertexByteSize(models[j])
    else 0
  }

  /** The sum of measure f over the models named by order. */
  function SumOver(models: seq<ModelSystemObject>, order: seq<nat>, f: Measure): nat
  {
    if order == [] then 0
    else SumOver(models, order[..|order| - 1], f) + Size(models, order[|order| - 1], f)
  }

  lemma {:induction false} SumOverAppend(models: seq<ModelSystemObject>, a: seq<nat>, b: seq<nat>, f: Measure)
    ensures SumOver(models, a + b, f) == SumOver(models, a, f) + SumOver(models, b, f)
  {
    if b == [] {
      assert a + b == a;
    } else {
      assert (a + b)[..|a + b| - 1] == a + b[..|b| - 1];
      SumOverAppend(models, a, b[..|b| - 1], f);
    }
  }

  /** How often j occurs in s. */
  function Count(s: seq<nat>, j: nat): nat
  {
    if s == [] then 0 else Count(s[..|s| - 1], j) + (if s[|s| - 1] == j then 1 else 0)
  }

  lemma {:induction false} CountAppend(a: seq<nat>, b: seq<nat>, j: nat)
    ensures Count(a + b, j) == Count(a, j) + Count(b, j)
  {
    if b == [] {
      assert a + b == a;
    } else {
      assert (a + b)[..|a + b| - 1] == a + b[..|b| - 1];
      CountAppend(a, b[..|b| - 1], j);
    }
  }

  lemma {:induction false} CountFind(s: seq<nat>, x: nat) returns (i: nat)
    requires Count(s, x) > 0
    ensures i < |s| && s[i] == x
  {
    if s[|s| - 1] == x {
      i := |s| - 1;
    } else {
      i := CountFind(s[..|s| - 1], x);
    }
  }

  /** a and b hold the same elements, each as often: one is a permutation of the other. */
  ghost predicate SameCounts(a: seq<nat>, b: seq<nat>)
  {
    forall j: nat :: Count(a, j) == Count(b, j)
  }

  /** A sum does not depend on the order the models are visited in. */
  lemma {:induction false} SumOverPermutation(models: seq<ModelSystemObject>, a: seq<nat>, b: seq<nat>, f: Measure)
    requires SameCounts(a, b)
    ensures SumOver(models, a, f) == SumOver(models, b, f)
    decreases |a|
  {
    if a == [] {
      if b != [] {
        var c := Count(b, b[|b| - 1]);
        assert false;
      }
    } else {
      var x, front := a[|a| - 1], a[..|a| - 1];
      assert Count(b, x) > 0;
      var i := CountFind(b, x);
      var rest := b[..i] + b[i + 1..];
      assert b == b[..i] + [x] + b[i + 1..];
      assert [x][..0] == [];
      forall j: nat ensures Count(front, j) == Count(rest, j) {
        CountAppend(b[..i] + [x], b[i + 1..], j);
        CountAppend(b[..i], [x], j);
        CountAppend(b[..i], b[i + 1..], j);
      }
      SumOverPermutation(models, front, rest, f);
      SumOverAppend(models, b[..i] + [x], b[i + 1..], f);
      SumOverAppend(models, b[..i], [x], f);
      SumOverAppend(models, b[..i], b[i + 1..], f);
    }
  }

  /** 0, 1, ..., n - 1: the models in their original order. */
  function Range(n: nat): (r: seq<nat>)
    ensures |r| == n
  {
    if n == 0 then [] else Range(n - 1) + [n - 1]
  }

  lemma {:induction false} CountRange(n: nat, j: nat)
    ensures Count(Range(n), j) == if j < n then 1 else 0
  {
    if n > 0 {
      CountRange(n - 1, j);
    }
  }

  // ---------------------------------------------------------------------
  // The bytes the copy loops produce

  /** Which of a model's buffers is copied. */
  datatype Payload = Indices | Vertices

  /**
   * The bytes memcpy reads from one of the model's buffers. A buffer shorter
   * than its byte size would be read past its end; every operation here
   * requires Readable, and the padding only keeps the function total.
   */
  function Chunk(m: ModelSystemObject, w: Payload): (r: seq<bv8>)
    ensures |r| == if w == Indices then IndexByteSize(m) else VertexByteSize(m)
  {
    var data, size := if w == Indices then m.indicesData else m.vertexData,
                      if w == Indices then IndexByteSize(m) else VertexByteSize(m);
    if |data| >= size then data[..size] else data + seq(size - |data|, _ => 0 as bv8)
  }

  /** The bytes of the models named by order, copied back to back. */
  function BytesOf(models: seq<ModelSystemObject>, order: seq<nat>, w: Payload): (r: seq<bv8>)
    ensures |r| == SumOver(models, order, ByteMeasure(w))
  {
    if order == [] then []
    else
      var j := order[|order| - 1];
      BytesOf(models, order[..|order| - 1], w) + (if j < |models| then Chunk(models[j], w) else [])
  }

  function ByteMeasure(w: Payload): Measure
  {
    if w == Indices then IndexBytes else VertexBytes
  }

  lemma {:induction false} BytesOfAppend(models: seq<ModelSystemObject>, a: seq<nat>, b: seq<nat>, w: Payload)
    ensures BytesOf(models, a + b, w) == BytesOf(models, a, w) + BytesOf(models, b, w)
  {
    if b == [] {
      assert a + b == a;
    } else {
      var front, last := b[..|b| - 1], b[|b| - 1];
      var c := if last < |models| then Chunk(models[last], w) else [];
      assert (a + b)[..|a + b| - 1] == a + front;
      assert BytesOf(models, a + b, w) == BytesOf(models, a + front, w) + c;
      BytesOfAppend(models, a, front, w);
      assert BytesOf(models, b, w) == BytesOf(models, front, w) + c;
      var x, y := BytesOf(models, a, w), BytesOf(models, front, w);
      SeqUtil.AppendAssoc(x, y, c);
    }
  }

  // ---------------------------------------------------------------------
  // Grouping by vertex stride

  /** The indices below k of the models with vertex stride s, in model order. */
  function StrideGroup(models: seq<ModelSystemObject>, s: nat, k: nat): seq<nat>
    requires k <= |models|
  {
    if k == 0 then []
    else StrideGroup(models, s, k - 1) + (if models[k - 1].vertexStride == s then [k - 1] else [])
  }

  /** The indices below k of the models with a vertex stride smaller than s. */
  predicate Below(models: seq<ModelSystemObject>, s: nat, j: nat)
    requires j < |models|
  {
    models[j].vertexStride < s
  }

  function LessStride(models: seq<ModelSystemObject>, s: nat, k: nat): seq<nat>
    requires k <= |models|
  {
    if k == 0 then []
    else LessStride(models, s, k - 1) + (if Below(models, s, k - 1) then [k - 1] else [])
  }

  /** The vertex strides of the first k models. */
  function Strides(models: seq<ModelSystemObject>, k: nat): set<nat>
    requires k <= |models|
  {
    if k == 0 then {} else Strides(models, k - 1) + {models[k - 1].vertexStride}
  }

  lemma {:induction false} StrideInStrides(models: seq<ModelSystemObject>, i: nat, k: nat)
    requires i < k <= |models|
    ensures models[i].vertexStride in Strides(models, k)
  {
    if i < k - 1 {
      StrideInStrides(models, i, k - 1);
    }
  }

  /** std::map<int, std::vector<ModelTemp>> after the first k models were pushed. */
  function GroupsUpTo(models: seq<ModelSystemObject>, k: nat): map<nat, seq<nat>>
    requires k <= |models|
  {
    map s | s in Strides(models, k) :: StrideGroup(models, s, k)
  }

  /** map[stride].push_back(i): a missing key reads as the empty vector. */
  function Push(groups: map<nat, seq<nat>>, s: nat, i: nat): map<nat, seq<nat>>
  {
    groups[s := (if s in groups then groups[s] else []) + [i]]
  }

  lemma GroupsStep(models: seq<ModelSystemObject>, k: nat)
    requires k < |models|
    ensures GroupsUpTo(models, k + 1) == Push(GroupsUpTo(models, k), models[k].vertexStride, k)
  {
    var s := models[k].vertexStride;
    var next, pushed := GroupsUpTo(models, k + 1), Push(GroupsUpTo(models, k), s, k);
    if s !in Strides(models, k) {
      GroupEmpty(models, s, k);
    }
    assert next.Keys == pushed.Keys;
    forall t | t in next.Keys ensures next[t] == pushed[t] {
    }
  }

  lemma {:induction false} GroupEmpty(models: seq<ModelSystemObject>, s: nat, k: nat)
    requires k <= |models| && s !in Strides(models, k)
    ensures StrideGroup(models, s, k) == []
  {
    if k > 0 {
      GroupEmpty(models, s, k - 1);
    }
  }

  /** Every index below k with stride s is in the stride-s group exactly once, and nothing else is. */
  /** Appending one index counts it once. */
  lemma CountSnoc(s: seq<nat>, x: nat, j: nat)
    ensures Count(s + [x], j) == Count(s, j) + (if x == j then 1 else 0)
  {
    assert (s + [x])[..|s + [x]| - 1] == s;
  }

  lemma {:induction false} CountGroup(models: seq<ModelSystemObject>, s: nat, k: nat, j: nat)
    requires k <= |models|
    ensures Count(StrideGroup(models, s, k), j) == if j < k && models[j].vertexStride == s then 1 else 0
  {
    if k > 0 {
      var prev := StrideGroup(models, s, k - 1);
      CountGroup(models, s, k - 1, j);
      if models[k - 1].vertexStride == s {
        assert StrideGroup(models, s, k) == prev + [k - 1];
        CountSnoc(prev, k - 1, j);
      } else {
        assert StrideGroup(models, s, k) == prev;
      }
    }
  }

  lemma {:induction false} CountLess(models: seq<ModelSystemObject>, s: nat, k: nat, j: nat)
    requires k <= |models|
    ensures Count(LessStride(models, s, k), j) == if j < k && Below(models, s, j) then 1 else 0
  {
    if k > 0 {
      var prev := LessStride(models, s, k - 1);
      CountLess(models, s, k - 1, j);
      if Below(models, s, k - 1) {
        assert LessStride(models, s, k) == prev + [k - 1];
        CountSnoc(prev, k - 1, j);
      } else {
        assert LessStride(models, s, k) == prev;
      }
    }
  }

  /** The members of a stride group: below k, of stride s, strictly increasing. */
  lemma {:induction false} GroupMembers(models: seq<ModelSystemObject>, s: nat, k: nat)
    requires k <= |models|
    ensures forall t :: 0 <= t < |StrideGroup(models, s, k)| ==>
      StrideGroup(models, s, k)[t] < k && models[StrideGroup(models, s, k)[t]].vertexStride == s
    ensures forall t, u :: 0 <= t < u < |StrideGroup(models, s, k)| ==>
      StrideGroup(models, s, k)[t] < StrideGroup(models, s, k)[u]
  {
    if k > 0 {
      GroupMembers(models, s, k - 1);
    }
  }

  /** The group members before position t are exactly the stride-s models before that member. */
  lemma {:induction false} GroupPrefix(models: seq<ModelSystemObject>, s: nat, k: nat, t: nat)
    requires k <= |models|
    requires t < |StrideGroup(models, s, k)|
    ensures StrideGroup(models, s, k)[t] < k
    ensures StrideGroup(models, s, k)[..t] == StrideGroup(models, s, StrideGroup(models, s, k)[t])
  {
    var g := StrideGroup(models, s, k);
    var prev := StrideGroup(models, s, k - 1);
    GroupMembers(models, s, k);
    if t < |prev| {
      assert g[..t] == prev[..t] && g[t] == prev[t];
      GroupPrefix(models, s, k - 1, t);
    } else {
      assert g == prev + [k - 1] && g[t] == k - 1 && t == |prev|;
      assert g[..t] == prev;
    }
  }

  // ---------------------------------------------------------------------
  // The ascending key order of std::map

  lemma {:induction false} MinOf(s: set<nat>) returns (m: nat)
    requires s != {}
    ensures m in s && forall y :: y in s ==> m <= y
    decreases |s|
  {
    var x :| x in s;
    if s == {x} {
      m := x;
    } else {
      var rest := s - {x};
      var r := MinOf(rest);
      m := if x < r then x else r;
      forall y | y in s ensures m <= y {
        if y != x {
          assert y in rest;
        }
      }
    }
  }

  lemma MinExists(s: set<nat>)
    requires s != {}
    ensures exists m :: m in s && forall y :: y in s ==> m <= y
  {
    var m := MinOf(s);
  }

  function SetMin(s: set<nat>): (m: nat)
    requires s != {}
    ensures m in s && forall y :: y in s ==> m <= y
  {
    MinExists(s);
    var m :| m in s && forall y :: y in s ==> m <= y;
    m
  }

  /** The keys of a std::map<int, ...> in the order its iterator visits them. */
  function SortedKeys(s: set<nat>): (r: seq<nat>)
    ensures forall i, j :: 0 <= i < j < |r| ==> r[i] < r[j]
    ensures forall x :: x in r <==> x in s
    decreases |s|
  {
    if s == {} then []
    else
      var m := SetMin(s);
      var rest := SortedKeys(s - {m});
      assert forall x :: x in rest ==> m < x;
      [m] + rest
  }

  predicate Ascending(keys: seq<nat>)
  {
    forall i, j :: 0 <= i < j < |keys| ==> keys[i] < keys[j]
  }

  /** The index of s among keys. */
  function IndexIn(keys: seq<nat>, s: nat): (g: nat)
    requires s in keys
    ensures g < |keys| && keys[g] == s
  {
    if keys[0] == s then 0 else 1 + IndexIn(keys[1..], s)
  }

  lemma IndexInAscending(keys: seq<nat>, g: nat)
    requires Ascending(keys) && g < |keys|
    ensures IndexIn(keys, keys[g]) == g
  {
    var h := IndexIn(keys, keys[g]);
    assert !(h < g) && !(g < h);
  }

  /** The strides present among the models, in ascending order: the groups' visit order. */
  function StrideKeys(models: seq<ModelSystemObject>): seq<nat>
  {
    SortedKeys(Strides(models, |models|))
  }

  /** The first g groups, in key order, concatenated. */
  function ConcatGroups(models: seq<ModelSystemObject>, keys: seq<nat>, g: nat): seq<nat>
    requires g <= |keys|
  {
    if g == 0 then [] else ConcatGroups(models, keys, g - 1) + StrideGroup(models, keys[g - 1], |models|)
  }

  /** The order both copy loops and the descriptor loop visit the models in. */
  function GroupedOrder(models: seq<ModelSystemObject>): seq<nat>
  {
    var keys := StrideKeys(models);
    ConcatGroups(models, keys, |keys|)
  }

  /** The position of model j's group among the keys, past the end when its stride is no key. */
  function GroupOf(models: seq<ModelSystemObject>, keys: seq<nat>, j: nat): nat
    requires j < |models|
  {
    if models[j].vertexStride in keys then IndexIn(keys, models[j].vertexStride) else |keys|
  }

  lemma {:induction false} CountConcat(models: seq<ModelSystemObject>, keys: seq<nat>, g: nat, j: nat)
    requires Ascending(keys) && g <= |keys|
    ensures Count(ConcatGroups(models, keys, g), j) ==
      if j < |models| && GroupOf(models, keys, j) < g then 1 else 0
  {
    if g > 0 {
      var prev, group := ConcatGroups(models, keys, g - 1), StrideGroup(models, keys[g - 1], |models|);
      CountConcat(models, keys, g - 1, j);
      CountAppend(prev, group, j);
      CountGroup(models, keys[g - 1], |models|, j);
      if j < |models| {
        if models[j].vertexStride == keys[g - 1] {
          IndexInAscending(keys, g - 1);
          assert GroupOf(models, keys, j) == g - 1;
        } else {
          assert Count(group, j) == 0;
          assert GroupOf(models, keys, j) != g - 1;
        }
      } else {
        assert Count(prev, j) == 0 && Count(group, j) == 0;
      }
    }
  }

  /** Every model is visited exactly once: the grouped order is a permutation of the models. */
  lemma GroupedOrderIsPermutation(models: seq<ModelSystemObject>)
    ensures SameCounts(GroupedOrder(models), Range(|models|))
  {
    var keys := StrideKeys(models);
    forall j: nat ensures Count(GroupedOrder(models), j) == Count(Range(|models|), j) {
      CountConcat(models, keys, |keys|, j);
      CountRange(|models|, j);
      if j < |models| {
        StrideInStrides(models, j, |models|);
      }
    }
  }

  /** The groups before key g hold exactly the models of a smaller stride. */
  lemma ConcatIsLess(models: seq<ModelSystemObject>, keys: seq<nat>, g: nat)
    requires Ascending(keys) && g < |keys|
    requires forall j :: 0 <= j < |models| ==> models[j].vertexStride in keys
    ensures SameCounts(ConcatGroups(models, keys, g), LessStride(models, keys[g], |models|))
  {
    forall j: nat ensures Count(ConcatGroups(models, keys, g), j)
                       == Count(LessStride(models, keys[g], |models|), j) {
      ConcatIsLessAt(models, keys, g, j);
    }
  }

  lemma ConcatIsLessAt(models: seq<ModelSystemObject>, keys: seq<nat>, g: nat, j: nat)
    requires Ascending(keys) && g < |keys|
    requires forall j :: 0 <= j < |models| ==> models[j].vertexStride in keys
    ensures Count(ConcatGroups(models, keys, g), j) == Count(LessStride(models, keys[g], |models|), j)
  {
    CountConcat(models, keys, g, j);
    CountLess(models, keys[g], |models|, j);
    if j < |models| {
      assert models[j].vertexStride in keys;
      var h := IndexIn(keys, models[j].vertexStride);
      assert GroupOf(models, keys, j) == h;
      if h < g {
        assert keys[h] < keys[g];
      } else if h > g {
        assert keys[g] < keys[h];
      }
    }
  }

  /** Every model's stride is one of the keys. */
  lemma StridesAreKeys(models: seq<ModelSystemObject>)
    ensures forall j :: 0 <= j < |models| ==> models[j].vertexStride in StrideKeys(models)
  {
    forall j | 0 <= j < |models| ensures models[j].vertexStride in StrideKeys(models) {
      StrideInStrides(models, j, |models|);
    }
  }

  // ---------------------------------------------------------------------
  // The descriptors loadModelBuffer writes

  /** The GL names the driver hands out, in call order: the element buffer first, then per group a vertex buffer and a vertex array. */
  datatype GLNames = GLNames(buffers: seq<nat>, vertexArrays: seq<nat>)

  predicate NamesSuffice(models: seq<ModelSystemObject>, names: GLNames)
  {
    |names.buffers| > |StrideKeys(models)| && |names.vertexArrays| >= |StrideKeys(models)|
  }

  /** The switch on the model's primitive type: 1 points, 2 lines, anything else triangles. */
  function PrimitiveOf(t: int): (p: PrimitiveType)
    ensures p == Points <==> t == 1
    ensures p == Lines <==> t == 2
  {
    if t == 1 then Points else if t == 2 then Lines else Triangles
  }

  /**
   * The descriptor of model i: its indices start after those of every model
   * of a smaller stride and of every earlier model of its own stride, its
   * vertices after those of the earlier models of its own stride, and it
   * uses the shared element buffer and its group's vertex buffer and array.
   */
  function MeshAt(models: seq<ModelSystemObject>, i: nat, names: GLNames): MeshObject
    requires i < |models| && NamesSuffice(models, names)
  {
    var m := models[i];
    var s := m.vertexStride;
    StridesAreKeys(models);
    var g := IndexIn(StrideKeys(models), s);
    MeshObject(
      vao := names.vertexArrays[g], vbo := names.buffers[g + 1], ibo := names.buffers[0],
      indicesOffset := SumOver(models, LessStride(models, s, |models|), IndexCount)
                       + SumOver(models, StrideGroup(models, s, i), IndexCount),
      vertexOffset := SumOver(models, StrideGroup(models, s, i), VertexCount),
      nrIndicesElements := m.nrIndices, nrVertices := m.nrVertices,
      primitiveType := PrimitiveOf(m.primitiveType), bound := m.bound)
  }

  /** The descriptor of every model, in the models' own order. */
  function Descriptors(models: seq<ModelSystemObject>, names: GLNames): (r: seq<MeshObject>)
    requires NamesSuffice(models, names)
    ensures |r| == |models| && forall i :: 0 <= i < |models| ==> r[i] == MeshAt(models, i, names)
  {
    seq(|models|, i requires 0 <= i < |models| => MeshAt(models, i, names))
  }

  // ---------------------------------------------------------------------
  // The loops of loadModelBuffer

  /** loadModelBuffer's sorting loop: the stride map and the total size of the index data. */
  method GroupByStride(models: seq<ModelSystemObject>) returns (groups: map<nat, seq<nat>>, indicesDataSize: nat)
    ensures groups == GroupsUpTo(models, |models|)
    ensures indicesDataSize == SumOver(models, Range(|models|), IndexBytes)
  {
    groups := map[];
    indicesDataSize := 0;
    var i := 0;
    while i < |models|
      invariant 0 <= i <= |models|
      invariant groups == GroupsUpTo(models, i)
      invariant indicesDataSize == SumOver(models, Range(i), IndexBytes)
    {
      GroupsStep(models, i);
      groups := Push(groups, models[i].vertexStride, i);
      assert Range(i + 1)[..i] == Range(i);
      indicesDataSize := indicesDataSize + IndexByteSize(models[i]);
      i := i + 1;
    }
  }

  lemma SumOverPrefix(models: seq<ModelSystemObject>, order: seq<nat>, t: nat, f: Measure)
    requires t <= |order|
    ensures SumOver(models, order[..t], f) <= SumOver(models, order, f)
  {
    assert order == order[..t] + order[t..];
    SumOverAppend(models, order[..t], order[t..], f);
  }

  predicate InRange(models: seq<ModelSystemObject>, order: seq<nat>)
  {
    forall t :: 0 <= t < |order| ==> order[t] < |models|
  }

  /** One memcpy per model of order, each at the byte where the previous one ended. */
  method CopyEach(buffer: array<bv8>, offset: nat, models: seq<ModelSystemObject>, order: seq<nat>, w: Payload)
    returns (next: nat)
    requires InRange(models, order)
    requires offset + SumOver(models, order, ByteMeasure(w)) <= buffer.Length
    modifies buffer
    ensures next == offset + SumOver(models, order, ByteMeasure(w))
    ensures buffer[..] == Memory.Overwrite(old(buffer[..]), offset, BytesOf(models, order, w))
  {
    ghost var initial := buffer[..];
    next := offset;
    var t := 0;
    while t < |order|
      invariant 0 <= t <= |order|
      invariant next == offset + SumOver(models, order[..t], ByteMeasure(w))
      invariant next <= buffer.Length
      invariant buffer[..] == Memory.Overwrite(initial, offset, BytesOf(models, order[..t], w))
    {
      next := CopyOne(buffer, initial, offset, next, models, order, t, w);
      t := t + 1;
    }
    assert order[..t] == order;
  }

  /** The memcpy of model order[t] and the advance of the offset past it. */
  method CopyOne(buffer: array<bv8>, ghost initial: seq<bv8>, offset: nat, next: nat,
                 models: seq<ModelSystemObject>, order: seq<nat>, t: nat, w: Payload)
    returns (after: nat)
    requires InRange(models, order) && t < |order| && |initial| == buffer.Length
    requires offset + SumOver(models, order, ByteMeasure(w)) <= buffer.Length
    requires next == offset + SumOver(models, order[..t], ByteMeasure(w)) && next <= buffer.Length
    requires buffer[..] == Memory.Overwrite(initial, offset, BytesOf(models, order[..t], w))
    modifies buffer
    ensures after == offset + SumOver(models, order[..t + 1], ByteMeasure(w)) && after <= buffer.Length
    ensures buffer[..] == Memory.Overwrite(initial, offset, BytesOf(models, order[..t + 1], w))
  {
    CopyStep(models, order, t, w);
    var chunk := Chunk(models[order[t]], w);
    Memory.Memcpy(buffer, next, chunk);
    Memory.OverwriteThen(initial, offset, BytesOf(models, order[..t], w), chunk);
    after := next + |chunk|;
  }

  lemma CopyStep(models: seq<ModelSystemObject>, order: seq<nat>, t: nat, w: Payload)
    requires t < |order| && order[t] < |models|
    ensures BytesOf(models, order[..t + 1], w) == BytesOf(models, order[..t], w) + Chunk(models[order[t]], w)
    ensures SumOver(models, order[..t + 1], ByteMeasure(w)) <= SumOver(models, order, ByteMeasure(w))
  {
    assert order[..t + 1][..t] == order[..t];
    SumOverPrefix(models, order, t + 1, ByteMeasure(w));
  }

  lemma ConcatGrows(models: seq<ModelSystemObject>, keys: seq<nat>, g: nat, h: nat, f: Measure)
    requires g <= h <= |keys|
    ensures SumOver(models, ConcatGroups(models, keys, g), f) <= SumOver(models, ConcatGroups(models, keys, h), f)
    decreases h
  {
    if g < h {
      ConcatGrows(models, keys, g, h - 1, f);
      SumOverAppend(models, ConcatGroups(models, keys, h - 1), StrideGroup(models, keys[h - 1], |models|), f);
    }
  }

  lemma GroupInRange(models: seq<ModelSystemObject>, s: nat)
    ensures InRange(models, StrideGroup(models, s, |models|))
  {
    GroupMembers(models, s, |models|);
  }

  /** loadModelBuffer's index copy: every group's index data, groups in key order, into the element buffer. */
  method CopyIndexData(elements: array<bv8>, models: seq<ModelSystemObject>, keys: seq<nat>)
    requires keys == StrideKeys(models)
    requires elements.Length == SumOver(models, GroupedOrder(models), IndexBytes)
    modifies elements
    ensures elements[..] == BytesOf(models, GroupedOrder(models), Indices)
  {
    ghost var initial := elements[..];
    var offset := 0;
    var g := 0;
    while g < |keys|
      invariant 0 <= g <= |keys|
      invariant offset == SumOver(models, ConcatGroups(models, keys, g), IndexBytes)
      invariant offset <= elements.Length
      invariant elements[..] == Memory.Overwrite(initial, 0, BytesOf(models, ConcatGroups(models, keys, g), Indices))
    {
      offset := CopyGroupIndices(elements, initial, models, keys, g, offset);
      g := g + 1;
    }
    Memory.OverwriteAll(initial, BytesOf(models, GroupedOrder(models), Indices));
  }

  /** The index data of group g, after that of the groups before it. */
  method CopyGroupIndices(elements: array<bv8>, ghost initial: seq<bv8>, models: seq<ModelSystemObject>,
                          keys: seq<nat>, g: nat, offset: nat)
    returns (next: nat)
    requires keys == StrideKeys(models) && g < |keys| && |initial| == elements.Length
    requires elements.Length == SumOver(models, GroupedOrder(models), IndexBytes)
    requires offset == SumOver(models, ConcatGroups(models, keys, g), IndexBytes) && offset <= elements.Length
    requires elements[..] == Memory.Overwrite(initial, 0, BytesOf(models, ConcatGroups(models, keys, g), Indices))
    modifies elements
    ensures next == SumOver(models, ConcatGroups(models, keys, g + 1), IndexBytes)
    ensures |BytesOf(models, ConcatGroups(models, keys, g + 1), Indices)| <= |initial|
    ensures elements[..] == Memory.Overwrite(initial, 0, BytesOf(models, ConcatGroups(models, keys, g + 1), Indices))
  {
    var group := StrideGroup(models, keys[g], |models|);
    GroupInRange(models, keys[g]);
    ConcatGrows(models, keys, g + 1, |keys|, IndexBytes);
    SumOverAppend(models, ConcatGroups(models, keys, g), group, IndexBytes);
    BytesOfAppend(models, ConcatGroups(models, keys, g), group, Indices);
    next := CopyEach(elements, offset, models, group, Indices);
    Memory.OverwriteThen(initial, 0, BytesOf(models, ConcatGroups(models, keys, g), Indices), BytesOf(models, group, Indices));
  }

  /** loadModelBuffer's vertex-buffer fill: the size of one group's vertex data, and the buffer holding it. */
  method FillVertexBuffer(models: seq<ModelSystemObject>, group: seq<nat>) returns (data: seq<bv8>)
    requires InRange(models, group)
    ensures data == BytesOf(models, group, Vertices)
  {
    var vertexDataSize := 0;
    var t := 0;
    while t < |group|
      invariant 0 <= t <= |group|
      invariant vertexDataSize == SumOver(models, group[..t], VertexBytes)
    {
      assert group[..t + 1][..t] == group[..t];
      vertexDataSize := vertexDataSize + VertexByteSize(models[group[t]]);
      t := t + 1;
    }
    assert group[..t] == group;
    var buffer := new bv8[vertexDataSize];
    ghost var initial := buffer[..];
    var end := CopyEach(buffer, 0, models, group, Vertices);
    Memory.OverwriteAll(initial, BytesOf(models, group, Vertices));
    data := buffer[..];
  }

  /** Model j is in the stride-s group of the first k models exactly when it is one of them and has stride s. */
  lemma {:induction false} InGroup(models: seq<ModelSystemObject>, s: nat, k: nat, j: nat)
    requires k <= |models|
    ensures j in StrideGroup(models, s, k) <==> j < k && models[j].vertexStride == s
  {
    if k > 0 {
      InGroup(models, s, k - 1, j);
    }
  }

  /** The t-th member of group g has the group's stride, is not among the members before it, and they are its group's prefix. */
  lemma GroupSlot(models: seq<ModelSystemObject>, s: nat, t: nat)
    requires t < |StrideGroup(models, s, |models|)|
    ensures var group := StrideGroup(models, s, |models|);
      var i := group[t];
      i < |models| && i !in group[..t] && group[..t + 1] == group[..t] + [i] &&
      models[i].vertexStride == s && StrideGroup(models, s, i) == group[..t]
  {
    var group := StrideGroup(models, s, |models|);
    GroupMembers(models, s, |models|);
    GroupPrefix(models, s, |models|, t);
    assert group[..t + 1] == group[..t] + [group[t]];
  }

  /** What the descriptor of a member of group g holds, given the members of its group before it. */
  lemma MeshOfMember(models: seq<ModelSystemObject>, keys: seq<nat>, g: nat, names: GLNames, i: nat, before: seq<nat>)
    requires keys == StrideKeys(models) && g < |keys| && NamesSuffice(models, names)
    requires i < |models| && models[i].vertexStride == keys[g] && StrideGroup(models, keys[g], i) == before
    ensures MeshAt(models, i, names) == MeshObject(
        vao := names.vertexArrays[g], vbo := names.buffers[g + 1], ibo := names.buffers[0],
        indicesOffset := SumOver(models, LessStride(models, keys[g], |models|), IndexCount)
                         + SumOver(models, before, IndexCount),
        vertexOffset := SumOver(models, before, VertexCount),
        nrIndicesElements := models[i].nrIndices, nrVertices := models[i].nrVertices,
        primitiveType := PrimitiveOf(models[i].primitiveType), bound := models[i].bound)
  {
    IndexInAscending(keys, g);
  }

  /** loadModelBuffer's descriptor loop body: the descriptor of the t-th model of group g. */
  method AssignOne(meshes: array<MeshObject>, ghost prev: seq<MeshObject>, ghost target: seq<MeshObject>, models: seq<ModelSystemObject>,
                   keys: seq<nat>, g: nat, names: GLNames, group: seq<nat>, t: nat,
                   base: nat, indicesOffset: nat, verticesOffset: nat)
    returns (nextIndices: nat, nextVertices: nat)
    requires keys == StrideKeys(models) && g < |keys| && NamesSuffice(models, names)
    requires group == StrideGroup(models, keys[g], |models|) && t < |group|
    requires meshes.Length == |models| == |prev|
    requires base == SumOver(models, LessStride(models, keys[g], |models|), IndexCount)
    requires indicesOffset == base + SumOver(models, group[..t], IndexCount)
    requires verticesOffset == SumOver(models, group[..t], VertexCount)
    requires target == Descriptors(models, names)
    requires forall j :: 0 <= j < |models| ==> meshes[j] == if j in group[..t] then target[j] else prev[j]
    modifies meshes
    ensures nextIndices == base + SumOver(models, group[..t + 1], IndexCount)
    ensures nextVertices == SumOver(models, group[..t + 1], VertexCount)
    ensures forall j :: 0 <= j < |models| ==> meshes[j] == if j in group[..t + 1] then target[j] else prev[j]
  {
    GroupSlot(models, keys[g], t);
    var i := group[t];
    var m := models[i];
    MeshOfMember(models, keys, g, names, i, group[..t]);
    meshes[i] := MeshObject(
      vao := names.vertexArrays[g], vbo := names.buffers[g + 1], ibo := names.buffers[0],
      indicesOffset := indicesOffset, vertexOffset := verticesOffset,
      nrIndicesElements := m.nrIndices, nrVertices := m.nrVertices,
      primitiveType := PrimitiveOf(m.primitiveType), bound := m.bound);
    assert meshes[i] == target[i];
    forall j | 0 <= j < |models| ensures meshes[j] == if j in group[..t + 1] then target[j] else prev[j] {
      if j != i {
        assert (j in group[..t + 1]) == (j in group[..t]);
      }
    }
    nextIndices := indicesOffset + m.nrIndices;
    nextVertices := verticesOffset + m.nrVertices;
  }

  /** The indices of the groups before group g are those of the models of a smaller stride. */
  lemma ConcatIndexCount(models: seq<ModelSystemObject>, keys: seq<nat>, g: nat)
    requires keys == StrideKeys(models) && g < |keys|
    ensures SumOver(models, ConcatGroups(models, keys, g), IndexCount)
         == SumOver(models, LessStride(models, keys[g], |models|), IndexCount)
  {
    StridesAreKeys(models);
    ConcatIsLess(models, keys, g);
    SumOverPermutation(models, ConcatGroups(models, keys, g), LessStride(models, keys[g], |models|), IndexCount);
  }

  /** The stride-s group holds exactly the models of stride s. */
  lemma GroupIsStride(models: seq<ModelSystemObject>, s: nat)
    ensures forall j :: 0 <= j < |models| ==> (j in StrideGroup(models, s, |models|) <==> models[j].vertexStride == s)
  {
    forall j | 0 <= j < |models| ensures j in StrideGroup(models, s, |models|) <==> models[j].vertexStride == s {
      InGroup(models, s, |models|, j);
    }
  }

  /** loadModelBuffer's descriptor loop: the descriptors of group g; the index offset carries on from the groups before it. */
  method AssignGroup(meshes: array<MeshObject>, models: seq<ModelSystemObject>, keys: seq<nat>, g: nat,
                     names: GLNames, indicesOffset: nat)
    returns (next: nat)
    requires keys == StrideKeys(models) && g < |keys| && NamesSuffice(models, names)
    requires meshes.Length == |models|
    requires indicesOffset == SumOver(models, ConcatGroups(models, keys, g), IndexCount)
    modifies meshes
    ensures next == SumOver(models, ConcatGroups(models, keys, g + 1), IndexCount)
    ensures forall j :: 0 <= j < |models| ==>
      meshes[j] == if models[j].vertexStride == keys[g] then MeshAt(models, j, names) else old(meshes[j])
  {
    ghost var prev := meshes[..];
    ghost var target := Descriptors(models, names);
    var group := StrideGroup(models, keys[g], |models|);
    ConcatIndexCount(models, keys, g);
    next := indicesOffset;
    var verticesOffset := 0;
    var t := 0;
    while t < |group|
      invariant 0 <= t <= |group|
      invariant next == indicesOffset + SumOver(models, group[..t], IndexCount)
      invariant verticesOffset == SumOver(models, group[..t], VertexCount)
      invariant forall j :: 0 <= j < |models| ==> meshes[j] == if j in group[..t] then target[j] else prev[j]
    {
      next, verticesOffset := AssignOne(meshes, prev, target, models, keys, g, names, group, t, indicesOffset, next, verticesOffset);
      t := t + 1;
    }
    assert group[..t] == group;
    SumOverAppend(models, ConcatGroups(models, keys, g), group, IndexCount);
    GroupIsStride(models, keys[g]);
  }

  /** The descriptors of the models whose stride is among the first g keys are written; the rest are still empty. */
  ghost predicate AssignedThrough(meshes: seq<MeshObject>, models: seq<ModelSystemObject>, keys: seq<nat>,
                                  g: nat, target: seq<MeshObject>)
    requires g <= |keys| && |meshes| == |models| == |target|
  {
    forall j :: 0 <= j < |models| ==>
      meshes[j] == if models[j].vertexStride in keys[..g] then target[j] else EmptyMesh
  }

  /** loadModelBuffer's per-group pass, one group: its vertex buffer, then the descriptors of its members. */
  method LoadGroup(meshes: array<MeshObject>, ghost target: seq<MeshObject>, models: seq<ModelSystemObject>,
                   keys: seq<nat>, g: nat, names: GLNames, group: seq<nat>, indicesOffset: nat,
                   buffers: seq<seq<bv8>>)
    returns (vertexBuffers: seq<seq<bv8>>, next: nat)
    requires keys == StrideKeys(models) && g < |keys| && NamesSuffice(models, names)
    requires group == StrideGroup(models, keys[g], |models|)
    requires meshes.Length == |models| && target == Descriptors(models, names)
    requires indicesOffset == SumOver(models, ConcatGroups(models, keys, g), IndexCount)
    requires buffers == GroupVertexBytes(models, keys, g)
    requires AssignedThrough(meshes[..], models, keys, g, target)
    modifies meshes
    ensures vertexBuffers == GroupVertexBytes(models, keys, g + 1)
    ensures next == SumOver(models, ConcatGroups(models, keys, g + 1), IndexCount)
    ensures AssignedThrough(meshes[..], models, keys, g + 1, target)
  {
    SeqUtil.PrefixSnoc(keys, g);
    GroupInRange(models, keys[g]);
    var data := FillVertexBuffer(models, group);
    vertexBuffers := buffers + [data];
    ghost var before := meshes[..];
    next := AssignGroup(meshes, models, keys, g, names, indicesOffset);
    forall j | 0 <= j < |models|
      ensures meshes[j] == if models[j].vertexStride in keys[..g + 1] then target[j] else EmptyMesh
    {
      if models[j].vertexStride != keys[g] {
        assert meshes[j] == before[j];
      }
    }
  }

  /** loadModelBuffer's index half: the stride groups, their keys in ascending order, and the element buffer. */
  method PackIndices(models: seq<ModelSystemObject>)
    returns (groups: map<nat, seq<nat>>, keys: seq<nat>, elements: seq<bv8>)
    ensures groups == GroupsUpTo(models, |models|) && keys == StrideKeys(models)
    ensures elements == BytesOf(models, GroupedOrder(models), Indices)
  {
    var indicesDataSize;
    groups, indicesDataSize := GroupByStride(models);
    assert groups.Keys == Strides(models, |models|);
    keys := SortedKeys(groups.Keys);
    GroupedOrderIsPermutation(models);
    SumOverPermutation(models, GroupedOrder(models), Range(|models|), IndexBytes);
    var buffer := new bv8[indicesDataSize];
    CopyIndexData(buffer, models, keys);
    elements := buffer[..];
  }

  /** The vertex bytes of the first g groups, one buffer per group. */
  function GroupVertexBytes(models: seq<ModelSystemObject>, keys: seq<nat>, g: nat): (r: seq<seq<bv8>>)
    requires g <= |keys|
    ensures |r| == g
    ensures forall h :: 0 <= h < g ==> r[h] == BytesOf(models, StrideGroup(models, keys[h], |models|), Vertices)
  {
    if g == 0 then [] else GroupVertexBytes(models, keys, g - 1) + [BytesOf(models, StrideGroup(models, keys[g - 1], |models|), Vertices)]
  }

  /** Once every group is done, every model has its descriptor. */
  lemma AllGroupsAssigned(models: seq<ModelSystemObject>, keys: seq<nat>, g: nat,
                          target: seq<MeshObject>, meshes: seq<MeshObject>)
    requires keys == StrideKeys(models) && g == |keys| && |meshes| == |models| == |target|
    requires AssignedThrough(meshes, models, keys, g, target)
    ensures meshes == target
  {
    StridesAreKeys(models);
    assert keys[..g] == keys;
  }

  /** The map entry of every key is that stride's group. */
  lemma GroupLookup(models: seq<ModelSystemObject>, groups: map<nat, seq<nat>>, keys: seq<nat>)
    requires groups == GroupsUpTo(models, |models|) && keys == StrideKeys(models)
    ensures forall g :: 0 <= g < |keys| ==> keys[g] in groups && groups[keys[g]] == StrideGroup(models, keys[g], |models|)
  {
    forall g | 0 <= g < |keys|
      ensures keys[g] in groups && groups[keys[g]] == StrideGroup(models, keys[g], |models|)
    {
      assert keys[g] in Strides(models, |models|);
    }
  }

  /** loadModelBuffer's vertex half: a vertex buffer per group, and every model's descriptor. */
  method LoadGroups(models: seq<ModelSystemObject>, names: GLNames, groups: map<nat, seq<nat>>, keys: seq<nat>)
    returns (meshes: array<MeshObject>, vertexBuffers: seq<seq<bv8>>)
    requires NamesSuffice(models, names)
    requires keys == StrideKeys(models)
    requires forall g :: 0 <= g < |keys| ==> keys[g] in groups && groups[keys[g]] == StrideGroup(models, keys[g], |models|)
    ensures meshes[..] == Descriptors(models, names)
    ensures vertexBuffers == GroupVertexBytes(models, keys, |keys|)
  {
    meshes := new MeshObject[|models|](_ => EmptyMesh);
    ghost var target := Descriptors(models, names);
    vertexBuffers := [];
    var indicesOffset := 0;
    var g := 0;
    assert keys[..g] == [];
    while g < |keys|
      invariant 0 <= g <= |keys| && meshes.Length == |models|
      invariant indicesOffset == SumOver(models, ConcatGroups(models, keys, g), IndexCount)
      invariant vertexBuffers == GroupVertexBytes(models, keys, g)
      invariant AssignedThrough(meshes[..], models, keys, g, target)
    {
      vertexBuffers, indicesOffset := LoadGroup(meshes, target, models, keys, g, names, groups[keys[g]],
                                                indicesOffset, vertexBuffers);
      g := g + 1;
    }
    AllGroupsAssigned(models, keys, g, target, meshes[..]);
  }

  /**
   * loadModelBuffer: group the models by vertex stride, pack every model's
   * indices into one element buffer in group order, give every group a
   * vertex buffer of its members' vertices, and write each model's
   * descriptor.
   */
  method LoadModelBuffer(models: seq<ModelSystemObject>, names: GLNames)
    returns (meshes: array<MeshObject>, elements: seq<bv8>, vertexBuffers: seq<seq<bv8>>)
    requires AllReadable(models) && NamesSuffice(models, names)
    ensures meshes[..] == Descriptors(models, names)
    ensures elements == BytesOf(models, GroupedOrder(models), Indices)
    ensures |vertexBuffers| == |StrideKeys(models)|
    ensures forall g :: 0 <= g < |vertexBuffers| ==>
      vertexBuffers[g] == BytesOf(models, StrideGroup(models, StrideKeys(models)[g], |models|), Vertices)
  {
    var groups, keys;
    groups, keys, elements := PackIndices(models);
    GroupLookup(models, groups, keys);
    meshes, vertexBuffers := LoadGroups(models, names, groups, keys);
  }
}
