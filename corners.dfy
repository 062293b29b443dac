/**
 * The per-corner attributes of one primitive (lines 258-286 of the importer) and the
 * vertex instances and vertex pairs its triangles produce (lines 288-337).
 */
module Corners {
  import opened Wrappers
  import opened OpenGex
  import opened Conversion
  import opened Attributes
  import opened UvChannels
  import opened MeshDescriptions

  /** The attribute lists gathered for one primitive: one entry per index, or empty when the array is absent. */
  datatype CornerAttributes = CornerAttributes(normals: seq<Vector3>, tangents: seq<Vector3>, uvs: seq<seq<Vector2>>)

  /** Each list either is empty or holds one entry per index. */
  predicate CornerAttributesFit(attrs: CornerAttributes, count: nat) {
    && (|attrs.normals| == 0 || |attrs.normals| == count)
    && (|attrs.tangents| == 0 || |attrs.tangents| == count)
    && forall ch | 0 <= ch < |attrs.uvs| :: |attrs.uvs[ch]| == count
  }

  /** Every slot of the decomposition is a position in a list of `count` arrays. */
  predicate SlotsIn(d: Decomposition, count: nat) {
    && (d.position.Some? ==> d.position.value < count)
    && (d.normal.Some? ==> d.normal.value < count)
    && (d.tangent.Some? ==> d.tangent.value < count)
    && (d.bitangent.Some? ==> d.bitangent.value < count)
    && (d.color.Some? ==> d.color.value < count)
    && forall ch | 0 <= ch < |d.texcoords| :: d.texcoords[ch] < count
  }

  /** The classification only produces slots within the list it classified. */
  lemma DecomposedSlotsIn(arrays: seq<VertexArray>)
    ensures SlotsIn(Decomposed(arrays), |arrays|)
  {
  }

  /**
   * Every attribute array the classification found has elements of the right arity, every
   * index of the primitive addresses one of its elements, and the texcoord arrays fit the
   * fixed UV buffer of line 272 (the importer checks none of this).
   */
  ghost predicate Gatherable(arrays: seq<VertexArray>, d: Decomposition, indices: seq<nat>) {
    && SlotsIn(d, |arrays|)
    && |d.texcoords| <= MaxUvChannels
    && (d.normal.Some? ==> HasArity(arrays[d.normal.value], 3) && Addresses(arrays[d.normal.value], indices, |indices|))
    && (d.tangent.Some? ==> HasArity(arrays[d.tangent.value], 3) && Addresses(arrays[d.tangent.value], indices, |indices|))
    && forall ch | 0 <= ch < |d.texcoords| ::
         HasArity(arrays[d.texcoords[ch]], 2) && Addresses(arrays[d.texcoords[ch]], indices, |indices|)
  }

  /** The converted element of `a` at each index. */
  ghost function Gathered3(a: VertexArray, indices: seq<nat>): seq<Vector3>
    requires HasArity(a, 3) && Addresses(a, indices, |indices|)
  {
    seq(|indices|, i requires 0 <= i < |indices| => ConvertFloat3(a.elements[indices[i]]))
  }

  ghost function Gathered2(a: VertexArray, indices: seq<nat>): seq<Vector2>
    requires HasArity(a, 2) && Addresses(a, indices, |indices|)
  {
    seq(|indices|, i requires 0 <= i < |indices| => ConvertFloat2(a.elements[indices[i]]))
  }

  /** One zero coordinate per index: the channel generated when the level has no texcoord array. */
  function Zeros(count: nat): (r: seq<Vector2>)
    ensures |r| == count && forall i | 0 <= i < count :: r[i] == Vector2(0.0, 0.0)
  {
    seq(count, _ => Vector2(0.0, 0.0))
  }

  /** The attribute lists of a primitive drawn from `arrays` with `indices`. */
  ghost function GatheredAttributes(arrays: seq<VertexArray>, d: Decomposition, indices: seq<nat>): CornerAttributes
    requires Gatherable(arrays, d, indices)
  {
    CornerAttributes(
      if d.normal.Some? then Gathered3(arrays[d.normal.value], indices) else [],
      if d.tangent.Some? then Gathered3(arrays[d.tangent.value], indices) else [],
      if |d.texcoords| == 0 then [Zeros(|indices|)]
      else seq(|d.texcoords|, ch requires 0 <= ch < |d.texcoords| => Gathered2(arrays[d.texcoords[ch]], indices)))
  }

  /** Each gathered list holds the converted element of its array at every index, and the generated channel is all zeros. */
  lemma GatheredAttributesAt(arrays: seq<VertexArray>, d: Decomposition, indices: seq<nat>)
    requires Gatherable(arrays, d, indices)
    ensures var attrs := GatheredAttributes(arrays, d, indices);
      && CornerAttributesFit(attrs, |indices|)
      && |attrs.normals| == (if d.normal.Some? then |indices| else 0)
      && |attrs.tangents| == (if d.tangent.Some? then |indices| else 0)
      && |attrs.uvs| == (if |d.texcoords| == 0 then 1 else |d.texcoords|)
      && (d.normal.Some? ==>
            forall i | 0 <= i < |indices| :: attrs.normals[i] == ConvertFloat3(arrays[d.normal.value].elements[indices[i]]))
      && (d.tangent.Some? ==>
            forall i | 0 <= i < |indices| :: attrs.tangents[i] == ConvertFloat3(arrays[d.tangent.value].elements[indices[i]]))
      && (|d.texcoords| == 0 ==> forall i | 0 <= i < |indices| :: attrs.uvs[0][i] == Vector2(0.0, 0.0))
      && (forall ch, i | 0 <= ch < |d.texcoords| && 0 <= i < |indices| ::
            attrs.uvs[ch][i] == ConvertFloat2(arrays[d.texcoords[ch]].elements[indices[i]]))
  {
  }

  /**
   * Gathers the normals, tangents and texture coordinates of one primitive, generating one
   * zero channel when the level has no texcoord array; `generated` reports that case.
   */
  method GatherCornerAttributes(arrays: seq<VertexArray>, d: Decomposition, indices: seq<nat>)
    returns (attrs: CornerAttributes, generated: bool)
    requires Gatherable(arrays, d, indices)
    ensures attrs == GatheredAttributes(arrays, d, indices)
    ensures generated <==> |d.texcoords| == 0
    ensures 0 < |attrs.uvs| <= MaxUvChannels
  {
    var normals: seq<Vector3> := [];
    if d.normal.Some? {
      normals := ReIndexFloat3(arrays[d.normal.value], indices);
    }
    var tangents: seq<Vector3> := [];
    if d.tangent.Some? {
      tangents := ReIndexFloat3(arrays[d.tangent.value], indices);
    }
    var uvs: seq<seq<Vector2>> := [];
    var source := UvSourceFor(|d.texcoords|);
    if source.GenerateZeros? {
      uvs := [Zeros(|indices|)];
      generated := true;
    } else {
      generated := false;
      for ch := 0 to source.count
        invariant |uvs| == ch
        invariant forall c | 0 <= c < ch :: uvs[c] == Gathered2(arrays[d.texcoords[c]], indices)
      {
        // `UVs[ch]` is inside the buffer of `MaxUvChannels` lists
        assert ch < MaxUvChannels;
        var channel := ReIndexFloat2(arrays[d.texcoords[ch]], indices);
        uvs := uvs + [channel];
      }
    }
    attrs := CornerAttributes(normals, tangents, uvs);
  }

  /** A primitive's flat index list, the vertex id of each position index, and its gathered attributes. */
  datatype Primitive = Primitive(indices: seq<nat>, vertexOf: map<nat, nat>, attrs: CornerAttributes)

  /** The attributes fit the indices and every index used by a whole triangle has a vertex. */
  ghost predicate WellFormed(p: Primitive) {
    && CornerAttributesFit(p.attrs, |p.indices|)
    && forall ii | 0 <= ii < 3 * WholeTriangles(p.indices) :: p.indices[ii] in p.vertexOf
  }

  /** The vertex of corner `ii` of the flat index list. */
  function CornerVertex(p: Primitive, ii: nat): nat
    requires ii < |p.indices| && p.indices[ii] in p.vertexOf
  {
    p.vertexOf[p.indices[ii]]
  }

  /** The vertex instance created for corner `ii`: its vertex, the attributes present, and a binormal sign when both normal and tangent are. */
  function CornerInstance(p: Primitive, ii: nat): VertexInstance
    requires ii < |p.indices| && p.indices[ii] in p.vertexOf && CornerAttributesFit(p.attrs, |p.indices|)
  {
    var a := p.attrs;
    VertexInstance(
      CornerVertex(p, ii),
      if |a.normals| > 0 then Some(a.normals[ii]) else None,
      if |a.tangents| > 0 then Some(a.tangents[ii]) else None,
      |a.tangents| > 0 && |a.normals| > 0,
      seq(|a.uvs|, ch requires 0 <= ch < |a.uvs| => a.uvs[ch][ii]))
  }

  /** The three instances of triangle `t`. */
  function TriangleCorners(p: Primitive, t: nat): (r: seq<VertexInstance>)
    requires WellFormed(p) && t < WholeTriangles(p.indices)
    ensures |r| == 3
  {
    [CornerInstance(p, 3 * t), CornerInstance(p, 3 * t + 1), CornerInstance(p, 3 * t + 2)]
  }

  /** The pairs of vertices triangle `t` asks edges for: corner `c` to corner `c + 1 (mod 3)`. */
  function TrianglePairs(p: Primitive, t: nat): (r: seq<VertexPair>)
    requires WellFormed(p) && t < WholeTriangles(p.indices)
    ensures |r| == 3
  {
    var v0, v1, v2 := CornerVertex(p, 3 * t), CornerVertex(p, 3 * t + 1), CornerVertex(p, 3 * t + 2);
    [VertexPair(v0, v1), VertexPair(v1, v2), VertexPair(v2, v0)]
  }

  /** The instances of the first `n` triangles, in creation order. */
  ghost function PrimitiveCorners(p: Primitive, n: nat): seq<VertexInstance>
    requires WellFormed(p) && n <= WholeTriangles(p.indices)
  {
    if n == 0 then [] else PrimitiveCorners(p, n - 1) + TriangleCorners(p, n - 1)
  }

  /** The vertex pairs of the first `n` triangles, in the order edges are looked up. */
  ghost function PrimitivePairs(p: Primitive, n: nat): seq<VertexPair>
    requires WellFormed(p) && n <= WholeTriangles(p.indices)
  {
    if n == 0 then [] else PrimitivePairs(p, n - 1) + TrianglePairs(p, n - 1)
  }

  /** The `n` triangles create `3 n` instances, and instance `k` belongs to corner `k` of the index list. */
  lemma {:induction false} PrimitiveCornersAt(p: Primitive, n: nat)
    requires WellFormed(p) && n <= WholeTriangles(p.indices)
    ensures |PrimitiveCorners(p, n)| == 3 * n
    ensures forall k | 0 <= k < 3 * n :: PrimitiveCorners(p, n)[k] == CornerInstance(p, k)
  {
    if n > 0 {
      PrimitiveCornersAt(p, n - 1);
      var before := PrimitiveCorners(p, n - 1);
      var r := PrimitiveCorners(p, n);
      assert r == before + TriangleCorners(p, n - 1);
      forall k | 3 * (n - 1) <= k < 3 * n ensures r[k] == CornerInstance(p, k) {
        assert r[k] == TriangleCorners(p, n - 1)[k - 3 * (n - 1)];
      }
    }
  }

  /** The `n` triangles ask for `3 n` pairs, three per triangle in triangle order. */
  lemma {:induction false} PrimitivePairsAt(p: Primitive, n: nat)
    requires WellFormed(p) && n <= WholeTriangles(p.indices)
    ensures |PrimitivePairs(p, n)| == 3 * n
    ensures forall t | 0 <= t < n :: PrimitivePairs(p, n)[3 * t .. 3 * t + 3] == TrianglePairs(p, t)
  {
    if n > 0 {
      PrimitivePairsAt(p, n - 1);
      var before := PrimitivePairs(p, n - 1);
      var r := PrimitivePairs(p, n);
      assert r == before + TrianglePairs(p, n - 1);
      forall t | 0 <= t < n ensures r[3 * t .. 3 * t + 3] == TrianglePairs(p, t) {
        if t < n - 1 {
          assert r[3 * t .. 3 * t + 3] == before[3 * t .. 3 * t + 3];
        } else {
          assert r[3 * t .. 3 * t + 3] == r[|before|..];
        }
      }
    }
  }

  /** A corner gets a binormal sign exactly when the level has both a normal and a tangent array. */
  lemma BinormalSignIffNormalAndTangent(arrays: seq<VertexArray>, d: Decomposition, indices: seq<nat>, vertexOf: map<nat, nat>, ii: nat)
    requires Gatherable(arrays, d, indices) && ii < |indices| && indices[ii] in vertexOf
    ensures CornerAttributesFit(GatheredAttributes(arrays, d, indices), |indices|)
    ensures var corner := CornerInstance(Primitive(indices, vertexOf, GatheredAttributes(arrays, d, indices)), ii);
      && (corner.normal.Some? <==> d.normal.Some?)
      && (corner.tangent.Some? <==> d.tangent.Some?)
      && (corner.hasBinormalSign <==> d.normal.Some? && d.tangent.Some?)
  {
  }

  /** A corner carries one coordinate per texcoord array, or a single zero coordinate when there is none. */
  lemma CornerUVs(arrays: seq<VertexArray>, d: Decomposition, indices: seq<nat>, vertexOf: map<nat, nat>, ii: nat)
    requires Gatherable(arrays, d, indices) && ii < |indices| && indices[ii] in vertexOf
    ensures CornerAttributesFit(GatheredAttributes(arrays, d, indices), |indices|)
    ensures
      var corner := CornerInstance(Primitive(indices, vertexOf, GatheredAttributes(arrays, d, indices)), ii);
      && (|d.texcoords| == 0 ==> corner.uvs == [Vector2(0.0, 0.0)])
      && (|d.texcoords| > 0 ==> |corner.uvs| == |d.texcoords|)
      && (forall ch | 0 <= ch < |d.texcoords| :: corner.uvs[ch] == ConvertFloat2(arrays[d.texcoords[ch]].elements[indices[ii]]))
  {
  }
}
