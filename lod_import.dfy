/**
 * The body of the per-level loop of `ImportOneMeshFromOpenGEX` (lines 160-358 of the importer):
 * classification of the vertex arrays, build settings, material slots, polygon groups,
 * vertices, and the triangles of every primitive.
 */
module LodImport {
  import opened Wrappers
  import opened OpenGex
  import opened Conversion
  import opened Attributes
  import opened StaticMeshes
  import opened MaterialSlots
  import opened MeshDescriptions
  import opened Corners
  import opened TriangleAssembly

  /** Lines 191-204: the settings depend only on which arrays the level has. */
  function LodBuildSettings(d: Decomposition): (s: BuildSettings)
    ensures s.recomputeNormals <==> d.normal.None?
    ensures s.recomputeTangents <==> d.tangent.None?
    ensures s.generateLightmapUVs <==> |d.texcoords| <= 1
    ensures s.useMikkTSpace && !s.removeDegenerates && !s.buildAdjacencyBuffer && !s.buildReversedIndexBuffer
    ensures !s.useHighPrecisionTangentBasis && !s.useFullPrecisionUVs
  {
    BuildSettings(
      recomputeNormals := d.normal.None?,
      recomputeTangents := d.tangent.None?,
      useMikkTSpace := true,
      removeDegenerates := false,
      buildAdjacencyBuffer := false,
      buildReversedIndexBuffer := false,
      useHighPrecisionTangentBasis := false,
      useFullPrecisionUVs := false,
      generateLightmapUVs := |d.texcoords| <= 1)
  }

  /** In terms of the arrays: normals are recomputed exactly when no name contains "normal", and so on. */
  lemma BuildSettingsFollowArrays(arrays: seq<VertexArray>)
    ensures var s := LodBuildSettings(Decomposed(arrays));
      && (s.recomputeNormals <==> forall j | 0 <= j < |arrays| :: !Named(arrays[j], "normal"))
      && (s.recomputeTangents <==> forall j | 0 <= j < |arrays| :: !Named(arrays[j], "tangent"))
      && (s.generateLightmapUVs <==> |AllNamed(arrays, "texcoord")| <= 1)
  {
    LastNamedAbsent(arrays, "normal");
    LastNamedAbsent(arrays, "tangent");
  }

  /** No array is named with `keyword` exactly when the last such array does not exist. */
  lemma LastNamedAbsent(arrays: seq<VertexArray>, keyword: string)
    ensures LastNamed(arrays, keyword).None? <==> forall j | 0 <= j < |arrays| :: !Named(arrays[j], keyword)
  {
  }

  /** Two levels whose arrays have the same attribute names get the same settings, whatever their data. */
  lemma BuildSettingsIgnoreData(arrays: seq<VertexArray>, others: seq<VertexArray>)
    requires |arrays| == |others| && forall j | 0 <= j < |arrays| :: arrays[j].attrib == others[j].attrib
    ensures LodBuildSettings(Decomposed(arrays)) == LodBuildSettings(Decomposed(others))
  {
    DecomposedByNames(arrays, others);
  }

  /** The classification reads only the attribute names. */
  lemma {:induction false} DecomposedByNames(arrays: seq<VertexArray>, others: seq<VertexArray>)
    requires |arrays| == |others| && forall j | 0 <= j < |arrays| :: arrays[j].attrib == others[j].attrib
    ensures Decomposed(arrays) == Decomposed(others)
  {
    if arrays != [] {
      var n := |arrays| - 1;
      DecomposedByNames(arrays[..n], others[..n]);
      assert Named(arrays[n], "position") == Named(others[n], "position");
    }
  }

  /** The material indices the level's primitives use. */
  ghost function MaterialsUsed(prims: seq<IndexArray>): set<nat> {
    set k | 0 <= k < |prims| :: prims[k].materialIndex
  }

  /** Lines 211-215: collects the material index of every primitive. */
  method CollectMaterialIndices(prims: seq<IndexArray>) returns (used: set<nat>)
    ensures forall m :: m in used <==> exists k | 0 <= k < |prims| :: prims[k].materialIndex == m
  {
    used := {};
    for k := 0 to |prims|
      invariant forall m :: m in used <==> exists j | 0 <= j < k :: prims[j].materialIndex == m
    {
      used := used + {prims[k].materialIndex};
    }
  }

  /** The level's polygon groups: one per used material index, distinct, named after that index's slot. */
  ghost predicate GroupsNamed(groups: seq<string>, staticMaterials: seq<StaticMaterial>, used: set<nat>,
                              slotOf: map<nat, nat>, groupOf: map<nat, nat>) {
    && groupOf.Keys == used && |groups| == |used|
    && (forall m | m in used :: m in slotOf && slotOf[m] < |staticMaterials|)
    && (forall m | m in used :: groupOf[m] < |groups| && groups[groupOf[m]] == staticMaterials[slotOf[m]].importedSlotName)
    && (forall m, n | m in used && n in used && m != n :: groupOf[m] != groupOf[n])
  }

  /**
   * Lines 220-227: one polygon group per used material index, named after the imported slot
   * name of that index's static material. The set is walked in an unspecified order.
   */
  method CreatePolygonGroups(md: MeshDescription, mesh: StaticMesh, used: set<nat>, slotOf: map<nat, nat>)
    returns (groupOf: map<nat, nat>)
    requires md.Valid() && md.groups == []
    requires forall m | m in used :: m in slotOf && slotOf[m] < |mesh.staticMaterials|
    modifies md`groups
    ensures md.Valid()
    ensures GroupsNamed(md.groups, mesh.staticMaterials, used, slotOf, groupOf)
  {
    groupOf := map[];
    var rest := used;
    while rest != {}
      invariant md.Valid()
      invariant rest <= used && groupOf.Keys == used - rest
      invariant |md.groups| + |rest| == |used|
      invariant forall m | m in groupOf ::
        groupOf[m] < |md.groups| && md.groups[groupOf[m]] == mesh.staticMaterials[slotOf[m]].importedSlotName
      invariant forall m, n | m in groupOf && n in groupOf && m != n :: groupOf[m] != groupOf[n]
      decreases rest
    {
      var m :| m in rest;
      var group := md.CreatePolygonGroup(mesh.staticMaterials[slotOf[m]].importedSlotName);
      groupOf := groupOf[m := group];
      rest := rest - {m};
    }
  }

  /** The vertex ids given to the first `count` position indices when the description already holds `base` vertices. */
  function VertexIds(count: nat, base: nat): (r: map<nat, nat>)
    ensures forall i: nat :: i in r <==> i < count
    ensures forall i | i in r :: r[i] == base + i
  {
    if count == 0 then map[] else VertexIds(count - 1, base)[count - 1 := base + count - 1]
  }

  /** Lines 229-234: one vertex per position element, in order, at its converted position. */
  method AddVertices(md: MeshDescription, positions: VertexArray) returns (vertexOf: map<nat, nat>)
    requires md.Valid() && HasArity(positions, 3)
    modifies md`vertices
    ensures md.Valid()
    ensures |md.vertices| == old(|md.vertices|) + |positions.elements| && md.vertices[..old(|md.vertices|)] == old(md.vertices)
    ensures vertexOf == VertexIds(|positions.elements|, old(|md.vertices|))
    ensures forall i | 0 <= i < |positions.elements| :: md.vertices[old(|md.vertices|) + i] == ConvertFloat3(positions.elements[i])
  {
    vertexOf := map[];
    for i := 0 to |positions.elements|
      invariant md.Valid()
      invariant |md.vertices| == old(|md.vertices|) + i && md.vertices[..old(|md.vertices|)] == old(md.vertices)
      invariant vertexOf == VertexIds(i, old(|md.vertices|))
      invariant forall j | 0 <= j < i :: md.vertices[old(|md.vertices|) + j] == ConvertFloat3(positions.elements[j])
    {
      var vertex := md.CreateVertex(ConvertFloat3(positions.elements[i]));
      vertexOf := vertexOf[i := vertex];
    }
  }

  /** Every index of a whole triangle of `prim` has a vertex. */
  ghost predicate Covered(prim: IndexArray, vertexOf: map<nat, nat>) {
    forall ii | 0 <= ii < 3 * WholeTriangles(prim.indices) :: prim.indices[ii] in vertexOf
  }

  /** The primitive as the triangle loop sees it: indices, vertex ids and gathered attributes. */
  ghost function PrimitiveOf(arrays: seq<VertexArray>, d: Decomposition, prim: IndexArray, vertexOf: map<nat, nat>): (p: Primitive)
    requires Gatherable(arrays, d, prim.indices) && Covered(prim, vertexOf)
    ensures WellFormed(p) && WholeTriangles(p.indices) == WholeTriangles(prim.indices)
  {
    GatheredAttributesAt(arrays, d, prim.indices);
    Primitive(prim.indices, vertexOf, GatheredAttributes(arrays, d, prim.indices))
  }

  /** Every primitive can be gathered and has a vertex for every corner. */
  ghost predicate PrimitivesReady(arrays: seq<VertexArray>, d: Decomposition, prims: seq<IndexArray>, vertexOf: map<nat, nat>) {
    forall k | 0 <= k < |prims| :: Gatherable(arrays, d, prims[k].indices) && Covered(prims[k], vertexOf)
  }

  /** The number of whole triangles of all primitives. */
  function TotalTriangles(prims: seq<IndexArray>): nat {
    if prims == [] then 0 else TotalTriangles(prims[..|prims| - 1]) + WholeTriangles(prims[|prims| - 1].indices)
  }

  /** The vertex instances of all primitives, in creation order. */
  ghost function LodCorners(arrays: seq<VertexArray>, d: Decomposition, prims: seq<IndexArray>, vertexOf: map<nat, nat>): seq<VertexInstance>
    requires PrimitivesReady(arrays, d, prims, vertexOf)
  {
    if prims == [] then []
    else
      var last := prims[|prims| - 1];
      LodCorners(arrays, d, prims[..|prims| - 1], vertexOf) + PrimitiveCorners(PrimitiveOf(arrays, d, last, vertexOf), WholeTriangles(last.indices))
  }

  /** The vertex pairs of all primitives, in the order edges are looked up. */
  ghost function LodPairs(arrays: seq<VertexArray>, d: Decomposition, prims: seq<IndexArray>, vertexOf: map<nat, nat>): seq<VertexPair>
    requires PrimitivesReady(arrays, d, prims, vertexOf)
  {
    if prims == [] then []
    else
      var last := prims[|prims| - 1];
      LodPairs(arrays, d, prims[..|prims| - 1], vertexOf) + PrimitivePairs(PrimitiveOf(arrays, d, last, vertexOf), WholeTriangles(last.indices))
  }

  /** Every primitive's material has a polygon group. */
  ghost predicate GroupsKnown(prims: seq<IndexArray>, groupOf: map<nat, nat>) {
    forall k | 0 <= k < |prims| :: prims[k].materialIndex in groupOf
  }

  /** The polygon group of each polygon, in creation order: each primitive's triangles use its material's group. */
  ghost function LodGroups(prims: seq<IndexArray>, groupOf: map<nat, nat>): seq<nat>
    requires GroupsKnown(prims, groupOf)
  {
    if prims == [] then []
    else
      var last := prims[|prims| - 1];
      LodGroups(prims[..|prims| - 1], groupOf) + seq(WholeTriangles(last.indices), _ => groupOf[last.materialIndex])
  }

  /** The group of each polygon of `ps`. */
  function GroupsOf(ps: seq<Polygon>): (r: seq<nat>)
    ensures |r| == |ps| && forall q | 0 <= q < |ps| :: r[q] == ps[q].group
  {
    seq(|ps|, q requires 0 <= q < |ps| => ps[q].group)
  }

  /** Polygon `q` of `ps` is the triangle on instances `first + 3 q`, `first + 3 q + 1`, `first + 3 q + 2`, in that order. */
  ghost predicate CornerRun(ps: seq<Polygon>, first: nat) {
    forall q | 0 <= q < |ps| ::
      |ps[q].contour| == 3 && forall c | 0 <= c < 3 :: ps[q].contour[c].instance == first + 3 * q + c
  }

  /** A run of emitted triangles of one group is a run of polygons of that group, each on its own three corners. */
  lemma EmittedRunGroups(ps: seq<Polygon>, group: nat, first: nat)
    requires EmittedRun(ps, group, first)
    ensures GroupsOf(ps) == seq(|ps|, _ => group)
    ensures CornerRun(ps, first)
  {
    forall q, c | 0 <= q < |ps| && 0 <= c < 3 ensures ps[q].contour[c].instance == first + 3 * q + c {
      assert Emitted(ps[q], group, first + 3 * q);
    }
  }

  /** Two consecutive runs of triangles form one run. */
  lemma CornerRunAppend(ps: seq<Polygon>, qs: seq<Polygon>, first: nat)
    requires CornerRun(ps, first) && CornerRun(qs, first + 3 * |ps|)
    ensures CornerRun(ps + qs, first)
  {
    var r := ps + qs;
    forall q | 0 <= q < |r|
      ensures |r[q].contour| == 3 && forall c | 0 <= c < 3 :: r[q].contour[c].instance == first + 3 * q + c
    {
      if q >= |ps| {
        assert r[q] == qs[q - |ps|];
      }
    }
  }

  /** Lines 248-353 for one primitive: its polygon group, its attributes and its triangles. */
  method ImportPrimitive(md: MeshDescription, arrays: seq<VertexArray>, d: Decomposition, prim: IndexArray,
                         vertexOf: map<nat, nat>, group: nat)
    returns (generated: bool)
    requires md.Valid() && group < |md.groups| && Gatherable(arrays, d, prim.indices) && Covered(prim, vertexOf)
    requires forall i | i in vertexOf :: vertexOf[i] < |md.vertices|
    modifies md`instances, md`edges, md`polygons
    ensures md.Valid()
    ensures generated <==> |d.texcoords| == 0
    ensures md.instances == old(md.instances) + PrimitiveCorners(PrimitiveOf(arrays, d, prim, vertexOf), WholeTriangles(prim.indices))
    ensures md.edges == WithEdges(old(md.edges), PrimitivePairs(PrimitiveOf(arrays, d, prim, vertexOf), WholeTriangles(prim.indices)))
    ensures |md.polygons| == old(|md.polygons|) + WholeTriangles(prim.indices) && md.polygons[..old(|md.polygons|)] == old(md.polygons)
    ensures |md.instances| == old(|md.instances|) + 3 * WholeTriangles(prim.indices)
    ensures GroupsOf(md.polygons[old(|md.polygons|)..]) == seq(WholeTriangles(prim.indices), _ => group)
    ensures CornerRun(md.polygons[old(|md.polygons|)..], old(|md.instances|))
  {
    var attrs;
    attrs, generated := GatherCornerAttributes(arrays, d, prim.indices);
    var p := Primitive(prim.indices, vertexOf, attrs);
    assert p == PrimitiveOf(arrays, d, prim, vertexOf);
    AddTriangles(md, p, group);
    PrimitiveCornersAt(p, WholeTriangles(p.indices));
    EmittedRunGroups(md.polygons[old(|md.polygons|)..], group, old(|md.instances|));
  }

  /** Collecting polygon groups distributes over concatenation. */
  lemma GroupsOfAppend(ps: seq<Polygon>, qs: seq<Polygon>)
    ensures GroupsOf(ps + qs) == GroupsOf(ps) + GroupsOf(qs)
  {
  }

  /** Regrouping a concatenation, called with the loop's large terms so that they stay opaque to the step's proof. */
  lemma AppendAssociates<T>(a: seq<T>, b: seq<T>, c: seq<T>)
    ensures a + (b + c) == (a + b) + c
  {
  }

  /** Readiness of a prefix of the primitives. */
  lemma PrimitivesReadyPrefix(arrays: seq<VertexArray>, d: Decomposition, prims: seq<IndexArray>, vertexOf: map<nat, nat>, k: nat)
    requires PrimitivesReady(arrays, d, prims, vertexOf) && k <= |prims|
    ensures PrimitivesReady(arrays, d, prims[..k], vertexOf)
  {
    assert forall j | 0 <= j < k :: prims[..k][j] == prims[j];
  }

  /** Extending the prefix of primitives by one appends that primitive's instances, pairs, triangles and groups. */
  lemma LodStep(arrays: seq<VertexArray>, d: Decomposition, prims: seq<IndexArray>, vertexOf: map<nat, nat>,
                groupOf: map<nat, nat>, k: nat)
    requires PrimitivesReady(arrays, d, prims, vertexOf) && k < |prims|
    requires forall j | 0 <= j < |prims| :: prims[j].materialIndex in groupOf
    ensures PrimitivesReady(arrays, d, prims[..k], vertexOf) && PrimitivesReady(arrays, d, prims[..k + 1], vertexOf)
    ensures Gatherable(arrays, d, prims[k].indices) && Covered(prims[k], vertexOf)
    ensures LodCorners(arrays, d, prims[..k + 1], vertexOf) ==
      LodCorners(arrays, d, prims[..k], vertexOf) + PrimitiveCorners(PrimitiveOf(arrays, d, prims[k], vertexOf), WholeTriangles(prims[k].indices))
    ensures LodPairs(arrays, d, prims[..k + 1], vertexOf) ==
      LodPairs(arrays, d, prims[..k], vertexOf) + PrimitivePairs(PrimitiveOf(arrays, d, prims[k], vertexOf), WholeTriangles(prims[k].indices))
    ensures TotalTriangles(prims[..k + 1]) == TotalTriangles(prims[..k]) + WholeTriangles(prims[k].indices)
    ensures GroupsKnown(prims[..k], groupOf) && GroupsKnown(prims[..k + 1], groupOf)
    ensures LodGroups(prims[..k + 1], groupOf) ==
      LodGroups(prims[..k], groupOf) + seq(WholeTriangles(prims[k].indices), _ => groupOf[prims[k].materialIndex])
  {
    PrimitivesReadyPrefix(arrays, d, prims, vertexOf, k);
    PrimitivesReadyPrefix(arrays, d, prims, vertexOf, k + 1);
    assert prims[..k + 1][..k] == prims[..k];
    assert forall j | 0 <= j < k + 1 :: prims[..k + 1][j] == prims[j];
  }

  /** The primitive loop's state after its first `k` primitives, relative to the state before the loop. */
  ghost predicate PrimitivesDone(md: MeshDescription, arrays: seq<VertexArray>, d: Decomposition, prims: seq<IndexArray>,
                                 vertexOf: map<nat, nat>, groupOf: map<nat, nat>, k: nat, generated: bool,
                                 instances0: seq<VertexInstance>, edges0: seq<Edge>, polygons0: seq<Polygon>, emitted: seq<Polygon>)
    reads md
  {
    && k <= |prims|
    && PrimitivesReady(arrays, d, prims[..k], vertexOf)
    && GroupsKnown(prims[..k], groupOf)
    && (generated <==> |d.texcoords| == 0 && k > 0)
    && md.instances == instances0 + LodCorners(arrays, d, prims[..k], vertexOf)
    && md.edges == WithEdges(edges0, LodPairs(arrays, d, prims[..k], vertexOf))
    && md.polygons == polygons0 + emitted && |emitted| == TotalTriangles(prims[..k])
    && GroupsOf(emitted) == LodGroups(prims[..k], groupOf)
    && |md.instances| == |instances0| + 3 * |emitted|
    && CornerRun(emitted, |instances0|)
  }

  /** The primitive loop's body, stated as the step from `k` primitives done to `k + 1`. */
  method ImportPrimitiveStep(md: MeshDescription, arrays: seq<VertexArray>, d: Decomposition, prims: seq<IndexArray>,
                             vertexOf: map<nat, nat>, groupOf: map<nat, nat>, k: nat, generated: bool,
                             ghost instances0: seq<VertexInstance>, ghost edges0: seq<Edge>, ghost polygons0: seq<Polygon>,
                             ghost emitted: seq<Polygon>)
    returns (generated': bool, ghost emitted': seq<Polygon>)
    requires md.Valid() && PrimitivesReady(arrays, d, prims, vertexOf) && k < |prims|
    requires GroupsKnown(prims, groupOf) && forall m | m in groupOf :: groupOf[m] < |md.groups|
    requires forall i | i in vertexOf :: vertexOf[i] < |md.vertices|
    requires PrimitivesDone(md, arrays, d, prims, vertexOf, groupOf, k, generated, instances0, edges0, polygons0, emitted)
    modifies md`instances, md`edges, md`polygons
    ensures md.Valid()
    ensures PrimitivesDone(md, arrays, d, prims, vertexOf, groupOf, k + 1, generated', instances0, edges0, polygons0, emitted')
  {
    var prim := prims[k];
    var group := groupOf[prim.materialIndex];
    ghost var before := md.polygons;
    assert before == polygons0 + emitted;
    var g := ImportPrimitive(md, arrays, d, prim, vertexOf, group);
    generated' := generated;
    if g {
      generated' := true;
    }
    ghost var added := md.polygons[|before|..];
    assert md.polygons == before + added;
    GroupsOfAppend(emitted, added);
    CornerRunAppend(emitted, added, |instances0|);
    emitted' := emitted + added;
    LodStep(arrays, d, prims, vertexOf, groupOf, k);
    WithEdgesAppend(edges0, LodPairs(arrays, d, prims[..k], vertexOf),
      PrimitivePairs(PrimitiveOf(arrays, d, prim, vertexOf), WholeTriangles(prim.indices)));
    AppendAssociates(instances0, LodCorners(arrays, d, prims[..k], vertexOf),
      PrimitiveCorners(PrimitiveOf(arrays, d, prim, vertexOf), WholeTriangles(prim.indices)));
    AppendAssociates(polygons0, emitted, added);
  }

  /** Lines 246-353: every primitive in order, each drawn in the polygon group of its material. */
  method ImportPrimitives(md: MeshDescription, arrays: seq<VertexArray>, d: Decomposition, prims: seq<IndexArray>,
                          vertexOf: map<nat, nat>, groupOf: map<nat, nat>)
    returns (generated: bool)
    requires md.Valid() && PrimitivesReady(arrays, d, prims, vertexOf)
    requires GroupsKnown(prims, groupOf) && forall m | m in groupOf :: groupOf[m] < |md.groups|
    requires forall i | i in vertexOf :: vertexOf[i] < |md.vertices|
    modifies md`instances, md`edges, md`polygons
    ensures md.Valid()
    ensures generated <==> |d.texcoords| == 0 && |prims| > 0
    ensures md.instances == old(md.instances) + LodCorners(arrays, d, prims, vertexOf)
    ensures md.edges == WithEdges(old(md.edges), LodPairs(arrays, d, prims, vertexOf))
    ensures |md.polygons| == old(|md.polygons|) + TotalTriangles(prims) && md.polygons[..old(|md.polygons|)] == old(md.polygons)
    ensures GroupsOf(md.polygons[old(|md.polygons|)..]) == LodGroups(prims, groupOf)
    ensures |md.instances| == old(|md.instances|) + 3 * TotalTriangles(prims)
    ensures CornerRun(md.polygons[old(|md.polygons|)..], old(|md.instances|))
  {
    generated := false;
    ghost var instances0, edges0, polygons0 := md.instances, md.edges, md.polygons;
    ghost var emitted: seq<Polygon> := [];
    assert prims[..0] == [];
    for k := 0 to |prims|
      invariant md.Valid()
      invariant PrimitivesDone(md, arrays, d, prims, vertexOf, groupOf, k, generated, instances0, edges0, polygons0, emitted)
    {
      generated, emitted := ImportPrimitiveStep(md, arrays, d, prims, vertexOf, groupOf, k, generated,
                                                instances0, edges0, polygons0, emitted);
    }
    assert prims[..|prims|] == prims;
    assert md.polygons[|polygons0|..] == emitted;
  }


  /**
   * What the importer assumes of a level's geometry without checking it: a position array exists,
   * attribute elements have the components read from them, and every index addresses an element
   * of every array it is used with.
   */
  ghost predicate GeometryReady(arrays: seq<VertexArray>, d: Decomposition, prims: seq<IndexArray>) {
    && SlotsIn(d, |arrays|)
    && d.position.Some?
    && HasArity(arrays[d.position.value], 3)
    && forall k | 0 <= k < |prims| ::
         && Gatherable(arrays, d, prims[k].indices)
         && Addresses(arrays[d.position.value], prims[k].indices, 3 * WholeTriangles(prims[k].indices))
  }

  /** What the importer assumes of a level's materials: every primitive's material index resolves to an engine material. */
  ghost predicate MaterialsResolve(prims: seq<IndexArray>, node: seq<MaterialStructure>, materials: map<string, nat>) {
    forall k | 0 <= k < |prims| :: prims[k].materialIndex < |node| && node[prims[k].materialIndex].structureName in materials
  }

  /** Everything the level loop's body assumes of a level without checking it. */
  ghost predicate LodReady(lod: MeshStructure, node: seq<MaterialStructure>, materials: map<string, nat>) {
    && GeometryReady(lod.vertexArrays, Decomposed(lod.vertexArrays), lod.indexArrays)
    && MaterialsResolve(lod.indexArrays, node, materials)
  }

  /**
   * The static mesh after a level's slots are appended to `staticMaterials0`: one slot per used
   * material index in ascending index order, each holding its index's material, and one section per slot.
   */
  ghost predicate SlotsAppended(staticMaterials: seq<StaticMaterial>, sectionInfo: map<SectionKey, nat>,
                                staticMaterials0: seq<StaticMaterial>, sectionInfo0: map<SectionKey, nat>,
                                node: seq<MaterialStructure>, materials: map<string, nat>, level: int,
                                used: set<nat>, slotOf: map<nat, nat>) {
    && slotOf.Keys == used
    && |staticMaterials| == |staticMaterials0| + |used|
    && staticMaterials[..|staticMaterials0|] == staticMaterials0
    && (forall m | m in used :: |staticMaterials0| <= slotOf[m] < |staticMaterials|)
    && (forall m | m in used :: slotOf[m] == |staticMaterials0| + Rank(used, m))
    && (forall m | m in used :: m < |node| && node[m].structureName in materials &&
          staticMaterials[slotOf[m]] == SlotMaterial(node, materials, m))
    && sectionInfo == WithSections(sectionInfo0, level, |staticMaterials0|, |used|)
  }

  /**
   * The level's geometry: vertex `i` is position `i`, converted; the instances, edges and polygons
   * are those of every primitive's triangles in order, each polygon in its primitive's material's
   * group and on its own three instances, and no two edges join the same vertices.
   */
  ghost predicate GeometryBuilt(vertices: seq<Vector3>, instances: seq<VertexInstance>, edges: seq<Edge>, polygons: seq<Polygon>,
                                arrays: seq<VertexArray>, d: Decomposition, prims: seq<IndexArray>, groupOf: map<nat, nat>) {
    && d.position.Some? && d.position.value < |arrays|
    && var positions := arrays[d.position.value];
    && |vertices| == |positions.elements|
    && HasArity(positions, 3)
    && (forall i | 0 <= i < |positions.elements| :: vertices[i] == ConvertFloat3(positions.elements[i]))
    && var vertexOf := VertexIds(|vertices|, 0);
    && PrimitivesReady(arrays, d, prims, vertexOf)
    && instances == LodCorners(arrays, d, prims, vertexOf)
    && edges == WithEdges([], LodPairs(arrays, d, prims, vertexOf))
    && UniqueEdges(edges)
    && |polygons| == TotalTriangles(prims)
    && GroupsKnown(prims, groupOf)
    && GroupsOf(polygons) == LodGroups(prims, groupOf)
    && |instances| == 3 * |polygons|
    && CornerRun(polygons, 0)
  }

  /**
   * Lines 206-227: the material slots of a level, one per material index its primitives use,
   * and one polygon group per slot.
   */
  method AssignLodSlotsAndGroups(md: MeshDescription, mesh: StaticMesh, node: seq<MaterialStructure>,
                                 materials: map<string, nat>, lod: MeshStructure)
    returns (slotOf: map<nat, nat>, groupOf: map<nat, nat>)
    requires md.Valid() && md.groups == []
    requires MaterialsResolve(lod.indexArrays, node, materials)
    modifies md`groups, mesh`staticMaterials, mesh`sectionInfo
    ensures md.Valid()
    ensures SlotsAppended(mesh.staticMaterials, mesh.sectionInfo, old(mesh.staticMaterials), old(mesh.sectionInfo),
                          node, materials, lod.level, MaterialsUsed(lod.indexArrays), slotOf)
    ensures GroupsNamed(md.groups, mesh.staticMaterials, MaterialsUsed(lod.indexArrays), slotOf, groupOf)
    ensures GroupsKnown(lod.indexArrays, groupOf) && forall m | m in groupOf :: groupOf[m] < |md.groups|
    ensures md.vertices == old(md.vertices) && md.instances == old(md.instances)
    ensures md.edges == old(md.edges) && md.polygons == old(md.polygons) && md.uvChannelCount == old(md.uvChannelCount)
  {
    var used := CollectMaterialIndices(lod.indexArrays);
    slotOf := AssignMaterials(mesh, node, materials, lod.level, used);
    groupOf := CreatePolygonGroups(md, mesh, used, slotOf);
    UsedGroupsKnown(lod.indexArrays, groupOf);
  }

  /** A ready level's primitives can be gathered, and every corner has one of the level's vertices. */
  lemma GeometryPrimitivesReady(arrays: seq<VertexArray>, d: Decomposition, prims: seq<IndexArray>)
    requires GeometryReady(arrays, d, prims)
    ensures PrimitivesReady(arrays, d, prims, VertexIds(|arrays[d.position.value].elements|, 0))
  {
    var vertexOf := VertexIds(|arrays[d.position.value].elements|, 0);
    forall k | 0 <= k < |prims| ensures Covered(prims[k], vertexOf) {
      assert Addresses(arrays[d.position.value], prims[k].indices, 3 * WholeTriangles(prims[k].indices));
    }
  }

  /** Every primitive's material is among the used ones. */
  lemma UsedGroupsKnown(prims: seq<IndexArray>, groupOf: map<nat, nat>)
    requires groupOf.Keys == MaterialsUsed(prims)
    ensures GroupsKnown(prims, groupOf)
  {
    forall k | 0 <= k < |prims| ensures prims[k].materialIndex in groupOf {
      assert prims[k].materialIndex in MaterialsUsed(prims);
    }
  }

  /** Lines 229-353: the vertices of a level, then every primitive's triangles, in an empty geometry. */
  method BuildGeometry(md: MeshDescription, arrays: seq<VertexArray>, d: Decomposition, prims: seq<IndexArray>,
                       groupOf: map<nat, nat>)
    returns (generated: bool)
    requires md.Valid() && md.vertices == [] && md.instances == [] && md.edges == [] && md.polygons == []
    requires GeometryReady(arrays, d, prims)
    requires GroupsKnown(prims, groupOf) && forall m | m in groupOf :: groupOf[m] < |md.groups|
    modifies md`vertices, md`instances, md`edges, md`polygons
    ensures md.Valid()
    ensures generated <==> |d.texcoords| == 0 && |prims| > 0
    ensures GeometryBuilt(md.vertices, md.instances, md.edges, md.polygons, arrays, d, prims, groupOf)
    ensures md.groups == old(md.groups) && md.uvChannelCount == old(md.uvChannelCount)
  {
    var positions := arrays[d.position.value];
    var vertexOf := AddVertices(md, positions);
    GeometryPrimitivesReady(arrays, d, prims);
    generated := ImportPrimitives(md, arrays, d, prims, vertexOf, groupOf);
    WithEdgesKeepsUnique([], LodPairs(arrays, d, prims, vertexOf));
    assert md.polygons[..0] == [] && md.polygons[0..] == md.polygons;
  }

  /** Lines 161 and 189: a new, empty mesh description for the level, with one UV channel per texcoord array. */
  method NewLodDescription(uvChannels: nat) returns (md: MeshDescription)
    ensures fresh(md) && md.Valid()
    ensures md.vertices == [] && md.instances == [] && md.edges == [] && md.groups == [] && md.polygons == []
    ensures md.uvChannelCount == uvChannels
  {
    md := new MeshDescription();
    md.uvChannelCount := uvChannels;
  }

  /**
   * The body of the level loop of `ImportOneMeshFromOpenGEX` (lines 160-358): builds the level's mesh
   * description, sets the build settings and appends the level's material slots to the static mesh.
   * `generated` is the running "texture coordinates were generated" flag.
   */
  method ImportLod(mesh: StaticMesh, node: seq<MaterialStructure>, materials: map<string, nat>, lod: MeshStructure,
                   generatedBefore: bool)
    returns (md: MeshDescription, slotOf: map<nat, nat>, groupOf: map<nat, nat>, generated: bool)
    requires LodReady(lod, node, materials)
    modifies mesh`staticMaterials, mesh`sectionInfo, mesh`settings
    ensures fresh(md) && md.Valid()
    ensures var d := Decomposed(lod.vertexArrays);
      && mesh.settings == LodBuildSettings(d)
      && md.uvChannelCount == |d.texcoords|
      && (generated <==> generatedBefore || (|d.texcoords| == 0 && |lod.indexArrays| > 0))
    ensures SlotsAppended(mesh.staticMaterials, mesh.sectionInfo, old(mesh.staticMaterials), old(mesh.sectionInfo),
                          node, materials, lod.level, MaterialsUsed(lod.indexArrays), slotOf)
    ensures GroupsNamed(md.groups, mesh.staticMaterials, MaterialsUsed(lod.indexArrays), slotOf, groupOf)
    ensures GeometryBuilt(md.vertices, md.instances, md.edges, md.polygons,
                          lod.vertexArrays, Decomposed(lod.vertexArrays), lod.indexArrays, groupOf)
  {
    var arrays := lod.vertexArrays;
    var prims := lod.indexArrays;
    var d := DecomposeVertexArrays(arrays);
    md := NewLodDescription(|d.texcoords|);
    mesh.settings := LodBuildSettings(d);

    slotOf, groupOf := AssignLodSlotsAndGroups(md, mesh, node, materials, lod);
    generated := BuildGeometry(md, arrays, d, prims, groupOf);
    generated := generatedBefore || generated;
  }
}
