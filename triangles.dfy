/**
 * Creation of one primitive's triangles in a mesh description (lines 288-352 of the
 * importer): three vertex instances per triangle, an edge per side found or created,
 * and one triangle polygon in the primitive's polygon group.
 */
module TriangleAssembly {
  import opened Wrappers
  import opened MeshDescriptions
  import opened OpenGex
  import opened Corners

  /** A triangle polygon of `group` whose contour uses instances `first`, `first + 1`, `first + 2` in order. */
  predicate Emitted(p: Polygon, group: nat, first: nat) {
    && p.group == group
    && |p.contour| == 3
    && p.contour[0].instance == first
    && p.contour[1].instance == first + 1
    && p.contour[2].instance == first + 2
  }

  /** Polygon `q` of `ps` is a triangle of `group` on the instances `first + 3 q .. first + 3 q + 2`. */
  ghost predicate EmittedRun(ps: seq<Polygon>, group: nat, first: nat) {
    forall q | 0 <= q < |ps| :: Emitted(ps[q], group, first + 3 * q)
  }

  /** `WithEdges` on a triangle's three pairs is three `WithEdge` steps. */
  lemma WithEdgesOfTriangle(es: seq<Edge>, a: nat, b: nat, c: nat)
    ensures WithEdges(es, [VertexPair(a, b), VertexPair(b, c), VertexPair(c, a)]) ==
      WithEdge(WithEdge(WithEdge(es, a, b), b, c), c, a)
  {
    var pairs := [VertexPair(a, b), VertexPair(b, c), VertexPair(c, a)];
    assert pairs[..2][..1] == pairs[..1];
    assert pairs[..1][..0] == [];
    assert WithEdges(es, pairs[..1]) == WithEdge(es, a, b);
    assert WithEdges(es, pairs[..2]) == WithEdge(WithEdges(es, pairs[..1]), b, c);
  }

  /** A contour of three instances whose edges join consecutive corners' vertices is a triangle. */
  lemma ContourIsTriangle(group: nat, groupCount: nat, instances: seq<VertexInstance>, edges: seq<Edge>,
                          i0: nat, i1: nat, i2: nat, e0: nat, e1: nat, e2: nat)
    requires group < groupCount && i0 < |instances| && i1 < |instances| && i2 < |instances|
    requires e0 < |edges| && e1 < |edges| && e2 < |edges|
    requires Joins(edges[e0], instances[i0].vertex, instances[i1].vertex)
    requires Joins(edges[e1], instances[i1].vertex, instances[i2].vertex)
    requires Joins(edges[e2], instances[i2].vertex, instances[i0].vertex)
    ensures TriangleIn(Polygon(group, [ContourPoint(e0, i0), ContourPoint(e1, i1), ContourPoint(e2, i2)]), groupCount, instances, edges)
  {
  }

  /** Lines 339-346: the edge joining `a` and `b` in either order, created soft and uncreased when there is none. */
  method FindOrCreateEdge(md: MeshDescription, a: nat, b: nat) returns (e: nat)
    requires md.Valid() && a < |md.vertices| && b < |md.vertices|
    modifies md`edges
    ensures md.Valid()
    ensures md.edges == WithEdge(old(md.edges), a, b)
    ensures e < |md.edges| && Joins(md.edges[e], a, b)
    ensures old(|md.edges|) <= |md.edges| && forall j | 0 <= j < old(|md.edges|) :: md.edges[j] == old(md.edges[j])
  {
    var found := md.GetVertexPairEdge(a, b);
    if found.None? {
      e := md.CreateEdge(a, b);
    } else {
      e := found.value;
    }
  }

  /** Lines 290-337: one vertex instance per corner, in corner order. */
  method AddCorners(md: MeshDescription, corners: seq<VertexInstance>) returns (first: nat)
    requires md.Valid() && |corners| == 3
    requires forall c | 0 <= c < 3 :: corners[c].vertex < |md.vertices|
    modifies md`instances
    ensures md.Valid()
    ensures first == old(|md.instances|) && md.instances == old(md.instances) + corners
  {
    first := md.CreateVertexInstance(corners[0]);
    var _ := md.CreateVertexInstance(corners[1]);
    var _ := md.CreateVertexInstance(corners[2]);
  }

  /** Lines 325-351: the contour of the triangle on instances `first .. first + 2`, its edges found or created. */
  method AddContour(md: MeshDescription, first: nat, group: nat)
    requires md.Valid() && first + 3 <= |md.instances| && group < |md.groups|
    modifies md`edges, md`polygons
    ensures md.Valid()
    ensures md.edges == WithEdges(old(md.edges), [
      VertexPair(md.instances[first].vertex, md.instances[first + 1].vertex),
      VertexPair(md.instances[first + 1].vertex, md.instances[first + 2].vertex),
      VertexPair(md.instances[first + 2].vertex, md.instances[first].vertex)])
    ensures |md.polygons| == old(|md.polygons|) + 1 && md.polygons == old(md.polygons) + [md.polygons[old(|md.polygons|)]]
    ensures Emitted(md.polygons[old(|md.polygons|)], group, first)
  {
    var v0, v1, v2 := md.instances[first].vertex, md.instances[first + 1].vertex, md.instances[first + 2].vertex;
    ghost var before := md.edges;
    var e0 := FindOrCreateEdge(md, v0, v1);
    var e1 := FindOrCreateEdge(md, v1, v2);
    var e2 := FindOrCreateEdge(md, v2, v0);
    ContourIsTriangle(group, |md.groups|, md.instances, md.edges, first, first + 1, first + 2, e0, e1, e2);
    var _ := md.CreatePolygon(group, [ContourPoint(e0, first), ContourPoint(e1, first + 1), ContourPoint(e2, first + 2)]);
    WithEdgesOfTriangle(before, v0, v1, v2);
  }

  /** One iteration of the triangle loop (lines 290-352): triangle `t`'s instances, its edges and its polygon. */
  method AddTriangle(md: MeshDescription, p: Primitive, t: nat, group: nat)
    requires md.Valid() && WellFormed(p) && t < WholeTriangles(p.indices) && group < |md.groups|
    requires forall ii | 0 <= ii < 3 * WholeTriangles(p.indices) :: CornerVertex(p, ii) < |md.vertices|
    modifies md`instances, md`edges, md`polygons
    ensures md.Valid()
    ensures md.instances == old(md.instances) + TriangleCorners(p, t)
    ensures md.edges == WithEdges(old(md.edges), TrianglePairs(p, t))
    ensures |md.polygons| == old(|md.polygons|) + 1 && md.polygons == old(md.polygons) + [md.polygons[old(|md.polygons|)]]
    ensures Emitted(md.polygons[old(|md.polygons|)], group, old(|md.instances|))
  {
    var corners := [CornerInstance(p, 3 * t), CornerInstance(p, 3 * t + 1), CornerInstance(p, 3 * t + 2)];
    var first := AddCorners(md, corners);
    assert md.instances[first] == corners[0] && md.instances[first + 1] == corners[1] && md.instances[first + 2] == corners[2];
    AddContour(md, first, group);
  }

  /** Appending the next triangle keeps the run of emitted polygons. */
  lemma EmittedRunAppend(ps: seq<Polygon>, q: Polygon, group: nat, first: nat)
    requires EmittedRun(ps, group, first) && Emitted(q, group, first + 3 * |ps|)
    ensures EmittedRun(ps + [q], group, first)
  {
  }

  /** The triangle loop's body, stated as the step from the loop's state after `t` triangles to its state after `t + 1`. */
  method AddTriangleStep(md: MeshDescription, p: Primitive, t: nat, group: nat, ghost instances0: seq<VertexInstance>,
                         ghost edges0: seq<Edge>, ghost polygons0: seq<Polygon>, ghost emitted: seq<Polygon>)
    returns (ghost emitted': seq<Polygon>)
    requires md.Valid() && WellFormed(p) && t < WholeTriangles(p.indices) && group < |md.groups|
    requires forall ii | 0 <= ii < 3 * WholeTriangles(p.indices) :: CornerVertex(p, ii) < |md.vertices|
    requires md.instances == instances0 + PrimitiveCorners(p, t)
    requires md.edges == WithEdges(edges0, PrimitivePairs(p, t))
    requires md.polygons == polygons0 + emitted && |emitted| == t && EmittedRun(emitted, group, |instances0|)
    modifies md`instances, md`edges, md`polygons
    ensures md.Valid()
    ensures md.instances == instances0 + PrimitiveCorners(p, t + 1)
    ensures md.edges == WithEdges(edges0, PrimitivePairs(p, t + 1))
    ensures md.polygons == polygons0 + emitted' && |emitted'| == t + 1 && EmittedRun(emitted', group, |instances0|)
  {
    PrimitiveCornersAt(p, t);
    AddTriangle(md, p, t, group);
    EmittedRunAppend(emitted, md.polygons[|md.polygons| - 1], group, |instances0|);
    emitted' := emitted + [md.polygons[|md.polygons| - 1]];
    WithEdgesAppend(edges0, PrimitivePairs(p, t), TrianglePairs(p, t));
  }

  /** The triangle loop of one primitive: instances, edges and polygons for every whole triangle, in order. */
  method AddTriangles(md: MeshDescription, p: Primitive, group: nat)
    requires md.Valid() && WellFormed(p) && group < |md.groups|
    requires forall ii | 0 <= ii < 3 * WholeTriangles(p.indices) :: CornerVertex(p, ii) < |md.vertices|
    modifies md`instances, md`edges, md`polygons
    ensures md.Valid()
    ensures md.instances == old(md.instances) + PrimitiveCorners(p, WholeTriangles(p.indices))
    ensures md.edges == WithEdges(old(md.edges), PrimitivePairs(p, WholeTriangles(p.indices)))
    ensures |md.polygons| == old(|md.polygons|) + WholeTriangles(p.indices) && md.polygons[..old(|md.polygons|)] == old(md.polygons)
    ensures EmittedRun(md.polygons[old(|md.polygons|)..], group, old(|md.instances|))
  {
    ghost var emitted: seq<Polygon> := [];
    ghost var instances0, edges0, polygons0 := md.instances, md.edges, md.polygons;
    for t := 0 to WholeTriangles(p.indices)
      invariant md.Valid()
      invariant md.instances == instances0 + PrimitiveCorners(p, t)
      invariant md.edges == WithEdges(edges0, PrimitivePairs(p, t))
      invariant md.polygons == polygons0 + emitted && |emitted| == t
      invariant EmittedRun(emitted, group, |instances0|)
    {
      emitted := AddTriangleStep(md, p, t, group, instances0, edges0, polygons0, emitted);
    }
    assert md.polygons[old(|md.polygons|)..] == emitted;
  }
}
