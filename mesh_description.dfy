/**
 * The engine's mesh description as the importer builds it: vertices, vertex
 * instances (triangle corners), edges, polygon groups and polygons. An element's
 * id is its position in the corresponding sequence.
 */
module MeshDescriptions {
  import opened Wrappers
  import opened Conversion

  /** One triangle corner: the vertex it uses and its own attributes. Only whether a binormal sign was set is modelled. */
  datatype VertexInstance = VertexInstance(
    vertex: nat,
    normal: Option<Vector3>,
    tangent: Option<Vector3>,
    hasBinormalSign: bool,
    uvs: seq<Vector2>)

  datatype Edge = Edge(v0: nat, v1: nat, isHard: bool, creaseSharpness: real)

  datatype ContourPoint = ContourPoint(edge: nat, instance: nat)

  datatype Polygon = Polygon(group: nat, contour: seq<ContourPoint>)

  /** Two vertices an edge should join, in the order the triangle visits them. */
  datatype VertexPair = VertexPair(from: nat, to: nat)

  /** `e` joins `a` and `b`, in either order. */
  predicate Joins(e: Edge, a: nat, b: nat) {
    (e.v0 == a && e.v1 == b) || (e.v0 == b && e.v1 == a)
  }

  /** Some edge of `es` joins `a` and `b`. */
  ghost predicate Joined(es: seq<Edge>, a: nat, b: nat) {
    exists j | 0 <= j < |es| :: Joins(es[j], a, b)
  }

  /** No two edges join the same pair of vertices, whatever their orientation. */
  ghost predicate UniqueEdges(es: seq<Edge>) {
    forall i, j | 0 <= i < j < |es| :: !Joins(es[j], es[i].v0, es[i].v1)
  }

  /** Reuse an edge joining `a` and `b` if there is one, otherwise append a soft, uncreased one. */
  ghost function WithEdge(es: seq<Edge>, a: nat, b: nat): seq<Edge> {
    if Joined(es, a, b) then es else es + [Edge(a, b, false, 0.0)]
  }

  /** `WithEdge` applied to every pair, in order. */
  ghost function WithEdges(es: seq<Edge>, pairs: seq<VertexPair>): seq<Edge>
    decreases |pairs|
  {
    if pairs == [] then es
    else
      var last := pairs[|pairs| - 1];
      WithEdge(WithEdges(es, pairs[..|pairs| - 1]), last.from, last.to)
  }

  /** Processing pairs in two batches is processing them in one. */
  lemma {:induction false} WithEdgesAppend(es: seq<Edge>, p: seq<VertexPair>, q: seq<VertexPair>)
    ensures WithEdges(es, p + q) == WithEdges(WithEdges(es, p), q)
    decreases |q|
  {
    if q == [] {
      assert p + q == p;
    } else {
      var last := q[|q| - 1];
      assert (p + q)[..|p + q| - 1] == p + q[..|q| - 1];
      WithEdgesAppend(es, p, q[..|q| - 1]);
    }
  }

  /** Existing edges are kept in place; at most one edge is added per pair. */
  lemma {:induction false} WithEdgesKeepsEdges(es: seq<Edge>, pairs: seq<VertexPair>)
    ensures var r := WithEdges(es, pairs); |es| <= |r| <= |es| + |pairs| && r[..|es|] == es
    decreases |pairs|
  {
    if pairs != [] {
      WithEdgesKeepsEdges(es, pairs[..|pairs| - 1]);
    }
  }

  /** Afterwards every pair is joined by an edge. */
  lemma {:induction false} WithEdgesJoinsEveryPair(es: seq<Edge>, pairs: seq<VertexPair>)
    ensures forall k | 0 <= k < |pairs| :: Joined(WithEdges(es, pairs), pairs[k].from, pairs[k].to)
    decreases |pairs|
  {
    if pairs != [] {
      var init := pairs[..|pairs| - 1];
      var last := pairs[|pairs| - 1];
      var before := WithEdges(es, init);
      WithEdgesJoinsEveryPair(es, init);
      var after := WithEdges(es, pairs);
      assert after == WithEdge(before, last.from, last.to);
      forall k | 0 <= k < |pairs| ensures Joined(after, pairs[k].from, pairs[k].to) {
        if k < |init| {
          assert pairs[k] == init[k];
          var j :| 0 <= j < |before| && Joins(before[j], init[k].from, init[k].to);
          assert after[j] == before[j];
        } else if !Joined(before, last.from, last.to) {
          assert Joins(after[|before|], last.from, last.to);
        }
      }
    }
  }

  /** Each added edge is a soft, uncreased edge for one of the pairs. */
  lemma {:induction false} WithEdgesAddsOnlyPairEdges(es: seq<Edge>, pairs: seq<VertexPair>)
    ensures var r := WithEdges(es, pairs);
      forall j | |es| <= j < |r| ::
        exists k | 0 <= k < |pairs| :: r[j] == Edge(pairs[k].from, pairs[k].to, false, 0.0)
    decreases |pairs|
  {
    if pairs != [] {
      var init := pairs[..|pairs| - 1];
      var last := pairs[|pairs| - 1];
      WithEdgesAddsOnlyPairEdges(es, init);
      WithEdgesKeepsEdges(es, init);
      var before := WithEdges(es, init);
      var r := WithEdges(es, pairs);
      forall j | |es| <= j < |r| ensures exists k | 0 <= k < |pairs| :: r[j] == Edge(pairs[k].from, pairs[k].to, false, 0.0) {
        if j < |before| {
          var k :| 0 <= k < |init| && before[j] == Edge(init[k].from, init[k].to, false, 0.0);
          assert r[j] == before[j] && pairs[k] == init[k];
        } else {
          assert r[j] == Edge(pairs[|pairs| - 1].from, pairs[|pairs| - 1].to, false, 0.0);
        }
      }
    }
  }

  /** Reusing edges never produces two edges for one pair of vertices. */
  lemma {:induction false} WithEdgesKeepsUnique(es: seq<Edge>, pairs: seq<VertexPair>)
    requires UniqueEdges(es)
    ensures UniqueEdges(WithEdges(es, pairs))
    decreases |pairs|
  {
    if pairs != [] {
      var init := pairs[..|pairs| - 1];
      var last := pairs[|pairs| - 1];
      WithEdgesKeepsUnique(es, init);
      var before := WithEdges(es, init);
      if !Joined(before, last.from, last.to) {
        var r := before + [Edge(last.from, last.to, false, 0.0)];
        forall i, j | 0 <= i < j < |r| ensures !Joins(r[j], r[i].v0, r[i].v1) {
          if j == |before| {
            assert !Joins(before[i], last.from, last.to);
          }
        }
      }
    }
  }

  /** An edge created for `a`-`b` is reused for `b`-`a`: winding does not matter. */
  lemma EdgeReuseIgnoresWinding(es: seq<Edge>, a: nat, b: nat)
    ensures WithEdge(WithEdge(es, a, b), b, a) == WithEdge(es, a, b)
  {
    var r := WithEdge(es, a, b);
    if !Joined(es, a, b) {
      assert Joins(r[|es|], b, a);
    } else {
      var j :| 0 <= j < |es| && Joins(es[j], a, b);
      assert Joins(r[j], b, a);
    }
  }

  /**
   * A triangle polygon whose contour point `c` holds the edge between the vertices of
   * its corners `c` and `c + 1 (mod 3)` and the instance of corner `c`.
   */
  ghost predicate TriangleIn(p: Polygon, groupCount: nat, instances: seq<VertexInstance>, edges: seq<Edge>) {
    && p.group < groupCount
    && |p.contour| == 3
    && (forall c | 0 <= c < 3 :: p.contour[c].edge < |edges| && p.contour[c].instance < |instances|)
    && SideJoins(p.contour[0], p.contour[1], instances, edges)
    && SideJoins(p.contour[1], p.contour[2], instances, edges)
    && SideJoins(p.contour[2], p.contour[0], instances, edges)
  }

  /** The edge of `here` joins the vertex of `here`'s instance to that of `next`'s instance. */
  ghost predicate SideJoins(here: ContourPoint, next: ContourPoint, instances: seq<VertexInstance>, edges: seq<Edge>) {
    here.edge < |edges| && here.instance < |instances| && next.instance < |instances| &&
    Joins(edges[here.edge], instances[here.instance].vertex, instances[next.instance].vertex)
  }

  /** A triangle stays well formed when instances and edges are only appended. */
  lemma TriangleInGrows(p: Polygon, groupCount: nat, instances: seq<VertexInstance>, edges: seq<Edge>,
                        groupCount': nat, instances': seq<VertexInstance>, edges': seq<Edge>)
    requires TriangleIn(p, groupCount, instances, edges)
    requires groupCount <= groupCount'
    requires |instances| <= |instances'| && instances'[..|instances|] == instances
    requires |edges| <= |edges'| && edges'[..|edges|] == edges
    ensures TriangleIn(p, groupCount', instances', edges')
  {
    assert forall i | 0 <= i < |instances| :: instances'[i] == instances[i];
    assert forall e | 0 <= e < |edges| :: edges'[e] == edges[e];
  }

  class MeshDescription {
    var vertices: seq<Vector3>
    var instances: seq<VertexInstance>
    var edges: seq<Edge>
    /** The imported material slot name of each polygon group. */
    var groups: seq<string>
    var polygons: seq<Polygon>
    /** The number of texture-coordinate channels of the vertex-instance attribute. */
    var uvChannelCount: nat

    /** Every id refers to an existing element, and every polygon is a triangle of its own corners. */
    ghost predicate Valid()
      reads this
    {
      && (forall i | 0 <= i < |instances| :: instances[i].vertex < |vertices|)
      && (forall e | 0 <= e < |edges| :: edges[e].v0 < |vertices| && edges[e].v1 < |vertices|)
      && (forall p | 0 <= p < |polygons| :: TriangleIn(polygons[p], |groups|, instances, edges))
    }

    /** `CreateOriginalMeshDescription`: an empty description. */
    constructor ()
      ensures Valid()
      ensures vertices == [] && instances == [] && edges == [] && groups == [] && polygons == [] && uvChannelCount == 0
    {
      vertices, instances, edges, groups, polygons, uvChannelCount := [], [], [], [], [], 0;
    }

    /** `CreateVertex` followed by setting its position. */
    method CreateVertex(position: Vector3) returns (id: nat)
      requires Valid()
      modifies this`vertices
      ensures Valid()
      ensures id == old(|vertices|) && vertices == old(vertices) + [position]
    {
      id := |vertices|;
      vertices := vertices + [position];
    }

    /** `CreateVertexInstance` followed by setting its attributes. */
    method CreateVertexInstance(instance: VertexInstance) returns (id: nat)
      requires Valid() && instance.vertex < |vertices|
      modifies this`instances
      ensures Valid()
      ensures id == old(|instances|) && instances == old(instances) + [instance]
    {
      id := |instances|;
      instances := instances + [instance];
      forall p | 0 <= p < |polygons| ensures TriangleIn(polygons[p], |groups|, instances, edges) {
        TriangleInGrows(polygons[p], |groups|, old(instances), edges, |groups|, instances, edges);
      }
    }

    /** `GetVertexPairEdge`: an edge joining `a` and `b` in either order, or None for an invalid id. */
    method GetVertexPairEdge(a: nat, b: nat) returns (e: Option<nat>)
      ensures e.Some? ==> e.value < |edges| && Joins(edges[e.value], a, b)
      ensures e.None? ==> !Joined(edges, a, b)
    {
      e := None;
      var i := 0;
      while i < |edges|
        invariant 0 <= i <= |edges|
        invariant forall j | 0 <= j < i :: !Joins(edges[j], a, b)
      {
        if Joins(edges[i], a, b) {
          e := Some(i);
          return;
        }
        i := i + 1;
      }
    }

    /** `CreateEdge` followed by setting its hardness to false and its crease sharpness to 0. */
    method CreateEdge(a: nat, b: nat) returns (id: nat)
      requires Valid() && a < |vertices| && b < |vertices|
      modifies this`edges
      ensures Valid()
      ensures id == old(|edges|) && edges == old(edges) + [Edge(a, b, false, 0.0)]
    {
      id := |edges|;
      edges := edges + [Edge(a, b, false, 0.0)];
      forall p | 0 <= p < |polygons| ensures TriangleIn(polygons[p], |groups|, instances, edges) {
        TriangleInGrows(polygons[p], |groups|, instances, old(edges), |groups|, instances, edges);
      }
    }

    /** `CreatePolygonGroup` followed by setting its imported material slot name. */
    method CreatePolygonGroup(slotName: string) returns (id: nat)
      requires Valid()
      modifies this`groups
      ensures Valid()
      ensures id == old(|groups|) && groups == old(groups) + [slotName]
    {
      id := |groups|;
      groups := groups + [slotName];
      forall p | 0 <= p < |polygons| ensures TriangleIn(polygons[p], |groups|, instances, edges) {
        TriangleInGrows(polygons[p], |old(groups)|, instances, edges, |groups|, instances, edges);
      }
    }

    /** `CreatePolygon` for a triangle contour. */
    method CreatePolygon(group: nat, contour: seq<ContourPoint>) returns (id: nat)
      requires Valid() && TriangleIn(Polygon(group, contour), |groups|, instances, edges)
      modifies this`polygons
      ensures Valid()
      ensures id == old(|polygons|) && polygons == old(polygons) + [Polygon(group, contour)]
    {
      id := |polygons|;
      polygons := polygons + [Polygon(group, contour)];
    }
  }
}
