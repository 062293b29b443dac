/**
 * The parts of a parsed OpenGEX document that the mesh importer reads.
 * Float components are modelled as reals: the importer only copies and negates them.
 */
module OpenGex {
  /** A `VertexArray` structure: its `attrib` name and its elements, each a tuple of floats. */
  datatype VertexArray = VertexArray(attrib: string, elements: seq<seq<real>>)

  /** An `IndexArray` structure: the material it is drawn with and its flat triangle list. */
  datatype IndexArray = IndexArray(materialIndex: nat, indices: seq<nat>)

  /** A `Mesh` structure: one level of detail of a geometry object. */
  datatype MeshStructure = MeshStructure(level: int, vertexArrays: seq<VertexArray>, indexArrays: seq<IndexArray>)

  /** A `Material` structure as referenced by a geometry node: its structure name and its material name. */
  datatype MaterialStructure = MaterialStructure(structureName: string, materialName: string)

  /** Every element of `a` has at least `arity` components. */
  predicate HasArity(a: VertexArray, arity: nat) {
    forall k | 0 <= k < |a.elements| :: |a.elements[k]| >= arity
  }

  /** Every index in `indices[..count]` addresses an element of `a`. */
  predicate Addresses(a: VertexArray, indices: seq<nat>, count: nat) {
    count <= |indices| && forall i | 0 <= i < count :: indices[i] < |a.elements|
  }

  /** The number of whole triangles in a flat index list: trailing indices are ignored. */
  function WholeTriangles(indices: seq<nat>): (r: nat)
    ensures 3 * r <= |indices| < 3 * r + 3
  {
    |indices| / 3
  }

  /** Strictly ascending positions or indices: each listed once, in increasing order. */
  ghost predicate Ascending(r: seq<nat>) {
    forall k, l | 0 <= k < l < |r| :: r[k] < r[l]
  }
}
