/**
 * Coordinate conversion from OpenGEX float tuples to engine vectors, and the
 * gather step that builds one converted value per triangle corner.
 */
module Conversion {
  import opened OpenGex

  datatype Vector3 = Vector3(x: real, y: real, z: real)
  datatype Vector2 = Vector2(x: real, y: real)

  /** The components of a vector, in the layout of an OpenGEX float[3] element. */
  function Components3(v: Vector3): (f: seq<real>)
    ensures |f| == 3
  {
    [v.x, v.y, v.z]
  }

  /** The components of a vector, in the layout of an OpenGEX float[2] element. */
  function Components2(v: Vector2): (f: seq<real>)
    ensures |f| == 2
  {
    [v.x, v.y]
  }

  /** `ConvertOpenGEXFloat3`: keeps x and z and negates y (OpenGEX and the engine disagree on handedness). */
  function ConvertFloat3(f: seq<real>): (v: Vector3)
    requires |f| >= 3
    ensures Components3(Vector3(v.x, -v.y, v.z)) == f[..3]
  {
    Vector3(f[0], -f[1], f[2])
  }

  /** `ConvertOpenGEXFloat2`: copies both components unchanged. */
  function ConvertFloat2(f: seq<real>): (v: Vector2)
    requires |f| >= 2
    ensures Components2(v) == f[..2]
  {
    Vector2(f[0], f[1])
  }

  /** Converting a converted vector again gives back the original components. */
  lemma ConvertFloat3Involutive(f: seq<real>)
    requires |f| >= 3
    ensures ConvertFloat3(Components3(ConvertFloat3(f))) == Vector3(f[0], f[1], f[2])
  {
  }

  /** `ReIndexForOpenGEX<FVector>`: one converted element of `source` per index. */
  method ReIndexFloat3(source: VertexArray, indices: seq<nat>) returns (r: seq<Vector3>)
    requires Addresses(source, indices, |indices|) && HasArity(source, 3)
    ensures |r| == |indices|
    ensures forall i | 0 <= i < |indices| :: r[i] == ConvertFloat3(source.elements[indices[i]])
  {
    r := [];
    for i := 0 to |indices|
      invariant |r| == i
      invariant forall j | 0 <= j < i :: r[j] == ConvertFloat3(source.elements[indices[j]])
    {
      r := r + [ConvertFloat3(source.elements[indices[i]])];
    }
  }

  /** `ReIndexForOpenGEX<FVector2D>`: one converted element of `source` per index. */
  method ReIndexFloat2(source: VertexArray, indices: seq<nat>) returns (r: seq<Vector2>)
    requires Addresses(source, indices, |indices|) && HasArity(source, 2)
    ensures |r| == |indices|
    ensures forall i | 0 <= i < |indices| :: r[i] == ConvertFloat2(source.elements[indices[i]])
  {
    r := [];
    for i := 0 to |indices|
      invariant |r| == i
      invariant forall j | 0 <= j < i :: r[j] == ConvertFloat2(source.elements[indices[j]])
    {
      r := r + [ConvertFloat2(source.elements[indices[i]])];
    }
  }
}
