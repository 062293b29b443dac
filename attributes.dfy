/**
 * Classification of a mesh level's vertex arrays by substring matches on their
 * attribute names (`DecomposeVertexArraysForOpenGEX`, `HasTangentFromOpenGEXMeshStructure`).
 * A slot holds the position of the chosen array in the mesh's vertex-array list.
 */
module Attributes {
  import opened Wrappers
  import opened Substring
  import opened OpenGex

  /** The importer's test: `attrib.find(keyword) != npos`. */
  predicate Named(a: VertexArray, keyword: string) {
    Find(a.attrib, keyword).Some?
  }

  /** The last array whose name contains `keyword`: later matches overwrite earlier ones. */
  function LastNamed(arrays: seq<VertexArray>, keyword: string): (r: Option<nat>)
    ensures r.Some? ==> r.value < |arrays| && Named(arrays[r.value], keyword)
    ensures r.Some? ==> forall j | r.value < j < |arrays| :: !Named(arrays[j], keyword)
    ensures r.None? ==> forall j | 0 <= j < |arrays| :: !Named(arrays[j], keyword)
  {
    if arrays == [] then None
    else if Named(arrays[|arrays| - 1], keyword) then Some(|arrays| - 1)
    else
      var init := arrays[..|arrays| - 1];
      assert forall j | 0 <= j < |init| :: init[j] == arrays[j];
      LastNamed(init, keyword)
  }

  /** Every array whose name contains `keyword`, in encounter order. */
  function AllNamed(arrays: seq<VertexArray>, keyword: string): (r: seq<nat>)
    ensures forall k | 0 <= k < |r| :: r[k] < |arrays| && Named(arrays[r[k]], keyword)
    ensures forall j | 0 <= j < |arrays| && Named(arrays[j], keyword) :: j in r
  {
    if arrays == [] then []
    else
      var prefix := arrays[..|arrays| - 1];
      assert forall j | 0 <= j < |prefix| :: prefix[j] == arrays[j];
      var init := AllNamed(prefix, keyword);
      if Named(arrays[|arrays| - 1], keyword) then init + [|arrays| - 1] else init
  }

  /** The arrays named with `keyword` are listed in the order they occur, each once. */
  lemma {:induction false} AllNamedAscending(arrays: seq<VertexArray>, keyword: string)
    ensures Ascending(AllNamed(arrays, keyword))
  {
    if arrays != [] {
      var prefix := arrays[..|arrays| - 1];
      AllNamedAscending(prefix, keyword);
      var init := AllNamed(prefix, keyword);
      if Named(arrays[|arrays| - 1], keyword) {
        var r := AllNamed(arrays, keyword);
        assert r == init + [|prefix|];
        forall k, l | 0 <= k < l < |r| ensures r[k] < r[l] {
          if l == |init| {
            assert r[k] == init[k] < |prefix|;
          } else {
            assert r[k] == init[k] && r[l] == init[l];
          }
        }
      } else {
        assert AllNamed(arrays, keyword) == init;
      }
    }
  }

  /** Looking at one more array: it becomes the last match, and is appended to the matches, exactly when it is named. */
  lemma NamedStep(arrays: seq<VertexArray>, i: nat, keyword: string)
    requires i < |arrays|
    ensures LastNamed(arrays[..i + 1], keyword) ==
      if Named(arrays[i], keyword) then Some(i) else LastNamed(arrays[..i], keyword)
    ensures AllNamed(arrays[..i + 1], keyword) ==
      if Named(arrays[i], keyword) then AllNamed(arrays[..i], keyword) + [i] else AllNamed(arrays[..i], keyword)
  {
    assert arrays[..i + 1][..i] == arrays[..i];
  }

  /** The out-parameters of `DecomposeVertexArraysForOpenGEX`; None stands for a null pointer. */
  datatype Decomposition = Decomposition(
    position: Option<nat>,
    normal: Option<nat>,
    tangent: Option<nat>,
    bitangent: Option<nat>,
    color: Option<nat>,
    texcoords: seq<nat>)

  /** What the classification of `arrays` should produce. */
  function Decomposed(arrays: seq<VertexArray>): Decomposition {
    Decomposition(
      LastNamed(arrays, "position"),
      LastNamed(arrays, "normal"),
      LastNamed(arrays, "tangent"),
      LastNamed(arrays, "bitangent"),
      LastNamed(arrays, "color"),
      AllNamed(arrays, "texcoord"))
  }

  /** `DecomposeVertexArraysForOpenGEX`: one pass over the arrays, testing every keyword on every name. */
  method DecomposeVertexArrays(arrays: seq<VertexArray>) returns (d: Decomposition)
    ensures d == Decomposed(arrays)
  {
    var position, normal, tangent, bitangent, color := None, None, None, None, None;
    var texcoords := [];
    for i := 0 to |arrays|
      invariant position == LastNamed(arrays[..i], "position")
      invariant normal == LastNamed(arrays[..i], "normal")
      invariant tangent == LastNamed(arrays[..i], "tangent")
      invariant bitangent == LastNamed(arrays[..i], "bitangent")
      invariant color == LastNamed(arrays[..i], "color")
      invariant texcoords == AllNamed(arrays[..i], "texcoord")
    {
      var a := arrays[i];
      NamedStep(arrays, i, "position");
      NamedStep(arrays, i, "normal");
      NamedStep(arrays, i, "tangent");
      NamedStep(arrays, i, "bitangent");
      NamedStep(arrays, i, "color");
      NamedStep(arrays, i, "texcoord");
      if Find(a.attrib, "position").Some? { position := Some(i); }
      if Find(a.attrib, "normal").Some? { normal := Some(i); }
      if Find(a.attrib, "tangent").Some? { tangent := Some(i); }
      if Find(a.attrib, "bitangent").Some? { bitangent := Some(i); }
      if Find(a.attrib, "color").Some? { color := Some(i); }
      if Find(a.attrib, "texcoord").Some? { texcoords := texcoords + [i]; }
    }
    assert arrays[..|arrays|] == arrays;
    d := Decomposition(position, normal, tangent, bitangent, color, texcoords);
  }

  /** `HasTangentFromOpenGEXMeshStructure`: stops at the first name containing "tangent". */
  method HasTangent(arrays: seq<VertexArray>) returns (r: bool)
    ensures r <==> exists j | 0 <= j < |arrays| :: Named(arrays[j], "tangent")
  {
    r := false;
    var i := 0;
    while i < |arrays|
      invariant 0 <= i <= |arrays|
      invariant forall j | 0 <= j < i :: !Named(arrays[j], "tangent")
    {
      if Find(arrays[i].attrib, "tangent").Some? {
        r := true;
        break;
      }
      i := i + 1;
    }
  }

  /** The tangent test agrees with the tangent slot of the decomposition. */
  lemma HasTangentIffTangentSlot(arrays: seq<VertexArray>)
    ensures (exists j | 0 <= j < |arrays| :: Named(arrays[j], "tangent")) <==> Decomposed(arrays).tangent.Some?
  {
  }

  /** A bitangent array also fills the tangent slot, so that slot holds the bitangent array or a later one. */
  lemma BitangentFillsTangentSlot(arrays: seq<VertexArray>)
    requires Decomposed(arrays).bitangent.Some?
    ensures Decomposed(arrays).tangent.Some?
    ensures Decomposed(arrays).bitangent.value <= Decomposed(arrays).tangent.value
  {
    var b := Decomposed(arrays).bitangent.value;
    BitangentContainsTangent(arrays[b].attrib);
    assert Named(arrays[b], "tangent");
  }

  /** A name containing "bitangent" makes the tangent test succeed. */
  lemma BitangentCountsAsTangent(arrays: seq<VertexArray>, j: nat)
    requires j < |arrays| && Named(arrays[j], "bitangent")
    ensures exists k | 0 <= k < |arrays| :: Named(arrays[k], "tangent")
  {
    BitangentContainsTangent(arrays[j].attrib);
    assert Named(arrays[j], "tangent");
  }
}
