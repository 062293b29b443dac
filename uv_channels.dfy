/**
 * Where each primitive's texture coordinates come from (lines 274-286 of the importer).
 * As written, the branch tests the running `NumUVs`, which the generating branch sets to 1;
 * the model uses the decision the code evidently intends: generate whenever the level has
 * no texcoord arrays.
 */
module UvChannels {
  datatype UvSource = GenerateZeros | GatherChannels(count: nat)

  /**
   * The engine's `MAX_MESH_TEXTURE_COORDS_MD`: the number of per-primitive UV lists the importer
   * reserves on the stack (line 272). The engine header that defines it is not part of this model.
   */
  const MaxUvChannels: nat := 8

  /** The sources chosen for `primitives` primitives in turn, when the branch tests the running `NumUVs`. */
  function UvSourcesAsWritten(numUVs: nat, primitives: nat): (r: seq<UvSource>)
    ensures |r| == primitives
    decreases primitives
  {
    if primitives == 0 then []
    else if numUVs == 0 then [GenerateZeros] + UvSourcesAsWritten(1, primitives - 1)
    else [GatherChannels(numUVs)] + UvSourcesAsWritten(numUVs, primitives - 1)
  }

  /** Every gathered channel exists among `texcoordCount` texcoord arrays. */
  ghost predicate ReadsExistingChannels(sources: seq<UvSource>, texcoordCount: nat) {
    forall k | 0 <= k < |sources| :: sources[k].GatherChannels? ==> sources[k].count <= texcoordCount
  }

  /** As written, with texcoord arrays present every primitive gathers all of them. */
  lemma {:induction false} AsWrittenGathersAllTexcoords(texcoordCount: nat, primitives: nat)
    requires texcoordCount > 0
    ensures forall k | 0 <= k < primitives :: UvSourcesAsWritten(texcoordCount, primitives)[k] == GatherChannels(texcoordCount)
    ensures ReadsExistingChannels(UvSourcesAsWritten(texcoordCount, primitives), texcoordCount)
  {
    if primitives > 0 {
      AsWrittenGathersAllTexcoords(texcoordCount, primitives - 1);
    }
  }

  /**
   * As written, with no texcoord array and two or more primitives, the second primitive gathers
   * channel 0 of an empty list of texcoord arrays.
   */
  lemma AsWrittenReadsMissingTexcoord(primitives: nat)
    requires primitives >= 2
    ensures UvSourcesAsWritten(0, primitives)[0] == GenerateZeros
    ensures UvSourcesAsWritten(0, primitives)[1] == GatherChannels(1)
    ensures !ReadsExistingChannels(UvSourcesAsWritten(0, primitives), 0)
  {
    var tail := UvSourcesAsWritten(1, primitives - 1);
    assert tail[0] == GatherChannels(1);
  }

  /** The intended decision: generate one zero channel exactly when the level has no texcoord array. */
  function UvSourceFor(texcoordCount: nat): (r: UvSource)
    ensures r.GenerateZeros? <==> texcoordCount == 0
    ensures r.GatherChannels? ==> r.count == texcoordCount
  {
    if texcoordCount == 0 then GenerateZeros else GatherChannels(texcoordCount)
  }

  /** The intended decision agrees with the code as written whenever texcoord arrays exist. */
  lemma UvSourceForAgreesWhenTexcoordsExist(texcoordCount: nat, primitives: nat, k: nat)
    requires texcoordCount > 0 && k < primitives
    ensures UvSourcesAsWritten(texcoordCount, primitives)[k] == UvSourceFor(texcoordCount)
  {
    AsWrittenGathersAllTexcoords(texcoordCount, primitives);
  }
}
