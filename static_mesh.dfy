/**
 * The parts of the engine's static-mesh asset that the importer writes:
 * its material slots, its section-info map and its build settings.
 */
module StaticMeshes {
  /** An entry of `StaticMaterials`: the engine material, its slot name and its imported slot name. */
  datatype StaticMaterial = StaticMaterial(material: nat, slotName: string, importedSlotName: string)

  /** A key of `SectionInfoMap`: a level of detail and a section within it. */
  datatype SectionKey = SectionKey(lod: int, section: nat)

  /** The `FMeshBuildSettings` flags the importer sets. */
  datatype BuildSettings = BuildSettings(
    recomputeNormals: bool,
    recomputeTangents: bool,
    useMikkTSpace: bool,
    removeDegenerates: bool,
    buildAdjacencyBuffer: bool,
    buildReversedIndexBuffer: bool,
    useHighPrecisionTangentBasis: bool,
    useFullPrecisionUVs: bool,
    generateLightmapUVs: bool)

  class StaticMesh {
    var staticMaterials: seq<StaticMaterial>
    /** Section (LOD, slot) is drawn with the material in the given slot. */
    var sectionInfo: map<SectionKey, nat>
    var settings: BuildSettings

    constructor (settings: BuildSettings)
      ensures staticMaterials == [] && sectionInfo == map[] && this.settings == settings
    {
      staticMaterials := [];
      sectionInfo := map[];
      this.settings := settings;
    }
  }
}
