# OpenGEX importer: mesh assembly

This project models the mesh-assembly core of the OpenGEX static-mesh importer: the part of
`OpenGEXStaticMesh.cpp` that turns one level of detail of an OpenGEX `GeometryObject` into an
engine mesh description.

- **Attribute classification.** `DecomposeVertexArraysForOpenGEX` sorts a level's vertex arrays
  into slots by substring matches on their `attrib` names. `HasTangentFromOpenGEXMeshStructure`
  uses the same rule for tangents. A slot holds the position of the chosen array in the level's
  vertex-array list, which stands for the pointer the importer stores.
- **Gather and conversion.** `ReIndexForOpenGEX` builds one converted value per triangle corner.
  `ConvertOpenGEXFloat3` negates y; `ConvertOpenGEXFloat2` copies both components. Float
  components are reals, since only copying and negation are applied to them.
- **Material slots.** `AssignMaterialsForOpenGEX` appends one static-material slot per used
  material index, in ascending index order, and records one section per slot.
- **The level loop body of `ImportOneMeshFromOpenGEX`.** It builds the build settings, the
  polygon groups, one vertex per position element, and then, primitive by primitive, three vertex
  instances per whole triangle. Each triangle side reuses an existing edge joining its two
  vertices in either order, or creates a soft, uncreased one. Each triangle then becomes a
  polygon whose contour follows the corners in cyclic order.

The engine's mesh description is the class `MeshDescriptions.MeshDescription`. It holds
sequences of vertices, vertex instances, edges, polygon-group names and polygons. An element's id
is its position in its sequence. The static mesh is the class `StaticMeshes.StaticMesh`.
Imperative code is modelled as methods that update those objects. Each method is proved against
a specification function: `WithEdges` for the edge lookup-or-create fold, `PrimitiveCorners`
and `LodCorners` for the instances, `SlotMap` and `SlotMaterials` for the slots. Lemmas prove
what the importer promises about those functions: unique edges, every pair joined, slots by rank,
and so on.

The importer does not check several things. The model states them as preconditions
(`LodImport.LodReady`):
- the level has a position array;
- attribute elements have the components read from them;
- every corner index addresses an element of the position array and of every gathered
  attribute array;
- every primitive's material index names a material structure whose engine material is known;
- a level with primitives has at most `UvChannels.MaxUvChannels` (the engine's
  `MAX_MESH_TEXTURE_COORDS_MD`, 8) texcoord arrays, the size of the per-primitive UV buffer.

Source paths below are relative to the repository root.

## Model

| member | source | states |
|---|---|---|
| Conversion.ConvertFloat3 | Source/OpenGEXImporter/Private/OpenGEXStaticMesh.cpp:20-23 | the result keeps x and z and negates y: negating y back gives the first three components of the input |
| Conversion.ConvertFloat2 | Source/OpenGEXImporter/Private/OpenGEXStaticMesh.cpp:25-28 | the result's components are the input's first two, unchanged |
| Conversion.ConvertFloat3Involutive | Source/OpenGEXImporter/Private/OpenGEXStaticMesh.cpp:20-23 | converting a converted vector again gives back the original components |
| Conversion.ReIndexFloat3 | Source/OpenGEXImporter/Private/OpenGEXStaticMesh.cpp:33-43 | one result per index, and result `i` is the converted element at `Indices[i]` |
| Conversion.ReIndexFloat2 | Source/OpenGEXImporter/Private/OpenGEXStaticMesh.cpp:45-55 | one result per index, and result `i` is the converted element at `Indices[i]` |
| OpenGex.WholeTriangles | Source/OpenGEXImporter/Private/OpenGEXStaticMesh.cpp:250 | `count / 3`: the whole triangles use at most `count` indices, and fewer than three indices are left over |
| Substring.Find | Source/OpenGEXImporter/Private/OpenGEXStaticMesh.cpp:95-99 | `std::string::find`: the first occurrence of the keyword, or none exactly when the name does not contain it |
| Substring.FindFrom | Source/OpenGEXImporter/Private/OpenGEXStaticMesh.cpp:95-99 | the search from a start position gives the first occurrence at or after it, or none exactly when there is none |
| Substring.BitangentContainsTangent | Source/OpenGEXImporter/Private/OpenGEXStaticMesh.cpp:110-120 | a name in which "bitangent" is found also contains "tangent" |
| Attributes.LastNamed | Source/OpenGEXImporter/Private/OpenGEXStaticMesh.cpp:98-126 | a single slot holds an array named with its keyword and no later array is; it is empty only when no array is named |
| Attributes.AllNamed | Source/OpenGEXImporter/Private/OpenGEXStaticMesh.cpp:128-132 | the texcoord list holds exactly the arrays whose name contains the keyword |
| Attributes.AllNamedAscending | Source/OpenGEXImporter/Private/OpenGEXStaticMesh.cpp:128-132 | the texcoord list is in encounter order, each array once |
| Attributes.NamedStep | Source/OpenGEXImporter/Private/OpenGEXStaticMesh.cpp:92-133 | one more array becomes the last match, or is appended to the matches, exactly when its name contains the keyword |
| Attributes.DecomposeVertexArrays | Source/OpenGEXImporter/Private/OpenGEXStaticMesh.cpp:82-134 | the loop computes the decomposition: the last array per keyword slot, and all texcoord arrays in order |
| Attributes.HasTangent | Source/OpenGEXImporter/Private/OpenGEXStaticMesh.cpp:393-412 | true exactly when some array's name contains "tangent" |
| Attributes.HasTangentIffTangentSlot | Source/OpenGEXImporter/Private/OpenGEXStaticMesh.cpp:393-412 | the tangent test agrees with the decomposition's tangent slot being filled |
| Attributes.BitangentFillsTangentSlot | Source/OpenGEXImporter/Private/OpenGEXStaticMesh.cpp:110-120 | a bitangent array also fills the tangent slot, with it or with a later array |
| Attributes.BitangentCountsAsTangent | Source/OpenGEXImporter/Private/OpenGEXStaticMesh.cpp:403-407 | a "bitangent" array makes the tangent test succeed |
| UvChannels.UvSourcesAsWritten | Source/OpenGEXImporter/Private/OpenGEXStaticMesh.cpp:274-286 | as written, one UV source per primitive, chosen by the running `NumUVs` |
| UvChannels.AsWrittenGathersAllTexcoords | Source/OpenGEXImporter/Private/OpenGEXStaticMesh.cpp:280-286 | as written, with texcoord arrays every primitive gathers all of them and reads only existing ones |
| UvChannels.AsWrittenReadsMissingTexcoord | Source/OpenGEXImporter/Private/OpenGEXStaticMesh.cpp:274-285 | as written, with no texcoord array the second primitive gathers channel 0 of an empty list |
| UvChannels.UvSourceFor | Source/OpenGEXImporter/Private/OpenGEXStaticMesh.cpp:274-286 | corrected: a zero channel is generated exactly when the level has no texcoord array; otherwise every array is gathered |
| UvChannels.UvSourceForAgreesWhenTexcoordsExist | Source/OpenGEXImporter/Private/OpenGEXStaticMesh.cpp:280-286 | the correction agrees with the code as written whenever texcoord arrays exist |
| MaterialSlots.SortedIndices | Source/OpenGEXImporter/Private/OpenGEXStaticMesh.cpp:59-60 | `Array()` then `Sort()`: strictly ascending, holding exactly the set's elements |
| MaterialSlots.RankInSorted | Source/OpenGEXImporter/Private/OpenGEXStaticMesh.cpp:59-60 | the element at sorted position `k` has exactly `k` smaller elements |
| MaterialSlots.SlotMaterials | Source/OpenGEXImporter/Private/OpenGEXStaticMesh.cpp:66-75 | one emplaced static material per sorted index |
| MaterialSlots.SlotMaterial | Source/OpenGEXImporter/Private/OpenGEXStaticMesh.cpp:71-74 | the slot emplaced for index `m`: the engine material of its structure name, with its material name as both slot name and imported slot name |
| MaterialSlots.SlotMaterialsAt | Source/OpenGEXImporter/Private/OpenGEXStaticMesh.cpp:71-74 | the `j`-th emplaced slot holds the material and name of the `j`-th sorted index |
| MaterialSlots.SlotMapPositions | Source/OpenGEXImporter/Private/OpenGEXStaticMesh.cpp:76 | the index-to-slot map has exactly the sorted indices as keys, the `j`-th mapped to slot `first + j` |
| MaterialSlots.WithSectionsEntries | Source/OpenGEXImporter/Private/OpenGEXStaticMesh.cpp:78 | one section per new slot of the level, mapped to itself; every other entry is kept |
| MaterialSlots.SortedSlotsAreRanks | Source/OpenGEXImporter/Private/OpenGEXStaticMesh.cpp:59-76 | walking the sorted indices gives each used index the slot of its rank, holding its own material |
| MaterialSlots.AppendSlots | Source/OpenGEXImporter/Private/OpenGEXStaticMesh.cpp:66-79 | the loop appends the slot materials in sorted order and builds the slot map and the sections |
| MaterialSlots.AssignMaterials | Source/OpenGEXImporter/Private/OpenGEXStaticMesh.cpp:57-80 | the keys are the used indices; the `k`-th smallest gets slot (prior slot count + `k`), holding its material; earlier slots are kept; one section per slot |
| MeshDescriptions.WithEdge | Source/OpenGEXImporter/Private/OpenGEXStaticMesh.cpp:339-345 | one lookup-or-create step: the edges unchanged when an edge joins the two vertices in either order, otherwise a soft edge with crease 0 appended |
| MeshDescriptions.WithEdges | Source/OpenGEXImporter/Private/OpenGEXStaticMesh.cpp:339-346 | the lookup-or-create step applied to every requested pair in order |
| MeshDescriptions.WithEdgesKeepsEdges | Source/OpenGEXImporter/Private/OpenGEXStaticMesh.cpp:339-345 | existing edges are never modified, and at most one edge is added per pair |
| MeshDescriptions.WithEdgesJoinsEveryPair | Source/OpenGEXImporter/Private/OpenGEXStaticMesh.cpp:339-346 | afterwards every requested vertex pair is joined by an edge |
| MeshDescriptions.WithEdgesAddsOnlyPairEdges | Source/OpenGEXImporter/Private/OpenGEXStaticMesh.cpp:340-345 | every added edge is a soft, uncreased edge for one of the pairs |
| MeshDescriptions.WithEdgesKeepsUnique | Source/OpenGEXImporter/Private/OpenGEXStaticMesh.cpp:339-345 | no two edges ever join the same two vertices, in either order |
| MeshDescriptions.WithEdgesAppend | Source/OpenGEXImporter/Private/OpenGEXStaticMesh.cpp:339-345 | processing pairs in two batches is the same as processing them in one |
| MeshDescriptions.EdgeReuseIgnoresWinding | Source/OpenGEXImporter/Private/OpenGEXStaticMesh.cpp:339 | an edge created for `a`-`b` is reused for `b`-`a` |
| MeshDescriptions.TriangleInGrows | Source/OpenGEXImporter/Private/OpenGEXStaticMesh.cpp:350 | a well-formed triangle stays well formed as elements are appended |
| MeshDescriptions.MeshDescription.GetVertexPairEdge | Source/OpenGEXImporter/Private/OpenGEXStaticMesh.cpp:339 | an edge joining the two vertices in either order, or none exactly when no edge joins them |
| MeshDescriptions.MeshDescription.CreateEdge | Source/OpenGEXImporter/Private/OpenGEXStaticMesh.cpp:342-344 | appends a soft edge with crease 0 and returns its id |
| MeshDescriptions.MeshDescription.CreateVertex | Source/OpenGEXImporter/Private/OpenGEXStaticMesh.cpp:231-232 | appends a vertex at the given position and returns its id |
| MeshDescriptions.MeshDescription.CreateVertexInstance | Source/OpenGEXImporter/Private/OpenGEXStaticMesh.cpp:298-319 | appends an instance of an existing vertex with its attributes and returns its id |
| MeshDescriptions.MeshDescription.CreatePolygonGroup | Source/OpenGEXImporter/Private/OpenGEXStaticMesh.cpp:224-226 | appends a group with its imported slot name and returns its id |
| MeshDescriptions.MeshDescription.CreatePolygon | Source/OpenGEXImporter/Private/OpenGEXStaticMesh.cpp:350 | appends a triangle whose contour edges join its corners' vertices |
| MeshDescriptions.MeshDescription.constructor | Source/OpenGEXImporter/Private/OpenGEXStaticMesh.cpp:161 | a new description is empty |
| Corners.DecomposedSlotsIn | Source/OpenGEXImporter/Private/OpenGEXStaticMesh.cpp:82-134 | every slot of the decomposition is a position in the classified list |
| Corners.Zeros | Source/OpenGEXImporter/Private/OpenGEXStaticMesh.cpp:276 | `AddZeroed`: one zero coordinate per index |
| Corners.GatheredAttributesAt | Source/OpenGEXImporter/Private/OpenGEXStaticMesh.cpp:258-286 | each gathered list holds the converted element at every index; absent arrays give empty lists; the generated channel is all zeros |
| Corners.GatherCornerAttributes | Source/OpenGEXImporter/Private/OpenGEXStaticMesh.cpp:258-286 | computes the gathered normals, tangents and UV channels, and reports generation exactly when there is no texcoord array; the UV lists fit the fixed buffer of `MaxUvChannels` lists |
| Corners.CornerVertex | Source/OpenGEXImporter/Private/OpenGEXStaticMesh.cpp:297 | the vertex of a corner: the vertex id created for its position index |
| Corners.CornerInstance | Source/OpenGEXImporter/Private/OpenGEXStaticMesh.cpp:294-319 | the instance of a corner: its vertex, the gathered normal and tangent when present, a binormal sign when both are, and its UV on every channel |
| Corners.TriangleCorners | Source/OpenGEXImporter/Private/OpenGEXStaticMesh.cpp:292-323 | a triangle has exactly three corners |
| Corners.TrianglePairs | Source/OpenGEXImporter/Private/OpenGEXStaticMesh.cpp:326-337 | a triangle asks for exactly three vertex pairs |
| Corners.PrimitiveCornersAt | Source/OpenGEXImporter/Private/OpenGEXStaticMesh.cpp:288-298 | `n` triangles create `3 n` instances, and instance `k` is that of corner `k` of the index list (`Indices[3t+c]`) |
| Corners.PrimitivePairsAt | Source/OpenGEXImporter/Private/OpenGEXStaticMesh.cpp:326-337 | triangle `t` asks for the pairs of corners 0-1, 1-2 and 2-0, in that order |
| Corners.BinormalSignIffNormalAndTangent | Source/OpenGEXImporter/Private/OpenGEXStaticMesh.cpp:300-314 | a corner has a normal, a tangent, or a binormal sign exactly when the level has a normal array, a tangent array, or both |
| Corners.CornerUVs | Source/OpenGEXImporter/Private/OpenGEXStaticMesh.cpp:316-319 | a corner carries one converted coordinate per texcoord array, or a single zero when there is none |
| TriangleAssembly.WithEdgesOfTriangle | Source/OpenGEXImporter/Private/OpenGEXStaticMesh.cpp:326-348 | a triangle's three sides are three lookup-or-create steps |
| TriangleAssembly.ContourIsTriangle | Source/OpenGEXImporter/Private/OpenGEXStaticMesh.cpp:346-350 | a contour whose edges join consecutive corners is a well-formed triangle |
| TriangleAssembly.FindOrCreateEdge | Source/OpenGEXImporter/Private/OpenGEXStaticMesh.cpp:339-346 | the result joins the two vertices; the edges become one lookup-or-create step; existing edges are kept |
| TriangleAssembly.AddCorners | Source/OpenGEXImporter/Private/OpenGEXStaticMesh.cpp:292-323 | appends the three corner instances in corner order |
| TriangleAssembly.AddContour | Source/OpenGEXImporter/Private/OpenGEXStaticMesh.cpp:325-351 | edges for the three cyclic corner pairs, then one triangle polygon on the three instances in the group |
| TriangleAssembly.AddTriangle | Source/OpenGEXImporter/Private/OpenGEXStaticMesh.cpp:290-352 | one triangle: its three instances, its three edge steps and its polygon |
| TriangleAssembly.EmittedRunAppend | Source/OpenGEXImporter/Private/OpenGEXStaticMesh.cpp:288-353 | the next triangle extends the run of emitted polygons |
| TriangleAssembly.AddTriangleStep | Source/OpenGEXImporter/Private/OpenGEXStaticMesh.cpp:288-353 | the triangle loop's step from `t` triangles done to `t + 1` |
| TriangleAssembly.AddTriangles | Source/OpenGEXImporter/Private/OpenGEXStaticMesh.cpp:250-353 | floor(count / 3) triangles: instances, edges and polygons of every whole triangle in order, all in the primitive's group; trailing indices are ignored |
| LodImport.LodBuildSettings | Source/OpenGEXImporter/Private/OpenGEXStaticMesh.cpp:191-204 | normals or tangents are recomputed exactly when the array is absent, and lightmap UVs are generated exactly when there is at most one texcoord array; the other flags are fixed |
| LodImport.BuildSettingsFollowArrays | Source/OpenGEXImporter/Private/OpenGEXStaticMesh.cpp:191-204 | the same, in terms of the array names |
| LodImport.LastNamedAbsent | Source/OpenGEXImporter/Private/OpenGEXStaticMesh.cpp:104-114 | a slot is empty exactly when no name contains its keyword |
| LodImport.BuildSettingsIgnoreData | Source/OpenGEXImporter/Private/OpenGEXStaticMesh.cpp:191-204 | two levels with the same array names get the same settings, whatever their data |
| LodImport.DecomposedByNames | Source/OpenGEXImporter/Private/OpenGEXStaticMesh.cpp:92-133 | the classification reads only the attribute names |
| LodImport.CollectMaterialIndices | Source/OpenGEXImporter/Private/OpenGEXStaticMesh.cpp:211-215 | the used set holds exactly the primitives' material indices |
| LodImport.CreatePolygonGroups | Source/OpenGEXImporter/Private/OpenGEXStaticMesh.cpp:220-227 | one distinct group per used index, named after its slot's imported slot name |
| LodImport.VertexIds | Source/OpenGEXImporter/Private/OpenGEXStaticMesh.cpp:229-234 | position index `i` maps to vertex `base + i`, for exactly the first `count` indices |
| LodImport.AddVertices | Source/OpenGEXImporter/Private/OpenGEXStaticMesh.cpp:229-234 | one vertex per position element, in order, at its converted position, and the map from position index to vertex id |
| LodImport.PrimitiveOf | Source/OpenGEXImporter/Private/OpenGEXStaticMesh.cpp:248-286 | a gathered primitive fits its indices and has floor(count / 3) triangles |
| LodImport.EmittedRunGroups | Source/OpenGEXImporter/Private/OpenGEXStaticMesh.cpp:249-350 | a primitive's polygons are all in its group, each on its own three consecutive instances |
| LodImport.CornerRunAppend | Source/OpenGEXImporter/Private/OpenGEXStaticMesh.cpp:246-353 | consecutive runs of triangles on consecutive instances form one run |
| LodImport.GroupsOfAppend | Source/OpenGEXImporter/Private/OpenGEXStaticMesh.cpp:246-353 | collecting groups distributes over concatenation |
| LodImport.PrimitivesReadyPrefix | Source/OpenGEXImporter/Private/OpenGEXStaticMesh.cpp:246-248 | readiness of all primitives implies that of every prefix |
| LodImport.LodStep | Source/OpenGEXImporter/Private/OpenGEXStaticMesh.cpp:246-353 | one more primitive appends its instances, pairs, triangle count and groups |
| LodImport.ImportPrimitive | Source/OpenGEXImporter/Private/OpenGEXStaticMesh.cpp:248-353 | one primitive: gathered attributes, then its triangles' instances, edges and polygons in its material's group |
| LodImport.ImportPrimitiveStep | Source/OpenGEXImporter/Private/OpenGEXStaticMesh.cpp:246-354 | the primitive loop's step from `k` primitives done to `k + 1` |
| LodImport.ImportPrimitives | Source/OpenGEXImporter/Private/OpenGEXStaticMesh.cpp:245-354 | all primitives in order: instances, edges, triangle count, groups and corner runs of the whole level; generated exactly when texcoords are missing and a primitive exists |
| LodImport.AssignLodSlotsAndGroups | Source/OpenGEXImporter/Private/OpenGEXStaticMesh.cpp:206-227 | the level's slots are appended by rank and its groups created and named, one per used index |
| LodImport.GeometryPrimitivesReady | Source/OpenGEXImporter/Private/OpenGEXStaticMesh.cpp:297 | in a ready level every corner index has a vertex |
| LodImport.UsedGroupsKnown | Source/OpenGEXImporter/Private/OpenGEXStaticMesh.cpp:249 | every primitive's material has a polygon group |
| LodImport.BuildGeometry | Source/OpenGEXImporter/Private/OpenGEXStaticMesh.cpp:229-354 | vertices, then every primitive's triangles; the edges are unique and polygon `q` is the triangle on instances `3q`..`3q+2` |
| LodImport.NewLodDescription | Source/OpenGEXImporter/Private/OpenGEXStaticMesh.cpp:161-189 | an empty description with one UV channel per texcoord array |
| LodImport.ImportLod | Source/OpenGEXImporter/Private/OpenGEXStaticMesh.cpp:160-358 | the whole level: settings, UV channel count, generated flag, slots, groups and geometry as above |

## Left out

- Engine asset lifecycle (`NewObject`, package naming, `CommitOriginalMeshDescription`, `PostEditChange`, dirty flags, asset registry): opaque engine calls with no logic of the importer's own.
- The binormal-sign value (`GetBasisDeterminantSign`, `GetSafeNormal`, cross product): floating-point numerics. Only whether a corner gets a sign is modelled.
- `ComputePolygonTriangulation` (line 352): engine code. A triangle polygon is its own triangulation.
- `OpenGEXMaterial.cpp`, `OpenGEXImporterFactory.cpp` and the module boilerplate are not part of this model. They hold material-graph wiring, file I/O, the external OpenGEX parser and editor glue.
- `ImportMeshesFromOpenGEX` (lines 369-391) and the outer `while (MeshStruct)` walk over the mesh map (lines 156-158, 356): traversal of the external parser's node list. One level is modelled; the running flag is threaded through `ImportLod`'s `generatedBefore`.
- `GetConstCharPtrLength` (lines 14-18): an unused compile-time helper.
- `LodImport.ImportLod`: the level's build settings are written to the one shared source model, so a later level overwrites them. The model describes one level's write only.
- `LodImport.CreatePolygonGroups`: the `TSet` iteration order decides which group id each material index gets. The model takes an arbitrary order, so it proves only that the ids are distinct, one per index and correctly named, not which index gets which id.
- `LodImport.NewLodDescription`: when a level has no texcoord array, line 189 sets zero UV channels and line 318 then writes channel 0. The model records the channel count as the importer sets it and does not model the engine's reaction to that write.
- `LodImport.LodReady`: out-of-range corner indices (lines 40, 52, 297), a missing position array (line 229), an unknown material (line 72) and more than `MaxUvChannels` texcoord arrays in a level with primitives (the writes past `UVs[]` at lines 272-284) are undefined behaviour or engine assertion failures in the importer. The model states them as preconditions and does not model the failure.
- `Corners.GatherCornerAttributes`: requires at most `MaxUvChannels` texcoord arrays (through `Corners.Gatherable`); the out-of-bounds writes at line 284 for more arrays are not modelled.
- `LodImport.ImportLod`: promises the built geometry only for levels that meet `LodReady`, so not for a level whose texcoord arrays overflow the UV buffer; what the importer then does is undefined.
- The 32-bit index types (`uint32` indices reinterpreted as `int32` at line 295, `int32` loop counters) are not modelled; indices are natural numbers.

## Findings

| source | as written | input that shows it | evidently intended | confidence | as-written member | corrected member |
|---|---|---|---|---|---|---|
| Source/OpenGEXImporter/Private/OpenGEXStaticMesh.cpp:274-285 | the branch tests the running `NumUVs`, which the zero-generating branch sets to 1, so from the second primitive on the else-branch reads `TexcoordVertexArrayStructs[0]` | a level with no texcoord array and two primitives: the second primitive gathers channel 0 of an empty list | generate a zero channel for every primitive of a level with no texcoord array | not executed | UvChannels.AsWrittenReadsMissingTexcoord | UvChannels.UvSourceFor |
