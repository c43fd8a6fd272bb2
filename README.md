# raygen, modelled in Dafny

raygen is a small C++ ray tracer: a command line (`raygen render scene.json`)
loads a JSON scene of nested objects, meshes and materials, transforms every
visible mesh into world-space triangles sorted into per-mesh space trees, and
renders the image with one of several shader providers (simple, ambient
occlusion, three Lambert variants, a BSDF path tracer) on several threads.
Meshes are read from the binary `.mesh` format, from archive chunks, or from
Wavefront OBJ files, and can be written back as OBJ.

This project models the discrete logic around the rendering and proves what it
promises:

- the mesh object and its buffers (`Meshes`, `MeshTypes`, `MeshBuffers`,
  `Polygons`): triangle corner addressing, the setters and their guards,
  `flipNormals`, `inversePolygonVertexOrder`, `extractIndex`/`composeIndex`
  (which undo each other), bounding boxes, UV sets, distinct edges, the plane
  and cube primitives;
- the binary mesh format (`MeshLoader`, `MeshRoundTrip`, `MeshArchive`): the
  header flags, the payload order, and the save-then-load round trip, also
  through an archive chunk;
- the OBJ reader and writer (`ObjText`, `ObjReader`, `ObjWriter`, `Names`):
  tag recognition, the face reference rules, object finishing and unique
  renaming, material libraries, and that a written mesh's face lines point at
  the lines holding its own corners;
- the scene graph, its resource pool and the JSON scene loader (`SceneGraph`,
  `ScenePool`, `SceneLoader`, `Materials`): add, remove, preorder search,
  `eachChild`, unique child names, clone, the pool caches and `collect`,
  path joining, colour strings, vector properties, the material scopes,
  `findMainCamera`, `load` and `createObjectFromBundle`;
- the renderer's control logic (`RayRenderers`, `SpaceTrees`, `RayCommon`,
  `RayShaders`, `Shading`, `Lambert`, `Transforms`): settings and provider
  dispatch, the early exits of `render`, the row partition among threads,
  the transformation of a scene into triangle lists, instances and lights,
  space-tree placement, the nearest-hit and ray-blocked scans, the triangle
  acceptance rules, which sub-shaders a shader calls with which depth
  counter, and the model-matrix stack;
- cube textures (`CubeTextures`) and the command line (`CommandLine`).

Floating-point values are modelled as reals, and the geometry that only
libraries compute (matrix products, box and ray intersection, hexadecimal
colours) is passed in as functions or kept as uninterpreted values. The
JSON reader, the lexer and file access are inputs: a document is the tree of
values the reader yields, a file the sequence of its lines or cells.

## Model

| member | source | states |
|---|---|---|
| Base.ToU16 | src/raygen/mesh.h:26-30 | storing a wider count in a `ushort` `vertex_index_t` keeps it modulo 65536, and leaves values below 65536 unchanged |
| Base.ToU32 | src/raygen/mesh.cpp:905-907 | an `int` meeting a `uint` in a comparison is converted modulo 2^32: non-negative values are kept, negative ones land at or above 2^31 |
| Materials.EqualsIsSameAppearance | src/raygen/material.cpp:13-36 | `equals` holds exactly when colour, emission, glossy, spot range, roughness, transparency, refraction, refraction ratio and name agree and the texture pointers agree (two missing textures compare equal) |
| Materials.EqualsSymmetric | src/raygen/material.cpp:13-36 | `equals` gives the same answer in both argument orders |
| Materials.EqualsReflexive | src/raygen/material.cpp:13-36 | every material equals itself |
| Materials.EqualsIgnoresUnlookedFields | src/raygen/material.cpp:13-36 | the texture path, tiling, normal map and its mipmap, and the loaded flag never make two materials differ |
| Materials.DifferentNameOrShadingNotEqual | src/raygen/material.cpp:14-27 | a difference in the name or in any of the eight shading parameters makes `equals` false |
| Materials.DefaultMaterialPlain | src/raygen/material.h:27-49 | a default-constructed material has no texture and no normal map, and equals a copy of itself whose loaded flag is set |
| Shading.SignificantSelects | src/raygen/bsdf.cpp:159-171 | the parts MixShader keeps are exactly those whose weight exceeds 0.00001 |
| Shading.SignificantSnoc | src/raygen/bsdf.cpp:159-171 | one more weight is kept exactly when it exceeds the threshold, after those kept before it |
| Shading.AccumulateSignificantSnoc | src/raygen/bsdf.cpp:157-173 | the accumulated colour grows by `shade * weight` exactly when the new weight is significant |
| Shading.AccumulateThree | src/raygen/bsdf.cpp:157-173 | the three `color +=` steps of MixShader are applied in order, each only when its weight is significant |
| Shading.MixIsWeightedSum | src/raygen/bsdf.cpp:151-174 | MixShader is the sum of the diffuse shader times `1 - glossy - refraction`, the glossy shader times `glossy` and the refraction shader times `refraction`, keeping exactly the weights above 0.00001 |
| Shading.UsesTint | src/raygen/bsdf.cpp:27-33 | the colour-sampling tint adds the material colour exactly when colour sampling is on and the texture sample exactly when, in addition, the material has a texture; it keeps whatever the untinted colour used |
| Shading.PathsOfTint | src/raygen/bsdf.cpp:27-33 | tinting by the material colour and texture traces no extra path |
| Shading.MixPaths | src/raygen/bsdf.cpp:151-174 | MixShader traces a hemisphere ray when the diffuse weight is significant, then a reflected ray when glossy is and a refracted ray when refraction is, in that order |
| Shading.SubShadersKeepDepth | src/raygen/bsdf.cpp:25 | every sub-shader hands the same BSDFParam (and so the same depth counter) to tracePath (also lines 70, 90, 110, 122, 137) |
| Shading.DiffuseTint | src/raygen/bsdf.cpp:15-36 | the Diffuse and Anisotropic shaders use the material colour exactly when colour sampling is on, and the texture exactly when there is one as well (also lines 125-149) |
| Shading.ReflectiveShaders | src/raygen/bsdf.cpp:55-113 | Glossy traces one reflected ray, Refraction and Glass one refracted ray, jittered exactly when roughness > 0, each times the material colour |
| Shading.TransparencyContinues | src/raygen/bsdf.cpp:115-123 | TransparencyShader traces once onward along the incoming direction and scales the result by the transparency |
| Shading.EmissionTracesNothing | src/raygen/bsdf.cpp:38-53 | EmissionShader traces no path and samples no light: its colour comes from the material, the distance falloff and the facing term alone |
| Lambert.EmissiveIsTerminal | src/raygen/lambert.cpp:17-19 | an emissive material gives colour times emission in all three Lambert providers (also lines 46-48, 72-74) |
| Lambert.OpaqueTermsTraceNothing | src/raygen/lambert.cpp:23-33 | the light, AO and AO-light colour terms trace no path (also lines 50-60, 80-90) |
| Lambert.LambertTracesOnlyThroughTransparency | src/raygen/lambert.cpp:14-41 | the Lambert provider traces exactly one onward path, with the caller's shader parameter, exactly when the material is transparent and not emissive |
| Lambert.AOTracesOnlyThroughTransparency | src/raygen/lambert.cpp:43-67 | the same for LambertWithAO |
| Lambert.AOLightTracesOnlyThroughTransparency | src/raygen/lambert.cpp:69-98 | the same for LambertWithAOLight, whether it passes straight through or mixes |
| Lambert.OpaqueTint | src/raygen/lambert.cpp:27-33 | without transparency, the Lambert and LambertWithAO providers use the material colour exactly when colour sampling is on and the texture exactly when there is one too (also lines 54-60) |
| Lambert.TransparentMixing | src/raygen/lambert.cpp:35-38 | a transparent Lambert surface replaces the tinted colour by `color (light + 0.5)(1 - tr) + trace tr`, while LambertWithAO adds `trace tr` to its opaque result (also lines 62-64) |
| Lambert.AOLightPassThrough | src/raygen/lambert.cpp:76-78 | without colour sampling a transparent surface is passed straight through by LambertWithAOLight |
| Lambert.SharedLightTerm | src/raygen/lambert.cpp:23 | for an opaque, non-emissive material all three providers build on `traceAllLight * (0.75 + 0.5 roughness)`, and Lambert is exactly that light, tinted (also lines 50, 80) |
| CubeTextures.FaceSlotsAreDistinct | src/raygen/cubetex.h:20-27 | the six `CubeTextureFace` values name six different slots of the faces array, all below 6 |
| CubeTextures.FaceRawDataLength | src/raygen/cubetex.cpp:61-63 | a face holds `width * height * 3` bytes, one per RGB channel, within the `int` range |
| CubeTextures.RawDataLength | src/raygen/cubetex.cpp:65-67 | the raw length is below 2^32 and is six face lengths whenever these fit a `uint` |
| CubeTextures.RawDataLengthWraps | src/raygen/cubetex.cpp:61-67 | for 16384×16384 faces the face length fits an `int` while the `uint` raw length wraps to 536870912, less than the six faces need |
| CubeTextures.ToI32 | src/raygen/cubetex.cpp:89 | storing the `uint` length in an `int` keeps it when below 2^31 and makes it negative otherwise, modulo 2^32 |
| CubeTextures.RawBytesLength | src/raygen/cubetex.cpp:75-79 | faces of `len` bytes each fill `faces * len` bytes of the raw buffer |
| CubeTextures.RawBytesAt | src/raygen/cubetex.cpp:78 | byte `k` of face `i` is at offset `faceDataLen * i + k` of the raw buffer |
| CubeTextures.RawOffsetOwner | src/raygen/cubetex.cpp:75-79 | every offset of the six-face buffer falls in exactly one face, at offset `j mod len` inside it |
| CubeTextures.FormatTagSpellsRmap | src/raygen/cubetex.cpp:11 | the format tag written first spells "rmap" byte by byte in little-endian order (also lines 95) |
| CubeTextures.PaveFacesAsWritten | src/raygen/cubetex.cpp:50-59 | as written, the paved canvas is `4w`×`3h` with six copies, and Left goes to (0, w) |
| CubeTextures.PaveFaces | src/raygen/cubetex.cpp:50-59 | the corrected pavement has the same canvas and six copies, with Left at (0, h) |
| CubeTextures.PavementIsACross | src/raygen/cubetex.cpp:50-59 | the corrected pavement places every face exactly once, inside the canvas and overlapping no other face, with Left, Forward, Right and Back left to right along the middle row |
| CubeTextures.PavementAsWrittenSquare | src/raygen/cubetex.cpp:53 | for square faces the as-written and the corrected pavements coincide |
| CubeTextures.PavementAsWrittenMisplacesLeft | src/raygen/cubetex.cpp:53 | as written, a 2×1 face puts Left on another row than Forward, and a 3×1 face puts Left outside the canvas |
| CubeTextures.CubeTexture.constructor | src/raygen/cubetex.cpp:15-19 | a new cube texture has six null faces, a size of zero and the default bounding box |
| CubeTextures.CubeTexture.CreateEmpty | src/raygen/cubetex.cpp:24-33 | `createEmpty` records the size, keeps the bounding box and puts a new zeroed RGB image of that size in every slot |
| CubeTextures.CubeTexture.Clear | src/raygen/cubetex.cpp:35-40 | `clear` zeroes every face and changes neither the sizes nor the bounding box |
| CubeTextures.CubeTexture.GetRawData | src/raygen/cubetex.cpp:69-80 | `getRawData` fills the first six face lengths of the buffer with the faces' bytes in slot order and leaves the rest of the buffer alone |
| CubeTextures.CubeTexture.SaveRawData | src/raygen/cubetex.cpp:88-108 | `saveRawData` fails exactly when the raw length does not fit an `int`; otherwise it writes the data block (tag "rmap", block size, version 0x0100, no flags, the size truncated to `ushort`, the bounding box) and then all six faces' bytes (also src/raygen/cubetex.h:65-73) |
| CubeTextures.CopyInto | src/raygen/cubetex.cpp:78 | the `memcpy` puts the face's bytes at the offset and keeps every other byte of the buffer |
| CommandLine.ShaderSystemTextNamesProvider | src/main.cpp:50-59 | the printed shader name is "Unknown" exactly for the settings for which the renderer creates no provider, and otherwise names the provider that setting creates |
| CommandLine.SkipSpace | src/main.cpp:29 | the white space a `%d` conversion skips is dropped from the head, never lengthening the text (also lines 168) |
| CommandLine.DigitRun | src/main.cpp:29 | the run of digits at the head of the text is maximal: every character in it is a digit and the next one is not (also lines 168) |
| CommandLine.ScanInt | src/main.cpp:29 | a successful `%d` conversion consumes at least one character (also lines 168) |
| CommandLine.ScanIntText | src/main.cpp:27-32 | `%d` reads back exactly the integer printed in decimal, and stops right after it |
| CommandLine.ScanSignedRun | src/main.cpp:27-32 | `%d` on an optional minus sign and a run of digits gives the signed value of the digits and the text after them |
| CommandLine.ScanFields | src/main.cpp:168 | a multi-field `sscanf` converts at most as many fields as its format names (also lines 224) |
| CommandLine.ReadInt | src/main.cpp:27-32 | `READ_ARG_INT` sets the value `%d` reads, and keeps the current one when the text has no integer |
| CommandLine.ToByte | src/main.cpp:216-217 | storing an `int` in the `byte` shader setting keeps it modulo 256 |
| CommandLine.Lowered | src/main.cpp:39-45 | case folding for the comparison lowers each ASCII letter in place and keeps the length |
| CommandLine.BoolOptionIgnoresCase | src/main.cpp:39-45 | a boolean option value reads the same in capitals |
| CommandLine.BoolOptionWords | src/main.cpp:42-46 | "YES", "True", "1" and "ON" switch an option on, and "no", "off", "0" and the empty text switch it off |
| CommandLine.Resolution | src/main.cpp:165-178 | `-r` changes at most the width and height and leaves every other setting |
| CommandLine.ScanFieldsGoesOn | src/main.cpp:168 | a conversion followed by the format's separator goes on to the next field (also lines 170) |
| CommandLine.ScanFieldsEnds | src/main.cpp:168 | a conversion followed by anything but the separator ends the scan after that field (also lines 170) |
| CommandLine.ScanFieldsPair | src/main.cpp:168 | two numbers around the separator scan as both, and with another separator as the first alone (also lines 170) |
| CommandLine.ScanIntPair | src/main.cpp:168 | in "W<sep>H", `%d` reads W and stops at the separator, and reads H from "H" (also lines 170) |
| CommandLine.ScanPair | src/main.cpp:168-170 | "W<sep>H" gives two fields with `sep` as the format separator and one with any other |
| CommandLine.ResolutionPair | src/main.cpp:165-178 | "W,H" and "WxH" set the width to W and the height to H |
| CommandLine.ResolutionSingle | src/main.cpp:172-174 | a single number sets both the width and the height to it |
| CommandLine.ResolutionNoNumber | src/main.cpp:165-178 | a value with no leading integer changes no setting |
| CommandLine.ColorOptionAlpha | src/main.cpp:221-237 | `-bc`/`-wc` replace each converted component in order; exactly three components make the colour opaque, four set the alpha, fewer keep the rest, and none keep the whole colour |
| CommandLine.Step | src/main.cpp:158-251 | every turn of the argument loop that goes on moves forward, by at most two arguments and never past the end |
| CommandLine.ParseCommandLine | src/main.cpp:142-270 | `main` up to loading the scene: usage with fewer than two arguments, otherwise the argument loop, then the command and scene-file checks and the output path |
| CommandLine.ScanKeepsCommand | src/main.cpp:242-243 | once past the first argument, the command never changes |
| CommandLine.CommandIsFirstArgument | src/main.cpp:242-255 | whenever `main` goes on to render, the command is the first argument and that argument is not a flag |
| CommandLine.ScanKeepsOutput | src/main.cpp:162-164 | with no `-o` among the remaining arguments, the output path does not change |
| CommandLine.DefaultOutputWithoutFlag | src/main.cpp:263-270 | with no `-o` anywhere, the image is written next to the scene file, named after it, as `.jpg` |
| CommandLine.PositionalArguments | src/main.cpp:242-259 | a command alone is refused for a missing input file, a command and a scene file run with the default settings and output path, and a third plain argument exits with status 1 |
| CommandLine.UnknownFlagExits | src/main.cpp:238-241 | an unknown flag ends the program with status 1 wherever it stands |
| CommandLine.TrailingValueFlag | src/main.cpp:25 | a value flag in last place breaks off the loop and keeps everything read before it |
| CommandLine.ShaderSettingIsAByte | src/main.cpp:216-217 | `-d n` stores `n` modulo 256, so a setting of 261 selects the BSDF provider like 5 |
| MeshTypes.AlmostSame | src/raygen/mesh.h:56-68 | `Edge::almostSame` gives the same answer whichever way round either edge is given, and whichever edge comes first |
| MeshTypes.AlmostEqual | src/raygen/mesh.h:70-72 | `almostEqual` matches the endpoints in the given order only, and is one of the two cases of `almostSame` |
| MeshTypes.EdgeEquals | src/raygen/mesh.h:74-76 | `Edge::operator==` holds exactly when both endpoints are equal in the same order |
| MeshTypes.FlippedEqualsOnlyWhenDegenerate | src/raygen/mesh.h:74-76 | an edge equals its reverse under `==` exactly when its two endpoints coincide |
| MeshTypes.AlmostSameIgnoresOrientation | src/raygen/mesh.h:56-68 | reversing either edge, or swapping the two edges, never changes `almostSame` |
| MeshTypes.EqualEdgesAreAlmostSame | src/raygen/mesh.h:56-76 | edges equal under `==` are also `almostSame` |
| MeshTypes.FindAlmostSame | src/raygen/mesh.cpp:1232-1242 | `indexOfAlmostSameEdgeInList` returns the first position holding an `almostSame` edge, and -1 exactly when there is none |
| MeshTypes.AddAllDistinctSound | src/raygen/mesh.cpp:1315-1323 | offering edges one by one keeps the list as a prefix, leaves every offered edge with an `almostSame` entry, appends only offered edges, and keeps a list of pairwise distinct edges so |
| MeshTypes.DistinctEdgesSound | src/raygen/mesh.cpp:1308-1325 | `getDistinctEdges` keeps the caller's list as a prefix, gives each edge of each triangle an `almostSame` entry, adds only triangle edges, and adds no edge `almostSame` as one already in a pairwise distinct list |
| MeshTypes.NegatedInvolution | src/raygen/mesh.cpp:552-561 | negating the normals twice gives them back, and negating changes every non-zero normal |
| MeshTypes.Extend | src/raygen/mesh.cpp:852-857 | one step of `calcBoundingBox` grows the box to take in the vertex and leaves a box that already holds it unchanged |
| MeshTypes.ExtendTight | src/raygen/mesh.cpp:849-858 | growing the tight box of some vertices by one more vertex gives the tight box of all of them |
| MeshTypes.PointsBoxIsTight | src/raygen/mesh.cpp:841-865 | the box `calcBoundingBox` grows from the first vertex holds every vertex and each face of it touches one |
| MeshTypes.TightBoxUnique | src/raygen/mesh.cpp:841-865 | a vertex list has only one tight box, so the result of `calcBoundingBox` does not depend on the order of the vertices |
| MeshTypes.Gather | src/raygen/mesh.cpp:591-608 | expanding an indexed buffer gives one entry per index: entry `i` is the source element at `indexes[i]` |
| MeshTypes.GatherSets | src/raygen/mesh.cpp:611-621 | the expanded texcoords hold one UV set of `indexCount` entries per source set |
| MeshTypes.GatherSetsSnoc | src/raygen/mesh.cpp:614-620 | expanding one more UV set appends that set's expansion |
| MeshTypes.GatherSetsGrow | src/raygen/mesh.cpp:614-620 | the expansion of the first `k + 1` sets is that of the first `k` followed by that of set `k` |
| MeshTypes.GatherSetsEntry | src/raygen/mesh.cpp:618 | entry `i` of expanded set `k` is entry `indexes[i]` of source set `k`: `newTexcoords[indexCount*k + i] = texcoords[vertexCount*k + index]` |
| MeshTypes.IndexOf | src/raygen/mesh.cpp:696-705 | the search for an equal key returns its first position, or the length when there is none |
| MeshTypes.Dedup | src/raygen/mesh.cpp:656-731 | `composeIndex` keeps at most as many keys as vertices, one index per vertex, each pointing inside the kept keys |
| MeshTypes.DedupSound | src/raygen/mesh.cpp:656-731 | every vertex's index leads back to a key equal to its own, the kept keys are pairwise different, and each comes from the input |
| MeshTypes.ExpandDedupRestores | src/raygen/mesh.cpp:563-731 | composing an index and expanding it again restores every attribute that is part of the key |
| MeshTypes.TruncatedIndexesUnchanged | src/raygen/mesh.h:26-30 | storing the composed indexes in 16-bit `vertex_index_t` changes none of them while at most 65536 keys are distinct (also src/raygen/mesh.cpp:730) |
| MeshTypes.ComposeExpandRoundTrip | src/raygen/mesh.cpp:563-731 | with at most 65536 distinct vertices, `composeIndex` followed by `extractIndex` restores every keyed attribute through the 16-bit indexes |
| MeshTypes.Shift | src/raygen/mesh.cpp:179-183 | moving a triangle's corners to UV set `k` adds the set's offset to each of them (also lines 199-203) |
| MeshTypes.UnindexedCornerList | src/raygen/mesh.cpp:99-103 | without an index buffer, triangle `t` uses slots `3t`, `3t+1` and `3t+2`, each kept in 16 bits |
| MeshTypes.UnindexedCornersDisjoint | src/raygen/mesh.cpp:99-103 | while `3n` slots fit 16 bits, the first `n` triangles of an unindexed mesh share no slot |
| MeshTypes.SwapCorners | src/raygen/mesh.cpp:503-507 | rewinding one triangle keeps the buffer's length |
| MeshTypes.SwapAll | src/raygen/mesh.cpp:501-528 | rewinding the triangles in order keeps the buffer's length |
| MeshTypes.SwapAllDisjoint | src/raygen/mesh.cpp:498-529 | on triangles that share no slot, every second and third corner are exchanged and every other slot keeps its value |
| MeshTypes.SwapAllInvolution | src/raygen/mesh.cpp:498-529 | on triangles that share no slot, `inversePolygonVertexOrder` twice restores the buffer |
| MeshTypes.BlockInside | src/raygen/mesh.cpp:179 | UV set `k` of a buffer of `sets` sets lies inside the buffer (also lines 199) |
| MeshTypes.BlocksSeparate | src/raygen/mesh.cpp:179 | two different UV sets do not overlap (also lines 199) |
| MeshTypes.SwapCornersInSlice | src/raygen/mesh.cpp:519-526 | rewinding a triangle inside one slice rewinds that slice and leaves every slice apart from it unchanged |
| MeshTypes.SwapCornersInBlock | src/raygen/mesh.cpp:519-526 | rewinding a triangle inside UV set `k` rewinds set `k` on its own |
| MeshTypes.SwapCornersBesideBlock | src/raygen/mesh.cpp:519-526 | rewinding a triangle inside UV set `k` leaves every other set unchanged |
| MeshTypes.BlocksDetermineBuffer | src/raygen/mesh.cpp:68 | a texcoord buffer of `sets` sets is determined by its sets |
| MeshTypes.SwapInSetsStep | src/raygen/mesh.cpp:519-526 | rewinding a triangle in `k + 1` sets is rewinding it in the first `k` and then in set `k` |
| MeshTypes.SwapInSetsBlocks | src/raygen/mesh.cpp:519-526 | after rewinding a triangle in the first `k` sets, those sets are rewound and the later ones are unchanged |
| MeshTypes.SwapAllInSetsBlocks | src/raygen/mesh.cpp:518-527 | rewinding every triangle in every set rewinds each UV set as if on its own |
| MeshTypes.SwapAllInSetsInvolution | src/raygen/mesh.cpp:518-527 | on triangles that share no slot, rewinding all texcoord sets twice restores them |
| Meshes.CopyInto | src/raygen/mesh.cpp:742 | a `memcpy` puts the source at the offset and keeps the rest of the destination (also lines 751, 763) |
| Meshes.FromSeq | src/raygen/mesh.cpp:741-742 | `new T[n]` followed by a `memcpy` gives a fresh buffer holding exactly the copied values |
| Meshes.GatherInto | src/raygen/mesh.cpp:591-608 | the expansion loop of `extractIndex` fills a fresh buffer whose entry `i` is the old entry `indexes[i]` |
| Meshes.GatherIf | src/raygen/mesh.cpp:577-607 | a buffer is expanded into a fresh one exactly when its flag is set, and otherwise kept as it is |
| Meshes.GatherBlockInto | src/raygen/mesh.cpp:615-619 | the inner texcoord loop writes the expansion of one UV set at its offset and changes nothing before or after it |
| Meshes.GatherSetAt | src/raygen/mesh.cpp:614-620 | one turn of the outer texcoord loop extends the expanded prefix by one more UV set |
| Meshes.GatherSetsInto | src/raygen/mesh.cpp:611-621 | the texcoord expansion of `extractIndex` gives a fresh buffer of `uvCount` sets of `indexCount` entries, entry `i` of set `k` coming from `indexes[i]` of old set `k` |
| Meshes.GatherSetsIf | src/raygen/mesh.cpp:611-621 | the texcoords are expanded exactly when the mesh has texcoords, and otherwise kept |
| Meshes.SwapCornersIn | src/raygen/mesh.cpp:503-507 | reading a triangle's three values and writing them back with the last two exchanged rewinds that triangle in the buffer |
| Meshes.SwapCornersInSets | src/raygen/mesh.cpp:519-526 | the `uvCount` loop rewinds the triangle in every UV set in turn |
| Meshes.RewindTriangles | src/raygen/mesh.cpp:501-528 | the loop of `inversePolygonVertexOrder` rewinds every triangle in order in the positions, the normals and the UV sets it is asked to, and leaves the other buffers alone |
| Meshes.IndexOfIsFirst | src/raygen/mesh.cpp:696-705 | the linear search of `composeIndex` stops at the first equal key |
| Meshes.ComposeKeys | src/raygen/mesh.cpp:671-731 | the vertex loop of `composeIndex` keeps the distinct keys in order of first occurrence and gives each vertex the 16-bit position of its key among them |
| Meshes.BufferIf | src/raygen/mesh.cpp:744-754 | a rebuilt buffer exists, holding exactly the kept values, exactly when its flag is set |
| Meshes.ComposedTexcoords | src/raygen/mesh.cpp:756-770 | the rebuilt texcoord buffer has `uvCount` sets of the new vertex count and holds the kept keys' first UV set and, with two or more sets, their second |
| Meshes.ComposedVectors | src/raygen/mesh.cpp:735-790 | the rebuilt position, normal and tangent-space buffers are fresh and hold the kept keys' attributes |
| Meshes.BoxOf | src/raygen/mesh.cpp:846-858 | the loop of `calcBoundingBox` over the first `n` vertices computes their tight box |
| Meshes.GrownUVBuffer | src/raygen/mesh.cpp:880-887 | `appendUVBuffer` allocates the larger buffer zeroed and copies the existing sets into its head |
| Meshes.IndexOfAlmostSameEdgeInList | src/raygen/mesh.cpp:1232-1242 | the loop returns the first position of an `almostSame` edge, -1 when there is none |
| Meshes.AddTriangleEdges | src/raygen/mesh.cpp:1313-1323 | one triangle of `getDistinctEdges` offers (v1,v2), (v2,v3) and (v1,v3) in turn |
| Meshes.AddDistinctEdges | src/raygen/mesh.cpp:1309-1324 | the triangle loop of `getDistinctEdges` offers every triangle's edges in triangle order |
| Meshes.NormalsDetachedWithoutTexcoords | src/raygen/mesh.cpp:111 | on a one-triangle mesh without texcoords, as written the second normal becomes the old third while the second position, which the fixed `setVertex` would rewind likewise, keeps its value (also lines 498-529) |
| Meshes.Mesh.constructor | src/raygen/mesh.h:84-120 | a new mesh has no buffers, all counts zero and every flag false |
| Meshes.Mesh.Init | src/raygen/mesh.cpp:55-83 | `init` sets the three counts and allocates a vertex buffer, plus normal, `vertexCount * uvCount` texcoord, index, tangent-space and colour buffers exactly as the flags and the index count ask, keeping the flags |
| Meshes.Mesh.AllocateBuffers | src/raygen/mesh.cpp:63-82 | the allocations after the vertex buffer give each flagged buffer its length and leave the others |
| Meshes.Mesh.AllocateVectorBuffers | src/raygen/mesh.cpp:63-65 | normals and the tangent-space basis are allocated with the vertex count exactly when flagged (also lines 75-78) |
| Meshes.Mesh.AllocateTexcoordsAndIndexes | src/raygen/mesh.cpp:67-73 | texcoords are allocated exactly when flagged and the index buffer exactly when the index count is positive |
| Meshes.Mesh.AllocateColors | src/raygen/mesh.cpp:80-82 | the colour buffer is allocated with the vertex count exactly when flagged |
| Meshes.Mesh.TriangleCount | src/raygen/mesh.h:136-138 | the triangle count is the number of whole triangles in the index buffer, or in the vertex buffer when there is no index buffer |
| Meshes.Mesh.GetIndexes | src/raygen/mesh.cpp:85-91 | `getIndexes` returns the three 16-bit index entries of the triangle, each addressing a vertex |
| Meshes.Mesh.CornersOf | src/raygen/mesh.cpp:96-103 | a triangle's slots are its index entries, or `3t`, `3t+1`, `3t+2` without an index buffer, and always address a vertex |
| Meshes.Mesh.AllCorners | src/raygen/mesh.cpp:96-103 | the slots of the first `n` triangles, in triangle order, each inside the vertex buffer |
| Meshes.Mesh.GetVertex | src/raygen/mesh.cpp:93-108 | `getVertex` returns the positions stored at the triangle's three slots |
| Meshes.Mesh.GetNormal | src/raygen/mesh.cpp:128-145 | `getNormal` returns the normals at the triangle's slots, and leaves the caller's values when the mesh has no normals or no vertices |
| Meshes.Mesh.UVSlots | src/raygen/mesh.cpp:179-183 | a triangle's slots in UV set `k`, shifted by `k * vertexCount`, lie inside the texcoord buffer |
| Meshes.Mesh.GetUV | src/raygen/mesh.cpp:166-184 | `getUV` reads the triangle's texcoords in the set, and leaves the caller's values when there are no texcoords, no vertices or no such set |
| Meshes.Mesh.SetVertex | src/raygen/mesh.cpp:110-126 | as written `setVertex` changes no position unless the mesh has texcoords and vertices, and then writes the three positions at the triangle's slots |
| Meshes.Mesh.SetVertexFixed | src/raygen/mesh.cpp:110-126 | the corrected `setVertex`, guarded by the vertex count alone, writes the positions at the triangle's slots and nothing else |
| Meshes.Mesh.SetNormal | src/raygen/mesh.cpp:147-164 | `setNormal` writes the three normals at the triangle's slots when the mesh has normals and vertices, and changes nothing otherwise |
| Meshes.Mesh.SetUV | src/raygen/mesh.cpp:186-204 | `setUV` writes the three texcoords at the triangle's slots in the set when the set exists, and changes nothing otherwise |
| Meshes.Mesh.InversePolygonVertexOrder | src/raygen/mesh.cpp:498-529 | as written, every triangle's last two corners swap in the normals and, when asked, in every UV set; the positions swap only on a mesh with texcoords |
| Meshes.Mesh.InversePolygonVertexOrderFixed | src/raygen/mesh.cpp:498-529 | with the corrected `setVertex`, the positions are rewound like the normals and texcoords |
| Meshes.Mesh.FlipNormals | src/raygen/mesh.cpp:552-561 | `flipNormals` negates every normal of a mesh that has normals, and leaves any other mesh unchanged |
| Meshes.Mesh.ExpandVectors | src/raygen/mesh.cpp:570-598 | the expanded positions, and the normals when flagged, hold entry `indexes[i]` of the old buffer at `i` |
| Meshes.Mesh.ExpandTangents | src/raygen/mesh.cpp:581-603 | the tangent and bitangent buffers are expanded through the index buffer exactly when the mesh has a tangent-space basis |
| Meshes.Mesh.ExpandAttributes | src/raygen/mesh.cpp:586-621 | the colours, and each UV set of the texcoords, are expanded through the index buffer exactly when flagged |
| Meshes.Mesh.ExpandBuffers | src/raygen/mesh.cpp:569-621 | all flagged buffers are expanded, into buffers distinct from one another |
| Meshes.Mesh.ExtractIndex | src/raygen/mesh.cpp:563-654 | `extractIndex` leaves a mesh without an index buffer alone; otherwise every flagged buffer, and every UV set, is expanded through the old indexes, the vertex count becomes the index count and the index buffer is dropped |
| Meshes.Mesh.InstallExpanded | src/raygen/mesh.cpp:623-653 | the expanded buffers replace the old ones, the vertex count becomes the index count and the index buffer goes |
| Meshes.Mesh.InstallVectors | src/raygen/mesh.cpp:735-754 | the rebuilt positions, normals and tangent-space buffers replace the old ones with the new vertex count (also lines 772-790) |
| Meshes.Mesh.InstallAttributes | src/raygen/mesh.cpp:756-770 | the rebuilt texcoords and the new index buffer are installed, with the index count set to the old vertex count (also lines 668-669) |
| Meshes.Mesh.Keys | src/raygen/mesh.cpp:671-692 | one key per vertex |
| Meshes.Mesh.KeysAgree | src/raygen/mesh.cpp:672-692 | the keys hold the positions and, by flag, the normals, the first two UV sets and the tangent-space basis of the vertices |
| Meshes.Mesh.ComposeIndex | src/raygen/mesh.cpp:656-791 | `composeIndex` leaves a mesh with an index buffer or without vertices alone; otherwise it keeps one vertex per distinct key and points each old vertex at its key's vertex, keeping the colour buffer |
| Meshes.Mesh.CalcBoundingBox | src/raygen/mesh.cpp:841-865 | `calcBoundingBox` stores and flags the tight box of the vertices; an empty mesh returns the default box and keeps what was stored |
| Meshes.Mesh.GetBoundingBox | src/raygen/mesh.cpp:867-873 | `getBoundingBox` returns the stored box when there is one, and otherwise first computes the tight box |
| Meshes.Mesh.AppendUVBuffer | src/raygen/mesh.cpp:875-895 | `appendUVBuffer` fails exactly when `newCount` is zero; otherwise it keeps the existing sets, adds `newCount` zeroed sets, flags texcoords and returns the offset of the first new set |
| Meshes.Mesh.HasUVBuffer | src/raygen/mesh.cpp:905-907 | `hasUVBuffer` is the unsigned comparison, so a negative index can pass when the set count is above 2^31; with fewer sets it holds exactly for existing sets |
| Meshes.Mesh.UVBufferOffset | src/raygen/mesh.cpp:897-903 | the offset of an existing UV set leaves room for `vertexCount` entries inside the buffer |
| Meshes.Mesh.SetLightmap | src/raygen/mesh.h:122-125 | `setLightmap` stores the map and flags it exactly when there is one, touching nothing else |
| Meshes.Mesh.SetRefmap | src/raygen/mesh.h:127-130 | `setRefmap` stores the cube map and flags it exactly when there is one, touching nothing else |
| Meshes.Mesh.TrianglesUpTo | src/raygen/mesh.cpp:1309-1311 | the corner positions of the first `n` triangles, in order |
| Meshes.Mesh.GetDistinctEdges | src/raygen/mesh.cpp:1308-1325 | `getDistinctEdges` appends to the caller's list what `DistinctEdges` describes for the mesh's triangles |
| Meshes.Mesh.ComposedExpandsBack | src/raygen/mesh.cpp:563-791 | after `composeIndex`, with at most 65536 distinct vertices, expanding through the index buffer gives back every old vertex's position, normal, first two UV sets and tangent-space basis |
| Meshes.Mesh.RewindTwiceRestores | src/raygen/mesh.cpp:498-529 | on an unindexed mesh, rewinding with the corrected `setVertex` twice restores every buffer and every UV set |
| MeshArchive.Archive.constructor | src/raygen/meshloader.cpp:147-169 | a new archive holds no chunk |
| MeshArchive.Archive.NewChunk | src/raygen/meshloader.cpp:158-160 | `newChunk` adds an empty chunk with the tag under an id that is not 0 and not yet used, and changes no other chunk |
| MeshArchive.Archive.UpdateChunk | src/raygen/meshloader.cpp:166 | `updateAndCloseChunk` replaces the chunk's data by its stream's contents, keeping its tag and every other chunk |
| MeshArchive.LoadFromArchive | src/raygen/meshloader.cpp:147-153 | loading from an archive decodes the mesh from the start of the mesh chunk with that id, and leaves the mesh unchanged when there is no such chunk |
| MeshArchive.SaveToArchive | src/raygen/meshloader.cpp:155-169 | id 0 saves into a new mesh chunk and returns its fresh id; any other id saves over the start of that chunk and returns the id; only that chunk changes |
| MeshArchive.SaveIntoChunk | src/raygen/meshloader.cpp:165-166 | the encoded mesh is written over the start of the chunk's data, and the chunk keeps its tag |
| MeshArchive.OverwriteFromStart | src/raygen/meshloader.cpp:165 | writing over the start of a stream leaves the written cells followed by what the stream had past them |
| MeshArchive.ArchiveRoundTrip | src/raygen/meshloader.cpp:147-169 | a mesh saved into a chunk and loaded back comes back as the stream round trip says, with the edges read past it taken from the chunk's earlier contents |
| MeshArchive.NewChunkRoundTrip | src/raygen/meshloader.cpp:155-160 | a mesh saved into a new chunk and loaded back reads no stale edges |
| MeshBuffers.PadSets | src/raygen/mesh.cpp:1336-1338 | padding the UV lists adds empty lists until there are `uvCount`, keeping the existing ones |
| MeshBuffers.PushedSets | src/raygen/mesh.cpp:1335-1342 | after the first `m` vertices, there are as many UV lists as padding gives |
| MeshBuffers.PushedColumn | src/raygen/mesh.cpp:1339-1341 | pushing one vertex's texcoords keeps the number of UV lists |
| MeshBuffers.TruncatedSets | src/raygen/mesh.cpp:1366-1368 | `createMesh` copies the first `vertexCount` entries of every UV list |
| MeshBuffers.ConcatLength | src/raygen/mesh.cpp:1366-1368 | `sets` lists of `n` entries laid one after another fill `n * sets` entries |
| MeshBuffers.ConcatOfBlocks | src/raygen/mesh.cpp:1339-1341 | a texcoord buffer is the concatenation of its UV sets (also lines 1366-1368) |
| MeshBuffers.AppendKeepsUniform | src/raygen/mesh.cpp:1329-1346 | appending a mesh with the same attributes as those already buffered keeps every UV list as long as the position list |
| MeshBuffers.AppendedMeshShape | src/raygen/mesh.cpp:1329-1357 | a mesh appended to an empty buffer gives one position per vertex, a normal or colour list exactly when the mesh has normals or colours, and one UV list per set |
| MeshBuffers.AppendedMeshRestored | src/raygen/mesh.cpp:1329-1378 | `createMesh` after appending a mesh to an empty buffer copies back exactly that mesh's positions, normals, texcoords and colours |
| MeshBuffers.PushVertexStep | src/raygen/mesh.cpp:1330-1345 | pushing vertex `i` after the first `i` vertices gives the lists of the first `i + 1` |
| MeshBuffers.SetPrefixGrows | src/raygen/mesh.cpp:1340 | one more vertex adds its entry to the end of each UV list |
| MeshBuffers.PushStep | src/raygen/mesh.cpp:1335-1342 | padding then pushing entry `i` of every set gives the UV lists after `i + 1` vertices |
| MeshBuffers.PadTo | src/raygen/mesh.cpp:1336-1338 | the padding loop appends empty lists until there are `uvCount` |
| MeshBuffers.PushColumn | src/raygen/mesh.cpp:1339-1341 | the set loop pushes entry `k * vertexCount + i` onto UV list `k` for every set |
| MeshBuffers.CopySets | src/raygen/mesh.cpp:1365-1369 | the copy loop lays the first `vertexCount` entries of each UV list one set after another |
| MeshBuffers.AllocatedMesh | src/raygen/mesh.cpp:1351-1357 | `createMesh` sets the normal, texcoord and colour flags from the nonempty lists and then `init`s a mesh with one vertex per position and one UV set per list |
| MeshBuffers.CopyContents | src/raygen/mesh.cpp:1359-1373 | the positions, and the normals, texcoords and colours when present, are copied into the new mesh |
| MeshBuffers.CopyVectors | src/raygen/mesh.cpp:1359-1363 | the positions and, when present, the first `vertexCount` normals are copied |
| MeshBuffers.CopyAttributes | src/raygen/mesh.cpp:1365-1373 | the UV lists and, when present, the first `vertexCount` colours are copied |
| MeshBuffers.MeshBuffer.constructor | src/raygen/mesh.h:207-211 | a new buffer has empty lists |
| MeshBuffers.MeshBuffer.Clear | src/raygen/mesh.cpp:1380-1385 | `clear` empties all four lists |
| MeshBuffers.MeshBuffer.AppendMesh | src/raygen/mesh.cpp:1329-1346 | `appendMesh` pushes each vertex's position, normal and colour when present and, with texcoords, pads the UV lists and pushes its entry of every set |
| MeshBuffers.MeshBuffer.PushVertex | src/raygen/mesh.cpp:1331-1344 | the loop body pushes exactly vertex `i` |
| MeshBuffers.MeshBuffer.CreateMesh | src/raygen/mesh.cpp:1348-1378 | `createMesh` returns a fresh unindexed mesh shaped by the lists, holding their contents, with its tight bounding box computed |
| MeshLoader.DecodeEncoded | src/raygen/meshloader.cpp:96-117 | a buffer written with a cell encoder is read back element for element by the matching decoder |
| MeshLoader.HeaderRoundTrip | src/raygen/meshloader.cpp:29 | the header cells written at a position are read back as the same header |
| MeshLoader.MetaRoundTrip | src/raygen/meshloader.cpp:54 | the metadata cells written at a position are read back as the same metadata record |
| MeshLoader.FileFlags | src/raygen/meshloader.cpp:215-262 | the saved header carries a flag exactly when the matching `has*` field is set, and the wireframe flag exactly when there are edges to store |
| MeshLoader.FileMeta | src/raygen/meshloader.cpp:229-262 | the saved metadata always holds the three counts, and the box, trunk ids, grab boundary and edge count only when the mesh has them, otherwise keeping the prior record's values |
| MeshLoader.SectionsOf | src/raygen/meshloader.cpp:95-117 | each buffer section of the payload starts where the previous one ends, positions first and the edges last |
| MeshLoader.BuffersMakeLoaded | src/raygen/meshloader.cpp:93-118 | reading every buffer into the mesh left by `init` gives what `load` builds, apart from the box and the edges |
| MeshLoader.BoxAndEdgesMakeLoaded | src/raygen/meshloader.cpp:120-135 | setting the box when flagged and reading the edges when counted completes the loaded mesh |
| MeshLoader.Overwrite | src/raygen/meshloader.cpp:184-211 | a stream write replaces the cells from the position, keeps those before and after, and extends the stream past its end |
| MeshLoader.OverwriteTwice | src/raygen/meshloader.cpp:184-211 | two writes one after the other equal one write of both, so `save`'s sequence of writes lays the file down contiguously |
| MeshLoader.CellStream.constructor | src/raygen/meshloader.cpp:24-26 | a stream starts at position 0 over its data |
| MeshLoader.CellStream.SetPosition | src/raygen/meshloader.cpp:76-79 | seeking moves the position and leaves the data alone |
| MeshLoader.CellStream.ReadHeader | src/raygen/meshloader.cpp:28-29 | reading a header returns the header at the position and advances past it |
| MeshLoader.CellStream.ReadOldHeader | src/raygen/meshloader.cpp:81-82 | reading a legacy header returns the legacy header at the position and advances past it |
| MeshLoader.CellStream.ReadMeta | src/raygen/meshloader.cpp:54 | reading a current metadata record returns it and advances past it |
| MeshLoader.CellStream.ReadMeta0101 | src/raygen/meshloader.cpp:35-36 | reading a version 0x0101 record returns it and advances past it |
| MeshLoader.CellStream.ReadMeta0102Over | src/raygen/meshloader.cpp:49-52 | a version 0x0102 record overwrites the first fields of the metadata and keeps the rest |
| MeshLoader.CellStream.ReadInto | src/raygen/meshloader.cpp:96-117 | filling an array decodes the next cells into it and advances by its length |
| MeshLoader.CellStream.Write | src/raygen/meshloader.cpp:184-211 | a write overwrites the cells from the position and advances by their number |
| MeshLoader.SegmentAt | src/raygen/meshloader.cpp:187-211 | each buffer segment of the saved payload sits right after the segments written before it |
| MeshLoader.SummaryAgrees | src/raygen/meshloader.cpp:215-262 | the fields `createMeshFileHeader` reads from a valid mesh agree with its snapshot |
| MeshLoader.CreateMeshFileHeader | src/raygen/meshloader.cpp:215-262 | the header gains exactly the flags of the mesh's features, and the metadata is filled as the mesh summary says |
| MeshLoader.MarkShape | src/raygen/meshloader.cpp:217-236 | normals, texcoords, tangent basis and box each add their flag; the counts and, when present, the box are stored; tag, version and length are untouched |
| MeshLoader.MarkAttachments | src/raygen/meshloader.cpp:238-262 | lightmap, refmap, colour, grab boundary and wireframe each add their flag and store their values only when present |
| MeshLoader.Save | src/raygen/meshloader.cpp:171-213 | saving writes, from the stream's position, exactly the encoding of the mesh's snapshot: header, metadata, then the buffers |
| MeshLoader.SaveHeader | src/raygen/meshloader.cpp:173-180 | the header and metadata `save` builds are the file header and file metadata of the snapshot |
| MeshLoader.WriteFile | src/raygen/meshloader.cpp:184-211 | the writes of `save` lay down the header, the metadata and the payload in that order |
| MeshLoader.WriteHeader | src/raygen/meshloader.cpp:184-185 | the header and metadata cells are written one after the other |
| MeshLoader.BacksData | src/raygen/meshloader.cpp:187-211 | the arrays of a valid mesh hold the buffers of its snapshot |
| MeshLoader.WritePayload | src/raygen/meshloader.cpp:187-211 | the buffer writes of `save` produce the payload cells in file order |
| MeshLoader.WritePositions | src/raygen/meshloader.cpp:187 | the positions are written first, always |
| MeshLoader.WriteNormals | src/raygen/meshloader.cpp:189-191 | normals follow only when the mesh has normals |
| MeshLoader.WriteTexcoords | src/raygen/meshloader.cpp:193-195 | the UV sets follow only when the mesh has texcoords |
| MeshLoader.WriteTangentBasis | src/raygen/meshloader.cpp:197-200 | tangents then bitangents follow only with a tangent basis |
| MeshLoader.WriteColors | src/raygen/meshloader.cpp:202-204 | the colours of the vertices follow only when the mesh has colours |
| MeshLoader.WriteIndexes | src/raygen/meshloader.cpp:206-208 | the indexes follow only when the index count is positive |
| MeshLoader.WriteEdges | src/raygen/meshloader.cpp:210-212 | the first `edgeCount` edges are written only when there are edges and a buffer |
| MeshLoader.Prior | src/raygen/meshloader.cpp:24-93 | the state `load` keeps from the mesh it is given has the mesh's flags |
| MeshLoader.ReadLayout | src/raygen/meshloader.cpp:26-91 | reading the header and metadata yields the layout the stream describes and leaves the position at its payload |
| MeshLoader.ReadTaggedMeta | src/raygen/meshloader.cpp:33-76 | a tagged file's version selects the 0x0101, 0x0102 or current metadata record and which header flags are applied |
| MeshLoader.ApplyFlags | src/raygen/meshloader.cpp:42-71 | `load` sets the mesh's feature flags from the header before `init`, keeping its counts and attachments |
| MeshLoader.LoadFrom | src/raygen/meshloader.cpp:24-136 | loading from the stream's position leaves a valid mesh equal to the decoding of the stream, with the stream data unchanged |
| MeshLoader.Load | src/raygen/meshloader.cpp:24-136 | `load` as written: the mesh is the decoding with the header length taken as an absolute stream position |
| MeshLoader.LoadRelative | src/raygen/meshloader.cpp:76 | `load` with the header length taken relative to the mesh's start: the mesh is the decoding from where it begins |
| MeshLoader.InitMakesLoaded | src/raygen/meshloader.cpp:89-93 | after `init` the mesh is valid, keeps what `load` keeps and carries the layout's flags |
| MeshLoader.LoadBuffers | src/raygen/meshloader.cpp:95-135 | the reads after `init` leave exactly the loaded mesh |
| MeshLoader.ReadPayloadBuffers | src/raygen/meshloader.cpp:95-118 | the buffer reads in file order leave the loaded buffers and the stream at the edge section |
| MeshLoader.ReadVectors | src/raygen/meshloader.cpp:95-105 | positions, normals and texcoords are each read where the previous buffer ends |
| MeshLoader.ReadAttributes | src/raygen/meshloader.cpp:107-118 | tangent basis, colours and indexes are each read where the previous buffer ends |
| MeshLoader.ReadBoxAndEdges | src/raygen/meshloader.cpp:120-135 | the box comes from the metadata when flagged, and a fresh edge buffer is read when the edge count is positive |
| MeshLoader.SetBox | src/raygen/meshloader.cpp:120-122 | the box is replaced and nothing else changes |
| MeshLoader.ReadEdges | src/raygen/meshloader.cpp:132-135 | the edges become the next `n` edge cells of the stream, nothing else changes |
| MeshLoader.ReadPositions | src/raygen/meshloader.cpp:95-97 | positions are read when there are vertices |
| MeshLoader.ReadNormals | src/raygen/meshloader.cpp:99-101 | normals are read only when flagged |
| MeshLoader.ReadTexcoords | src/raygen/meshloader.cpp:103-105 | UV sets are read only with texcoords and at least one set |
| MeshLoader.ReadTangentBasis | src/raygen/meshloader.cpp:107-110 | tangents then bitangents are read only with a tangent basis |
| MeshLoader.ReadColors | src/raygen/meshloader.cpp:112-114 | colours are read only when flagged |
| MeshLoader.ReadIndexes | src/raygen/meshloader.cpp:116-118 | indexes are read only when the index count is positive |
| MeshRoundTrip.EncodingAt | src/raygen/meshloader.cpp:171-213 | a saved mesh's stream holds the header, the metadata and each segment at their places |
| MeshRoundTrip.LayoutOfEncoded | src/raygen/meshloader.cpp:28-76 | the header and metadata of a saved mesh decode to its flags, its metadata and a payload right after them |
| MeshRoundTrip.SegmentReadBack | src/raygen/meshloader.cpp:95-117 | each segment of a saved mesh is read back from where `load` looks for it |
| MeshRoundTrip.SectionsOfEncoded | src/raygen/meshloader.cpp:95-117 | where `load` looks for each buffer of a saved mesh is where `save` put it |
| MeshRoundTrip.PositionsReadBack | src/raygen/meshloader.cpp:95-97 | the positions of a saved mesh load back unchanged |
| MeshRoundTrip.NormalsReadBack | src/raygen/meshloader.cpp:99-101 | the normals of a saved mesh load back unchanged |
| MeshRoundTrip.TexcoordsReadBack | src/raygen/meshloader.cpp:103-105 | the UV sets of a saved mesh load back unchanged |
| MeshRoundTrip.TangentsReadBack | src/raygen/meshloader.cpp:107-108 | the tangents of a saved mesh load back unchanged |
| MeshRoundTrip.BitangentsReadBack | src/raygen/meshloader.cpp:109 | the bitangents of a saved mesh load back unchanged |
| MeshRoundTrip.ColorsReadBack | src/raygen/meshloader.cpp:112-114 | the colours of a saved mesh load back unchanged |
| MeshRoundTrip.IndexesReadBack | src/raygen/meshloader.cpp:116-118 | the indexes of a saved mesh load back unchanged |
| MeshRoundTrip.EdgesReadBack | src/raygen/meshloader.cpp:132-135 | the edges after loading a saved mesh are those of the round-trip result |
| MeshRoundTrip.WireEdgesReadBack | src/raygen/meshloader.cpp:69-71 | a saved wireframe loads back as its first `edgeCount` edges |
| MeshRoundTrip.TrailingEdgesReadBack | src/raygen/meshloader.cpp:132-135 | without a wireframe, the loaded edges are the prior mesh's, or are read from what follows the file when the prior mesh counts edges |
| MeshRoundTrip.TrailingEdges | src/raygen/meshloader.cpp:132-135 | without a wireframe, a prior edge count makes `load` read that many edges from past the end of the saved mesh |
| MeshRoundTrip.ScalarsReadBack | src/raygen/meshloader.cpp:42-121 | counts, flags, box, grab boundary and attachment state of a saved mesh load back as the round-trip result says |
| MeshRoundTrip.SaveLoadRoundTrip | src/raygen/meshloader.cpp:24-213 | save then load, with the seek relative to the mesh's start: every buffer and flag comes back; texcoord-less meshes lose their UV count, the box and grab boundary only when not flagged, attachments and non-wireframe edges stay the loader's |
| MeshRoundTrip.SaveLoadFromStart | src/raygen/meshloader.cpp:76 | a mesh saved at the start of a stream is loaded back by `load` as written |
| MeshRoundTrip.NoVectorInHeader | src/raygen/meshloader.cpp:28-54 | header and metadata cells hold no vector cell |
| MeshRoundTrip.AbsoluteSeekMisreads | src/raygen/meshloader.cpp:76 | after a prefix of 1 to 14 cells, the absolute seek lands in the header or metadata, so the first position loads as zero |
| MeshRoundTrip.AbsoluteSeekLosesPositions | src/raygen/meshloader.cpp:76 | a mesh saved after one cell whose first position is not zero does not load back with `load` as written |
| MeshRoundTrip.LoadKeepsAttachments | src/raygen/meshloader.cpp:124-130 | `load` never reads the lightmap or refmap: the mesh keeps its own attachment state |
| MeshRoundTrip.LegacyLayout | src/raygen/meshloader.cpp:78-87 | a stream without the mesh tag is a legacy file: one UV set, no indexes, flags unchanged, payload after three words |
| Names.Decimal | src/raygen/scene.cpp:97 | `%d` of a non-negative number is a non-empty run of decimal digits |
| Names.DecimalLong | src/raygen/scene.cpp:97 | numbers of ten or more print at least two digits |
| Names.DecimalInjective | src/raygen/scene.cpp:97 | different numbers print differently, so each suffix `_k` names a different candidate |
| Names.SuffixedInjective | src/raygen/scene.cpp:96-97 | `name_a` and `name_b` are the same string only when a equals b |
| Names.TakenFromShrinks | src/raygen/scene.cpp:95-103 | each taken candidate leaves one fewer taken name ahead, so the search for a free suffix ends |
| Names.FirstFreeUnique | src/raygen/scene.cpp:95-103 | the first free suffix from 2 on is unique |
| Names.UniqueNameIsFree | src/raygen/scene.cpp:93-105 | the unique name is not among the taken names |
| Names.SuffixFrom | src/raygen/scene.cpp:95-103 | the search from any point past the taken suffixes finds the first free suffix |
| Names.UniqueName | src/raygen/scene.cpp:93-105 | the name kept when free, otherwise the first free `name_k` from k = 2; never a taken name |
| Names.UniqueNameOfIsFunctional | src/raygen/objreader.cpp:486-497 | the renaming rule has exactly one result |
| ObjReader.ScanFace | src/raygen/objreader.cpp:295-350 | the reference loop of `readSurfaceLine` stores zero-based indices into four-entry arrays, refuses a fifth reference before storing it, and leaves the face of the reference scan |
| ObjReader.Advance | src/raygen/objreader.cpp:295-343 | a reference is stored exactly when the arrays have room and it matches the face's flags; otherwise the scan fails |
| ObjReader.ObjObject.constructor | src/raygen/objreader.h:74-132 | a new object holds the given fields and an empty mesh without normals or texcoords |
| ObjReader.TriangleKeepsCounts | src/raygen/objreader.cpp:373-463 | a triangle whose flags are the object's keeps the vertex, normal and texcoord counts consistent |
| ObjReader.NamesOf | src/raygen/objreader.cpp:548-556 | every finished object's name is among the names searched |
| ObjReader.RootsValidMeans | src/raygen/objreader.cpp:476-504 | the finished objects are all complete and no two share a name |
| ObjReader.ErrorsValidMeans | src/raygen/objreader.cpp:558-564 | the error objects all had a face error and none is recorded twice |
| ObjReader.RootsValidGrows | src/raygen/objreader.cpp:566-669 | reading more materials keeps every finished object's material valid |
| ObjReader.RootsValidAppend | src/raygen/objreader.cpp:486-503 | a complete object with a new name can join the finished objects |
| ObjReader.FinishedAsData | src/raygen/objreader.cpp:476-504 | finishing an object, read through the objects' fields: an object with a face error joins the error objects, an empty one is dropped, any other joins the finished objects under a name unique among theirs |
| ObjReader.ErrorsValidAppend | src/raygen/objreader.cpp:558-564 | a flagged object not yet recorded can join the error objects |
| ObjReader.ReadBoxGrows | src/raygen/objreader.cpp:130-137 | the first vertex sets the box to its point and each later vertex grows it |
| ObjReader.AddFace | src/raygen/objreader.cpp:279-474 | an accepted face appends its triangles' corners with their normals and texcoords; a refused face changes nothing; the object stays consistent |
| ObjReader.AppendCorners | src/raygen/objreader.cpp:373-463 | the three corners of an accepted face (a triangle: longer faces are refused before this point) go onto the object, with their normals and texcoords exactly when the face gives the object them |
| ObjReader.AppendedIsFaceData | src/raygen/objreader.cpp:373-463 | the corners appended for an accepted face, with the flags the object took, are exactly `FaceData`: the face's three positions, normals and texcoords after the object's |
| ObjReader.CreateObjectMesh | src/raygen/objreader.cpp:510-531 | a non-empty object's mesh takes its flags and holds its vertices, normals and texcoords; an empty object's mesh is untouched |
| ObjReader.NameFromGroups | src/raygen/objreader.cpp:195-213 | a `g` line records its group names and names the object by joining them with `_` |
| ObjReader.FirstNamedIndex | src/raygen/objreader.cpp:671-680 | the position of the first material with the name: every earlier material has another name, and none has it when there is no position |
| ObjReader.ReadAllStep | src/raygen/objreader.cpp:101-118 | the loop from line `k` on reads line `k` and then, unless it stopped the reader, the lines after it |
| ObjReader.StopsOnlyOnError | src/raygen/objreader.cpp:151-172 | the loop ends early only on a refused face, and only for a reader that stops on errors (the `return` at line 164) |
| ObjReader.StructureStepUntouched | src/raygen/objreader.cpp:173-265 | on an object being read that has no vertex and no face error, an `o`, `g`, `mtllib` or `usemtl` line finishes no object and leaves the object being read so |
| ObjReader.NonFaceLineFinishesNothing | src/raygen/objreader.cpp:101-265 | a line that is not an `f` line never stops the reader, finishes no object and gives the object being read no vertex and no face error |
| ObjReader.NoFaceLinesFinishNothing | src/raygen/objreader.cpp:101-266 | a file without `f` lines runs the whole loop, finishes no object and leaves the object being read empty |
| ObjReader.NoFaceNoObject | src/raygen/objreader.cpp:88-277 | `read` of a file without `f` lines adds no finished object and no error object, even after the last object is finished |
| ObjReader.LineStepFromPool | src/raygen/objreader.cpp:101-265 | one line keeps every vertex of the object being read and of every finished object among the positions of the vertex pool |
| ObjReader.ReadAllFromPool | src/raygen/objreader.cpp:101-266 | the whole loop keeps every vertex of every object among the positions of the pool, or the zero an index outside the pool reads |
| ObjReader.ObjectVerticesFromVertexLines | src/raygen/objreader.cpp:88-277 | every vertex of every object a new reader finishes is the position of a `v` line of the file (after the millimetre scaling), or the zero an index outside the pool reads |
| ObjReader.ObjFileReader.constructor | src/raygen/objreader.h:134-168 | a new reader has no line, no pools, no objects, no materials and is before the first vertex |
| ObjReader.ObjFileReader.SetStopOnError | src/raygen/objreader.h:215 | sets whether a refused face stops reading |
| ObjReader.ObjFileReader.Error | src/raygen/objreader.h:216 | the error flag is set exactly when some object had a face error |
| ObjReader.ObjFileReader.GetObjects | src/raygen/objreader.h:219 | the finished objects are complete and uniquely named |
| ObjReader.ObjFileReader.GetErrorObjects | src/raygen/objreader.h:220 | the error objects are flagged, each once |
| ObjReader.ObjFileReader.GetMaterials | src/raygen/objreader.h:222-224 | returns the materials read |
| ObjReader.ObjFileReader.NextLine | src/raygen/objreader.h:170-177 | a next line exists exactly while lines remain; it becomes the buffer, its length and the line count; at the end nothing changes |
| ObjReader.ObjFileReader.IsLine | src/raygen/objreader.h:179-191 | the line starts with the tag and has a space after it within the recorded length |
| ObjReader.ObjFileReader.SameNameObjectAlreadyExist | src/raygen/objreader.cpp:548-556 | true exactly when a finished object has the name |
| ObjReader.ObjFileReader.UniqueObjectName | src/raygen/objreader.cpp:486-497 | the renaming loop returns the unique name against the finished objects' names |
| ObjReader.ObjFileReader.GetMaterialByName | src/raygen/objreader.cpp:671-680 | the position of the first material with the name, or none when no material has it |
| ObjReader.ObjFileReader.ReadVertexLine | src/raygen/objreader.cpp:119-138 | a `v` line adds its vertex, scaled by 1/100 under the millimetre marker, to the pool, grows the box to it and changes nothing else |
| ObjReader.ObjFileReader.ReadNormalLine | src/raygen/objreader.cpp:139-144 | a `vn` line appends its normal to the pool and changes nothing else |
| ObjReader.ObjFileReader.ReadTexcoordLine | src/raygen/objreader.cpp:145-150 | a `vt` line appends its texcoord to the pool and changes nothing else |
| ObjReader.ObjFileReader.ReadSurfaceLine | src/raygen/objreader.cpp:279-474 | accepted exactly when the face is; an accepted face is appended to the object being read (`FaceData`) and ends its first face, changing nothing else; a refused one leaves the object as it was |
| ObjReader.ObjFileReader.ReadFaceLine | src/raygen/objreader.cpp:151-172 | an `f` line is `FaceStep`: skipped after a face error; an accepted face is appended; a refused face stops a stopping reader, which stays valid with its error flag as it was, and otherwise flags the object and the reader |
| ObjReader.ObjFileReader.FlagObject | src/raygen/objreader.cpp:166-168 | a refused face on a reader that goes on marks the object being read and the reader as having a face error, and changes nothing else |
| ObjReader.ObjFileReader.MarkObjectError | src/raygen/objreader.cpp:558-564 | the object joins the error objects unless already there, keeping them duplicate-free |
| ObjReader.ObjFileReader.AddRootObject | src/raygen/objreader.cpp:486-503 | a complete object is renamed apart from the finished objects, given its mesh and appended to them |
| ObjReader.ObjFileReader.AddErrorObject | src/raygen/objreader.cpp:479-480 | an object with a face error joins the error objects |
| ObjReader.ObjFileReader.FinishObject | src/raygen/objreader.cpp:476-504 | the object being read becomes an error object, is dropped when it has no vertex, or becomes a uniquely named finished object with its mesh |
| ObjReader.ObjFileReader.FinalizeObject | src/raygen/objreader.cpp:476-508 | the object being read is finished as above and a new object with a pending first face begins |
| ObjReader.ObjFileReader.ReadObjectLine | src/raygen/objreader.cpp:173-182 | an `o` line finishes the object being read (`Finish`) and names the next one by the text after the tag |
| ObjReader.ObjFileReader.NameObject | src/raygen/objreader.cpp:193-213 | the group names are added to the object being read, which they name joined by `_`; nothing else changes |
| ObjReader.ObjFileReader.ReadGroupLine | src/raygen/objreader.cpp:183-232 | a `g default` line changes nothing; any other `g` line finishes the object being read and begins one that records the groups and is named by them |
| ObjReader.ObjFileReader.ReadProperty | src/raygen/objreader.cpp:599-668 | a library property line sets the material field its tag names from the text after the tag |
| ObjReader.ObjFileReader.ReadMaterialLine | src/raygen/objreader.cpp:582-668 | one library line, with its own length, steps the library reading and appends the materials it completes |
| ObjReader.ObjFileReader.ReadMaterialLibrary | src/raygen/objreader.cpp:566-669 | an unreadable library adds nothing; otherwise its materials are appended in order, the last one included |
| ObjReader.ObjFileReader.ReadLibraryLine | src/raygen/objreader.cpp:233-250 | an `mtllib` line appends the materials of the library named after the tag, in the file's directory followed by `PATH_SPLITTER` when it has one, and changes nothing else |
| ObjReader.ObjFileReader.ReadUseMaterialLine | src/raygen/objreader.cpp:251-265 | a `usemtl` line gives the object being read the first material with the name, or records the name when there is none, and changes nothing else |
| ObjReader.ObjFileReader.ReadPoolLine | src/raygen/objreader.cpp:119-150 | a `v`, `vn` or `vt` line is matched exactly when its tag is one of those, and is `PoolStep`: its entry joins its pool |
| ObjReader.ObjFileReader.ReadStructureLine | src/raygen/objreader.cpp:173-265 | `o`, `g`, `mtllib` and `usemtl` lines are `StructureStep`: each has its handler's effect on the objects and materials, and any other line changes nothing |
| ObjReader.ObjFileReader.ReadTaggedLine | src/raygen/objreader.cpp:119-265 | a line is `TaggedStep`: pool lines first, then `f` lines, then the rest; only a refused face on a stopping reader stops reading, and a stopping reader never sets the error flag |
| ObjReader.ObjFileReader.ReadLine | src/raygen/objreader.cpp:101-118 | one line is `LineStep`: a head comment naming 3ds Max or millimetres turns on scaling and ends the head block; any other line ends it unless it is a comment, and is read by its tag |
| ObjReader.ObjFileReader.ReadNextLine | src/raygen/objreader.cpp:101-265 | one turn of the loop: when a line remains it is read, and the loop from it equals that line followed by the loop from the next one |
| ObjReader.ObjFileReader.ReadLines | src/raygen/objreader.cpp:101-266 | the loop gathers exactly what `ReadAll` folds over the file's lines from the current one, and stops only where that fold stops |
| ObjReader.ObjFileReader.Read | src/raygen/objreader.cpp:88-277 | an unopenable file changes nothing; otherwise the result is `ReadFile` of the file's lines: a new object, the loop, and the last object finished unless the reader stopped; the finished objects stay complete and uniquely named |
| ObjText.TagsExclusive | src/raygen/objreader.h:179-191 | a line matches at most one tag, so the order in which the reader tries the tags does not matter |
| ObjText.VertexTagIsNotNormalTag | src/raygen/objreader.cpp:119-151 | a `vn` or `vt` line is never taken for a `v` line |
| ObjText.FirstWordTag | src/raygen/objreader.h:179-191 | a line matches a tag exactly when its first word is the tag and ends within the recorded length |
| ObjText.LibraryTags | src/raygen/objreader.cpp:584-648 | each library tag is matched exactly by lines whose first word it is, within the recorded length |
| ObjText.Contains | src/raygen/objreader.cpp:104-105 | `strstr` finds a pattern at the start of the text |
| ObjText.Scaled | src/raygen/objreader.cpp:124-126 | millimetre scaling divides each coordinate by 100 |
| ObjText.JoinGroupsAppend | src/raygen/objreader.cpp:197-211 | one group keeps its name; each further group adds `_` and its name |
| ObjText.ScanSnoc | src/raygen/objreader.cpp:295-350 | the scan of one more reference is the scan so far followed by one step, skipped once failed |
| ObjText.ScanFailedPrefix | src/raygen/objreader.cpp:297-298 | a face refused on a prefix of its references is refused |
| ObjText.CorrectedScanIsUniform | src/raygen/objreader.cpp:295-350 | under the corrected rules the stored references never exceed the four-entry arrays and all carry the object's texcoord and normal slots |
| ObjText.AcceptedFaceIsUniform | src/raygen/objreader.cpp:352-362 | an accepted face has three references, each with a number in exactly the slots the object has |
| ObjText.RulesAgreeOnMatchingFaces | src/raygen/objreader.cpp:295-350 | on faces whose references all match the object, past its first face, the source's rules and the corrected rules accept the same references with the same flags |
| ObjText.SlashlessFaceAccepted | src/raygen/objreader.cpp:303-339 | as written, `f 4 5 6` on an object with texcoords and normals is accepted with neither; the corrected rules refuse it |
| ObjText.MixedFirstFaceAccepted | src/raygen/objreader.cpp:314-321 | as written, the first face `f 1 2/2 3/3` is accepted with texcoords though its first reference has none; the corrected rules refuse it |
| ObjText.FifthReferenceOverflows | src/raygen/objreader.cpp:300 | as written, `f 1 2 3 4 5` stores a fifth index into four-entry arrays before refusing the face; the corrected loop refuses it first |
| ObjText.FiveReferences | src/raygen/objreader.cpp:295-362 | a five-reference face is refused under either rules, with five indices stored as written and four as corrected |
| ObjText.Reset | src/raygen/objreader.cpp:35-43 | a reset material has no name and no transparency and keeps its normal-map intensity |
| ObjText.TfTransparency | src/raygen/objreader.cpp:623-628 | a grey transmission `Tf c c c` gives the transparency 1 - c |
| ObjText.LibraryTagOfFirstWord | src/raygen/objreader.cpp:584-648 | a library line's tag is named by its first word when it ends within the recorded length |
| ObjText.LibraryLine | src/raygen/objreader.cpp:584-668 | a `newmtl` line emits the material read so far, if any, and starts the next; other lines emit nothing; emitted materials are kept |
| ObjText.LibraryLinesSnoc | src/raygen/objreader.cpp:582-668 | reading one more library line steps the state read so far |
| ObjText.LibraryLinesCount | src/raygen/objreader.cpp:582-668 | after a run of lines, one material has been emitted per recognised `newmtl` but the last, which is still held |
| ObjText.OneMaterialPerNewmtl | src/raygen/objreader.cpp:566-669 | a library yields exactly one material per recognised `newmtl` line |
| ObjText.NewMaterialLine | src/raygen/objreader.cpp:584-598 | a recognised `newmtl` line emits the material read so far and starts a reset one with the new name |
| ObjText.TransmissionLine | src/raygen/objreader.cpp:623-628 | a recognised `Tf` line sets only the transparency of the material being read |
| ObjText.NormalMapTagLine | src/raygen/objreader.cpp:648-667 | a `map_t_normal` line sets the normal map when the length the tag test sees reaches past the tag |
| ObjText.SingleMaterial | src/raygen/objreader.cpp:566-669 | a library of `newmtl name` and `Tf` yields one material with that name and that transparency |
| ObjText.TransparencyCarriesOver | src/raygen/objreader.cpp:35-43 | as written, after `newmtl glass`, `Tf 0 0 0`, `newmtl wood`, the wood is fully transparent; corrected, it is opaque |
| ObjText.GlassThenWood | src/raygen/objreader.cpp:584-628 | the wood after a transparent glass, under either reset |
| ObjText.StaleLengthHidesNormalMap | src/raygen/objreader.cpp:582 | as written, after a 12-character `mtllib` line a `map_t_normal n.png` library line is not recognised; with each line's own length it is |
| ObjText.NormalMapLine | src/raygen/objreader.cpp:582-667 | the normal map a `map_t_normal` line gives after a 12-character `mtllib` line, under either length rule |
| ObjWriter.PoolOfFile | src/raygen/objwriter.cpp:27-61 | the lines of each kind in a written file are the pools of its four blocks, in block order |
| ObjWriter.VertexPicks | src/raygen/objwriter.cpp:30-32 | only the `v` chunks add to the vertex pool, each its triangle's three positions |
| ObjWriter.TexcoordPicks | src/raygen/objwriter.cpp:39-41 | only the `vt` chunks add to the texcoord pool, each its triangle's three texcoords |
| ObjWriter.NormalPicks | src/raygen/objwriter.cpp:48-50 | only the `vn` chunks add to the normal pool, each its triangle's three normals |
| ObjWriter.FacePicks | src/raygen/objwriter.cpp:54-61 | only the `f` chunks add to the face pool |
| ObjWriter.VertexPoolOfFile | src/raygen/objwriter.cpp:27-34 | the `v` lines of a written file are the triangles' corner positions in order |
| ObjWriter.TexcoordPoolOfFile | src/raygen/objwriter.cpp:36-43 | the `vt` lines are the triangles' corner texcoords in order |
| ObjWriter.NormalPoolOfFile | src/raygen/objwriter.cpp:45-52 | the `vn` lines are the triangles' corner normals in order |
| ObjWriter.FacePoolOfFile | src/raygen/objwriter.cpp:54-61 | face line i refers to entries 3i+1, 3i+2 and 3i+3 in every slot |
| ObjWriter.WrittenFaceScan | src/raygen/objwriter.cpp:59 | the reader accepts a written face line as a triangle; the first face gives the object texcoords and normals and later ones match them |
| ObjWriter.WrittenVertexCorners | src/raygen/objwriter.cpp:28-32 | the `v` lines face i points at are triangle i's corner positions |
| ObjWriter.WrittenTexcoordCorners | src/raygen/objwriter.cpp:37-41 | the `vt` lines face i points at are triangle i's corner texcoords |
| ObjWriter.WrittenNormalCorners | src/raygen/objwriter.cpp:46-50 | the `vn` lines face i points at are triangle i's corner normals |
| ObjWriter.WrittenFaceReadsBack | src/raygen/objwriter.cpp:14-64 | reading a written file back, each face line is an accepted triangle whose references pick exactly that triangle's positions, texcoords and normals |
| ObjWriter.Positions | src/raygen/objwriter.cpp:27-28 | one entry per triangle, each the corners `getVertex` returns |
| ObjWriter.Texcoords | src/raygen/objwriter.cpp:36-37 | one entry per triangle, each the corners `getUV` returns for the set into the outputs |
| ObjWriter.Normals | src/raygen/objwriter.cpp:45-46 | one entry per triangle, each the corners `getNormal` returns into the outputs |
| ObjWriter.WriteMesh | src/raygen/objwriter.cpp:14-64 | the file holds the `v`, `vt`, `vn` and `f` blocks built from the mesh's triangles, with the `int` UV index converted to `uint` |
| ObjWriter.MissingUVSetRepeatsInit | src/raygen/objwriter.cpp:36-43 | without the requested UV set every `vt` line repeats the outputs' initial values |
| ObjWriter.WriteVertices | src/raygen/objwriter.cpp:27-34 | the first loop writes one `v` chunk per triangle, in order |
| ObjWriter.WriteTexcoords | src/raygen/objwriter.cpp:36-43 | the second loop writes one `vt` chunk per triangle, the outputs carried from one call to the next |
| ObjWriter.WriteNormals | src/raygen/objwriter.cpp:45-52 | the third loop writes one `vn` chunk per triangle, the outputs carried from one call to the next |
| ObjWriter.WriteFaces | src/raygen/objwriter.cpp:54-61 | the fourth loop writes one `f` line per triangle, in order |
| ObjWriter.FileLayout | src/raygen/objwriter.cpp:27-61 | a written file is the `v`, `vt`, `vn` and `f` blocks in that order, with ten lines per triangle |
| ObjWriter.FileLength | src/raygen/objwriter.cpp:27-61 | a written file has ten lines per triangle |
| Polygons.PlaneVertices | src/raygen/polygons.cpp:37-43 | the plane's six corners, two triangles over the diagonal between the corners |
| Polygons.AttachTangentBasis | src/raygen/polygons.cpp:57 | tangent basis buffers, one entry per vertex, are attached and the flag set; nothing else changes |
| Polygons.NewPlane | src/raygen/polygons.cpp:24-60 | a plane is six vertices, one UV set, no indexes, normals up, texcoords, a tangent basis and no colours |
| Polygons.FillPlane | src/raygen/polygons.cpp:37-55 | the three buffers hold the plane's corners, six up normals and the plane's UVs |
| Polygons.NewSizedPlane | src/raygen/polygons.cpp:13-18 | the plane of size w by h is centred on the origin |
| Polygons.NewGroundPlane | src/raygen/polygons.cpp:20-22 | a plane between two ground points lies at y = 0 through them |
| Polygons.PlaneSharesDiagonal | src/raygen/polygons.cpp:37-55 | the two triangles share their diagonal, in positions and in UVs |
| Polygons.SizedPlaneSpans | src/raygen/polygons.cpp:13-18 | every corner of a w by h plane lies in y = 0 within half the width and half the depth of the origin |
| Polygons.CubeBufferExactlyRead | src/raygen/polygons.cpp:62-102 | the three copies read exactly the whole vertex buffer: positions, normals and both UV sets |
| Polygons.NewCube | src/raygen/polygons.cpp:92-103 | a cube is 36 vertices, normals, two UV sets, no indexes and no tangent basis, its buffers copied from the table |
| Polygons.CopyVec3s | src/raygen/polygons.cpp:100-101 | `memcpy` of vectors fills the array with consecutive float triples |
| Polygons.CopyVec2s | src/raygen/polygons.cpp:102 | `memcpy` of UV pairs fills the array with consecutive float pairs |
| RayCommon.Divide | src/raygen/raycommon.cpp:40 | IEEE division by a real divisor: finite exactly when the divisor is not zero, NaN exactly for 0/0 |
| RayCommon.Precalc | src/raygen/raycommon.cpp:14-32 | the cached face normal, its supplied length and UV coefficients; the plane exists exactly when the length is not zero and then passes through the first corner |
| RayCommon.DistanceAcceptedRange | src/raygen/raycommon.cpp:42-44 | the distance test lets exactly the finite distances in [0, maxt] through; NaN is refused |
| RayCommon.IntersectsRayAccepts | src/raygen/raycommon.cpp:34-61 | a ray is accepted exactly when its distance is finite in [0, maxt] and the hit point is on the inner side of all three edges; then the outputs hold that distance and point |
| RayCommon.IntersectsRayOutputs | src/raygen/raycommon.cpp:42-47 | the outputs are untouched when the distance is refused and otherwise hold the distance and hit point, whatever the edge tests decide |
| RayCommon.DegenerateTriangleNeverHit | src/raygen/raycommon.cpp:17-21 | a triangle with a zero face normal is never hit, since its plane is NaN |
| RayCommon.ParallelRayNeverHit | src/raygen/raycommon.cpp:40-44 | a ray parallel to a proper triangle's plane is never hit |
| RayCommon.HitLiesOnPlane | src/raygen/raycommon.cpp:40-47 | whenever the distance is accepted, the hit point lies on the triangle's plane |
| RayCommon.EdgeSidesAtPoint | src/raygen/raycommon.cpp:51-58 | at the point with barycentric weights (beta, gamma) the three edge tests equal gamma, 1 - beta - gamma and beta times the squared normal length |
| RayCommon.FaceNormalAtFirstCorner | src/raygen/raycommon.cpp:15 | the face normal computed from edges v2-v1 and v3-v2 equals the one from the two edges at the first corner |
| RayCommon.AcceptedExactlyInside | src/raygen/raycommon.cpp:34-61 | for a proper triangle and an accepted distance, the ray is accepted exactly when the hit point lies inside the closed triangle |
| RayCommon.EarlySignExitRedundant | src/raygen/raycommon.cpp:72-73 | the early return on opposite signs never changes the answer of `containsUVPoint` |
| RayCommon.UVCoefficients | src/raygen/raycommon.cpp:23-31 | the cached area is the signed double area of the UV triangle, and the two cached linear forms give a point's weights on uv5 and uv6 times that area |
| RayCommon.ContainsUVPointInside | src/raygen/raycommon.cpp:63-84 | a UV point is contained exactly when the UV triangle is not degenerate and the point is inside it, excluding the two edges at uv4 but including the edge from uv5 to uv6 |
| RayCommon.DirectTestByWeights | src/raygen/raycommon.cpp:75-83 | once the linear forms are the weights times the area, the sign-normalised test is the weight test on a non-degenerate triangle |
| RayCommon.WeightsInside | src/raygen/raycommon.cpp:83 | weights scaled by a positive area satisfy the test exactly when the weights lie in the open-closed triangle |
| RayRenderers.DefaultsSelectBSDF | src/raygen/rayrenderer.h:27-51 | the default settings render 800×600 with the BSDF provider, at least one thread and one sample, and a fully transparent background; one sample only in the desktop debug build (also lines 90-106) |
| RayRenderers.Log10FloorBrackets | src/raygen/rayrenderer.cpp:278 | the integer part of log10 n is the power of ten that brackets n |
| RayRenderers.TreeLevel | src/raygen/rayrenderer.cpp:278 | for two triangles or more the tree level is the source's ⌊log10(size - 1)⌋; it is positive exactly from eleven triangles |
| RayRenderers.TreeSplitThreshold | src/raygen/rayrenderer.cpp:278-282 | an instance's tree is subdivided exactly when it holds eleven triangles or more, to ⌊log10(size - 1)⌋ levels |
| RayRenderers.EmptyMeshTreeLevel | src/raygen/rayrenderer.cpp:278 | as written, a mesh without triangles asks for a tree 19 levels deep, since `size - 1` wraps; the corrected level is 0 |
| RayRenderers.Fresh | src/raygen/rayrenderer.cpp:223-273 | the n triangles of a mesh, numbered consecutively from the serial, each carrying its object, mesh, index and transform |
| RayRenderers.AddMeshesGrows | src/raygen/rayrenderer.cpp:216-287 | adding an object's meshes appends exactly their triangles and one instance per mesh, and removes nothing |
| RayRenderers.ObjectOwnGrows | src/raygen/rayrenderer.cpp:213-314 | an object's own part appends its triangles, its instances and at most one light, and removes nothing |
| RayRenderers.TransformObjectCensus | src/raygen/rayrenderer.cpp:197-323 | transforming an object appends exactly the triangles, instances and lights of the object and its visible descendants, and removes nothing |
| RayRenderers.TransformChildrenCensus | src/raygen/rayrenderer.cpp:158-162 | transforming a list of objects appends exactly what its visible members and their visible descendants contribute (also lines 316-320) |
| RayRenderers.AddMeshConsistent | src/raygen/rayrenderer.cpp:216-287 | with the corrected step, adding a mesh keeps the renderer's lists consistent: each instance's tree holds exactly its own triangles |
| RayRenderers.AddMeshesConsistent | src/raygen/rayrenderer.cpp:216-287 | adding all of an object's meshes keeps the lists consistent |
| RayRenderers.ObjectOwnConsistent | src/raygen/rayrenderer.cpp:213-314 | an object's own part keeps the lists consistent |
| RayRenderers.TransformObjectConsistent | src/raygen/rayrenderer.cpp:197-323 | transforming an object keeps the lists consistent, whatever the scene |
| RayRenderers.TransformChildrenConsistent | src/raygen/rayrenderer.cpp:316-320 | transforming a list of objects keeps the lists consistent |
| RayRenderers.ClearedConsistent | src/raygen/rayrenderer.cpp:133-149 | a cleared renderer, also with its triangle list emptied, is consistent (also lines 156) |
| RayRenderers.SharedMeshTreeHoldsOtherObject | src/raygen/rayrenderer.cpp:217 | as written, the second of two objects sharing a mesh gets a tree holding the first object's triangles too, under the first object's transform; with the corrected step it holds its own two (also lines 284-286) |
| RayRenderers.RenderThread | src/raygen/rayrenderer.cpp:394-435 | a render thread sets exactly the pixels of its rows |
| RayRenderers.RowPixelsMembers | src/raygen/rayrenderer.cpp:407-415 | a row's pixels are those of that row with x from 0 to the width |
| RayRenderers.RowsFromMembers | src/raygen/rayrenderer.cpp:406 | the rows from y on, by a step, are those at a multiple of the step past y and inside the image |
| RayRenderers.ThreadPixelsMembers | src/raygen/rayrenderer.cpp:406-415 | thread t writes exactly the pixels of the rows congruent to t modulo the thread count |
| RayRenderers.AllThreadsAt | src/raygen/rayrenderer.cpp:370-376 | the threads' pixels collected in thread order: entry t is thread t's pixels |
| RayRenderers.EveryPixelOnce | src/raygen/rayrenderer.cpp:370-376 | every pixel of the image is written by exactly one thread, the one its row is congruent to, and no thread writes outside the image (also lines 406-415) |
| RayRenderers.RayRenderer.constructor | src/raygen/rayrenderer.cpp:51-89 | the settings given or the defaults, the shader provider they select, an image of the configured resolution, nothing transformed |
| RayRenderers.RayRenderer.SetRenderSize | src/raygen/rayrenderer.h:202-204 | the image is recreated at the new size and nothing else changes |
| RayRenderers.RayRenderer.SetScene | src/raygen/renderer.h:48-50 | the scene is replaced and nothing else changes |
| RayRenderers.RayRenderer.ClearTransformedScene | src/raygen/rayrenderer.cpp:133-149 | the mesh triangle lists, the instances and the lights are forgotten; the triangle list is kept |
| RayRenderers.RayRenderer.AddMeshInstance | src/raygen/rayrenderer.cpp:216-287 | one mesh of an object: the triangle loop, the instance, its box and its tree, as the corrected step says |
| RayRenderers.RayRenderer.AddObjectOwn | src/raygen/rayrenderer.cpp:213-314 | an object's meshes, then its area or point light when it emits |
| RayRenderers.RayRenderer.TransformObject | src/raygen/rayrenderer.cpp:197-323 | the object is added under its view-model matrix, its visible children recursively, and the model matrix stack is restored |
| RayRenderers.RayRenderer.TransformScene | src/raygen/rayrenderer.cpp:151-174 | nothing without a scene; otherwise the triangle list is emptied and the visible top-level objects transformed |
| RayRenderers.RayRenderer.RenderThreads | src/raygen/rayrenderer.cpp:368-376 | every thread's pixels, in thread order, and nothing else changes |
| RayRenderers.RayRenderer.Render | src/raygen/rayrenderer.cpp:325-388 | nothing without a provider; otherwise the transforms are reset and, with a scene and a main camera, the camera view is applied, the scene rebuilt from scratch and every thread's rows written |
| RayShaders.ProviderSettingsRoundTrip | src/raygen/rayrenderer.cpp:57-75 | each shader provider is created by exactly one setting, and settings below 0, 4 and above 5 create none |
| RayShaders.SimpleShade | src/raygen/rayrenderer.h:237-240 | the simple provider's colour is grey, at least 0.1, and exactly 0.1 when the surface faces away from the light |
| RayShaders.SimpleShadeLitFromDiagonal | src/raygen/rayrenderer.h:232-240 | with the light along the normalised (1, 1, 1), a surface is lit beyond 0.1 exactly when its normal's components sum above zero |
| RayShaders.AmbientOcclusionShade | src/raygen/rayrenderer.h:252-255 | the occlusion provider's colour is grey, within [0, 1], and the occlusion value itself when that is in range |
| RayShaders.ShadeBSDF | src/raygen/rayrenderer.cpp:1296-1314 | the sample loop of the BSDF provider adds one pass per sample and averages them |
| RayShaders.SampleTotalStartsAtZero | src/raygen/rayrenderer.cpp:1304-1311 | every pass of the sample loop traces with a fresh depth counter of 0 |
| RayShaders.BSDFEmissiveIsTerminal | src/raygen/rayrenderer.cpp:1233-1236 | an emissive surface glows and traces and lights nothing |
| RayShaders.BSDFPrimaryRay | src/raygen/rayrenderer.cpp:1296-1314 | a primary ray on the front of a non-emissive surface is the average of the sample passes, each tracing with depth counter 0 |
| RayShaders.BSDFDepthCounter | src/raygen/rayrenderer.cpp:1238-1295 | a secondary ray traces further only with the counter one higher and never beyond the depth limit, or through the transparency shader |
| RayShaders.BSDFBackFaceGlossyIsBlack | src/raygen/rayrenderer.cpp:1250-1262 | the back of an opaque, non-refracting, glossy surface is black |
| RayShaders.BSDFDepthLimitColor | src/raygen/rayrenderer.cpp:1269-1285 | at the depth limit a surface not all glossy or refractive gives the direct light times its colour, the colour applied exactly when colour sampling is on; otherwise black |
| Transforms.PopUndoesPush | src/raygen/renderer.cpp:41-64 | a pop right after a push restores the stack and the model matrix |
| Transforms.PushAllGrows | src/raygen/renderer.cpp:41-43 | pushing n objects grows the stack by n and keeps what was saved below (also lines 50-60) |
| Transforms.PopNIgnoresNormal | src/raygen/renderer.cpp:45-48 | popping does not depend on the normal matrix |
| Transforms.NestedPushesUndone | src/raygen/renderer.cpp:41-64 | any nesting of pushes undone by as many pops restores the saved matrices and the model matrix |
| Transforms.ResetPopsEverything | src/raygen/renderer.cpp:66-73 | reset empties the stack by popping every saved matrix, then loads the identity into the model and normal matrices |
| Transforms.SceneTransformStack.constructor | src/raygen/renderer.h:61-66 | a new stack is empty with identity matrices |
| Transforms.SceneTransformStack.PushModelMatrix | src/raygen/renderer.cpp:41-43 | the model matrix is saved on top of the stack; the matrices are unchanged |
| Transforms.SceneTransformStack.PopModelMatrix | src/raygen/renderer.cpp:45-48 | the top of the stack becomes the model matrix and is removed |
| Transforms.SceneTransformStack.PushObject | src/raygen/renderer.cpp:50-60 | the model matrix is saved, then composed with the object's translation, rotation and scale, and the normal matrix derived from it |
| Transforms.SceneTransformStack.PopObject | src/raygen/renderer.cpp:62-64 | pops the model matrix |
| Transforms.SceneTransformStack.Reset | src/raygen/renderer.cpp:66-73 | the reset state: empty stack, identity matrices |
| Transforms.Renderer.constructor | src/raygen/renderer.cpp:13-15 | a new renderer has a fresh empty transform stack and an identity view matrix |
| Transforms.Renderer.ResetTransformMatrices | src/raygen/renderer.cpp:30-33 | the view matrix becomes identity and the stack is reset |
| Transforms.Renderer.ApplyCameraTransform | src/raygen/renderer.cpp:24-28 | the inverse of the camera's rotation, location and scale is composed onto the view matrix |
| SceneGraph.SceneObject.constructor | src/raygen/scene.h:35-53 | a new object has the name, sits at the origin unrotated at unit scale, has the default material, is visible and renderable and has no parent |
| SceneGraph.SceneObject.Camera | src/raygen/scene.h:111-123 | a new camera is an unnamed object with the default camera settings, invisible but renderable, not a root and without lightmap, meshes or children |
| SceneGraph.SceneObject.SetParent | src/raygen/scene.h:70-80 | the parent is replaced, so `getParent` reads it back; every other field of the object (name, placement, material, flags, meshes, children, camera) is as before |
| SceneGraph.SceneObject.AddMesh | src/raygen/scene.cpp:50-52 | the mesh is appended to the meshes; every other field of the object is as before |
| SceneGraph.SceneObject.RemoveMesh | src/raygen/scene.cpp:54-59 | the first occurrence of the mesh is removed from the meshes, if there is one; every other field of the object is as before |
| SceneGraph.SceneObject.RemoveAllMeshes | src/raygen/scene.cpp:61-63 | no meshes remain; every other field of the object is as before |
| SceneGraph.SceneObject.AddObject | src/raygen/scene.cpp:65-68 | the object becomes the last child, with this object as its parent; every other field of both objects is as before |
| SceneGraph.SceneObject.RemoveObject | src/raygen/scene.cpp:70-76 | the first occurrence of the object among the children is removed, if any, and its parent is cleared regardless; every other field of both objects is as before |
| SceneGraph.SceneObject.ChildNames | src/raygen/scene.cpp:107-115 | every direct child's name is among the names |
| SceneGraph.SceneObject.SameNameObjectAlreadyExist | src/raygen/scene.cpp:107-115 | true exactly when a direct child has the name |
| SceneGraph.SceneObject.MakeUniqueChildName | src/raygen/scene.cpp:93-105 | the name when no direct child has it, otherwise `name_k` for the first k from 2 that no direct child has |
| SceneGraph.SceneObject.Clone | src/raygen/scene.cpp:258-274 | a fresh parentless object with this one's name, material and shared meshes, whose children are fresh clones of the children in order, linked back to it; transform and flags are those of a new object (origin, unit scale, visible, renderable, not a root, no lightmap) whatever this one's are |
| SceneGraph.SceneObject.FindObjectByName | src/raygen/scene.cpp:78-91 | the first object with the name in depth-first preorder below this one, or none |
| SceneGraph.RemoveFirst | src/raygen/scene.cpp:55-58 | without the element the list is unchanged; with it the list is one shorter |
| SceneGraph.RemoveFirstRemovesOne | src/raygen/scene.cpp:55-58 | exactly one occurrence is removed and nothing else |
| SceneGraph.RemoveFirstSplits | src/raygen/scene.cpp:55-58 | the first occurrence goes; the elements before and after it keep their order |
| SceneGraph.CloneChildren | src/raygen/scene.cpp:268-271 | the loop of `clone` adds each child's clone, in order, all fresh and linked to the new object |
| SceneGraph.CloneStep | src/raygen/scene.cpp:269-270 | one step of the loop adds the next child's clone after those before it |
| SceneGraph.CloneInto | src/raygen/scene.cpp:269-270 | the child is cloned and the clone added, with every new object fresh |
| SceneGraph.Adopt | src/raygen/scene.cpp:270 | adding a new clone keeps the earlier clones described, links the new one to the parent and changes nothing of the new one but its parent |
| SceneGraph.FirstNamed | src/raygen/scene.cpp:79-83 | the first node with the name in a list, or none when none has it |
| SceneGraph.FindInIsFirstInPreorder | src/raygen/scene.cpp:78-91 | the search finds the first match of the preorder listing: a node, then its subtree, before its next sibling |
| SceneGraph.FindInForest | src/raygen/scene.cpp:79-88 | the loop over a list of objects, recursing into each before the next, returns the preorder search's answer |
| SceneGraph.CallEachStopsAtFirstFalse | src/raygen/scene.cpp:118-120 | the first loop calls the iterator on the children in order and stops at the first false answer (also lines 326-328) |
| SceneGraph.ChildrenFirst | src/raygen/scene.cpp:117-129 | every direct child is visited before any grandchild (the scene's visit over its top-level objects is the same loop pair) (also lines 325-333) |
| SceneGraph.VisitStopsAtFirstFalse | src/raygen/scene.cpp:117-129 | the visit answers false exactly when some call answered false, and that call was the last (the scene's visit over its top-level objects is the same loop pair) (also lines 325-333) |
| SceneGraph.DescendStopsAtFirstFalse | src/raygen/scene.cpp:122-126 | the descent into the children stops at the first false answer (also lines 330-332) |
| SceneGraph.CompleteVisitCoversTree | src/raygen/scene.cpp:117-129 | a visit that runs to the end calls the iterator once on every node of the forest (the scene's visit over its top-level objects is the same loop pair) (also lines 325-333) |
| SceneGraph.CompleteDescentCoversSubtrees | src/raygen/scene.cpp:122-126 | a descent that runs to the end calls the iterator once on every node below the children |
| SceneGraph.ForestSplits | src/raygen/scene.cpp:117-129 | a forest's nodes are its roots and the nodes below them |
| SceneGraph.Scene.constructor | src/raygen/scene.h:160-169 | a new scene has no objects and no main camera |
| SceneGraph.Scene.AddObject | src/raygen/scene.cpp:286-288 | the object is appended; its parent is not set |
| SceneGraph.Scene.RemoveObject | src/raygen/scene.cpp:290-296 | the first occurrence is removed, if any, and the object's parent is cleared regardless; the main camera and every other field of the object are as before |
| SceneGraph.Scene.ClearObjects | src/raygen/scene.cpp:298-300 | no objects remain and the main camera is kept |
| SceneGraph.Scene.FindObjectByName | src/raygen/scene.cpp:310-323 | the first object with the name in depth-first preorder over the top-level objects |
| ScenePool.CachedLoad | src/raygen/scene.cpp:442-530 | a result exactly when the key is cached or the load succeeds; a result is cached under the key; a failure leaves the cache unchanged |
| ScenePool.CachedLoadIsStable | src/raygen/scene.cpp:443-447 | once cached, a key answers the same object whether or not a load would now succeed (also lines 507-510) |
| ScenePool.FailedLoadIsNotCached | src/raygen/scene.cpp:488-491 | a failed load leaves nothing behind, so asking again is a fresh attempt (also lines 518-525) |
| ScenePool.MeshKeyInjective | src/raygen/scene.cpp:584 | different pool sizes give different `mesh%d` names |
| ScenePool.NextMeshKeyFree | src/raygen/scene.cpp:583-585 | in a pool named `mesh1` to `meshN` the next generated name is free |
| ScenePool.AddMesh | src/raygen/scene.cpp:573-586 | the mesh is pooled afterwards; a mesh already pooled by identity changes nothing; a new one is named after the pool's size |
| ScenePool.AddMeshKeeps | src/raygen/scene.cpp:573-586 | adding a mesh to a densely named pool overwrites nothing and keeps the names dense |
| ScenePool.AddMeshes | src/raygen/scene.cpp:573-607 | the last mesh of the object is pooled afterwards |
| ScenePool.AddMeshesStep | src/raygen/scene.cpp:573-607 | the loop one mesh further on adds that mesh |
| ScenePool.AddMeshesKeeps | src/raygen/scene.cpp:573-607 | the meshes loop overwrites nothing, keeps the names dense and pools every mesh of the object |
| ScenePool.CollectMaterial | src/raygen/scene.cpp:554-570 | a material other than the default and equal to none pooled is pooled under a new unique name; otherwise the pool is unchanged; nothing is overwritten |
| ScenePool.CollectForestSnoc | src/raygen/scene.cpp:610-614 | the children loop one child further on collects that child's subtree |
| ScenePool.CollectTreeCovers | src/raygen/scene.cpp:552-615 | on a densely named pool, `collect` overwrites nothing, keeps the names dense, and leaves every object of the subtree with its material and meshes pooled |
| ScenePool.CollectForestCovers | src/raygen/scene.cpp:610-614 | collecting a list of subtrees grows the pool and covers every object in them |
| ScenePool.SceneResourcePool.constructor | src/raygen/scene.cpp:347-349 | a new pool has every cache empty |
| ScenePool.SceneResourcePool.GetTexture | src/raygen/scene.cpp:442-499 | a cached path answers its texture; a bundle path always gets a new cached texture; any other path gets one only when the file loads; other caches are unchanged |
| ScenePool.SceneResourcePool.LoadArchive | src/raygen/scene.cpp:505-530 | the archive cached under the name, else the one read from the path when it reads, cached under the name; a failure answers none and caches nothing |
| ScenePool.SceneResourcePool.LoadArchiveAt | src/raygen/scene.cpp:501-503 | the archive is cached under its own path |
| ScenePool.SceneResourcePool.GetAvailableMaterialName | src/raygen/scene.cpp:536-550 | the name if no pooled material has it, else the first free `name_k` for k from 2 |
| ScenePool.SceneResourcePool.Collect | src/raygen/scene.cpp:552-615 | the object's material, then its meshes, then each child's subtree in order, leaving the other caches unchanged |
| ScenePool.SceneResourcePool.CollectChildren | src/raygen/scene.cpp:610-614 | each child's subtree is collected in order |
| ScenePool.SceneResourcePool.CollectStep | src/raygen/scene.cpp:611-613 | one step collects the next child's subtree |
| ScenePool.SceneResourcePool.CollectMeshes | src/raygen/scene.cpp:573-607 | the meshes part of `collect` pools the object's meshes and changes nothing else |
| ScenePool.SceneResourcePool.CollectOwnMaterial | src/raygen/scene.cpp:554-570 | the material part of `collect` pools the object's material and changes nothing else |
| ScenePool.SceneResourcePool.Clear | src/raygen/scene.cpp:617-623 | every cache is emptied |
| SceneLoader.GetProperty | src/raygen/sceneloader.cpp:190 | the value read is that of a property with the key, and a missing key reads as an unknown value |
| SceneLoader.GetPropertyIsFirst | src/raygen/sceneloader.cpp:190 | of several properties with one key, the first one's value is read |
| SceneLoader.WithSplitter | src/raygen/sceneloader.cpp:34-40 | the base path is extended by at most one splitter so that a non-empty path ends with one; an empty path stays empty |
| SceneLoader.WithSplitterIdempotent | src/raygen/sceneloader.cpp:34-40 | setting a base path that already ends with the splitter keeps it as it is |
| SceneLoader.TransformPath | src/raygen/sceneloader.cpp:42-54 | the input ends the result; a rooted input (`sob://`, `tob://`, `/`, `\`) is kept as it is, any other gets the base path and a splitter in front |
| SceneLoader.RelativePathJoinsTwice | src/raygen/sceneloader.cpp:37-38 | with a non-empty directory as base path, a relative path is joined to it by two splitters (also lines 48-50) |
| SceneLoader.NoBasePathRoots | src/raygen/sceneloader.cpp:42-54 | without a base path a relative input becomes rooted, so transforming it again changes nothing |
| SceneLoader.HexDigits | src/raygen/sceneloader.cpp:163-169 | the string, or the string without its first character when that is `#` and the length is 4, 5, 7 or 9 |
| SceneLoader.TryParseColorString | src/raygen/sceneloader.cpp:154-187 | success exactly when the string is at least 3 long and its digits number 3, 4, 6 or 8; alpha exactly with 4 or 8 digits, each digit doubled exactly with 3 or 4 |
| SceneLoader.HashIsOptional | src/raygen/sceneloader.cpp:163-169 | 3, 4, 6 or 8 digits parse the same with or without a `#` in front |
| SceneLoader.HashReadAsDigit | src/raygen/sceneloader.cpp:163-187 | a `#` followed by 2, 5 or 7 characters is not stripped: the string parses as 3, 6 or 8 digits with the `#` read as one of them |
| SceneLoader.ReadColorArray | src/raygen/sceneloader.cpp:63-77 | fewer than three items keep the start colour; r, g, b come from the first three number items, a from a fourth; non-number items keep the start value |
| SceneLoader.ColorArrayRoundTrip | src/raygen/sceneloader.cpp:63-77 | a colour written as an array of its four numbers reads back as itself |
| SceneLoader.TryReadVec3PropertyAsWritten | src/raygen/sceneloader.cpp:189-213 | success exactly when the property is an array of three or more or an object; failure leaves the vector; the object form reads the enclosing object |
| SceneLoader.TryReadVec3Property | src/raygen/sceneloader.cpp:189-213 | the same success condition, with the object form reading the property's own object |
| SceneLoader.TryReadVec2PropertyAsWritten | src/raygen/sceneloader.cpp:215-237 | success exactly when the property is an array of two or more or an object; failure leaves the vector; the object form reads the enclosing object |
| SceneLoader.TryReadVec2Property | src/raygen/sceneloader.cpp:215-237 | the same success condition, with the object form reading the property's own object |
| SceneLoader.Vec3RoundTrip | src/raygen/sceneloader.cpp:189-213 | a vector written as an array or an object reads back as itself; as written, only the array form does |
| SceneLoader.Vec2RoundTrip | src/raygen/sceneloader.cpp:215-237 | a 2-vector written as an array or an object reads back as itself; as written, only the array form does |
| SceneLoader.ObjectFormIsLost | src/raygen/sceneloader.cpp:205-209 | as written, `{"location": {"x": 1, "y": 2, "z": 3}}` reads as the origin |
| SceneLoader.TilingObjectFormIsLost | src/raygen/sceneloader.cpp:230-233 | as written, a tiling `{"x": 2, "y": 2}` reads as (0, 0) |
| SceneLoader.AsWrittenIgnoresObject | src/raygen/sceneloader.cpp:205-209 | as written, the object form's result does not depend on the property's object at all |
| SceneLoader.ReadCameraSettings | src/raygen/sceneloader.cpp:319-341 | each of field of view, depth of field and aperture is replaced by the property when that is a number and kept otherwise; the focus name is replaced exactly when `focusOn` is a non-empty string and kept otherwise; the view range is kept |
| SceneLoader.CameraSettingsWithoutPropertiesKept | src/raygen/sceneloader.cpp:319-341 | an object without properties leaves the camera settings as they are |
| SceneLoader.CameraSettingsRoundTrip | src/raygen/sceneloader.cpp:319-341 | an object holding the four camera properties of some settings, with a non-empty focus, reads back as exactly those settings with the view range kept |
| SceneLoader.MaterialRead | src/raygen/sceneloader.cpp:93-152 | the texture and its transformed path only with a non-empty `tex`; the normal-map path only with a non-empty `normalmap`; the tiling, the eight numbers and the colour each only when given; the name kept |
| SceneLoader.EmptyMaterialObjectKeeps | src/raygen/sceneloader.cpp:93-152 | an empty material object changes nothing |
| SceneLoader.UnparsedColorStillAssigned | src/raygen/sceneloader.cpp:136-141 | a colour string that does not parse still replaces the colour, with a blank colour's conversion |
| SceneLoader.MaterialInInnermost | src/raygen/sceneloader.h:42-53 | a name is answered from the innermost scope that defines it |
| SceneLoader.MaterialInAbsent | src/raygen/sceneloader.h:42-53 | no answer exactly when no scope defines the name |
| SceneLoader.EmptyScopeHidesNothing | src/raygen/sceneloader.h:84 | pushing an empty scope changes no lookup |
| SceneLoader.DefinedNamesStep | src/raygen/sceneloader.cpp:79-91 | one more definition adds its key exactly when its value is an object |
| SceneLoader.LastDefinition | src/raygen/sceneloader.cpp:79-91 | the object of the last definition of a name, present exactly when some object-valued property defines it |
| SceneLoader.DefinesStep | src/raygen/sceneloader.cpp:79-91 | one more definition keeps the scope in step with the definitions read: an object-valued property replaces its key's material, any other changes nothing |
| SceneLoader.PlacementReadFields | src/raygen/sceneloader.cpp:347-360 | after the property loop, location, angle and scale are read from the object when it has their key and kept otherwise; `visible` takes the last boolean given; `_generateLightmap` turns the flag on if present (also lines 415-417) |
| SceneLoader.Children | src/raygen/sceneloader.cpp:343-443 | the children the property loop creates, at most one per property, in order, with their names and whether each is a camera |
| SceneLoader.ChildrenAppend | src/raygen/sceneloader.cpp:343-443 | the children of consecutive properties are those of each, in order |
| SceneLoader.ChildrenOfOne | src/raygen/sceneloader.cpp:343-443 | a property creates one child exactly when it is `mainCamera` or an object the loop does not handle itself |
| SceneLoader.Spawned | src/raygen/sceneloader.cpp:343-443 | the roots' names and camera flags, one per root, in order |
| SceneLoader.SpawnedAppend | src/raygen/sceneloader.cpp:343-443 | one more root adds its name and camera flag at the end |
| SceneLoader.RootsInFootprint | src/raygen/sceneloader.cpp:448-463 | every root is one of the forest's objects |
| SceneLoader.MainCameraIn | src/raygen/sceneloader.cpp:448-463 | what `findMainCamera` answers is a camera named `mainCamera` |
| SceneLoader.FirstMainCamera | src/raygen/sceneloader.cpp:448-463 | the first node of a list that is a camera named `mainCamera`, or none when no node is |
| SceneLoader.FirstMainCameraAppend | src/raygen/sceneloader.cpp:448-463 | in two lists, the first one's main camera wins over the second's |
| SceneLoader.MainCameraIsFirstInPreorder | src/raygen/sceneloader.cpp:448-463 | `findMainCamera` answers the first main camera of the depth-first preorder listing |
| SceneLoader.FindMainCamera | src/raygen/sceneloader.cpp:448-463 | the loop, recursing into each child before the next, returns that first main camera |
| SceneLoader.MoveChildren | src/raygen/sceneloader.cpp:486-489 | the root's children are appended to the scene in order, each with no parent, and the main camera is untouched |
| SceneLoader.SceneJsonLoader.constructor | src/raygen/sceneloader.cpp:25-29 | a loader has no base path and no scopes and uses the given pool |
| SceneLoader.SceneJsonLoader.SetBasePath | src/raygen/sceneloader.cpp:34-40 | the base path becomes the splitter-terminated path; nothing else changes |
| SceneLoader.SceneJsonLoader.PushLoadingStack | src/raygen/sceneloader.h:84 | one empty scope is pushed; nothing else changes |
| SceneLoader.SceneJsonLoader.FindMaterialByName | src/raygen/sceneloader.h:42-53 | the loop over the scopes from the innermost answers the innermost definition |
| SceneLoader.SceneJsonLoader.ReadMaterial | src/raygen/sceneloader.cpp:93-152 | the material read, with the texture the pool answers for the transformed `tex` path; without `tex` the texture cache is untouched |
| SceneLoader.SceneJsonLoader.ReadMaterialDefines | src/raygen/sceneloader.cpp:79-91 | the innermost scope gains exactly the keys whose value is an object; each holds the default material named by its key and read (`MaterialRead`) from the last object given for it; the other materials and the outer scopes are untouched |
| SceneLoader.SceneJsonLoader.DefineMaterial | src/raygen/sceneloader.cpp:81-87 | the default material named by its key and read from the definition object (`MaterialRead`) is stored under the key in the innermost scope, and nothing else there changes |
| SceneLoader.SceneJsonLoader.ReadSceneObject | src/raygen/sceneloader.cpp:277-446 | the scopes come back as they were; the placement is the property loop's (`PlacementRead`), the meshes grow by the count the `mesh` properties give after the old ones, a camera's settings are read from the object, name, parent and flags are kept, and the children are fresh, one per property that creates one, named and linked as the property loop says |
| SceneLoader.SceneJsonLoader.ReadProperties | src/raygen/sceneloader.cpp:343-443 | the property loop leaves the placement `PlacementRead` gives, the meshes grown by the `mesh` properties' count after the old ones, name, parent, camera and flags kept, and exactly the children its properties create, fresh and linked to the object |
| SceneLoader.SceneJsonLoader.ReadProperty | src/raygen/sceneloader.cpp:343-443 | one turn adds the property's child if it creates one, and otherwise applies it: the placement takes one `PlacementStep` and a `mesh` property adds its meshes |
| SceneLoader.SceneJsonLoader.ReadChild | src/raygen/sceneloader.cpp:406-442 | a fresh child named by the key is added after the others, linked to the object: its placement is the property loop's over a new object's (invisible for a camera or a hidden type), its meshes number the `mesh` properties' count, a camera's settings are read from its object over the defaults, and the object itself is unchanged but for its children |
| SceneLoader.SceneJsonLoader.NewChild | src/raygen/sceneloader.cpp:406-442 | a fresh camera for `mainCamera` or type 801, an invisible object for 15, otherwise a plain object, read recursively: its placement is `PlacementRead` over a new object's, visible unless a camera or hidden; its meshes number the `mesh` properties' count; a camera's settings are read from its object over the defaults; it is renderable and not a root |
| SceneLoader.SceneJsonLoader.ApplyOwnProperty | src/raygen/sceneloader.cpp:347-417 | a property the loop handles itself moves the placement by one `PlacementStep` and adds its meshes after the old ones when it is `mesh`; for `mat`, a defined name gives its material, an object is read over the old material (`MaterialRead`), and anything else keeps it; no other key changes the material; children, name, parent, camera and flags are untouched |
| SceneLoader.SceneJsonLoader.ReadMatProperty | src/raygen/sceneloader.cpp:385-401 | a string names a material found in the scopes, which replaces the object's, or nothing; an object is read over the object's material |
| SceneLoader.SceneJsonLoader.ReadMeshProperty | src/raygen/sceneloader.cpp:361-384 | a path or each string item of an array adds one fresh mesh, a `plane` or `cube` definition one mesh, after the existing ones |
| SceneLoader.SceneJsonLoader.ReadMeshPaths | src/raygen/sceneloader.cpp:366-373 | one fresh mesh per string item, in order, after the existing ones |
| SceneLoader.SceneJsonLoader.LoadObject | src/raygen/sceneloader.cpp:508-561 | a fresh unnamed parentless plain object read from the document: its placement is the property loop's over a new visible object's, its meshes number the `mesh` properties' count, and its children are those the properties create, linked to it |
| SceneLoader.SceneJsonLoader.Load | src/raygen/sceneloader.cpp:465-504 | the base path defaults to the scene file's directory; an empty file fails and changes no scene; otherwise the root's children are appended and the main camera found, if any, set |
| SceneLoader.SceneJsonLoader.LoadInto | src/raygen/sceneloader.cpp:482-502 | the children appended are the ones the document's properties create, in order and detached; the first main camera in preorder becomes the scene's |
| SceneLoader.SceneJsonLoader.CreateObjectFromBundle | src/raygen/sceneloader.cpp:563-591 | nothing exactly when the archive is neither cached nor readable; otherwise a fresh parentless object: the manifest's only child, or the root holding all of them |
| SpaceTrees.SpaceTreeNode.constructor | src/raygen/rayrenderer.h:61 | a leaf node has the bound and an empty list; a split node has the two disjoint subtrees as children and an empty list |
| SpaceTrees.Destination | src/raygen/rayrenderer.cpp:1006-1028 | the node whose list receives a triangle lies in the tree |
| SpaceTrees.DestinationStopsDescent | src/raygen/rayrenderer.cpp:1006-1028 | the descent stops at an unsplit node or one whose children both meet or both miss the triangle, and goes into the one child that alone meets it |
| SpaceTrees.PutTriangleIntoTree | src/raygen/rayrenderer.cpp:1020-1028 | the answer is always true; the triangle is appended to exactly one node's list, its destination, and every other list is unchanged |
| SpaceTrees.PutTriangleIntoChildrenNode | src/raygen/rayrenderer.cpp:1006-1018 | success exactly when one child alone meets the triangle, which is then placed in that child's subtree; on failure nothing changes |
| SpaceTrees.HitWithinBound | src/raygen/raycommon.cpp:40-47 | an accepted hit lies within the bound, and stays accepted under any larger bound |
| SpaceTrees.ScanStepIsNearest | src/raygen/rayrenderer.cpp:1095-1106 | one step keeps the nearer of the current intersection and the triangle's hit |
| SpaceTrees.NearestAmongAppend | src/raygen/rayrenderer.cpp:1091-1117 | scanning one list and then another finds the nearest hit among both |
| SpaceTrees.ScanListIsNearest | src/raygen/rayrenderer.cpp:1095-1106 | the list loop ends with the nearest hit among the list's triangles, or the start when none is nearer |
| SpaceTrees.NearestAmongNothing | src/raygen/rayrenderer.cpp:1091-1117 | among no triangles the start intersection stands |
| SpaceTrees.ScanTreeIsNearest | src/raygen/rayrenderer.cpp:1091-1117 | the tree scan finds the nearest hit among the triangles of the node and of every child whose bound meets the ray, and `t` never grows |
| SpaceTrees.ScanSpaceTreeNearestTriangle | src/raygen/rayrenderer.cpp:1091-1117 | the list loop and the two recursive calls compute that scan |
| SpaceTrees.MeshesPrefix | src/raygen/rayrenderer.cpp:1081-1089 | the first and the last instances of a list are well formed when the list is |
| SpaceTrees.ScanMeshesIsNearest | src/raygen/rayrenderer.cpp:1081-1089 | the instance scan finds the nearest hit among the trees of every instance whose box meets the ray |
| SpaceTrees.ScanBoundingBoxSpaceTreeNearestTriangle | src/raygen/rayrenderer.cpp:1081-1089 | the loop over the instances computes that scan |
| SpaceTrees.BlockedListMeans | src/raygen/rayrenderer.cpp:1193-1207 | the list blocks exactly when one of its triangles is hit within `maxt` and is opaque (transparency below 0.01 or refraction above 0.1); without `t_out` nothing is written |
| SpaceTrees.RayBlockedOutput | src/raygen/rayrenderer.cpp:1191-1223 | `t_out` is written only by the root's own list, the children being scanned without it |
| SpaceTrees.RayBlockedMeans | src/raygen/rayrenderer.cpp:1191-1223 | the tree blocks exactly when a triangle it visits is hit within `maxt` and is opaque |
| SpaceTrees.AnyBlocksAppend | src/raygen/rayrenderer.cpp:1191-1223 | two lists block together exactly when one of them blocks |
| SpaceTrees.ScanSpaceTreeRayBlocked | src/raygen/rayrenderer.cpp:1191-1223 | the list loop with its early return, then the children, answers what the tree scan says and writes what it says |
| SpaceTrees.BlockedMeshesMeans | src/raygen/rayrenderer.cpp:1175-1189 | the instance scan blocks exactly when a triangle of an instance whose box meets the ray is hit within `maxt` and is opaque |
| SpaceTrees.ScanBoundingBoxSpaceTreeRayBlocked | src/raygen/rayrenderer.cpp:1175-1189 | the loop over the instances, returning at the first block, answers that scan |

## Left out

Members whose contract is weaker than, or differs from, what the program does:

- SceneLoader.SceneJsonLoader.ApplyOwnProperty: reads `location`, `angle` and `scale` with the corrected `TryReadVec3Property`. The program reads an object-form vector from the enclosing object (src/raygen/sceneloader.cpp:205-209), so `{"location": {"x": 1, "y": 2, "z": 3}}` gives (0, 0, 0) there and (1, 2, 3) here. The program's behaviour is `TryReadVec3PropertyAsWritten` (see Findings).
- SceneLoader.MaterialRead: reads `texTiling` with the corrected `TryReadVec2Property`, for the same reason (src/raygen/sceneloader.cpp:230-233). `SceneLoader.SceneJsonLoader.ReadMaterial`, `ReadMatProperty`, `DefineMaterial` and `ReadMaterialDefines` inherit this.
- ObjReader.ScanFace: face lines are checked under the corrected reference rules (`StepCorrected`), through `ObjReader.FaceOf`, which names `Scan` under those rules; the rules as written are at src/raygen/objreader.cpp:303-343. `ObjReader.Advance`, `ObjReader.AddFace`, `ObjReader.ObjFileReader.ReadSurfaceLine` and `ObjReader.ObjFileReader.ReadFaceLine` inherit this. On faces whose references all match the object the two rule sets agree (`ObjText.RulesAgreeOnMatchingFaces`).
- ObjReader.ObjFileReader.ReadMaterialLibrary: reads a library with the corrected `Reset`, which also clears the transparency, and tests each library line's tag against its own length. The program keeps the transparency across `newmtl` (src/raygen/objreader.cpp:35-43) and tests against the stale length of the `mtllib` line (src/raygen/objreader.cpp:582, src/raygen/objreader.h:173). So for `newmtl glass`, `Tf 0 0 0`, `newmtl wood` the program's wood has transparency 1 and the model's has 0. `ObjReader.ObjFileReader.ReadMaterialLine` and `ReadLibraryLine` inherit this.
- RayRenderers.RayRenderer.AddMeshInstance: builds each instance's tree from the instance's own triangles with the corrected `TreeLevel`. The program fills it from the mesh's whole `meshTriangles` list, which holds the triangles of every earlier object sharing the mesh, and takes `(int)log10(size - 1)` unguarded (src/raygen/rayrenderer.cpp:217, 278-286). `RayRenderers.RayRenderer.TransformObject`, `TransformScene` and `Render` inherit this. The program's step is `RayRenderers.AddMeshAsWritten`.
- SceneLoader.SceneJsonLoader.ReadSceneObject: ignores the `_bundle` branch, which reads the manifest of a bundle archive and adds its objects as children (src/raygen/sceneloader.cpp:287-317). Archive text chunks and the nested JSON reader are not part of this model. `SceneLoader.Children` and `SceneLoader.SceneJsonLoader.Load` inherit this.
- SceneLoader.SceneJsonLoader.ReadProperties: states the material only property by property (`ReadMatProperty`), and the meshes by their count and the old ones kept in front, not which meshes are added. `SceneLoader.SceneJsonLoader.ReadSceneObject`, `NewChild`, `ReadChild` and `LoadObject` inherit this: they state a new object's placement, mesh count and camera settings, not its material.
- SceneLoader.SceneJsonLoader.ReadMatProperty: assumes no `materialReadingHandler` is installed (src/raygen/sceneloader.cpp:383-385). The handler is a caller-supplied function pointer the program never sets itself.
- SceneLoader.SceneJsonLoader.LoadInto: runs `findMainCamera` before the root's children are moved to the scene, where the program runs it after (src/raygen/sceneloader.cpp:486-494). The search reads names and camera flags only, never parent links, so the answer is the same.
- SceneLoader.SceneJsonLoader.ReadMeshProperty: a mesh definition object without a `type` dereferences NULL in the program (src/raygen/sceneloader.cpp:374-375); the model treats it as adding no mesh. A `plane` definition adds an empty mesh: the default `PlaneMesh()` constructor is declared (src/raygen/polygons.h:19) but its body is not among the sources.
- SceneLoader.SceneJsonLoader.NewChild: a `mainCamera` property whose value is not an object dereferences NULL in the program (src/raygen/sceneloader.cpp:404-405); the model creates no child for it.
- RayRenderers.RayRenderer.Render: leaves out the camera move toward `focusOnObjectName` (src/raygen/rayrenderer.cpp:341-356), the glow post-process (378-387) and the progress rate (417-433). The camera move needs the world transform and bounding box of an object, which are matrix arithmetic not modelled here.
- RayRenderers.RayRenderer.constructor: leaves out `srand` and the antialias kernel (src/raygen/rayrenderer.cpp:80-88), which only feed random sampling.
- RayRenderers.RayRenderer.RenderThreads: runs the threads one after another and records which pixels each thread writes, not their colours. Thread spawning and joining, and the racy shared progress counter, are not modelled.
- MeshLoader.Load: models the program's absolute seek; every other member that loads (`MeshArchive.LoadFromArchive`, the round-trip lemmas) uses the stream position the mesh starts at, which is what the program's callers pass.
- Meshes.Mesh.InversePolygonVertexOrder: models the program, which leaves positions alone on meshes without texcoords. The involution lemma `Meshes.Mesh.RewindTwiceRestores` is about the intended `InversePolygonVertexOrderFixed`.

Operations and behaviour not modelled:

- Floating point: every `float` is a real. NaN, infinities, negative zero, the rounding of `(float)` casts and underflow (for instance a vanishing `pdlen` in `precalc`) are not modelled. The one exception is the division in `intersectsRay` for a ray parallel to the triangle, which `RayCommon.Divide` models with explicit infinities and NaN.
- Integer widths: counts are unbounded naturals. `uint`/`int` overflow is not modelled, for instance `i*3+3` in the OBJ writer (src/raygen/objwriter.cpp:56-58) or `vertexCount * uvCount`. The 16-bit corner arithmetic of unindexed meshes and `HasUVBuffer`'s `uint` conversion are modelled explicitly.
- The binary stream: a stream is a sequence of typed cells, one per stored field or element, not bytes. A header flag bit that `MeshFileHeaderFlags` does not name is dropped on decoding. Reading a cell of another kind or past the end yields a fixed default.
- Undefined behaviour is excluded by preconditions, not modelled: index buffers pointing outside the vertex buffers (`Meshes.Mesh.IndexesInRange`), a mesh buffer copy into a mesh too small for it (`MeshBuffers.Copyable`), `composeIndex` on a mesh with texcoords but no UV set, and the cube-texture length products overflowing `uint`. A face reference past the vertex, normal or texcoord pool read so far indexes a `std::vector` unchecked in the program (src/raygen/objreader.cpp:363-383); the OBJ reader's `At` gives a zero vector there instead.
- Matrices: a matrix is the expression of the operations that built it (translate, rotate, scale, product), not 16 numbers. Equal matrices built differently are not identified.
- Transform and bounding-box math in scene.cpp (`lookAt`, `getParentTransform`, `getLocalTransform`, `getWorldTransform`, `getRotationMatrix`, `applyTransform`, `getWorldLocation`, `getLookAt`, `getBoundingBox`, src/raygen/scene.cpp:131-256) and `applyCameraTransform`: matrix arithmetic of the vector library.
- Material pointers: an OBJ object's selected material is the index of the reader's material (`usemtl`, src/raygen/objreader.cpp:251-265), where the program keeps a pointer into the reader's list, and the resource pool's `collect` stores a copy of the object's material, where the program stores `&obj.material` (src/raygen/scene.cpp:552-570). Changes made through these pointers after the fact, and pointers left dangling when the object goes, are not modelled.
- The OBJ writer's number text: a written line holds the numbers themselves; the `%f` formatting, with its six decimals and rounding (src/raygen/objwriter.cpp:30-50), is not modelled: the model's lines carry the exact numbers.
- The OBJ reader's current object: the program allocates it up front and mutates it; the model keeps it as a value in the reader and turns it into an `ObjObject` when it is finished. Setters of finished objects are not modelled.
- `SceneResourcePool::loadMeshFromFile` (src/raygen/scene.cpp:374-428): it parses bundle URIs with `sscanf` and reads files; the loader's `mesh` property adds a fresh mesh for each path instead.
- The pool singleton: `SceneResourcePool::getInstance` and the loader's default pool are not modelled as one global object; a loader is given its pool.
- Texture, image and archive classes (ucm, ugm): a texture or archive is an identity; `Image::copyRect`'s format conversion, texture file loading and the archive's chunk storage beyond find and add are not modelled. `MeshArchive` models only the archive operations the mesh loader calls.
- Cube textures: `sizeof(CubeTexDataBlock)` is taken as 40 bytes; `getFaceImages`/`getFaceImage` accessors and the image library's copy are not modelled.
- The command line: printing, the stopwatch, the progress callback, image saving, the scene dump and the render or bake run itself. `File::getPath`/`getBaseName` and the float scanner are passed in as functions. The path splitter is the constant `Base.PathSplitter`, `/`, the value it has outside Windows; the command line, the scene loader's paths and the `mtllib` path of the OBJ reader (src/raygen/objreader.cpp:240) use it. `sscanf` overflow on huge numbers is not modelled.
- Shading values: traced colours, light sampling, ambient occlusion values, `rand()` and the hemisphere sampling are not computed; shaders are colour expressions over the renderer calls they make.
- The FBX loader, the bake renderer, the lightmap UV generator, and the float geometry of mesh.cpp (subdivision, UV normalising and tiling, normal and tangent computation) are not part of this model.
- Declaration-only headers (bsdf.h, lambert.h, bakerenderer.h, fbxloader.h, cubetex.h, polygons.h, objwriter.h, renderer.h, texture.h) hold no logic beyond the constants and fields used above.

## Findings

| source | as written | input that shows it | evidently intended | confidence | as-written member | corrected member |
|---|---|---|---|---|---|---|
| src/raygen/mesh.cpp:111 | `setVertex` returns unless the mesh has texcoords, so `inversePolygonVertexOrder` rewinds the normals of a mesh without texcoords but not its positions | one triangle with positions p0, p1, p2 and normals n0, n1 ≠ n2, no texcoords: corner 1 keeps p1 but gets n2 | `setVertex` guarded by the vertex count only, like `setNormal`, so positions are rewound with their normals | medium, not executed | Meshes.NormalsDetachedWithoutTexcoords | Meshes.Mesh.SetVertexFixed |
| src/raygen/mesh.cpp:498-529 | `inversePolygonVertexOrder` is not an involution on meshes without texcoords, because of the guard above | the same triangle: rewinding swaps the normals of corners 1 and 2 and leaves the positions | rewinding twice restores every buffer | medium, not executed | Meshes.Mesh.InversePolygonVertexOrder | Meshes.Mesh.RewindTwiceRestores |
| src/raygen/sceneloader.cpp:205-209 | the object form of `tryReadVec3Property` reads `x`, `y`, `z` from the enclosing object, not from the property's own object | `{"location": {"x": 1, "y": 2, "z": 3}}` gives (0, 0, 0) | read the property's own object, giving (1, 2, 3) | high, not executed | SceneLoader.ObjectFormIsLost | SceneLoader.Vec3RoundTrip |
| src/raygen/sceneloader.cpp:230-233 | the object form of `tryReadVec2Property` reads `x`, `y` from the enclosing object | a material `{"texTiling": {"x": 2, "y": 2}}` gets tiling (0, 0) | tiling (2, 2) | high, not executed | SceneLoader.TilingObjectFormIsLost | SceneLoader.Vec2RoundTrip |
| src/raygen/objreader.cpp:303-343 | a reference without `/` skips both attribute checks | an object with texcoords and normals, then `f 4 5 6`: accepted, giving three vertices without texcoords or normals | such a face is refused like `f 4/ 5/ 6/` is | medium, not executed | ObjText.SlashlessFaceAccepted | ObjText.CorrectedScanIsUniform |
| src/raygen/objreader.cpp:303-343 | on an object's first face, each reference may set the attribute flags on its own | `f 1 2/2 3/3` as a first face: accepted with texcoords, and the first corner's texcoord index is never written | every reference of a face has numbers in the same slots; the model's rule lets the first reference fix them, one consistent choice (the program shows only that mixed first faces read indexes they never wrote) | medium, not executed | ObjText.MixedFirstFaceAccepted | ObjText.AcceptedFaceIsUniform |
| src/raygen/objreader.cpp:295-362 | the index of a fifth reference is stored into the four-entry arrays before the count is checked | `f 1 2 3 4 5` writes past the arrays | refuse a fifth reference before storing it | high, not executed | ObjText.FifthReferenceOverflows | ObjText.CorrectedScanIsUniform |
| src/raygen/objreader.cpp:35-43 | `ObjMaterial::reset` does not clear the transparency | `newmtl glass`, `Tf 0 0 0`, `newmtl wood`: wood has transparency 1 | every `newmtl` starts from transparency 0 | high, not executed | ObjText.TransparencyCarriesOver | ObjText.Reset |
| src/raygen/objreader.cpp:582 | library lines are read with `readLine`, which does not update `lineLength`, so tags are tested against the `mtllib` line's length | after `mtllib a.mtl` (12 characters), `map_t_normal n.png` is not recognised | test each library line against its own length | medium, not executed | ObjText.StaleLengthHidesNormalMap | ObjText.NormalMapLine |
| src/raygen/rayrenderer.cpp:217 | each new instance's tree is filled from `meshTriangles[mesh]`, which accumulates the triangles of every object sharing the mesh | two objects sharing a two-triangle mesh: the second object's tree holds four triangles, two transformed by the first object's matrix | each tree holds its own instance's triangles | high, not executed | RayRenderers.SharedMeshTreeHoldsOtherObject | RayRenderers.AddMeshConsistent |
| src/raygen/rayrenderer.cpp:278 | the tree level is `(int)log10(size - 1)` with an unsigned `size`: an empty list asks for 19 levels, and one triangle converts minus infinity to `int` | a mesh with no triangles | no subdivision below two triangles | high, not executed | RayRenderers.EmptyMeshTreeLevel | RayRenderers.TreeSplitThreshold |
| src/raygen/meshloader.cpp:76 | after a tagged header `load` seeks to the header's length as an absolute position | a mesh saved after one cell of other data, with a first position other than zero, loads with that position zero | seek relative to where the mesh starts | low (callers start meshes at position 0), not executed | MeshRoundTrip.AbsoluteSeekLosesPositions | MeshRoundTrip.SaveLoadRoundTrip |
| src/raygen/cubetex.cpp:53 | `paveFaces` puts the Left face at (0, w) instead of (0, h) | faces 2×1: Left lands on the bottom row; faces 3×1: Left lies outside the 12×3 canvas | Left beside Forward on the middle row | medium (faces are square in practice), not executed | CubeTextures.PavementAsWrittenMisplacesLeft | CubeTextures.PavementIsACross |
