# OpenFOAM polyMesh exporter — a Dafny model

This project models the core of the Pointwise CAE plugin that writes an
unstructured grid as an OpenFOAM `constant/polyMesh` case
(`runtimeWrite.cxx`, with the volume-condition tag bits of `vctypes.h`).
The model covers the following:

- **Text.** How numbers and labels are printed: `%lu`, `%-10lu` and `%W.Ps`.
- **FoamFile.** The one output-file class and its subclasses, folded into a
  single Dafny class with a `kind`:
  - `open` writes the FoamFile header and a 10-character placeholder for the item count.
  - `close` writes the count back into that slot, modulo 2^32, as `PWP_UINT32` does.
  - Address files break rows every ten labels and close a partial row.
- **Record formats.**
  - faces: reversed winding, and 2D bars extruded to quads;
  - owner, neighbour and sets: labels in rows of ten;
  - boundary: one six-line entry per run;
  - cellZones and faceZones: `writeSet` copies a set file's label block into the zone file.
- **Set file names.** Names are sanitized (`safeFileName`) and made unique
  (`uniqueSafeFileName`) against the names already used.
- **VcSetFiles.** For each volume condition, the face and cell set files its
  `tid` bits ask for, and which face or cell goes to which file.
- **OpenFoamPlugin.** The exporter's own state:
  - the export flags and the sets-directory predicates;
  - `prepareVcSetFiles`: one bundle per distinct condition name, and a map from block to bundle;
  - `pushBcFace`: the boundary runs;
  - the face-stream callbacks `streamBegin` and `streamFace`, with the face-set
    routing of `adjustFaceType` and `addFaceToSet`;
  - in 2D, the extruded base and top layers (`writeFaces(faceOffset, vertOffset)`,
    `getElementCond`, `offsetVertices`).

How the file system is modelled:

- An output file is a `FoamFile` object. Its `content` is the sequence of
  chunks written to it, in order.
- Writes to a file that is not open add nothing to `content` but still
  advance the item counter. The source does not guard these writes: it
  passes a null `FILE*` to `fprintf` (see "## Left out").
- Whether a file can be created is a `canCreate` parameter: one flag per polyMesh file
  for the three streamed files, and a function from file name to flag for the set
  files, so each set file opens or fails on its own.
- The existing set files that `writeSet` reads are a `disk` map from file
  name to lines.
- The host grid API becomes plain values: the blocks with their
  conditions, the streamed face data, and the elements of a layer. The
  block id `PWP_UINT32_MAX` is kept as `NoBlock`.

Notes on the exporter's behaviour:

- `prepareVcSetFiles` makes a bundle for every distinct volume condition,
  even one with `tid == 0` (`runtimeWrite.cxx:1945-1962`). Such a bundle
  holds no set files.
- A connection face whose two blocks share one bundle is written twice to
  that bundle's boundary face file. `addFaceToSet` calls `addFace` once for
  the owner and once for the neighbour (`runtimeWrite.cxx:1995-2010`).
  `AddStreamedFaceToSet` states this case (`WroteAddressTwice`).

## Model

| member | source | states |
|---|---|---|
| Text.NatToStringRoundTrip | runtimeWrite.cxx:698-705 | a label printed with `%lu` is a non-empty string of decimal digits that reads back as the same number |
| Text.NatToStringInjective | runtimeWrite.cxx:698-705 | two different labels never print as the same text |
| Text.NatToStringLength | runtimeWrite.cxx:447-461 | a value below 10^k prints in at most k digits |
| Text.PadRightShape | runtimeWrite.cxx:452 | `%-10lu`: the digits, then spaces up to width 10; a longer value is kept whole |
| Text.FormatStrShape | runtimeWrite.cxx:922-929 | `%W.Ps`: the string cut to P characters, then right-aligned in width W with leading spaces |
| VcTypes.IsUnspecifiedVc | runtimeWrite.cxx:2115-2118 | true exactly when `tid` is `VcNone`; such a condition has none of the four bits |
| VcTypes.IsCellVc | runtimeWrite.cxx:2103-2107 | true exactly when the cells bit is set |
| VcTypes.IsFaceVc | runtimeWrite.cxx:2109-2113 | true exactly when the interior-faces or the boundary-faces bit is set |
| VcTypes.BaseTagsAreDistinctBits | vctypes.h:21-34 | interior faces, boundary faces, split and cells are four different single bits |
| VcTypes.FacesNeedsBothBits | vctypes.h:36-37 | a tid has all of `VcFaces` exactly when it has both face bits |
| VcTypes.SplitImpliesFaces | vctypes.h:30-40 | `VcIBFaces` includes `VcFaces`, and `VcFaces` alone is not `VcIBFaces` |
| VcTypes.CombinedTags | vctypes.h:37-52 | each combined tag is the union of its parts; masking with `VcIBFaces` recovers its face part |
| Records.ReverseAt | runtimeWrite.cxx:629-667 | position k of the reversed label list holds label n-1-k |
| Records.WindingIsReversed | runtimeWrite.cxx:618-667 | a quad or tri, in 2D and 3D export alike, and a bar in 3D export, is written with its vertices in reverse order and its own vertex count; any other element writes nothing |
| Records.BarExtrudesToQuad | runtimeWrite.cxx:648-656 | in 2D a bar (a, b) becomes the face (a, b, b+n, a+n) with count vertCnt+2, n being the vertex count |
| Records.OffsetFaceKeepsOrder | runtimeWrite.cxx:1605-1622 | after offsetVertices the writer's reversal is undone: a quad or tri yields its original labels, each shifted by the offset, in the original order |
| Records.AddressChunksPeriodic | runtimeWrite.cxx:707-710 | where the row breaks fall depends only on the item count modulo 10 |
| Records.AddressChunksSplit | runtimeWrite.cxx:698-705 | writing labels a and then b produces the chunks of a followed by those of b, with b's row breaks taken from the count after a |
| Records.AddressBodyIsRows | runtimeWrite.cxx:698-720 | the labels written one by one plus the closing newline give rows of ten labels, each row ending with a newline |
| Records.RowsAreShort | runtimeWrite.cxx:682 | n labels make ceil(n/10) rows of 1 to 10 labels each |
| Records.CountFieldWidth | runtimeWrite.cxx:439-452 | the placeholder and any 32-bit count both take 11 characters, so the count overwrites the placeholder exactly |
| Zones.SkipSpaces | runtimeWrite.cxx:894 | sscanf's leading ` ` skips exactly the whitespace run |
| Zones.DigitsEnd | runtimeWrite.cxx:894 | `%lu` reads exactly the run of digits |
| Zones.Visible | runtimeWrite.cxx:889-906 | the lines the fgets/eof loops can see form a prefix of the file |
| Zones.FindCount | runtimeWrite.cxx:889-899 | the first line at or after i that sscanf reads as a count; no line before it does |
| Zones.FindClose | runtimeWrite.cxx:900-906 | the first line at or after i that holds `)`; no line before it does |
| Zones.SpliceOf | runtimeWrite.cxx:886-910 | a missing set file copies nothing, with count 0, and writeSet returns false |
| Zones.ClosedSetFileText | runtimeWrite.cxx:426-461 | the chunks FoamFile.WriteAddressFile leaves in a set file concatenate to the header, the count line, `(`, the rows of ten, and `)` |
| Zones.CountFieldScans | runtimeWrite.cxx:894 | the count line that close writes is read back by ` %lu \n` as that count; it ends with a newline and has no `)` |
| Zones.RowsPlain | runtimeWrite.cxx:698-720 | every row of labels ends with a newline and holds no `)` |
| Zones.HeaderNeverScans | runtimeWrite.cxx:513-525 | no FoamFile header line reads as a count |
| Zones.SpliceAfterHeader | runtimeWrite.cxx:886-910 | after header lines that never scan, writeSet copies from the count line through the first line with `)`, with that count, and returns true |
| Zones.SpliceRoundTrip | runtimeWrite.cxx:850-918 | for a set file this exporter wrote and closed, writeSet copies its whole label block, takes the number of labels as the count, and returns true |
| Zones.PrefixOfLongName | runtimeWrite.cxx:922-929 | for an object name of 8 or more characters the prefix lines use its first 8 and its first 4 characters |
| Zones.ZonePrefix | runtimeWrite.cxx:922-929 | a zone file named `<kind>Zones` with a four-letter kind has entries typed `<kind>Zone` listing `<kind>Labels List<label>`: `type cellZone;` and `cellLabels` in cellZones, `type faceZone;` and `faceLabels` in faceZones |
| FoamFiles.ClosedText | runtimeWrite.cxx:447-461 | close writes the count into the count slot, keeps every other chunk, and ends the file with `)` |
| FoamFiles.BoundaryEntries | runtimeWrite.cxx:1066-1080 | six lines per boundary run |
| FoamFiles.WrapAdd | runtimeWrite.cxx:463-467 | adding to a wrapped `PWP_UINT32` counter equals wrapping the full sum |
| FoamFiles.FoamFile.constructor | runtimeWrite.cxx:393-404 | a file is created closed, empty, with no items, and with location, version and format defaulting to `constant/polyMesh`, `2.0` and `ascii` |
| FoamFiles.FoamFile.SetClass | runtimeWrite.cxx:414-417 | only the class name changes |
| FoamFiles.FoamFile.Open | runtimeWrite.cxx:426-445 | an open file is closed first; the count resets to 0; the name is replaced only when one is given; the file opens exactly when the name is non-empty and it can be created; it then holds the header, the placeholder and `(` |
| FoamFiles.FoamFile.Close | runtimeWrite.cxx:447-461 | an open file gets its count written modulo 2^32 and the closing text, then stops being open; a file that is not open stays as it is |
| FoamFiles.FoamFile.IncrNumItems | runtimeWrite.cxx:463-467 | the counter grows by `incr`, modulo 2^32, and the new value is returned |
| FoamFiles.FoamFile.Emit | runtimeWrite.cxx:487-491 | an fprintf adds the chunk when the file is open, and nothing otherwise |
| FoamFiles.FoamFile.WriteFace | runtimeWrite.cxx:618-667 | the face record of the element (see FaceChunk), counted once; an element that is not a quad, tri or bar writes and counts nothing |
| FoamFiles.FoamFile.WriteAddress | runtimeWrite.cxx:698-705 | ` label`, with a newline after every tenth label; counted whether or not the file is open |
| FoamFiles.FoamFile.WriteAddressFile | runtimeWrite.cxx:680-725 | an address file opened under a name, given fewer than 2^32 labels one by one through writeAddress, then closed: it opened exactly when the name is non-empty and creatable, counts every label, and then holds exactly the chunks ClosedSetFileText and SpliceRoundTrip are about |
| FoamFiles.ClosedAddressChunks | runtimeWrite.cxx:447-461 | closing a file that holds the opening text and the address chunks of `addrs` gives the header, the patched count, `(`, the chunks, the partial-row newline and `)` |
| FoamFiles.FoamFile.WriteBoundary | runtimeWrite.cxx:1070-1077 | the six lines of one boundary entry |
| FoamFiles.FoamFile.WriteBoundaries | runtimeWrite.cxx:1066-1080 | the entries of every run, in order, each one counted |
| FoamFiles.FoamFile.WriteZoneHead | runtimeWrite.cxx:873-881 | a blank line unless this is the first zone, then the set name, `{`, and the prefix lines |
| FoamFiles.FoamFile.CopyLabelLines | runtimeWrite.cxx:900-907 | copies lines indented by two spaces, through the first one holding `)`, or to end of file; reports which of the two happened |
| FoamFiles.FoamFile.WriteLabels | runtimeWrite.cxx:882-910 | the copied label block of the set file, its count, and the success flag |
| FoamFiles.FoamFile.WriteZoneTail | runtimeWrite.cxx:911-917 | `;`, then the flipMap line in a faceZones file, then `}` |
| FoamFiles.FoamFile.WriteSet | runtimeWrite.cxx:850-918 | one zone entry (head, copied labels, tail), counted once; the result says whether a label block ending in `)` was found |
| FoamFiles.NewPointFile | runtimeWrite.cxx:542-549 | a closed `vectorField` file named `points` |
| FoamFiles.NewFacesFile | runtimeWrite.cxx:602-610 | a closed `faceList` file named `faces`, with the 2D flag and the vertex count |
| FoamFiles.NewAddressFile | runtimeWrite.cxx:733-760 | a closed `labelList` file (owner, neighbour) |
| FoamFiles.NewSetFile | runtimeWrite.cxx:772-817 | a closed, unnamed address file of class `cellSet` or `faceSet` in `constant/polyMesh/sets` |
| FoamFiles.NewZoneFile | runtimeWrite.cxx:834-966 | a closed `regIOobject` file named `cellZones` or `faceZones` |
| FoamFiles.NewBoundaryFile | runtimeWrite.cxx:1040-1046 | a closed `polyBoundaryMesh` file named `boundary` |
| FoamFiles.SkipToCount | runtimeWrite.cxx:889-899 | the first loop of writeSet: it stops after the first line that scans as a count, with that count, or reports end of file with count 0 |
| FileNames.SanitizedShape | runtimeWrite.cxx:119-132 | same length; every character is alphanumeric or one of `-_.`; safe characters are kept and the others become `_` |
| FileNames.SanitizedFixesSafeNames | runtimeWrite.cxx:119-132 | a name is unchanged exactly when it is already safe, and sanitizing twice is the same as once |
| FileNames.SafeFileName | runtimeWrite.cxx:119-132 | the loop returns the sanitized name followed by the suffix |
| FileNames.CandidateInjective | runtimeWrite.cxx:137-151 | different attempt numbers give different names |
| FileNames.AttemptsBounded | runtimeWrite.cxx:143-148 | the search ends: attempts 0..n can all be taken only if more than n names are used |
| FileNames.NameRegistry.constructor | runtimeWrite.cxx:1292 | the plugin starts with no used names |
| FileNames.NameRegistry.UniqueSafeFileName | runtimeWrite.cxx:137-151 | the result is the first candidate (`base`, `base-1`, `base-2`, …) not already used; it is recorded, and the set grows by exactly one |
| VcSets.PlanFollowsBits | runtimeWrite.cxx:1100-1135 | an interior face file iff the interior bit is set; a boundary face file iff the boundary bit is set; one shared file iff both are set without split; a cell file iff the cells bit is set |
| VcSets.VcSetFiles.constructor | runtimeWrite.cxx:1089-1136 | the files follow the plan; each is opened under `uniqueSafeFileName(vc.name, suffix)`, in the source's order, and is open exactly when a file of that name can be created; the used names grow by exactly those names |
| VcSets.VcSetFiles.AddFace | runtimeWrite.cxx:1156-1173 | boundary and connection faces go to the boundary face file, interior faces to the interior one; an absent file or another face type writes nothing |
| VcSets.VcSetFiles.PushCell | runtimeWrite.cxx:1181-1186 | the cell goes to the cell set file, if the bundle has one; nothing else changes |
| VcSets.VcSetFiles.AddFaceSetsToZonesFile | runtimeWrite.cxx:1189-1198 | one face-zone entry per face set file, interior first; a shared file gives one entry |
| VcSets.VcSetFiles.AddCellSetToZonesFile | runtimeWrite.cxx:1201-1206 | one cell-zone entry for the cell set file, if the bundle has one |
| VcSets.VcSetFiles.FinalizeFaceSets | runtimeWrite.cxx:1209-1218 | every face set file is closed once, a shared one only once; the cell set file is untouched |
| VcSets.VcSetFiles.FinalizeCellSet | runtimeWrite.cxx:1242-1247 | the cell set file is closed; the face files are untouched |
| VcSets.OpenFaceSetFiles | runtimeWrite.cxx:1100-1127 | the four-way face-file choice of the constructor, with the names it picks |
| VcSets.OpenCellSetFile | runtimeWrite.cxx:1129-1134 | a `-cells` set file exactly when the cells bit is set |
| Extrusion.OffsetVertices | runtimeWrite.cxx:1605-1622 | in place, the array ends as OffsetIndices: the first three slots (four for a quad) grow by the offset, then a quad or tri is reversed, so that writing it gives the original order shifted (OffsetElementRecord) |
| Extrusion.OffsetElementRecord | runtimeWrite.cxx:1689-1694 | an offset quad or tri is written as the record of its labels shifted by the offset |
| Extrusion.OffsetTouchesOnlyUsedSlots | runtimeWrite.cxx:1610-1620 | slots past the used ones keep their values; non-quad elements shift exactly the first three |
| Extrusion.SideBcModeOf | runtimeWrite.cxx:1361-1363 | the attribute value maps to Unspecified, BaseTop or Multiple for 0, 2 and 3; every other value acts as Single |
| Extrusion.SideCondNaming | runtimeWrite.cxx:1651-1675 | Unspecified gives the unspecified condition; the other modes give type `empty` and tid 103; Single names both layers `BaseAndTop`; BaseTop and Multiple name the two layers differently; Multiple keeps the base name as a prefix |
| Extrusion.MultipleNamesInjective | runtimeWrite.cxx:1661-1669 | in Multiple mode, different block conditions give different side names |
| Extrusion.GetElementCond | runtimeWrite.cxx:1638-1677 | the condition is recomputed exactly when the block changes; the previous block id is updated |
| Extrusion.CalcZOrientation | runtimeWrite.cxx:293-299 | always PositiveZ or NegativeZ, never UnknownZ |
| Extrusion.ZOrientationMeaning | runtimeWrite.cxx:286-299 | PositiveZ iff the cross product's z is positive; swapping the vectors flips a non-zero result; a zero z gives NegativeZ; scaling by k > 0 changes nothing |
| Boundary.PushRunCases | runtimeWrite.cxx:1416-1431 | a new run starts when there is none or the condition name changes; otherwise only the last run grows by one face |
| Boundary.PushKeepsGrouping | runtimeWrite.cxx:1416-1431 | runs stay non-empty, and neighbouring runs have different names |
| Boundary.PushCountsOneFace | runtimeWrite.cxx:1416-1431 | one push adds exactly one face to the total |
| Boundary.RunsInvariant | runtimeWrite.cxx:1416-1431 | for any face order: the runs are well grouped, their sizes add up to the number of faces, and there is a run iff there was a face |
| Boundary.RunsFromInvariant | runtimeWrite.cxx:1416-1431 | pushing onto existing runs keeps them grouped and adds exactly the faces pushed |
| Boundary.RunsTileFaces | runtimeWrite.cxx:1416-1431 | with consecutive face ids, each run starts where the previous one ends, so the (startFace, nFaces) pairs cover the ids without gaps or overlaps |
| Exporter.ExportFlagsDecode | runtimeWrite.cxx:1351-1359 | 0, 1, 2, 3 mean none, sets only, zones only, and sets and zones; only the two low bits matter |
| Exporter.BundleCondsStep | runtimeWrite.cxx:1945-1960 | a block adds a bundle exactly when its condition name is new |
| Exporter.BundleCondsDistinct | runtimeWrite.cxx:1925-1964 | bundle names are distinct; every block's name has a bundle; every bundle is some block's condition; there are no more bundles than blocks |
| Exporter.AdjustFaceType | runtimeWrite.cxx:1971-1991 | only a connection face can change; it becomes interior exactly when both blocks have a condition with the same name |
| Exporter.OpenFoamPlugin.constructor | runtimeWrite.cxx:1283-1316 | closed faces, owner and neighbour files; no runs, bundles or used names; export flags decoded from the attributes (read at 1347-1362) |
| Exporter.OpenFoamPlugin.PushBcFace | runtimeWrite.cxx:1416-1431 | the runs become PushRun of the old runs; nothing else changes |
| Exporter.OpenFoamPlugin.PrepareVcSetFiles | runtimeWrite.cxx:1925-1964 | one bundle appended per distinct condition name, earlier bundles kept; each new bundle holds the set files its condition's tid asks for; each block maps to the bundle of its name; the cell total grows by every block's cells; always true |
| Exporter.OpenFoamPlugin.AddFaceToSet | runtimeWrite.cxx:2012-2018 | the face goes to its block's bundle, in the file for its type; an unknown block gets offset 0, as `operator[]` inserts it |
| Exporter.OpenFoamPlugin.AddBndryFaceToSet | runtimeWrite.cxx:2021-2024 | AddFaceToSet with the boundary face type |
| Exporter.OpenFoamPlugin.AddStreamedFaceToSet | runtimeWrite.cxx:1995-2010 | the type is adjusted first; the face goes to the owner's bundle and, for a connection face, to the neighbour's too (twice into one file when both bundles share it) |
| Exporter.OpenFoamPlugin.StreamBegin | runtimeWrite.cxx:1502-1516 | records the face total and whether face sets are needed; opens faces, then owner, then neighbour, stopping at the first failure: each is open exactly when the earlier ones opened and it could be created, a file after a failure is untouched; true iff all three are open |
| Exporter.OpenFoamPlugin.StreamFace | runtimeWrite.cxx:1520-1590 | the face record and owner label are written; a boundary face pushes its domain's condition onto the runs; any other face writes its neighbour label; face sets are updated only when enabled |
| Exporter.OpenFoamPlugin.WriteFaces | runtimeWrite.cxx:1680-1712 | a layer writes each element's face (offset when vertOffset > 0) and owner label; the runs grow by the element's side condition, with face id = element id + faceOffset modulo 2^32 |

## Left out

- File I/O is modelled as sequences of written chunks: fopen, fprintf, fgets, the getpos/setpos seek, the cwd stack, mkdir and rmdir. A failed seek in `close` (the count is then not rewritten) is not modelled.
- Progress reporting, error messages and the `run()` driver are left out: processPoints, processFaces, processCells, createSetsDir, the deletion of set files when only zones are exported, and the destructors (which close files and free bundles).
- The `writeFaces()` driver (runtimeWrite.cxx:1625-1635) is not modelled as one method. Each of its two calls is `WriteFaces`, with the offsets the driver computes.
- writeCellSetFiles, writeCellZonesFile, writeFaceZonesFile, finalizeFaceSets/finalizeCellSets over all bundles, and `streamEnd` are not modelled as methods. Their per-bundle steps are (PushCell, the zone-file writers, the Finalize methods, WriteBoundaries).
- Non-inflatable boundary face sets in `streamFace` (runtimeWrite.cxx:1542-1585) are not modelled, for connection faces on a valid domain. The return values of `streamFace` and `streamBegin`'s progress step are not modelled either.
- Floating point is not modelled: point coordinates and their `%.*g` formatting, thickness, calcLength, isPlanar and GridValidator. CalcZOrientation is stated over real numbers.
- Fixed-width arithmetic is modelled explicitly only for item counts and face ids (modulo 2^32). Vertex labels, offsets and `totElemCnt_` are unbounded.
- `strtoul` overflow beyond the 2^64 wrap of a negated count is not modelled, and neither is the 1023-character limit of `fgets`. Set files are taken as lines that end with a newline, as this exporter writes them.
- `PWGM_UNSPECIFIED_COND_ID` and `PWGM_UNSPECIFIED_TYPE_ID` are taken as 0. Multiple mode's static name buffer is modelled as the name itself.
- `vcNameOffset` and `adjustFaceType` compare condition names, where the source compares `const char*` pointers (it relies on the host returning one pointer per name).
- AddFaceToSet, AddBndryFaceToSet, AddStreamedFaceToSet: require at least one bundle. The source calls them only when face sets are needed, which implies this; otherwise `vcSetFiles_.at` would throw.
- WriteFaces: requires that no element's block id is `PWP_UINT32_MAX`. States the faces, owner and boundary-run contents but not what goes into the face set files.
- PrepareVcSetFiles: does not state that each added bundle is a new object, nor the names of the set files each bundle holds (the VcSetFiles constructor states those).
- StreamFace: states what goes to faces, owner, neighbour and the runs, but not what goes into the face set files (that is AddStreamedFaceToSet).
- Emit: a write to a file that is not open is modelled as a no-op. In the source, `fprintf` then gets a null `FILE*` (runtimeWrite.cxx:487-489), which can happen because the VcSetFiles constructor ignores the result of `open` (runtimeWrite.cxx:1100-1134).
- WriteAddress: a write to a file that is not open adds nothing and still counts one item. The source calls `fprintf` on a null `FILE*` before `incrNumItems()` (runtimeWrite.cxx:698-703), which is undefined behaviour.
- WriteFace: the same as WriteAddress for a faces file that is not open.
- SanitizedShape: names are taken as one character per byte (ASCII). `safeFileName` tests each byte with `isalnum` (runtimeWrite.cxx:119-132), so each byte of a multi-byte UTF-8 character becomes its own `_`. The model makes one `_` per character, so for non-ASCII names it gives a shorter name.
- SafeFileName: the same per-character reading as SanitizedShape. For non-ASCII names, lengths and collisions differ from the source's. For example, the source maps `aé` and `a__` to the same base name, so uniqueSafeFileName adds `-1` to the second; the model keeps both names without a suffix.
- SpliceRoundTrip: takes each chunk a set file was written with as one line for `fgets`. That holds when the version, format, class, location and object name hold no newline. This is the case here: the object name is sanitised and the other four are constants.
- rtCaepInitItems.h and rtCaepSupportData.h (plugin registration data) are not part of this model.
