/**
 * Volume-condition set bundles (VcSetFiles): for one volume condition,
 * the face and cell set files its `tid` asks for, and the routing of faces
 * and cells into them.
 */
module VcSets {
  import opened Text
  import opened VcTypes
  import opened Records
  import opened Zones
  import opened FoamFiles
  import opened FileNames

  /** PWGM_CONDDATA: a condition's name, id, type name and type tag. */
  datatype CondData = CondData(name: string, id: nat, condType: string, tid: u32)

  /** A block of the grid: its volume condition and its number of cells. */
  datatype Block = Block(cond: CondData, elemCount: nat)

  /** PWGM_ENUM_FACETYPE; `OtherFace` stands for any other value. */
  datatype FaceType = BoundaryFace | InteriorFace | ConnectionFace | OtherFace

  /** Which set files a bundle has, and whether one file serves both face roles. */
  datatype SetPlan = SetPlan(interior: bool, boundary: bool, shared: bool, cells: bool)

  /** The allocation rule of the VcSetFiles constructor, tested in the source's order. */
  function PlanFor(tid: u32): SetPlan {
    var cells := HasAny(tid, VcCells);
    if HasAll(tid, VcIBFaces) then SetPlan(true, true, false, cells)
    else if HasAll(tid, VcFaces) then SetPlan(true, true, true, cells)
    else if HasAny(tid, VcIFaces) then SetPlan(true, false, false, cells)
    else if HasAny(tid, VcBFaces) then SetPlan(false, true, false, cells)
    else SetPlan(false, false, false, cells)
  }

  /**
   * The plan follows the bits: an interior face file exactly when the
   * interior bit is set, a boundary face file exactly when the boundary bit
   * is, one shared file exactly when both are set without the split bit,
   * and a cell file exactly when the cell bit is. The split bit alone
   * changes nothing, and an unspecified condition gets no files.
   */
  lemma PlanFollowsBits(tid: u32)
    ensures PlanFor(tid).interior <==> HasAny(tid, VcIFaces)
    ensures PlanFor(tid).boundary <==> HasAny(tid, VcBFaces)
    ensures PlanFor(tid).shared <==> HasAll(tid, VcFaces) && !HasAny(tid, VcSplit)
    ensures PlanFor(tid).cells <==> HasAny(tid, VcCells)
    ensures PlanFor(tid).shared ==> PlanFor(tid).interior && PlanFor(tid).boundary
    ensures PlanFor(tid | VcSplit) == PlanFor(tid) || HasAll(tid, VcFaces)
  {
  }

  /** The name suffixes of the three kinds of set file. */
  const SfxIFaces: string := "-interiorFaces"
  const SfxBFaces: string := "-boundaryFaces"
  const SfxFaces: string := "-faces"
  const SfxCells: string := "-cells"

  /** `name` was made by uniqueSafeFileName from `vcName` and `suffix` against names `used`. */
  ghost predicate NamedAfter(name: string, vcName: string, suffix: string, used: set<string>) {
    name !in used &&
    exists k: nat :: (name == Candidate(Sanitized(vcName) + suffix, k) &&
                      forall j :: 0 <= j < k ==> Candidate(Sanitized(vcName) + suffix, j) in used)
  }

  /** What writeAddress changes of a file, as a value. */
  datatype FileState = FileState(isOpen: bool, objectName: string, content: seq<string>, numItems: nat)

  function StateOf(f: FoamFile): FileState
    reads f
  {
    FileState(f.isOpen, f.objectName, f.content, f.numItems)
  }

  /** `t` is `s` after one writeAddress(addr): a record when open, and one more item either way. */
  predicate AddressWritten(s: FileState, t: FileState, addr: nat) {
    t.isOpen == s.isOpen && t.objectName == s.objectName &&
    t.content == s.content + IfOpen(s.isOpen, [AddressChunk(addr, s.numItems)]) &&
    t.numItems == (s.numItems + 1) % U32Range
  }

  /** `t` is `s` after writeAddress(addr) twice. */
  predicate AddressWrittenTwice(s: FileState, t: FileState, addr: nat) {
    t.isOpen == s.isOpen && t.objectName == s.objectName &&
    t.content == s.content + IfOpen(s.isOpen, [AddressChunk(addr, s.numItems),
                                               AddressChunk(addr, (s.numItems + 1) % U32Range)]) &&
    t.numItems == (s.numItems + 2) % U32Range
  }

  /** Two writes of the same address, one after the other. */
  lemma AddressWrittenTwiceOver(s0: FileState, s1: FileState, s2: FileState, addr: nat)
    requires AddressWritten(s0, s1, addr) && AddressWritten(s1, s2, addr)
    ensures AddressWrittenTwice(s0, s2, addr)
  {
    WrapAdd(s0.numItems + 1, 1);
    IfOpenAppend(s0.isOpen, s0.content, [AddressChunk(addr, s0.numItems)], [AddressChunk(addr, s1.numItems)]);
  }

  /** A set file after it was written one address. */
  twostate predicate WroteAddress(f: FoamFile, addr: nat)
    reads f
  {
    f.Valid() && AddressWritten(old(StateOf(f)), StateOf(f), addr)
  }

  /** A set file after it was written the same address twice. */
  twostate predicate WroteAddressTwice(f: FoamFile, addr: nat)
    reads f
  {
    f.Valid() && AddressWrittenTwice(old(StateOf(f)), StateOf(f), addr)
  }

  /** A file after close. */
  twostate predicate ClosedFrom(f: FoamFile)
    reads f
  {
    f.Valid() && !f.isOpen && f.objectName == old(f.objectName) && f.numItems == old(f.numItems) &&
    (old(f.isOpen) ==> old(f.pos) < |old(f.content)| &&
                       f.content == ClosedText(f.kind, old(f.content), old(f.pos), old(f.numItems))) &&
    (!old(f.isOpen) ==> f.content == old(f.content))
  }

  /** The lines of set file `name` in the sets directory, if it exists. */
  function ReadSet(disk: map<string, seq<string>>, name: string): Option<seq<string>> {
    if name in disk then Some(disk[name]) else None
  }

  /**
   * The zone entries writeSet appends for the set files `names`, the
   * first written when the zone file already holds `numItems` entries.
   */
  function ZoneEntries(numItems: nat, names: seq<string>, zoneObject: string, faceZone: bool,
                       disk: map<string, seq<string>>): seq<string>
    decreases |names|
  {
    if names == [] then []
    else ZoneEntry(numItems, names[0], zoneObject, faceZone, SpliceOf(ReadSet(disk, names[0])))
         + ZoneEntries((numItems + 1) % U32Range, names[1..], zoneObject, faceZone, disk)
  }

  class VcSetFiles {
    /** internalFaceSetFile_, boundaryFaceSetFile_, cellSetFile_ (null when absent). */
    const internalFaceSetFile: FoamFile?
    const boundaryFaceSetFile: FoamFile?
    const cellSetFile: FoamFile?

    /** The set files this bundle owns. */
    function Files(): set<FoamFile> {
      (if internalFaceSetFile != null then {internalFaceSetFile} else {}) +
      (if boundaryFaceSetFile != null then {boundaryFaceSetFile} else {}) +
      (if cellSetFile != null then {cellSetFile} else {})
    }

    /** The face set files, each once even when it serves both roles. */
    function FaceFiles(): seq<FoamFile> {
      (if internalFaceSetFile != null then [internalFaceSetFile] else []) +
      (if boundaryFaceSetFile != null && boundaryFaceSetFile != internalFaceSetFile
       then [boundaryFaceSetFile] else [])
    }

    /** The bundle holds exactly the files `plan` asks for, one file for both face roles when shared. */
    predicate Follows(plan: SetPlan) {
      (internalFaceSetFile != null <==> plan.interior) &&
      (boundaryFaceSetFile != null <==> plan.boundary) &&
      (cellSetFile != null <==> plan.cells) &&
      (plan.interior && plan.boundary ==> (internalFaceSetFile == boundaryFaceSetFile <==> plan.shared))
    }

    ghost predicate Valid()
      reads Files()
    {
      (forall f :: f in Files() ==> f.Valid() && f.kind == Address) &&
      (cellSetFile != null ==> cellSetFile != internalFaceSetFile && cellSetFile != boundaryFaceSetFile)
    }

    /** The names of the face set files. */
    function FaceNames(): set<string>
      reads Files()
    {
      (if internalFaceSetFile != null then {internalFaceSetFile.objectName} else {}) +
      (if boundaryFaceSetFile != null then {boundaryFaceSetFile.objectName} else {})
    }

    /** The names of all set files of the bundle. */
    function Names(): set<string>
      reads Files()
    {
      FaceNames() + (if cellSetFile != null then {cellSetFile.objectName} else {})
    }

    /**
     * VcSetFiles(vc, usedNames): the set files PlanFor(vc.tid) asks for,
     * created in the source's order (interior, boundary, cells), each
     * opened under a unique name made from the condition's name and its
     * suffix, each name recorded before the next is chosen. `canCreate` is
     * the file system's answer, file by file, to whether a set file of that
     * name can be created.
     */
    constructor (vc: CondData, usedNames: NameRegistry, canCreate: string -> bool)
      modifies usedNames
      ensures Valid() && fresh(Files())
      ensures Follows(PlanFor(vc.tid))
      ensures internalFaceSetFile != null ==> SetFileReady(internalFaceSetFile, "faceSet", canCreate)
      ensures boundaryFaceSetFile != null ==> SetFileReady(boundaryFaceSetFile, "faceSet", canCreate)
      ensures cellSetFile != null ==> SetFileReady(cellSetFile, "cellSet", canCreate)
      ensures internalFaceSetFile != null ==> NamedAfter(internalFaceSetFile.objectName, vc.name,
        if PlanFor(vc.tid).shared then SfxFaces else SfxIFaces, old(usedNames.usedNames))
      ensures boundaryFaceSetFile != null && boundaryFaceSetFile != internalFaceSetFile ==>
        NamedAfter(boundaryFaceSetFile.objectName, vc.name, SfxBFaces,
          old(usedNames.usedNames) + (if internalFaceSetFile != null then {internalFaceSetFile.objectName} else {}))
      ensures cellSetFile != null ==> NamedAfter(cellSetFile.objectName, vc.name, SfxCells,
        old(usedNames.usedNames) + FaceNames())
      ensures usedNames.usedNames == old(usedNames.usedNames) + Names()
    {
      var iFile, bFile := OpenFaceSetFiles(vc, usedNames, canCreate);
      ghost var used1 := usedNames.usedNames;
      var cFile := OpenCellSetFile(vc, usedNames, canCreate);
      assert cFile != null ==> cFile != iFile && cFile != bFile;
      ghost var faceNames := (if iFile != null then {iFile.objectName} else {}) +
                             (if bFile != null then {bFile.objectName} else {});
      assert used1 == old(usedNames.usedNames) + faceNames;
      internalFaceSetFile := iFile;
      boundaryFaceSetFile := bFile;
      cellSetFile := cFile;
      new;
      assert FaceNames() == faceNames;
    }

    /** The file a face of this type goes to, if any. */
    function Target(faceType: FaceType): FoamFile? {
      match faceType
      case BoundaryFace => boundaryFaceSetFile
      case ConnectionFace => boundaryFaceSetFile
      case InteriorFace => internalFaceSetFile
      case OtherFace => null
    }

    /**
     * VcSetFiles::addFace: boundary and connection faces go to the
     * boundary face file, interior faces to the interior one; nothing
     * happens where that file is absent or for any other face type.
     * When one file serves both roles, both kinds of face end up in it.
     */
    method AddFace(faceType: FaceType, face: nat)
      requires Valid()
      modifies if Target(faceType) != null then {Target(faceType)} else {}
      ensures Valid()
      ensures Target(faceType) != null ==> WroteAddress(Target(faceType), face)
    {
      match faceType {
        case BoundaryFace =>
          if boundaryFaceSetFile != null {
            boundaryFaceSetFile.WriteAddress(face);
          }
        case ConnectionFace =>
          if boundaryFaceSetFile != null {
            boundaryFaceSetFile.WriteAddress(face);
          }
        case InteriorFace =>
          if internalFaceSetFile != null {
            internalFaceSetFile.WriteAddress(face);
          }
        case OtherFace =>
      }
    }

    /** VcSetFiles::hasCellSetFile */
    predicate HasCellSetFile() {
      cellSetFile != null
    }

    /** VcSetFiles::pushCell: the cell goes to the cell set file, if there is one. */
    method PushCell(cell: nat)
      requires Valid()
      modifies Files()
      ensures Valid()
      ensures cellSetFile != null ==> WroteAddress(cellSetFile, cell)
      ensures forall f :: f in Files() && f != cellSetFile ==> unchanged(f)
    {
      if cellSetFile != null {
        cellSetFile.WriteAddress(cell);
      }
    }

    /** The names of the face set files, each once. */
    function FaceSetNames(): seq<string>
      reads Files()
    {
      (if internalFaceSetFile != null then [internalFaceSetFile.objectName] else []) +
      (if boundaryFaceSetFile != null && boundaryFaceSetFile != internalFaceSetFile
       then [boundaryFaceSetFile.objectName] else [])
    }

    /**
     * VcSetFiles::addFaceSetsToZonesFile: one face zone per face set
     * file; a shared file gives a single zone.
     */
    method AddFaceSetsToZonesFile(zoneFile: FoamFile, disk: map<string, seq<string>>)
      requires Valid() && zoneFile.Valid() && zoneFile.kind == Zone(true) && zoneFile !in Files()
      modifies zoneFile
      ensures zoneFile.Valid() && zoneFile.isOpen == old(zoneFile.isOpen)
      ensures zoneFile.objectName == old(zoneFile.objectName)
      ensures zoneFile.content == old(zoneFile.content) + IfOpen(zoneFile.isOpen,
        ZoneEntries(old(zoneFile.numItems), FaceSetNames(), zoneFile.objectName, true, disk))
      ensures zoneFile.numItems == (old(zoneFile.numItems) + |FaceSetNames()|) % U32Range
    {
      var names := FaceSetNames();
      WriteZoneSets(zoneFile, names, disk);
      assert FaceSetNames() == names;
    }

    /** The names of the cell set file, if any. */
    function CellSetNames(): seq<string>
      reads Files()
    {
      if cellSetFile != null then [cellSetFile.objectName] else []
    }

    /** VcSetFiles::addCellSetToZonesFile: one cell zone for the cell set file, if any. */
    method AddCellSetToZonesFile(zoneFile: FoamFile, disk: map<string, seq<string>>)
      requires Valid() && zoneFile.Valid() && zoneFile.kind == Zone(false) && zoneFile !in Files()
      modifies zoneFile
      ensures zoneFile.Valid() && zoneFile.isOpen == old(zoneFile.isOpen)
      ensures zoneFile.objectName == old(zoneFile.objectName)
      ensures zoneFile.content == old(zoneFile.content) + IfOpen(zoneFile.isOpen,
        ZoneEntries(old(zoneFile.numItems), CellSetNames(), zoneFile.objectName, false, disk))
      ensures zoneFile.numItems == (old(zoneFile.numItems) + |CellSetNames()|) % U32Range
    {
      if cellSetFile != null {
        WriteZoneSet(zoneFile, cellSetFile.objectName, disk);
      }
    }

    /** VcSetFiles::finalizeFaceSets: close each face set file once. */
    method FinalizeFaceSets()
      requires Valid()
      modifies Files()
      ensures Valid()
      ensures forall f :: f in FaceFiles() ==> ClosedFrom(f)
      ensures cellSetFile != null ==> unchanged(cellSetFile)
    {
      if internalFaceSetFile != null {
        internalFaceSetFile.Close();
      }
      if boundaryFaceSetFile != null && internalFaceSetFile != boundaryFaceSetFile {
        boundaryFaceSetFile.Close();
      }
      assert internalFaceSetFile != null ==> internalFaceSetFile.Valid();
      assert boundaryFaceSetFile != null ==> boundaryFaceSetFile.Valid();
    }

    /** VcSetFiles::finalizeCellSet: close the cell set file, if any. */
    method FinalizeCellSet()
      requires Valid()
      modifies Files()
      ensures Valid()
      ensures cellSetFile != null ==> ClosedFrom(cellSetFile)
      ensures forall f :: f in Files() && f != cellSetFile ==> unchanged(f)
    {
      if cellSetFile != null {
        cellSetFile.Close();
      }
    }
  }

  /** A set file of class `cls` just opened, empty so far. */
  ghost predicate SetFileReady(f: FoamFile, cls: string, canCreate: string -> bool)
    reads f
  {
    f.Valid() && f.kind == Address && f.cls == cls && f.location == "constant/polyMesh/sets" &&
    f.isOpen == canCreate(f.objectName) && f.numItems == 0
  }

  /** The face set files of the VcSetFiles constructor (its first four branches). */
  method OpenFaceSetFiles(vc: CondData, usedNames: NameRegistry, canCreate: string -> bool)
    returns (iFile: FoamFile?, bFile: FoamFile?)
    modifies usedNames
    ensures var plan := PlanFor(vc.tid);
      (iFile != null <==> plan.interior) && (bFile != null <==> plan.boundary) &&
      (plan.interior && plan.boundary ==> (iFile == bFile <==> plan.shared))
    ensures iFile != null ==> (fresh(iFile) && SetFileReady(iFile, "faceSet", canCreate) &&
      NamedAfter(iFile.objectName, vc.name, if PlanFor(vc.tid).shared then SfxFaces else SfxIFaces,
                 old(usedNames.usedNames)))
    ensures bFile != null && bFile != iFile ==> (fresh(bFile) && SetFileReady(bFile, "faceSet", canCreate) &&
      NamedAfter(bFile.objectName, vc.name, SfxBFaces,
                 old(usedNames.usedNames) + (if iFile != null then {iFile.objectName} else {})))
    ensures bFile != null ==> fresh(bFile) && SetFileReady(bFile, "faceSet", canCreate)
    ensures usedNames.usedNames == old(usedNames.usedNames) +
      (if iFile != null then {iFile.objectName} else {}) + (if bFile != null then {bFile.objectName} else {})
  {
    iFile, bFile := null, null;
    if HasAll(vc.tid, VcIBFaces) {
      iFile := OpenSetFile("faceSet", vc.name, SfxIFaces, usedNames, canCreate);
      bFile := OpenSetFile("faceSet", vc.name, SfxBFaces, usedNames, canCreate);
    } else if HasAll(vc.tid, VcFaces) {
      iFile := OpenSetFile("faceSet", vc.name, SfxFaces, usedNames, canCreate);
      bFile := iFile;
    } else if HasAny(vc.tid, VcIFaces) {
      iFile := OpenSetFile("faceSet", vc.name, SfxIFaces, usedNames, canCreate);
    } else if HasAny(vc.tid, VcBFaces) {
      bFile := OpenSetFile("faceSet", vc.name, SfxBFaces, usedNames, canCreate);
    }
  }

  /** The cell set file of a bundle, made when the condition asks for cells. */
  method OpenCellSetFile(vc: CondData, usedNames: NameRegistry, canCreate: string -> bool) returns (cFile: FoamFile?)
    modifies usedNames
    ensures cFile != null <==> PlanFor(vc.tid).cells
    ensures cFile != null ==> (fresh(cFile) && SetFileReady(cFile, "cellSet", canCreate) &&
      NamedAfter(cFile.objectName, vc.name, SfxCells, old(usedNames.usedNames)))
    ensures usedNames.usedNames == old(usedNames.usedNames) + (if cFile != null then {cFile.objectName} else {})
  {
    cFile := null;
    if HasAny(vc.tid, VcCells) {
      cFile := OpenSetFile("cellSet", vc.name, SfxCells, usedNames, canCreate);
    }
  }

  /** A set file of class `cls`, opened under a unique name made from `vcName` and `suffix`. */
  method OpenSetFile(cls: string, vcName: string, suffix: string, usedNames: NameRegistry, canCreate: string -> bool)
    returns (f: FoamFile)
    requires suffix != ""
    modifies usedNames
    ensures fresh(f) && SetFileReady(f, cls, canCreate)
    ensures NamedAfter(f.objectName, vcName, suffix, old(usedNames.usedNames))
    ensures usedNames.usedNames == old(usedNames.usedNames) + {f.objectName}
  {
    f := NewSetFile(cls);
    var name := usedNames.UniqueSafeFileName(vcName, suffix);
    var k: nat :| name == Candidate(Sanitized(vcName) + suffix, k);
    assert |name| >= |suffix|;
    var _ := f.Open(Some(name), canCreate(name));
  }

  /** One writeSet call, for the set file `name` as found in the sets directory. */
  method WriteZoneSet(zoneFile: FoamFile, name: string, disk: map<string, seq<string>>)
    requires zoneFile.Valid() && zoneFile.kind.Zone?
    modifies zoneFile
    ensures zoneFile.Valid() && zoneFile.isOpen == old(zoneFile.isOpen)
    ensures zoneFile.objectName == old(zoneFile.objectName)
    ensures zoneFile.content == old(zoneFile.content) + IfOpen(zoneFile.isOpen,
      ZoneEntries(old(zoneFile.numItems), [name], zoneFile.objectName, zoneFile.kind.faceZone, disk))
    ensures zoneFile.numItems == (old(zoneFile.numItems) + 1) % U32Range
  {
    ZoneEntriesOne(zoneFile.numItems, name, zoneFile.objectName, zoneFile.kind.faceZone, disk);
    var _ := zoneFile.WriteSet(name, ReadSet(disk, name));
  }

  /** The writeSet calls for up to two set files, in order. */
  method WriteZoneSets(zoneFile: FoamFile, names: seq<string>, disk: map<string, seq<string>>)
    requires zoneFile.Valid() && zoneFile.kind.Zone? && |names| <= 2
    modifies zoneFile
    ensures zoneFile.Valid() && zoneFile.isOpen == old(zoneFile.isOpen)
    ensures zoneFile.objectName == old(zoneFile.objectName)
    ensures zoneFile.content == old(zoneFile.content) + IfOpen(zoneFile.isOpen,
      ZoneEntries(old(zoneFile.numItems), names, zoneFile.objectName, zoneFile.kind.faceZone, disk))
    ensures zoneFile.numItems == (old(zoneFile.numItems) + |names|) % U32Range
  {
    if |names| == 2 {
      assert names == [names[0], names[1]];
      WriteTwoZoneSets(zoneFile, names[0], names[1], disk);
    } else if |names| == 1 {
      assert names == [names[0]];
      WriteZoneSet(zoneFile, names[0], disk);
    } else {
      assert zoneFile.content == zoneFile.content + IfOpen(zoneFile.isOpen, []);
    }
  }

  /** Two zone entries, in order. */
  method WriteTwoZoneSets(zoneFile: FoamFile, a: string, b: string, disk: map<string, seq<string>>)
    requires zoneFile.Valid() && zoneFile.kind.Zone?
    modifies zoneFile
    ensures zoneFile.Valid() && zoneFile.isOpen == old(zoneFile.isOpen)
    ensures zoneFile.objectName == old(zoneFile.objectName)
    ensures zoneFile.content == old(zoneFile.content) + IfOpen(zoneFile.isOpen,
      ZoneEntries(old(zoneFile.numItems), [a, b], zoneFile.objectName, zoneFile.kind.faceZone, disk))
    ensures zoneFile.numItems == (old(zoneFile.numItems) + 2) % U32Range
  {
    ghost var n0, c0 := zoneFile.numItems, zoneFile.content;
    WriteZoneSet(zoneFile, a, disk);
    ghost var n1 := zoneFile.numItems;
    WriteZoneSet(zoneFile, b, disk);
    ZoneEntriesTwo(n0, a, b, zoneFile.objectName, zoneFile.kind.faceZone, disk);
    IfOpenAppend(zoneFile.isOpen, c0, ZoneEntries(n0, [a], zoneFile.objectName, zoneFile.kind.faceZone, disk),
                 ZoneEntries(n1, [b], zoneFile.objectName, zoneFile.kind.faceZone, disk));
    WrapAdd(n0 + 1, 1);
  }

  /** ZoneEntries of one name is that name's entry. */
  lemma ZoneEntriesOne(n: nat, a: string, zoneObject: string, faceZone: bool, disk: map<string, seq<string>>)
    ensures ZoneEntries(n, [a], zoneObject, faceZone, disk) == ZoneEntry(n, a, zoneObject, faceZone, SpliceOf(ReadSet(disk, a)))
  {
    assert [a][1..] == [];
  }

  /** ZoneEntries of two names: the second entry is written when the zone file holds one more. */
  lemma ZoneEntriesTwo(n: nat, a: string, b: string, zoneObject: string, faceZone: bool, disk: map<string, seq<string>>)
    ensures ZoneEntries(n, [a, b], zoneObject, faceZone, disk) ==
      ZoneEntries(n, [a], zoneObject, faceZone, disk) + ZoneEntries((n + 1) % U32Range, [b], zoneObject, faceZone, disk)
  {
    assert [a, b][1..] == [b];
    ZoneEntriesOne(n, a, zoneObject, faceZone, disk);
  }
}
