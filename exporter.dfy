/**
 * The exporter itself (OpenFoamPlugin): the polyMesh files written while
 * faces stream, the boundary runs, the volume-condition set bundles with
 * the map from block to bundle, and the side faces of a 2D extrusion.
 * The host's grid is given as inputs: its blocks (each with its condition
 * and cell count) as a sequence, each streamed face or element as values.
 */
module Exporter {
  import opened VcTypes
  import opened Records
  import opened FoamFiles
  import opened FileNames
  import opened Boundary
  import opened VcSets
  import opened Extrusion

  /** One attribute of the CellExport/FaceExport kind: None|SetsOnly|ZonesOnly|SetsAndZones = 0|1|2|3. */
  predicate SetsBit(v: u32) {
    v & 1 != 0
  }

  predicate ZonesBit(v: u32) {
    v & 2 != 0
  }

  /**
   * The four values the attribute documents decode as their names say,
   * and only the two low bits are looked at.
   */
  lemma ExportFlagsDecode(v: u32)
    ensures !SetsBit(0) && !ZonesBit(0)
    ensures SetsBit(1) && !ZonesBit(1)
    ensures !SetsBit(2) && ZonesBit(2)
    ensures SetsBit(3) && ZonesBit(3)
    ensures SetsBit(v) == SetsBit(v & 3) && ZonesBit(v) == ZonesBit(v & 3)
  {
  }

  /** The first block's condition of each distinct condition name, in block order: one per bundle. */
  function BundleConds(blocks: seq<Block>): seq<CondData>
    decreases |blocks|
  {
    if blocks == [] then []
    else
      var d := BundleConds(blocks[..|blocks| - 1]);
      var c := blocks[|blocks| - 1].cond;
      if HasName(d, c.name) then d else d + [c]
  }

  predicate HasName(conds: seq<CondData>, name: string) {
    exists i :: 0 <= i < |conds| && conds[i].name == name
  }

  /** One more block: its condition joins the bundles exactly when its name is new. */
  lemma BundleCondsStep(blocks: seq<Block>, k: nat)
    requires k < |blocks|
    ensures var d := BundleConds(blocks[..k]);
      BundleConds(blocks[..k + 1]) == (if HasName(d, blocks[k].cond.name) then d else d + [blocks[k].cond])
    ensures forall n :: HasName(BundleConds(blocks[..k + 1]), n) <==>
      HasName(BundleConds(blocks[..k]), n) || n == blocks[k].cond.name
  {
    assert blocks[..k + 1][..k] == blocks[..k];
    var d := BundleConds(blocks[..k]);
    var c := blocks[k].cond;
    if !HasName(d, c.name) {
      forall n | HasName(d + [c], n) ensures HasName(d, n) || n == c.name {
        var i :| 0 <= i < |d + [c]| && (d + [c])[i].name == n;
        if i < |d| {
          assert d[i].name == n;
        }
      }
      forall n | HasName(d, n) ensures HasName(d + [c], n) {
        var i :| 0 <= i < |d| && d[i].name == n;
        assert (d + [c])[i].name == n;
      }
      assert (d + [c])[|d|] == c;
    }
  }

  /** No two conditions share a name. */
  ghost predicate NamesDistinct(conds: seq<CondData>) {
    forall i, j :: 0 <= i < j < |conds| ==> conds[i].name != conds[j].name
  }

  /** The total number of cells of the blocks. */
  function TotalCells(blocks: seq<Block>): nat
    decreases |blocks|
  {
    if blocks == [] then 0 else TotalCells(blocks[..|blocks| - 1]) + blocks[|blocks| - 1].elemCount
  }

  /**
   * One bundle per distinct condition name: the bundles' names are
   * pairwise different, each block's name is among them, and every bundle
   * is made from a block's own condition.
   */
  lemma {:induction false} BundleCondsDistinct(blocks: seq<Block>)
    ensures NamesDistinct(BundleConds(blocks))
    ensures forall b :: 0 <= b < |blocks| ==> HasName(BundleConds(blocks), blocks[b].cond.name)
    ensures forall k :: 0 <= k < |BundleConds(blocks)| ==>
      exists b :: 0 <= b < |blocks| && blocks[b].cond == BundleConds(blocks)[k]
    ensures |BundleConds(blocks)| <= |blocks|
    decreases |blocks|
  {
    if blocks != [] {
      var prior := blocks[..|blocks| - 1];
      BundleCondsDistinct(prior);
      BundleCoverStep(blocks);
      BundleFromBlocksStep(blocks);
    }
  }

  /** Every block's name has a bundle, one block more. */
  lemma BundleCoverStep(blocks: seq<Block>)
    requires blocks != []
    requires var prior := blocks[..|blocks| - 1];
      forall b :: 0 <= b < |prior| ==> HasName(BundleConds(prior), prior[b].cond.name)
    ensures forall b :: 0 <= b < |blocks| ==> HasName(BundleConds(blocks), blocks[b].cond.name)
  {
    var prior := blocks[..|blocks| - 1];
    var d := BundleConds(prior);
    forall b | 0 <= b < |blocks| ensures HasName(BundleConds(blocks), blocks[b].cond.name) {
      if b < |prior| {
        assert prior[b] == blocks[b];
        var i :| 0 <= i < |d| && d[i].name == blocks[b].cond.name;
        assert BundleConds(blocks)[i] == d[i];
      } else {
        if !HasName(d, blocks[b].cond.name) {
          assert BundleConds(blocks) == d + [blocks[b].cond];
          assert BundleConds(blocks)[|d|] == blocks[b].cond;
        }
      }
    }
  }

  /** Every bundle is some block's condition, one block more. */
  lemma BundleFromBlocksStep(blocks: seq<Block>)
    requires blocks != []
    requires var prior := blocks[..|blocks| - 1];
      forall k :: 0 <= k < |BundleConds(prior)| ==>
        exists b :: 0 <= b < |prior| && prior[b].cond == BundleConds(prior)[k]
    ensures forall k :: 0 <= k < |BundleConds(blocks)| ==>
      exists b :: 0 <= b < |blocks| && blocks[b].cond == BundleConds(blocks)[k]
  {
    var prior := blocks[..|blocks| - 1];
    var d := BundleConds(prior);
    forall k | 0 <= k < |BundleConds(blocks)|
      ensures exists b :: 0 <= b < |blocks| && blocks[b].cond == BundleConds(blocks)[k]
    {
      if k < |d| {
        var b :| 0 <= b < |prior| && prior[b].cond == d[k];
        assert blocks[b] == prior[b];
      } else {
        assert blocks[|blocks| - 1].cond == BundleConds(blocks)[k];
      }
    }
  }

  /**
   * adjustFaceType: a connection face between two blocks whose volume
   * conditions have the same name is an interior face; every other face
   * keeps its type. A missing condition (None) leaves the type alone, and
   * the answer does not depend on which side owns the face.
   */
  function AdjustFaceType(faceType: FaceType, ownerVc: Option<CondData>, neighborVc: Option<CondData>): (t: FaceType)
    ensures faceType != ConnectionFace ==> t == faceType
    ensures faceType == ConnectionFace ==>
      (t == InteriorFace <==> ownerVc.Some? && neighborVc.Some? && neighborVc.value.name == ownerVc.value.name)
    ensures t in {faceType, InteriorFace}
  {
    if faceType == ConnectionFace && ownerVc.Some? && neighborVc.Some? && ownerVc.value.name == neighborVc.value.name
    then InteriorFace
    else faceType
  }

  /** The condition PwBlkCondition gives for a block id, if the block exists. */
  function BlockVc(blocks: seq<Block>, blkId: nat): Option<CondData> {
    if blkId < |blocks| then Some(blocks[blkId].cond) else None
  }

  /** The neighbour's condition: none when the neighbour cell's element cannot be enumerated. */
  function NeighborVc(blocks: seq<Block>, neighborBlk: Option<nat>): Option<CondData> {
    if neighborBlk.Some? then BlockVc(blocks, neighborBlk.value) else None
  }

  /** A file, if there is one, as a set. */
  function Only(f: FoamFile?): set<FoamFile> {
    if f == null then {} else {f}
  }

  /** The bundle `blkIdOffset_[blkId]` picks: the mapped one, or 0 which operator[] inserts. */
  function OffsetOf(blkIdOffset: map<nat, nat>, blkId: nat): nat {
    if blkId in blkIdOffset then blkIdOffset[blkId] else 0
  }

  /** A prefix of a prefix is a prefix. */
  lemma PrefixOfPrefix<T>(a: seq<T>, b: seq<T>, c: seq<T>)
    requires |c| <= |b| <= |a| && a[..|b|] == b && b[..|c|] == c
    ensures a[..|c|] == c
  {
    assert a[..|c|] == a[..|b|][..|c|];
  }

  /** A bundle for condition `vc`, as the VcSetFiles constructor makes it. */
  method NewBundle(vc: CondData, usedFileNames: NameRegistry, canCreate: string -> bool) returns (vcset: VcSetFiles)
    modifies usedFileNames
    ensures vcset.Valid() && fresh(vcset.Files()) && vcset.Follows(PlanFor(vc.tid))
  {
    vcset := new VcSetFiles(vc, usedFileNames, canCreate);
  }

  /**
   * The plugin's state as the loop of writeFaces found it: what the loop
   * leaves alone, and the faces, owner and boundary-run contents it appends to.
   */
  datatype FacesStart = FacesStart(
    vcSetFiles: seq<VcSetFiles>, vcConds: seq<CondData>, totElemCnt: nat, doFaceSets: bool, numFaces: nat,
    facesOpen: bool, ownerOpen: bool, faces: seq<string>, facesCounted: nat,
    owner: seq<string>, ownerCounted: nat, bcStats: seq<BcStat>)

  /** An element of the 2D grid as PwElemDataModEnum gives it: its data, its id and its block's id. */
  datatype Elem = Elem(data: ElemData, id: nat, blkId: nat)

  /** The element writeFaces emits for a layer: the offset copy when `vertOffset` is positive. */
  function LayerElem(e: ElemData, vertOffset: nat): (r: ElemData)
    requires WellFormed(e)
    ensures WellFormed(r)
  {
    if 0 < vertOffset then OffsetIndices(vertOffset, e) else e
  }

  /** Elements the face writer accepts. */
  ghost predicate AllWellFormed(elems: seq<Elem>) {
    forall k :: 0 <= k < |elems| ==> WellFormed(elems[k].data)
  }

  /** The faces-file chunks of a layer of `elems`. */
  function LayerChunks(elems: seq<Elem>, vertOffset: nat, is2D: bool, vertexCount: nat): seq<string>
    requires AllWellFormed(elems)
    decreases |elems|
  {
    if elems == [] then []
    else
      var e := elems[|elems| - 1];
      LayerChunks(elems[..|elems| - 1], vertOffset, is2D, vertexCount) +
      (match FaceChunk(LayerElem(e.data, vertOffset), is2D, vertexCount)
       case Some(c) => [c]
       case None => [])
  }

  /** The number of those elements the faces file counts. */
  function LayerCount(elems: seq<Elem>, vertOffset: nat, is2D: bool, vertexCount: nat): nat
    requires AllWellFormed(elems)
    decreases |elems|
  {
    if elems == [] then 0
    else
      var e := elems[|elems| - 1];
      LayerCount(elems[..|elems| - 1], vertOffset, is2D, vertexCount) +
      (if FaceChunk(LayerElem(e.data, vertOffset), is2D, vertexCount).Some? then 1 else 0)
  }

  /** The owner-file chunks of the elements' ids, the first written after `counted` items (the counter wraps at 2^32). */
  function OwnerChunks(elems: seq<Elem>, counted: nat): seq<string>
    decreases |elems|
  {
    if elems == [] then []
    else OwnerChunks(elems[..|elems| - 1], counted) +
         [AddressChunk(elems[|elems| - 1].id, (counted + |elems| - 1) % U32Range)]
  }

  /** The boundary face writeFaces pushes for an element: its side condition, and its id plus the face offset as a PWP_UINT32. */
  function SideFace(blocks: seq<Block>, mode: SideBcMode, e: Elem, faceOffset: nat, isOffset: bool): BcFace {
    var c := SideCond(BlockCond(blocks, e.blkId), mode, isOffset);
    BcFace(c.name, c.condType, (e.id + faceOffset) % U32Range)
  }

  /** The boundary faces of a layer, in element order. */
  function SideFaces(blocks: seq<Block>, mode: SideBcMode, elems: seq<Elem>, faceOffset: nat, isOffset: bool): (r: seq<BcFace>)
    ensures |r| == |elems|
    decreases |elems|
  {
    if elems == [] then []
    else SideFaces(blocks, mode, elems[..|elems| - 1], faceOffset, isOffset) +
         [SideFace(blocks, mode, elems[|elems| - 1], faceOffset, isOffset)]
  }

  /** The faces-file layer functions on one more element. */
  lemma LayerStep(elems: seq<Elem>, i: nat, vertOffset: nat, is2D: bool, vertexCount: nat)
    requires AllWellFormed(elems) && i < |elems|
    ensures AllWellFormed(elems[..i]) && AllWellFormed(elems[..i + 1])
    ensures LayerChunks(elems[..i + 1], vertOffset, is2D, vertexCount) ==
      LayerChunks(elems[..i], vertOffset, is2D, vertexCount) +
      (match FaceChunk(LayerElem(elems[i].data, vertOffset), is2D, vertexCount) case Some(c) => [c] case None => [])
    ensures LayerCount(elems[..i + 1], vertOffset, is2D, vertexCount) ==
      LayerCount(elems[..i], vertOffset, is2D, vertexCount) +
      (if FaceChunk(LayerElem(elems[i].data, vertOffset), is2D, vertexCount).Some? then 1 else 0)
  {
    assert elems[..i + 1][..i] == elems[..i];
    assert elems[..i + 1][i] == elems[i];
  }

  /** OwnerChunks on one more element. */
  lemma OwnerStep(elems: seq<Elem>, i: nat, counted: nat)
    requires i < |elems|
    ensures OwnerChunks(elems[..i + 1], counted) ==
      OwnerChunks(elems[..i], counted) + [AddressChunk(elems[i].id, (counted + i) % U32Range)]
  {
    assert elems[..i + 1][..i] == elems[..i];
    assert elems[..i + 1][i] == elems[i];
  }

  /** SideFaces on one more element. */
  lemma SideStep(blocks: seq<Block>, mode: SideBcMode, elems: seq<Elem>, i: nat, faceOffset: nat, isOffset: bool)
    requires i < |elems|
    ensures SideFaces(blocks, mode, elems[..i + 1], faceOffset, isOffset) ==
      SideFaces(blocks, mode, elems[..i], faceOffset, isOffset) + [SideFace(blocks, mode, elems[i], faceOffset, isOffset)]
  {
    assert elems[..i + 1][..i] == elems[..i];
    assert elems[..i + 1][i] == elems[i];
  }

  /**
   * What the loop of writeFaces has pushed onto the boundary runs after `k`
   * elements, and the condition and block it carries to the next element.
   */
  ghost predicate RunsWritten(blocks: seq<Block>, mode: SideBcMode, elems: seq<Elem>, k: nat, faceOffset: nat,
                              isOffset: bool, stats0: seq<BcStat>, stats: seq<BcStat>, bc: CondData, prevBlkId: nat)
  {
    k <= |elems| &&
    (k == 0 ==> prevBlkId == NoBlock) &&
    (k > 0 ==> prevBlkId == elems[k - 1].blkId && bc == SideCond(BlockCond(blocks, prevBlkId), mode, isOffset)) &&
    stats == RunsFrom(stats0, SideFaces(blocks, mode, elems[..k], faceOffset, isOffset))
  }

  /**
   * One element more: with the condition getElementCond gives it, the
   * element's face pushed onto the runs is its side face.
   */
  lemma RunsWrittenStep(blocks: seq<Block>, mode: SideBcMode, elems: seq<Elem>, k: nat, faceOffset: nat,
                        isOffset: bool, stats0: seq<BcStat>, stats: seq<BcStat>, bc: CondData, prevBlkId: nat,
                        bc': CondData)
    requires k < |elems| && elems[k].blkId != NoBlock
    requires RunsWritten(blocks, mode, elems, k, faceOffset, isOffset, stats0, stats, bc, prevBlkId)
    requires elems[k].blkId == prevBlkId ==> bc' == bc
    requires elems[k].blkId != prevBlkId ==> bc' == SideCond(BlockCond(blocks, elems[k].blkId), mode, isOffset)
    ensures RunsWritten(blocks, mode, elems, k + 1, faceOffset, isOffset, stats0,
      PushRun(stats, BcFace(bc'.name, bc'.condType, (elems[k].id + faceOffset) % U32Range)), bc', elems[k].blkId)
  {
    assert bc' == SideCond(BlockCond(blocks, elems[k].blkId), mode, isOffset);
    assert SideFace(blocks, mode, elems[k], faceOffset, isOffset)
        == BcFace(bc'.name, bc'.condType, (elems[k].id + faceOffset) % U32Range);
    SideRunsStep(blocks, mode, elems, k, faceOffset, isOffset, stats0);
  }

  /** The runs of the side faces of one element more. */
  lemma SideRunsStep(blocks: seq<Block>, mode: SideBcMode, elems: seq<Elem>, k: nat, faceOffset: nat,
                     isOffset: bool, stats0: seq<BcStat>)
    requires k < |elems|
    ensures RunsFrom(stats0, SideFaces(blocks, mode, elems[..k + 1], faceOffset, isOffset)) ==
      PushRun(RunsFrom(stats0, SideFaces(blocks, mode, elems[..k], faceOffset, isOffset)),
              SideFace(blocks, mode, elems[k], faceOffset, isOffset))
  {
    SideStep(blocks, mode, elems, k, faceOffset, isOffset);
    RunsFromStep(stats0, SideFaces(blocks, mode, elems[..k], faceOffset, isOffset),
      SideFace(blocks, mode, elems[k], faceOffset, isOffset));
  }

  /** `vcNameOffset` gives, for every name met in `seen`, a bundle at or after `base` made for that name. */
  ghost predicate NamesMapped(conds: seq<CondData>, base: nat, vcNameOffset: map<string, nat>, seen: seq<Block>) {
    (forall n :: n in vcNameOffset ==> base <= vcNameOffset[n] < |conds| && conds[vcNameOffset[n]].name == n) &&
    SeenMapped(seen, vcNameOffset)
  }

  /** Every condition name met in `seen` is in `vcNameOffset`. */
  ghost predicate SeenMapped(seen: seq<Block>, vcNameOffset: map<string, nat>) {
    forall n :: HasName(BundleConds(seen), n) ==> n in vcNameOffset
  }

  /**
   * The first `k` blocks are mapped to a bundle at or after `base` made for
   * their condition's name; every other entry of `offsets0` is kept.
   */
  ghost predicate BlocksMapped(conds: seq<CondData>, base: nat, offsets: map<nat, nat>,
                               offsets0: map<nat, nat>, blocks: seq<Block>, k: nat)
    requires k <= |blocks|
  {
    (forall b :: 0 <= b < k ==> (b in offsets &&
      base <= offsets[b] < |conds| && conds[offsets[b]].name == blocks[b].cond.name)) &&
    (forall b :: b in offsets0 && b >= k ==> b in offsets && offsets[b] == offsets0[b]) &&
    (forall b :: b in offsets ==> b in offsets0 || b < k)
  }

  /**
   * One pass of the loop of prepareVcSetFiles keeps the loop's bookkeeping:
   * a name not yet in the map gets a new bundle at the end, a known name
   * reuses its bundle, and the block is mapped to that bundle.
   */
  lemma MapStep(conds0: seq<CondData>, conds: seq<CondData>, offsets0: map<nat, nat>, offsets: map<nat, nat>,
                names: map<string, nat>, blocks: seq<Block>, k: nat,
                conds': seq<CondData>, names': map<string, nat>, offset: nat)
    requires k < |blocks|
    requires conds == conds0 + BundleConds(blocks[..k])
    requires NamesMapped(conds, |conds0|, names, blocks[..k])
    requires BlocksMapped(conds, |conds0|, offsets, offsets0, blocks, k)
    requires blocks[k].cond.name !in names ==>
      conds' == conds + [blocks[k].cond] && offset == |conds| && names' == names[blocks[k].cond.name := offset]
    requires blocks[k].cond.name in names ==>
      conds' == conds && offset == names[blocks[k].cond.name] && names' == names
    ensures conds' == conds0 + BundleConds(blocks[..k + 1])
    ensures NamesMapped(conds', |conds0|, names', blocks[..k + 1])
    ensures BlocksMapped(conds', |conds0|, offsets[k := offset], offsets0, blocks, k + 1)
  {
    if blocks[k].cond.name !in names {
      MapStepNew(conds0, conds, offsets0, offsets, names, blocks, k);
    } else {
      MapStepKnown(conds0, conds, offsets0, offsets, names, blocks, k);
    }
  }

  /** MapStep for a name met for the first time. */
  lemma MapStepNew(conds0: seq<CondData>, conds: seq<CondData>, offsets0: map<nat, nat>, offsets: map<nat, nat>,
                   names: map<string, nat>, blocks: seq<Block>, k: nat)
    requires k < |blocks| && blocks[k].cond.name !in names
    requires conds == conds0 + BundleConds(blocks[..k])
    requires NamesMapped(conds, |conds0|, names, blocks[..k])
    requires BlocksMapped(conds, |conds0|, offsets, offsets0, blocks, k)
    ensures var vc := blocks[k].cond;
      var conds' := conds + [vc];
      conds' == conds0 + BundleConds(blocks[..k + 1]) &&
      NamesMapped(conds', |conds0|, names[vc.name := |conds|], blocks[..k + 1]) &&
      BlocksMapped(conds', |conds0|, offsets[k := |conds|], offsets0, blocks, k + 1)
  {
    var vc := blocks[k].cond;
    BundleCondsStep(blocks, k);
    assert !HasName(BundleConds(blocks[..k]), vc.name);
    assert conds + [vc] == conds0 + BundleConds(blocks[..k + 1]);
    SeenNamesMapped(blocks, k, names, |conds|);
    NewNameMapped(conds, |conds0|, names, vc);
    NewBlockMapped(conds, |conds0|, offsets, offsets0, blocks, k);
  }

  /** The names met in one block more are the names mapped so far and the block's own. */
  lemma SeenNamesMapped(blocks: seq<Block>, k: nat, names: map<string, nat>, offset: nat)
    requires k < |blocks|
    requires SeenMapped(blocks[..k], names)
    ensures SeenMapped(blocks[..k + 1], names[blocks[k].cond.name := offset])
  {
    BundleCondsStep(blocks, k);
  }

  /** A new bundle at the end, entered under its name, keeps every other name's bundle. */
  lemma NewNameMapped(conds: seq<CondData>, base: nat, names: map<string, nat>, vc: CondData)
    requires base <= |conds|
    requires forall n :: n in names ==> base <= names[n] < |conds| && conds[names[n]].name == n
    ensures var names' := names[vc.name := |conds|];
      forall n :: n in names' ==> base <= names'[n] < |conds + [vc]| && (conds + [vc])[names'[n]].name == n
  {
    var conds', names' := conds + [vc], names[vc.name := |conds|];
    forall n | n in names'
      ensures base <= names'[n] < |conds'| && conds'[names'[n]].name == n
    {
      if n != vc.name {
        assert conds'[names[n]] == conds[names[n]];
      }
    }
  }

  /** Block `k` mapped to a new bundle at the end keeps the earlier blocks' bundles. */
  lemma NewBlockMapped(conds: seq<CondData>, base: nat, offsets: map<nat, nat>, offsets0: map<nat, nat>,
                       blocks: seq<Block>, k: nat)
    requires k < |blocks| && base <= |conds| && BlocksMapped(conds, base, offsets, offsets0, blocks, k)
    ensures BlocksMapped(conds + [blocks[k].cond], base, offsets[k := |conds|], offsets0, blocks, k + 1)
  {
    var conds', offsets' := conds + [blocks[k].cond], offsets[k := |conds|];
    forall b | 0 <= b < k + 1
      ensures b in offsets' && base <= offsets'[b] < |conds'| && conds'[offsets'[b]].name == blocks[b].cond.name
    {
      if b < k {
        assert conds'[offsets[b]] == conds[offsets[b]];
      }
    }
  }

  /** MapStep for a name that already has its bundle. */
  lemma MapStepKnown(conds0: seq<CondData>, conds: seq<CondData>, offsets0: map<nat, nat>, offsets: map<nat, nat>,
                     names: map<string, nat>, blocks: seq<Block>, k: nat)
    requires k < |blocks| && blocks[k].cond.name in names
    requires conds == conds0 + BundleConds(blocks[..k])
    requires NamesMapped(conds, |conds0|, names, blocks[..k])
    requires BlocksMapped(conds, |conds0|, offsets, offsets0, blocks, k)
    ensures var offset := names[blocks[k].cond.name];
      conds == conds0 + BundleConds(blocks[..k + 1]) &&
      NamesMapped(conds, |conds0|, names, blocks[..k + 1]) &&
      BlocksMapped(conds, |conds0|, offsets[k := offset], offsets0, blocks, k + 1)
  {
    var vc := blocks[k].cond;
    var offset := names[vc.name];
    var d := BundleConds(blocks[..k]);
    BundleCondsStep(blocks, k);
    assert |conds0| <= offset < |conds| && conds[offset].name == vc.name;
    HasNameInTail(conds0, d, offset, vc.name);
    BlocksMappedStep(conds, |conds0|, offsets, offsets0, blocks, k, offset);
  }

  /** Mapping block `k` to a bundle made for its condition's name extends BlocksMapped by one block. */
  lemma BlocksMappedStep(conds: seq<CondData>, base: nat, offsets: map<nat, nat>, offsets0: map<nat, nat>,
                         blocks: seq<Block>, k: nat, offset: nat)
    requires k < |blocks| && BlocksMapped(conds, base, offsets, offsets0, blocks, k)
    requires base <= offset < |conds| && conds[offset].name == blocks[k].cond.name
    ensures BlocksMapped(conds, base, offsets[k := offset], offsets0, blocks, k + 1)
  {
    var offsets' := offsets[k := offset];
    forall b | 0 <= b < k + 1
      ensures b in offsets' && base <= offsets'[b] < |conds| && conds[offsets'[b]].name == blocks[b].cond.name
    {
      if b < k {
        assert offsets'[b] == offsets[b];
      }
    }
  }

  /** A name at an index past `prefix` is a name of the tail. */
  lemma HasNameInTail(prefix: seq<CondData>, d: seq<CondData>, i: nat, name: string)
    requires |prefix| <= i < |prefix| + |d| && (prefix + d)[i].name == name
    ensures HasName(d, name)
  {
    assert d[i - |prefix|] == (prefix + d)[i];
  }

  /** The state of a set file, or a blank state for a bundle without that file. */
  ghost function Snap(f: FoamFile?): FileState
    reads Only(f)
  {
    if f != null then StateOf(f) else FileState(false, "", [], 0)
  }

  /** The largest PWP_UINT32, which writeFaces starts `prevBlkId` at so that the first block always misses. */
  const NoBlock: nat := 0xFFFF_FFFF

  class OpenFoamPlugin {
    /** faces_, owner_, neighbour_ */
    const faces: FoamFile
    const owner: FoamFile
    const neighbour: FoamFile
    /** bcStats_ */
    var bcStats: seq<BcStat>
    /** usedFileNames_ */
    const usedFileNames: NameRegistry
    /** exportFaceSets_, exportFaceZones_, exportCellSets_, exportCellZones_ */
    const exportFaceSets: bool
    const exportFaceZones: bool
    const exportCellSets: bool
    const exportCellZones: bool
    /** sideBcMode_ */
    const sideBcMode: SideBcMode
    /** totElemCnt_ */
    var totElemCnt: nat
    /** blkIdOffset_ */
    var blkIdOffset: map<nat, nat>
    /** vcSetFiles_ */
    var vcSetFiles: seq<VcSetFiles>
    /** The condition each bundle was made from. */
    ghost var vcConds: seq<CondData>
    /** doFaceSets_ */
    var doFaceSets: bool
    /** numFaces_: the number of faces the host streams. */
    var numFaces: nat
    /** The model's blocks, as the host reports them. */
    const blocks: seq<Block>

    /** The set files of all bundles. */
    function SetFiles(): set<FoamFile>
      reads this
    {
      set i, f | 0 <= i < |vcSetFiles| && f in vcSetFiles[i].Files() :: f
    }

    ghost predicate Valid()
      reads this, faces, owner, neighbour, SetFiles()
    {
      MeshFilesValid() && BundlesValid() && BundlesApart() && BundlesFollowConds() &&
      (forall b :: b in blkIdOffset ==> blkIdOffset[b] < |vcSetFiles|) &&
      (doFaceSets ==> |vcSetFiles| > 0)
    }

    /** The three polyMesh files written while faces stream. */
    ghost predicate MeshFilesValid()
      reads this, faces, owner, neighbour
    {
      faces.Valid() && owner.Valid() && neighbour.Valid() &&
      faces.kind.Faces? && owner.kind == Address && neighbour.kind == Address &&
      faces != owner && faces != neighbour && owner != neighbour
    }

    ghost predicate BundlesValid()
      reads this, SetFiles()
    {
      forall i :: 0 <= i < |vcSetFiles| ==> vcSetFiles[i].Valid()
    }

    /** Bundle `i` was made from condition `i` and holds the set files that condition's tid asks for. */
    ghost predicate BundlesFollowConds()
      reads this
    {
      |vcConds| == |vcSetFiles| &&
      forall i {:trigger vcConds[i]} :: 0 <= i < |vcSetFiles| ==> vcSetFiles[i].Follows(PlanFor(vcConds[i].tid))
    }

    /** No file belongs to two bundles, nor is a bundle's file one of the polyMesh files. */
    ghost predicate BundlesApart()
      reads this
    {
      (forall i, j :: 0 <= i < j < |vcSetFiles| ==> vcSetFiles[i].Files() !! vcSetFiles[j].Files()) &&
      (forall i :: 0 <= i < |vcSetFiles| ==>
         faces !in vcSetFiles[i].Files() && owner !in vcSetFiles[i].Files() && neighbour !in vcSetFiles[i].Files())
    }

    /**
     * The plugin's constructor together with the attribute decoding at the
     * start of run(): `cellExport`, `faceExport` and `sideBcExport` are the
     * attribute values.
     */
    constructor (is2D: bool, vertexCount: nat, blocks: seq<Block>,
                 cellExport: u32, faceExport: u32, sideBcExport: nat)
      ensures Valid() && fresh(faces) && fresh(owner) && fresh(neighbour) && fresh(usedFileNames)
      ensures Unopened(faces, Faces(is2D, vertexCount), "faceList", "faces", "constant/polyMesh")
      ensures Unopened(owner, Address, "labelList", "owner", "constant/polyMesh")
      ensures Unopened(neighbour, Address, "labelList", "neighbour", "constant/polyMesh")
      ensures usedFileNames.usedNames == {}
      ensures bcStats == [] && vcSetFiles == [] && blkIdOffset == map[] && totElemCnt == 0 && !doFaceSets
      ensures numFaces == 0
      ensures exportCellSets == SetsBit(cellExport) && exportCellZones == ZonesBit(cellExport)
      ensures exportFaceSets == SetsBit(faceExport) && exportFaceZones == ZonesBit(faceExport)
      ensures sideBcMode == SideBcModeOf(sideBcExport) && this.blocks == blocks
    {
      var f := NewFacesFile(is2D, vertexCount);
      var o := NewAddressFile("owner");
      var n := NewAddressFile("neighbour");
      faces, owner, neighbour := f, o, n;
      bcStats := [];
      usedFileNames := new NameRegistry();
      exportCellSets := cellExport & 1 != 0;
      exportCellZones := cellExport & 2 != 0;
      exportFaceSets := faceExport & 1 != 0;
      exportFaceZones := faceExport & 2 != 0;
      sideBcMode := SideBcModeOf(sideBcExport);
      totElemCnt := 0;
      blkIdOffset := map[];
      vcSetFiles := [];
      vcConds := [];
      doFaceSets := false;
      numFaces := 0;
      this.blocks := blocks;
    }

    /** needSetsDir */
    predicate NeedSetsDir()
      reads this
    {
      exportCellSets || exportCellZones || exportFaceSets || exportFaceZones
    }

    /** exportingAnySets */
    predicate ExportingAnySets()
      reads this
    {
      exportCellSets || exportFaceSets
    }

    /** faceSetsNeeded */
    predicate FaceSetsNeeded()
      reads this
    {
      (exportFaceZones || exportFaceSets) && |vcSetFiles| > 0
    }

    /** cellSetsNeeded */
    predicate CellSetsNeeded()
      reads this
    {
      (exportCellSets || exportCellZones) && |vcSetFiles| > 0
    }

    /**
     * pushBcFace(condData, faceId): a boundary face joins the last run
     * when it has the same condition name, and starts a new run otherwise.
     */
    method PushBcFace(condData: CondData, faceId: nat)
      requires Valid()
      modifies this
      ensures Valid()
      ensures bcStats == PushRun(old(bcStats), BcFace(condData.name, condData.condType, faceId))
      ensures vcSetFiles == old(vcSetFiles) && vcConds == old(vcConds)
      ensures blkIdOffset == old(blkIdOffset) && totElemCnt == old(totElemCnt) && doFaceSets == old(doFaceSets)
      ensures numFaces == old(numFaces)
    {
      if |bcStats| == 0 || bcStats[|bcStats| - 1].name != condData.name {
        var stats := BcStat(condData.name, condData.condType, 1, faceId);
        bcStats := bcStats + [stats];
      } else {
        var last := bcStats[|bcStats| - 1];
        bcStats := bcStats[|bcStats| - 1 := last.(nFaces := last.nFaces + 1)];
      }
    }

    /**
     * prepareVcSetFiles: one bundle per distinct condition name, in the
     * order the names first occur among the blocks, and every block mapped
     * to the bundle of its condition's name; the blocks' cells are tallied.
     * `canCreate` tells, for each set file name, whether the file system
     * lets that file be created.
     */
    method PrepareVcSetFiles(canCreate: string -> bool) returns (ok: bool)
      requires Valid()
      modifies this, usedFileNames
      ensures Valid() && ok
      ensures vcConds == old(vcConds) + BundleConds(blocks)
      ensures |vcSetFiles| == |vcConds| && vcSetFiles[..|old(vcSetFiles)|] == old(vcSetFiles)
      ensures forall i :: |old(vcSetFiles)| <= i < |vcSetFiles| ==> vcSetFiles[i].Follows(PlanFor(vcConds[i].tid))
      ensures forall b :: 0 <= b < |blocks| ==> (b in blkIdOffset &&
        |old(vcSetFiles)| <= blkIdOffset[b] && vcConds[blkIdOffset[b]].name == blocks[b].cond.name)
      ensures forall b :: b in old(blkIdOffset) && b >= |blocks| ==> b in blkIdOffset && blkIdOffset[b] == old(blkIdOffset)[b]
      ensures forall b :: b in blkIdOffset ==> b in old(blkIdOffset) || b < |blocks|
      ensures totElemCnt == old(totElemCnt) + TotalCells(blocks)
      ensures bcStats == old(bcStats) && doFaceSets == old(doFaceSets)
    {
      var vcNameOffset: map<string, nat> := map[];
      var blkId := 0;
      while blkId < |blocks|
        invariant 0 <= blkId <= |blocks|
        invariant Valid() && bcStats == old(bcStats) && doFaceSets == old(doFaceSets)
        invariant |old(vcSetFiles)| <= |vcSetFiles| && vcSetFiles[..|old(vcSetFiles)|] == old(vcSetFiles)
        invariant PrefixMapped(old(vcConds), old(blkIdOffset), vcNameOffset, blkId)
        invariant totElemCnt == old(totElemCnt) + TotalCells(blocks[..blkId])
      {
        assert blocks[..blkId + 1][..blkId] == blocks[..blkId];
        assert TotalCells(blocks[..blkId + 1]) == TotalCells(blocks[..blkId]) + blocks[blkId].elemCount;
        ghost var before := vcSetFiles;
        vcNameOffset := MapBlock(blkId, vcNameOffset, canCreate, old(vcConds), old(blkIdOffset));
        PrefixOfPrefix(vcSetFiles, before, old(vcSetFiles));

        blkId := blkId + 1;
      }
      assert blocks[..blkId] == blocks;
      ok := true;
    }

    /**
     * What the loop of prepareVcSetFiles has done after `k` blocks, starting
     * from the bundle conditions `conds0` and block map `offsets0`: one
     * bundle per distinct name so far, `vcNameOffset` giving each name's
     * bundle, and the first `k` blocks mapped to the bundle of their name.
     */
    ghost predicate PrefixMapped(conds0: seq<CondData>, offsets0: map<nat, nat>,
                                 vcNameOffset: map<string, nat>, k: nat)
      reads this
    {
      k <= |blocks| && vcConds == conds0 + BundleConds(blocks[..k]) &&
      NamesMapped(vcConds, |conds0|, vcNameOffset, blocks[..k]) &&
      BlocksMapped(vcConds, |conds0|, blkIdOffset, offsets0, blocks, k)
    }

    /** One pass of the loop of prepareVcSetFiles: block `blkId` gets the bundle of its condition's name. */
    method MapBlock(blkId: nat, vcNameOffset: map<string, nat>, canCreate: string -> bool,
                    ghost conds0: seq<CondData>, ghost offsets0: map<nat, nat>)
      returns (vcNameOffset': map<string, nat>)
      requires Valid() && blkId < |blocks| && PrefixMapped(conds0, offsets0, vcNameOffset, blkId)
      modifies this, usedFileNames
      ensures Valid() && PrefixMapped(conds0, offsets0, vcNameOffset', blkId + 1)
      ensures |old(vcSetFiles)| <= |vcSetFiles| && vcSetFiles[..|old(vcSetFiles)|] == old(vcSetFiles)
      ensures totElemCnt == old(totElemCnt) + blocks[blkId].elemCount
      ensures bcStats == old(bcStats) && doFaceSets == old(doFaceSets)
    {
      if blocks[blkId].cond.name !in vcNameOffset {
        vcNameOffset' := MapNewName(blkId, vcNameOffset, canCreate, conds0, offsets0);
      } else {
        var offset := vcNameOffset[blocks[blkId].cond.name];
        MapStepKnown(conds0, vcConds, offsets0, blkIdOffset, vcNameOffset, blocks, blkId);
        RecordBlock(blkId, offset);
        vcNameOffset' := vcNameOffset;
      }
    }

    /** MapBlock for a name met for the first time: a new bundle is opened for it. */
    method MapNewName(blkId: nat, vcNameOffset: map<string, nat>, canCreate: string -> bool,
                      ghost conds0: seq<CondData>, ghost offsets0: map<nat, nat>)
      returns (vcNameOffset': map<string, nat>)
      requires Valid() && blkId < |blocks| && PrefixMapped(conds0, offsets0, vcNameOffset, blkId)
      requires blocks[blkId].cond.name !in vcNameOffset
      modifies this, usedFileNames
      ensures Valid() && PrefixMapped(conds0, offsets0, vcNameOffset', blkId + 1)
      ensures |vcSetFiles| == |old(vcSetFiles)| + 1 && vcSetFiles[..|old(vcSetFiles)|] == old(vcSetFiles)
      ensures fresh(vcSetFiles[|old(vcSetFiles)|].Files())
      ensures totElemCnt == old(totElemCnt) + blocks[blkId].elemCount
      ensures bcStats == old(bcStats) && doFaceSets == old(doFaceSets)
    {
      var vc := blocks[blkId].cond;
      MapStepNew(conds0, vcConds, offsets0, blkIdOffset, vcNameOffset, blocks, blkId);
      var offset := OpenBundle(vc, canCreate);
      vcNameOffset' := vcNameOffset[vc.name := offset];
      RecordBlock(blkId, offset);
    }

    /** blkIdOffset_[blkId] = offset; totElemCnt_ += the block's cell count. */
    method RecordBlock(blkId: nat, offset: nat)
      requires Valid() && blkId < |blocks| && offset < |vcSetFiles|
      modifies this
      ensures Valid() && blkIdOffset == old(blkIdOffset)[blkId := offset]
      ensures totElemCnt == old(totElemCnt) + blocks[blkId].elemCount
      ensures vcSetFiles == old(vcSetFiles) && vcConds == old(vcConds)
      ensures bcStats == old(bcStats) && doFaceSets == old(doFaceSets)
    {
      blkIdOffset := blkIdOffset[blkId := offset];
      totElemCnt := totElemCnt + blocks[blkId].elemCount;
      assert BundlesValid();
    }

    /** `new VcSetFiles(vc, usedFileNames_)` pushed onto vcSetFiles_; `offset` is its index. */
    method OpenBundle(vc: CondData, canCreate: string -> bool) returns (offset: nat)
      requires Valid()
      modifies this, usedFileNames
      ensures Valid() && offset == |old(vcSetFiles)|
      ensures |vcSetFiles| == offset + 1 && vcSetFiles[..offset] == old(vcSetFiles) && vcConds == old(vcConds) + [vc]
      ensures fresh(vcSetFiles[offset].Files())
      ensures bcStats == old(bcStats) && blkIdOffset == old(blkIdOffset) && totElemCnt == old(totElemCnt)
      ensures doFaceSets == old(doFaceSets)
    {
      offset := |vcSetFiles|;
      var vcset := MakeBundle(vc, canCreate);
      PushBundle(vcset, vc);
    }

    /** `new VcSetFiles(vc, usedFileNames_)`: a bundle whose files belong to no other file of the plugin. */
    method MakeBundle(vc: CondData, canCreate: string -> bool) returns (vcset: VcSetFiles)
      requires Valid()
      modifies usedFileNames
      ensures Valid() && vcset.Valid() && vcset.Follows(PlanFor(vc.tid)) && fresh(vcset.Files())
      ensures vcset.Files() !! SetFiles()
      ensures faces !in vcset.Files() && owner !in vcset.Files() && neighbour !in vcset.Files()
    {
      vcset := NewBundle(vc, usedFileNames, canCreate);
      assert BundlesValid();
      assert vcset.Files() !! SetFiles();
    }

    /** vcSetFiles_.push_back of a bundle whose files are its own. */
    method PushBundle(vcset: VcSetFiles, vc: CondData)
      requires Valid() && vcset.Valid() && vcset.Follows(PlanFor(vc.tid))
      requires vcset.Files() !! SetFiles()
      requires faces !in vcset.Files() && owner !in vcset.Files() && neighbour !in vcset.Files()
      modifies this
      ensures Valid()
      ensures vcSetFiles == old(vcSetFiles) + [vcset] && vcConds == old(vcConds) + [vc]
      ensures bcStats == old(bcStats) && blkIdOffset == old(blkIdOffset) && totElemCnt == old(totElemCnt)
      ensures doFaceSets == old(doFaceSets)
    {
      ghost var prior := vcSetFiles;
      vcSetFiles := vcSetFiles + [vcset];
      vcConds := vcConds + [vc];
      assert forall i :: 0 <= i < |prior| ==> vcSetFiles[i] == prior[i];
      assert forall i :: 0 <= i < |prior| ==> prior[i].Files() !! vcset.Files();
      assert BundlesValid();
      assert BundlesApart();
      assert BundlesFollowConds();
    }

    /** Every block offset names a bundle, and there is a first bundle for unmapped blocks. */
    ghost predicate OffsetsInRange()
      reads this
    {
      |vcSetFiles| > 0 && forall b :: b in blkIdOffset ==> blkIdOffset[b] < |vcSetFiles|
    }

    /** The file addFace(faceType, ...) of block `blkId`'s bundle writes to, if any. */
    ghost function TargetOf(blkId: nat, faceType: FaceType): FoamFile?
      reads this
      requires OffsetsInRange()
    {
      vcSetFiles[OffsetOf(blkIdOffset, blkId)].Target(faceType)
    }

    /** The set files a streamed face is written to: the owner's target and, for a connection face, the neighbour's. */
    ghost function StreamTargets(ownerBlk: nat, neighborBlk: Option<nat>, faceType: FaceType): set<FoamFile>
      reads this
      requires OffsetsInRange()
    {
      var t := AdjustFaceType(faceType, BlockVc(blocks, ownerBlk), NeighborVc(blocks, neighborBlk));
      Only(TargetOf(ownerBlk, t)) +
      (if t == ConnectionFace && neighborBlk.Some? then Only(TargetOf(neighborBlk.value, ConnectionFace)) else {})
    }

    /**
     * addFaceToSet(blkId, faceType, face): the face goes to the bundle the
     * block is mapped to. `blkIdOffset_[blkId]` inserts offset 0 for an
     * unmapped block, so such a face lands in the first bundle; the caller
     * only gets here with face sets on, when there is a first bundle.
     */
    method AddFaceToSet(blkId: nat, faceType: FaceType, face: nat)
      requires Valid() && |vcSetFiles| > 0
      modifies this, Only(TargetOf(blkId, faceType))
      ensures Valid() && blkIdOffset == old(blkIdOffset)[blkId := OffsetOf(old(blkIdOffset), blkId)]
      ensures vcSetFiles == old(vcSetFiles) && vcConds == old(vcConds) && bcStats == old(bcStats)
      ensures totElemCnt == old(totElemCnt) && doFaceSets == old(doFaceSets) && numFaces == old(numFaces)
      ensures old(TargetOf(blkId, faceType)) != null ==> WroteAddress(old(TargetOf(blkId, faceType)), face)
      ensures unchanged(faces, owner, neighbour)
    {
      var offset := OffsetOf(blkIdOffset, blkId);
      blkIdOffset := blkIdOffset[blkId := offset];
      assert BundlesValid();
      WriteToBundle(offset, faceType, face);
    }

    /** `vcSetFiles_.at(offset)->addFace(faceType, face)` */
    method WriteToBundle(offset: nat, faceType: FaceType, face: nat)
      requires Valid() && offset < |vcSetFiles|
      modifies Only(vcSetFiles[offset].Target(faceType))
      ensures Valid()
      ensures vcSetFiles[offset].Target(faceType) != null ==> WroteAddress(vcSetFiles[offset].Target(faceType), face)
      ensures unchanged(faces, owner, neighbour)
    {
      var vcset := vcSetFiles[offset];
      assert vcset.Valid();
      vcset.AddFace(faceType, face);
      assert BundlesValid() by {
        forall i | 0 <= i < |vcSetFiles|
          ensures vcSetFiles[i].Valid()
        {
          if i != offset {
            assert vcSetFiles[i].Files() !! vcset.Files() by {
              if i < offset {
                assert vcSetFiles[i].Files() !! vcSetFiles[offset].Files();
              } else {
                assert vcSetFiles[offset].Files() !! vcSetFiles[i].Files();
              }
            }
          }
        }
      }
    }

    /** addBndryFaceToSet: a boundary face of the block's bundle. */
    method AddBndryFaceToSet(blkId: nat, face: nat)
      requires Valid() && |vcSetFiles| > 0
      modifies this, Only(TargetOf(blkId, BoundaryFace))
      ensures Valid() && blkIdOffset == old(blkIdOffset)[blkId := OffsetOf(old(blkIdOffset), blkId)]
      ensures vcSetFiles == old(vcSetFiles) && vcConds == old(vcConds) && bcStats == old(bcStats)
      ensures totElemCnt == old(totElemCnt) && doFaceSets == old(doFaceSets) && numFaces == old(numFaces)
      ensures old(TargetOf(blkId, BoundaryFace)) != null ==> WroteAddress(old(TargetOf(blkId, BoundaryFace)), face)
      ensures unchanged(faces, owner, neighbour)
    {
      AddFaceToSet(blkId, BoundaryFace, face);
    }

    /**
     * addFaceToSet(data): the streamed face goes to the owner block's bundle
     * under its adjusted type; a face that stays a connection face also
     * goes to the neighbour block's bundle, as a connection face.
     * `neighborBlk` is the neighbour cell's block, or None when that cell's
     * element cannot be enumerated.
     */
    method AddStreamedFaceToSet(ownerBlk: nat, neighborBlk: Option<nat>, faceType: FaceType, face: nat)
      requires Valid() && |vcSetFiles| > 0
      modifies this, StreamTargets(ownerBlk, neighborBlk, faceType)
      ensures Valid() && vcSetFiles == old(vcSetFiles) && vcConds == old(vcConds) && bcStats == old(bcStats)
      ensures totElemCnt == old(totElemCnt) && doFaceSets == old(doFaceSets)
      ensures unchanged(faces, owner, neighbour)
      ensures (var t := AdjustFaceType(faceType, BlockVc(blocks, ownerBlk), NeighborVc(blocks, neighborBlk));
        var ownerTarget := old(TargetOf(ownerBlk, t));
        if t == ConnectionFace && neighborBlk.Some? then
          var neighborTarget := old(TargetOf(neighborBlk.value, ConnectionFace));
          blkIdOffset == old(blkIdOffset)[ownerBlk := OffsetOf(old(blkIdOffset), ownerBlk)]
                                         [neighborBlk.value := OffsetOf(old(blkIdOffset), neighborBlk.value)] &&
          (ownerTarget != neighborTarget ==> (ownerTarget != null ==> WroteAddress(ownerTarget, face)) &&
                                             (neighborTarget != null ==> WroteAddress(neighborTarget, face))) &&
          (ownerTarget == neighborTarget && ownerTarget != null ==> WroteAddressTwice(ownerTarget, face))
        else
          blkIdOffset == old(blkIdOffset)[ownerBlk := OffsetOf(old(blkIdOffset), ownerBlk)] &&
          (ownerTarget != null ==> WroteAddress(ownerTarget, face)))
    {
      var t := AdjustFaceType(faceType, BlockVc(blocks, ownerBlk), NeighborVc(blocks, neighborBlk));
      if t == ConnectionFace && neighborBlk.Some? {
        AddConnectionFaceToSets(ownerBlk, neighborBlk.value, face);
      } else {
        AddFaceToSet(ownerBlk, t, face);
      }
    }

    /**
     * The two addFace calls of a face that stays a connection face: first
     * to the owner block's bundle, then to the neighbour block's. When both
     * blocks pick the same bundle, its boundary file gets the face twice.
     */
    method AddConnectionFaceToSets(ownerBlk: nat, neighborBlk: nat, face: nat)
      requires Valid() && |vcSetFiles| > 0
      modifies this, Only(TargetOf(ownerBlk, ConnectionFace)), Only(TargetOf(neighborBlk, ConnectionFace))
      ensures Valid() && vcSetFiles == old(vcSetFiles) && vcConds == old(vcConds) && bcStats == old(bcStats)
      ensures totElemCnt == old(totElemCnt) && doFaceSets == old(doFaceSets)
      ensures unchanged(faces, owner, neighbour)
      ensures blkIdOffset == old(blkIdOffset)[ownerBlk := OffsetOf(old(blkIdOffset), ownerBlk)]
                                             [neighborBlk := OffsetOf(old(blkIdOffset), neighborBlk)]
      ensures (var ownerTarget := old(TargetOf(ownerBlk, ConnectionFace));
        var neighborTarget := old(TargetOf(neighborBlk, ConnectionFace));
        (ownerTarget != neighborTarget ==> (ownerTarget != null ==> WroteAddress(ownerTarget, face)) &&
                                           (neighborTarget != null ==> WroteAddress(neighborTarget, face))) &&
        (ownerTarget == neighborTarget && ownerTarget != null ==> WroteAddressTwice(ownerTarget, face)))
    {
      ghost var ownerTarget := TargetOf(ownerBlk, ConnectionFace);
      ghost var neighborTarget := TargetOf(neighborBlk, ConnectionFace);
      ghost var o0, n0 := Snap(ownerTarget), Snap(neighborTarget);
      AddFaceToSet(ownerBlk, ConnectionFace, face);
      assert TargetOf(neighborBlk, ConnectionFace) == neighborTarget;
      ghost var o1, n1 := Snap(ownerTarget), Snap(neighborTarget);
      assert ownerTarget != neighborTarget ==> n1 == n0;
      AddFaceToSet(neighborBlk, ConnectionFace, face);
      ghost var o2 := Snap(ownerTarget);
      assert ownerTarget != neighborTarget ==> o2 == o1;
      if ownerTarget == neighborTarget && ownerTarget != null {
        AddressWrittenTwiceOver(o0, o1, o2, face);
      }
    }

    /** The polyMesh files are not set files. */
    lemma MeshFilesApart()
      requires Valid()
      ensures faces !in SetFiles() && owner !in SetFiles() && neighbour !in SetFiles()
    {
    }

    /**
     * streamBegin: record the face count, decide whether face sets are
     * written, and open faces, owner and neighbour in that order, stopping
     * at the first that fails; each file's `CanCreate` says whether the
     * file system lets it be created. The progress step is left out.
     */
    method StreamBegin(totalNumFaces: nat, facesCanCreate: bool, ownerCanCreate: bool, neighbourCanCreate: bool)
      returns (ok: bool)
      requires Valid()
      modifies this, faces, owner, neighbour
      ensures Valid() && numFaces == totalNumFaces && doFaceSets == FaceSetsNeeded()
      ensures vcSetFiles == old(vcSetFiles) && vcConds == old(vcConds) && bcStats == old(bcStats)
      ensures blkIdOffset == old(blkIdOffset) && totElemCnt == old(totElemCnt)
      ensures ok <==> faces.isOpen && owner.isOpen && neighbour.isOpen
      ensures faces.isOpen <==> faces.objectName != "" && facesCanCreate
      ensures faces.isOpen ==> (owner.isOpen <==> owner.objectName != "" && ownerCanCreate)
      ensures faces.isOpen && owner.isOpen ==> (neighbour.isOpen <==> neighbour.objectName != "" && neighbourCanCreate)
      ensures faces.isOpen ==> faces.content == OpenedText(faces.version, faces.format, faces.cls, faces.location, faces.objectName)
      ensures faces.isOpen && owner.isOpen ==>
        owner.content == OpenedText(owner.version, owner.format, owner.cls, owner.location, owner.objectName)
      ensures ok ==>
        neighbour.content == OpenedText(neighbour.version, neighbour.format, neighbour.cls, neighbour.location, neighbour.objectName)
      ensures !faces.isOpen ==> unchanged(owner, neighbour)
      ensures faces.isOpen && !owner.isOpen ==> unchanged(neighbour)
      ensures faces.isOpen ==> faces.numItems == 0 && faces.counted == 0
      ensures faces.isOpen && owner.isOpen ==> owner.numItems == 0 && owner.counted == 0
      ensures ok ==> neighbour.numItems == 0 && neighbour.counted == 0
    {
      numFaces := totalNumFaces;
      doFaceSets := FaceSetsNeeded();
      assert BundlesValid();
      ok := OpenMeshFile(faces, facesCanCreate);
      if ok {
        ok := OpenMeshFile(owner, ownerCanCreate);
        if ok {
          ok := OpenMeshFile(neighbour, neighbourCanCreate);
        }
      }
    }

    /** `f.open()` on one of the polyMesh files, under its own name. */
    method OpenMeshFile(f: FoamFile, canCreate: bool) returns (ok: bool)
      requires Valid() && (f == faces || f == owner || f == neighbour)
      modifies f
      ensures Valid() && ok == f.isOpen && f.objectName == old(f.objectName)
      ensures ok <==> f.objectName != "" && canCreate
      ensures ok ==> f.content == OpenedText(f.version, f.format, f.cls, f.location, f.objectName)
      ensures ok ==> f.numItems == 0 && f.counted == 0
    {
      MeshFilesApart();
      ok := f.Open(None, canCreate);
      assert BundlesValid();
    }

    /**
     * streamFace: the face's record goes to faces and its owner cell to
     * owner; a boundary face joins the boundary runs (when its domain has a
     * condition), any other face writes its neighbour cell to neighbour;
     * with face sets on, the face goes to the set files. `domainCond` is
     * what PwDomCondition gives for the owner's domain.
     */
    method StreamFace(e: ElemData, ownerCell: nat, neighborCell: nat, faceType: FaceType,
                      domainCond: Option<CondData>, face: nat, ownerBlk: nat, neighborBlk: Option<nat>)
      requires Valid() && WellFormed(e)
      modifies this, faces, owner, neighbour, SetFiles()
      ensures Valid() && vcSetFiles == old(vcSetFiles) && vcConds == old(vcConds)
      ensures totElemCnt == old(totElemCnt) && doFaceSets == old(doFaceSets)
      ensures match FaceChunk(e, faces.kind.is2D, faces.kind.vertexCount)
        case None => faces.content == old(faces.content) && faces.counted == old(faces.counted)
        case Some(c) => faces.content == old(faces.content) + IfOpen(faces.isOpen, [c]) && faces.counted == old(faces.counted) + 1
      ensures owner.content == old(owner.content) + IfOpen(owner.isOpen, [AddressChunk(ownerCell, old(owner.numItems))])
      ensures owner.counted == old(owner.counted) + 1
      ensures faceType == BoundaryFace ==> (unchanged(neighbour) &&
        bcStats == (if domainCond.Some? then PushRun(old(bcStats), BcFace(domainCond.value.name, domainCond.value.condType, face))
                    else old(bcStats)))
      ensures faceType != BoundaryFace ==> (bcStats == old(bcStats) && neighbour.counted == old(neighbour.counted) + 1 &&
        neighbour.content == old(neighbour.content) + IfOpen(neighbour.isOpen, [AddressChunk(neighborCell, old(neighbour.numItems))]))
      ensures !doFaceSets ==> unchanged(SetFiles()) && blkIdOffset == old(blkIdOffset)
      ensures faces.isOpen == old(faces.isOpen) && owner.isOpen == old(owner.isOpen) && neighbour.isOpen == old(neighbour.isOpen)
    {
      WriteMeshRecords(e, ownerCell, neighborCell, faceType, domainCond, face);
      if doFaceSets {
        AddStreamedFaceToSet(ownerBlk, neighborBlk, faceType, face);
      }
    }

    /** The polyMesh part of streamFace: faces, owner, and the boundary runs or neighbour. */
    method WriteMeshRecords(e: ElemData, ownerCell: nat, neighborCell: nat, faceType: FaceType,
                            domainCond: Option<CondData>, face: nat)
      requires Valid() && WellFormed(e)
      modifies this, faces, owner, neighbour
      ensures Valid() && vcSetFiles == old(vcSetFiles) && vcConds == old(vcConds) && blkIdOffset == old(blkIdOffset)
      ensures totElemCnt == old(totElemCnt) && doFaceSets == old(doFaceSets)
      ensures match FaceChunk(e, faces.kind.is2D, faces.kind.vertexCount)
        case None => faces.content == old(faces.content) && faces.counted == old(faces.counted)
        case Some(c) => faces.content == old(faces.content) + IfOpen(faces.isOpen, [c]) && faces.counted == old(faces.counted) + 1
      ensures owner.content == old(owner.content) + IfOpen(owner.isOpen, [AddressChunk(ownerCell, old(owner.numItems))])
      ensures owner.counted == old(owner.counted) + 1
      ensures faceType == BoundaryFace ==> (unchanged(neighbour) &&
        bcStats == (if domainCond.Some? then PushRun(old(bcStats), BcFace(domainCond.value.name, domainCond.value.condType, face))
                    else old(bcStats)))
      ensures faceType != BoundaryFace ==> (bcStats == old(bcStats) && neighbour.counted == old(neighbour.counted) + 1 &&
        neighbour.content == old(neighbour.content) + IfOpen(neighbour.isOpen, [AddressChunk(neighborCell, old(neighbour.numItems))]))
      ensures faces.isOpen == old(faces.isOpen) && owner.isOpen == old(owner.isOpen) && neighbour.isOpen == old(neighbour.isOpen)
    {
      WriteFaceRecord(e);
      WriteAddressTo(owner, ownerCell);
      if faceType == BoundaryFace {
        if domainCond.Some? {
          PushBcFace(domainCond.value, face);
        }
      } else {
        WriteAddressTo(neighbour, neighborCell);
      }
    }

    /** faces_.writeFace(elemData) */
    method WriteFaceRecord(e: ElemData)
      requires Valid() && WellFormed(e)
      modifies faces
      ensures Valid()
      ensures match FaceChunk(e, faces.kind.is2D, faces.kind.vertexCount)
        case None => faces.content == old(faces.content) && faces.counted == old(faces.counted)
        case Some(c) => faces.content == old(faces.content) + IfOpen(faces.isOpen, [c]) && faces.counted == old(faces.counted) + 1
      ensures faces.isOpen == old(faces.isOpen)
    {
      MeshFilesApart();
      faces.WriteFace(e);
      assert BundlesValid();
    }

    /** owner_.writeAddress(cell) or neighbour_.writeAddress(cell) */
    method WriteAddressTo(f: FoamFile, cell: nat)
      requires Valid() && (f == owner || f == neighbour)
      modifies f
      ensures Valid() && f.isOpen == old(f.isOpen) && f.counted == old(f.counted) + 1
      ensures f.content == old(f.content) + IfOpen(f.isOpen, [AddressChunk(cell, old(f.numItems))])
    {
      MeshFilesApart();
      f.WriteAddress(cell);
      assert BundlesValid();
    }

    /**
     * writeFaces(faceOffset, vertOffset): one layer of the extrusion's
     * base or top faces. Each element (offset when `vertOffset` is
     * positive) goes to faces, its id to owner; the boundary run gets the
     * element's side condition, recomputed only when the block changes,
     * and the face id (element id plus `faceOffset`, as a PWP_UINT32);
     * with face sets on the face also goes to its block's bundle.
     */
    method WriteFaces(elems: seq<Elem>, faceOffset: nat, vertOffset: nat)
      requires Valid() && AllWellFormed(elems)
      requires forall k :: 0 <= k < |elems| ==> elems[k].blkId != NoBlock
      modifies this, faces, owner, SetFiles()
      ensures Valid() && vcSetFiles == old(vcSetFiles) && vcConds == old(vcConds)
      ensures totElemCnt == old(totElemCnt) && doFaceSets == old(doFaceSets) && numFaces == old(numFaces)
      ensures faces.isOpen == old(faces.isOpen) && owner.isOpen == old(owner.isOpen) && unchanged(neighbour)
      ensures bcStats == RunsFrom(old(bcStats), SideFaces(blocks, sideBcMode, elems, faceOffset, 0 < vertOffset))
      ensures faces.content == old(faces.content) +
        IfOpen(faces.isOpen, LayerChunks(elems, vertOffset, faces.kind.is2D, faces.kind.vertexCount))
      ensures faces.counted == old(faces.counted) + LayerCount(elems, vertOffset, faces.kind.is2D, faces.kind.vertexCount)
      ensures owner.content == old(owner.content) + IfOpen(owner.isOpen, OwnerChunks(elems, old(owner.counted)))
      ensures owner.counted == old(owner.counted) + |elems|
    {
      var isOffset := 0 < vertOffset;
      var bc := CondData("", 0, "", 0);
      var prevBlkId := NoBlock;
      var index := 0;
      assert elems[..0] == [];
      ghost var start := FacesStart(vcSetFiles, vcConds, totElemCnt, doFaceSets, numFaces,
                                    faces.isOpen, owner.isOpen, faces.content, faces.counted,
                                    owner.content, owner.counted, bcStats);
      while index < |elems|
        invariant 0 <= index <= |elems| && unchanged(neighbour)
        invariant FacesLoop(elems, index, faceOffset, vertOffset, bc, prevBlkId, start)
      {
        bc, prevBlkId := WriteElement(elems, index, faceOffset, vertOffset, bc, prevBlkId, start);
        index := index + 1;
      }
      FacesLoopDone(elems, faceOffset, vertOffset, bc, prevBlkId, start);
    }

    /** The loop of writeFaces after its last element: every element written. */
    lemma FacesLoopDone(elems: seq<Elem>, faceOffset: nat, vertOffset: nat, bc: CondData, prevBlkId: nat,
                        start: FacesStart)
      requires FacesLoop(elems, |elems|, faceOffset, vertOffset, bc, prevBlkId, start)
      ensures Valid() && vcSetFiles == start.vcSetFiles && vcConds == start.vcConds
      ensures totElemCnt == start.totElemCnt && doFaceSets == start.doFaceSets && numFaces == start.numFaces
      ensures faces.isOpen == start.facesOpen && owner.isOpen == start.ownerOpen
      ensures bcStats == RunsFrom(start.bcStats, SideFaces(blocks, sideBcMode, elems, faceOffset, 0 < vertOffset))
      ensures faces.content == start.faces +
        IfOpen(faces.isOpen, LayerChunks(elems, vertOffset, faces.kind.is2D, faces.kind.vertexCount))
      ensures faces.counted == start.facesCounted + LayerCount(elems, vertOffset, faces.kind.is2D, faces.kind.vertexCount)
      ensures owner.content == start.owner + IfOpen(owner.isOpen, OwnerChunks(elems, start.ownerCounted))
      ensures owner.counted == start.ownerCounted + |elems|
    {
      assert elems[..|elems|] == elems;
    }

    /** The state the loop of writeFaces keeps after `k` elements, against the state it started from. */
    ghost predicate FacesLoop(elems: seq<Elem>, k: nat, faceOffset: nat, vertOffset: nat, bc: CondData, prevBlkId: nat,
                              start: FacesStart)
      reads this, faces, owner, neighbour, SetFiles()
    {
      Valid() && vcSetFiles == start.vcSetFiles && vcConds == start.vcConds && totElemCnt == start.totElemCnt &&
      doFaceSets == start.doFaceSets && numFaces == start.numFaces &&
      faces.isOpen == start.facesOpen && owner.isOpen == start.ownerOpen &&
      LayerFilesWritten(elems, k, vertOffset, start.faces, start.facesCounted, start.owner, start.ownerCounted) &&
      RunsWritten(blocks, sideBcMode, elems, k, faceOffset, 0 < vertOffset, start.bcStats, bcStats, bc, prevBlkId)
    }

    /** One pass of the loop of writeFaces, for element `k`. */
    method WriteElement(elems: seq<Elem>, k: nat, faceOffset: nat, vertOffset: nat, bc: CondData, prevBlkId: nat,
                        ghost start: FacesStart)
      returns (bc': CondData, prevBlkId': nat)
      requires AllWellFormed(elems) && k < |elems| && elems[k].blkId != NoBlock
      requires FacesLoop(elems, k, faceOffset, vertOffset, bc, prevBlkId, start)
      modifies this, faces, owner, SetFiles()
      ensures unchanged(neighbour) && SetFiles() == old(SetFiles())
      ensures FacesLoop(elems, k + 1, faceOffset, vertOffset, bc', prevBlkId', start)
    {
      WriteLayerRecords(elems, k, vertOffset, start.faces, start.facesCounted, start.owner, start.ownerCounted);
      bc', prevBlkId' := PushSideFace(elems, k, faceOffset, 0 < vertOffset, bc, prevBlkId, start.bcStats);
    }

    /** What the loop of writeFaces has written to faces and owner after `k` elements. */
    ghost predicate LayerFilesWritten(elems: seq<Elem>, k: nat, vertOffset: nat, faces0: seq<string>, facesCounted0: nat,
                                      owner0: seq<string>, ownerCounted0: nat)
      reads faces, owner
    {
      LayerFacesWritten(elems, k, vertOffset, faces0, facesCounted0) && LayerOwnerWritten(elems, k, owner0, ownerCounted0)
    }

    /** The faces-file half of LayerFilesWritten. */
    ghost predicate LayerFacesWritten(elems: seq<Elem>, k: nat, vertOffset: nat, faces0: seq<string>, facesCounted0: nat)
      reads faces
    {
      k <= |elems| && AllWellFormed(elems[..k]) && faces.kind.Faces? &&
      faces.content == faces0 + IfOpen(faces.isOpen, LayerChunks(elems[..k], vertOffset, faces.kind.is2D, faces.kind.vertexCount)) &&
      faces.counted == facesCounted0 + LayerCount(elems[..k], vertOffset, faces.kind.is2D, faces.kind.vertexCount)
    }

    /** The owner-file half of LayerFilesWritten. */
    ghost predicate LayerOwnerWritten(elems: seq<Elem>, k: nat, owner0: seq<string>, ownerCounted0: nat)
      reads owner
    {
      k <= |elems| &&
      owner.content == owner0 + IfOpen(owner.isOpen, OwnerChunks(elems[..k], ownerCounted0)) &&
      owner.counted == ownerCounted0 + k
    }

    /** The faces and owner part of one pass of writeFaces, for element `k`. */
    method WriteLayerRecords(elems: seq<Elem>, k: nat, vertOffset: nat, ghost faces0: seq<string>, ghost facesCounted0: nat,
                             ghost owner0: seq<string>, ghost ownerCounted0: nat)
      requires Valid() && AllWellFormed(elems) && k < |elems|
      requires LayerFilesWritten(elems, k, vertOffset, faces0, facesCounted0, owner0, ownerCounted0)
      modifies faces, owner
      ensures Valid() && faces.isOpen == old(faces.isOpen) && owner.isOpen == old(owner.isOpen)
      ensures LayerFilesWritten(elems, k + 1, vertOffset, faces0, facesCounted0, owner0, ownerCounted0)
    {
      WriteLayerFace(elems, k, vertOffset, faces0, facesCounted0);
      WriteLayerOwner(elems, k, owner0, ownerCounted0);
    }

    /** `faces_.writeFace(eData.elemData)` in writeFaces. */
    method WriteLayerFace(elems: seq<Elem>, k: nat, vertOffset: nat, ghost faces0: seq<string>, ghost facesCounted0: nat)
      requires Valid() && AllWellFormed(elems) && k < |elems|
      requires LayerFacesWritten(elems, k, vertOffset, faces0, facesCounted0)
      modifies faces
      ensures Valid() && faces.isOpen == old(faces.isOpen)
      ensures LayerFacesWritten(elems, k + 1, vertOffset, faces0, facesCounted0)
    {
      LayerStep(elems, k, vertOffset, faces.kind.is2D, faces.kind.vertexCount);
      var data := LayerElem(elems[k].data, vertOffset);
      WriteFaceRecord(data);
      IfOpenAppend(faces.isOpen, faces0,
        LayerChunks(elems[..k], vertOffset, faces.kind.is2D, faces.kind.vertexCount),
        match FaceChunk(data, faces.kind.is2D, faces.kind.vertexCount)
        case Some(c) => [c]
        case None => []);
    }

    /** `owner_.writeAddress(PWGM_HELEMENT_ID(hElem))` in writeFaces. */
    method WriteLayerOwner(elems: seq<Elem>, k: nat, ghost owner0: seq<string>, ghost ownerCounted0: nat)
      requires Valid() && k < |elems|
      requires LayerOwnerWritten(elems, k, owner0, ownerCounted0)
      modifies owner
      ensures Valid() && owner.isOpen == old(owner.isOpen)
      ensures LayerOwnerWritten(elems, k + 1, owner0, ownerCounted0)
    {
      OwnerStep(elems, k, ownerCounted0);
      assert owner.numItems == (ownerCounted0 + k) % U32Range;
      IfOpenAppend(owner.isOpen, owner0, OwnerChunks(elems[..k], ownerCounted0),
        [AddressChunk(elems[k].id, owner.numItems)]);
      WriteAddressTo(owner, elems[k].id);
    }

    /** getElementCond and pushBcFace in the loop of writeFaces, for element `k`. */
    method PushSideRun(elems: seq<Elem>, k: nat, faceOffset: nat, isOffset: bool, bc: CondData, prevBlkId: nat,
                       ghost stats0: seq<BcStat>)
      returns (bc': CondData, prevBlkId': nat, faceId: nat)
      requires Valid() && k < |elems| && elems[k].blkId != NoBlock
      requires RunsWritten(blocks, sideBcMode, elems, k, faceOffset, isOffset, stats0, bcStats, bc, prevBlkId)
      modifies this
      ensures Valid() && vcSetFiles == old(vcSetFiles) && vcConds == old(vcConds) && blkIdOffset == old(blkIdOffset)
      ensures totElemCnt == old(totElemCnt) && doFaceSets == old(doFaceSets) && numFaces == old(numFaces)
      ensures faceId == (elems[k].id + faceOffset) % U32Range && prevBlkId' == elems[k].blkId
      ensures RunsWritten(blocks, sideBcMode, elems, k + 1, faceOffset, isOffset, stats0, bcStats, bc', prevBlkId')
    {
      var elem := elems[k];
      bc', prevBlkId' := GetElementCond(elem.blkId, bc, isOffset, prevBlkId, sideBcMode, blocks);
      faceId := (elem.id + faceOffset) % U32Range;
      PushBcFace(bc', faceId);
      RunsWrittenStep(blocks, sideBcMode, elems, k, faceOffset, isOffset, stats0, old(bcStats), bc, prevBlkId, bc');
    }

    /** The boundary part of one pass of writeFaces, for element `k`: the side condition, the run, and the face set. */
    method PushSideFace(elems: seq<Elem>, k: nat, faceOffset: nat, isOffset: bool, bc: CondData, prevBlkId: nat,
                        ghost stats0: seq<BcStat>)
      returns (bc': CondData, prevBlkId': nat)
      requires Valid() && k < |elems| && elems[k].blkId != NoBlock
      requires RunsWritten(blocks, sideBcMode, elems, k, faceOffset, isOffset, stats0, bcStats, bc, prevBlkId)
      modifies this, SetFiles()
      ensures Valid() && vcSetFiles == old(vcSetFiles) && vcConds == old(vcConds)
      ensures totElemCnt == old(totElemCnt) && doFaceSets == old(doFaceSets) && numFaces == old(numFaces)
      ensures unchanged(faces, owner, neighbour)
      ensures RunsWritten(blocks, sideBcMode, elems, k + 1, faceOffset, isOffset, stats0, bcStats, bc', prevBlkId')
    {
      var elem := elems[k];
      var faceId;
      bc', prevBlkId', faceId := PushSideRun(elems, k, faceOffset, isOffset, bc, prevBlkId, stats0);
      if doFaceSets {
        AddBndryFaceToSet(elem.blkId, faceId);
      }
    }
  }
}
