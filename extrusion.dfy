/**
 * Extrusion of a 2D grid into one layer of 3D cells: the offset copy of
 * each element (offsetVertices), the boundary condition given to the base
 * and top faces (getElementCond), and the orientation test of the grid
 * validator (GridValidator::calcZOrientation).
 */
module Extrusion {
  import opened VcTypes
  import opened Records
  import opened VcSets

  /**
   * offsetVertices: raise the used indices of `index` by `offset`, then
   * reverse a quad or tri in place (so the top face is wound opposite to
   * the base face). `index` is PWGM_ELEMDATA's fixed index array.
   */
  method OffsetVertices(offset: nat, elemType: ElemType, vertCnt: nat, index: array<nat>)
    requires index.Length == MaxVerts
    modifies index
    ensures index[..] == OffsetIndices(offset, ElemData(elemType, vertCnt, old(index[..]))).index
  {
    index[0] := index[0] + offset;
    index[1] := index[1] + offset;
    index[2] := index[2] + offset;
    match elemType {
      case Quad =>
        index[3] := index[3] + offset;
        index[0], index[3] := index[3], index[0];
        index[1], index[2] := index[2], index[1];
      case Tri =>
        index[0], index[2] := index[2], index[0];
      case _ =>
    }
  }

  /**
   * Writing an offset element emits its vertices in the original order,
   * each raised by the offset: the reversal done by offsetVertices undoes
   * the reversal of the faces file's writeFace.
   */
  lemma OffsetElementRecord(offset: nat, e: ElemData, is2D: bool, vertexCount: nat)
    requires WellFormed(e) && e.elemType in {Quad, Tri}
    ensures FaceChunk(OffsetIndices(offset, e), is2D, vertexCount)
         == Some(FaceRecord(e.vertCnt, Shift(e.index[..FaceVerts(e.elemType)], offset)))
  {
    OffsetFaceKeepsOrder(offset, e, is2D, vertexCount);
  }

  /** Offsetting leaves every unused slot of the index array, and every other shape, untouched. */
  lemma OffsetTouchesOnlyUsedSlots(offset: nat, e: ElemData)
    requires WellFormed(e)
    ensures forall i :: 3 <= i < MaxVerts && !(i == 3 && e.elemType == Quad) ==>
      OffsetIndices(offset, e).index[i] == e.index[i]
    ensures e.elemType !in {Quad, Tri} ==>
      OffsetIndices(offset, e).index[..3] == Shift(e.index[..3], offset)
  {
    if e.elemType !in {Quad, Tri} {
      var r := OffsetIndices(offset, e).index;
      assert r[..3] == [e.index[0] + offset, e.index[1] + offset, e.index[2] + offset];
      assert Shift(e.index[..3], offset) == [e.index[0] + offset, e.index[1] + offset, e.index[2] + offset] by {
        ShiftThree(e.index[..3], offset);
      }
    }
  }

  lemma ShiftThree(s: seq<nat>, offset: nat)
    requires |s| == 3
    ensures Shift(s, offset) == [s[0] + offset, s[1] + offset, s[2] + offset]
  {
    assert s[1..][1..][1..] == [];
  }

  /** SideBcMode */
  datatype SideBcMode = BcModeUnspecified | BcModeSingle | BcModeBaseTop | BcModeMultiple

  /**
   * The attribute value as the switch of getElementCond reads it:
   * 0, 2 and 3 pick their modes and every other value falls to the
   * `default` label, shared with BcModeSingle.
   */
  function SideBcModeOf(v: nat): (m: SideBcMode)
    ensures m == BcModeUnspecified <==> v == 0
    ensures m == BcModeBaseTop <==> v == 2
    ensures m == BcModeMultiple <==> v == 3
    ensures m == BcModeSingle <==> v !in {0, 2, 3}
  {
    if v == 0 then BcModeUnspecified
    else if v == 2 then BcModeBaseTop
    else if v == 3 then BcModeMultiple
    else BcModeSingle
  }

  /**
   * PWGM_UNSPECIFIED_COND_ID and PWGM_UNSPECIFIED_TYPE_ID come from the
   * host's headers, which are not part of this model; 0 stands in for
   * both and no contract depends on the value.
   */
  const UnspecifiedCondId: nat := 0
  const UnspecifiedTypeId: u32 := 0

  /** UnspecifiedCond */
  const UnspecifiedCond: CondData := CondData("Unspecified", UnspecifiedCondId, "Unspecified", UnspecifiedTypeId)

  /** The type given to every extruded side face that has a mode other than unspecified, with its id. */
  const EmptyType: string := "empty"
  const EmptyTid: u32 := 103

  /**
   * The condition getElementCond starts from: the block's own, or
   * UnspecifiedCond when PwBlkCondition fails (there is no such block).
   */
  function BlockCond(blocks: seq<Block>, blkId: nat): CondData {
    if blkId < |blocks| then blocks[blkId].cond else UnspecifiedCond
  }

  /** The condition getElementCond computes for a block it has not seen last. */
  function SideCond(base: CondData, mode: SideBcMode, isOffset: bool): CondData {
    match mode
    case BcModeUnspecified => UnspecifiedCond
    case BcModeBaseTop => base.(name := if isOffset then "Top" else "Base", condType := EmptyType, tid := EmptyTid)
    case BcModeMultiple =>
      base.(name := base.name + (if isOffset then "-top" else "-base"), condType := EmptyType, tid := EmptyTid)
    case BcModeSingle => base.(name := "BaseAndTop", condType := EmptyType, tid := EmptyTid)
  }

  /**
   * What each mode means for the extruded sides: unspecified leaves them
   * unspecified; otherwise they are of type "empty" (id 103) and keep the
   * block condition's id; BaseAndTop gives the base and the top one shared
   * name, while BaseTop and Multiple give them different ones, Multiple
   * one pair per block condition, named after it.
   */
  lemma SideCondNaming(base: CondData, mode: SideBcMode)
    ensures mode == BcModeUnspecified ==> SideCond(base, mode, false) == SideCond(base, mode, true) == UnspecifiedCond
    ensures mode != BcModeUnspecified ==> forall o: bool :: (SideCond(base, mode, o).condType == EmptyType &&
      SideCond(base, mode, o).tid == EmptyTid && SideCond(base, mode, o).id == base.id)
    ensures mode == BcModeSingle ==> SideCond(base, mode, false).name == SideCond(base, mode, true).name == "BaseAndTop"
    ensures mode in {BcModeBaseTop, BcModeMultiple} ==> SideCond(base, mode, false).name != SideCond(base, mode, true).name
    ensures mode == BcModeMultiple ==> forall o: bool :: SideCond(base, mode, o).name[..|base.name|] == base.name
  {
    if mode == BcModeMultiple {
      assert |SideCond(base, mode, false).name| != |SideCond(base, mode, true).name|;
    }
  }

  /** In Multiple mode two different blocks' conditions never share an extruded name on the same layer. */
  lemma MultipleNamesInjective(a: CondData, b: CondData, isOffset: bool)
    requires SideCond(a, BcModeMultiple, isOffset).name == SideCond(b, BcModeMultiple, isOffset).name
    ensures a.name == b.name
  {
    var sfx := if isOffset then "-top" else "-base";
    assert a.name + sfx == b.name + sfx;
    assert a.name == (a.name + sfx)[..|a.name|];
    assert |a.name| == |b.name|;
  }

  /**
   * getElementCond: `cond` and `prevBlkId` are updated in place, and only
   * when the block id differs from the one last seen.
   */
  method GetElementCond(blkId: nat, cond: CondData, isOffset: bool, prevBlkId: nat,
                        mode: SideBcMode, blocks: seq<Block>)
    returns (cond': CondData, prevBlkId': nat)
    ensures prevBlkId' == blkId
    ensures blkId == prevBlkId ==> cond' == cond
    ensures blkId != prevBlkId ==> cond' == SideCond(BlockCond(blocks, blkId), mode, isOffset)
  {
    cond', prevBlkId' := cond, prevBlkId;
    if blkId != prevBlkId {
      prevBlkId' := blkId;
      cond' := BlockCond(blocks, blkId);
      match mode {
        case BcModeUnspecified =>
          cond' := UnspecifiedCond;
        case BcModeBaseTop =>
          cond' := cond'.(name := if isOffset then "Top" else "Base", condType := EmptyType, tid := EmptyTid);
        case BcModeMultiple =>
          var bcName := cond'.name;
          bcName := bcName + (if isOffset then "-top" else "-base");
          cond' := cond'.(name := bcName, condType := EmptyType, tid := EmptyTid);
        case BcModeSingle =>
          cond' := cond'.(name := "BaseAndTop", condType := EmptyType, tid := EmptyTid);
      }
    }
  }

  /** Orientation */
  datatype Orientation = NegativeZ | UnknownZ | PositiveZ

  /** The enum's values. */
  function OrientationValue(o: Orientation): int {
    match o
    case NegativeZ => -1
    case UnknownZ => 0
    case PositiveZ => 1
  }

  /** A point or vector of PWGM_XYZVAL components, taken as exact reals. */
  datatype Vec3 = Vec3(x: real, y: real, z: real)

  /** The z component of the cross product. */
  function CrossZ(a: Vec3, b: Vec3): real {
    a.x * b.y - a.y * b.x
  }

  /** GridValidator::calcZOrientation */
  function CalcZOrientation(a: Vec3, b: Vec3): (o: Orientation)
    ensures o != UnknownZ
  {
    if a.x * b.y - a.y * b.x > 0.0 then PositiveZ else NegativeZ
  }

  /**
   * The test reports PositiveZ exactly when b lies counter-clockwise of a
   * seen from +z; swapping the vectors flips a non-degenerate answer;
   * parallel vectors, for which no orientation exists, read as NegativeZ;
   * and scaling either vector by a positive factor changes nothing.
   */
  lemma ZOrientationMeaning(a: Vec3, b: Vec3, k: real)
    requires k > 0.0
    ensures CalcZOrientation(a, b) == PositiveZ <==> CrossZ(a, b) > 0.0
    ensures CrossZ(a, b) != 0.0 ==> CalcZOrientation(b, a) != CalcZOrientation(a, b)
    ensures CrossZ(a, b) == 0.0 ==> CalcZOrientation(a, b) == CalcZOrientation(b, a) == NegativeZ
    ensures CalcZOrientation(Vec3(k * a.x, k * a.y, k * a.z), b) == CalcZOrientation(a, b)
  {
    assert CrossZ(b, a) == -CrossZ(a, b);
    var ka := Vec3(k * a.x, k * a.y, k * a.z);
    assert CrossZ(ka, b) == k * CrossZ(a, b);
    if CrossZ(a, b) > 0.0 {
      assert k * CrossZ(a, b) > 0.0;
    } else {
      assert k * CrossZ(a, b) <= 0.0;
    }
  }
}
