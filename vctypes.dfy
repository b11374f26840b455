/**
 * The volume-condition type tags (`tid`): a 32-bit mask whose bits select
 * which set/zone files are produced for the cells of a volume condition.
 */
module VcTypes {

  /** PWP_UINT32 */
  type u32 = bv32

  /** The volume condition is unspecified. */
  const VcNone: u32 := 0
  /** One set/zone file for the condition's interior faces. */
  const VcIFaces: u32 := 0x0001
  /** One set/zone file for the condition's boundary faces. */
  const VcBFaces: u32 := 0x0002
  /** Separate interior and boundary face files; meaningful only with both face bits. */
  const VcSplit: u32 := 0x0004
  /** One set/zone file for the condition's cells. */
  const VcCells: u32 := 0x0008

  /** All faces together. */
  const VcFaces: u32 := VcIFaces | VcBFaces
  /** Interior and boundary faces separately. */
  const VcIBFaces: u32 := VcSplit | VcFaces
  const VcCellsFaces: u32 := VcCells | VcFaces
  const VcCellsIFaces: u32 := VcCells | VcIFaces
  const VcCellsBFaces: u32 := VcCells | VcBFaces
  const VcCellsIBFaces: u32 := VcCells | VcIBFaces

  /** `tid` holds every bit of `mask` (the source's `mask == (mask & tid)`). */
  predicate HasAll(tid: u32, mask: u32) {
    mask & tid == mask
  }

  /** `tid` holds some bit of `mask` (the source's `mask & tid` used as a truth value). */
  predicate HasAny(tid: u32, mask: u32) {
    mask & tid != 0
  }

  predicate IsSingleBit(x: u32) {
    x != 0 && x & (x - 1) == 0
  }

  /** OpenFoamPlugin::isUnspecifiedVc: the one unspecified tag is zero. */
  function IsUnspecifiedVc(tid: u32): (r: bool)
    ensures r <==> tid == VcNone
    ensures r ==> !HasAny(tid, VcIFaces | VcBFaces | VcSplit | VcCells)
  {
    0 == tid
  }

  /** OpenFoamPlugin::isCellVc */
  function IsCellVc(tid: u32): (r: bool)
    ensures r <==> HasAll(tid, VcCells)
  {
    0 != (tid & VcCells)
  }

  /** OpenFoamPlugin::isFaceVc: some face bit is set. */
  function IsFaceVc(tid: u32): (r: bool)
    ensures r <==> HasAll(tid, VcIFaces) || HasAll(tid, VcBFaces)
  {
    0 != (tid & VcFaces)
  }

  /** The four base tags are four different single bits. */
  lemma BaseTagsAreDistinctBits()
    ensures IsSingleBit(VcIFaces) && IsSingleBit(VcBFaces)
    ensures IsSingleBit(VcSplit) && IsSingleBit(VcCells)
    ensures VcIFaces & VcBFaces == 0 && VcIFaces & VcSplit == 0 && VcIFaces & VcCells == 0
    ensures VcBFaces & VcSplit == 0 && VcBFaces & VcCells == 0 && VcSplit & VcCells == 0
  {
  }

  /** Testing for all of VcFaces demands both face bits. */
  lemma FacesNeedsBothBits(tid: u32)
    ensures HasAll(tid, VcFaces) <==> HasAll(tid, VcIFaces) && HasAll(tid, VcBFaces)
  {
  }

  /**
   * A tag with all of VcIBFaces also has all of VcFaces, so the split test has to
   * come first; the reverse does not follow (VcFaces alone is not split).
   */
  lemma SplitImpliesFaces(tid: u32)
    ensures HasAll(tid, VcIBFaces) ==> HasAll(tid, VcFaces)
    ensures HasAll(VcFaces, VcFaces) && !HasAll(VcFaces, VcIBFaces)
  {
  }

  /** Each combined tag is the cell bit joined with one face variant, and the cell bit is no face bit. */
  lemma CombinedTags()
    ensures VcCellsFaces == VcCells | VcFaces && VcCellsIFaces == VcCells | VcIFaces
    ensures VcCellsBFaces == VcCells | VcBFaces && VcCellsIBFaces == VcCells | VcIBFaces
    ensures VcCells & VcIBFaces == 0
    ensures VcCellsFaces & VcIBFaces == VcFaces && VcCellsIBFaces & VcIBFaces == VcIBFaces
    ensures VcCellsIFaces & VcIBFaces == VcIFaces && VcCellsBFaces & VcIBFaces == VcBFaces
  {
  }
}
