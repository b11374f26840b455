/**
 * The text records the polyMesh writers emit: the file header, the
 * reserved item-count field, face connectivity records with OpenFOAM's
 * winding, and row-wrapped address (label) records.
 */
module Records {
  import opened Text

  /** PWGM_ELEMTYPE_*: the element shapes the host mesh reports. */
  datatype ElemType = Bar | Hex | Quad | Tri | Tet | Wedge | Pyramid | Point

  /** PWGM_ELEMDATA: a shape, its vertex count and its global vertex indices. */
  datatype ElemData = ElemData(elemType: ElemType, vertCnt: nat, index: seq<nat>)

  /** The fixed capacity of PWGM_ELEMDATA's index array. */
  const MaxVerts: nat := 8

  predicate WellFormed(e: ElemData) {
    |e.index| == MaxVerts
  }

  /** Number of vertices a face of this shape uses, for the face shapes. */
  function FaceVerts(t: ElemType): nat {
    match t
    case Quad => 4
    case Tri => 3
    case Bar => 2
    case _ => 0
  }

  function Reverse(s: seq<nat>): (r: seq<nat>)
    ensures |r| == |s|
    decreases |s|
  {
    if s == [] then [] else Reverse(s[1..]) + [s[0]]
  }

  lemma {:induction false} ReverseAt(s: seq<nat>, k: nat)
    requires k < |s|
    ensures Reverse(s)[k] == s[|s| - 1 - k]
    decreases |s|
  {
    if k < |s| - 1 {
      ReverseAt(s[1..], k);
    }
  }

  /** Every vertex index raised by `offset`. */
  function Shift(s: seq<nat>, offset: nat): (r: seq<nat>)
    ensures |r| == |s| && forall i :: 0 <= i < |s| ==> r[i] == s[i] + offset
  {
    seq(|s|, i requires 0 <= i < |s| => s[i] + offset)
  }

  /**
   * FoamFacesFile::writeFace without the formatting: the vertex count it
   * prints and the vertex labels in the order it prints them, or None for a
   * shape it writes nothing for.
   */
  function FaceLabels(e: ElemData, is2D: bool, vertexCount: nat): Option<(nat, seq<nat>)>
    requires WellFormed(e)
  {
    var ix := e.index;
    match e.elemType
    case Quad => Some((e.vertCnt, [ix[3], ix[2], ix[1], ix[0]]))
    case Tri => Some((e.vertCnt, [ix[2], ix[1], ix[0]]))
    case Bar =>
      if is2D then Some((e.vertCnt + 2, [ix[0], ix[1], ix[1] + vertexCount, ix[0] + vertexCount]))
      else Some((e.vertCnt, [ix[1], ix[0]]))
    case _ => None
  }

  datatype Option<T> = None | Some(value: T)

  /**
   * The input winding points into the owner cell; OpenFOAM wants the
   * opposite, so quads and tris (in both 2D and 3D export) and bars (in 3D
   * export) are written in reversed vertex order, and nothing else is written.
   */
  lemma WindingIsReversed(e: ElemData, vertexCount: nat)
    requires WellFormed(e)
    ensures e.elemType in {Quad, Tri} ==> forall d: bool ::
      FaceLabels(e, d, vertexCount) == Some((e.vertCnt, Reverse(e.index[..FaceVerts(e.elemType)])))
    ensures e.elemType == Bar ==>
      FaceLabels(e, false, vertexCount) == Some((e.vertCnt, Reverse(e.index[..FaceVerts(e.elemType)])))
    ensures e.elemType !in {Quad, Tri, Bar} ==>
      FaceLabels(e, false, vertexCount).None? && FaceLabels(e, true, vertexCount).None?
  {
    var k := FaceVerts(e.elemType);
    if e.elemType in {Quad, Tri, Bar} {
      var r := Reverse(e.index[..k]);
      forall i | 0 <= i < k ensures r[i] == e.index[k - 1 - i] {
        ReverseAt(e.index[..k], i);
      }
      match FaceLabels(e, false, vertexCount)
      case Some(p) => assert p.1 == r;
      if e.elemType != Bar {
        assert FaceLabels(e, true, vertexCount) == FaceLabels(e, false, vertexCount);
      }
    }
  }

  /**
   * In 2D export a bar (a 2D cell edge) becomes the quad side face of the
   * extruded cell: its two points, then the same points on the offset
   * plane, whose indices are `vertexCount` higher.
   */
  lemma BarExtrudesToQuad(e: ElemData, vertexCount: nat)
    requires WellFormed(e) && e.elemType == Bar
    ensures var a, b, n: nat := e.index[0], e.index[1], e.vertCnt + 2;
      FaceLabels(e, true, vertexCount) == Some((n, [a, b] + Reverse(Shift([a, b], vertexCount))))
  {
    var s := Shift([e.index[0], e.index[1]], vertexCount);
    assert Reverse(s[1..]) == [s[1]] by {
      assert s[1..][1..] == [];
    }
    assert Reverse(s) == [s[1], s[0]];
    assert s[0] == e.index[0] + vertexCount && s[1] == e.index[1] + vertexCount;
    assert FaceLabels(e, true, vertexCount).value.1 == [e.index[0], e.index[1]] + Reverse(s);
  }

  /** Labels joined by single spaces. */
  function JoinLabels(s: seq<nat>): string
    decreases |s|
  {
    if s == [] then "" else if |s| == 1 then NatToString(s[0]) else NatToString(s[0]) + " " + JoinLabels(s[1..])
  }

  /** `%lu(%lu ... %lu)\n` */
  function FaceRecord(count: nat, labels: seq<nat>): string {
    NatToString(count) + "(" + JoinLabels(labels) + ")\n"
  }

  /** The chunk FoamFacesFile::writeFace appends, if any. */
  function FaceChunk(e: ElemData, is2D: bool, vertexCount: nat): Option<string>
    requires WellFormed(e)
  {
    match FaceLabels(e, is2D, vertexCount)
    case Some(p) => Some(FaceRecord(p.0, p.1))
    case None => None
  }

  /**
   * offsetVertices: the element copied onto the offset plane. The first three
   * index slots are always raised; a quad's fourth as well; then a quad or tri
   * is reversed in place so that writing it undoes the writer's reversal.
   */
  function OffsetIndices(offset: nat, e: ElemData): (r: ElemData)
    requires WellFormed(e)
    ensures WellFormed(r) && r.elemType == e.elemType && r.vertCnt == e.vertCnt
  {
    var ix := e.index;
    var raised := ix[0 := ix[0] + offset][1 := ix[1] + offset][2 := ix[2] + offset];
    var ix' :=
      match e.elemType
      case Quad => raised[3 := ix[3] + offset][0 := ix[3] + offset][3 := ix[0] + offset]
                     [1 := ix[2] + offset][2 := ix[1] + offset]
      case Tri => raised[0 := ix[2] + offset][2 := ix[0] + offset]
      case _ => raised;
    ElemData(e.elemType, e.vertCnt, ix')
  }

  /**
   * Writing an offset quad or tri emits the element's original vertex order,
   * every index raised by the offset: the top face of the extruded cell faces
   * the opposite way from its base.
   */
  lemma {:induction false} OffsetFaceKeepsOrder(offset: nat, e: ElemData, is2D: bool, vertexCount: nat)
    requires WellFormed(e) && e.elemType in {Quad, Tri}
    ensures FaceLabels(OffsetIndices(offset, e), is2D, vertexCount)
         == Some((e.vertCnt, Shift(e.index[..FaceVerts(e.elemType)], offset)))
  {
    var r := OffsetIndices(offset, e).index;
    var ix := e.index;
    var k := FaceVerts(e.elemType);
    var want := Shift(ix[..k], offset);
    if e.elemType == Quad {
      assert [r[3], r[2], r[1], r[0]] == want;
    } else {
      assert [r[2], r[1], r[0]] == want;
    }
  }

  /** FoamAddressFile::needNewline: the item at this count closes a row of ten. */
  function NeedNewline(numItems: nat): bool {
    numItems % 10 == 10 - 1
  }

  /** The chunk FoamAddressFile::writeAddress appends when `numItems` items precede it. */
  function AddressChunk(addr: nat, numItems: nat): string {
    " " + NatToString(addr) + (if NeedNewline(numItems) then "\n" else "")
  }

  /** The chunks of consecutive writeAddress calls starting at item `numItems`. */
  function AddressChunks(addrs: seq<nat>, numItems: nat): (r: seq<string>)
    ensures |r| == |addrs|
    decreases |addrs|
  {
    if addrs == [] then [] else [AddressChunk(addrs[0], numItems)] + AddressChunks(addrs[1..], numItems + 1)
  }

  /** FoamAddressFile::cleanup: end a partly filled last row. */
  function CleanupChunks(numItems: nat): seq<string> {
    if numItems % 10 != 0 then ["\n"] else []
  }

  /** One row of a labelList as the reference layout: each label after a space, then a newline. */
  function RowText(row: seq<nat>): string
    decreases |row|
  {
    if row == [] then "\n" else " " + NatToString(row[0]) + RowText(row[1..])
  }

  /** The reference layout of a labelList body: rows of ten, the last possibly shorter. */
  function Rows(addrs: seq<nat>): (r: seq<string>)
    decreases |addrs|
  {
    if addrs == [] then []
    else if |addrs| <= 10 then [RowText(addrs)]
    else [RowText(addrs[..10])] + Rows(addrs[10..])
  }

  lemma {:induction false} AddressChunksPeriodic(addrs: seq<nat>, n: nat)
    ensures AddressChunks(addrs, n + 10) == AddressChunks(addrs, n)
    decreases |addrs|
  {
    if addrs != [] {
      assert NeedNewline(n + 10) == NeedNewline(n);
      AddressChunksPeriodic(addrs[1..], n + 1);
    }
  }

  lemma {:induction false} AddressChunksSplit(a: seq<nat>, b: seq<nat>, n: nat)
    ensures AddressChunks(a + b, n) == AddressChunks(a, n) + AddressChunks(b, n + |a|)
    decreases |a|
  {
    if a == [] {
      assert a + b == b;
    } else {
      var t := a[1..];
      assert (a + b)[0] == a[0] && (a + b)[1..] == t + b;
      AddressChunksSplit(t, b, n + 1);
      assert AddressChunks(a + b, n) == [AddressChunk(a[0], n)] + AddressChunks(t + b, n + 1);
      assert AddressChunks(a, n) == [AddressChunk(a[0], n)] + AddressChunks(t, n + 1);
    }
  }

  /**
   * The chunks of a partial row starting at column `j` of a row, with a
   * newline added when the row is cut short, spell that row's text.
   */
  lemma {:induction false} RowChunks(row: seq<nat>, j: nat)
    requires row != [] && j + |row| <= 10
    ensures Concat(AddressChunks(row, j)) + (if j + |row| < 10 then "\n" else "") == RowText(row)
    decreases |row|
  {
    var c := AddressChunks(row, j);
    var head := " " + NatToString(row[0]);
    assert c == [AddressChunk(row[0], j)] + AddressChunks(row[1..], j + 1);
    assert Concat(c) == c[0] + Concat(c[1..]);
    assert RowText(row) == head + RowText(row[1..]);
    if |row| == 1 {
      assert c[1..] == [];
      assert RowText(row[1..]) == "\n";
      if j + 1 < 10 {
        assert c[0] == head;
      } else {
        assert c[0] == head + "\n";
      }
    } else {
      RowChunks(row[1..], j + 1);
      assert c[0] == head;
    }
  }

  /**
   * The address writer's chunks followed by its close-time cleanup spell
   * exactly the reference rows: every row holds at most ten labels and ends
   * in a newline, so the body parses as one labelList.
   */
  lemma {:induction false} AddressBodyIsRows(addrs: seq<nat>)
    ensures Concat(AddressChunks(addrs, 0) + CleanupChunks(|addrs|)) == Concat(Rows(addrs))
    decreases |addrs|
  {
    if addrs == [] {
    } else if |addrs| <= 10 {
      LastRowIsRows(addrs);
    } else {
      AddressBodyIsRows(addrs[10..]);
      FullRowIsRows(addrs);
    }
  }

  /** AddressBodyIsRows for at most one row. */
  lemma {:induction false} LastRowIsRows(addrs: seq<nat>)
    requires 0 < |addrs| <= 10
    ensures Concat(AddressChunks(addrs, 0) + CleanupChunks(|addrs|)) == Concat(Rows(addrs))
  {
    RowChunks(addrs, 0);
    assert Rows(addrs) == [RowText(addrs)];
    ConcatAppend(AddressChunks(addrs, 0), CleanupChunks(|addrs|));
    if |addrs| < 10 {
      assert Concat(CleanupChunks(|addrs|)) == "\n";
    } else {
      assert Concat(CleanupChunks(|addrs|)) == "";
    }
    assert Concat([RowText(addrs)]) == RowText(addrs);
  }

  /** AddressBodyIsRows for a full first row, given it for the rest. */
  lemma {:induction false} FullRowIsRows(addrs: seq<nat>)
    requires |addrs| > 10
    requires Concat(AddressChunks(addrs[10..], 0) + CleanupChunks(|addrs[10..]|)) == Concat(Rows(addrs[10..]))
    ensures Concat(AddressChunks(addrs, 0) + CleanupChunks(|addrs|)) == Concat(Rows(addrs))
  {
    var a, b := addrs[..10], addrs[10..];
    assert addrs == a + b;
    AddressChunksSplit(a, b, 0);
    AddressChunksPeriodic(b, 0);
    RowChunks(a, 0);
    var ca, cb := AddressChunks(a, 0), AddressChunks(b, 0) + CleanupChunks(|b|);
    assert Concat(ca) == RowText(a);
    assert |addrs| % 10 == |b| % 10 by {
      assert |addrs| == |b| + 10;
    }
    assert AddressChunks(addrs, 0) + CleanupChunks(|addrs|) == ca + cb;
    ConcatAppend(ca, cb);
    assert Rows(addrs) == [RowText(a)] + Rows(b);
    ConcatAppend([RowText(a)], Rows(b));
    assert Concat([RowText(a)]) == RowText(a);
  }

  /** Every row holds between one and ten labels. */
  lemma {:induction false} RowsAreShort(addrs: seq<nat>)
    ensures |Rows(addrs)| == (|addrs| + 9) / 10
    ensures forall i :: 0 <= i < |Rows(addrs)| ==>
      exists r: seq<nat> :: 1 <= |r| <= 10 && Rows(addrs)[i] == RowText(r)
    decreases |addrs|
  {
    if |addrs| > 10 {
      RowsAreShort(addrs[10..]);
      var rs := Rows(addrs);
      assert rs == [RowText(addrs[..10])] + Rows(addrs[10..]);
      forall i | 0 <= i < |rs|
        ensures exists r: seq<nat> :: 1 <= |r| <= 10 && rs[i] == RowText(r)
      {
        if i == 0 {
          var r := addrs[..10];
          assert 1 <= |r| <= 10 && rs[i] == RowText(r);
        } else {
          var r: seq<nat> :| 1 <= |r| <= 10 && Rows(addrs[10..])[i - 1] == RowText(r);
          assert rs[i] == RowText(r);
        }
      }
    } else if addrs != [] {
      assert 1 <= |addrs| <= 10 && Rows(addrs)[0] == RowText(addrs);
    }
  }

  /** `%*d` / `%*lu` with width -10: the reserved count line, left-justified. */
  function CountField(n: nat): string {
    PadRight(NatToString(n), 10) + "\n"
  }

  /**
   * Any count a 32-bit counter can hold fits the reserved field, so writing
   * it over the zero reserved at open leaves every other byte in place.
   */
  lemma CountFieldWidth(n: nat)
    requires n < 0x1_0000_0000
    ensures |CountField(n)| == |CountField(0)| == 11
  {
    assert 0x1_0000_0000 < Pow10(10);
    NatToStringLength(n, 10);
  }

  /** FoamFile::writeFileHeader */
  function FileHeader(version: string, format: string, cls: string, location: string, objectName: string): seq<string> {
    [ "FoamFile\n",
      "{\n",
      "    version     " + version + ";\n",
      "    format      " + format + ";\n",
      "    class       " + cls + ";\n",
      "    location    \"" + location + "\";\n",
      "    object      " + objectName + ";\n",
      "}\n",
      "\n" ]
  }
}
