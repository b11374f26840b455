/**
 * The framed file writer (FoamFile and its subclasses). An open file holds
 * the standard header, a reserved item-count line, an opening parenthesis
 * and the records written so far; closing it patches the count line with
 * the number of items and ends the list.
 *
 * A file's text is kept as the sequence of chunks the fprintf calls
 * produced, so the reserved count line is one chunk that close replaces.
 * The subclass a C++ object belongs to is its `kind`; the virtual hooks
 * (notifyClosing, the zone prefix and suffix) are chosen by kind.
 */
module FoamFiles {
  import opened Text
  import opened Records
  import opened Zones

  /** PWP_UINT32 counters wrap modulo 2^32. */
  const U32Range: nat := 0x1_0000_0000

  /** The subclass of FoamFile an object is, with its own state. */
  datatype FileKind =
    | Plain                                   // FoamPointFile, FoamBoundaryFile
    | Faces(is2D: bool, vertexCount: nat)     // FoamFacesFile
    | Address                                 // FoamAddressFile: owner, neighbour, cell and face sets
    | Zone(faceZone: bool)                    // FoamCellZoneFile, FoamFaceZoneFile

  /** BcStat: one run of boundary faces sharing a condition. */
  datatype BcStat = BcStat(name: string, bcType: string, nFaces: nat, startFace: nat)

  /** What open writes: header, the count reserved as zero, and `(`. */
  function OpenedText(version: string, format: string, cls: string, location: string,
                      objectName: string): seq<string>
  {
    FileHeader(version, format, cls, location, objectName) + [CountField(0), "(\n"]
  }

  /** The position of the reserved count chunk: right after the header. */
  const CountSlot: nat := 9

  /**
   * What close makes of an open file's chunks: the count slot patched with
   * `count`, an address file's partial row ended, and the list closed.
   */
  function ClosedText(kind: FileKind, content: seq<string>, pos: nat, count: nat): (r: seq<string>)
    requires pos < |content|
    ensures |r| >= |content| + 1 && r[pos] == CountField(count) && r[|r| - 1] == ")\n"
    ensures forall i :: 0 <= i < |content| && i != pos ==> r[i] == content[i]
  {
    content[pos := CountField(count)] + (if kind.Address? then CleanupChunks(count) else []) + [")\n"]
  }

  /** One entry of the boundary file. */
  function BoundaryEntry(s: BcStat): seq<string> {
    [ "    " + s.name + "\n",
      "    {\n",
      "        type " + s.bcType + ";\n",
      "        nFaces " + NatToString(s.nFaces) + ";\n",
      "        startFace " + NatToString(s.startFace) + ";\n",
      "    }\n" ]
  }

  function BoundaryEntries(stats: seq<BcStat>): (r: seq<string>)
    ensures |r| == 6 * |stats|
    decreases |stats|
  {
    if stats == [] then [] else BoundaryEntries(stats[..|stats| - 1]) + BoundaryEntry(stats[|stats| - 1])
  }

  /** BoundaryEntries of one run more. */
  lemma BoundaryEntriesStep(stats: seq<BcStat>, i: nat)
    requires i < |stats|
    ensures BoundaryEntries(stats[..i + 1]) == BoundaryEntries(stats[..i]) + BoundaryEntry(stats[i])
  {
    assert stats[..i + 1][..i] == stats[..i];
  }

  /** Closing an opened address file after `addrs` gives ClosedAddressFile's chunks. */
  lemma ClosedAddressChunks(version: string, format: string, cls: string, location: string,
                            objectName: string, addrs: seq<nat>, written: seq<string>)
    requires written == OpenedText(version, format, cls, location, objectName) + AddressChunks(addrs, 0)
    ensures ClosedText(Address, written, CountSlot, |addrs|)
         == ClosedAddressFile(version, format, cls, location, objectName, addrs)
  {
    var h := FileHeader(version, format, cls, location, objectName);
    PatchAfterPrefix(h, CountField(0), CountField(|addrs|), "(\n", AddressChunks(addrs, 0),
                     CleanupChunks(|addrs|), [")\n"]);
  }

  /** Patching the chunk right after a prefix, then appending, leaves the rest in place. */
  lemma PatchAfterPrefix<T>(h: seq<T>, a: T, x: T, y: T, rest: seq<T>, t1: seq<T>, t2: seq<T>)
    ensures (h + [a, y] + rest)[|h| := x] + t1 + t2 == h + [x, y] + rest + t1 + t2
  {
    assert (h + [a, y] + rest)[|h| := x] == h + [x, y] + rest;
  }

  /** What a write puts into the file: everything when it is open, nothing otherwise. */
  function IfOpen(open: bool, chunks: seq<string>): seq<string> {
    if open then chunks else []
  }

  /** Counting `n` more items after a wrapped count is counting them before wrapping. */
  lemma WrapAdd(c: nat, n: nat)
    ensures (c % U32Range + n) % U32Range == (c + n) % U32Range
  {
    var q := c / U32Range;
    assert c == q * U32Range + c % U32Range;
    WrapMultiple(q, c % U32Range + n);
  }

  lemma WrapMultiple(q: nat, x: nat)
    ensures (q * U32Range + x) % U32Range == x % U32Range
  {
    var y := q * U32Range + x;
    assert y == (q + x / U32Range) * U32Range + x % U32Range;
  }

  lemma IfOpenAppend(open: bool, prior: seq<string>, a: seq<string>, b: seq<string>)
    ensures prior + IfOpen(open, a) + IfOpen(open, b) == prior + IfOpen(open, a + b)
  {
  }

  class FoamFile {
    const kind: FileKind
    /** class_, object_, location_, version_, format_ */
    var cls: string
    var objectName: string
    const location: string
    const version: string
    const format: string
    /** fp_ != 0 */
    var isOpen: bool
    /** numItems_ */
    var numItems: nat
    /** The chunks of the file this object last opened. */
    var content: seq<string>
    /** pos_: the chunk holding the reserved count. */
    var pos: nat
    /** The items counted since the last open, without wrap-around. */
    ghost var counted: nat

    ghost predicate Valid()
      reads this
    {
      numItems < U32Range && numItems == counted % U32Range &&
      (isOpen ==> pos == CountSlot && pos + 1 < |content| &&
                  content[pos] == CountField(0) && content[pos + 1] == "(\n")
    }

    /** FoamFile(cls, object, location, version, format) with the source's defaults. */
    constructor (kind: FileKind, cls: string, objectName: string,
                 location: string := "constant/polyMesh", version: string := "2.0",
                 format: string := "ascii")
      ensures Valid() && !isOpen && numItems == 0 && content == []
      ensures this.kind == kind && this.cls == cls && this.objectName == objectName
      ensures this.location == location && this.version == version && this.format == format
    {
      this.kind := kind;
      this.cls := cls;
      this.objectName := objectName;
      this.location := location;
      this.version := version;
      this.format := format;
      isOpen := false;
      numItems := 0;
      content := [];
      pos := 0;
      counted := 0;
    }

    /** FoamFile::setClass */
    method SetClass(cls: string)
      requires Valid()
      modifies this
      ensures Valid() && this.cls == cls
      ensures objectName == old(objectName) && isOpen == old(isOpen) && numItems == old(numItems)
      ensures content == old(content) && pos == old(pos) && counted == old(counted)
    {
      this.cls := cls;
    }

    /**
     * FoamFile::open: close whatever was open, reset the counter, adopt
     * `name` if one is given, and (when the name is not empty and the file
     * system lets it be created) write the header and reserve the count.
     */
    method Open(name: Option<string>, canCreate: bool) returns (ok: bool)
      requires Valid()
      modifies this
      ensures Valid() && ok == isOpen && numItems == 0 && counted == 0
      ensures objectName == (if name.Some? then name.value else old(objectName))
      ensures cls == old(cls)
      ensures isOpen <==> objectName != "" && canCreate
      ensures isOpen ==> content == OpenedText(version, format, cls, location, objectName)
      ensures !isOpen ==> content == (if old(isOpen) then ClosedText(kind, old(content), old(pos), old(numItems))
                                                     else old(content))
    {
      Close();
      numItems := 0;
      counted := 0;
      if name.Some? {
        objectName := name.value;
      }
      if objectName != "" && canCreate {
        isOpen := true;
        content := FileHeader(version, format, cls, location, objectName);
        pos := |content|;
        content := content + [CountField(0)];
        content := content + ["(\n"];
      }
      ok := isOpen;
    }

    /**
     * FoamFile::close: on an open file, patch the count slot with the
     * number of items counted since open (modulo 2^32), let an address
     * file end its partial row, and end the list; nothing otherwise.
     */
    method Close()
      requires Valid()
      modifies this
      ensures Valid() && !isOpen
      ensures numItems == old(numItems) && counted == old(counted)
      ensures cls == old(cls) && objectName == old(objectName)
      ensures old(isOpen) ==> content == ClosedText(kind, old(content), old(pos), old(counted) % U32Range)
      ensures !old(isOpen) ==> content == old(content)
    {
      if isOpen {
        CountFieldWidth(numItems);
        content := content[pos := CountField(numItems)];
        if kind.Address? && numItems % 10 != 0 {
          content := content + ["\n"];
        }
        content := content + [")\n"];
        isOpen := false;
      }
    }

    /** FoamFile::incrNumItems: add `incr` to the 32-bit counter. */
    method IncrNumItems(incr: nat := 1) returns (n: nat)
      requires Valid() && incr < U32Range
      modifies this
      ensures Valid() && n == numItems == (old(numItems) + incr) % U32Range
      ensures counted == old(counted) + incr
      ensures isOpen == old(isOpen) && content == old(content) && pos == old(pos)
      ensures cls == old(cls) && objectName == old(objectName)
    {
      counted := counted + incr;
      numItems := (numItems + incr) % U32Range;
      n := numItems;
    }

    /** fprintf to the file: appends when open. Writing through a null FILE is left out. */
    method Emit(chunk: string)
      requires Valid()
      modifies this
      ensures Valid() && content == old(content) + IfOpen(isOpen, [chunk])
      ensures isOpen == old(isOpen) && numItems == old(numItems) && counted == old(counted)
      ensures pos == old(pos) && cls == old(cls) && objectName == old(objectName)
    {
      if isOpen {
        content := content + [chunk];
      }
    }

    /**
     * FoamFacesFile::writeFace: a quad, tri or bar is written with
     * OpenFOAM's winding and counted; any other shape writes nothing and
     * is not counted.
     */
    method WriteFace(e: ElemData)
      requires Valid() && kind.Faces? && WellFormed(e)
      modifies this
      ensures Valid() && isOpen == old(isOpen) && pos == old(pos)
      ensures cls == old(cls) && objectName == old(objectName)
      ensures match FaceChunk(e, kind.is2D, kind.vertexCount)
        case None => content == old(content) && numItems == old(numItems) && counted == old(counted)
        case Some(c) => content == old(content) + IfOpen(isOpen, [c])
                        && numItems == (old(numItems) + 1) % U32Range && counted == old(counted) + 1
    {
      var ix := e.index;
      match e.elemType {
        case Quad =>
          EmitRecord(e.vertCnt, [ix[3], ix[2], ix[1], ix[0]]);
        case Tri =>
          EmitRecord(e.vertCnt, [ix[2], ix[1], ix[0]]);
        case Bar =>
          if kind.is2D {
            var n := kind.vertexCount;
            EmitRecord(e.vertCnt + 2, [ix[0], ix[1], ix[1] + n, ix[0] + n]);
          } else {
            EmitRecord(e.vertCnt, [ix[1], ix[0]]);
          }
        case _ =>
      }
    }

    /** One `%lu(%lu ... %lu)` record of writeFace, counted as an item. */
    method EmitRecord(count: nat, labels: seq<nat>)
      requires Valid()
      modifies this
      ensures Valid() && isOpen == old(isOpen) && pos == old(pos)
      ensures cls == old(cls) && objectName == old(objectName)
      ensures content == old(content) + IfOpen(isOpen, [FaceRecord(count, labels)])
      ensures numItems == (old(numItems) + 1) % U32Range && counted == old(counted) + 1
    {
      Emit(FaceRecord(count, labels));
      var _ := IncrNumItems();
    }

    /**
     * FoamAddressFile::writeAddress: the label after a space, then a
     * newline when it completes a row of ten; always counted.
     */
    method WriteAddress(addr: nat)
      requires Valid() && kind.Address?
      modifies this
      ensures Valid() && isOpen == old(isOpen) && pos == old(pos)
      ensures cls == old(cls) && objectName == old(objectName)
      ensures content == old(content) + IfOpen(isOpen, [AddressChunk(addr, old(numItems))])
      ensures numItems == (old(numItems) + 1) % U32Range && counted == old(counted) + 1
    {
      var nl := numItems % 10 == 10 - 1;
      Emit(" " + NatToString(addr) + (if nl then "\n" else ""));
      var _ := IncrNumItems();
    }

    /**
     * A set or address file as the exporter drives it: opened under `name`,
     * each label of `addrs` written in turn, then closed. Once it opened,
     * it holds exactly ClosedAddressFile's chunks, the text ClosedSetFileText
     * and SpliceRoundTrip are about.
     */
    method WriteAddressFile(name: string, canCreate: bool, addrs: seq<nat>) returns (ok: bool)
      requires Valid() && kind.Address? && |addrs| < U32Range
      modifies this
      ensures Valid() && !isOpen && objectName == name && cls == old(cls)
      ensures ok <==> name != "" && canCreate
      ensures ok ==> content == ClosedAddressFile(version, format, cls, location, name, addrs)
      ensures numItems == |addrs| && counted == |addrs|
    {
      ok := Open(Some(name), canCreate);
      ghost var c0 := content;
      var i := 0;
      while i < |addrs|
        invariant i <= |addrs|
        invariant Valid() && isOpen == ok && objectName == name && cls == old(cls)
        invariant ok ==> pos == CountSlot
        invariant numItems == i && counted == i
        invariant content == c0 + IfOpen(ok, AddressChunks(addrs[..i], 0))
      {
        WriteAddress(addrs[i]);
        assert addrs[..i + 1] == addrs[..i] + [addrs[i]];
        AddressChunksSplit(addrs[..i], [addrs[i]], 0);
        i := i + 1;
      }
      assert addrs[..i] == addrs;
      ghost var written := content;
      Close();
      if ok {
        ClosedAddressChunks(version, format, cls, location, name, addrs, written);
      }
    }

    /** One entry of FoamBoundaryFile::writeBoundaries, before it is counted. */
    method WriteBoundary(s: BcStat)
      requires Valid()
      modifies this
      ensures Valid() && isOpen == old(isOpen) && pos == old(pos)
      ensures cls == old(cls) && objectName == old(objectName)
      ensures content == old(content) + IfOpen(isOpen, BoundaryEntry(s))
      ensures numItems == old(numItems) && counted == old(counted)
    {
      Emit("    " + s.name + "\n");
      Emit("    {\n");
      Emit("        type " + s.bcType + ";\n");
      Emit("        nFaces " + NatToString(s.nFaces) + ";\n");
      Emit("        startFace " + NatToString(s.startFace) + ";\n");
      Emit("    }\n");
    }

    /** One pass of the loop of writeBoundaries: entry `i`, then the count. */
    method WriteCountedBoundary(stats: seq<BcStat>, i: nat, ghost content0: seq<string>, ghost counted0: nat)
      requires Valid() && i < |stats|
      requires content == content0 + IfOpen(isOpen, BoundaryEntries(stats[..i])) && counted == counted0 + i
      modifies this
      ensures Valid() && isOpen == old(isOpen) && pos == old(pos)
      ensures cls == old(cls) && objectName == old(objectName)
      ensures content == content0 + IfOpen(isOpen, BoundaryEntries(stats[..i + 1])) && counted == counted0 + i + 1
    {
      WriteBoundary(stats[i]);
      var _ := IncrNumItems();
      BoundaryEntriesStep(stats, i);
      IfOpenAppend(isOpen, content0, BoundaryEntries(stats[..i]), BoundaryEntry(stats[i]));
    }

    /** FoamBoundaryFile::writeBoundaries: one entry per run, each counted. */
    method WriteBoundaries(stats: seq<BcStat>)
      requires Valid()
      modifies this
      ensures Valid() && isOpen == old(isOpen) && pos == old(pos)
      ensures cls == old(cls) && objectName == old(objectName)
      ensures content == old(content) + IfOpen(isOpen, BoundaryEntries(stats))
      ensures numItems == (old(numItems) + |stats|) % U32Range && counted == old(counted) + |stats|
    {
      ghost var c0, k0 := content, counted;
      var i := 0;
      while i < |stats|
        invariant 0 <= i <= |stats|
        invariant Valid() && isOpen == old(isOpen) && pos == old(pos)
        invariant cls == old(cls) && objectName == old(objectName)
        invariant content == c0 + IfOpen(isOpen, BoundaryEntries(stats[..i]))
        invariant counted == k0 + i
      {
        WriteCountedBoundary(stats, i, c0, k0);
        i := i + 1;
      }
      assert stats[..i] == stats;
      WrapAdd(k0, |stats|);
    }

    /** The head of a zone entry (FoamZoneFile::writeSet up to the label list). */
    method WriteZoneHead(setName: string)
      requires Valid()
      modifies this
      ensures Valid() && isOpen == old(isOpen) && pos == old(pos)
      ensures cls == old(cls) && objectName == old(objectName)
      ensures content == old(content) + IfOpen(isOpen, ZoneHead(old(numItems), setName, objectName))
      ensures numItems == old(numItems) && counted == old(counted)
    {
      ghost var c0 := content;
      ghost var head := if numItems != 0 then ["\n"] else [];
      if numItems != 0 {
        Emit("\n");
      }
      Emit(SetNameLine(setName));
      IfOpenAppend(isOpen, c0, head, [SetNameLine(setName)]);
      head := head + [SetNameLine(setName)];
      Emit("{\n");
      IfOpenAppend(isOpen, c0, head, ["{\n"]);
      head := head + ["{\n"];
      Emit(TypeLine(objectName));
      IfOpenAppend(isOpen, c0, head, [TypeLine(objectName)]);
      head := head + [TypeLine(objectName)];
      Emit(LabelsLine(objectName));
      IfOpenAppend(isOpen, c0, head, [LabelsLine(objectName)]);
      ZoneHeadLines(old(numItems), setName, objectName);
    }

    /**
     * The second loop of FoamZoneFile::writeSet: from the count line on,
     * copy each line indented until one holding `)` has been copied or the
     * lines run out; `ok` tells the former.
     */
    method CopyLabelLines(lines: seq<string>, c: nat) returns (ok: bool)
      requires Valid() && c < |lines|
      modifies this
      ensures Valid() && isOpen == old(isOpen) && pos == old(pos)
      ensures cls == old(cls) && objectName == old(objectName)
      ensures numItems == old(numItems) && counted == old(counted)
      ensures ok == (FindClose(lines, c) < |lines|)
      ensures content == old(content) + IfOpen(isOpen, Indented(CopiedFrom(lines, c)))
    {
      var next := c + 1;
      var eof := false;
      var buf := lines[c];
      ghost var upto := c;
      ghost var c0, n0, k0 := content, numItems, counted;
      while !eof
        invariant c < next <= |lines| && upto <= next
        invariant !eof ==> buf == lines[next - 1] && upto == next - 1
        invariant eof ==> next == |lines| && upto == |lines|
        invariant forall m :: c <= m < upto ==> !Contains(lines[m], ')')
        invariant Valid() && isOpen == old(isOpen) && pos == old(pos)
        invariant cls == old(cls) && objectName == old(objectName)
        invariant numItems == n0 && counted == k0
        invariant content == c0 + IfOpen(isOpen, Indented(lines[c..upto]))
        decreases |lines| - next + (if eof then 0 else 1)
      {
        CopyLabelLine(lines, c, upto, buf, c0);
        upto := upto + 1;
        if Contains(buf, ')') {
          break;
        }
        if next < |lines| {
          buf := lines[next];
          next := next + 1;
        } else {
          eof := true;
        }
      }
      ok := !eof;
      if ok {
        FindCloseAt(lines, c, upto - 1);
        assert lines[c..upto] == CopiedFrom(lines, c);
      } else {
        assert FindClose(lines, c) == |lines|;
        assert lines[c..upto] == CopiedFrom(lines, c);
      }
    }

    /** One pass of the copy loop of FoamZoneFile::writeSet: line `upto` copied indented. */
    method CopyLabelLine(lines: seq<string>, c: nat, ghost upto: nat, line: string, ghost c0: seq<string>)
      requires Valid() && c <= upto < |lines| && line == lines[upto]
      requires content == c0 + IfOpen(isOpen, Indented(lines[c..upto]))
      modifies this
      ensures Valid() && isOpen == old(isOpen) && pos == old(pos)
      ensures cls == old(cls) && objectName == old(objectName)
      ensures numItems == old(numItems) && counted == old(counted)
      ensures content == c0 + IfOpen(isOpen, Indented(lines[c..upto + 1]))
    {
      Emit("  " + line);
      assert lines[c..upto + 1] == lines[c..upto] + [lines[upto]];
      IndentedAppend(lines[c..upto], lines[upto]);
      IfOpenAppend(isOpen, c0, Indented(lines[c..upto]), ["  " + lines[upto]]);
    }

    /**
     * FoamZoneFile::writeSet: append one zone entry named `setName`, with
     * the label block spliced out of that set file (`setFile` is its
     * lines, None when it cannot be opened). Reports whether the block's
     * closing line was reached before end-of-file.
     */
    method WriteSet(setName: string, setFile: Option<seq<string>>) returns (ok: bool)
      requires Valid() && kind.Zone?
      modifies this
      ensures Valid() && isOpen == old(isOpen) && pos == old(pos)
      ensures cls == old(cls) && objectName == old(objectName)
      ensures ok == SpliceOf(setFile).ok
      ensures content == old(content) +
        IfOpen(isOpen, ZoneEntry(old(numItems), setName, objectName, kind.faceZone, SpliceOf(setFile)))
      ensures numItems == (old(numItems) + 1) % U32Range && counted == old(counted) + 1
    {
      ghost var spl := SpliceOf(setFile);
      WriteZoneHead(setName);
      var labelCnt;
      ok, labelCnt := WriteLabels(setFile);
      WriteZoneTail(labelCnt);
      var _ := IncrNumItems();
      ghost var head := ZoneHead(old(numItems), setName, objectName);
      ghost var tail := ZoneTail(kind.faceZone, labelCnt);
      IfOpenAppend(isOpen, old(content), head, Indented(spl.copied));
      IfOpenAppend(isOpen, old(content), head + Indented(spl.copied), tail);
      assert ZoneEntry(old(numItems), setName, objectName, kind.faceZone, spl) == head + Indented(spl.copied) + tail;
    }

    /**
     * The two loops of FoamZoneFile::writeSet: the label lines spliced out
     * of the set file, copied indented, and the count they announce.
     */
    method WriteLabels(setFile: Option<seq<string>>) returns (ok: bool, labelCnt: nat)
      requires Valid()
      modifies this
      ensures Valid() && isOpen == old(isOpen) && pos == old(pos)
      ensures cls == old(cls) && objectName == old(objectName)
      ensures numItems == old(numItems) && counted == old(counted)
      ensures ok == SpliceOf(setFile).ok && labelCnt == SpliceOf(setFile).labelCnt
      ensures content == old(content) + IfOpen(isOpen, Indented(SpliceOf(setFile).copied))
    {
      if setFile.Some? {
        ok, labelCnt := WriteFileLabels(setFile.value);
      } else {
        ok, labelCnt := false, 0;
        assert Indented([]) == [];
      }
    }

    /** WriteLabels for a set file that could be opened, whose lines are `all`. */
    method WriteFileLabels(all: seq<string>) returns (ok: bool, labelCnt: nat)
      requires Valid()
      modifies this
      ensures Valid() && isOpen == old(isOpen) && pos == old(pos)
      ensures cls == old(cls) && objectName == old(objectName)
      ensures numItems == old(numItems) && counted == old(counted)
      ensures ok == SpliceOf(Some(all)).ok && labelCnt == SpliceOf(Some(all)).labelCnt
      ensures content == old(content) + IfOpen(isOpen, Indented(SpliceOf(Some(all)).copied))
    {
      var lines := Visible(all);
      var next, eof, cnt := SkipToCount(lines);
      labelCnt := cnt;
      if !eof {
        SpliceFound(all);
        ok := WriteFoundLabels(all, next - 1);
      } else {
        ok := false;
        SpliceMissing(all);
        assert Indented([]) == [];
      }
    }

    /** The copy loop of WriteFileLabels, once the count line `c` has been found. */
    method WriteFoundLabels(all: seq<string>, c: nat) returns (ok: bool)
      requires Valid() && c == FindCount(Visible(all), 0) < |Visible(all)|
      modifies this
      ensures Valid() && isOpen == old(isOpen) && pos == old(pos)
      ensures cls == old(cls) && objectName == old(objectName)
      ensures numItems == old(numItems) && counted == old(counted)
      ensures ok == SpliceOf(Some(all)).ok
      ensures content == old(content) + IfOpen(isOpen, Indented(SpliceOf(Some(all)).copied))
    {
      SpliceFound(all);
      ok := CopyLabelLines(Visible(all), c);
    }

    /** The end of a zone entry: the list terminator, a face zone's flip map, and `}`. */
    method WriteZoneTail(labelCnt: nat)
      requires Valid() && kind.Zone?
      modifies this
      ensures Valid() && isOpen == old(isOpen) && pos == old(pos)
      ensures cls == old(cls) && objectName == old(objectName)
      ensures content == old(content) + IfOpen(isOpen, ZoneTail(kind.faceZone, labelCnt))
      ensures numItems == old(numItems) && counted == old(counted)
    {
      Emit("  ;\n");
      if kind.faceZone {
        Emit("  flipMap List<bool> " + NatToString(labelCnt) + "{0};\n");
      }
      Emit("}\n");
    }
  }

  /** A file object just constructed, not yet opened. */
  ghost predicate Unopened(f: FoamFile, kind: FileKind, cls: string, objectName: string, location: string)
    reads f
  {
    f.Valid() && !f.isOpen && f.numItems == 0 && f.content == [] &&
    f.kind == kind && f.cls == cls && f.objectName == objectName && f.location == location &&
    f.version == "2.0" && f.format == "ascii"
  }

  /** FoamPointFile: the `points` vectorField. */
  method NewPointFile() returns (f: FoamFile)
    ensures fresh(f) && Unopened(f, Plain, "vectorField", "points", "constant/polyMesh")
  {
    f := new FoamFile(Plain, "vectorField", "points");
  }

  /** FoamFacesFile: the `faces` faceList. */
  method NewFacesFile(is2D: bool, vertexCount: nat) returns (f: FoamFile)
    ensures fresh(f) && Unopened(f, Faces(is2D, vertexCount), "faceList", "faces", "constant/polyMesh")
  {
    f := new FoamFile(Faces(is2D, vertexCount), "faceList", "faces");
  }

  /** FoamOwnerFile and FoamNeighbourFile: labelLists named `owner` and `neighbour`. */
  method NewAddressFile(objectName: string) returns (f: FoamFile)
    ensures fresh(f) && Unopened(f, Address, "labelList", objectName, "constant/polyMesh")
  {
    f := new FoamFile(Address, "labelList", objectName);
  }

  /** FoamCellSetFile / FoamFaceSetFile: an unnamed label list in the sets directory, of class `cls`. */
  method NewSetFile(cls: string) returns (f: FoamFile)
    ensures fresh(f) && Unopened(f, Address, cls, "", "constant/polyMesh/sets")
  {
    f := new FoamFile(Address, "labelList", "", "constant/polyMesh/sets");
    f.SetClass(cls);
  }

  /** FoamCellZoneFile / FoamFaceZoneFile. */
  method NewZoneFile(faceZone: bool) returns (f: FoamFile)
    ensures fresh(f)
    ensures Unopened(f, Zone(faceZone), "regIOobject", if faceZone then "faceZones" else "cellZones", "constant/polyMesh")
  {
    f := new FoamFile(Zone(faceZone), "regIOobject", if faceZone then "faceZones" else "cellZones", "constant/polyMesh");
  }

  /** FoamBoundaryFile: the `boundary` polyBoundaryMesh. */
  method NewBoundaryFile() returns (f: FoamFile)
    ensures fresh(f) && Unopened(f, Plain, "polyBoundaryMesh", "boundary", "constant/polyMesh")
  {
    f := new FoamFile(Plain, "polyBoundaryMesh", "boundary");
  }

  /**
   * The first fgets and the loop that skips the header: reads lines until
   * one scans as a count. `next` is the number of lines read; `eof` tells
   * that the lines ran out first.
   */
  method SkipToCount(lines: seq<string>) returns (next: nat, eof: bool, labelCnt: nat)
    ensures eof <==> FindCount(lines, 0) == |lines|
    ensures eof ==> next == |lines| && labelCnt == 0
    ensures !eof ==> next == FindCount(lines, 0) + 1 && labelCnt == ScanCount(lines[next - 1]).value
  {
    labelCnt := 0;
    next := 0;
    eof := false;
    var buf := "";
    if next < |lines| {
      buf := lines[next];
      next := next + 1;
    } else {
      eof := true;
    }
    while !eof
      invariant next <= |lines|
      invariant !eof ==> 1 <= next && buf == lines[next - 1]
      invariant eof ==> next == |lines|
      invariant forall m :: 0 <= m < (if eof then next else next - 1) ==> ScanCount(lines[m]).None?
      invariant labelCnt == 0
      decreases |lines| - next + (if eof then 0 else 1)
    {
      var scanned := ScanCount(buf);
      if scanned.Some? {
        labelCnt := scanned.value;
        break;
      }
      if next < |lines| {
        buf := lines[next];
        next := next + 1;
      } else {
        eof := true;
      }
    }
    if eof {
      FindCountNone(lines, 0);
    } else {
      FindCountAt(lines, 0, next - 1);
    }
  }

  /** With no line holding `)`, FindClose runs to the end. */
  lemma {:induction false} FindCloseNone(lines: seq<string>, i: nat)
    requires i <= |lines|
    requires forall m :: i <= m < |lines| ==> !Contains(lines[m], ')')
    ensures FindClose(lines, i) == |lines|
    decreases |lines| - i
  {
    if i < |lines| {
      FindCloseNone(lines, i + 1);
    }
  }

  /** With no line scanning, FindCount runs to the end. */
  lemma {:induction false} FindCountNone(lines: seq<string>, i: nat)
    requires i <= |lines|
    requires forall m :: i <= m < |lines| ==> ScanCount(lines[m]).None?
    ensures FindCount(lines, i) == |lines|
    decreases |lines| - i
  {
    if i < |lines| {
      FindCountNone(lines, i + 1);
    }
  }
}
