/**
 * How a zone entry is spliced out of a set file (FoamZoneFile::writeSet):
 * skip the header up to the first line that reads as a bare count, then
 * copy lines up to and including the one holding the list's `)`.
 * A file is given as the lines successive fgets calls return.
 */
module Zones {
  import opened Text
  import opened Records

  /** isspace in the C locale. */
  predicate IsSpace(c: char) {
    c == ' ' || c == '\t' || c == '\n' || c == '\U{B}' || c == '\U{C}' || c == '\r'
  }

  /** Index of the first non-space character at or after `i`. */
  function SkipSpaces(s: string, i: nat): (k: nat)
    requires i <= |s|
    ensures i <= k <= |s| && (k < |s| ==> !IsSpace(s[k]))
    ensures forall m :: i <= m < k ==> IsSpace(s[m])
    decreases |s| - i
  {
    if i < |s| && IsSpace(s[i]) then SkipSpaces(s, i + 1) else i
  }

  /** Index just past the run of digits starting at `i`. */
  function DigitsEnd(s: string, i: nat): (k: nat)
    requires i <= |s|
    ensures i <= k <= |s| && (k < |s| ==> !IsDigit(s[k]))
    ensures forall m :: i <= m < k ==> IsDigit(s[m])
    decreases |s| - i
  {
    if i < |s| && IsDigit(s[i]) then DigitsEnd(s, i + 1) else i
  }

  /** 2^64: one more than ULONG_MAX on an LP64 platform. */
  const ULongRange: nat := 0x1_0000_0000_0000_0000

  /**
   * `sscanf(line, " %lu \n", &v) == 1`: after optional white space, an
   * optional sign and at least one digit. A minus sign negates modulo 2^64,
   * as strtoul does.
   */
  function ScanCount(line: string): Option<nat> {
    var i := SkipSpaces(line, 0);
    var signed := i < |line| && (line[i] == '+' || line[i] == '-');
    var j := if signed then i + 1 else i;
    var k := DigitsEnd(line, j);
    if k == j then None
    else
      var v := ParseDigits(line[j..k]);
      Some(if signed && line[i] == '-' then (ULongRange - v % ULongRange) % ULongRange else v)
  }

  predicate EndsWithNewline(s: string) {
    |s| > 0 && s[|s| - 1] == '\n'
  }

  /**
   * The lines the copy loops get to look at. fgets sets end-of-file while
   * reading a last line that has no newline, and both loops test
   * end-of-file before they look at the line just read, so such a line is
   * never seen.
   */
  function Visible(lines: seq<string>): (v: seq<string>)
    ensures |v| <= |lines| && v == lines[..|v|]
  {
    if lines != [] && !EndsWithNewline(lines[|lines| - 1]) then lines[..|lines| - 1] else lines
  }

  /** First index at or after `i` whose line reads as a count, or |lines|. */
  function FindCount(lines: seq<string>, i: nat): (c: nat)
    requires i <= |lines|
    ensures i <= c <= |lines| && (c < |lines| ==> ScanCount(lines[c]).Some?)
    ensures forall m :: i <= m < c ==> ScanCount(lines[m]).None?
    decreases |lines| - i
  {
    if i == |lines| || ScanCount(lines[i]).Some? then i else FindCount(lines, i + 1)
  }

  /** First index at or after `i` whose line contains `)`, or |lines|. */
  function FindClose(lines: seq<string>, i: nat): (e: nat)
    requires i <= |lines|
    ensures i <= e <= |lines| && (e < |lines| ==> Contains(lines[e], ')'))
    ensures forall m :: i <= m < e ==> !Contains(lines[m], ')')
    decreases |lines| - i
  {
    if i == |lines| || Contains(lines[i], ')') then i else FindClose(lines, i + 1)
  }

  /** What writeSet takes from a set file. */
  datatype Splice = Splice(copied: seq<string>, labelCnt: nat, ok: bool)

  /**
   * The lines copied (from the count line through the first line with
   * `)`), the count that line announced, and whether the closing line was
   * reached before end-of-file. A file that could not be opened gives
   * nothing and failure.
   */
  function SpliceOf(file: Option<seq<string>>): (r: Splice)
    ensures file.None? ==> r == Splice([], 0, false)
  {
    match file
    case None => Splice([], 0, false)
    case Some(all) =>
      var lines := Visible(all);
      var c := FindCount(lines, 0);
      if c == |lines| then Splice([], 0, false)
      else Splice(CopiedFrom(lines, c), ScanCount(lines[c]).value, FindClose(lines, c) < |lines|)
  }

  /** The lines copied from the count line `c`: through the first line with `)`, or to the end. */
  function CopiedFrom(lines: seq<string>, c: nat): seq<string>
    requires c <= |lines|
  {
    var e := FindClose(lines, c);
    if e == |lines| then lines[c..] else lines[c..e + 1]
  }

  /** A set file with a count line: the splice runs from that line to the first `)` or to the end. */
  lemma SpliceFound(all: seq<string>)
    requires FindCount(Visible(all), 0) < |Visible(all)|
    ensures var lines := Visible(all);
      var c := FindCount(lines, 0);
      SpliceOf(Some(all)) == Splice(CopiedFrom(lines, c), ScanCount(lines[c]).value, FindClose(lines, c) < |lines|)
  {
  }

  /** A set file without a count line gives nothing and failure. */
  lemma SpliceMissing(all: seq<string>)
    requires FindCount(Visible(all), 0) == |Visible(all)|
    ensures SpliceOf(Some(all)) == Splice([], 0, false)
  {
  }

  /** The lines of a closed set file, laid out as the reference rows. */
  function SetFileLines(version: string, format: string, cls: string, location: string,
                        objectName: string, addrs: seq<nat>): seq<string>
  {
    FileHeader(version, format, cls, location, objectName) + LabelBlock(addrs)
  }

  /** The chunks an address file holds once `addrs` were written and it was closed. */
  function ClosedAddressFile(version: string, format: string, cls: string, location: string,
                             objectName: string, addrs: seq<nat>): seq<string>
  {
    FileHeader(version, format, cls, location, objectName)
      + [CountField(|addrs|), "(\n"] + AddressChunks(addrs, 0) + CleanupChunks(|addrs|) + [")\n"]
  }

  /** A closed set file's text is exactly its reference lines. */
  lemma ClosedSetFileText(version: string, format: string, cls: string, location: string,
                          objectName: string, addrs: seq<nat>)
    ensures Concat(ClosedAddressFile(version, format, cls, location, objectName, addrs))
         == Concat(SetFileLines(version, format, cls, location, objectName, addrs))
  {
    var h := FileHeader(version, format, cls, location, objectName) + [CountField(|addrs|), "(\n"];
    var body := AddressChunks(addrs, 0) + CleanupChunks(|addrs|);
    assert ClosedAddressFile(version, format, cls, location, objectName, addrs) == h + (body + [")\n"]);
    assert SetFileLines(version, format, cls, location, objectName, addrs) == h + (Rows(addrs) + [")\n"]);
    ConcatAppend(h, body + [")\n"]);
    ConcatAppend(body, [")\n"]);
    ConcatAppend(h, Rows(addrs) + [")\n"]);
    ConcatAppend(Rows(addrs), [")\n"]);
    AddressBodyIsRows(addrs);
  }

  /** DigitsEnd stops at the first non-digit. */
  lemma {:induction false} DigitsEndAt(s: string, i: nat, k: nat)
    requires i <= k <= |s| && (k < |s| ==> !IsDigit(s[k]))
    requires forall m :: i <= m < k ==> IsDigit(s[m])
    ensures DigitsEnd(s, i) == k
    decreases k - i
  {
    if i < k {
      DigitsEndAt(s, i + 1, k);
    }
  }

  lemma CountFieldScans(n: nat)
    ensures ScanCount(CountField(n)) == Some(n)
    ensures !Contains(CountField(n), ')') && EndsWithNewline(CountField(n))
  {
    var s := CountField(n);
    var d := NatToString(n);
    NatToStringRoundTrip(n);
    assert s[..|d|] == d;
    assert SkipSpaces(s, 0) == 0;
    assert |d| < |s| && !IsDigit(s[|d|]) by {
      assert s[|d|] == if |d| < 10 then ' ' else '\n';
    }
    DigitsEndAt(s, 0, |d|);
    var k := DigitsEnd(s, 0);
    assert s[0..k] == d;
  }

  lemma {:induction false} RowTextPlain(row: seq<nat>)
    ensures !Contains(RowText(row), ')') && EndsWithNewline(RowText(row))
    decreases |row|
  {
    if row != [] {
      RowTextPlain(row[1..]);
      var d := NatToString(row[0]);
      NatToStringRoundTrip(row[0]);
      var t := RowText(row);
      assert t == " " + d + RowText(row[1..]);
      forall i | 0 <= i < |t| ensures t[i] != ')' {
        if 1 <= i < 1 + |d| {
          assert t[i] == d[i - 1];
        } else if i >= 1 + |d| {
          assert t[i] == RowText(row[1..])[i - 1 - |d|];
        }
      }
    }
  }

  lemma {:induction false} RowsPlain(addrs: seq<nat>)
    ensures forall i :: 0 <= i < |Rows(addrs)| ==>
      !Contains(Rows(addrs)[i], ')') && EndsWithNewline(Rows(addrs)[i])
    decreases |addrs|
  {
    if addrs == [] {
    } else if |addrs| <= 10 {
      RowTextPlain(addrs);
    } else {
      RowTextPlain(addrs[..10]);
      RowsPlain(addrs[10..]);
      assert Rows(addrs) == [RowText(addrs[..10])] + Rows(addrs[10..]);
    }
  }

  /** No line of the standard header reads as a count: each starts with a word or a brace. */
  lemma HeaderNeverScans(version: string, format: string, cls: string, location: string, objectName: string)
    ensures forall i :: 0 <= i < |FileHeader(version, format, cls, location, objectName)| ==>
      ScanCount(FileHeader(version, format, cls, location, objectName)[i]).None?
  {
    var h := FileHeader(version, format, cls, location, objectName);
    forall i | 0 <= i < |h| ensures ScanCount(h[i]).None? {
      var l := h[i];
      if 2 <= i <= 6 {
        IndentedWordNeverScans(l);
      } else if i == 8 {
        assert SkipSpaces(l, 0) == 1;
      } else {
        assert SkipSpaces(l, 0) == 0 && !IsDigit(l[0]) && l[0] != '+' && l[0] != '-';
      }
    }
  }

  /** A line of four spaces and then a letter holds no count. */
  lemma IndentedWordNeverScans(l: string)
    requires |l| > 4 && l[..4] == "    " && 'a' <= l[4] <= 'z'
    ensures ScanCount(l).None?
  {
    assert l[0] == ' ' && l[1] == ' ' && l[2] == ' ' && l[3] == ' ';
    assert SkipSpaces(l, 4) == 4;
    assert SkipSpaces(l, 0) == 4;
  }

  /** FindCount stops at the first line that scans, past lines that do not. */
  lemma {:induction false} FindCountAt(lines: seq<string>, i: nat, c: nat)
    requires i <= c < |lines| && ScanCount(lines[c]).Some?
    requires forall m :: i <= m < c ==> ScanCount(lines[m]).None?
    ensures FindCount(lines, i) == c
    decreases c - i
  {
    if i < c {
      FindCountAt(lines, i + 1, c);
    }
  }

  /** FindClose stops at the first line holding `)`. */
  lemma {:induction false} FindCloseAt(lines: seq<string>, i: nat, e: nat)
    requires i <= e < |lines| && Contains(lines[e], ')')
    requires forall m :: i <= m < e ==> !Contains(lines[m], ')')
    ensures FindClose(lines, i) == e
    decreases e - i
  {
    if i < e {
      FindCloseAt(lines, i + 1, e);
    }
  }

  /** The label block of a set file: count, `(`, rows, `)`. */
  function LabelBlock(addrs: seq<nat>): seq<string> {
    [CountField(|addrs|), "(\n"] + Rows(addrs) + [")\n"]
  }

  /** Only the block's last line holds `)`, and every line ends in a newline. */
  lemma LabelBlockLines(addrs: seq<nat>)
    ensures var b := LabelBlock(addrs);
      |b| >= 3 && b[0] == CountField(|addrs|) && b[|b| - 1] == ")\n" && Contains(b[|b| - 1], ')')
      && forall m :: 0 <= m < |b| - 1 ==> !Contains(b[m], ')')
  {
    var b := LabelBlock(addrs);
    CountFieldScans(|addrs|);
    RowsPlain(addrs);
    assert b[|b| - 1][0] == ')';
    forall m | 0 <= m < |b| - 1 ensures !Contains(b[m], ')') {
      if m >= 2 {
        assert b[m] == Rows(addrs)[m - 2];
      }
    }
  }

  /**
   * Splicing a header none of whose lines scans, followed by a block that
   * starts with a count and whose only `)` is on its last line, copies
   * exactly the block.
   */
  lemma SpliceAfterHeader(h: seq<string>, b: seq<string>)
    requires forall m :: 0 <= m < |h| ==> ScanCount(h[m]).None?
    requires |b| >= 1 && ScanCount(b[0]).Some?
    requires Contains(b[|b| - 1], ')') && EndsWithNewline(b[|b| - 1])
    requires forall m :: 0 <= m < |b| - 1 ==> !Contains(b[m], ')')
    ensures SpliceOf(Some(h + b)) == Splice(b, ScanCount(b[0]).value, true)
  {
    var lines := h + b;
    assert Visible(lines) == lines by {
      assert lines[|lines| - 1] == b[|b| - 1];
    }
    assert lines[|h|] == b[0];
    forall m | 0 <= m < |h| ensures ScanCount(lines[m]).None? {
      assert lines[m] == h[m];
    }
    FindCountAt(lines, 0, |h|);
    var last := |lines| - 1;
    forall m | |h| <= m < last ensures !Contains(lines[m], ')') {
      assert lines[m] == b[m - |h|];
    }
    assert lines[last] == b[|b| - 1];
    FindCloseAt(lines, |h|, last);
    assert lines[|h|..last + 1] == b;
  }

  /**
   * Round trip of set and zone files: splicing a closed set file written
   * with labels `addrs` copies its whole label block (the count line, the
   * opening parenthesis, every row, the closing line), reports the label
   * count and succeeds.
   */
  lemma SpliceRoundTrip(version: string, format: string, cls: string, location: string,
                        objectName: string, addrs: seq<nat>)
    ensures SpliceOf(Some(SetFileLines(version, format, cls, location, objectName, addrs)))
         == Splice(LabelBlock(addrs), |addrs|, true)
  {
    var b := LabelBlock(addrs);
    LabelBlockLines(addrs);
    CountFieldScans(|addrs|);
    assert EndsWithNewline(b[|b| - 1]);
    HeaderNeverScans(version, format, cls, location, objectName);
    SpliceAfterHeader(FileHeader(version, format, cls, location, objectName), b);
  }

  /** The label-list prefix of a zone entry (`%8.8s` / `%4.4s` of the zone file's name). */
  function LabelListPrefix(zoneObject: string): seq<string> {
    [TypeLine(zoneObject), LabelsLine(zoneObject)]
  }

  /** `  type %8.8s;` */
  function TypeLine(zoneObject: string): string {
    "  type " + FormatStr(zoneObject, 8, 8) + ";\n"
  }

  /** `  %4.4sLabels List<label>` */
  function LabelsLine(zoneObject: string): string {
    "  " + FormatStr(zoneObject, 4, 4) + "Labels List<label>\n"
  }

  /** The line naming a zone entry. */
  function SetNameLine(setName: string): string {
    setName + "\n"
  }

  /** The face-zone suffix: a flip map of as many `false` entries as labels. */
  function LabelListSuffix(faceZone: bool, labelCnt: nat): seq<string> {
    if faceZone then ["  flipMap List<bool> " + NatToString(labelCnt) + "{0};\n"] else []
  }

  /** Each copied line, indented by two spaces. */
  function Indented(lines: seq<string>): seq<string> {
    seq(|lines|, i requires 0 <= i < |lines| => "  " + lines[i])
  }

  /** Copying one more line adds that line, indented, at the end. */
  lemma IndentedAppend(lines: seq<string>, line: string)
    ensures Indented(lines + [line]) == Indented(lines) + ["  " + line]
  {
    assert |Indented(lines + [line])| == |lines| + 1;
  }

  /** The chunks one writeSet call appends to an open zone file. */
  function ZoneEntry(numItems: nat, setName: string, zoneObject: string, faceZone: bool, s: Splice): seq<string> {
    ZoneHead(numItems, setName, zoneObject) + Indented(s.copied) + ZoneTail(faceZone, s.labelCnt)
  }

  /** A zone entry after its labels: the list's end, the face-zone suffix, `}`. */
  function ZoneTail(faceZone: bool, labelCnt: nat): seq<string> {
    ["  ;\n"] + LabelListSuffix(faceZone, labelCnt) + ["}\n"]
  }

  /** A zone entry up to its labels: a blank line between entries, the name, `{` and the prefix. */
  function ZoneHead(numItems: nat, setName: string, zoneObject: string): seq<string> {
    (if numItems != 0 then ["\n"] else []) + [SetNameLine(setName), "{\n"] + LabelListPrefix(zoneObject)
  }

  /** ZoneHead line by line, in the order writeSet prints it. */
  lemma ZoneHeadLines(numItems: nat, setName: string, zoneObject: string)
    ensures ZoneHead(numItems, setName, zoneObject) ==
      (if numItems != 0 then ["\n"] else []) + [SetNameLine(setName)] + ["{\n"] + [TypeLine(zoneObject)] + [LabelsLine(zoneObject)]
  {
  }

  /** A zone file named with at least eight characters has its type and label kind cut from that name. */
  lemma PrefixOfLongName(zoneObject: string)
    requires |zoneObject| >= 8
    ensures LabelListPrefix(zoneObject)
         == ["  type " + zoneObject[..8] + ";\n", "  " + zoneObject[..4] + "Labels List<label>\n"]
  {
    FormatStrShape(zoneObject, 8, 8);
    FormatStrShape(zoneObject, 4, 4);
    assert FormatStr(zoneObject, 8, 8) == zoneObject[..8];
    assert FormatStr(zoneObject, 4, 4) == zoneObject[..4];
  }

  /**
   * A zone file named `<kind>Zones` after a four-letter kind (`cellZones`,
   * `faceZones`) types its entries `<kind>Zone` and lists `<kind>Labels`.
   */
  lemma ZonePrefix(kind: string)
    requires |kind| == 4
    ensures LabelListPrefix(kind + "Zones") == ["  type " + kind + "Zone;\n", "  " + kind + "Labels List<label>\n"]
  {
    var name := kind + "Zones";
    PrefixOfLongName(name);
    assert name[..8] == kind + "Zone" && name[..4] == kind;
    assert "  type " + (kind + "Zone") + ";\n" == "  type " + kind + "Zone;\n";
  }
}
