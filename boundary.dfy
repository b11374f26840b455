/**
 * The boundary run accumulator (OpenFoamPlugin::pushBcFace). Boundary
 * faces arrive grouped by condition; consecutive faces with the same
 * condition name form one run (BcStat) of the boundary file.
 */
module Boundary {
  import opened FoamFiles

  /** A streamed boundary face: its condition's name and type, and its face id. */
  datatype BcFace = BcFace(name: string, bcType: string, faceId: nat)

  /**
   * One push: a new run (one face, starting here) when there is no run
   * yet or the last run belongs to another condition; otherwise the last
   * run grows by one face.
   */
  function PushRun(stats: seq<BcStat>, f: BcFace): seq<BcStat> {
    if stats == [] || stats[|stats| - 1].name != f.name then
      stats + [BcStat(f.name, f.bcType, 1, f.faceId)]
    else
      var last := stats[|stats| - 1];
      stats[|stats| - 1 := last.(nFaces := last.nFaces + 1)]
  }

  /** The runs after pushing `faces` in order onto no runs. */
  function Runs(faces: seq<BcFace>): seq<BcStat> {
    RunsFrom([], faces)
  }

  /** The runs after pushing `faces` in order onto the runs `stats`. */
  function RunsFrom(stats: seq<BcStat>, faces: seq<BcFace>): seq<BcStat>
    decreases |faces|
  {
    if faces == [] then stats else PushRun(RunsFrom(stats, faces[..|faces| - 1]), faces[|faces| - 1])
  }

  /** Pushing one more face. */
  lemma RunsFromStep(stats: seq<BcStat>, faces: seq<BcFace>, f: BcFace)
    ensures RunsFrom(stats, faces + [f]) == PushRun(RunsFrom(stats, faces), f)
  {
    assert (faces + [f])[..|faces|] == faces;
  }

  /** Exactly one of the two cases of a push happens, and it touches only the last run. */
  lemma PushRunCases(stats: seq<BcStat>, f: BcFace)
    ensures var r := PushRun(stats, f);
      if stats == [] || stats[|stats| - 1].name != f.name then
        |r| == |stats| + 1 && r[..|stats|] == stats && r[|stats|] == BcStat(f.name, f.bcType, 1, f.faceId)
      else
        |r| == |stats| && r[..|stats| - 1] == stats[..|stats| - 1]
        && r[|stats| - 1] == stats[|stats| - 1].(nFaces := stats[|stats| - 1].nFaces + 1)
  {
  }

  /** Sum of the runs' face counts. */
  function TotalFaces(stats: seq<BcStat>): nat
    decreases |stats|
  {
    if stats == [] then 0 else TotalFaces(stats[..|stats| - 1]) + stats[|stats| - 1].nFaces
  }

  /** Runs are never empty, and neighbouring runs belong to different conditions. */
  ghost predicate WellGrouped(stats: seq<BcStat>) {
    (forall i :: 0 <= i < |stats| ==> stats[i].nFaces >= 1) &&
    (forall i :: 0 < i < |stats| ==> stats[i - 1].name != stats[i].name)
  }

  /** A push keeps the runs well grouped. */
  lemma PushKeepsGrouping(stats: seq<BcStat>, f: BcFace)
    requires WellGrouped(stats)
    ensures WellGrouped(PushRun(stats, f))
  {
    PushRunCases(stats, f);
  }

  /** A push adds exactly one face to the total. */
  lemma PushCountsOneFace(stats: seq<BcStat>, f: BcFace)
    ensures TotalFaces(PushRun(stats, f)) == TotalFaces(stats) + 1
  {
    var r := PushRun(stats, f);
    PushRunCases(stats, f);
    if !(stats == [] || stats[|stats| - 1].name != f.name) {
      assert r[..|r| - 1] == stats[..|stats| - 1];
    }
  }

  /**
   * Whatever the order of the faces, the runs are well grouped, their
   * face counts add up to the number of faces pushed, and there is a run
   * exactly when a face was pushed.
   */
  lemma {:induction false} RunsInvariant(faces: seq<BcFace>)
    ensures WellGrouped(Runs(faces))
    ensures TotalFaces(Runs(faces)) == |faces|
    ensures |Runs(faces)| <= |faces| && (Runs(faces) == [] <==> faces == [])
    decreases |faces|
  {
    if faces != [] {
      var prior := faces[..|faces| - 1];
      RunsInvariant(prior);
      PushKeepsGrouping(Runs(prior), faces[|faces| - 1]);
      PushCountsOneFace(Runs(prior), faces[|faces| - 1]);
      PushRunCases(Runs(prior), faces[|faces| - 1]);
    }
  }

  /**
   * Pushing more faces onto well-grouped runs keeps them well grouped and
   * adds exactly the number of faces pushed.
   */
  lemma {:induction false} RunsFromInvariant(stats: seq<BcStat>, faces: seq<BcFace>)
    requires WellGrouped(stats)
    ensures WellGrouped(RunsFrom(stats, faces))
    ensures TotalFaces(RunsFrom(stats, faces)) == TotalFaces(stats) + |faces|
    decreases |faces|
  {
    if faces != [] {
      var prior := faces[..|faces| - 1];
      RunsFromInvariant(stats, prior);
      PushKeepsGrouping(RunsFrom(stats, prior), faces[|faces| - 1]);
      PushCountsOneFace(RunsFrom(stats, prior), faces[|faces| - 1]);
    }
  }

  /** Faces numbered consecutively from `first`. */
  ghost predicate Consecutive(faces: seq<BcFace>, first: nat) {
    forall i :: 0 <= i < |faces| ==> faces[i].faceId == first + i
  }

  /** Runs that tile the face range starting at `first`, each run starting where the previous one ends. */
  ghost predicate Tiles(stats: seq<BcStat>, first: nat, count: nat) {
    (stats == [] ==> count == 0) &&
    (stats != [] ==>
      stats[0].startFace == first &&
      (forall i :: 0 < i < |stats| ==> stats[i].startFace == stats[i - 1].startFace + stats[i - 1].nFaces) &&
      stats[|stats| - 1].startFace + stats[|stats| - 1].nFaces == first + count)
  }

  /**
   * When the boundary faces are streamed with consecutive ids (as the
   * exporter numbers them), the runs are contiguous: they cover the id
   * range without gaps or overlaps, which is what each run's
   * (startFace, nFaces) pair in the boundary file promises.
   */
  lemma {:induction false} RunsTileFaces(faces: seq<BcFace>, first: nat)
    requires Consecutive(faces, first)
    ensures Tiles(Runs(faces), first, |faces|)
    decreases |faces|
  {
    if faces != [] {
      var prior := faces[..|faces| - 1];
      assert Consecutive(prior, first);
      RunsTileFaces(prior, first);
      RunsInvariant(prior);
      TilesPush(Runs(prior), first, |prior|, faces[|faces| - 1]);
    }
  }

  /** A push of the face that comes right after a tiled range tiles one face more. */
  lemma TilesPush(stats: seq<BcStat>, first: nat, count: nat, f: BcFace)
    requires Tiles(stats, first, count) && f.faceId == first + count
    requires stats == [] <==> count == 0
    ensures Tiles(PushRun(stats, f), first, count + 1)
  {
    var r := PushRun(stats, f);
    PushRunCases(stats, f);
    if stats == [] || stats[|stats| - 1].name != f.name {
      assert r == stats + [BcStat(f.name, f.bcType, 1, f.faceId)];
      forall i | 0 < i < |r| ensures r[i].startFace == r[i - 1].startFace + r[i - 1].nFaces {
        if i < |stats| {
          assert r[i] == stats[i] && r[i - 1] == stats[i - 1];
        }
      }
    } else {
      forall i | 0 < i < |r| ensures r[i].startFace == r[i - 1].startFace + r[i - 1].nFaces {
        assert r[i - 1] == stats[i - 1];
        assert r[i].startFace == stats[i].startFace;
      }
    }
  }
}
