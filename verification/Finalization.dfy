/** The finalize loop when nothing is known about the disk or the names: what it keeps in any case, and
    exactly when every file ends up with its own bytes. */
module Finalization {
  import opened Types
  import opened Storage

  /** On any disk, with temporary files missing or shared, also after a rename has failed: every file that
      is no complete writer's temporary file is untouched, and no file is moved onto it. */
  lemma {:induction false} OtherFilesSurvive(disk: Disk, ws: seq<Done>, uuids: nat -> string, n: nat, p: Path)
    requires n <= |ws| && FreshFallbacks(disk, ws, uuids)
    requires p in disk && forall i | 0 <= i < |ws| && ws[i].complete :: p != ws[i].Temp()
    ensures p in FinalizeUpTo(disk, ws, uuids, n).disk
    ensures FinalizeUpTo(disk, ws, uuids, n).disk[p] == disk[p]
    ensures Some(p) !in FinalizeUpTo(disk, ws, uuids, n).paths
  {
    if n > 0 {
      OtherFilesSurvive(disk, ws, uuids, n - 1, p);
      var s, w := FinalizeUpTo(disk, ws, uuids, n - 1), ws[n - 1];
      if w.complete {
        UniquePathIsFree(s.disk.Keys, w.dest, uuids(n - 1));
      }
      hide UniquePath, TempPath;
    }
  }

  /** The loop does not fail, and every complete file ends at a path of its own with the bytes of its own
      temporary file. */
  predicate Faithful(disk: Disk, ws: seq<Done>, uuids: nat -> string) {
    var s := FinalizeUpTo(disk, ws, uuids, |ws|);
    && !s.failed
    && (forall i | 0 <= i < |ws| && ws[i].complete :: OwnBytes(disk, ws, s, i))
    && (forall i, j | 0 <= i < j < |ws| && ws[i].complete && ws[j].complete :: s.paths[i] != s.paths[j])
  }

  predicate OwnBytes(disk: Disk, ws: seq<Done>, s: FinState, i: nat)
    requires i < |ws| && i < |s.paths|
  {
    && s.paths[i].Some? && ws[i].Temp() in disk
    && s.paths[i].value in s.disk && s.disk[s.paths[i].value] == disk[ws[i].Temp()]
  }

  lemma DistinctIsFaithful(disk: Disk, ws: seq<Done>, uuids: nat -> string)
    requires DistinctTemps(ws) && TempsOnDisk(ws, disk) && FreshFallbacks(disk, ws, uuids)
    ensures Faithful(disk, ws, uuids)
  {
    FinalizeNeverClobbers(disk, ws, uuids, |ws|);
    var s := FinalizeUpTo(disk, ws, uuids, |ws|);
    forall i | 0 <= i < |ws| && ws[i].complete ensures OwnBytes(disk, ws, s, i) {
      assert MovedSafely(disk, ws, s, i);
    }
  }

  lemma MissingIsUnfaithful(disk: Disk, ws: seq<Done>, uuids: nat -> string, i: nat)
    requires i < |ws| && ws[i].complete && ws[i].Temp() !in disk
    ensures !Faithful(disk, ws, uuids)
  {
    var s := FinalizeUpTo(disk, ws, uuids, |ws|);
    if !s.failed {
      assert !OwnBytes(disk, ws, s, i);
    }
  }

  // ----- Counting names -----

  function CompleteCount(ws: seq<Done>, n: nat): nat
    requires n <= |ws|
  {
    if n == 0 then 0 else CompleteCount(ws, n - 1) + (if ws[n - 1].complete then 1 else 0)
  }

  lemma RenameKeepsNumber(disk: Disk, from: Path, to: Path)
    requires from in disk && to !in disk
    ensures |Rename(disk, from, to).Keys| == |disk.Keys|
  {
    assert Rename(disk, from, to).Keys == (disk.Keys - {from}) + {to};
  }

  lemma NumberStaysOnce(disk: Disk, ws: seq<Done>, uuids: nat -> string, n: nat)
    requires n < |ws| && FreshFallbacks(disk, ws, uuids)
    ensures |FinalizeUpTo(disk, ws, uuids, n + 1).disk.Keys| == |FinalizeUpTo(disk, ws, uuids, n).disk.Keys|
  {
    var s, w := FinalizeUpTo(disk, ws, uuids, n), ws[n];
    var to := UniquePath(s.disk.Keys, w.dest, uuids(n));
    if w.complete && w.Temp() in s.disk {
      UniquePathIsFree(s.disk.Keys, w.dest, uuids(n));
      RenameKeepsNumber(s.disk, w.Temp(), to);
    }
    hide UniquePath, TempPath, Rename, Fallback, FreshFallbacks;
  }

  /** Renaming to free names keeps the number of files. */
  lemma {:induction false} NumberOfFilesStays(disk: Disk, ws: seq<Done>, uuids: nat -> string, n: nat)
    requires n <= |ws| && FreshFallbacks(disk, ws, uuids)
    ensures |FinalizeUpTo(disk, ws, uuids, n).disk.Keys| == |disk.Keys|
  {
    if n > 0 {
      hide FinalizeUpTo, FreshFallbacks;
      NumberOfFilesStays(disk, ws, uuids, n - 1);
      NumberStaysOnce(disk, ws, uuids, n - 1);
    }
  }

  predicate PathsTell(ws: seq<Done>, n: nat, paths: seq<Option<Path>>)
    requires n <= |ws|
  {
    |paths| == n && forall i | 0 <= i < n :: paths[i].Some? <==> ws[i].complete
  }

  lemma {:induction false} CompleteHavePaths(disk: Disk, ws: seq<Done>, uuids: nat -> string, n: nat)
    requires n <= |ws| && !FinalizeUpTo(disk, ws, uuids, n).failed
    ensures PathsTell(ws, n, FinalizeUpTo(disk, ws, uuids, n).paths)
  {
    if n > 0 {
      hide UniquePath, TempPath, Rename;
      CompleteHavePaths(disk, ws, uuids, n - 1);
    }
  }

  predicate PathsDistinct(paths: seq<Option<Path>>) {
    forall i, j | 0 <= i < j < |paths| && paths[i].Some? && paths[j].Some? :: paths[i] != paths[j]
  }

  /** As many destinations as complete files, if they are distinct ... */
  lemma {:induction false} DestinationsCount(ws: seq<Done>, n: nat, paths: seq<Option<Path>>)
    requires n <= |ws| && PathsTell(ws, n, paths) && PathsDistinct(paths)
    ensures |Destinations(paths)| == CompleteCount(ws, n)
  {
    if n > 0 {
      var init, last := paths[..n - 1], paths[n - 1];
      DestinationsCount(ws, n - 1, init);
      if last.Some? {
        InDestinations(init, last.value);
      }
    }
  }

  predicate DistinctUpTo(ws: seq<Done>, n: nat)
    requires n <= |ws|
  {
    forall i, j | 0 <= i < j < n && ws[i].complete && ws[j].complete :: ws[i].Temp() != ws[j].Temp()
  }

  lemma {:induction false} InMovedTemps(ws: seq<Done>, n: nat, p: Path)
    requires n <= |ws|
    ensures p in MovedTemps(ws, n) <==> exists i :: 0 <= i < n && ws[i].complete && ws[i].Temp() == p
  {
    hide TempPath;
    if n > 0 {
      InMovedTemps(ws, n - 1, p);
    }
  }

  /** ... but only as many temporary files if those are distinct. */
  lemma {:induction false} TempsCount(ws: seq<Done>, n: nat)
    requires n <= |ws|
    ensures |MovedTemps(ws, n)| <= CompleteCount(ws, n)
    ensures |MovedTemps(ws, n)| == CompleteCount(ws, n) ==> DistinctUpTo(ws, n)
  {
    hide TempPath;
    if n > 0 {
      TempsCount(ws, n - 1);
      InMovedTemps(ws, n - 1, ws[n - 1].Temp());
    }
  }

  lemma DisjointParts<T>(a: set<T>, b: set<T>, whole: set<T>)
    requires a !! b && a <= whole && b <= whole
    ensures |a| + |b| <= |whole|
  {
    assert |a + b| == |a| + |b|;
    assert whole == (a + b) + (whole - (a + b));
  }

  /** Every complete file is at a path of its own in the end. */
  predicate Landed(ws: seq<Done>, s: FinState) {
    && !s.failed && |s.paths| == |ws|
    && (forall i | 0 <= i < |ws| && s.paths[i].Some? :: s.paths[i].value in s.disk)
    && PathsDistinct(s.paths)
  }

  /** Files that are not moved keep their names, and no file is moved to one of those. */
  lemma KeptApart(disk: Disk, ws: seq<Done>, uuids: nat -> string)
    requires FreshFallbacks(disk, ws, uuids)
    ensures var s, kept := FinalizeUpTo(disk, ws, uuids, |ws|), disk.Keys - MovedTemps(ws, |ws|);
            kept <= s.disk.Keys && kept !! Destinations(s.paths)
  {
    var n, s := |ws|, FinalizeUpTo(disk, ws, uuids, |ws|);
    hide FinalizeUpTo, FreshFallbacks, TempPath, MovedTemps, Destinations;
    forall p | p in disk.Keys - MovedTemps(ws, n) ensures p in s.disk && p !in Destinations(s.paths) {
      InMovedTemps(ws, n, p);
      OtherFilesSurvive(disk, ws, uuids, n, p);
      InDestinations(s.paths, p);
    }
  }

  lemma LandedThere(disk: Disk, ws: seq<Done>, s: FinState)
    requires Landed(ws, s) && TempsOnDisk(ws, disk)
    ensures Destinations(s.paths) <= s.disk.Keys && MovedTemps(ws, |ws|) <= disk.Keys
  {
    hide TempPath, MovedTemps, Destinations;
    forall p | p in Destinations(s.paths) ensures p in s.disk { InDestinations(s.paths, p); }
    forall p | p in MovedTemps(ws, |ws|) ensures p in disk { InMovedTemps(ws, |ws|, p); }
  }

  /** Distinct destinations need distinct temporary files: the number of names stays, and the files that are not
      moved keep theirs. */
  lemma LandedNeedsDistinct(disk: Disk, ws: seq<Done>, uuids: nat -> string)
    requires FreshFallbacks(disk, ws, uuids) && TempsOnDisk(ws, disk)
    requires Landed(ws, FinalizeUpTo(disk, ws, uuids, |ws|))
    ensures DistinctTemps(ws)
  {
    var n, s := |ws|, FinalizeUpTo(disk, ws, uuids, |ws|);
    var temps, targets := MovedTemps(ws, n), Destinations(s.paths);
    LandedThere(disk, ws, s);
    KeptApart(disk, ws, uuids);
    CompleteHavePaths(disk, ws, uuids, n);
    hide FinalizeUpTo, FreshFallbacks, TempPath, MovedTemps, Destinations, PathsTell, TempsOnDisk;
    DestinationsCount(ws, n, s.paths);
    TempsCount(ws, n);
    NumberOfFilesStays(disk, ws, uuids, n);
    DisjointParts(disk.Keys - temps, targets, s.disk.Keys);
    assert disk.Keys == (disk.Keys - temps) + temps;
  }

  /** On every disk, for any number of files: finalizing is faithful if and only if the temporary file of every
      complete one is there and no two complete ones share a stem. */
  lemma FaithfulIffStemsDistinct(disk: Disk, ws: seq<Done>, uuids: nat -> string)
    requires FreshFallbacks(disk, ws, uuids)
    ensures Faithful(disk, ws, uuids)
       <==> TempsOnDisk(ws, disk)
            && forall i, j | 0 <= i < j < |ws| && ws[i].complete && ws[j].complete :: ws[i].dest.stem != ws[j].dest.stem
  {
    TempsDistinctIffStemsDistinct(ws);
    hide FreshFallbacks;
    if Faithful(disk, ws, uuids) {
      FaithfulHasLanded(disk, ws, uuids);
      LandedNeedsDistinct(disk, ws, uuids);
    }
    if TempsOnDisk(ws, disk) && DistinctTemps(ws) {
      DistinctIsFaithful(disk, ws, uuids);
    }
  }

  lemma FaithfulHasLanded(disk: Disk, ws: seq<Done>, uuids: nat -> string)
    requires Faithful(disk, ws, uuids)
    ensures Landed(ws, FinalizeUpTo(disk, ws, uuids, |ws|)) && TempsOnDisk(ws, disk)
  {
    var s := FinalizeUpTo(disk, ws, uuids, |ws|);
    CompleteHavePaths(disk, ws, uuids, |ws|);
    hide FinalizeUpTo, TempPath;
    forall i | 0 <= i < |ws| && ws[i].complete ensures s.paths[i].value in s.disk && ws[i].Temp() in disk {
      assert OwnBytes(disk, ws, s, i);
    }
  }

  /** Sharing a stem can even go unnoticed: with these three names the loop reports success although the
      third file has the bytes of the second and the second is gone. */
  lemma ThreeNamesSwapBytes(uuids: nat -> string) returns (disk: Disk, ws: seq<Done>)
    ensures ws == [Done(Path("a (1)", "txt"), true), Done(Path("a", "justdrop_partial"), true),
                   Done(Path("a (1)", "pdf"), true)]
    ensures disk == map[TempPath(ws[0].dest) := [1], TempPath(ws[1].dest) := [2]]
    ensures var s := FinalizeUpTo(disk, ws, uuids, 3);
            && !s.failed && s.allOk
            && s.disk == map[Path("a (1)", "txt") := [1], Path("a (1)", "pdf") := [2]]
            && s.paths[2] == Some(Path("a (1)", "pdf")) && ws[2].Temp() == ws[0].Temp()
  {
    var txt, own, pdf := Path("a (1)", "txt"), Path("a", "justdrop_partial"), Path("a (1)", "pdf");
    var shared := Path("a (1)", "justdrop_partial");
    ws := [Done(txt, true), Done(own, true), Done(pdf, true)];
    disk := map[shared := [1], own := [2]];
    assert Decimal(1) == "1";
    assert Candidate(own, 1) == shared by {
      assert "a" + " (" + "1" + ")" == "a (1)";
    }
    assert FinalizeUpTo(disk, ws, uuids, 0) == FinState(disk, true, false, []);
    assert UniquePath(disk.Keys, txt, uuids(0)) == txt;
    var d1 := Rename(disk, shared, txt);
    assert d1 == map[own := [2], txt := [1]];
    assert FinalizeUpTo(disk, ws, uuids, 1) == FinState(d1, true, false, [Some(txt)]);
    assert FirstFree(d1.Keys, own, 1) == 1;
    assert UniquePath(d1.Keys, own, uuids(1)) == shared;
    var d2 := Rename(d1, own, shared);
    assert d2 == map[txt := [1], shared := [2]];
    assert FinalizeUpTo(disk, ws, uuids, 2) == FinState(d2, true, false, [Some(txt), Some(shared)]);
    assert UniquePath(d2.Keys, pdf, uuids(2)) == pdf;
    var d3 := Rename(d2, shared, pdf);
    assert d3 == map[txt := [1], pdf := [2]];
  }
}
