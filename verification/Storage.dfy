/** The receiver's storage on values: a disk as a map from paths to contents, positioned writes, the
    completion set of a chunk writer, conflict-free destination names, and the finalize loop. */
module Storage {
  import opened Types

  type Disk = map<Path, Bytes>

  // ----- Files -----

  function Zeros(n: nat): (z: Bytes)
    ensures |z| == n
  {
    seq(n, _ => 0)
  }

  /** Truncates or zero-extends. */
  function SetLen(file: Bytes, n: nat): (r: Bytes)
    ensures |r| == n
  {
    if n <= |file| then file[..n] else file + Zeros(n - |file|)
  }

  /** Overwrites from `off` on; a gap behind the end is filled with zeros, the file grows if needed. */
  function WriteAt(file: Bytes, off: nat, data: Bytes): (r: Bytes)
    ensures data == [] ==> r == file
    ensures data != [] ==> |r| == if off + |data| <= |file| then |file| else off + |data|
  {
    if data == [] then file
    else
      var padded := if |file| < off then SetLen(file, off) else file;
      padded[..off] + data + (if off + |data| < |padded| then padded[off + |data|..] else [])
  }

  /** A positioned write byte by byte. */
  lemma WrittenByte(file: Bytes, off: nat, data: Bytes, p: nat)
    requires p < |WriteAt(file, off, data)|
    ensures WriteAt(file, off, data)[p]
         == if off <= p < off + |data| then data[p - off] else if p < |file| then file[p] else 0
  {
  }

  /** Setting the length keeps the leading bytes and fills up with zeros. */
  lemma ResizedByte(file: Bytes, n: nat, p: nat)
    requires p < n
    ensures SetLen(file, n)[p] == if p < |file| then file[p] else 0
  {
  }

  // ----- Names -----

  function Decimal(n: nat): string {
    var digit := ["0123456789"[n % 10]];
    if n < 10 then digit else Decimal(n / 10) + digit
  }

  /** Digits read from left to right in base ten. */
  function ValueOf(digits: string): int {
    if digits == "" then 0
    else 10 * ValueOf(digits[..|digits| - 1]) + (digits[|digits| - 1] as int - '0' as int)
  }

  /** The decimal numeral is read back as the number, is made of digits, and has no leading zero. */
  lemma {:induction false} DecimalReads(n: nat)
    ensures ValueOf(Decimal(n)) == n && Decimal(n) != ""
    ensures forall c | c in Decimal(n) :: '0' <= c <= '9'
    ensures n > 0 ==> Decimal(n)[0] != '0'
  {
    var digit := ["0123456789"[n % 10]];
    assert digit[..0] == "";
    if n >= 10 {
      DecimalReads(n / 10);
      assert (Decimal(n / 10) + digit)[..|Decimal(n / 10)|] == Decimal(n / 10);
    }
  }

  const MAX_SUFFIX: nat := 1000

  /** The extension is replaced, not appended to. */
  function TempPath(dest: Path): Path {
    Path(dest.stem, "justdrop_partial")
  }

  /** The names tried in turn: the destination itself, then " (1)", " (2)", ... before the extension. */
  function Candidate(dest: Path, i: nat): Path {
    if i == 0 then dest else Path(dest.stem + " (" + Decimal(i) + ")", dest.ext)
  }

  function Fallback(dest: Path, uuid: string): Path {
    Path(dest.stem + "_" + uuid, dest.ext)
  }

  /** Least suffix from `i` on that is free, or the limit. */
  function FirstFree(taken: set<Path>, dest: Path, i: nat): (k: nat)
    requires i <= MAX_SUFFIX
    ensures i <= k <= MAX_SUFFIX
    ensures forall j: nat | i <= j < k :: Candidate(dest, j) in taken
    ensures k < MAX_SUFFIX ==> Candidate(dest, k) !in taken
    decreases MAX_SUFFIX - i
  {
    if i == MAX_SUFFIX || Candidate(dest, i) !in taken then i else FirstFree(taken, dest, i + 1)
  }

  function UniquePath(taken: set<Path>, dest: Path, uuid: string): Path {
    var k := FirstFree(taken, dest, 0);
    if k < MAX_SUFFIX then Candidate(dest, k) else Fallback(dest, uuid)
  }

  /** The candidates: the destination itself, then its stem with the number in brackets; all distinct. */
  lemma CandidatesDistinct(dest: Path, i: nat, j: nat)
    ensures Candidate(dest, 0) == dest
    ensures i > 0 ==>
              exists digits: string ::
                Candidate(dest, i) == Path(dest.stem + " (" + digits + ")", dest.ext) && ValueOf(digits) == i
    ensures Candidate(dest, i) == Candidate(dest, j) <==> i == j
  {
    DecimalReads(i);
    DecimalReads(j);
    if i > 0 { assert Candidate(dest, i) == Path(dest.stem + " (" + Decimal(i) + ")", dest.ext); }
    var at := |dest.stem| + 2;
    if i > 0 && j > 0 && Candidate(dest, i) == Candidate(dest, j) {
      var a, b := Candidate(dest, i).stem, Candidate(dest, j).stem;
      assert a[at..|a| - 1] == Decimal(i) && b[at..|b| - 1] == Decimal(j);
    }
    assert i > 0 ==> |Candidate(dest, i).stem| > |dest.stem|;
    assert j > 0 ==> |Candidate(dest, j).stem| > |dest.stem|;
  }

  /** A random name keeps the extension, is longer than the destination's, and differs with what was drawn. */
  lemma FallbacksDiffer(dest: Path, a: string, b: string)
    ensures Fallback(dest, a).ext == dest.ext && dest.stem + "_" <= Fallback(dest, a).stem
    ensures Fallback(dest, a) == Fallback(dest, b) <==> a == b
  {
    var at := |dest.stem| + 1;
    assert Fallback(dest, a).stem[at..] == a && Fallback(dest, b).stem[at..] == b;
  }

  /** The search takes the least free suffix below the limit; only when all of those are taken does it
      fall back to a random name. */
  lemma UniquePathIsLeastFree(taken: set<Path>, dest: Path, uuid: string)
    ensures var to := UniquePath(taken, dest, uuid);
            || (exists k: nat ::
                  && k < MAX_SUFFIX && to == Candidate(dest, k) && to !in taken
                  && (forall j: nat | j < k :: Candidate(dest, j) in taken))
            || (to == Fallback(dest, uuid) && forall j: nat | j < MAX_SUFFIX :: Candidate(dest, j) in taken)
  {
    var k := FirstFree(taken, dest, 0);
    if k < MAX_SUFFIX {
      assert UniquePath(taken, dest, uuid) == Candidate(dest, k);
    }
  }

  // ----- Writers -----

  datatype StorageError =
    | ChunkIntegrityFailed(chunk: nat)
    | Io(path: Path)

  datatype Writer = Writer(dest: Path, chunkSize: ChunkSize, fileSize: nat, completed: set<nat>) {
    function Total(): nat
    {
      ChunkCount(fileSize, chunkSize)
    }

    function Temp(): Path {
      TempPath(dest)
    }

    /** Completion is decided by counting. */
    predicate IsComplete()
    {
      |completed| == Total()
    }
  }

  /** Opening a writer creates its temporary file or keeps the contents of an existing one, and sets
      the length to the expected size. */
  function OpenTemp(disk: Disk, dest: Path, size: nat): Disk {
    var temp := TempPath(dest);
    disk[temp := SetLen(if temp in disk then disk[temp] else [], size)]
  }

  datatype WriteOutcome = WriteOutcome(result: Result<Digest<Bytes>, StorageError>, writer: Writer, disk: Disk)

  /** Writing a chunk: an offset beyond the total or a vanished temporary file is an error; the length
      of the data is not checked. */
  function WriteChunk(w: Writer, disk: Disk, chunk: nat, data: Bytes): WriteOutcome
  {
    if chunk >= w.Total() then WriteOutcome(Err(ChunkIntegrityFailed(chunk)), w, disk)
    else if w.Temp() !in disk then WriteOutcome(Err(Io(w.Temp())), w, disk)
    else
      WriteOutcome(Ok(Sha256(data)), w.(completed := w.completed + {chunk}),
                   disk[w.Temp() := WriteAt(disk[w.Temp()], chunk * w.chunkSize, data)])
  }

  /** When a write is refused, why, and that nothing has changed then. */
  lemma RefusedWriteChangesNothing(w: Writer, disk: Disk, chunk: nat, data: Bytes)
    ensures var o := WriteChunk(w, disk, chunk, data);
            && (o.result.Err? <==> chunk >= w.Total() || w.Temp() !in disk)
            && (o.result.Err? ==> o.writer == w && o.disk == disk)
            && (o.result == Err(ChunkIntegrityFailed(chunk)) <==> chunk >= w.Total())
            && (o.result == Err(Io(w.Temp())) <==> chunk < w.Total() && w.Temp() !in disk)
            && (o.result.Ok? ==> chunk in o.writer.completed && w.completed <= o.writer.completed)
  {
    hide ChunkCount, WriteAt;
  }

  // ----- Finalizing -----

  /** What the finalize loop asks of a writer. */
  datatype Done = Done(dest: Path, complete: bool) {
    function Temp(): Path {
      TempPath(dest)
    }
  }

  function Summaries(ws: seq<Writer>): (ds: seq<Done>)
    ensures |ds| == |ws|
  {
    seq(|ws|, i requires 0 <= i < |ws| => Done(ws[i].dest, ws[i].IsComplete()))
  }

  /** State of the finalize loop: whether every file so far was complete, whether a rename failed, and
      where each file went. */
  datatype FinState = FinState(disk: Disk, allOk: bool, failed: bool, paths: seq<Option<Path>>)

  function Rename(disk: Disk, from: Path, to: Path): Disk
    requires from in disk
  {
    (disk - {from})[to := disk[from]]
  }

  function FinalizeUpTo(disk: Disk, ws: seq<Done>, uuids: nat -> string, n: nat): (s: FinState)
    requires n <= |ws|
    ensures !s.failed ==> |s.paths| == n
  {
    if n == 0 then FinState(disk, true, false, [])
    else
      var s, w := FinalizeUpTo(disk, ws, uuids, n - 1), ws[n - 1];
      if s.failed then s
      else if !w.complete then s.(allOk := false, paths := s.paths + [None])
      else if w.Temp() !in s.disk then s.(failed := true)
      else
        var to := UniquePath(s.disk.Keys, w.dest, uuids(n - 1));
        s.(disk := Rename(s.disk, w.Temp(), to), paths := s.paths + [Some(to)])
  }

  /** The random names drawn on fallback are unused when they are drawn. */
  predicate FreshFallbacks(disk: Disk, ws: seq<Done>, uuids: nat -> string)
  {
    forall i | 0 <= i < |ws| && ws[i].complete ::
      Fallback(ws[i].dest, uuids(i)) !in FinalizeUpTo(disk, ws, uuids, i).disk
  }

  /** Of the files that will be moved, no two share a temporary file. */
  predicate DistinctTemps(ws: seq<Done>) {
    forall i, j | 0 <= i < j < |ws| && ws[i].complete && ws[j].complete :: ws[i].Temp() != ws[j].Temp()
  }

  predicate TempsOnDisk(ws: seq<Done>, disk: Disk) {
    forall i | 0 <= i < |ws| && ws[i].complete :: ws[i].Temp() in disk
  }

  /** Temporary files of the complete ones among the first `n` writers. */
  function MovedTemps(ws: seq<Done>, n: nat): set<Path>
    requires n <= |ws|
  {
    if n == 0 then {}
    else MovedTemps(ws, n - 1) + (if ws[n - 1].complete then {ws[n - 1].Temp()} else {})
  }

  lemma {:induction false} LaterTempNotMoved(ws: seq<Done>, n: nat, i: nat)
    requires n <= i < |ws| && ws[i].complete && DistinctTemps(ws)
    ensures ws[i].Temp() !in MovedTemps(ws, n)
  {
    if n > 0 { LaterTempNotMoved(ws, n - 1, i); }
  }

  function Destinations(paths: seq<Option<Path>>): set<Path> {
    if paths == [] then {}
    else
      var last := paths[|paths| - 1];
      Destinations(paths[..|paths| - 1]) + (if last.Some? then {last.value} else {})
  }

  lemma DestinationsAppend(paths: seq<Option<Path>>, o: Option<Path>)
    ensures Destinations(paths + [o]) == Destinations(paths) + (if o.Some? then {o.value} else {})
  {
    assert (paths + [o])[..|paths|] == paths;
  }

  lemma {:induction false} InDestinations(paths: seq<Option<Path>>, p: Path)
    ensures p in Destinations(paths) <==> exists i :: 0 <= i < |paths| && paths[i] == Some(p)
  {
    if paths != [] {
      InDestinations(paths[..|paths| - 1], p);
    }
  }

  /** File `i` of the loop went to a destination that was free: not on the original disk, unless as the
      temporary file of a file moved before. */
  predicate MovedSafely(disk: Disk, ws: seq<Done>, s: FinState, i: nat)
    requires i < |ws| && i < |s.paths| && s.paths[i].Some?
  {
    var to := s.paths[i].value;
    && (to in disk ==> to in MovedTemps(ws, i))
    && to in s.disk
    && ws[i].Temp() in disk
    && s.disk[to] == disk[ws[i].Temp()]
  }

  /** Effect of the finalize loop on the first `n` files: exactly the complete ones are moved, to
      distinct free destinations with their contents, and everything else is as it was. */
  predicate Finalized(disk: Disk, ws: seq<Done>, n: nat, s: FinState)
    requires n <= |ws|
  {
    && !s.failed
    && |s.paths| == n
    && s.allOk == (forall i | 0 <= i < n :: ws[i].complete)
    && (forall i | 0 <= i < n :: s.paths[i].Some? <==> ws[i].complete)
    && (forall i, j | 0 <= i < j < n && s.paths[i].Some? && s.paths[j].Some? :: s.paths[i] != s.paths[j])
    && AllMovedSafely(disk, ws, n, s)
    && OthersUntouched(disk, ws, n, s)
  }

  predicate AllMovedSafely(disk: Disk, ws: seq<Done>, n: nat, s: FinState)
    requires n <= |ws| && n == |s.paths|
  {
    forall i | 0 <= i < n && s.paths[i].Some? :: MovedSafely(disk, ws, s, i)
  }

  predicate OthersUntouched(disk: Disk, ws: seq<Done>, n: nat, s: FinState)
    requires n <= |ws|
  {
    && s.disk.Keys == (disk.Keys - MovedTemps(ws, n)) + Destinations(s.paths)
    && forall p | p in disk && p !in MovedTemps(ws, n) :: s.disk[p] == disk[p]
  }

  function AfterMove(ws: seq<Done>, n: nat, s: FinState, to: Path): FinState
    requires n < |ws| && ws[n].Temp() in s.disk
  {
    s.(disk := Rename(s.disk, ws[n].Temp(), to), paths := s.paths + [Some(to)])
  }

  /** Neither the file being moved nor its destination is the destination of an earlier file. */
  lemma EarlierDestinations(disk: Disk, ws: seq<Done>, n: nat, s: FinState, to: Path)
    requires n < |ws| && n == |s.paths|
    requires DistinctTemps(ws) && TempsOnDisk(ws, disk)
    requires AllMovedSafely(disk, ws, n, s) && to !in s.disk && ws[n].complete
    ensures forall i | 0 <= i < n && s.paths[i].Some? :: s.paths[i].value != to && s.paths[i].value != ws[n].Temp()
  {
    forall i | 0 <= i < n && s.paths[i].Some?
      ensures s.paths[i].value != to && s.paths[i].value != ws[n].Temp()
    {
      assert MovedSafely(disk, ws, s, i);
      LaterTempNotMoved(ws, i, n);
    }
  }

  lemma MoveKeepsOthers(disk: Disk, ws: seq<Done>, n: nat, s: FinState, to: Path)
    requires n < |ws| && n == |s.paths|
    requires DistinctTemps(ws) && TempsOnDisk(ws, disk)
    requires AllMovedSafely(disk, ws, n, s) && OthersUntouched(disk, ws, n, s) && to !in s.disk
    requires ws[n].complete
    ensures ws[n].Temp() in s.disk && s.disk[ws[n].Temp()] == disk[ws[n].Temp()]
    ensures OthersUntouched(disk, ws, n + 1, AfterMove(ws, n, s, to))
  {
    LaterTempNotMoved(ws, n, n);
    assert ws[n].Temp() in disk;
    EarlierDestinations(disk, ws, n, s, to);
    DestinationsAppend(s.paths, Some(to));
    InDestinations(s.paths, ws[n].Temp());
  }

  lemma MoveKeepsMoved(disk: Disk, ws: seq<Done>, n: nat, s: FinState, to: Path)
    requires n < |ws| && n == |s.paths|
    requires DistinctTemps(ws) && TempsOnDisk(ws, disk)
    requires AllMovedSafely(disk, ws, n, s) && OthersUntouched(disk, ws, n, s) && to !in s.disk
    requires ws[n].complete && ws[n].Temp() in s.disk
    ensures AllMovedSafely(disk, ws, n + 1, AfterMove(ws, n, s, to))
  {
    MoveKeepsOthers(disk, ws, n, s, to);
    EarlierDestinations(disk, ws, n, s, to);
    var t := AfterMove(ws, n, s, to);
    forall i | 0 <= i < n && t.paths[i].Some? ensures MovedSafely(disk, ws, t, i) {
      assert MovedSafely(disk, ws, s, i);
    }
    assert ws[n].Temp() in disk;
    assert MovedSafely(disk, ws, t, n);
  }

  lemma FinalizeStep(disk: Disk, ws: seq<Done>, n: nat, s: FinState, to: Path)
    requires n < |ws|
    requires DistinctTemps(ws) && TempsOnDisk(ws, disk)
    requires Finalized(disk, ws, n, s) && ws[n].complete && to !in s.disk
    ensures ws[n].Temp() in s.disk
    ensures Finalized(disk, ws, n + 1, AfterMove(ws, n, s, to))
  {
    MoveKeepsOthers(disk, ws, n, s, to);
    MoveKeepsMoved(disk, ws, n, s, to);
    EarlierDestinations(disk, ws, n, s, to);
  }

  lemma SkipKeepsMoved(disk: Disk, ws: seq<Done>, n: nat, s: FinState, t: FinState)
    requires n < |ws| && |s.paths| == n && AllMovedSafely(disk, ws, n, s)
    requires t.disk == s.disk && t.paths == s.paths + [None]
    ensures AllMovedSafely(disk, ws, n + 1, t)
  {
    forall i | 0 <= i < n && t.paths[i].Some? ensures MovedSafely(disk, ws, t, i) {
      assert MovedSafely(disk, ws, s, i);
    }
  }

  lemma FinalizeSkip(disk: Disk, ws: seq<Done>, n: nat, s: FinState)
    requires n < |ws|
    requires Finalized(disk, ws, n, s) && !ws[n].complete
    ensures Finalized(disk, ws, n + 1, s.(allOk := false, paths := s.paths + [None]))
  {
    var t := s.(allOk := false, paths := s.paths + [None]);
    SkipKeepsMoved(disk, ws, n, s, t);
    assert OthersUntouched(disk, ws, n + 1, t) by {
      DestinationsAppend(s.paths, None);
    }
  }

  lemma UniquePathIsFree(taken: set<Path>, dest: Path, uuid: string)
    requires Fallback(dest, uuid) !in taken
    ensures UniquePath(taken, dest, uuid) !in taken
  {
  }

  /** One iteration of the finalize loop. */
  lemma FinalizeNext(disk: Disk, ws: seq<Done>, uuids: nat -> string, n: nat)
    requires n < |ws|
    requires DistinctTemps(ws) && TempsOnDisk(ws, disk) && FreshFallbacks(disk, ws, uuids)
    requires Finalized(disk, ws, n, FinalizeUpTo(disk, ws, uuids, n))
    ensures Finalized(disk, ws, n + 1, FinalizeUpTo(disk, ws, uuids, n + 1))
  {
    var s, w := FinalizeUpTo(disk, ws, uuids, n), ws[n];
    assert !s.failed;
    hide AllMovedSafely, OthersUntouched, MovedTemps, Destinations, Candidate, Finalized, UniquePath, DistinctTemps,
         TempsOnDisk, TempPath;
    if w.complete {
      UniquePathIsFree(s.disk.Keys, w.dest, uuids(n));
      FinalizeStep(disk, ws, n, s, UniquePath(s.disk.Keys, w.dest, uuids(n)));
    } else {
      FinalizeSkip(disk, ws, n, s);
    }
  }

  /** The finalize loop never clobbers: with the temporary files of the complete writers present and
      distinct it does not fail, and after each file the disk is as `Finalized` says. */
  lemma {:induction false} FinalizeNeverClobbers(disk: Disk, ws: seq<Done>, uuids: nat -> string, n: nat)
    requires n <= |ws|
    requires DistinctTemps(ws) && TempsOnDisk(ws, disk) && FreshFallbacks(disk, ws, uuids)
    ensures Finalized(disk, ws, n, FinalizeUpTo(disk, ws, uuids, n))
  {
    hide FinalizeUpTo, Finalized, DistinctTemps, TempsOnDisk, FreshFallbacks;
    if n == 0 {
      FinalizeNone(disk, ws, uuids);
    } else {
      FinalizeNeverClobbers(disk, ws, uuids, n - 1);
      FinalizeNext(disk, ws, uuids, n - 1);
    }
  }

  lemma FinalizeNone(disk: Disk, ws: seq<Done>, uuids: nat -> string)
    ensures Finalized(disk, ws, 0, FinalizeUpTo(disk, ws, uuids, 0))
  {
  }

  /** In particular the loop succeeds, and its verdict is whether all files were complete. */
  lemma FinalizeVerdict(disk: Disk, ws: seq<Done>, uuids: nat -> string)
    requires DistinctTemps(ws) && TempsOnDisk(ws, disk) && FreshFallbacks(disk, ws, uuids)
    ensures var s := FinalizeUpTo(disk, ws, uuids, |ws|);
            !s.failed && s.allOk == (forall i | 0 <= i < |ws| :: ws[i].complete)
  {
    hide AllMovedSafely, OthersUntouched, FinalizeUpTo, FreshFallbacks;
    FinalizeNeverClobbers(disk, ws, uuids, |ws|);
  }

  /** Temporary files are distinct exactly when no two destinations share a stem: the extension plays
      no part. */
  lemma TempsDistinctIffStemsDistinct(ws: seq<Done>)
    ensures DistinctTemps(ws)
       <==> forall i, j | 0 <= i < j < |ws| && ws[i].complete && ws[j].complete :: ws[i].dest.stem != ws[j].dest.stem
  {
    forall i, j | 0 <= i < j < |ws| ensures ws[i].Temp() == ws[j].Temp() <==> ws[i].dest.stem == ws[j].dest.stem {
    }
  }
}
