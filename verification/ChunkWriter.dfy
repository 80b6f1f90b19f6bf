/** The chunk writer as an object over a shared file system; its methods do what Storage says on values. */
module ChunkWriter {
  import opened Types
  import opened Storage

  class FileSystem {
    var files: Disk

    constructor (files: Disk)
      ensures this.files == files
    {
      this.files := files;
    }

    /** Opens a file for writing without truncating it, creates it if needed, and sets its length. */
    method OpenSized(path: Path, size: nat)
      modifies this
      ensures files == old(files)[path := SetLen(if path in old(files) then old(files)[path] else [], size)]
    {
      var before := if path in files then files[path] else [];
      files := files[path := SetLen(before, size)];
    }

    method Overwrite(path: Path, offset: nat, data: Bytes) returns (ok: bool)
      modifies this
      ensures ok <==> path in old(files)
      ensures files == if ok then old(files)[path := WriteAt(old(files)[path], offset, data)] else old(files)
    {
      ok := path in files;
      if ok {
        files := files[path := WriteAt(files[path], offset, data)];
      }
    }

    method Move(from: Path, to: Path) returns (ok: bool)
      modifies this
      ensures ok <==> from in old(files)
      ensures files == if ok then Rename(old(files), from, to) else old(files)
    {
      ok := from in files;
      if ok {
        files := Rename(files, from, to);
      }
    }

    /** Tries the destination itself, then numbered names, then a random one. */
    method FindUniquePath(path: Path, uuid: string) returns (to: Path)
      ensures to == UniquePath(files.Keys, path, uuid)
    {
      if path !in files {
        return path;
      }
      for i := 1 to MAX_SUFFIX
        invariant FirstFree(files.Keys, path, 0) == FirstFree(files.Keys, path, i)
      {
        if Candidate(path, i) !in files {
          return Candidate(path, i);
        }
      }
      to := Fallback(path, uuid);
    }
  }

  class ChunkWriter {
    const fs: FileSystem
    const dest: Path
    const temp: Path
    const chunkSize: ChunkSize
    const fileSize: nat
    const totalChunks: nat
    var completed: set<nat>

    ghost predicate Valid() {
      temp == TempPath(dest) && totalChunks == ChunkCount(fileSize, chunkSize)
    }

    ghost function Model(): Writer
      reads this
    {
      Writer(dest, chunkSize, fileSize, completed)
    }

    constructor (fs: FileSystem, dest: Path, chunkSize: ChunkSize, fileSize: nat)
      modifies fs
      ensures Valid() && this.fs == fs && Model() == Writer(dest, chunkSize, fileSize, {})
      ensures fs.files == OpenTemp(old(fs.files), dest, fileSize)
    {
      this.fs, this.dest, this.temp := fs, dest, TempPath(dest);
      this.chunkSize, this.fileSize := chunkSize, fileSize;
      totalChunks := ChunkCount(fileSize, chunkSize);
      completed := {};
      new;
      fs.OpenSized(temp, fileSize);
    }

    method WriteChunk(chunk: nat, data: Bytes) returns (r: Result<Digest<Bytes>, StorageError>)
      requires Valid()
      modifies this, fs
      ensures var o := Storage.WriteChunk(old(Model()), old(fs.files), chunk, data);
              r == o.result && Model() == o.writer && fs.files == o.disk
    {
      if chunk >= totalChunks {
        return Err(ChunkIntegrityFailed(chunk));
      }
      var ok := fs.Overwrite(temp, chunk * chunkSize, data);
      if !ok {
        return Err(Io(temp));
      }
      completed := completed + {chunk};
      r := Ok(Sha256(data));
    }

    method IsComplete() returns (b: bool)
      requires Valid()
      ensures b <==> Model().IsComplete()
    {
      b := |completed| == totalChunks;
    }

    /** The chunks still missing, each once, in ascending order. */
    method MissingChunks() returns (missing: seq<nat>)
      requires Valid()
      ensures forall c: nat :: c in missing <==> c < Model().Total() && c !in Model().completed
      ensures forall i, j | 0 <= i < j < |missing| :: missing[i] < missing[j]
    {
      missing := [];
      for c := 0 to totalChunks
        invariant forall d: nat :: d in missing <==> d < c && d !in completed
        invariant forall i, j | 0 <= i < j < |missing| :: missing[i] < missing[j]
      {
        if c !in completed {
          assert forall i | 0 <= i < |missing| :: missing[i] in missing;
          missing := missing + [c];
        }
      }
    }

    method RestoreCompleted(chunks: set<nat>)
      modifies this
      ensures Model() == old(Model()).(completed := chunks)
    {
      completed := chunks;
    }

    /** Moves the temporary file to a destination that is free at this moment; completeness is not
        required. */
    method Finalize(uuid: string) returns (r: Result<Path, StorageError>)
      requires Valid()
      modifies fs
      ensures var to := UniquePath(old(fs.files).Keys, dest, uuid);
              if temp in old(fs.files) then r == Ok(to) && fs.files == Rename(old(fs.files), temp, to)
              else r == Err(Io(dest)) && fs.files == old(fs.files)
    {
      var to := fs.FindUniquePath(dest, uuid);
      var ok := fs.Move(temp, to);
      r := if ok then Ok(to) else Err(Io(dest));
    }
  }
}
