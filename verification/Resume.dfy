/** Persisted resume states: one record per transfer. */
module Resume {
  import opened Types

  datatype FileResume = FileResume(fileIndex: nat, destPath: Path, fileSize: nat, chunkSize: ChunkSize,
                                   completed: set<nat>)

  datatype ResumeState = ResumeState(id: TransferId, files: seq<FileResume>, bytesTransferred: nat, totalBytes: nat)

  /** A record file either parses or does not (a torn write, say). */
  datatype Stored = Valid(state: ResumeState) | Corrupt

  type Store = map<TransferId, Stored>

  datatype LoadError = ResumeStateCorrupted(id: TransferId)

  /** What a later session gets to see: a corrupt record counts as none. */
  function Lookup(store: Store, id: TransferId): Option<ResumeState> {
    if id in store && store[id].Valid? then Some(store[id].state) else None
  }

  class ResumeManager {
    var records: Store

    constructor (records: Store)
      ensures this.records == records
    {
      this.records := records;
    }

    method Save(state: ResumeState)
      modifies this
      ensures records == old(records)[state.id := Valid(state)]
    {
      records := records[state.id := Valid(state)];
    }

    method Load(id: TransferId) returns (r: Result<Option<ResumeState>, LoadError>)
      ensures id !in records ==> r == Ok(None)
      ensures id in records && records[id].Valid? ==> r == Ok(Some(records[id].state))
      ensures id in records && records[id].Corrupt? ==> r == Err(ResumeStateCorrupted(id))
    {
      if id !in records {
        return Ok(None);
      }
      match records[id]
      case Valid(state) => r := Ok(Some(state));
      case Corrupt => r := Err(ResumeStateCorrupted(id));
    }

    method Remove(id: TransferId)
      modifies this
      ensures records == old(records) - {id}
    {
      if id in records {
        records := records - {id};
      }
    }
  }
}
