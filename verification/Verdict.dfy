/** The verdict of the count at the end of a session, in terms of what was on record and how files are cut. */
module Verdict {
  import opened Types
  import opened ChunkIndex
  import opened Resume
  import opened Protocol
  import opened Reassembly
  import opened Session
  import opened SessionPlan
  import Bitmap

  lemma {:induction false} DoneIdsMembers(p: Plan, k: nat, id: ChunkId)
    requires PlanOk(p) && k <= |p.items|
    ensures id in DoneIds(p.items, k)
       <==> exists j :: 0 <= j < k && p.items[j].id == id && !p.items[j].skipped
  {
    if k > 0 {
      DoneIdsMembers(p, k - 1, id);
    }
  }

  /** The chunks of a file that were sent by the end: those of the sender's that were not skipped. */
  lemma SentOfFile(p: Plan, f: nat, c: nat)
    requires PlanOk(p) && f < |p.cfg.sources|
    ensures c in ChunksOf(DoneIds(p.items, |p.items|), f)
       <==> c < SendCounts(p.cfg)[f] && !Skips(p.cfg.manifest, Skip(p), ChunkId(f, c))
  {
    hide FlatIds, Prefix, SkipSet, GlobalOffset, ChunkCount, EffectiveChunkSize;
    var id, n := ChunkId(f, c), |p.items|;
    DoneIdsMembers(p, n, id);
    assert c in ChunksOf(DoneIds(p.items, n), f) <==> id in DoneIds(p.items, n) by {
      if id in DoneIds(p.items, n) { assert id.chunk == c; }
    }
    if c < SendCounts(p.cfg)[f] {
      IdAt(SendCounts(p.cfg), id);
      var j := Position(SendCounts(p.cfg), id);
      assert ItemOk(p, j);
      forall i | 0 <= i < n && p.items[i].id == id ensures i == j {
        assert ItemOk(p, i);
      }
    } else {
      forall i | 0 <= i < n ensures p.items[i].id != id {
        assert ItemOk(p, i);
      }
    }
  }

  predicate NothingRecorded(p: Plan) {
    forall f | 0 <= f < |p.cfg.sources| :: SavedSet(p.store, p.cfg.manifest.id, f) == {}
  }

  /** With equal cuts, the chunks of a file sent by the end are those not on record. */
  lemma SentIsComplement(p: Plan, f: nat, c: nat)
    requires PlanOk(p) && SameCuts(p.cfg) && WellSaved(p.cfg.manifest, p.store) && f < |p.cfg.sources|
    ensures c in ChunksOf(DoneIds(p.items, |p.items|), f)
       <==> c < ManifestCounts(p.cfg.manifest)[f] && c !in SavedSet(p.store, p.cfg.manifest.id, f)
  {
    hide FlatIds, Prefix, SkipSet, GlobalOffset, ItemsOk, ChunkCount, EffectiveChunkSize, ChunksOf;
    CountsCoincide(p.cfg);
    SentOfFile(p, f, c);
    if c < ManifestCounts(p.cfg.manifest)[f] {
      NegotiationIsExact(p.cfg.manifest, p.store, ChunkId(f, c));
    }
  }

  // ----- The verdict -----

  /** Every chunk the sender will send is one the writer expects. */
  predicate HasRoom(p: Plan) {
    forall j | 0 <= j < |p.items| && !p.items[j].skipped :: Expected(p, p.items[j].id)
  }

  predicate Expected(p: Plan, id: ChunkId) {
    InRange(ManifestCounts(p.cfg.manifest), id)
  }

  lemma SentHasRoom(p: Plan, f: nat, c: nat)
    requires PlanOk(p) && HasRoom(p) && f < |p.cfg.sources|
    requires c in ChunksOf(DoneIds(p.items, |p.items|), f)
    ensures c < ManifestCounts(p.cfg.manifest)[f]
  {
    hide FlatIds, Prefix, SkipSet, GlobalOffset, ItemsOk, ChunkCount, EffectiveChunkSize, DoneIds;
    var id :| id in DoneIds(p.items, |p.items|) && id.file == f && id.chunk == c;
    DoneIdsMembers(p, |p.items|, id);
    var j :| 0 <= j < |p.items| && p.items[j].id == id && !p.items[j].skipped;
    assert Expected(p, p.items[j].id);
  }

  /** If a file counts as complete, every chunk of it that the writer expects was sent, so none was on record. */
  lemma CompleteHasNoRecord(p: Plan, f: nat)
    requires PlanOk(p) && WellSaved(p.cfg.manifest, p.store) && HasRoom(p) && f < |p.cfg.sources|
    requires p.initial[f] == {} && CompleteAtEnd(p, f)
    ensures SavedSet(p.store, p.cfg.manifest.id, f) == {}
    ensures ManifestCounts(p.cfg.manifest)[f] <= SendCounts(p.cfg)[f]
  {
    hide FlatIds, Prefix, SkipSet, GlobalOffset, ItemsOk, ChunkCount, EffectiveChunkSize, ChunksOf, DoneIds,
         WellSaved, SavedSet, HasRoom, SendCounts;
    var sent, total := ChunksOf(DoneIds(p.items, |p.items|), f), ManifestCounts(p.cfg.manifest)[f];
    assert p.initial[f] + sent == sent;
    forall c | c in sent ensures c < total { SentHasRoom(p, f, c); }
    CountDecides(sent, total);
    assert sent == Below(total);
    if total > 0 { SentOfFile(p, f, total - 1); }
    SavedBelow(p, f);
    forall c | c in SavedSet(p.store, p.cfg.manifest.id, f) ensures false {
      assert c in sent;
      SentOfFile(p, f, c);
      NegotiationIsExact(p.cfg.manifest, p.store, ChunkId(f, c));
    }
  }

  predicate NoneSkipped(p: Plan) {
    forall j | 0 <= j < |p.items| :: !p.items[j].skipped
  }

  /** A record that lists nothing makes the sender skip nothing, however it cuts. */
  lemma NothingSkipped(p: Plan)
    requires PlanOk(p) && WellSaved(p.cfg.manifest, p.store) && NothingRecorded(p)
    ensures Skip(p) == {} && NoneSkipped(p)
  {
    NothingAnnounced(p);
    hide FlatIds, Prefix, SkipSet, GlobalOffset, EffectiveChunkSize, ChunkCount, ChunkOf, WellSaved, NothingRecorded;
    forall j | 0 <= j < |p.items| ensures !p.items[j].skipped {
      assert ItemOk(p, j);
    }
  }

  lemma NothingAnnounced(p: Plan)
    requires PlanOk(p) && WellSaved(p.cfg.manifest, p.store) && NothingRecorded(p)
    ensures Skip(p) == {}
  {
    hide FlatIds, Prefix, GlobalOffset, ItemsOk, ChunkCount, EffectiveChunkSize, Bitmap.Encode, Bitmap.Decode;
    var m, state := p.cfg.manifest, Lookup(p.store, p.cfg.manifest.id);
    if state.Some? {
      var files := state.value.files;
      forall g ensures g !in AnnouncedSet(m, p.store) {
        AnnouncedMembers(m, files, |files|, g);
        assert forall i | 0 <= i < |files| :: files[i].completed == SavedSet(p.store, m.id, i);
      }
      Bitmap.DecodeEncode(AnnouncedSet(m, p.store), TotalChunks(m));
    }
  }

  lemma SentUnskipped(p: Plan, f: nat)
    requires PlanOk(p) && Skip(p) == {} && f < |p.cfg.sources|
    ensures ChunksOf(DoneIds(p.items, |p.items|), f) == Below(SendCounts(p.cfg)[f])
  {
    hide FlatIds, Prefix, SkipSet, GlobalOffset, ItemsOk, ChunkCount, EffectiveChunkSize, ChunksOf, DoneIds,
         SendCounts;
    var sent := ChunksOf(DoneIds(p.items, |p.items|), f);
    forall c: nat ensures c in sent <==> c in Below(SendCounts(p.cfg)[f]) { SentOfFile(p, f, c); }
  }

  /** If nothing is skipped, a file counts as complete exactly when both sides come to the same number of chunks. */
  lemma UnskippedCount(p: Plan, f: nat)
    requires PlanOk(p) && Skip(p) == {} && StartsEmpty(p) && f < |p.cfg.sources|
    ensures CompleteAtEnd(p, f) <==> SendCounts(p.cfg)[f] == ManifestCounts(p.cfg.manifest)[f]
  {
    hide FlatIds, Prefix, SkipSet, GlobalOffset, ItemsOk, ChunkCount, EffectiveChunkSize, ChunksOf, DoneIds,
         SendCounts;
    SentUnskipped(p, f);
    var sent := ChunksOf(DoneIds(p.items, |p.items|), f);
    assert p.initial[f] + sent == sent;
  }

  lemma UnskippedHasRoom(p: Plan)
    requires PlanOk(p) && NoneSkipped(p) && RoomForAll(p.cfg)
    ensures HasRoom(p)
  {
    hide FlatIds, Prefix, SkipSet, GlobalOffset, ChunkCount, EffectiveChunkSize;
    forall j | 0 <= j < |p.items| ensures Expected(p, p.items[j].id) {
      assert ItemOk(p, j);
    }
  }

  /** The sender never cuts more chunks than the writer expects. */
  predicate RoomForAll(cfg: Config)
    requires |cfg.sources| == |cfg.manifest.files|
  {
    forall f | 0 <= f < |cfg.sources| :: SendCounts(cfg)[f] <= ManifestCounts(cfg.manifest)[f]
  }

  lemma UnskippedNeedsRoom(p: Plan, f: nat)
    requires PlanOk(p) && Skip(p) == {} && HasRoom(p) && f < |p.cfg.sources|
    ensures SendCounts(p.cfg)[f] <= ManifestCounts(p.cfg.manifest)[f]
  {
    hide FlatIds, Prefix, SkipSet, GlobalOffset, ItemsOk, ChunkCount, EffectiveChunkSize, ChunksOf, DoneIds,
         SendCounts, HasRoom;
    var total := ManifestCounts(p.cfg.manifest)[f];
    SentUnskipped(p, f);
    if total in ChunksOf(DoneIds(p.items, |p.items|), f) { SentHasRoom(p, f, total); }
  }

  lemma CompleteThenSame(p: Plan)
    requires PlanOk(p) && WellSaved(p.cfg.manifest, p.store) && StartsEmpty(p) && HasRoom(p) && EndsOk(p)
    ensures NothingRecorded(p) && SendCounts(p.cfg) == ManifestCounts(p.cfg.manifest)
  {
    hide FlatIds, Prefix, SkipSet, GlobalOffset, ItemsOk, ChunkCount, EffectiveChunkSize, WellSaved, SavedSet,
         HasRoom, CompleteAtEnd, SendCounts, ManifestCounts;
    forall f | 0 <= f < |p.cfg.sources|
      ensures SavedSet(p.store, p.cfg.manifest.id, f) == {}
      ensures ManifestCounts(p.cfg.manifest)[f] <= SendCounts(p.cfg)[f]
    {
      CompleteHasNoRecord(p, f);
    }
    NothingSkipped(p);
    forall f | 0 <= f < |p.cfg.sources| ensures SendCounts(p.cfg)[f] == ManifestCounts(p.cfg.manifest)[f] {
      UnskippedNeedsRoom(p, f);
    }
  }

  /** As the receiver is written, its writers start empty. Then the writer has room for all that is sent and the
      count comes out right if and only if nothing was on record and both sides come to the same number of chunks
      for every file. */
  lemma VerifiedIffNothingSkipped(p: Plan)
    requires PlanOk(p) && WellSaved(p.cfg.manifest, p.store) && StartsEmpty(p)
    ensures HasRoom(p) && EndsOk(p) <==> NothingRecorded(p) && SendCounts(p.cfg) == ManifestCounts(p.cfg.manifest)
    ensures SameCuts(p.cfg) ==> (EndsOk(p) <==> NothingRecorded(p))
  {
    if SameCuts(p.cfg) {
      CountsCoincide(p.cfg);
      assert HasRoom(p) by { SameCountsHaveRoom(p); }
    }
    hide FlatIds, Prefix, SkipSet, GlobalOffset, ItemsOk, ChunkCount, EffectiveChunkSize, WellSaved, HasRoom,
         CompleteAtEnd, SendCounts, ManifestCounts, NothingRecorded, SameCuts;
    if HasRoom(p) && EndsOk(p) {
      CompleteThenSame(p);
    }
    if NothingRecorded(p) && SendCounts(p.cfg) == ManifestCounts(p.cfg.manifest) {
      NothingSkipped(p);
      forall f | 0 <= f < |p.initial| ensures CompleteAtEnd(p, f) { UnskippedCount(p, f); }
      SameCountsHaveRoom(p);
    }
  }

  lemma SameCountsHaveRoom(p: Plan)
    requires PlanOk(p) && SendCounts(p.cfg) == ManifestCounts(p.cfg.manifest)
    ensures HasRoom(p) && RoomForAll(p.cfg)
  {
    hide FlatIds, Prefix, SkipSet, GlobalOffset, ChunkCount, EffectiveChunkSize;
    forall j | 0 <= j < |p.items| ensures Expected(p, p.items[j].id) {
      assert ItemOk(p, j);
    }
  }

  lemma SavedBelow(p: Plan, f: nat)
    requires PlanOk(p) && WellSaved(p.cfg.manifest, p.store) && f < |p.cfg.sources|
    ensures forall c | c in SavedSet(p.store, p.cfg.manifest.id, f) :: c < ManifestCounts(p.cfg.manifest)[f]
  {
    hide FlatIds, Prefix, SkipSet, GlobalOffset, ItemsOk, ChunkCount, EffectiveChunkSize, ChunksOf, DoneIds;
  }

  /** Had the writers been given the recorded sets when they were opened, every undisturbed session
      would be verified. */
  lemma RestoringAlwaysVerifies(p: Plan)
    requires PlanOk(p) && SameCuts(p.cfg) && WellSaved(p.cfg.manifest, p.store)
    requires forall f | 0 <= f < |p.initial| :: p.initial[f] == SavedSet(p.store, p.cfg.manifest.id, f)
    ensures EndsOk(p)
  {
    hide FlatIds, Prefix, SkipSet, GlobalOffset, ItemsOk, ChunkCount, EffectiveChunkSize, ChunksOf, DoneIds;
    forall f | 0 <= f < |p.initial|
      ensures CompleteAtEnd(p, f)
    {
      var all, total := p.initial[f] + ChunksOf(DoneIds(p.items, |p.items|), f), ManifestCounts(p.cfg.manifest)[f];
      SavedBelow(p, f);
      forall c: nat ensures c in all <==> c in Below(total) { SentIsComplement(p, f, c); }
      assert all == Below(total);
    }
  }

  /** The record a finished session leaves: removed after a good verdict, untouched after a bad one. */
  lemma RecordAfter(p: Plan, r: Receiver, uuids: nat -> string)
    requires PlanOk(p) && Ended(p, r, uuids)
    ensures r.store == if EndsOk(p) then p.store - {p.cfg.manifest.id} else p.store
  {
    hide FlatIds, Prefix, ItemsOk, ValidConfig, EndsOk, FinalState, FallbacksUnused;
    VerdictIsEndsOk(p, uuids);
  }
}
