# JustDrop transfer verification

JustDrop sends files between two devices on a local network. The sender cuts each file into chunks and sends them one
at a time, waiting for an acknowledgement of each; the receiver writes them into pre-allocated temporary files, records
what it has when a transfer is interrupted, announces that record as a bitmap when the transfer is offered again, and
moves complete files to their final names. This project models that protocol, the storage and framing below it, and
three small state machines beside it, and proves what they keep over whole runs.

## How the model is built

- **Values first.** `Types`, `Geometry`, `ChunkIndex`, `Bitmap`, `Storage`, `Resume` hold the data: chunk arithmetic,
  global chunk numbers, the bitmap, a disk as a map from paths to contents, the finalize loop, the resume records.
  `Reassembly`, `Mismatch` and `Finalization` say what series of writes and the finalize loop do to files.
- **Two reactive parties.** `Protocol` gives sender and receiver as functions from a state and one incoming event to a
  new state and at most one message, with every branch of the source, including the ones that only end the transfer.
- **The source's own loops.** `SendTransfer`, `RecvTransfer`, `ChunkWriter`, `Chunker`, `Bitmap` and `Resume` contain
  the imperative code: nested chunk loops, the receive loop over mutable writers that share a file system, short reads
  into a buffer, bit setting in an arbitrary order. Each method is proved equal to the function that specifies it, so the
  blocking loops do exactly what the reactive parties do, on every sequence of events.
- **The system.** `Session` joins the two parties by FIFO channels and adds everything that can go wrong: cancellation,
  a leaving sender, a broken link, a message too large for a frame, a crashing receiver (also in the middle of a write,
  of saving the record, or of the finalize loop), and reconnecting with the same manifest any number of times while
  other files and records change. `SessionPlan` says what a session consists of once its request is out; `Flow` shows
  where every session stands at every moment of every such run, with any chunk sizes and file names.
- **From outside.** `Conversation` describes both blocking loops on every sequence of events: what each side says, which
  answers let it go on, and what any other answer makes of the transfer. `Refusal` says what the user's decision does,
  `Interruption` what an interrupted receiver leaves and what the next session makes of it.
- **Sessions as a whole.** `QuietRun`, `Liveness`, `Verdict`, `Accounting`, `Contents`, `EndToEnd`, `Retry` and
  `SingleFile` say when sessions are reported complete, what is counted, and which bytes are in the files, and, for
  sessions in which nothing happens but deliveries, how long they take.
- **Beside it.** `Transport` (framing over a stream that arrives in arbitrary pieces), `StateMachine`, `Engine` (peer
  registry), `Nonce`; `Encoding` ties the messages of `Protocol` to the bytes of `Transport`.

Assumptions, visible in the statements: source files do not change during a transfer and the manifest was built from
them (`ValidConfig`); sender and receiver cut alike (`SameCuts`) or temporary files are distinct (`TempsDistinct`) where
a theorem says so; the random name drawn on fallback is unused when it is drawn; 64-bit file sizes fit `usize`; a chunk
size is not 0 (the code divides by it). A message whose frame exceeds 16 MiB is refused by whoever receives it; message
sizes are those of the fixed-width encoding, except that the encoded size of a request is a parameter. A SHA-256 digest
stands for the value it was computed from; the code only compares digests and merely logs a mismatch. Accepting or
refusing is a parameter.

Not visible in them: encryption succeeds for messages of every length up to that frame size. The cipher library has a
limit of its own, 65535 bytes by section 3 of the Noise Protocol Framework, and reports a longer message as an error to
its sender. Where that holds, no chunk above it is sent at all, and the sizes that `EndToEnd.FreshSessionEnd` and
`SingleFile.FreshFileArrivesIff` call sufficient are bounded by it; what the runs of `Session` and `Flow` keep is not
affected, because a sender may leave them at any time.

## What turned out not to hold

- **Large files.** Above 1 GiB the sender doubles its chunk size but the receiver writes with the manifest's. A session
  is reported complete if and only if nothing was on record, its messages fit a frame, and both sides come to the same
  number of chunks for every file (`EndToEnd.SessionEnd`, and in any run `EndToEnd.CompletedOnlyIf`); each file that both
  sides cut alike has then arrived (`EndToEnd.CompletedDelivers`), any other holds the sender's chunks at the writer's
  offsets (`EndToEnd.CompletedContents`). `SingleFile.FreshFileArrivesIff` gives the exact condition under which a
  fresh file arrives for every content: size at most 1 GiB or a chunk size of exactly 4 MiB, and chunks that fit. Up to
  2 MiB such a transfer always ends as incomplete (`EndToEnd.TooFewNeverVerifies`); wherever the counts agree although
  the cuts differ, some content is reported complete and finalized with other bytes
  (`SingleFile.MismatchIsReportedComplete`, with sizes in `SingleFile.UnnoticedCorruption`).
- **Large chunks.** The configuration bounds the chunk size from below only. A chunk that exceeds a frame is refused by
  the receiver, and a session that has to send one is never reported complete (`EndToEnd.OversizeNeverCompletes`).
- **Resuming.** The receiver announces what it has but never restores it into its writers. The count at the end of an
  uninterrupted session comes out right if and only if nothing was on record and both sides come to the same numbers of
  chunks, provided the writers have room for all that is sent (`Verdict.VerifiedIffNothingSkipped`); repeating the
  session changes nothing (`Retry.RetryEndsAlike`), and an interrupted resumed session forgets what was on record before
  (`Session.InterruptForgetsPredecessor`). With the record restored every such session between parties that cut alike
  would be reported complete and deliver (`EndToEnd.RestoredSessionCompletes`). The repository's README promises that a
  transfer picks up where it left off; the model follows the code. Besides, `send_files` gives every call a fresh
  transfer id, so a record is only ever found by a sender that offers the same manifest again; the model lets it.
- **Same stem.** The temporary name replaces the extension, so `report.pdf` and `report.txt` share one. On every disk the
  finalize loop succeeds with every complete file's own bytes if and only if the temporary files of the complete ones
  are there and no two of them share a stem (`Finalization.FaithfulIffStemsDistinct`, any number of files). Otherwise it
  need not fail: with three suitable names it reports success and one file has another's bytes
  (`Finalization.ThreeNamesSwapBytes`). For whole transfers between parties that cut alike: a session that was reported
  complete has delivered every file if and only if no two names share a stem (`EndToEnd.DeliveredIffStemsDistinct`).
- **Shown trust.** The level shown with a peer and the stored one part when a sighting without fingerprint brings another
  level (`Engine.BleSightingHidesTrust`) and when a level is set (`Engine.SettingTrustDoesNotShow`);
  `Engine.ShownTrustIsStoredIff` says exactly when they agree, in terms of the operations since the last sighting with
  a fingerprint.
- **Blocking.** No entry ever carries a blocked fingerprint (`Engine.BlockedNeverListed`), but a Bluetooth sighting
  carries none, so a blocked device is visible again with the next one (`Engine.BlockedResurfaces`). It is visible if
  and only if its last sighting was without that fingerprint and shows it (`Engine.BlockedDeviceVisibleIff`).
- **Nonces** repeat after 2^64 messages in a build whose counter wraps, and not before (`Nonce.NoncesDistinctIff`).

Source paths below are relative to the repository's root.

## Model

| member | source | states |
|---|---|---|
| Session.CompletedMeansDelivered | crates/justdrop-protocol/src/transfer.rs:278-378 | In every reachable world, from any sound record on, over any number of interrupted, crashed and resumed sessions, a sender that reports completion implies that every file is at a path of its own with the source's bytes |
| Session.FinalizedMeansSource | crates/justdrop-protocol/src/transfer.rs:555-598 | Even an unverified session finalizes no file with other bytes than its source's, and no two at one path |
| Session.SavedChunksAreSound | crates/justdrop-protocol/src/transfer.rs:599-665 | In every reachable world, from any sound record on, each chunk the persisted record lists is on disk with the source's bytes, in a temporary file of the right length |
| Session.InterruptForgetsPredecessor | crates/justdrop-protocol/src/transfer.rs:629-665 | What an interruption would save is disjoint from what was on record when the session started |
| Session.StepKeepsInv | crates/justdrop-protocol/src/transfer.rs:196-665 | Every step, including cancel, close, reset, the crashes and reconnecting, keeps the two-party invariant |
| Session.NegotiationIsExact | crates/justdrop-protocol/src/transfer.rs:468-484 | Per-file sets, global numbers, bitmap, decoding and skip test compose to: the sender skips a chunk iff the record lists it for that file |
| Session.AdvanceSends | crates/justdrop-protocol/src/transfer.rs:284-306 | Whatever comes next from the sender is a chunk of its order that it does not skip, with that chunk's data, or the completion message |
| Session.OpenKeepsSaved | crates/justdrop-storage/src/writer.rs:57-75 | Opening the writers without truncation keeps every recorded chunk on disk |
| Session.OnChunkOk | crates/justdrop-protocol/src/transfer.rs:520-535 | A source chunk is written, recorded as completed and acknowledged with its digest, and nothing known about any chunk is lost |
| Session.FinalizeOk | crates/justdrop-protocol/src/transfer.rs:563-575 | After any number of iterations of the finalize loop the record is still sound and what was moved is the source |
| Session.OnInterruptOk | crates/justdrop-protocol/src/transfer.rs:599-615 | Saving on interruption records only chunks that are on disk with the source's bytes |
| Interruption.InterruptionIsSaved | crates/justdrop-protocol/src/transfer.rs:599-665 | A receiving receiver that hears a cancellation or a clean close ends with that reason and leaves a record that lists every writer's completed set, the files' paths and sizes, and the counter; files and other records stay |
| Interruption.OtherwiseNothingSaved | crates/justdrop-protocol/src/transfer.rs:518-622 | No other event writes a record while receiving; only a good verdict removes one |
| Interruption.HowReceivingEnds | crates/justdrop-protocol/src/transfer.rs:518-622 | Receiving goes on iff a chunk is heard that its writer takes; which events end it as finished, interrupted, unexpected or failed |
| Interruption.WhatHappensToFiles | crates/justdrop-protocol/src/transfer.rs:518-598 | A completion leaves the disk as the finalize loop does up to a failing rename, a chunk touches one temporary file at most, nothing else touches a file |
| Interruption.StepSaves | crates/justdrop-protocol/src/transfer.rs:599-615 | In the two-party system every step in which the receiver hears that it is interrupted leaves that record |
| Interruption.StepSavesNothing | crates/justdrop-protocol/src/transfer.rs:518-627 | Every other step but a crash within a save leaves the records, or removes this transfer's after a good verdict |
| Interruption.InterruptedRunSaves | crates/justdrop-protocol/src/transfer.rs:599-665 | In every run the record an interruption leaves fits its number of bytes and lists nothing that was on record before |
| Interruption.ResumesExactly | crates/justdrop-protocol/src/transfer.rs:270-288 | In every run, after an interruption and reconnecting, a sender that is sending skips exactly the chunks the interrupted session completed |
| Refusal.PermittedOpens | crates/justdrop-protocol/src/transfer.rs:446-514 | A request that the settings or the user permit is answered with what is on record, and one empty writer per file is opened |
| Refusal.NotPermittedRefuses | crates/justdrop-protocol/src/transfer.rs:446-464 | Any other request is refused with the user's reason, or that there was no answer; disk and records stay |
| Refusal.OnlyRequestsOpen | crates/justdrop-protocol/src/transfer.rs:425-433 | Anything but a request ends the receiver without an answer; disk and records stay |
| Refusal.StepOpensOnlyIfPermitted | crates/justdrop-protocol/src/transfer.rs:446-509 | A step opens the transfer or changes the disk of a waiting receiver only if settings or user permit it |
| Refusal.ReceivingWasPermitted | crates/justdrop-protocol/src/transfer.rs:446-464 | In every run a receiver that is receiving was permitted to, in this session |
| Refusal.RefusalStands | crates/justdrop-protocol/src/transfer.rs:267-269 | In every run no chunk is under way to a receiver that refused, and a sender ends as rejected only if its receiver refused, for that reason |
| Session.CrashOk | crates/justdrop-protocol/src/transfer.rs:518-622 | A receiver that stops dead, also within a write, a save or the finalize loop, leaves a sound record |
| QuietRun.QuietStep | crates/justdrop-protocol/src/transfer.rs:244-378 | In every stage but the last of a session whose messages get through, exactly one message is under way, exactly one party can move, and its move leads to a stage with one message less to go |
| SessionPlan.AdvanceExactly | crates/justdrop-protocol/src/transfer.rs:284-306 | The sender passes over skipped chunks only and counts a whole chunk size for each |
| SessionPlan.TakesChunk | crates/justdrop-protocol/src/transfer.rs:520-535 | The writer named completes exactly the chunk received, its temporary file takes the bytes, and the counter grows by their number |
| SessionPlan.RefusesChunk | crates/justdrop-storage/src/writer.rs:105-114 | A chunk behind the writer's total ends the receiver's session with an error |
| Flow.StepFlows | crates/justdrop-protocol/src/transfer.rs:244-627 | Every step within a session, disturbed or not, leaves the receiver with exactly the chunks before some position of the send order, and nothing under way but the next one |
| Flow.RunFlows | crates/justdrop-protocol/src/transfer.rs:244-627 | So it is in every world of every run, from the start of the session the world belongs to, with any chunk sizes and file names |
| Liveness.MessagesAddUp | crates/justdrop-protocol/src/transfer.rs:244-378 | At every moment of a session whose messages get through, messages delivered and messages still to come add up to a constant |
| Liveness.SessionLength | crates/justdrop-protocol/src/transfer.rs:417-598 | No deadlock, and such a session is over after exactly the number of messages its first stage leaves |
| Verdict.VerifiedIffNothingSkipped | crates/justdrop-protocol/src/transfer.rs:497-586 | With writers that start empty, and any cuts: the writers have room for all that is sent and the count comes out right iff nothing was on record and the counts of both sides agree |
| Verdict.RestoringAlwaysVerifies | crates/justdrop-storage/src/writer.rs:200-209 | With the recorded sets restored into the writers the verdict would always be ok |
| Accounting.SenderCountsTotal | crates/justdrop-protocol/src/transfer.rs:275-326 | The sender's counter ends at the total size if nothing was skipped, else between the total size and one chunk size per file more |
| Accounting.ReceivedIsCompleted | crates/justdrop-protocol/src/transfer.rs:511-535 | In every world of every run the receiver's counter is the recorded number plus the lengths of the completed chunks, each a chunk the sender has, and none of them is under way again |
| Accounting.SavedIsConsistent | crates/justdrop-protocol/src/transfer.rs:629-665 | In every world of every run, what an interruption would save is the recorded number plus the lengths of the chunks listed next to it |
| EndToEnd.UndisturbedReceived | crates/justdrop-protocol/src/transfer.rs:511-535 | The same at every moment of every undisturbed session |
| Accounting.DataIsAllBytes | crates/justdrop-storage/src/chunker.rs:82-118 | The data of all chunks of the first files adds up to the sizes of those files |
| EndToEnd.RestoredSessionCompletes | crates/justdrop-storage/src/writer.rs:200-209 | A session run with writers restored from a sound record is reported complete, leaves every file as its source at a path of its own, and clears the record |
| EndToEnd.TooFewNeverVerifies | crates/justdrop-core/src/types.rs:290-297 | A full fresh session with a file above 1 GiB and a chunk size up to 2 MiB always ends with the sender told that files are incomplete |
| Retry.RetryEndsAlike | crates/justdrop-protocol/src/transfer.rs:446-627 | With any cuts, a full session that finds the record of another one is reported complete iff that one was, messages that do not get through included |
| Retry.FailureStays | crates/justdrop-protocol/src/transfer.rs:555-665 | What a full session leaves on record is in shape and allows completion iff what it found did |
| EndToEnd.CanCompleteIff | crates/justdrop-protocol/src/transfer.rs:279-586 | Every message gets through and the count comes out right iff nothing is on record, request, response and chunks fit a frame, and the counts agree |
| EndToEnd.CompletedIff | crates/justdrop-protocol/src/transfer.rs:244-598 | A full session, with any cuts and any record, is reported complete iff every message gets through and is taken and the count comes out right; if only the count is short the sender is told so |
| EndToEnd.CompletedThrough | crates/justdrop-protocol/src/transfer.rs:244-598 | In any run, with any cuts and file names, a completed session had every message through and taken, every file counted complete, and the receiver finalized what it had |
| EndToEnd.CompletedExactly | crates/justdrop-protocol/src/transfer.rs:244-598 | With distinct temporary files every file of a completed session is at a path of its own and holds exactly the chunks sent for it over what its temporary file held |
| EndToEnd.CompletedOnlyIf | crates/justdrop-protocol/src/transfer.rs:279-586 | In any run, with any cuts, file names and any record in shape, a session completes only if nothing was on record, its messages fit a frame and the counts agree |
| EndToEnd.CompletedDelivers | crates/justdrop-protocol/src/transfer.rs:279-598 | In any run, from any disk and record, a completed session has delivered every file that both sides cut alike |
| EndToEnd.CompletedContents | crates/justdrop-protocol/src/transfer.rs:279-503 | In any run, from any record in shape, each file of a completed session is what the sender's chunks make of it at the writer's offsets |
| EndToEnd.FinalizedNeedsDistinct | crates/justdrop-storage/src/writer.rs:45-238 | In any run, a completed session can have all files at paths of their own only if no two share a temporary file |
| EndToEnd.DeliveredIffStemsDistinct | crates/justdrop-storage/src/writer.rs:45-238 | In any run with equal cuts, a completed session has delivered every file iff no two names share a stem |
| EndToEnd.OversizeNeverCompletes | crates/justdrop-network/src/transport.rs:91-96 | In any run, a session that has to send a chunk too large for a frame is never reported complete |
| EndToEnd.FreshSessionEnd | crates/justdrop-protocol/src/transfer.rs:279-586 | A full session without a record, with any cuts, is reported complete iff request and chunks fit a frame and the counts agree, and as incomplete if only counts are short |
| EndToEnd.SessionEnd | crates/justdrop-protocol/src/transfer.rs:244-383 | With any cuts, from any disk and record: reported complete iff nothing was on record, the messages fit and the counts agree; and if all get through, length, result, record and byte count at the end |
| EndToEnd.FreshSessionDelivers | crates/justdrop-protocol/src/transfer.rs:244-598 | With equal cuts and messages that fit, a first session run to its end is reported complete and has delivered every file byte for byte |
| EndToEnd.SettingIff | crates/justdrop-protocol/src/transfer.rs:279-503 | The assumptions of the content theorems hold iff every file is at most 1 GiB or the chunk size is 4 MiB, and no two names share a stem |
| EndToEnd.PlanIsValid | crates/justdrop-protocol/src/transfer.rs:493-514 | Every configuration, with any cuts, has such a plan: writers start empty, the counter at the recorded bytes; it is valid iff its messages get through |
| Contents.DiskHasDelivered | crates/justdrop-protocol/src/transfer.rs:520-535 | Along the send order each temporary file is its old contents, set to length, with the chunks sent for it written in their order |
| Contents.FinalFiles | crates/justdrop-protocol/src/transfer.rs:563-586 | Exactly the files counted complete are finalized, to paths of their own, each with the bytes written for it |
| Contents.RecordedAndSentIsSource | crates/justdrop-protocol/src/transfer.rs:284-306 | With a sound record and equal cuts the chunks on record and those sent make up the whole file |
| SingleFile.FullSessionExists | crates/justdrop-protocol/src/transfer.rs:244-598 | Every session whose messages get through can be run to its end |
| SingleFile.OneFileLeaves | crates/justdrop-protocol/src/transfer.rs:279-586 | A single fresh file can be reported complete with certain bytes iff its chunks fit, the counts agree, and the bytes are the sender's chunks at the writer's offsets |
| SingleFile.FreshFileArrivesIff | crates/justdrop-core/src/types.rs:290-297 | A fresh file of a given size arrives for every content iff it is at most 1 GiB or the chunk size is 4 MiB, and its chunks fit a frame |
| SingleFile.MismatchIsReportedComplete | crates/justdrop-protocol/src/transfer.rs:503-586 | Wherever the cuts differ and the counts agree there is a session that is reported complete although the finalized file is not its source |
| SingleFile.UnnoticedCorruption | crates/justdrop-protocol/src/transfer.rs:279-284 | Such a session for one byte over 1 GiB and a chunk size of one byte under 4 MiB |
| Protocol.ChunksFitIff | crates/justdrop-network/src/transport.rs:91-96 | File sizes and chunk sizes decide whether all chunks of a transfer fit their frames |
| Encoding.EncodedSize | crates/justdrop-protocol/src/messages.rs:26-71 | The sizes that decide whether a message is heard are those of its fixed-width encoding |
| Encoding.HeardIsReceived | crates/justdrop-protocol/src/codec.rs:24-55 | A message of the protocol is heard iff the transport delivers its encoding, and then as it was sent |
| Encoding.Utf8CharReads | crates/justdrop-protocol/src/messages.rs:65 | A character is read back from its bytes |
| Encoding.Utf8Size | crates/justdrop-protocol/src/messages.rs:65 | The length counted for a string is that of its UTF-8 bytes |
| SendTransfer.SendFiles | crates/justdrop-protocol/src/transfer.rs:243-383 | The blocking sender gives the result, counter and messages of the reactive sender on every sequence of events |
| SendTransfer.SendFile | crates/justdrop-protocol/src/transfer.rs:278-319 | The chunk loop of one file hands over to the next or ends the transfer as the reactive sender does |
| Conversation.SenderConversation | crates/justdrop-protocol/src/transfer.rs:243-383 | On every sequence of events: the sender says request, unskipped chunks in order and completion; it goes on only after acceptance or acknowledgement, and the first other answer decides its result; its counter is that of the position it stopped at |
| Conversation.RejectionEndsSending | crates/justdrop-protocol/src/transfer.rs:267-269 | A rejection ends sending at once with its reason: nothing follows the request, nothing is counted |
| Conversation.ChunksOnlyIfAccepted | crates/justdrop-protocol/src/transfer.rs:257-276 | A chunk is sent only after acceptance, with its data, and only if the answer does not list it |
| Conversation.ScriptChunks | crates/justdrop-protocol/src/transfer.rs:278-306 | What there is to say are exactly the unskipped chunks of the files, each with its data |
| SendTransfer.BuildManifest | crates/justdrop-protocol/src/transfer.rs:202-233 | Entries carry their position as index and their file's size; the total is the sum |
| RecvTransfer.HandleIncoming | crates/justdrop-protocol/src/transfer.rs:417-627 | The blocking receiver leaves the result, messages, disk and records of the reactive receiver on every sequence of events |
| RecvTransfer.ReceiveLoop | crates/justdrop-protocol/src/transfer.rs:518-623 | The same for the receive loop alone, over writers on the heap |
| Conversation.ReceiverConversation | crates/justdrop-protocol/src/transfer.rs:417-627 | On every sequence of events that begins with a permitted request: one response, one acknowledgement with digest per chunk, and the first other event decides result and record; cancelled or closed, the record lists exactly the chunks heard |
| Conversation.RefusalConversation | crates/justdrop-protocol/src/transfer.rs:425-464 | Every other beginning ends as refused with its reason, as an error, or as unexpected; disk and records stay |
| RecvTransfer.TakeChunk | crates/justdrop-protocol/src/transfer.rs:520-535 | One chunk through the writer it names, with both error exits |
| RecvTransfer.CompleteTransfer | crates/justdrop-protocol/src/transfer.rs:563-596 | Finalizing, verdict and removal of the record on success only |
| RecvTransfer.FinalizeAll | crates/justdrop-protocol/src/transfer.rs:563-575 | The loop over mutable writers computes the finalize function, up to the first failing rename |
| RecvTransfer.OpenWriters | crates/justdrop-protocol/src/transfer.rs:495-509 | One fresh writer per entry, all temporary files opened in order |
| RecvTransfer.CollectAnnounced | crates/justdrop-protocol/src/transfer.rs:470-477 | Collecting global numbers in any order gives the announced set |
| RecvTransfer.SaveResumeState | crates/justdrop-protocol/src/transfer.rs:629-665 | The saved record lists each writer's completed set under its position |
| ChunkWriter.ChunkWriter.constructor | crates/justdrop-storage/src/writer.rs:38-102 | A new writer has completed nothing; its temporary file has the expected length and keeps old bytes |
| ChunkWriter.ChunkWriter.WriteChunk | crates/justdrop-storage/src/writer.rs:105-176 | Result, completed set and disk after a write, with both error cases |
| ChunkWriter.ChunkWriter.IsComplete | crates/justdrop-storage/src/writer.rs:179-181 | Completion is the count reaching the total |
| ChunkWriter.ChunkWriter.MissingChunks | crates/justdrop-storage/src/writer.rs:194-198 | Exactly the missing chunk numbers, ascending |
| ChunkWriter.ChunkWriter.RestoreCompleted | crates/justdrop-storage/src/writer.rs:201-209 | Replaces the completed set and nothing else |
| ChunkWriter.ChunkWriter.Finalize | crates/justdrop-storage/src/writer.rs:212-238 | Moves the temporary file to the destination chosen at this moment, or fails and changes nothing |
| ChunkWriter.FileSystem.FindUniquePath | crates/justdrop-storage/src/writer.rs:251-279 | The search loop returns the specified free name |
| Storage.UniquePathIsLeastFree | crates/justdrop-storage/src/writer.rs:251-279 | The name is the least free candidate below 1000, and a random one only if all are taken |
| Storage.CandidatesDistinct | crates/justdrop-storage/src/writer.rs:251-279 | The numbered candidates carry their number in brackets before the extension, readable in base ten, and are pairwise distinct |
| Storage.DecimalReads | crates/justdrop-storage/src/writer.rs:261-266 | A numeral is read back as its number and has no leading zero |
| Storage.FallbacksDiffer | crates/justdrop-storage/src/writer.rs:270-279 | Random names keep the extension, begin with the stem, and differ when what was drawn differs |
| Storage.FinalizeNeverClobbers | crates/justdrop-storage/src/writer.rs:212-238 | With the temporary files of complete writers present and distinct, exactly the complete files move, to distinct free destinations with their contents; every other file is untouched |
| Finalization.OtherFilesSurvive | crates/justdrop-storage/src/writer.rs:212-279 | On any disk, also with temporary files missing or shared and after a failed rename, every file that is no writer's temporary file is untouched |
| Storage.FinalizeVerdict | crates/justdrop-protocol/src/transfer.rs:563-586 | With distinct temporary files the loop never fails and its verdict is whether all files were complete |
| Storage.TempsDistinctIffStemsDistinct | crates/justdrop-storage/src/writer.rs:45 | Temporary files are distinct iff no two destinations share a stem |
| Finalization.FaithfulIffStemsDistinct | crates/justdrop-storage/src/writer.rs:45-238 | On every disk, for any number of files: the loop succeeds and gives every complete file its own bytes at a path of its own iff the temporary files are there and no two complete files share a stem |
| Finalization.LandedNeedsDistinct | crates/justdrop-storage/src/writer.rs:212-238 | Distinct destinations that all exist in the end need distinct temporary files |
| Finalization.ThreeNamesSwapBytes | crates/justdrop-storage/src/writer.rs:45-279 | Three complete files, two of them of one stem, for which the loop reports success although one file has another's bytes |
| Storage.WrittenByte | crates/justdrop-storage/src/writer.rs:117-146 | A positioned write byte by byte, zero-filling a gap, growing the file if needed |
| Storage.RefusedWriteChangesNothing | crates/justdrop-storage/src/writer.rs:105-146 | A write is refused iff its number is not below the total or the temporary file is gone, with the matching error, and changes nothing then |
| Storage.ResizedByte | crates/justdrop-storage/src/writer.rs:57-75 | Setting the length keeps the leading bytes and fills up with zeros |
| Reassembly.WritesDeliver | crates/justdrop-storage/src/writer.rs:105-164 | A series of writes is accepted iff all chunk numbers are below the total; the completed set grows by them and the temporary file takes their bytes in the order they came |
| Reassembly.WritesInAnyOrder | crates/justdrop-storage/src/writer.rs:105-164 | After accepted writes in any order with any repetition a byte is the source's if its chunk came and unchanged otherwise; no other file changes |
| Reassembly.CompleteWriterHasSource | crates/justdrop-storage/src/writer.rs:179-181 | A new writer counts as complete iff every chunk came, and then its temporary file is the source |
| Reassembly.CountDecides | crates/justdrop-storage/src/writer.rs:179-181 | A set of chunk numbers below the total has as many members as the total iff it is all of them |
| Reassembly.WriteSourceChunk | crates/justdrop-storage/src/writer.rs:117-146 | Writing any leading part of a source chunk only brings the file closer to the source and touches nothing else |
| Mismatch.RebuiltOnWriter | crates/justdrop-storage/src/writer.rs:105-181 | With any cuts, a new writer accepts all of the sender's chunks and counts as complete iff the counts agree; what its file holds then |
| Mismatch.DeliveredIff | crates/justdrop-core/src/types.rs:290-297 | Every content of a size is rebuilt on a writer iff both sides cut alike |
| Mismatch.EqualCutsDeliver | crates/justdrop-storage/src/writer.rs:105-181 | Equal chunk sizes deliver every file |
| Mismatch.DifferentCutsCorrupt | crates/justdrop-protocol/src/transfer.rs:503 | Different chunk sizes corrupt some content of every file longer than one sender chunk |
| Geometry.ChunkShape | crates/justdrop-storage/src/chunker.rs:82-118 | Chunks start and end inside the file, are full except the last, and nonempty unless the file is |
| Geometry.JoinChunksIsFile | crates/justdrop-storage/src/chunker.rs:82-118 | The chunks in order, joined, are the file |
| Geometry.CountCovers | crates/justdrop-core/src/types.rs:134-139 | The chunk count is the least number of chunks that covers the file |
| Geometry.OffsetsInRange | crates/justdrop-storage/src/chunker.rs:83 | Byte offsets and chunk ends below the count stay in the 64-bit range |
| Geometry.ChunkSizesCoincide | crates/justdrop-core/src/types.rs:290-297 | Both sides use one chunk size iff the file is at most 1 GiB or the base is 4 MiB |
| Geometry.EffectiveSizeIs | crates/justdrop-core/src/types.rs:290-297 | The base up to 1 GiB; above, twice the base but at most 4 MiB |
| Geometry.LargeFileSendsTooFew | crates/justdrop-core/src/types.rs:290-297 | For a large file and a base up to 2 MiB the sender cuts strictly fewer chunks than the writer expects |
| Geometry.LargerChunksAreFewer | crates/justdrop-core/src/types.rs:134-139 | Cutting larger gives no more chunks |
| ChunkIndex.GlobalChunkOffset | crates/justdrop-protocol/src/transfer.rs:670-679 | The accumulating loop computes the prefix sum up to the first entry with the index |
| ChunkIndex.GlobalMonotone | crates/justdrop-protocol/src/transfer.rs:670-679 | Global numbers are below the total, strictly monotone in the send order, and one-to-one |
| ChunkIndex.GlobalBijective | crates/justdrop-protocol/src/transfer.rs:670-679 | Every number below the total is the global number of exactly one chunk |
| ChunkIndex.GlobalByFirstEntry | crates/justdrop-protocol/src/transfer.rs:670-679 | With arbitrary indices: the first entry that carries the index counts, and a missing one is behind all chunks |
| ChunkIndex.ChunkTotalsBounded | crates/justdrop-core/src/types.rs:109-114 | Chunk totals are bounded by bytes plus files, so their 64-bit sums cannot overflow before those do |
| Bitmap.EncodeReceivedBitmap | crates/justdrop-storage/src/resume.rs:174-185 | The bitmap does not depend on the order in which the set is visited |
| Bitmap.DecodeReceivedBitmap | crates/justdrop-storage/src/resume.rs:188-198 | Exactly the chunk numbers below the total whose bit is set |
| Bitmap.DecodeEncode | crates/justdrop-storage/src/resume.rs:174-198 | Decoding an encoded set gives its members below the total, for every set |
| Bitmap.EncodeDecode | crates/justdrop-storage/src/resume.rs:174-198 | Encoding a decoded byte string agrees with it on the first bits and is clear behind them |
| Resume.ResumeManager.Save | crates/justdrop-storage/src/resume.rs:71-92 | The transfer's record is replaced, no other changes |
| Resume.ResumeManager.Load | crates/justdrop-storage/src/resume.rs:95-123 | Missing, readable and corrupt records |
| Resume.ResumeManager.Remove | crates/justdrop-storage/src/resume.rs:126-140 | The transfer's record is gone, no other changes |
| Chunker.FileChunker.ReadChunk | crates/justdrop-storage/src/chunker.rs:82-155 | However short the reads, the chunk of what is visible of the file |
| Chunker.ReadFully | crates/justdrop-storage/src/chunker.rs:101-118 | The read loop stops only when the buffer is full or the file ends |
| Chunker.FileChunker.StreamChunks | crates/justdrop-storage/src/chunker.rs:160-180 | The chunks of what is visible of the file from the start on, up to where the receiver of the channel goes away |
| Chunker.FullStreamIsFile | crates/justdrop-storage/src/chunker.rs:160-180 | A stream from the first chunk taken to its end carries the file |
| Transport.SecureTransport.Recv | crates/justdrop-network/src/transport.rs:68-129 | The outcome, the bytes left and the message number depend only on the bytes, not on the pieces they arrive in |
| Transport.SecureTransport.RecvAll | crates/justdrop-protocol/src/codec.rs:39-55 | Repeated receive calls give the outcomes of the byte stream |
| Transport.SecureTransport.Send | crates/justdrop-network/src/transport.rs:39-63 | One frame with the next message number is appended to the stream |
| Transport.ReceivesWhatWasSent | crates/justdrop-network/src/transport.rs:39-129 | What was sent is received in order, followed by a clean close |
| Transport.CutStream | crates/justdrop-network/src/transport.rs:70-109 | Wherever the stream ends, the complete frames are received, then a clean close at a boundary and a reset inside a frame |
| Transport.FrameReceived | crates/justdrop-network/src/transport.rs:39-129 | What the receiver makes of a frame of any length, cut to 32 bits in its prefix |
| Transport.PrefixDigits | crates/justdrop-network/src/transport.rs:48-51 | The length prefix is big endian |
| Transport.ReceivedIffFits | crates/justdrop-network/src/transport.rs:39-129 | A message of any addressable length gets through iff its ciphertext is within the maximum; the sender checks nothing |
| Transport.SuchCiphersExist | crates/justdrop-network/src/transport.rs:39-129 | Ciphers with the properties assumed exist |
| Transport.HandoffIsClean | crates/justdrop-protocol/src/transfer.rs:147-180 | Exact reads of the handshake frames neither leave a byte behind nor take one of the encrypted stream |
| Transport.RawErrors | crates/justdrop-protocol/src/transfer.rs:161-180 | A raw frame that breaks off is an end of stream, one above the maximum is refused with only its prefix read |
| Transport.ReceiveAfterHandshake | crates/justdrop-protocol/src/transfer.rs:147-180 | Reading the handshake frames off the stream and then receiving on it gives the outcomes of the bytes behind them |
| Transport.TcpStream.ReadRawFrame | crates/justdrop-protocol/src/transfer.rs:161-180 | A raw frame is read exactly, with end of stream and size limit as errors |
| Transport.TcpStream.WriteRawFrame | crates/justdrop-protocol/src/transfer.rs:147-158 | Length prefix and body are appended |
| StateMachine.TransferStateMachine.Transition | crates/justdrop-protocol/src/state.rs:34-46 | A valid transition is taken, a refused one leaves the state and reports it |
| StateMachine.TransferStateMachine.Follow | crates/justdrop-protocol/src/state.rs:34-46 | Following a trace succeeds iff every transition of it is valid |
| StateMachine.ValidTransitionsByRank | crates/justdrop-protocol/src/state.rs:49-78 | The diagram in one sentence: abort, stall, or go up one rank |
| StateMachine.RankGrows | crates/justdrop-protocol/src/state.rs:49-78 | Along every trace the rank never decreases and stalls only on renegotiation and pausing |
| StateMachine.TerminalIsLast | crates/justdrop-protocol/src/state.rs:81-86 | Terminal states are absorbing |
| StateMachine.CompletionPassesAllPhases | crates/justdrop-protocol/src/state.rs:49-78 | Every trace to completion passes negotiation, transfer and verification in this order |
| StateMachine.SenderRunRefinesMachine | crates/justdrop-protocol/src/transfer.rs:250-378 | Whatever the sender receives, its run is a trace the machine accepts, ending in its result's state |
| StateMachine.ReceiverRunRefinesMachine | crates/justdrop-protocol/src/transfer.rs:417-622 | The same for the receiver |
| Engine.Engine.OnPeerDiscovered | crates/justdrop-engine/src/engine.rs:106-149 | The registry and event after a sighting, with blocking and merging |
| Engine.Engine.OnPeerLost | crates/justdrop-engine/src/engine.rs:152-160 | The entry is removed and announced if it was there |
| Engine.Engine.SetPeerTrust | crates/justdrop-engine/src/engine.rs:184-216 | Trust is stored; blocking drops one entry that carries the fingerprint, whichever is found first |
| Engine.Engine.VisiblePeers | crates/justdrop-engine/src/engine.rs:163-170 | Exactly the entries that are visible |
| Engine.EventsReplayToRegistry | crates/justdrop-engine/src/engine.rs:106-160 | In every run, folding the events gives the registry's keys, and each event fits what was present |
| Engine.BlockedNeverListed | crates/justdrop-engine/src/engine.rs:106-216 | In every run no entry carries a fingerprint whose stored trust is Blocked |
| Engine.ConstructorsFileWell | crates/justdrop-engine/src/peer.rs:50-93 | Both constructors file a peer under the leading characters of its fingerprint |
| Engine.KnowledgeGrows | crates/justdrop-engine/src/engine.rs:118-141 | While a device stays registered, a known fingerprint or address stays known and a real name never reverts to a placeholder |
| Engine.EntryTellsSightings | crates/justdrop-engine/src/engine.rs:118-141 | In every run an entry is the last sighting of its device with the trust that brought, its address and fingerprint the last that any sighting brought since it was listed, its name the last real one |
| Engine.EventsTell | crates/justdrop-engine/src/engine.rs:106-160 | Each sighting that is not ignored is announced as it came with its looked-up trust, as news or update; each removal is announced; nothing else is |
| Engine.MdnsIsShown | crates/justdrop-engine/src/peer.rs:74-98 | An mDNS peer is listed, shown and reachable unless it is blocked, and then nothing changes |
| Engine.BleIsShown | crates/justdrop-engine/src/peer.rs:50-71 | A Bluetooth peer is listed as it announces itself, under a placeholder until a name is known |
| Engine.SightingsMeet | crates/justdrop-engine/src/peer.rs:50-93 | A fingerprint whose bytes start with a device's eight is filed under that device's Bluetooth id |
| Engine.PlaceholderIff | crates/justdrop-engine/src/engine.rs:130-132 | A name is a placeholder iff it begins with the made-up prefix |
| Engine.HexReads | crates/justdrop-engine/src/peer.rs:57 | Two lowercase hexadecimal digits per byte, the high one first |
| Engine.VisibleIff | crates/justdrop-engine/src/engine.rs:106-170 | In every run a device is visible iff a sighting showed it and neither sighting nor removal followed |
| Engine.BlockedDeviceVisibleIff | crates/justdrop-engine/src/engine.rs:106-216 | In every run the device of a blocked fingerprint is visible iff its last sighting was without that fingerprint and shows it |
| Engine.BlockedResurfaces | crates/justdrop-engine/src/engine.rs:108-136 | For every device, blocking it hides it and the next Bluetooth sighting lists it again |
| Engine.ShownTrustIsStoredIff | crates/justdrop-engine/src/engine.rs:108-216 | In every run an entry shows the stored level iff, since its last sighting with a fingerprint, the last level set and the last level brought without fingerprint agree |
| Engine.SettingTrustDoesNotShow | crates/justdrop-engine/src/engine.rs:184-216 | For every fingerprint, setting a level does not reach the entry that shows it |
| Engine.BleSightingHidesTrust | crates/justdrop-engine/src/engine.rs:124-136 | For every device and every fingerprint filed under it a Bluetooth sighting makes a favorite look unknown |
| Nonce.NoncesDistinctIff | crates/justdrop-security/src/crypto.rs:178-184 | Nonces under one key are pairwise distinct iff at most 2^64 messages were encrypted |
| Nonce.SessionCipher.NextNonce | crates/justdrop-security/src/crypto.rs:178-184 | The counter's nonce is spent and the counter moves on |
| Nonce.SessionCipher.Encrypt | crates/justdrop-security/src/crypto.rs:149-158 | A nonce is spent by every encryption, failed ones included |
| Nonce.LittleEndianInjective | crates/justdrop-security/src/crypto.rs:178-184 | The counter encoding is one-to-one |
| Nonce.NonceDigits | crates/justdrop-security/src/crypto.rs:178-184 | Byte i of a nonce is the counter's i-th base-256 digit below 8 and zero behind |
| Nonce.DirectionsCross | crates/justdrop-security/src/crypto.rs:93-118 | Each side encrypts with the key of its own label and decrypts with the other's, and no key and nonce is shared between directions |

## Left out

- Noise, X25519, ChaCha20-Poly1305, HKDF and the hash functions: abstract functions; encryption is taken to succeed in
  the transport and in undisturbed sessions, and the message limit of the cipher library is not modelled.
- Decoding by bincode, postcard, serde and JSON: messages and records are datatypes; `Encoding` gives messages as bytes,
  with the bytes of the request and of digests as parameters. A torn record is one that loads as none.
- Sockets, QUIC, TLS, mDNS, `sendfile`, connect retries, directories, disk-full and other I/O errors.
- SQLite: a map from fingerprint to trust level, without names and platforms.
- Speed, ETA, percentages, progress and transfer events, logging, configuration files, MIME guessing, `hash_file`.
- Lock interleavings inside the engine: each public method is one step. Its transfer sessions only hold placeholders.
- Source files that change or shrink during a transfer: `Chunker.FileChunker.ReadChunk` covers the read, the session does not.
- A cancel sent by the sender: `send_files` never sends one, but the receiver handles it, so the model lets a sender do it.
- The `Option` around each writer of the receive loop: it is emptied only on the path that ends the loop.
- `TrustLevel::transition_to`, BLE payloads, compression, the FFI layers and all Swift and Kotlin code.
