/** Shared vocabulary of the transfer model: bytes, manifests, chunk identifiers, wire messages,
    and the chunk arithmetic of the core crate. */
module Types {

  type Byte = x: int | 0 <= x < 256
  type Bytes = seq<Byte>

  type U32 = x: int | 0 <= x < 0x1_0000_0000

  /** A 32-bit chunk size. Zero is left out: every division by it panics, and a sender's configuration
      is validated to at least 4096. */
  type ChunkSize = x: int | 0 < x < 0x1_0000_0000 witness 1

  const U32_LIMIT: nat := 0x1_0000_0000
  const U64_LIMIT: nat := 0x1_0000_0000_0000_0000

  const KIB: nat := 1024
  const MIB: nat := 1024 * KIB
  const GIB: nat := 1024 * MIB

  /** Largest frame body a peer accepts. */
  const MAX_MESSAGE_SIZE: nat := 16 * MIB

  /** Bytes that encryption adds to a message. */
  const TAG_LENGTH: nat := 16

  /** A message of this length is accepted by the peer. */
  predicate FitsFrame(length: nat) {
    length + TAG_LENGTH <= MAX_MESSAGE_SIZE
  }

  /** Bytes of a string as it is sent. */
  function Utf8Length(s: string): (n: nat)
    ensures |s| <= n <= 4 * |s|
  {
    if s == "" then 0
    else
      var code := s[0] as int;
      (if code < 0x80 then 1 else if code < 0x800 then 2 else if code < 0x1_0000 then 3 else 4) + Utf8Length(s[1..])
  }

  /** Above this size the sender scales its chunk size. */
  const LARGE_FILE_THRESHOLD: nat := GIB

  /** Upper bound of the scaled chunk size. */
  const SCALED_CHUNK_CAP: nat := 4 * MIB

  datatype Option<+T> = None | Some(value: T)

  datatype Result<+T, +E> = Ok(value: T) | Err(error: E)

  type TransferId = nat

  /** SHA-256 taken as an ideal digest: a digest stands for the value it was computed from. The
      transfer code only compares digests, and a mismatch only logs a warning. */
  datatype Digest<T> = Sha256(of: T)

  /** A file in the download directory, split the way the path library splits a file name.
      An empty `ext` means that the name has no extension. */
  datatype Path = Path(stem: string, ext: string)

  datatype FileEntry = FileEntry(index: U32, path: Path, size: nat)

  datatype Manifest = Manifest(id: TransferId, files: seq<FileEntry>, totalSize: nat, chunkSize: ChunkSize)

  datatype ChunkId = ChunkId(file: nat, chunk: nat)

  datatype Response =
    | Accept
    | Reject(reason: string)
    | ResumeAt(received: seq<bv8>)

  datatype Message =
    | TransferRequest(manifest: Manifest)
    | TransferResponse(response: Response)
    | ChunkData(id: ChunkId, data: Bytes)
    | ChunkAck(ackId: ChunkId, sha256: Digest<Bytes>)
    | TransferComplete(manifestHash: Digest<Manifest>)
    | TransferVerified(ok: bool)
    | Progress
    | Cancel(cancelReason: string)
    | Ping
    | Pong

  /** What a receive call of the codec reports: a message, a clean close, or a broken connection. */
  datatype Incoming =
    | Msg(msg: Message)
    | Closed
    | Reset

  function Min(a: int, b: int): int {
    if a <= b then a else b
  }

  /** Number of chunks of a file; an empty file still gets one chunk. */
  function ChunkCount(size: nat, chunkSize: nat): nat
    requires chunkSize > 0
  {
    if size == 0 then 1 else (size + chunkSize - 1) / chunkSize
  }

  /** The sender's chunk size: doubled (saturating at the 32-bit limit) and capped for large files. */
  function EffectiveChunkSize(size: nat, base: ChunkSize): ChunkSize {
    if size > LARGE_FILE_THRESHOLD then
      Min(Min(2 * base, U32_LIMIT - 1), SCALED_CHUNK_CAP)
    else
      base
  }

  /** The bytes of chunk `c`: what is left of the file at `c * chunkSize`, at most one chunk. */
  function ChunkOf(src: Bytes, chunkSize: nat, c: nat): Bytes {
    if c * chunkSize >= |src| then []
    else src[c * chunkSize .. Min(|src|, c * chunkSize + chunkSize)]
  }
}
