/** Messages as bytes: the fixed-width encoding behind the message sizes, and what the transport makes of it. */
module Encoding {
  import opened Types
  import opened Protocol
  import Nonce
  import Transport

  // ----- Text -----

  function Utf8Char(c: char): Bytes {
    var code := c as int;
    if code < 0x80 then [code]
    else if code < 0x800 then [0xC0 + code / 0x40, 0x80 + code % 0x40]
    else if code < 0x1_0000 then [0xE0 + code / 0x1000, 0x80 + code / 0x40 % 0x40, 0x80 + code % 0x40]
    else [0xF0 + code / 0x4_0000, 0x80 + code / 0x1000 % 0x40, 0x80 + code / 0x40 % 0x40, 0x80 + code % 0x40]
  }

  function Utf8(s: string): Bytes {
    if s == "" then [] else Utf8Char(s[0]) + Utf8(s[1..])
  }

  /** The six low bits of the bytes behind the first one, in front of the first one's own bits. */
  function Trailing(b: seq<Byte>): int {
    if b == [] then 0 else var low: int := b[|b| - 1]; 0x40 * Trailing(b[..|b| - 1]) + low % 0x40
  }

  lemma TrailingOf(x: Byte, y: Byte, z: Byte)
    ensures var a: int, b: int, c: int := x, y, z;
            && Trailing([x]) == a % 0x40
            && Trailing([x, y]) == 0x40 * (a % 0x40) + b % 0x40
            && Trailing([x, y, z]) == 0x40 * (0x40 * (a % 0x40) + b % 0x40) + c % 0x40
  {
    assert Trailing([]) == 0;
    assert [x][..0] == [] && [x, y][..1] == [x] && [x, y, z][..2] == [x, y];
  }

  lemma SixBitGroups(code: nat)
    ensures code == 0x40 * (code / 0x40) + code % 0x40
    ensures code / 0x40 == 0x40 * (code / 0x1000) + code / 0x40 % 0x40
    ensures code / 0x1000 == 0x40 * (code / 0x4_0000) + code / 0x1000 % 0x40
  {
  }

  /** A character is read back from its bytes: the first one tells how many there are. */
  lemma Utf8CharReads(c: char)
    ensures var b := Utf8Char(c);
            var first: int := b[0];
            && (|b| == 1 <==> first < 0x80) && (|b| == 2 <==> 0xC0 <= first < 0xE0)
            && (|b| == 3 <==> 0xE0 <= first < 0xF0) && (|b| == 4 <==> first >= 0xF0)
            && (|b| == 1 ==> first == c as int)
            && (|b| == 2 ==> 0x40 * (first - 0xC0) + Trailing(b[1..]) == c as int)
            && (|b| == 3 ==> 0x1000 * (first - 0xE0) + Trailing(b[1..]) == c as int)
            && (|b| == 4 ==> 0x4_0000 * (first - 0xF0) + Trailing(b[1..]) == c as int)
  {
    var b, code := Utf8Char(c), c as int;
    hide Trailing;
    SixBitGroups(code);
    if |b| == 2 {
      assert b[1..] == [b[1]];
      TrailingOf(b[1], 0, 0);
    } else if |b| == 3 {
      assert b[1..] == [b[1], b[2]];
      TrailingOf(b[1], b[2], 0);
    } else if |b| == 4 {
      assert b[1..] == [b[1], b[2], b[3]];
      TrailingOf(b[1], b[2], b[3]);
    }
  }

  lemma {:induction false} Utf8Size(s: string)
    ensures |Utf8(s)| == Utf8Length(s)
  {
    if s != "" {
      Utf8Size(s[1..]);
    }
  }

  // ----- Messages -----

  /** The 32 bytes of a digest. */
  type Hash = b: Bytes | |b| == 32 witness seq(32, _ => 0)

  /** Little-endian numbers of four or eight bytes, as variant tags, indices, counts and lengths are written. */
  function Number(n: nat, width: nat): (b: Bytes)
    ensures |b| == width
  {
    Nonce.LittleEndian(n, width)
  }

  function Sized(b: Bytes): Bytes {
    Number(|b|, 8) + b
  }

  /** What the serializer makes of a message; the bytes of the request, whose manifest holds more than is modelled, and
      of digests are given. */
  function Encoded(m: Message, request: Bytes, chunkHash: Digest<Bytes> -> Hash, manifestHash: Digest<Manifest> -> Hash,
                   counters: (nat, nat)): Bytes
  {
    match m
    case TransferRequest(_) => request
    case TransferResponse(Accept) => Number(1, 4) + Number(0, 4)
    case TransferResponse(Reject(reason)) => Number(1, 4) + Number(1, 4) + Sized(Utf8(reason))
    case TransferResponse(ResumeAt(bitmap)) =>
      Number(1, 4) + Number(2, 4) + Sized(seq(|bitmap|, i requires 0 <= i < |bitmap| => bitmap[i] as int))
    case ChunkData(id, data) => Number(2, 4) + Number(id.file, 4) + Number(id.chunk, 8) + Sized(data)
    case ChunkAck(id, digest) => Number(3, 4) + Number(id.file, 4) + Number(id.chunk, 8) + chunkHash(digest)
    case TransferComplete(digest) => Number(4, 4) + manifestHash(digest)
    case TransferVerified(ok) =>
      Number(5, 4) + (if ok then [1, 0] else [0, 1] + Sized(Utf8(INCOMPLETE)))
    case Progress => Number(6, 4) + Number(counters.0, 8) + Number(counters.1, 8)
    case Cancel(reason) => Number(7, 4) + Sized(Utf8(reason))
    case Ping => Number(8, 4)
    case Pong => Number(9, 4)
  }

  /** The sizes that decide whether a message is heard are those of its encoding. */
  lemma EncodedSize(cfg: Config, m: Message, request: Bytes, chunkHash: Digest<Bytes> -> Hash,
                    manifestHash: Digest<Manifest> -> Hash, counters: (nat, nat))
    requires |request| == cfg.requestSize
    ensures |Encoded(m, request, chunkHash, manifestHash, counters)| == PlainSize(cfg, m)
  {
    hide Utf8, Utf8Length, Nonce.LittleEndian;
    match m {
      case TransferResponse(Reject(reason)) => Utf8Size(reason);
      case Cancel(reason) => Utf8Size(reason);
      case TransferVerified(ok) => Utf8Size(INCOMPLETE);
      case _ =>
    }
  }

  /** So a message of the protocol is heard if and only if the transport delivers its encoding, and then as it was
      sent. */
  lemma HeardIsReceived(cfg: Config, m: Message, request: Bytes, chunkHash: Digest<Bytes> -> Hash,
                        manifestHash: Digest<Manifest> -> Hash, counters: (nat, nat),
                        c: Transport.Cipher, n: nat, rest: Bytes)
    requires |request| == cfg.requestSize && Transport.Sound(c) && Transport.RejectsTruncated(c)
    requires PlainSize(cfg, m) + TAG_LENGTH < U64_LIMIT
    ensures var plain := Encoded(m, request, chunkHash, manifestHash, counters);
            var outcome := Transport.ReceiveOne(c, n, Transport.Frame(c.encrypt(n, plain)) + rest).0;
            && (Heard(cfg, Msg(m)) == Msg(m) <==> outcome.Got?)
            && (outcome.Got? ==> outcome == Transport.Got(plain))
            && (Heard(cfg, Msg(m)) != Msg(m) ==> Heard(cfg, Msg(m)) == Reset)
  {
    var plain := Encoded(m, request, chunkHash, manifestHash, counters);
    EncodedSize(cfg, m, request, chunkHash, manifestHash, counters);
    hide Encoded, PlainSize, Transport.ReceiveOne, Transport.Frame, Transport.Sound, Transport.RejectsTruncated;
    Transport.ReceivedIffFits(c, n, plain, rest);
  }
}
