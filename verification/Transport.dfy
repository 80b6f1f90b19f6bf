/** Length-prefixed encrypted framing over a byte stream that arrives in arbitrary pieces. */
module Transport {
  import opened Types

  const FRAME_HEADER_SIZE: nat := 4

  // ----- Length prefix -----

  /** The length cast to 32 bits, big endian. */
  function BigEndian32(n: nat): (b: Bytes)
    ensures |b| == 4
  {
    var low := n % U32_LIMIT;
    var mid := low / 256;
    var high := mid / 256;
    [high / 256, high % 256, mid % 256, low % 256]
  }

  function FromBigEndian32(b: Bytes): (n: nat)
    requires |b| >= 4
    ensures n < U32_LIMIT
  {
    var b0: int, b1: int, b2: int, b3: int := b[0], b[1], b[2], b[3];
    256 * (256 * (256 * b0 + b1) + b2) + b3
  }

  lemma LengthRoundTrip(n: nat)
    ensures FromBigEndian32(BigEndian32(n)) == n % U32_LIMIT
  {
  }

  /** The most significant byte comes first; what exceeds 32 bits is cut off. */
  lemma PrefixDigits(n: nat)
    ensures var b := BigEndian32(n);
            var b0: int, b1: int, b2: int, b3: int := b[0], b[1], b[2], b[3];
            0x100_0000 * b0 + 0x1_0000 * b1 + 0x100 * b2 + b3 == n % U32_LIMIT
  {
  }

  /** A length prefix and the body, as both the raw and the encrypted path write it. */
  function Frame(body: Bytes): Bytes {
    BigEndian32(|body|) + body
  }

  // ----- Cipher -----

  /** The two directions of an established session: the `n`-th message of a direction is encrypted and
      decrypted under its number. */
  datatype Cipher = Cipher(encrypt: (nat, Bytes) -> Bytes, decrypt: (nat, Bytes) -> Option<Bytes>)

  /** Decryption inverts encryption in order, and encryption adds the tag. */
  ghost predicate Sound(c: Cipher) {
    forall n: nat, p: Bytes ::
      c.decrypt(n, c.encrypt(n, p)) == Some(p) && |c.encrypt(n, p)| == |p| + TAG_LENGTH
  }

  // ----- Receiving, as a function of the bytes -----

  datatype ReceiveOutcome =
    | Got(plaintext: Bytes)
    | CleanClose
    | ConnectionReset
    | TooLarge(length: nat)
    | BadCiphertext

  function Decrypted(c: Cipher, n: nat, ciphertext: Bytes, rest: Bytes): (ReceiveOutcome, Bytes, nat) {
    match c.decrypt(n, ciphertext)
    case Some(p) => (Got(p), rest, n + 1)
    case None => (BadCiphertext, rest, n)
  }

  /** What one receive call makes of all bytes that will still arrive: its outcome, the bytes it leaves,
      and the next message number. */
  function ReceiveOne(c: Cipher, n: nat, data: Bytes): (r: (ReceiveOutcome, Bytes, nat))
    ensures r.0.Got? ==> |r.1| < |data|
  {
    if data == [] then (CleanClose, data, n)
    else if |data| < FRAME_HEADER_SIZE then (ConnectionReset, data, n)
    else
      var length := FromBigEndian32(data);
      if length > MAX_MESSAGE_SIZE then (TooLarge(length), data, n)
      else if |data| < FRAME_HEADER_SIZE + length then (ConnectionReset, data, n)
      else
        Decrypted(c, n, data[FRAME_HEADER_SIZE..FRAME_HEADER_SIZE + length], data[FRAME_HEADER_SIZE + length..])
  }

  /** Receive calls one after the other up to the first that does not return a message. */
  function ReceiveAll(c: Cipher, n: nat, data: Bytes): seq<ReceiveOutcome>
    decreases |data|
  {
    var (outcome, rest, next) := ReceiveOne(c, n, data);
    if outcome.Got? then [outcome] + ReceiveAll(c, next, rest) else [outcome]
  }

  lemma ReceiveShrinks(c: Cipher, n: nat, data: Bytes)
    ensures ReceiveOne(c, n, data).0.Got? ==> |ReceiveOne(c, n, data).1| < |data|
  {
  }

  /** What a sender puts on the stream for messages numbered from `n`. */
  function Wire(c: Cipher, n: nat, messages: seq<Bytes>): Bytes
    decreases |messages|
  {
    if messages == [] then [] else Frame(c.encrypt(n, messages[0])) + Wire(c, n + 1, messages[1..])
  }

  function AllGot(messages: seq<Bytes>): seq<ReceiveOutcome> {
    seq(|messages|, i requires 0 <= i < |messages| => Got(messages[i]))
  }

  predicate Fits(p: Bytes) {
    FitsFrame(|p|)
  }

  /** A ciphertext that was cut off does not decrypt. Messages are bounded by the 64-bit address space; without
      any bound there would not be enough ciphertexts. */
  ghost predicate RejectsTruncated(c: Cipher) {
    forall n: nat, p: Bytes, l: nat | Addressable(p) && l < |c.encrypt(n, p)| ::
      c.decrypt(n, c.encrypt(n, p)[..l]).None?
  }

  predicate Addressable(p: Bytes) {
    |p| + TAG_LENGTH < U64_LIMIT
  }

  /** A tag that only tells the length. */
  function LengthTag(n: nat): (tag: Bytes)
    ensures |tag| == TAG_LENGTH
  {
    BigEndian32(n) + BigEndian32(n / U32_LIMIT) + seq(8, _ => 0)
  }

  lemma TagParts(n: nat)
    ensures LengthTag(n)[..4] == BigEndian32(n) && LengthTag(n)[4..8] == BigEndian32(n / U32_LIMIT)
  {
    hide BigEndian32;
  }

  lemma LengthTagTells(a: nat, b: nat)
    requires a < U64_LIMIT && b < U64_LIMIT && LengthTag(a) == LengthTag(b)
    ensures a == b
  {
    hide LengthTag, BigEndian32, FromBigEndian32;
    TagParts(a);
    TagParts(b);
    LengthRoundTrip(a);
    LengthRoundTrip(b);
    LengthRoundTrip(a / U32_LIMIT);
    LengthRoundTrip(b / U32_LIMIT);
  }

  function Tagged(n: nat, p: Bytes): Bytes {
    LengthTag(|p|) + p
  }

  function Untagged(n: nat, c: Bytes): Option<Bytes> {
    if |c| >= TAG_LENGTH && c[..TAG_LENGTH] == LengthTag(|c| - TAG_LENGTH) then Some(c[TAG_LENGTH..]) else None
  }

  lemma CutIsNotUntagged(n: nat, p: Bytes, l: nat)
    requires Addressable(p) && l < |Tagged(n, p)|
    ensures Untagged(n, Tagged(n, p)[..l]).None?
  {
    hide LengthTag;
    var cut := Tagged(n, p)[..l];
    if l >= TAG_LENGTH {
      assert cut[..TAG_LENGTH] == LengthTag(|p|);
      if cut[..TAG_LENGTH] == LengthTag(l - TAG_LENGTH) {
        LengthTagTells(|p|, l - TAG_LENGTH);
      }
    }
  }

  /** Ciphers as assumed exist. */
  lemma SuchCiphersExist() returns (c: Cipher)
    ensures Sound(c) && RejectsTruncated(c)
  {
    hide LengthTag;
    c := Cipher(Tagged, Untagged);
    forall n: nat, p: Bytes ensures c.decrypt(n, c.encrypt(n, p)) == Some(p) && |c.encrypt(n, p)| == |p| + TAG_LENGTH {
      assert Tagged(n, p)[..TAG_LENGTH] == LengthTag(|p|) && Tagged(n, p)[TAG_LENGTH..] == p;
    }
    forall n: nat, p: Bytes, l: nat | Addressable(p) && l < |c.encrypt(n, p)|
      ensures c.decrypt(n, c.encrypt(n, p)[..l]).None?
    {
      CutIsNotUntagged(n, p, l);
    }
  }

  /** What the receiver makes of a frame of any length: it sees the length cut to 32 bits and takes that much
      of the body, or refuses it. */
  lemma FrameReceived(c: Cipher, n: nat, body: Bytes, rest: Bytes)
    ensures var length, data := |body| % U32_LIMIT, Frame(body) + rest;
            length <= |body|
            && ReceiveOne(c, n, data)
               == if length > MAX_MESSAGE_SIZE then (TooLarge(length), data, n)
                  else Decrypted(c, n, body[..length], body[length..] + rest)
  {
    var data, length := Frame(body) + rest, |body| % U32_LIMIT;
    LengthRoundTrip(|body|);
    assert data[..4] == BigEndian32(|body|);
    assert FromBigEndian32(data) == FromBigEndian32(data[..4]);
    assert data[4..4 + length] == body[..length];
    assert data[4 + length..] == body[length..] + rest;
  }

  lemma FittingIsReceived(c: Cipher, n: nat, p: Bytes, rest: Bytes)
    requires Sound(c) && Fits(p)
    ensures ReceiveOne(c, n, Frame(c.encrypt(n, p)) + rest) == (Got(p), rest, n + 1)
  {
    var body := c.encrypt(n, p);
    FrameReceived(c, n, body, rest);
    assert body[..|body|] == body && body[|body|..] + rest == rest;
  }

  /** Exactly which messages get through, of any length there can be: the sender checks nothing, the receiver
      refuses a frame above the maximum, and a frame whose length wraps around below it does not decrypt. */
  lemma ReceivedIffFits(c: Cipher, n: nat, p: Bytes, rest: Bytes)
    requires Sound(c) && RejectsTruncated(c) && Addressable(p)
    ensures var (outcome, left, next) := ReceiveOne(c, n, Frame(c.encrypt(n, p)) + rest);
            && (outcome.Got? <==> Fits(p))
            && (Fits(p) ==> outcome == Got(p) && left == rest && next == n + 1)
            && (!Fits(p) ==>
                  next == n && (outcome == BadCiphertext || outcome == TooLarge((|p| + TAG_LENGTH) % U32_LIMIT)))
  {
    if Fits(p) {
      FittingIsReceived(c, n, p, rest);
    } else {
      FrameReceived(c, n, c.encrypt(n, p), rest);
      assert |c.encrypt(n, p)| == |p| + TAG_LENGTH;
    }
  }

  lemma ReceiveAllStep(c: Cipher, n: nat, p: Bytes, rest: Bytes)
    requires Sound(c) && Fits(p)
    ensures ReceiveAll(c, n, Frame(c.encrypt(n, p)) + rest) == [Got(p)] + ReceiveAll(c, n + 1, rest)
  {
    FittingIsReceived(c, n, p, rest);
  }

  lemma EmptyStreamCloses(c: Cipher, n: nat)
    ensures ReceiveAll(c, n, []) == [CleanClose]
  {
  }

  /** Reassembly: receive calls on what was sent give back exactly the messages, in order, and then report
      a clean close. */
  lemma {:induction false} ReceivesWhatWasSent(c: Cipher, n: nat, messages: seq<Bytes>)
    requires Sound(c) && forall i | 0 <= i < |messages| :: Fits(messages[i])
    ensures ReceiveAll(c, n, Wire(c, n, messages)) == AllGot(messages) + [CleanClose]
    decreases |messages|
  {
    hide ReceiveOne, Frame;
    if messages == [] {
      EmptyStreamCloses(c, n);
      assert AllGot(messages) == [];
    } else {
      ReceivesWhatWasSent(c, n + 1, messages[1..]);
      ReceiveAllStep(c, n, messages[0], Wire(c, n + 1, messages[1..]));
      assert AllGot(messages) == [Got(messages[0])] + AllGot(messages[1..]);
    }
  }

  /** A stream that breaks off inside a frame reports a reset. */
  lemma BrokenFrameResets(c: Cipher, n: nat, p: Bytes, t: nat)
    requires Sound(c) && Fits(p) && 0 < t < |Frame(c.encrypt(n, p))|
    ensures ReceiveAll(c, n, Frame(c.encrypt(n, p))[..t]) == [ConnectionReset]
  {
    var body := c.encrypt(n, p);
    var data := Frame(body)[..t];
    if t >= 4 {
      LengthRoundTrip(|body|);
      assert data[..4] == BigEndian32(|body|);
      assert FromBigEndian32(data) == FromBigEndian32(data[..4]);
    }
  }

  /** Stream position behind the first `k` frames. */
  function Boundary(c: Cipher, n: nat, messages: seq<Bytes>, k: nat): nat
    requires k <= |messages|
    decreases k
  {
    if k == 0 then 0 else |Frame(c.encrypt(n, messages[0]))| + Boundary(c, n + 1, messages[1..], k - 1)
  }

  lemma {:induction false} BoundaryInWire(c: Cipher, n: nat, messages: seq<Bytes>, k: nat)
    requires k <= |messages|
    ensures Boundary(c, n, messages, k) <= |Wire(c, n, messages)|
    decreases k
  {
    if k > 0 {
      BoundaryInWire(c, n + 1, messages[1..], k - 1);
    }
  }

  /** Wherever the stream ends: the messages whose frames are complete are received, then a clean close if
      the end is a frame boundary and a reset if and only if it is inside a frame. */
  lemma {:induction false} CutStream(c: Cipher, n: nat, messages: seq<Bytes>, k: nat, t: nat)
    requires Sound(c) && forall i | 0 <= i < |messages| :: Fits(messages[i])
    requires k < |messages| && t <= |Wire(c, n, messages)|
    requires Boundary(c, n, messages, k) <= t < Boundary(c, n, messages, k + 1)
    ensures ReceiveAll(c, n, Wire(c, n, messages)[..t])
         == AllGot(messages[..k]) + [if t == Boundary(c, n, messages, k) then CleanClose else ConnectionReset]
    decreases k
  {
    hide ReceiveOne, Frame;
    var frame, rest := Frame(c.encrypt(n, messages[0])), Wire(c, n + 1, messages[1..]);
    assert Wire(c, n, messages) == frame + rest;
    if k == 0 {
      assert AllGot(messages[..0]) == [];
      assert Boundary(c, n + 1, messages[1..], 0) == 0;
      assert (frame + rest)[..t] == frame[..t];
      EmptyStreamCloses(c, n);
      if t > 0 {
        BrokenFrameResets(c, n, messages[0], t);
      }
    } else {
      var u := t - |frame|;
      assert (frame + rest)[..t] == frame + rest[..u];
      CutStream(c, n + 1, messages[1..], k - 1, u);
      ReceiveAllStep(c, n, messages[0], rest[..u]);
      assert AllGot(messages[..k]) == [Got(messages[0])] + AllGot(messages[1..][..k - 1]);
    }
  }

  // ----- Handshake frames -----

  datatype RawError = RawEof | RawTooLarge(length: nat)

  /** Reading one unencrypted frame with exact reads: the result and what is left. */
  function RawOne(data: Bytes): (Result<Bytes, RawError>, Bytes) {
    if |data| < 4 then (Err(RawEof), [])
    else
      var length := FromBigEndian32(data);
      if length > MAX_MESSAGE_SIZE then (Err(RawTooLarge(length)), data[4..])
      else if |data| < 4 + length then (Err(RawEof), [])
      else (Ok(data[4..4 + length]), data[4 + length..])
  }

  function RawWire(frames: seq<Bytes>): Bytes {
    if frames == [] then [] else Frame(frames[0]) + RawWire(frames[1..])
  }

  /** What is left after reading `count` raw frames, if all of them were read. */
  function AfterRaw(data: Bytes, count: nat): Option<Bytes> {
    if count == 0 then Some(data)
    else
      var (r, rest) := RawOne(data);
      if r.Ok? then AfterRaw(rest, count - 1) else None
  }

  lemma RawRoundTrip(body: Bytes, rest: Bytes)
    requires |body| <= MAX_MESSAGE_SIZE
    ensures RawOne(Frame(body) + rest) == (Ok(body), rest)
  {
    var data := Frame(body) + rest;
    LengthRoundTrip(|body|);
    assert data[..4] == BigEndian32(|body|);
    assert FromBigEndian32(data) == FromBigEndian32(data[..4]);
    assert data[4..4 + |body|] == body && data[4 + |body|..] == rest;
  }

  /** A raw frame that breaks off is an end of stream, and one that announces more than the maximum is refused with
      only its prefix read. */
  lemma RawErrors(body: Bytes, rest: Bytes, t: nat)
    requires |body| < U32_LIMIT
    ensures |body| <= MAX_MESSAGE_SIZE && t < |Frame(body)| ==> RawOne(Frame(body)[..t]) == (Err(RawEof), [])
    ensures |body| > MAX_MESSAGE_SIZE ==> RawOne(Frame(body) + rest) == (Err(RawTooLarge(|body|)), body + rest)
  {
    LengthRoundTrip(|body|);
    if |body| > MAX_MESSAGE_SIZE {
      var data := Frame(body) + rest;
      assert data[..4] == BigEndian32(|body|) && data[4..] == body + rest;
      assert FromBigEndian32(data) == FromBigEndian32(data[..4]);
    } else if 4 <= t < |Frame(body)| {
      var data := Frame(body)[..t];
      assert data[..4] == BigEndian32(|body|);
      assert FromBigEndian32(data) == FromBigEndian32(data[..4]);
    }
  }

  /** The hand-off: exact reads of the handshake frames leave no byte of the encrypted stream behind and
      take none of it, so the buffered transport that takes over receives exactly the messages. */
  lemma {:induction false} HandoffIsClean(c: Cipher, handshake: seq<Bytes>, messages: seq<Bytes>)
    requires Sound(c) && forall i | 0 <= i < |handshake| :: |handshake[i]| <= MAX_MESSAGE_SIZE
    requires forall i | 0 <= i < |messages| :: Fits(messages[i])
    ensures AfterRaw(RawWire(handshake) + Wire(c, 0, messages), |handshake|) == Some(Wire(c, 0, messages))
    ensures ReceiveAll(c, 0, AfterRaw(RawWire(handshake) + Wire(c, 0, messages), |handshake|).value)
         == AllGot(messages) + [CleanClose]
    decreases |handshake|
  {
    var rest := Wire(c, 0, messages);
    if handshake == [] {
      assert [] + rest == rest;
      ReceivesWhatWasSent(c, 0, messages);
    } else {
      assert RawWire(handshake) + rest == Frame(handshake[0]) + (RawWire(handshake[1..]) + rest);
      RawRoundTrip(handshake[0], RawWire(handshake[1..]) + rest);
      HandoffIsClean(c, handshake[1..], messages);
    }
  }

  // ----- The stream and the transport -----

  function Flat(pieces: seq<Bytes>): Bytes {
    if pieces == [] then [] else pieces[0] + Flat(pieces[1..])
  }

  /** A connection: the pieces in which the peer's bytes will arrive, and what was written so far. */
  class TcpStream {
    var incoming: seq<Bytes>
    var outgoing: Bytes

    ghost predicate Valid()
      reads this
    {
      forall i | 0 <= i < |incoming| :: incoming[i] != []
    }

    constructor (incoming: seq<Bytes>)
      requires forall i | 0 <= i < |incoming| :: incoming[i] != []
      ensures Valid() && this.incoming == incoming && outgoing == []
    {
      this.incoming, outgoing := incoming, [];
    }

    /** Returns the next piece; nothing at the end of the stream. */
    method Read() returns (piece: Bytes)
      requires Valid()
      modifies this
      ensures Valid() && outgoing == old(outgoing)
      ensures piece == [] <==> old(incoming) == []
      ensures piece + Flat(incoming) == Flat(old(incoming))
      ensures |incoming| == if old(incoming) == [] then 0 else |old(incoming)| - 1
    {
      if incoming == [] {
        return [];
      }
      piece, incoming := incoming[0], incoming[1..];
    }

    /** Reads exactly `n` bytes, keeping the surplus of the last piece in the stream. */
    method ReadExact(n: nat) returns (r: Option<Bytes>)
      requires Valid()
      modifies this
      ensures Valid() && outgoing == old(outgoing)
      ensures if |Flat(old(incoming))| >= n
              then r == Some(Flat(old(incoming))[..n]) && Flat(incoming) == Flat(old(incoming))[n..]
              else r == None && incoming == []
    {
      ghost var all := Flat(incoming);
      var got: Bytes := [];
      while |got| < n
        invariant Valid() && outgoing == old(outgoing)
        invariant got + Flat(incoming) == all
        invariant |got| <= n
        decreases |incoming|
      {
        if incoming == [] {
          assert got + [] == got;
          return None;
        }
        var piece := incoming[0];
        var missing := n - |got|;
        if |piece| <= missing {
          incoming, got := incoming[1..], got + piece;
        } else {
          ghost var behind := Flat(incoming[1..]);
          assert got + (piece + behind) == (got + piece[..missing]) + (piece[missing..] + behind);
          incoming, got := [piece[missing..]] + incoming[1..], got + piece[..missing];
          assert Flat(incoming) == piece[missing..] + behind;
          break;
        }
      }
      assert all[..n] == got && all[n..] == Flat(incoming);
      r := Some(got);
    }

    method WriteAll(data: Bytes)
      modifies this
      ensures outgoing == old(outgoing) + data && incoming == old(incoming)
    {
      outgoing := outgoing + data;
    }

    method WriteRawFrame(data: Bytes)
      modifies this
      ensures outgoing == old(outgoing) + Frame(data) && incoming == old(incoming)
    {
      WriteAll(BigEndian32(|data|));
      WriteAll(data);
    }

    method ReadRawFrame() returns (r: Result<Bytes, RawError>)
      requires Valid()
      modifies this
      ensures Valid() && outgoing == old(outgoing)
      ensures (r, Flat(incoming)) == RawOne(Flat(old(incoming)))
    {
      ghost var all := Flat(incoming);
      var header := ReadExact(4);
      if header.None? {
        return Err(RawEof);
      }
      var length := FromBigEndian32(header.value);
      assert length == FromBigEndian32(all);
      if length > MAX_MESSAGE_SIZE {
        return Err(RawTooLarge(length));
      }
      var body := ReadExact(length);
      if body.None? {
        return Err(RawEof);
      }
      assert all[4..][..length] == all[4..4 + length] && all[4..][length..] == all[4 + length..];
      r := Ok(body.value);
    }
  }

  class SecureTransport {
    const stream: TcpStream
    const cipher: Cipher
    var sendCount: nat
    var recvCount: nat
    var readBuf: Bytes

    ghost predicate Valid()
      reads stream
    {
      stream.Valid()
    }

    /** Everything that is still to be received: the carry-over buffer, then the stream. */
    ghost function Pending(): Bytes
      reads this, stream
    {
      readBuf + Flat(stream.incoming)
    }

    constructor (stream: TcpStream, cipher: Cipher)
      requires stream.Valid()
      ensures Valid() && this.stream == stream && this.cipher == cipher
      ensures sendCount == 0 && recvCount == 0 && Pending() == Flat(stream.incoming)
    {
      this.stream, this.cipher := stream, cipher;
      sendCount, recvCount, readBuf := 0, 0, [];
    }

    method Send(plaintext: Bytes)
      requires Valid()
      modifies this, stream
      ensures Valid() && sendCount == old(sendCount) + 1 && recvCount == old(recvCount)
      ensures stream.outgoing == old(stream.outgoing) + Frame(cipher.encrypt(old(sendCount), plaintext))
      ensures Pending() == old(Pending())
    {
      var ciphertext := cipher.encrypt(sendCount, plaintext);
      var frame := BigEndian32(|ciphertext|) + ciphertext;
      stream.WriteAll(frame);
      sendCount := sendCount + 1;
    }

    /** Reads pieces into the buffer until it holds `needed` bytes or the stream ends. */
    method Fill(needed: nat) returns (enough: bool)
      requires Valid()
      modifies this, stream
      ensures Valid() && Pending() == old(Pending())
      ensures sendCount == old(sendCount) && recvCount == old(recvCount) && stream.outgoing == old(stream.outgoing)
      ensures enough <==> |old(Pending())| >= needed
      ensures enough ==> |readBuf| >= needed
      ensures !enough ==> readBuf == old(Pending())
    {
      while |readBuf| < needed
        invariant Valid() && Pending() == old(Pending())
        invariant sendCount == old(sendCount) && recvCount == old(recvCount) && stream.outgoing == old(stream.outgoing)
        decreases |stream.incoming|
      {
        var piece := stream.Read();
        assert readBuf + (piece + Flat(stream.incoming)) == (readBuf + piece) + Flat(stream.incoming);
        readBuf := readBuf + piece;
        if piece == [] {
          assert readBuf + [] == readBuf;
          return false;
        }
      }
      enough := true;
    }

    /** The outcome depends only on the bytes, not on the pieces they arrive in. */
    method Recv() returns (outcome: ReceiveOutcome)
      requires Valid()
      modifies this, stream
      ensures Valid() && sendCount == old(sendCount) && stream.outgoing == old(stream.outgoing)
      ensures (outcome, Pending(), recvCount) == ReceiveOne(cipher, old(recvCount), old(Pending()))
    {
      ghost var data := Pending();
      var enough := Fill(FRAME_HEADER_SIZE);
      if !enough {
        return if readBuf == [] then CleanClose else ConnectionReset;
      }
      var length := FromBigEndian32(readBuf);
      assert length == FromBigEndian32(data);
      if length > MAX_MESSAGE_SIZE {
        return TooLarge(length);
      }
      enough := Fill(FRAME_HEADER_SIZE + length);
      if !enough {
        return ConnectionReset;
      }
      var ciphertext := readBuf[FRAME_HEADER_SIZE..FRAME_HEADER_SIZE + length];
      assert ciphertext == data[FRAME_HEADER_SIZE..FRAME_HEADER_SIZE + length];
      readBuf := readBuf[FRAME_HEADER_SIZE + length..];
      assert Pending() == data[FRAME_HEADER_SIZE + length..];
      match cipher.decrypt(recvCount, ciphertext) {
        case Some(p) =>
          recvCount := recvCount + 1;
          outcome := Got(p);
        case None => outcome := BadCiphertext;
      }
    }

    /** Receives until something other than a message comes. */
    method RecvAll() returns (outcomes: seq<ReceiveOutcome>)
      requires Valid()
      modifies this, stream
      ensures outcomes == ReceiveAll(cipher, old(recvCount), old(Pending()))
    {
      outcomes := [];
      hide ReceiveOne;
      while true
        invariant Valid()
        invariant outcomes + ReceiveAll(cipher, recvCount, Pending())
               == ReceiveAll(cipher, old(recvCount), old(Pending()))
        decreases |Pending()|
      {
        ghost var before := outcomes;
        ghost var later := ReceiveAll(cipher, recvCount, Pending());
        ReceiveShrinks(cipher, recvCount, Pending());
        var outcome := Recv();
        outcomes := outcomes + [outcome];
        if !outcome.Got? {
          return;
        }
        assert later == [outcome] + ReceiveAll(cipher, recvCount, Pending());
        assert before + later == outcomes + ReceiveAll(cipher, recvCount, Pending());
      }
    }
  }

  /** The handshake is read from the raw stream, frame by frame, and the encrypted transport then takes over the
      same stream. */
  method ReceiveAfterHandshake(stream: TcpStream, cipher: Cipher, frames: nat) returns (r: Option<seq<ReceiveOutcome>>)
    requires stream.Valid()
    modifies stream
    ensures var rest := AfterRaw(Flat(old(stream.incoming)), frames);
            r == if rest.Some? then Some(ReceiveAll(cipher, 0, rest.value)) else None
  {
    ghost var all := Flat(stream.incoming);
    for i := 0 to frames
      invariant stream.Valid()
      invariant AfterRaw(Flat(stream.incoming), frames - i) == AfterRaw(all, frames)
    {
      var frame := stream.ReadRawFrame();
      if frame.Err? {
        return None;
      }
    }
    var transport := new SecureTransport(stream, cipher);
    var outcomes := transport.RecvAll();
    r := Some(outcomes);
  }
}
