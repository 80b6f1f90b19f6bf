/** Nonces and directional keys of the session ciphers. */
module Nonce {
  import opened Types

  const NONCE_LENGTH: nat := 12

  type Key = seq<Byte>

  /** Little-endian bytes of a number, `width` of them. */
  function LittleEndian(n: nat, width: nat): (b: seq<Byte>)
    ensures |b| == width
  {
    if width == 0 then [] else [n % 256] + LittleEndian(n / 256, width - 1)
  }

  function Power256(width: nat): nat {
    if width == 0 then 1 else 256 * Power256(width - 1)
  }

  /** The encoding is one-to-one on numbers that fit. */
  lemma {:induction false} LittleEndianInjective(a: nat, b: nat, width: nat)
    requires a < Power256(width) && b < Power256(width)
    requires LittleEndian(a, width) == LittleEndian(b, width)
    ensures a == b
    decreases width
  {
    if width > 0 {
      assert LittleEndian(a, width)[0] == a % 256 && LittleEndian(b, width)[0] == b % 256;
      assert LittleEndian(a, width)[1..] == LittleEndian(a / 256, width - 1);
      assert LittleEndian(b, width)[1..] == LittleEndian(b / 256, width - 1);
      LittleEndianInjective(a / 256, b / 256, width - 1);
    }
  }

  lemma EightBytes()
    ensures Power256(8) == U64_LIMIT
  {
    assert Power256(0) == 1;
    assert Power256(1) == 0x100;
    assert Power256(2) == 0x1_0000;
    assert Power256(4) == 0x1_0000_0000 by { assert Power256(3) == 0x100_0000; }
    assert Power256(6) == 0x1_0000_0000_0000 by { assert Power256(5) == 0x100_0000_0000; }
    assert Power256(7) == 0x100_0000_0000_0000;
  }

  /** The counter in the first eight bytes, zeros behind. */
  function NonceOf(counter: nat): (nonce: seq<Byte>)
    ensures |nonce| == NONCE_LENGTH
  {
    LittleEndian(counter, 8) + [0, 0, 0, 0]
  }

  lemma {:induction false} LittleEndianDigit(n: nat, width: nat, i: nat)
    requires i < width
    ensures LittleEndian(n, width)[i] == Digit256(n, i)
    decreases width
  {
    if i > 0 {
      LittleEndianDigit(n / 256, width - 1, i - 1);
    }
  }

  /** The `i`-th digit of a number in base 256. */
  function Digit256(n: nat, i: nat): Byte
    decreases i
  {
    if i == 0 then n % 256 else Digit256(n / 256, i - 1)
  }

  /** The lowest eight digits of the counter, least significant first, then four zeros. */
  lemma NonceDigits(counter: nat, i: nat)
    requires i < NONCE_LENGTH
    ensures NonceOf(counter)[i] == if i < 8 then Digit256(counter, i) else 0
  {
    if i < 8 { LittleEndianDigit(counter, 8, i); }
  }

  lemma NonceInjective(a: nat, b: nat)
    requires a < U64_LIMIT && b < U64_LIMIT
    ensures NonceOf(a) == NonceOf(b) <==> a == b
  {
    EightBytes();
    if NonceOf(a) == NonceOf(b) {
      assert LittleEndian(a, 8) == NonceOf(a)[..8] && LittleEndian(b, 8) == NonceOf(b)[..8];
      LittleEndianInjective(a, b, 8);
    }
  }

  /** Nonces of the first `n` encryptions of a fresh cipher; the 64-bit counter wraps around (a build with
      overflow checks panics there instead). */
  function NoncesUsed(n: nat): (nonces: seq<seq<Byte>>)
    ensures |nonces| == n
  {
    seq(n, i requires 0 <= i => NonceOf(i % U64_LIMIT))
  }

  predicate AllDistinct(nonces: seq<seq<Byte>>) {
    forall i, j | 0 <= i < j < |nonces| :: nonces[i] != nonces[j]
  }

  /** Nonce uniqueness over a whole run, with its exact limit: no nonce repeats under one key if and only
      if no more than 2^64 messages are encrypted. */
  lemma NoncesDistinctIff(n: nat)
    ensures AllDistinct(NoncesUsed(n)) <==> n <= U64_LIMIT
  {
    var used := NoncesUsed(n);
    if n <= U64_LIMIT {
      forall i, j | 0 <= i < j < n ensures used[i] != used[j] {
        assert i % U64_LIMIT == i && j % U64_LIMIT == j;
        NonceInjective(i, j);
      }
    } else {
      assert U64_LIMIT % U64_LIMIT == 0 && 0 % U64_LIMIT == 0;
      assert used[0] == used[U64_LIMIT];
    }
  }

  lemma OneMoreNonce(n: nat, counter: nat)
    requires counter == n % U64_LIMIT
    ensures NoncesUsed(n + 1) == NoncesUsed(n) + [NonceOf(counter)]
    ensures (counter + 1) % U64_LIMIT == (n + 1) % U64_LIMIT
  {
    hide NonceOf;
    assert n == U64_LIMIT * (n / U64_LIMIT) + counter;
  }

  /** A sealing function of the cipher suite: key, nonce and plaintext to ciphertext, or failure. */
  type Seal = (Key, seq<Byte>, Bytes) -> Option<Bytes>

  class SessionCipher {
    const key: Key
    const seal: Seal
    var counter: nat
    ghost var used: seq<seq<Byte>>

    ghost predicate Valid()
      reads this
    {
      used == NoncesUsed(|used|) && counter == |used| % U64_LIMIT
    }

    constructor (key: Key, seal: Seal)
      ensures Valid() && used == [] && this.key == key && this.seal == seal
    {
      this.key, this.seal, counter, used := key, seal, 0, [];
    }

    method NextNonce() returns (nonce: seq<Byte>)
      requires Valid()
      modifies this
      ensures Valid() && used == old(used) + [nonce] && nonce == NonceOf(old(counter))
    {
      hide NonceOf, NoncesUsed;
      OneMoreNonce(|used|, counter);
      nonce := NonceOf(counter);
      counter := (counter + 1) % U64_LIMIT;
      used := used + [nonce];
    }

    /** A nonce is spent even when sealing fails. */
    method Encrypt(plaintext: Bytes) returns (r: Result<(seq<Byte>, Bytes), ()>)
      requires Valid()
      modifies this
      ensures Valid() && used == old(used) + [NonceOf(old(counter))]
      ensures var sealed := seal(key, NonceOf(old(counter)), plaintext);
              r == if sealed.Some? then Ok((NonceOf(old(counter)), sealed.value)) else Err(())
    {
      var nonce := NextNonce();
      var sealed := seal(key, nonce, plaintext);
      r := if sealed.Some? then Ok((nonce, sealed.value)) else Err(());
    }
  }

  // ----- Directional keys -----

  datatype SessionKeys = SessionKeys(encryptKey: Key, decryptKey: Key)

  /** Key derivation as two functions of the shared secret, one per label. */
  function Derive(initiatorKey: Bytes -> Key, responderKey: Bytes -> Key, secret: Bytes, isInitiator: bool)
    : SessionKeys
  {
    if isInitiator then SessionKeys(initiatorKey(secret), responderKey(secret))
    else SessionKeys(responderKey(secret), initiatorKey(secret))
  }

  /** Both sides of one exchange fit together: each encrypts with the key of its own label and decrypts with the
      key the other encrypts with; and if the two labels give different keys then the directions never share one,
      so equal counters on the two sides never mean an equal key and nonce. */
  lemma DirectionsCross(initiatorKey: Bytes -> Key, responderKey: Bytes -> Key, secret: Bytes, i: nat, j: nat)
    ensures var a := Derive(initiatorKey, responderKey, secret, true);
            var b := Derive(initiatorKey, responderKey, secret, false);
            && a.encryptKey == initiatorKey(secret) && b.encryptKey == responderKey(secret)
            && a.encryptKey == b.decryptKey && b.encryptKey == a.decryptKey
            && (initiatorKey(secret) != responderKey(secret) ==>
                  (a.encryptKey, NonceOf(i)) != (b.encryptKey, NonceOf(j)))
  {
  }
}
