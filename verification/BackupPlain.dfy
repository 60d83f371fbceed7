/**
  Primitives that meet the laws: nothing is hidden, the tag is sixteen zeros, and every text is its
  character codes. They show that what is assumed of the real ones can be met.
 */
module BackupPlain {
  import opened Wrappers
  import opened Bytes
  import opened Chunking
  import opened BackupFormat
  import opened BackupEncrypt

  function Zeros(n: nat): (r: seq<byte>)
    ensures |r| == n
  {
    seq(n, _ => 0)
  }

  function ToText(b: seq<byte>): (s: string)
    ensures |s| == |b|
  {
    seq(|b|, i requires 0 <= i < |b| => b[i] as char)
  }

  function ToBytes(s: string): (b: seq<byte>)
    ensures |b| == |s|
  {
    seq(|s|, i requires 0 <= i < |s| => s[i] as int % 256)
  }

  predicate OneByteEach(s: string) {
    forall i | 0 <= i < |s| :: s[i] as int < 256
  }

  lemma TextOfBytes(b: seq<byte>)
    ensures ToBytes(ToText(b)) == b && OneByteEach(ToText(b))
  {
  }

  lemma BytesOfText(s: string)
    requires OneByteEach(s)
    ensures ToText(ToBytes(s)) == s
  {
  }

  /** The first sixteen bytes of the key, padded with zeros. */
  function Fingerprint(key: seq<byte>): string {
    ToText((key + Zeros(FINGERPRINT_LENGTH))[..FINGERPRINT_LENGTH])
  }

  /** Length of the id, id, fingerprint, nonce. */
  function EncodeHeader(h: Header): seq<byte> {
    if h.keyId.None? || |h.keyId.value| > 64 || h.artifactNonce.None? then []
    else [|h.keyId.value|] + ToBytes(h.keyId.value) + ToBytes(h.keyFingerprint) + ToBytes(h.artifactNonce.value)
  }

  function DecodeHeader(b: seq<byte>): Option<Header> {
    if |b| == 0 || |b| < 1 + b[0] + FINGERPRINT_LENGTH then None
    else
      var n: nat := 1 + b[0] as int;
      Some(Header(
        3, ALGORITHM, "keyring", Some(ToText(b[1..n])), ToText(b[n..n + FINGERPRINT_LENGTH]), CHUNK_SIZE,
        Some(ToText(b[n + FINGERPRINT_LENGTH..]))))
  }

  function Seal(key: seq<byte>, iv: seq<byte>, aad: seq<byte>, plaintext: seq<byte>): Sealed {
    Sealed(plaintext, Zeros(TAG_BYTES))
  }

  function Open(key: seq<byte>, iv: seq<byte>, aad: seq<byte>, s: Sealed): Option<seq<byte>> {
    if s.tag == Zeros(TAG_BYTES) then Some(s.ciphertext) else None
  }

  const PLAIN := Primitives(Seal, Open, Fingerprint, EncodeHeader, DecodeHeader, ToText, ToBytes)

  lemma DecodesItsHeader(k: EncryptionKey, n: seq<byte>)
    requires PLAIN.KeyIsMade(k) && |n| == ARTIFACT_NONCE_BYTES
    ensures PLAIN.HeaderIsReadable(k, n)
  {
    var b := EncodeHeader(HeaderV3(PLAIN, k, n));
    var end := 1 + |k.id|;
    assert b[0] == |k.id|;
    assert OneByteEach(k.id) by {
      assert forall i | 0 <= i < |k.id| :: KeyIdCharacter(k.id[i]);
    }
    BytesOfText(k.id);
    TextOfBytes((k.key + Zeros(FINGERPRINT_LENGTH))[..FINGERPRINT_LENGTH]);
    BytesOfText(k.fingerprint);
    TextOfBytes(n);
    assert b[1..end] == ToBytes(k.id);
    assert b[end..end + FINGERPRINT_LENGTH] == ToBytes(k.fingerprint);
    assert b[end + FINGERPRINT_LENGTH..] == n;
  }

  /** The laws can be met, and by primitives that tell keys apart. */
  lemma PlainIsLawful()
    ensures PLAIN.Lawful()
  {
    forall n: seq<byte> | |n| == ARTIFACT_NONCE_BYTES ensures PLAIN.decodeNonce(PLAIN.encodeNonce(n)) == n {
      TextOfBytes(n);
    }
    forall k: EncryptionKey, n: seq<byte> | PLAIN.KeyIsMade(k) && |n| == ARTIFACT_NONCE_BYTES
      ensures PLAIN.HeaderIsReadable(k, n)
    {
      DecodesItsHeader(k, n);
    }
  }

  /** Every key of the parser and every nonce makes a sealer, and a ring that still has the key. */
  lemma EveryMadeKeySeals(id: string, key: seq<byte>, nonce: seq<byte>)
    requires KeyIdIsValid(id) && |nonce| == ARTIFACT_NONCE_BYTES
    ensures var k := EncryptionKey(id, key, Fingerprint(key));
            && Sealer(PLAIN, k, nonce, _ => Zeros(IV_BYTES)).Valid()
            && ValidKeyring(PLAIN, Keyring(k, map[id := k], map[k.fingerprint := k]))
  {
    PlainIsLawful();
  }
}
