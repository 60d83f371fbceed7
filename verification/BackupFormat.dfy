/**
  The byte format of encrypted backups: keyring, header and frames.

  The cipher, the hash and the JSON/base64url text codecs are values of `Primitives`; what is
  assumed of them is exactly `Lawful`. The framing is concrete.
 */
module BackupFormat {
  import opened Wrappers
  import opened Bytes
  import opened Chunking

  /** "DMBKENC1" */
  const MAGIC: seq<byte> := [68, 77, 66, 75, 69, 78, 67, 49]
  const MAX_FRAME_SIZE: nat := 16777216
  const IV_BYTES: nat := 12
  const TAG_BYTES: nat := 16
  const ARTIFACT_NONCE_BYTES: nat := 16
  const FINGERPRINT_LENGTH: nat := 16
  /** length, index, flag, iv, tag */
  const FRAME_METADATA_BYTES: nat := 37
  const APP_SECRET_ID := "app_secret"
  const ALGORITHM := "aes-256-gcm-chunked"

  datatype EncryptionKey = EncryptionKey(id: string, key: seq<byte>, fingerprint: string)

  datatype Keyring = Keyring(
    activeKey: EncryptionKey,
    keysById: map<string, EncryptionKey>,
    keysByFingerprint: map<string, EncryptionKey>)

  /** The header fields the reader looks at; `None` is a field that is absent or not a string. */
  datatype Header = Header(
    version: int,
    algorithm: string,
    keySource: string,
    keyId: Option<string>,
    keyFingerprint: string,
    chunkSize: int,
    artifactNonce: Option<string>)

  datatype Sealed = Sealed(ciphertext: seq<byte>, tag: seq<byte>)

  datatype Primitives = Primitives(
    seal: (seq<byte>, seq<byte>, seq<byte>, seq<byte>) -> Sealed,          // key, iv, aad, plaintext
    open: (seq<byte>, seq<byte>, seq<byte>, Sealed) -> Option<seq<byte>>,  // key, iv, aad, sealed
    fingerprint: seq<byte> -> string,
    encodeHeader: Header -> seq<byte>,
    decodeHeader: seq<byte> -> Option<Header>,
    encodeNonce: seq<byte> -> string,
    decodeNonce: string -> seq<byte>)
  {
    /** A key as the keyring's parser makes it: a permitted id, and the fingerprint of its own bytes. */
    predicate KeyIsMade(k: EncryptionKey) {
      KeyIdIsValid(k.id) && k.fingerprint == fingerprint(k.key)
    }

    /** The header of this key and nonce is read back as itself and is not megabytes long. */
    predicate HeaderIsReadable(k: EncryptionKey, n: seq<byte>) {
      var header := HeaderV3(this, k, n);
      decodeHeader(encodeHeader(header)) == Some(header) && |encodeHeader(header)| <= MAX_FRAME_SIZE
    }

    /**
      The AEAD keeps lengths and opens exactly what it sealed; fingerprints have one length; the text
      codecs are left inverses of their encoders on the nonces and headers that the writer makes.
     */
    ghost predicate Lawful() {
      && (forall k, iv, aad, p :: |seal(k, iv, aad, p).ciphertext| == |p|)
      && (forall k, iv, aad, p :: |seal(k, iv, aad, p).tag| == TAG_BYTES)
      && (forall k, iv, aad, p, s :: open(k, iv, aad, s) == Some(p) <==> seal(k, iv, aad, p) == s)
      && (forall b :: |fingerprint(b)| == FINGERPRINT_LENGTH)
      && (forall n | |n| == ARTIFACT_NONCE_BYTES :: decodeNonce(encodeNonce(n)) == n)
      && (forall k, n | KeyIsMade(k) && |n| == ARTIFACT_NONCE_BYTES :: HeaderIsReadable(k, n))
    }
  }

  predicate KeyIdCharacter(c: char) {
    'a' <= c <= 'z' || 'A' <= c <= 'Z' || '0' <= c <= '9' || c == '_' || c == '.' || c == '-'
  }

  predicate KeyIdIsValid(id: string) {
    1 <= |id| <= 64 && forall i | 0 <= i < |id| :: KeyIdCharacter(id[i])
  }

  function HeaderV3(prims: Primitives, key: EncryptionKey, nonce: seq<byte>): Header {
    Header(3, ALGORITHM, "keyring", Some(key.id), key.fingerprint, CHUNK_SIZE, Some(prims.encodeNonce(nonce)))
  }

  /** A keyring as its parser builds it: both maps hold the same keys, each under its own names. */
  ghost predicate ValidKeyring(prims: Primitives, ring: Keyring) {
    && ring.activeKey.id in ring.keysById
    && ring.keysById[ring.activeKey.id] == ring.activeKey
    && (forall id | id in ring.keysById ::
          var k := ring.keysById[id];
          k.id == id && KeyIdIsValid(id) && k.fingerprint == prims.fingerprint(k.key)
          && k.fingerprint in ring.keysByFingerprint && ring.keysByFingerprint[k.fingerprint] == k)
    && (forall f | f in ring.keysByFingerprint ::
          var k := ring.keysByFingerprint[f];
          k.fingerprint == f && k.id in ring.keysById && ring.keysById[k.id] == k)
  }

  // ------------------------------------------------------------------ frames

  /** What the reader knows once it has read a header. A version 2 stream has no nonce. */
  datatype Session = Session(headerRaw: seq<byte>, version: int, key: EncryptionKey, nonce: seq<byte>)

  datatype Frame = Frame(final: bool, iv: seq<byte>, sealed: Sealed)

  function FrameMarker(index: nat, final: bool): seq<byte>
    requires index < TWO_TO_THE_32
  {
    U32(index) + [if final then 1 else 0]
  }

  function FrameAad(s: Session, index: nat, final: bool): seq<byte>
    requires index < TWO_TO_THE_32
  {
    if s.version == 2 then FrameMarker(index, final) else s.headerRaw + s.nonce + FrameMarker(index, final)
  }

  predicate FrameShapeIsValid(f: Frame) {
    |f.iv| == IV_BYTES && |f.sealed.tag| == TAG_BYTES && |f.sealed.ciphertext| <= MAX_FRAME_SIZE
  }

  function FrameBytes(f: Frame, index: nat): (r: seq<byte>)
    requires index < TWO_TO_THE_32 && FrameShapeIsValid(f)
    ensures |r| == FRAME_METADATA_BYTES + |f.sealed.ciphertext|
  {
    U32(|f.sealed.ciphertext|) + U32(index) + [if f.final then 1 else 0] + f.iv + f.sealed.tag + f.sealed.ciphertext
  }

  /** The byte a frame's position and finality are checked against is what the reader finds there. */
  lemma FrameBytesFields(f: Frame, index: nat, rest: seq<byte>)
    requires index < TWO_TO_THE_32 && FrameShapeIsValid(f)
    ensures var b := FrameBytes(f, index) + rest;
            var n := FRAME_METADATA_BYTES + |f.sealed.ciphertext|;
            && |b| >= n
            && ReadU32(b) == |f.sealed.ciphertext|
            && ReadU32(b[4..]) == index
            && b[8] == (if f.final then 1 else 0)
            && b[9..21] == f.iv
            && b[21..37] == f.sealed.tag
            && b[37..n] == f.sealed.ciphertext
            && b[n..] == rest
  {
    var b := FrameBytes(f, index) + rest;
    ReadWrittenU32(|f.sealed.ciphertext|);
    ReadWrittenU32(index);
    assert b[..4] == U32(|f.sealed.ciphertext|);
    assert b[4..][..4] == U32(index);
  }

  /** Conversely, a buffer with these fields starts with that frame's bytes. */
  lemma FieldsMakeFrameBytes(b: seq<byte>, f: Frame, index: nat)
    requires index < TWO_TO_THE_32 && FrameShapeIsValid(f)
    requires |b| >= FRAME_METADATA_BYTES + |f.sealed.ciphertext|
    requires ReadU32(b) == |f.sealed.ciphertext| && ReadU32(b[4..]) == index
    requires b[8] == (if f.final then 1 else 0)
    requires b[9..21] == f.iv && b[21..37] == f.sealed.tag
    requires b[37..FRAME_METADATA_BYTES + |f.sealed.ciphertext|] == f.sealed.ciphertext
    ensures b == FrameBytes(f, index) + b[FRAME_METADATA_BYTES + |f.sealed.ciphertext|..]
  {
    var n := FRAME_METADATA_BYTES + |f.sealed.ciphertext|;
    WriteReadU32(b);
    WriteReadU32(b[4..]);
    assert b[4..8] == b[4..][..4];
    assert b == b[..4] + b[4..8] + [b[8]] + b[9..21] + b[21..37] + b[37..n] + b[n..];
  }

  /** The bytes of the frames fs[0], fs[1], ... numbered from index. */
  function FramesBytes(fs: seq<Frame>, index: nat): seq<byte>
    requires index + |fs| <= TWO_TO_THE_32
    requires forall i | 0 <= i < |fs| :: FrameShapeIsValid(fs[i])
  {
    if fs == [] then [] else FrameBytes(fs[0], index) + FramesBytes(fs[1..], index + 1)
  }

  // ------------------------------------------------------------------ header

  datatype DecodeError =
    | BadMagic | HeaderTooLarge | BadJson | UnsupportedFormat | MissingKey | FingerprintMismatch | BadNonce
    | DataAfterFinalFrame | FrameTooLarge | BadFlag | BadOrder | NotAuthentic
    | MissingHeader | PartialFrame | MissingFinalFrame

  function HeaderBytes(json: seq<byte>): seq<byte>
    requires |json| < TWO_TO_THE_32
  {
    MAGIC + U32(|json|) + json
  }

  function ParseHeader(prims: Primitives, ring: Keyring, json: seq<byte>): Result<Session, DecodeError>
    requires |json| < TWO_TO_THE_32
  {
    match prims.decodeHeader(json)
    case None => Err(BadJson)
    case Some(h) =>
      if h.algorithm != ALGORITHM || (h.version != 2 && h.version != 3) then Err(UnsupportedFormat)
      else if h.version == 2 then
        if h.keySource != APP_SECRET_ID || h.chunkSize != CHUNK_SIZE then Err(UnsupportedFormat)
        else if h.keyFingerprint !in ring.keysByFingerprint then Err(MissingKey)
        else Ok(Session(HeaderBytes(json), 2, ring.keysByFingerprint[h.keyFingerprint], []))
      else if h.keySource != "keyring" || h.chunkSize != CHUNK_SIZE || h.keyId == None
              || !KeyIdIsValid(h.keyId.value) || h.artifactNonce == None then Err(UnsupportedFormat)
      else if h.keyId.value !in ring.keysById then Err(MissingKey)
      else
        var key := ring.keysById[h.keyId.value];
        if key.fingerprint != h.keyFingerprint then Err(FingerprintMismatch)
        else
          var nonce := prims.decodeNonce(h.artifactNonce.value);
          if |nonce| != ARTIFACT_NONCE_BYTES then Err(BadNonce)
          else Ok(Session(HeaderBytes(json), 3, key, nonce))
  }

  // ------------------------------------------------------------------ grammar

  /** f is a well-shaped frame that opens, at this position, to p. */
  predicate FrameOpens(prims: Primitives, s: Session, f: Frame, index: nat, p: seq<byte>)
    requires index < TWO_TO_THE_32
  {
    FrameShapeIsValid(f) && prims.open(s.key.key, f.iv, FrameAad(s, index, f.final), f.sealed) == Some(p)
  }

  /** Frames numbered from index, the last one and only the last one final, opening to parts. */
  predicate Body(prims: Primitives, s: Session, fs: seq<Frame>, parts: seq<seq<byte>>, index: nat) {
    && 1 <= |fs| == |parts|
    && index + |fs| <= TWO_TO_THE_32
    && (forall i | 0 <= i < |fs| :: fs[i].final == (i == |fs| - 1))
    && (forall i | 0 <= i < |fs| :: FrameOpens(prims, s, fs[i], index + i, parts[i]))
  }

  /** A whole stream: one readable header, then a body. */
  predicate Stream(prims: Primitives, ring: Keyring, json: seq<byte>, fs: seq<Frame>, parts: seq<seq<byte>>) {
    && |json| <= MAX_FRAME_SIZE
    && ParseHeader(prims, ring, json).Ok?
    && Body(prims, ParseHeader(prims, ring, json).value, fs, parts, 0)
  }

  function StreamBytes(prims: Primitives, ring: Keyring, json: seq<byte>, fs: seq<Frame>, parts: seq<seq<byte>>): seq<byte>
    requires Stream(prims, ring, json, fs, parts)
  {
    HeaderBytes(json) + FramesBytes(fs, 0)
  }
}
