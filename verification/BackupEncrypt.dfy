/** The encrypting transform: a growing buffer cut into sealed chunks. */
module BackupEncrypt {
  import opened Wrappers
  import opened Bytes
  import opened Chunking
  import opened BackupFormat

  /** The key, nonce and stream of initialization vectors an encryption runs under. */
  datatype Sealer = Sealer(prims: Primitives, key: EncryptionKey, nonce: seq<byte>, ivs: nat -> seq<byte>)
  {
    ghost predicate Valid() {
      && prims.Lawful()
      && prims.KeyIsMade(key)
      && |nonce| == ARTIFACT_NONCE_BYTES
      && forall i :: |ivs(i)| == IV_BYTES
    }

    function Json(): (json: seq<byte>)
      requires Valid()
      ensures |json| <= MAX_FRAME_SIZE
    {
      assert prims.HeaderIsReadable(key, nonce);
      prims.encodeHeader(HeaderV3(prims, key, nonce))
    }

    function SessionV3(): Session
      requires Valid()
    {
      Session(HeaderBytes(Json()), 3, key, nonce)
    }

    function SealFrame(plaintext: seq<byte>, index: nat, final: bool): (f: Frame)
      requires Valid() && |plaintext| <= CHUNK_SIZE && index < TWO_TO_THE_32
      ensures f.final == final
      ensures FrameOpens(prims, SessionV3(), f, index, plaintext)
    {
      var aad := FrameAad(SessionV3(), index, final);
      var sealed := prims.seal(key.key, ivs(index), aad, plaintext);
      assert prims.open(key.key, ivs(index), aad, sealed) == Some(plaintext);
      Frame(final, ivs(index), sealed)
    }

    /** The bytes of one frame, for every chunk and number a frame can carry. */
    function EncryptFrame(): FrameFunction
      requires Valid()
    {
      (plaintext: seq<byte>, index: nat, final: bool) =>
        if |plaintext| <= CHUNK_SIZE && index < TWO_TO_THE_32
        then FrameBytes(SealFrame(plaintext, index, final), index)
        else []
    }

    /** The whole encrypted stream of p, described without reference to any buffering. */
    function Encrypted(p: seq<byte>): seq<byte>
      requires Valid()
    {
      HeaderBytes(Json()) + Chunked(EncryptFrame(), p)
    }

    /** All frames of p. */
    function Frames(p: seq<byte>): (fs: seq<Frame>)
      requires Valid() && ForcedFrames(|p|) < TWO_TO_THE_32
      ensures |fs| == ForcedFrames(|p|) + 1
      ensures forall i | 0 <= i < |fs| :: fs[i] == SealFrame(Chunk(p, i), i, i == |fs| - 1)
      ensures forall i | 0 <= i < |fs| :: FrameShapeIsValid(fs[i])
    {
      seq(ForcedFrames(|p|) + 1, i requires 0 <= i <= ForcedFrames(|p|) =>
        SealFrame(Chunk(p, i), i, i == ForcedFrames(|p|)))
    }

    lemma FramesAreABody(p: seq<byte>)
      requires Valid() && ForcedFrames(|p|) < TWO_TO_THE_32
      ensures Body(prims, SessionV3(), Frames(p), Chunks(p), 0)
    {
      forall i | 0 <= i <= ForcedFrames(|p|)
        ensures FrameOpens(prims, SessionV3(), Frames(p)[i], i, Chunks(p)[i])
      {
        assert Frames(p)[i] == SealFrame(Chunk(p, i), i, i == ForcedFrames(|p|));
      }
    }

    /** Every frame but the last is the encryption of a full chunk. */
    lemma FullFrameBytes(p: seq<byte>, k: nat)
      requires Valid() && k < ForcedFrames(|p|) < TWO_TO_THE_32 && Offset(k + 1) <= |p|
      ensures EncryptFrame()(p[Offset(k)..Offset(k + 1)], k, false) == FrameBytes(Frames(p)[k], k)
    {
    }

    /** The last frame is the final encryption of what is left. */
    lemma LastFrameBytes(p: seq<byte>)
      requires Valid() && ForcedFrames(|p|) < TWO_TO_THE_32
      ensures Offset(ForcedFrames(|p|)) <= |p|
      ensures var k := ForcedFrames(|p|); EncryptFrame()(p[Offset(k)..], k, true) == FrameBytes(Frames(p)[k], k)
    {
    }

    lemma FullFramesAreFrames(p: seq<byte>, k: nat)
      requires Valid() && k <= ForcedFrames(|p|) < TWO_TO_THE_32
      ensures FullFrames(EncryptFrame(), p, k) == FramesBytes(Frames(p)[..k], 0)
    {
      forall i | 0 <= i < k
        ensures EncryptFrame()(p[Offset(i)..Offset(i + 1)], i, false) == FrameBytes(Frames(p)[i], i)
      {
        FullFrameBytes(p, i);
      }
      FullFramesAre(EncryptFrame(), p, Frames(p), k);
    }

    lemma ChunkedIsFrames(p: seq<byte>)
      requires Valid() && ForcedFrames(|p|) < TWO_TO_THE_32
      ensures Chunked(EncryptFrame(), p) == FramesBytes(Frames(p), 0)
    {
      var k, fs := ForcedFrames(|p|), Frames(p);
      FullFramesAreFrames(p, k);
      LastFrameBytes(p);
      FramesBytesAppend(fs[..k], fs[k], 0);
      assert FramesBytes(fs, 0) == FramesBytes(fs[..k], 0) + FrameBytes(fs[k], k) by {
        TakeOneMore(fs, k + 1);
        assert fs[..k + 1] == fs;
      }
    }

    /** An encryption is a header followed by max(1, ceil(|p| / 65536)) numbered frames. */
    lemma EncryptedIsHeaderAndFrames(p: seq<byte>)
      requires Valid() && ForcedFrames(|p|) < TWO_TO_THE_32
      ensures Body(prims, SessionV3(), Frames(p), Chunks(p), 0)
      ensures Encrypted(p) == HeaderBytes(Json()) + FramesBytes(Frames(p), 0)
      ensures |Frames(p)| == if |p| == 0 then 1 else (|p| + CHUNK_SIZE - 1) / CHUNK_SIZE
      ensures forall i | 0 <= i < |Frames(p)| - 1 :: |Chunks(p)[i]| == CHUNK_SIZE
      ensures Concat(Chunks(p)) == p
    {
      FramesAreABody(p);
      ChunkedIsFrames(p);
      ConcatOfChunks(p, ForcedFrames(|p|) + 1);
      assert Chunks(p)[..|Chunks(p)|] == Chunks(p);
      FrameCount(|p|);
    }
  }

  /** When every full chunk's output is that of a frame, all of them together are the frames' bytes. */
  lemma {:induction false} FullFramesAre(frame: FrameFunction, p: seq<byte>, fs: seq<Frame>, k: nat)
    requires k <= |fs| && k <= TWO_TO_THE_32 && Offset(k) <= |p|
    requires forall i | 0 <= i < |fs| :: FrameShapeIsValid(fs[i])
    requires forall i | 0 <= i < k :: frame(p[Offset(i)..Offset(i + 1)], i, false) == FrameBytes(fs[i], i)
    ensures FullFrames(frame, p, k) == FramesBytes(fs[..k], 0)
    decreases k
  {
    if k > 0 {
      FullFramesAre(frame, p, fs, k - 1);
      FramesBytesAppend(fs[..k - 1], fs[k - 1], 0);
      TakeOneMore(fs, k);
    }
  }

  /** Appending one frame to a numbered list of frames appends its bytes. */
  lemma {:induction false} FramesBytesAppend(fs: seq<Frame>, f: Frame, index: nat)
    requires index + |fs| + 1 <= TWO_TO_THE_32
    requires FrameShapeIsValid(f) && forall i | 0 <= i < |fs| :: FrameShapeIsValid(fs[i])
    ensures FramesBytes(fs + [f], index) == FramesBytes(fs, index) + FrameBytes(f, index + |fs|)
  {
    if fs == [] {
      assert fs + [f] == [f];
      assert [f][1..] == [];
    } else {
      FramesBytesAppend(fs[1..], f, index + 1);
      assert (fs + [f])[1..] == fs[1..] + [f];
      Regroup(FrameBytes(fs[0], index), FramesBytes(fs[1..], index + 1), FrameBytes(f, index + |fs|));
    }
  }

  class BackupEncryptTransform {
    const headerRaw: seq<byte>
    const encryptFrame: FrameFunction
    var wroteHeader: bool
    var frameIndex: nat
    var buffer: seq<byte>
    var finalized: bool
    /** Everything pushed downstream so far. */
    var output: seq<byte>
    /** Everything written into the transform so far. */
    ghost var consumed: seq<byte>

    /** Every chunk cut so far is out, the rest is in the buffer. */
    ghost predicate Invariant()
      reads this
    {
      && !finalized
      && frameIndex <= ForcedFrames(|consumed|)
      && frameIndex <= TWO_TO_THE_32
      && buffer == consumed[Offset(frameIndex)..]
      && (wroteHeader <==> frameIndex > 0)
      && output == Emitted(headerRaw, encryptFrame, consumed, frameIndex)
    }

    /** Between writes, nothing that can be cut is left in the buffer. */
    ghost predicate Valid()
      reads this
    {
      Invariant() && frameIndex == ForcedFrames(|consumed|)
    }

    constructor (headerRaw: seq<byte>, encryptFrame: FrameFunction)
      ensures Valid() && consumed == []
      ensures this.headerRaw == headerRaw && this.encryptFrame == encryptFrame
    {
      this.headerRaw, this.encryptFrame := headerRaw, encryptFrame;
      wroteHeader, frameIndex, buffer, finalized := false, 0, [], false;
      output, consumed := [], [];
    }

    /** Push one frame, the header first if it is not out yet. Frame numbers are 32-bit words. */
    method PushFrame(plaintext: seq<byte>, final: bool) returns (ok: bool)
      modifies this`wroteHeader, this`output, this`frameIndex, this`finalized
      ensures ok <==> old(frameIndex) < TWO_TO_THE_32
      ensures wroteHeader
      ensures frameIndex == old(frameIndex) + (if ok then 1 else 0)
      ensures finalized == if ok then final else old(finalized)
      ensures output == old(output) + (if old(wroteHeader) then [] else headerRaw)
                        + (if ok then encryptFrame(plaintext, old(frameIndex), final) else [])
    {
      if !wroteHeader {
        output := output + headerRaw;
        wroteHeader := true;
      }
      if frameIndex >= TWO_TO_THE_32 {
        return false;
      }
      output := output + encryptFrame(plaintext, frameIndex, final);
      frameIndex := frameIndex + 1;
      finalized := final;
      return true;
    }

    /** One turn of the cutting loop. */
    method CutChunk() returns (ok: bool)
      requires Invariant() && |buffer| > CHUNK_SIZE
      modifies this
      ensures ok <==> old(frameIndex) < TWO_TO_THE_32
      ensures ok ==> Invariant() && |buffer| < |old(buffer)|
      ensures consumed == old(consumed)
    {
      EmittedStep(headerRaw, encryptFrame, consumed, frameIndex);
      FullFramesStep(encryptFrame, consumed, frameIndex);
      ok := PushFrame(buffer[..CHUNK_SIZE], false);
      if ok {
        buffer := buffer[CHUNK_SIZE..];
      }
    }

    /** One write. It fails only when it would need frame number 2^32. */
    method Transform(chunk: seq<byte>) returns (ok: bool)
      requires finalized || Valid()
      modifies this
      ensures old(finalized) ==> !ok && output == old(output) && buffer == old(buffer)
      ensures !old(finalized) ==> (ok <==> ForcedFrames(|old(consumed) + chunk|) <= TWO_TO_THE_32)
      ensures ok ==> Valid() && consumed == old(consumed) + chunk
    {
      if finalized {
        return false;
      }
      FullFramesExtend(encryptFrame, consumed, chunk, frameIndex);
      buffer := buffer + chunk;
      consumed := consumed + chunk;
      while |buffer| > CHUNK_SIZE
        invariant consumed == old(consumed) + chunk
        invariant Invariant()
        decreases |buffer|
      {
        ok := CutChunk();
        if !ok {
          return false;
        }
      }
      return true;
    }

    /** End of input: the held-back remainder, possibly empty, goes out as the final frame. */
    method Flush() returns (ok: bool)
      requires Valid()
      modifies this
      ensures ok <==> ForcedFrames(|old(consumed)|) < TWO_TO_THE_32
      ensures ok ==> finalized && consumed == old(consumed)
      ensures ok ==> output == headerRaw + Chunked(encryptFrame, consumed)
    {
      EmittedLast(headerRaw, encryptFrame, consumed, frameIndex);
      ok := PushFrame(buffer, true);
      if ok {
        buffer := [];
      }
    }
  }

  /**
    A pipeline over any sequence of writes produces the encryption of their concatenation, or
    fails exactly when 2^32 frames are not enough.
   */
  method EncryptWrites(sealer: Sealer, writes: seq<seq<byte>>) returns (r: Option<seq<byte>>)
    requires sealer.Valid()
    ensures r == if ForcedFrames(|Concat(writes)|) < TWO_TO_THE_32 then Some(sealer.Encrypted(Concat(writes))) else None
  {
    var t := new BackupEncryptTransform(HeaderBytes(sealer.Json()), sealer.EncryptFrame());
    var i := 0;
    while i < |writes|
      invariant 0 <= i <= |writes|
      invariant t.Valid() && fresh(t)
      invariant t.consumed == Concat(writes[..i])
    {
      ConcatAppend(writes[..i], writes[i]);
      TakeOneMore(writes, i + 1);
      ConcatPrefixIsShorter(writes, i + 1);
      var ok := t.Transform(writes[i]);
      if !ok {
        return None;
      }
      i := i + 1;
    }
    assert writes[..i] == writes;
    var ok := t.Flush();
    return if ok then Some(t.output) else None;
  }

  lemma {:induction false} ConcatPrefixIsShorter(parts: seq<seq<byte>>, k: nat)
    requires k <= |parts|
    ensures ForcedFrames(|Concat(parts[..k])|) <= ForcedFrames(|Concat(parts)|)
    decreases |parts| - k
  {
    if k < |parts| {
      ConcatPrefixIsShorter(parts, k + 1);
      ConcatAppend(parts[..k], parts[k]);
      TakeOneMore(parts, k + 1);
    } else {
      assert parts[..k] == parts;
    }
  }
}
