/** Cutting a byte string into full chunks and a held-back remainder, for any frame function. */
module Chunking {
  import opened Bytes

  const CHUNK_SIZE: nat := 65536

  /** plaintext, frame number, final? */
  type FrameFunction = (seq<byte>, nat, bool) -> seq<byte>

  /** Where chunk k starts. */
  function Offset(k: nat): nat {
    65536 * k
  }

  /** How many non-final frames n bytes of plaintext have forced out; the last byte is always held back. */
  function ForcedFrames(n: nat): (k: nat)
    ensures Offset(k) <= n <= Offset(k + 1)
    ensures k > 0 ==> n > Offset(k)
  {
    if n == 0 then 0 else (n - 1) / 65536
  }

  /** The output of frames 0..k, each holding one full chunk of p. */
  function FullFrames(frame: FrameFunction, p: seq<byte>, k: nat): seq<byte>
    requires Offset(k) <= |p|
  {
    if k == 0 then [] else FullFrames(frame, p, k - 1) + frame(p[Offset(k - 1)..Offset(k)], k - 1, false)
  }

  /** The output for the whole of p: max(1, ceil(|p| / 65536)) frames, all full except possibly the last. */
  function Chunked(frame: FrameFunction, p: seq<byte>): seq<byte> {
    var k := ForcedFrames(|p|);
    FullFrames(frame, p, k) + frame(p[Offset(k)..], k, true)
  }

  lemma {:induction false} FullFramesExtend(frame: FrameFunction, p: seq<byte>, more: seq<byte>, k: nat)
    requires Offset(k) <= |p|
    ensures FullFrames(frame, p + more, k) == FullFrames(frame, p, k)
  {
    if k > 0 {
      FullFramesExtend(frame, p, more, k - 1);
      assert (p + more)[Offset(k - 1)..Offset(k)] == p[Offset(k - 1)..Offset(k)];
    }
  }

  /** What cutting one more full chunk off the front of the remainder adds. */
  lemma FullFramesStep(frame: FrameFunction, p: seq<byte>, k: nat)
    requires Offset(k + 1) < |p|
    ensures |p[Offset(k)..]| > CHUNK_SIZE
    ensures FullFrames(frame, p, k + 1) == FullFrames(frame, p, k) + frame(p[Offset(k)..][..CHUNK_SIZE], k, false)
    ensures p[Offset(k)..][CHUNK_SIZE..] == p[Offset(k + 1)..]
    ensures k + 1 <= ForcedFrames(|p|)
  {
    assert p[Offset(k)..][..CHUNK_SIZE] == p[Offset(k)..Offset(k + 1)];
  }

  /** The bytes out once k full chunks are cut: nothing at all before the first, then the header and the frames. */
  function Emitted(header: seq<byte>, frame: FrameFunction, p: seq<byte>, k: nat): seq<byte>
    requires Offset(k) <= |p|
  {
    if k == 0 then [] else header + FullFrames(frame, p, k)
  }

  lemma EmittedStep(header: seq<byte>, frame: FrameFunction, p: seq<byte>, k: nat)
    requires Offset(k + 1) < |p|
    ensures Emitted(header, frame, p, k) + (if k == 0 then header else []) + frame(p[Offset(k)..][..CHUNK_SIZE], k, false)
         == Emitted(header, frame, p, k + 1)
  {
    FullFramesStep(frame, p, k);
    Regroup(header, FullFrames(frame, p, k), frame(p[Offset(k)..][..CHUNK_SIZE], k, false));
  }

  lemma EmittedLast(header: seq<byte>, frame: FrameFunction, p: seq<byte>, k: nat)
    requires k == ForcedFrames(|p|)
    ensures Emitted(header, frame, p, k) + (if k == 0 then header else []) + frame(p[Offset(k)..], k, true)
         == header + Chunked(frame, p)
  {
    Regroup(header, FullFrames(frame, p, k), frame(p[Offset(k)..], k, true));
  }

  lemma FrameCount(n: nat)
    ensures ForcedFrames(n) + 1 == if n == 0 then 1 else (n + CHUNK_SIZE - 1) / CHUNK_SIZE
  {
  }

  /** The i-th chunk of p. */
  function Chunk(p: seq<byte>, i: nat): (c: seq<byte>)
    requires i <= ForcedFrames(|p|)
    ensures |c| <= CHUNK_SIZE
    ensures i < ForcedFrames(|p|) ==> |c| == CHUNK_SIZE
  {
    if i < ForcedFrames(|p|) then p[Offset(i)..Offset(i + 1)] else p[Offset(i)..]
  }

  function Chunks(p: seq<byte>): (parts: seq<seq<byte>>)
    ensures |parts| == ForcedFrames(|p|) + 1
    ensures forall i | 0 <= i < |parts| :: parts[i] == Chunk(p, i)
  {
    seq(ForcedFrames(|p|) + 1, i requires 0 <= i <= ForcedFrames(|p|) => Chunk(p, i))
  }

  lemma {:induction false} ConcatOfChunks(p: seq<byte>, k: nat)
    requires k <= ForcedFrames(|p|) + 1
    ensures Concat(Chunks(p)[..k]) == if k <= ForcedFrames(|p|) then p[..Offset(k)] else p
  {
    if k > 0 {
      ConcatOfChunks(p, k - 1);
      ConcatAppend(Chunks(p)[..k - 1], Chunks(p)[k - 1]);
      TakeOneMore(Chunks(p), k);
    }
  }
}
