/** What the two transforms promise together. */
module BackupCodecTheorems {
  import opened Wrappers
  import opened Bytes
  import opened Chunking
  import opened BackupFormat
  import opened BackupEncrypt
  import opened BackupDecrypt

  // ------------------------------------------------------------------ the accepted language

  /** A reader that has a session and frames of it ahead takes the first one. */
  lemma TakesFrame(o: Opener, f: Stepper, s: Session, frame: Frame, index: nat, rest: seq<byte>, p: seq<byte>)
    requires o.Runs(f) && index < TWO_TO_THE_32 && FrameOpens(o.prims, s, frame, index, p)
    ensures f(Reader(Some(s), FrameBytes(frame, index) + rest, index, false))
         == Take(Reader(Some(s), rest, index + 1, frame.final), p)
  {
    var r := Reader(Some(s), FrameBytes(frame, index) + rest, index, false);
    FrameBytesFields(frame, index, rest);
    assert f(r) == o.Next(r);
  }

  /** A frame carrying any other number is refused. */
  lemma RefusesFrame(o: Opener, f: Stepper, s: Session, frame: Frame, index: nat, rest: seq<byte>, expected: nat)
    requires o.Runs(f) && index < TWO_TO_THE_32 && FrameShapeIsValid(frame) && index != expected
    ensures f(Reader(Some(s), FrameBytes(frame, index) + rest, expected, false)) == Fail(BadOrder)
  {
    var r := Reader(Some(s), FrameBytes(frame, index) + rest, expected, false);
    FrameBytesFields(frame, index, rest);
    assert f(r) == o.Next(r);
  }

  /** Nothing may follow the final frame once four more bytes have arrived. */
  lemma RefusesTail(o: Opener, f: Stepper, s: Session, expected: nat, tail: seq<byte>)
    requires o.Runs(f)
    ensures Drain(f, Reader(Some(s), tail, expected, true))
         == Drained([], if |tail| < 4 then Ok(Reader(Some(s), tail, expected, true)) else Err(DataAfterFinalFrame))
  {
    assert f(Reader(Some(s), tail, expected, true)) == o.Next(Reader(Some(s), tail, expected, true));
  }

  /** The tail of a body is a body, one number further on. */
  lemma RestOfBody(o: Opener, s: Session, fs: seq<Frame>, parts: seq<seq<byte>>, index: nat)
    requires Body(o.prims, s, fs, parts, index) && |fs| > 1
    ensures Body(o.prims, s, fs[1..], parts[1..], index + 1)
  {
    forall i | 0 <= i < |fs[1..]|
      ensures FrameOpens(o.prims, s, fs[1..][i], index + 1 + i, parts[1..][i])
    {
      assert FrameOpens(o.prims, s, fs[i + 1], index + (i + 1), parts[i + 1]);
    }
  }

  /** Every body in the grammar drains completely, emitting its parts in order. */
  lemma {:induction false} BodyDrains(
    o: Opener, f: Stepper, s: Session, fs: seq<Frame>, parts: seq<seq<byte>>, index: nat, tail: seq<byte>)
    requires o.Runs(f) && Body(o.prims, s, fs, parts, index)
    ensures Drain(f, Reader(Some(s), FramesBytes(fs, index) + tail, index, false))
         == Drain(f, Reader(Some(s), tail, index + |fs|, true)).After(Concat(parts))
    decreases |fs|
  {
    var end := Drain(f, Reader(Some(s), tail, index + |fs|, true));
    var after := FramesBytes(fs[1..], index + 1) + tail;
    Regroup(FrameBytes(fs[0], index), FramesBytes(fs[1..], index + 1), tail);
    TakesFrame(o, f, s, fs[0], index, after, parts[0]);
    if |fs| == 1 {
      assert after == tail;
      assert parts[1..] == [];
      assert end.After([]) == end;
    } else {
      RestOfBody(o, s, fs, parts, index);
      BodyDrains(o, f, s, fs[1..], parts[1..], index + 1, tail);
    }
    AfterTwice(end, parts[0], Concat(parts[1..]));
  }

  /** A header in the grammar is taken whole. */
  lemma TakesHeader(o: Opener, f: Stepper, json: seq<byte>, rest: seq<byte>)
    requires o.Runs(f) && |json| <= MAX_FRAME_SIZE && ParseHeader(o.prims, o.ring, json).Ok?
    ensures f(START.Append(HeaderBytes(json) + rest))
         == Take(Reader(Some(ParseHeader(o.prims, o.ring, json).value), rest, 0, false), [])
  {
    var b := HeaderBytes(json) + rest;
    assert [] + b == b;
    assert b[..8] == MAGIC;
    assert b[8..][..4] == U32(|json|);
    assert ReadU32(b[8..]) == ReadU32(b[8..][..4]);
    ReadWrittenU32(|json|);
    assert b[12..12 + |json|] == json;
    assert b[12 + |json|..] == rest;
    assert f(START.Append(b)) == o.Next(START.Append(b));
  }

  /** Draining a stream followed by anything leaves exactly what follows it. */
  lemma StreamDrains(o: Opener, f: Stepper, json: seq<byte>, fs: seq<Frame>, parts: seq<seq<byte>>, tail: seq<byte>)
    requires o.Runs(f) && Stream(o.prims, o.ring, json, fs, parts)
    ensures Drain(f, START.Append(StreamBytes(o.prims, o.ring, json, fs, parts) + tail))
         == Drain(f, Reader(Some(ParseHeader(o.prims, o.ring, json).value), tail, |fs|, true)).After(Concat(parts))
  {
    var s := ParseHeader(o.prims, o.ring, json).value;
    Regroup(HeaderBytes(json), FramesBytes(fs, 0), tail);
    TakesHeader(o, f, json, FramesBytes(fs, 0) + tail);
    BodyDrains(o, f, s, fs, parts, 0, tail);
    AfterTwice(Drain(f, Reader(Some(s), tail, |fs|, true)), [], Concat(parts));
    assert [] + Concat(parts) == Concat(parts);
  }

  /** The frame a successful frame step took. */
  lemma TakenFrame(o: Opener, f: Stepper, r: Reader, s: Session) returns (frame: Frame)
    requires o.Runs(f) && r.session == Some(s) && f(r).Take?
    ensures r.expected < TWO_TO_THE_32 && !r.finalSeen
    ensures FrameOpens(o.prims, s, frame, r.expected, f(r).plaintext)
    ensures r.buffer == FrameBytes(frame, r.expected) + f(r).next.buffer
    ensures f(r).next == Reader(Some(s), f(r).next.buffer, r.expected + 1, frame.final)
  {
    assert f(r) == o.Next(r);
    var b := r.buffer;
    var end := FRAME_METADATA_BYTES + ReadU32(b);
    frame := Frame(b[8] == 1, b[9..21], Sealed(b[37..end], b[21..37]));
    FieldsMakeFrameBytes(b, frame, r.expected);
  }

  lemma AcceptedReaderTakes(o: Opener, f: Stepper, r: Reader)
    requires o.Runs(f) && !r.finalSeen && Drain(f, r).Verdict().Accepted?
    ensures f(r).Take?
    ensures Drain(f, r) == Drain(f, f(r).next).After(f(r).plaintext)
    ensures Drain(f, f(r).next).Verdict().Accepted?
  {
  }

  /** A final frame with nothing after it is a body by itself. */
  lemma LastFrame(o: Opener, f: Stepper, s: Session, frame: Frame, p: seq<byte>, index: nat, rest: seq<byte>)
    requires o.Runs(f) && index < TWO_TO_THE_32 && frame.final && FrameOpens(o.prims, s, frame, index, p)
    requires Drain(f, Reader(Some(s), rest, index + 1, true)).Verdict().Accepted?
    ensures Body(o.prims, s, [frame], [p], index)
    ensures FrameBytes(frame, index) + rest == FramesBytes([frame], index)
    ensures p + Drain(f, Reader(Some(s), rest, index + 1, true)).emitted == Concat([p])
  {
    RefusesTail(o, f, s, index + 1, rest);
    assert [frame][1..] == [] && [p][1..] == [];
  }

  /** Whatever drains to a clean end is a body of the grammar. */
  lemma {:induction false} DrainedIsABody(o: Opener, f: Stepper, r: Reader, s: Session)
    returns (fs: seq<Frame>, parts: seq<seq<byte>>)
    requires o.Runs(f) && r.session == Some(s) && !r.finalSeen
    requires Drain(f, r).Verdict().Accepted?
    ensures Body(o.prims, s, fs, parts, r.expected)
    ensures r.buffer == FramesBytes(fs, r.expected)
    ensures Drain(f, r).emitted == Concat(parts)
    decreases |r.buffer|
  {
    AcceptedReaderTakes(o, f, r);
    var frame := TakenFrame(o, f, r, s);
    var next, p := f(r).next, f(r).plaintext;
    if frame.final {
      LastFrame(o, f, s, frame, p, r.expected, next.buffer);
      fs, parts := [frame], [p];
    } else {
      var fs', parts' := DrainedIsABody(o, f, next, s);
      fs, parts := [frame] + fs', [p] + parts';
      PrependFrame(o, s, frame, p, fs', parts', r.expected);
    }
  }

  lemma PrependFrame(o: Opener, s: Session, f: Frame, p: seq<byte>, fs: seq<Frame>, parts: seq<seq<byte>>, index: nat)
    requires index < TWO_TO_THE_32 && !f.final && FrameOpens(o.prims, s, f, index, p)
    requires Body(o.prims, s, fs, parts, index + 1)
    ensures Body(o.prims, s, [f] + fs, [p] + parts, index)
    ensures FramesBytes([f] + fs, index) == FrameBytes(f, index) + FramesBytes(fs, index + 1)
    ensures Concat([p] + parts) == p + Concat(parts)
  {
    assert ([f] + fs)[1..] == fs && ([p] + parts)[1..] == parts;
    forall i | 0 <= i < |[f] + fs|
      ensures FrameOpens(o.prims, s, ([f] + fs)[i], index + i, ([p] + parts)[i])
    {
      if i > 0 {
        assert FrameOpens(o.prims, s, fs[i - 1], (index + 1) + (i - 1), parts[i - 1]);
      }
    }
  }

  /**
    The reader accepts exactly the streams of the grammar: one header it can read under its
    keyring, then frames numbered 0, 1, ... of which the last and only the last is final; and
    what it emits is the concatenation of what those frames open to.
   */
  lemma AcceptedLanguage(o: Opener, input: seq<byte>, plaintext: seq<byte>)
    ensures o.Decode(input) == Accepted(plaintext) <==>
            exists json, fs, parts {:trigger Stream(o.prims, o.ring, json, fs, parts)} ::
              && Stream(o.prims, o.ring, json, fs, parts)
              && input == StreamBytes(o.prims, o.ring, json, fs, parts)
              && plaintext == Concat(parts)
  {
    if o.Decode(input) == Accepted(plaintext) {
      var json, fs, parts := AcceptedIsAStream(o, o.Stepper(), input);
    }
    if json, fs, parts {:trigger Stream(o.prims, o.ring, json, fs, parts)} :|
      && Stream(o.prims, o.ring, json, fs, parts)
      && input == StreamBytes(o.prims, o.ring, json, fs, parts)
      && plaintext == Concat(parts)
    {
      StreamIsAccepted(o, json, fs, parts);
    }
  }

  lemma StreamIsAccepted(o: Opener, json: seq<byte>, fs: seq<Frame>, parts: seq<seq<byte>>)
    requires Stream(o.prims, o.ring, json, fs, parts)
    ensures o.Decode(StreamBytes(o.prims, o.ring, json, fs, parts)) == Accepted(Concat(parts))
  {
    var input := StreamBytes(o.prims, o.ring, json, fs, parts);
    var s := ParseHeader(o.prims, o.ring, json).value;
    StreamDrains(o, o.Stepper(), json, fs, parts, []);
    RefusesTail(o, o.Stepper(), s, |fs|, []);
    assert input + [] == input;
    assert Concat(parts) + [] == Concat(parts);
  }

  /** The header a successful first step took. */
  lemma TakenHeader(o: Opener, f: Stepper, input: seq<byte>) returns (json: seq<byte>)
    requires o.Runs(f) && f(START.Append(input)).Take?
    ensures |json| <= MAX_FRAME_SIZE && ParseHeader(o.prims, o.ring, json).Ok?
    ensures input == HeaderBytes(json) + f(START.Append(input)).next.buffer
    ensures f(START.Append(input)).plaintext == []
    ensures f(START.Append(input)).next
         == Reader(Some(ParseHeader(o.prims, o.ring, json).value), f(START.Append(input)).next.buffer, 0, false)
  {
    assert f(START.Append(input)) == o.Next(START.Append(input));
    assert [] + input == input;
    var n := ReadU32(input[8..]);
    json := input[12..12 + n];
    WriteReadU32(input[8..]);
    assert input == input[..8] + input[8..][..4] + json + input[12 + n..];
  }

  lemma AcceptedIsAStream(o: Opener, f: Stepper, input: seq<byte>)
    returns (json: seq<byte>, fs: seq<Frame>, parts: seq<seq<byte>>)
    requires o.Runs(f) && Drain(f, START.Append(input)).Verdict().Accepted?
    ensures Stream(o.prims, o.ring, json, fs, parts)
    ensures input == StreamBytes(o.prims, o.ring, json, fs, parts)
    ensures Drain(f, START.Append(input)).emitted == Concat(parts)
  {
    var r := START.Append(input);
    json := TakenHeader(o, f, input);
    var next := f(r).next;
    assert Drain(f, r).emitted == Drain(f, next).emitted;
    fs, parts := DrainedIsABody(o, f, next, next.session.value);
  }

  // ------------------------------------------------------------------ round trip

  /** The reader finds the session that the writer sealed under. */
  lemma HeaderIsReadBack(sealer: Sealer, o: Opener)
    requires sealer.Valid() && o.prims == sealer.prims
    requires ValidKeyring(o.prims, o.ring)
    requires sealer.key.id in o.ring.keysById && o.ring.keysById[sealer.key.id].key == sealer.key.key
    ensures ParseHeader(o.prims, o.ring, sealer.Json()) == Ok(sealer.SessionV3())
  {
    assert o.prims.HeaderIsReadable(sealer.key, sealer.nonce);
    assert o.prims.decodeNonce(o.prims.encodeNonce(sealer.nonce)) == sealer.nonce;
    assert o.ring.keysById[sealer.key.id] == sealer.key;
  }

  /** Any reader whose keyring still holds the sealing key undoes the encryption. */
  lemma RoundTrip(sealer: Sealer, o: Opener, plaintext: seq<byte>)
    requires sealer.Valid() && o.prims == sealer.prims
    requires ForcedFrames(|plaintext|) < TWO_TO_THE_32
    requires ValidKeyring(o.prims, o.ring)
    requires sealer.key.id in o.ring.keysById && o.ring.keysById[sealer.key.id].key == sealer.key.key
    ensures o.Decode(sealer.Encrypted(plaintext)) == Accepted(plaintext)
  {
    var json := sealer.Json();
    HeaderIsReadBack(sealer, o);
    sealer.EncryptedIsHeaderAndFrames(plaintext);
    assert Stream(o.prims, o.ring, json, sealer.Frames(plaintext), Chunks(plaintext));
    StreamIsAccepted(o, json, sealer.Frames(plaintext), Chunks(plaintext));
  }

  /** The transforms undo each other for every split of the plaintext and of the ciphertext. */
  method EncryptThenDecrypt(sealer: Sealer, o: Opener, writes: seq<seq<byte>>, cut: seq<byte> -> seq<seq<byte>>)
    returns (verdict: Verdict)
    requires sealer.Valid() && o.prims == sealer.prims
    requires ForcedFrames(|Concat(writes)|) < TWO_TO_THE_32
    requires ValidKeyring(o.prims, o.ring)
    requires sealer.key.id in o.ring.keysById && o.ring.keysById[sealer.key.id].key == sealer.key.key
    requires forall b :: Concat(cut(b)) == b
    ensures verdict == Accepted(Concat(writes))
  {
    var ciphertext := EncryptWrites(sealer, writes);
    verdict := DecryptChunks(o, cut(ciphertext.value));
    RoundTrip(sealer, o, Concat(writes));
  }

  // ------------------------------------------------------------------ damaged streams

  /** Nothing can be appended to an accepted input. */
  lemma TrailingBytesAreRejected(o: Opener, input: seq<byte>, tail: seq<byte>)
    requires o.Decode(input).Accepted? && tail != []
    ensures o.Decode(input + tail).Rejected?
  {
    var json, fs, parts := AcceptedIsAStream(o, o.Stepper(), input);
    StreamDrains(o, o.Stepper(), json, fs, parts, tail);
    RefusesTail(o, o.Stepper(), ParseHeader(o.prims, o.ring, json).value, |fs|, tail);
  }

  /** No strict prefix of an accepted input is accepted. */
  lemma StrictPrefixesAreRejected(o: Opener, input: seq<byte>, n: nat)
    requires o.Decode(input).Accepted? && n < |input|
    ensures o.Decode(input[..n]).Rejected?
  {
    if o.Decode(input[..n]).Accepted? {
      TrailingBytesAreRejected(o, input[..n], input[n..]);
      assert input == input[..n] + input[n..];
    }
  }

  /** The bytes of the frames of fs picked in this order, each still carrying its own number. */
  function Picked(fs: seq<Frame>, order: seq<nat>): seq<byte>
    requires |fs| <= TWO_TO_THE_32
    requires forall i | 0 <= i < |fs| :: FrameShapeIsValid(fs[i])
    requires forall i | 0 <= i < |order| :: order[i] < |fs|
  {
    if order == [] then [] else FrameBytes(fs[order[0]], order[0]) + Picked(fs, order[1..])
  }

  ghost predicate InOrder(order: seq<nat>, from: nat, n: nat) {
    from + |order| == n && forall i | 0 <= i < |order| :: order[i] == from + i
  }

  lemma {:induction false} PickedFailsUnlessInOrder(
    o: Opener, f: Stepper, s: Session, fs: seq<Frame>, parts: seq<seq<byte>>, order: seq<nat>, from: nat)
    requires o.Runs(f) && Body(o.prims, s, fs, parts, 0)
    requires forall i | 0 <= i < |order| :: order[i] < |fs|
    requires from <= |fs| && !InOrder(order, from, |fs|)
    ensures Drain(f, Reader(Some(s), Picked(fs, order), from, from == |fs|)).Verdict().Rejected?
    decreases |order|
  {
    if from == |fs| {
      assert |order| > 0;
      assert |Picked(fs, order)| >= FRAME_METADATA_BYTES;
      RefusesTail(o, f, s, from, Picked(fs, order));
    } else if order == [] {
      assert o.Next(Reader(Some(s), [], from, false)).Wait?;
    } else if order[0] != from {
      RefusesFrame(o, f, s, fs[order[0]], order[0], Picked(fs, order[1..]), from);
    } else {
      TakesFrame(o, f, s, fs[from], from, Picked(fs, order[1..]), parts[from]);
      RestInOrder(order, from, |fs|);
      PickedFailsUnlessInOrder(o, f, s, fs, parts, order[1..], from + 1);
    }
  }

  lemma RestInOrder(order: seq<nat>, from: nat, n: nat)
    requires |order| > 0 && order[0] == from
    ensures InOrder(order, from, n) <==> InOrder(order[1..], from + 1, n)
  {
    if InOrder(order[1..], from + 1, n) {
      forall i | 0 <= i < |order| ensures order[i] == from + i {
        if i > 0 {
          assert order[i] == order[1..][i - 1];
        }
      }
    }
  }

  /**
    Dropping, repeating or reordering frames of an accepted stream is always noticed: of all the
    sequences that can be assembled from its header and its frames, the stream itself is the only
    one accepted.
   */
  lemma OnlyTheOriginalOrderIsAccepted(o: Opener, json: seq<byte>, fs: seq<Frame>, parts: seq<seq<byte>>, order: seq<nat>)
    requires Stream(o.prims, o.ring, json, fs, parts)
    requires forall i | 0 <= i < |order| :: order[i] < |fs|
    ensures o.Decode(HeaderBytes(json) + Picked(fs, order)).Accepted? <==> InOrder(order, 0, |fs|)
  {
    var s := ParseHeader(o.prims, o.ring, json).value;
    var f := o.Stepper();
    TakesHeader(o, f, json, Picked(fs, order));
    var d := Drain(f, Reader(Some(s), Picked(fs, order), 0, false));
    assert d.After([]).Verdict().Accepted? == d.Verdict().Accepted?;
    if InOrder(order, 0, |fs|) {
      PickedInOrder(fs, order, 0);
      StreamIsAccepted(o, json, fs, parts);
    } else {
      PickedFailsUnlessInOrder(o, f, s, fs, parts, order, 0);
    }
  }

  lemma {:induction false} PickedInOrder(fs: seq<Frame>, order: seq<nat>, from: nat)
    requires |fs| <= TWO_TO_THE_32 && from <= |fs| && InOrder(order, from, |fs|)
    requires forall i | 0 <= i < |fs| :: FrameShapeIsValid(fs[i])
    ensures Picked(fs, order) == FramesBytes(fs[from..], from)
    decreases |order|
  {
    if order != [] {
      RestInOrder(order, from, |fs|);
      PickedInOrder(fs, order[1..], from + 1);
      assert fs[from..][1..] == fs[from + 1..];
    }
  }
}
