/** The decrypting transform: a growing buffer from which a header and whole frames are taken. */
module BackupDecrypt {
  import opened Wrappers
  import opened Bytes
  import opened BackupFormat

  /** The reader between two frames: no session before the header is read. */
  datatype Reader = Reader(session: Option<Session>, buffer: seq<byte>, expected: nat, finalSeen: bool)
  {
    function Append(more: seq<byte>): Reader {
      this.(buffer := buffer + more)
    }
  }

  const START := Reader(None, [], 0, false)

  /** What the front of the buffer amounts to. */
  datatype Step =
    | Wait
    | Fail(error: DecodeError)
    | Take(next: Reader, plaintext: seq<byte>)
  {
    function WithTail(more: seq<byte>): Step {
      if Take? then Take(next.Append(more), plaintext) else this
    }
  }

  /** The parameters every step depends on. */
  datatype Opener = Opener(prims: Primitives, ring: Keyring)
  {
    function TakeHeader(r: Reader): Step {
      var b := r.buffer;
      if |b| < |MAGIC| + 4 then Wait
      else if b[..8] != MAGIC then Fail(BadMagic)
      else
        var n := ReadU32(b[8..]);
        if n > MAX_FRAME_SIZE then Fail(HeaderTooLarge)
        else if |b| < 12 + n then Wait
        else
          match ParseHeader(prims, ring, b[12..12 + n])
          case Err(e) => Fail(e)
          case Ok(s) => Take(r.(session := Some(s), buffer := b[12 + n..]), [])
    }

    function TakeFrame(r: Reader, s: Session): Step {
      var b := r.buffer;
      if |b| < 4 then Wait
      else if r.finalSeen then Fail(DataAfterFinalFrame)
      else
        var n := ReadU32(b);
        if n > MAX_FRAME_SIZE then Fail(FrameTooLarge)
        else if |b| < FRAME_METADATA_BYTES + n then Wait
        else
          var index := ReadU32(b[4..]);
          if b[8] != 0 && b[8] != 1 then Fail(BadFlag)
          else if index != r.expected then Fail(BadOrder)
          else
            var final := b[8] == 1;
            var end := FRAME_METADATA_BYTES + n;
            match prims.open(s.key.key, b[9..21], FrameAad(s, index, final), Sealed(b[37..end], b[21..37]))
            case None => Fail(NotAuthentic)
            case Some(p) => Take(r.(buffer := b[end..], expected := index + 1, finalSeen := final), p)
    }

    function Next(r: Reader): (step: Step)
      ensures step.Take? ==> |step.next.buffer| < |r.buffer|
    {
      match r.session
      case None => TakeHeader(r)
      case Some(s) => TakeFrame(r, s)
    }

    ghost function Stepper(): (f: Stepper)
      ensures Runs(f)
    {
      (r: Reader) => Next(r)
    }

    /** f is this opener's step function. */
    ghost predicate Runs(f: Stepper) {
      forall r {:trigger Next(r)} :: f(r) == Next(r)
    }

    /** The verdict on a whole input, given at once. */
    ghost function Decode(input: seq<byte>): Verdict {
      Drain(Stepper(), START.Append(input)).Verdict()
    }
  }

  /** A step function that consumes something whenever it takes something. */
  type Stepper = f: Reader -> Step | Shrinks(f) ghost witness r => Wait

  ghost predicate Shrinks(f: Reader -> Step) {
    forall r :: f(r).Take? ==> |f(r).next.buffer| < |r.buffer|
  }

  /** Take everything that can be taken. */
  ghost function Drain(f: Stepper, r: Reader): (d: Drained)
    decreases |r.buffer|
  {
    match f(r)
    case Wait => Drained([], Ok(r))
    case Fail(e) => Drained([], Err(e))
    case Take(next, p) => Drain(f, next).After(p)
  }

  /** The plaintext a drain emitted and the reader it left, unless it failed. */
  datatype Drained = Drained(emitted: seq<byte>, end: Result<Reader, DecodeError>)
  {
    function After(p: seq<byte>): Drained {
      Drained(p + emitted, end)
    }

    function Verdict(): Verdict {
      match end
      case Err(e) => Rejected(emitted, e)
      case Ok(r) =>
        if r.session == None then Rejected(emitted, MissingHeader)
        else if r.buffer != [] then Rejected(emitted, PartialFrame)
        else if !r.finalSeen then Rejected(emitted, MissingFinalFrame)
        else Accepted(emitted)
    }
  }

  datatype Verdict = Accepted(emitted: seq<byte>) | Rejected(emitted: seq<byte>, error: DecodeError)

  // ------------------------------------------------------------------ chunk invariance

  /** A step that can be taken or must fail is the same step when more bytes follow. */
  lemma NextIgnoresTail(o: Opener, r: Reader, more: seq<byte>)
    requires !o.Next(r).Wait?
    ensures o.Next(r.Append(more)) == o.Next(r).WithTail(more)
  {
    match r.session {
      case None => HeaderStepIgnoresTail(o, r, more);
      case Some(s) => FrameStepIgnoresTail(o, r, s, more);
    }
  }

  lemma HeaderStepIgnoresTail(o: Opener, r: Reader, more: seq<byte>)
    requires !o.TakeHeader(r).Wait?
    ensures o.TakeHeader(r.Append(more)) == o.TakeHeader(r).WithTail(more)
  {
    var b := r.buffer;
    assert (b + more)[..8] == b[..8];
    assert (b + more)[8..] == b[8..] + more;
    var n := ReadU32(b[8..]);
    if |b| >= 12 + n {
      assert (b + more)[12..12 + n] == b[12..12 + n];
      assert (b + more)[12 + n..] == b[12 + n..] + more;
    }
  }

  lemma FrameStepIgnoresTail(o: Opener, r: Reader, s: Session, more: seq<byte>)
    requires !o.TakeFrame(r, s).Wait?
    ensures o.TakeFrame(r.Append(more), s) == o.TakeFrame(r, s).WithTail(more)
  {
    var b := r.buffer;
    var end := FRAME_METADATA_BYTES + ReadU32(b);
    if |b| >= end {
      assert (b + more)[4..] == b[4..] + more;
      assert (b + more)[9..21] == b[9..21];
      assert (b + more)[21..37] == b[21..37];
      assert (b + more)[37..end] == b[37..end];
      assert (b + more)[end..] == b[end..] + more;
    }
  }

  ghost predicate IgnoresTails(f: Stepper) {
    forall r, more :: !f(r).Wait? ==> f(r.Append(more)) == f(r).WithTail(more)
  }

  lemma StepperIgnoresTails(o: Opener, f: Stepper)
    requires o.Runs(f)
    ensures IgnoresTails(f)
  {
    forall r, more | !f(r).Wait?
      ensures f(r.Append(more)) == f(r).WithTail(more)
    {
      assert f(r) == o.Next(r) && f(r.Append(more)) == o.Next(r.Append(more));
      NextIgnoresTail(o, r, more);
    }
  }

  /** What a write does to the outcome so far: nothing once it has failed. */
  ghost function Feed(f: Stepper, d: Drained, chunk: seq<byte>): Drained {
    match d.end
    case Err(_) => d
    case Ok(r) => Drain(f, r.Append(chunk)).After(d.emitted)
  }

  ghost function FeedAll(f: Stepper, d: Drained, chunks: seq<seq<byte>>): Drained
    decreases |chunks|
  {
    if chunks == [] then d else FeedAll(f, Feed(f, d, chunks[0]), chunks[1..])
  }

  lemma AfterTwice(d: Drained, p: seq<byte>, q: seq<byte>)
    ensures d.After(q).After(p) == d.After(p + q)
  {
    Regroup(p, q, d.emitted);
  }

  /** Draining, then adding bytes and draining again, is adding the bytes first. */
  lemma {:induction false} DrainThenFeed(f: Stepper, r: Reader, more: seq<byte>)
    requires IgnoresTails(f)
    ensures Feed(f, Drain(f, r), more) == Drain(f, r.Append(more))
    decreases |r.buffer|
  {
    match f(r) {
      case Wait =>
        assert Drain(f, r.Append(more)).After([]) == Drain(f, r.Append(more));
      case Fail(e) =>
      case Take(next, p) =>
        DrainThenFeed(f, next, more);
        match Drain(f, next).end {
          case Err(_) =>
          case Ok(r') =>
            AfterTwice(Drain(f, r'.Append(more)), p, Drain(f, next).emitted);
        }
    }
  }

  /** The outcome depends only on the concatenation of the chunks. */
  lemma {:induction false} ChunkInvariance(f: Stepper, input: seq<byte>, chunks: seq<seq<byte>>)
    requires IgnoresTails(f)
    ensures FeedAll(f, Drain(f, START.Append(input)), chunks) == Drain(f, START.Append(input + Concat(chunks)))
    decreases |chunks|
  {
    if chunks == [] {
      assert input + Concat(chunks) == input;
    } else {
      DrainThenFeed(f, START.Append(input), chunks[0]);
      assert START.Append(input).Append(chunks[0]) == START.Append(input + chunks[0]);
      ChunkInvariance(f, input + chunks[0], chunks[1..]);
      Regroup(input, chunks[0], Concat(chunks[1..]));
    }
  }

  // ------------------------------------------------------------------ the transform

  class BackupDecryptTransform {
    const opener: Opener
    /** The opener's step function, which the contracts below are stated with. */
    ghost const f: Stepper
    var buffer: seq<byte>
    var session: Option<Session>
    var expectedFrameIndex: nat
    var finalFrameSeen: bool
    /** Everything pushed downstream so far. */
    var output: seq<byte>

    function State(): Reader
      reads this
    {
      Reader(session, buffer, expectedFrameIndex, finalFrameSeen)
    }

    constructor (opener: Opener)
      ensures opener.Runs(f) && this.opener == opener && f == opener.Stepper()
      ensures State() == START && output == []
    {
      this.opener, f := opener, opener.Stepper();
      buffer, session, expectedFrameIndex, finalFrameSeen, output := [], None, 0, false, [];
    }

    /** What a step taken from an earlier state and output does to the fields. */
    ghost predicate Did(before: Reader, emitted: seq<byte>, more: bool, r: Option<DecodeError>)
      reads this
    {
      match f(before)
      case Wait => !more && r == None && State() == before && output == emitted
      case Fail(e) => !more && r == Some(e) && output == emitted
      case Take(next, p) => more && r == None && State() == next && output == emitted + p
    }

    /** Read the header if it is all there; more says whether frames may follow in the buffer. */
    method ReadHeader() returns (more: bool, r: Option<DecodeError>)
      requires opener.Runs(f) && session == None
      modifies this
      ensures Did(old(State()), old(output), more, r)
      ensures more ==> session.Some?
    {
      assert f(State()) == opener.Next(State());
      if |buffer| < |MAGIC| + 4 {
        return false, None;
      }
      if buffer[..8] != MAGIC {
        return false, Some(BadMagic);
      }
      var headerLength := ReadU32(buffer[8..]);
      if headerLength > MAX_FRAME_SIZE {
        return false, Some(HeaderTooLarge);
      }
      var headerEnd := 12 + headerLength;
      if |buffer| < headerEnd {
        return false, None;
      }
      var parsed := ParseHeader(opener.prims, opener.ring, buffer[12..headerEnd]);
      if parsed.Err? {
        return false, Some(parsed.error);
      }
      session := Some(parsed.value);
      buffer := buffer[headerEnd..];
      return true, None;
    }

    /** One turn of the frame loop. */
    method ReadFrame() returns (more: bool, r: Option<DecodeError>)
      requires opener.Runs(f) && session.Some? && |buffer| >= 4
      modifies this
      ensures Did(old(State()), old(output), more, r)
      ensures more ==> session.Some?
    {
      assert f(State()) == opener.Next(State());
      if finalFrameSeen {
        return false, Some(DataAfterFinalFrame);
      }
      var ciphertextLength := ReadU32(buffer);
      if ciphertextLength > MAX_FRAME_SIZE {
        return false, Some(FrameTooLarge);
      }
      var frameLength := FRAME_METADATA_BYTES + ciphertextLength;
      if |buffer| < frameLength {
        return false, None;
      }
      var frameIndex := ReadU32(buffer[4..]);
      var flag := buffer[8];
      if flag != 0 && flag != 1 {
        return false, Some(BadFlag);
      }
      var finalFrame := flag == 1;
      if frameIndex != expectedFrameIndex {
        return false, Some(BadOrder);
      }
      var plaintext := opener.prims.open(
        session.value.key.key, buffer[9..21], FrameAad(session.value, frameIndex, finalFrame),
        Sealed(buffer[37..frameLength], buffer[21..37]));
      if plaintext == None {
        return false, Some(NotAuthentic);
      }
      output := output + plaintext.value;
      expectedFrameIndex := expectedFrameIndex + 1;
      finalFrameSeen := finalFrame;
      buffer := buffer[frameLength..];
      return true, None;
    }

    /** Take the header if it is still missing, then every complete frame. */
    method DrainFrames() returns (r: Option<DecodeError>)
      requires opener.Runs(f)
      modifies this
      ensures var d := Drain(f, old(State()));
              && output == old(output) + d.emitted
              && r == (match d.end case Ok(_) => None case Err(e) => Some(e))
              && (r == None ==> d.end == Ok(State()))
    {
      var more := true;
      ghost var emitted: seq<byte> := [];
      if session == None {
        ghost var step := f(State());
        more, r := ReadHeader();
        if !more {
          return;
        }
        emitted := step.plaintext;
      }
      while |buffer| >= 4
        invariant session.Some?
        invariant output == old(output) + emitted
        invariant Drain(f, old(State())) == Drain(f, State()).After(emitted)
        decreases |buffer|
      {
        ghost var step := f(State());
        more, r := ReadFrame();
        if !more {
          return;
        }
        AfterTwice(Drain(f, step.next), emitted, step.plaintext);
        Regroup(old(output), emitted, step.plaintext);
        emitted := emitted + step.plaintext;
      }
      assert opener.Next(State()).Wait?;
      return None;
    }

    /** One write: the buffered bytes and the chunk are drained together. */
    method Transform(chunk: seq<byte>) returns (r: Option<DecodeError>)
      requires opener.Runs(f)
      modifies this
      ensures var d := Drain(f, old(State()).Append(chunk));
              && output == old(output) + d.emitted
              && r == (match d.end case Ok(_) => None case Err(e) => Some(e))
              && (r == None ==> d.end == Ok(State()))
    {
      buffer := buffer + chunk;
      r := DrainFrames();
    }

    /** End of input. */
    method Flush() returns (r: Option<DecodeError>)
      requires opener.Runs(f)
      modifies this
      ensures var d := Drain(f, old(State()));
              && output == old(output) + d.emitted
              && r == (match d.Verdict() case Accepted(_) => None case Rejected(_, e) => Some(e))
    {
      r := DrainFrames();
      if r != None {
        return;
      }
      if session == None {
        return Some(MissingHeader);
      }
      if buffer != [] {
        return Some(PartialFrame);
      }
      if !finalFrameSeen {
        return Some(MissingFinalFrame);
      }
    }
  }

  /** A pipeline over any split of the input into chunks stops at the first error. */
  method DecryptChunks(opener: Opener, chunks: seq<seq<byte>>) returns (verdict: Verdict)
    ensures verdict == opener.Decode(Concat(chunks))
  {
    var t := new BackupDecryptTransform(opener);
    ghost var f := t.f;
    ghost var d := Drained([], Ok(START));
    FeedFromStart(opener, f, chunks);
    var i := 0;
    assert chunks[i..] == chunks;
    while i < |chunks|
      invariant 0 <= i <= |chunks|
      invariant fresh(t) && t.opener == opener && t.f == f
      invariant d == Drained(t.output, Ok(t.State())) && f(t.State()).Wait?
      invariant FeedAll(f, d, chunks[i..]) == Drain(f, START.Append(Concat(chunks)))
    {
      DrainedReaderWaits(f, t.State().Append(chunks[i]));
      FeedOne(f, d, chunks, i);
      d := Feed(f, d, chunks[i]);
      var r := t.Transform(chunks[i]);
      if r != None {
        FailureIsFinal(f, d, chunks[i + 1..]);
        return Rejected(t.output, r.value);
      }
      i := i + 1;
    }
    assert chunks[i..] == [];
    var r := t.Flush();
    return if r == None then Accepted(t.output) else Rejected(t.output, r.value);
  }

  lemma FeedOne(f: Stepper, d: Drained, chunks: seq<seq<byte>>, i: nat)
    requires i < |chunks|
    ensures FeedAll(f, d, chunks[i..]) == FeedAll(f, Feed(f, d, chunks[i]), chunks[i + 1..])
  {
    assert chunks[i..][1..] == chunks[i + 1..];
  }

  /** Feeding the chunks one by one is draining all of them at once. */
  lemma FeedFromStart(o: Opener, f: Stepper, chunks: seq<seq<byte>>)
    requires o.Runs(f)
    ensures f(START).Wait?
    ensures FeedAll(f, Drained([], Ok(START)), chunks) == Drain(f, START.Append(Concat(chunks)))
  {
    StepperIgnoresTails(o, f);
    ChunkInvariance(f, [], chunks);
    StartWaits(o, f);
    assert START.Append([]) == START && [] + Concat(chunks) == Concat(chunks);
  }

  lemma StartWaits(o: Opener, f: Stepper)
    requires o.Runs(f)
    ensures f(START).Wait?
  {
    assert f(START) == o.Next(START);
  }

  lemma DrainedReaderWaits(f: Stepper, r: Reader)
    ensures Drain(f, r).end.Ok? ==> f(Drain(f, r).end.value).Wait?
    decreases |r.buffer|
  {
    if f(r).Take? {
      DrainedReaderWaits(f, f(r).next);
    }
  }

  lemma FailureIsFinal(f: Stepper, d: Drained, chunks: seq<seq<byte>>)
    requires d.end.Err?
    ensures FeedAll(f, d, chunks) == d
  {
  }
}
