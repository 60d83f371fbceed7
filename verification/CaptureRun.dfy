/** The capture code itself, step by step, against the state machine of CaptureProtocol. */
module CaptureRun {
  import opened Wrappers
  import opened CaptureProtocol
  import opened CaptureFencing
  import opened Runs

  /** The database, the remote store and every other process that works on them. */
  class World {
    var state: State
    ghost var events: seq<Event>
    ghost const start: State

    ghost predicate Valid()
      reads this
    {
      RunOf(Next, start, events) == Some(state)
    }

    constructor (s: State)
      ensures Valid() && state == s && start == s && events == []
    {
      state, start, events := s, s, [];
    }

    method Perform(e: Event)
      requires Valid() && Next(state, e).Some?
      modifies this
      ensures Valid() && Some(state) == Next(old(state), e) && events == old(events) + [e]
    {
      RunExtends(Next, start, events, e);
      state := Next(state, e).value;
      events := events + [e];
    }

    /** Any number of steps of the others between two steps of attempt t. */
    method Interfere(t: Token)
      requires Valid() && t in state.attempts
      modifies this
      ensures Valid() && t in state.attempts && state.attempts[t] == old(state.attempts[t])
      ensures OnlyOthers(old(events), events, t)
      ensures t in state.issued <==> t in old(state).issued
      ensures t in old(state).attempts && !Owns(old(state).record, t) ==> !Owns(state.record, t)
    {
      var steps: nat := *;
      var phase := state.attempts[t];
      while steps > 0
        invariant Valid() && t in state.attempts && state.attempts[t] == phase
        invariant OnlyOthers(old(events), events, t)
        invariant t in state.issued <==> t in old(state).issued
        invariant !Owns(old(state).record, t) ==> !Owns(state.record, t)
      {
        var e: Event := *;
        if !IsStepOf(e, t) && Next(state, e).Some? {
          OthersKeepPhase(state, e, t, Next(state, e).value);
          if !Owns(state.record, t) {
            StepKeepsSuperseded(state, e, t, Next(state, e).value);
          }
          Perform(e);
        }
        steps := steps - 1;
      }
    }

    /** Attempt t's next statement or remote call; row tells whether it found its ledger row. */
    method Send(t: Token) returns (reply: bool, row: bool)
      requires Valid() && t in state.attempts && Sends(state.attempts[t])
      modifies this
      ensures Valid() && t in state.attempts
      ensures state.attempts[t] == AfterCall(old(state.attempts[t]), reply, row)
      ensures old(events) < events && events[|events| - 1].Call?
      ensures t in state.issued <==> t in old(state).issued || old(state.attempts[t]).Publishing?
      ensures t in old(state).attempts && !Owns(old(state).record, t) ==> !Owns(state.record, t)
    {
      Interfere(t);
      var effect: bool := *;
      reply := *;
      effect := effect || reply;
      if state.attempts[t].Publishing? && !CanPublish(state, t, state.attempts[t].p) {
        effect, reply := false, false;
      }
      row := ObjectKey(t) in state.ledger;
      PhaseAfterCall(state, t, effect, reply);
      if !Owns(state.record, t) {
        StepKeepsSuperseded(state, Call(t, effect, reply), t, NextCall(state, t, effect, reply).value);
      }
      Perform(Call(t, effect, reply));
    }

    /** The record as a plain read finds it after the events of read; None when the read fails. */
    method ReadBack(t: Token) returns (found: Option<Option<Record>>, ghost read: seq<Event>)
      requires Valid() && t in state.attempts && state.attempts[t].Reading?
      modifies this
      ensures Valid() && t in state.attempts && old(events) <= read < events
      ensures IsAt(start, read, t, old(state.attempts[t]))
      ensures found.Some? ==> found.value == RunOf(Next, start, read).value.record
      ensures state.attempts[t] == AfterReading(if found.Some? then found.value else None, t, old(state.attempts[t]).p, found.Some?)
      ensures t in state.issued <==> t in old(state).issued
    {
      Interfere(t);
      read := events;
      var reply: bool := *;
      found := if reply then Some(state.record) else None;
      Perform(Call(t, true, reply));
    }

    method Put(t: Token) returns (result: PutResult)
      requires Valid() && t in state.attempts && state.attempts[t].Putting?
      modifies this
      ensures Valid() && t in state.attempts && old(events) < events
      ensures t in state.issued <==> t in old(state).issued
      ensures state.attempts[t] == AfterPut(old(state.attempts[t]), result)
    {
      Interfere(t);
      result := *;
      if result.Stored? && ObjectKey(t) !in state.objects {
        result := Failure;
      }
      Perform(Upload(t, result));
    }

    method VerifyObject(t: Token) returns (ok: bool)
      requires Valid() && t in state.attempts && state.attempts[t].Verifying?
      modifies this
      ensures Valid() && t in state.attempts && old(events) < events
      ensures t in state.issued <==> t in old(state).issued
      ensures var size, checksum := old(state.attempts[t]).size, old(state.attempts[t]).checksum;
              state.attempts[t] == if ok then Publishing(Remote(size, checksum, t)) else Deleting(Unverified, PartialOf(size, checksum))
    {
      Interfere(t);
      ok := *;
      ok := ok && ObjectKey(t) in state.objects;
      Perform(Verify(t, ok));
    }
  }

  /** After these events attempt t is at this phase. */
  ghost predicate IsAt(start: State, read: seq<Event>, t: Token, phase: Phase) {
    var s := RunOf(Next, start, read);
    s.Some? && t in s.value.attempts && s.value.attempts[t] == phase
  }

  /** After these events the record is gone, or its last commit is not this attempt's. */
  ghost predicate LastCommitIsNot(start: State, read: seq<Event>, t: Token) {
    var s := RunOf(Next, start, read);
    s.Some? && (s.value.record.None? || s.value.commits == [] || s.value.commits[|s.value.commits| - 1].attempt != t)
  }

  function AfterPut(phase: Phase, result: PutResult): Phase
    requires phase.Putting?
  {
    match result
    case Stored => Verifying(phase.size, phase.checksum)
    case Failure => Deleting(Ambiguous, PartialOf(phase.size, phase.checksum))
    case Refusal => Releasing(Refused, PartialOf(phase.size, phase.checksum))
    case NoLocator => Releasing(Nothing, LocalOnly(phase.size, phase.checksum))
  }

  predicate Sends(phase: Phase) {
    phase.Uploading? || phase.Deleting? || phase.Clearing? || phase.Releasing? || phase.Recording? || phase.Publishing?
    || phase.MarkingFailed?
  }

  function AfterCall(phase: Phase, reply: bool, row: bool): Phase
    requires Sends(phase)
  {
    match phase
    case Uploading(size, checksum) => if reply then Putting(size, checksum) else Publishing(PartialOf(size, checksum))
    case Deleting(why, p) => AfterDeleting(why, p, reply)
    case Clearing(why, p) => AfterClearing(why, p, reply, row)
    case Releasing(why, p) => AfterReleasing(why, p, reply && row)
    case Recording(why, p) => AfterRecording(why, p, reply)
    case Publishing(p) => if reply then Committed(p) else Reading(p)
    case MarkingFailed => GaveUp
  }

  lemma PhaseAfterCall(s: State, t: Token, effect: bool, reply: bool)
    requires t in s.attempts && Sends(s.attempts[t]) && (reply ==> effect)
    requires s.attempts[t].Publishing? && effect ==> CanPublish(s, t, s.attempts[t].p)
    ensures NextCall(s, t, effect, reply).Some?
    ensures NextCall(s, t, effect, reply).value.attempts[t] == AfterCall(s.attempts[t], reply, ObjectKey(t) in s.ledger)
    ensures t in NextCall(s, t, effect, reply).value.attempts
    ensures t in NextCall(s, t, effect, reply).value.issued <==> t in s.issued || s.attempts[t].Publishing?
  {
  }

  /** after extends before by events of others than t. */
  ghost predicate OnlyOthers(before: seq<Event>, after: seq<Event>, t: Token) {
    before <= after && forall i | |before| <= i < |after| :: !IsStepOf(after[i], t)
  }

  lemma OthersKeepPhase(s: State, e: Event, t: Token, s': State)
    requires Next(s, e) == Some(s') && !IsStepOf(e, t) && t in s.attempts
    ensures t in s'.attempts && s'.attempts[t] == s.attempts[t]
    ensures t in s'.issued <==> t in s.issued
  {
    if e.Call? {
      CallChangesOnePhase(s, e.t, e.effect, e.reply, s');
    }
  }

  // ------------------------------------------------------------------ the capture

  /** What the upload tells the capture; the last two are thrown. */
  datatype UploadResult = Uploaded(key: ObjectKey) | NoUpload | UploadFailed | Orphaned

  /** A failed upload call is answered by deleting the object, which may be there or come later. */
  method CompensateAmbiguousUpload(w: World, t: Token, size: nat, checksum: nat) returns (r: UploadResult)
    requires w.Valid() && t in w.state.attempts && w.state.attempts[t] == Deleting(Ambiguous, PartialOf(size, checksum))
    modifies w
    ensures w.Valid() && t in w.state.attempts && old(w.events) < w.events
    ensures t in w.state.issued <==> t in old(w.state).issued
    ensures match r
            case UploadFailed => w.state.attempts[t] == Publishing(PartialOf(size, checksum))
            case Orphaned => w.state.attempts[t] == Recording(Ambiguous, PartialOf(size, checksum))
            case _ => false
  {
    var deleted, _ := w.Send(t);
    if deleted {
      var cleared, _ := w.Send(t);
      return if cleared then UploadFailed else Orphaned;
    }
    var released, row := w.Send(t);
    return if released && row then Orphaned else UploadFailed;
  }

  /** An object that failed its verification is deleted, or left to the ledger. */
  method RemoveUnverifiedUpload(w: World, t: Token, size: nat, checksum: nat) returns (r: UploadResult)
    requires w.Valid() && t in w.state.attempts && w.state.attempts[t] == Deleting(Unverified, PartialOf(size, checksum))
    modifies w
    ensures w.Valid() && t in w.state.attempts && old(w.events) < w.events
    ensures t in w.state.issued <==> t in old(w.state).issued
    ensures match r
            case UploadFailed => w.state.attempts[t] == Publishing(PartialOf(size, checksum))
            case Orphaned => w.state.attempts[t] == Recording(Unverified, PartialOf(size, checksum))
            case _ => false
  {
    var removed, _ := w.Send(t);
    if removed {
      var cleared, _ := w.Send(t);
      removed := cleared;
    }
    if removed {
      return UploadFailed;
    }
    var _, _ := w.Send(t);
    return Orphaned;
  }

  method UploadBackupArtifactToRemote(w: World, t: Token, size: nat, checksum: nat) returns (r: UploadResult)
    requires w.Valid() && t in w.state.attempts && w.state.attempts[t] == Uploading(size, checksum)
    modifies w
    ensures w.Valid() && t in w.state.attempts && old(w.events) < w.events
    ensures t in w.state.issued <==> t in old(w.state).issued
    ensures match r
            case Uploaded(key) => key == ObjectKey(t) && w.state.attempts[t] == Publishing(Remote(size, checksum, t))
            case NoUpload => w.state.attempts[t] == Publishing(LocalOnly(size, checksum))
            case UploadFailed => w.state.attempts[t] == Publishing(PartialOf(size, checksum))
            case Orphaned =>
              w.state.attempts[t] == Recording(Ambiguous, PartialOf(size, checksum))
              || w.state.attempts[t] == Recording(Unverified, PartialOf(size, checksum))
  {
    var inserted, _ := w.Send(t);
    if !inserted {
      return UploadFailed;
    }
    var result := w.Put(t);
    if result == Failure {
      r := CompensateAmbiguousUpload(w, t, size, checksum);
      return;
    }
    if result == Refusal {
      var _, _ := w.Send(t);
      return UploadFailed;
    }
    if result == NoLocator {
      var released, row := w.Send(t);
      return if released && row then NoUpload else UploadFailed;
    }
    var verified := w.VerifyObject(t);
    if verified {
      return Uploaded(ObjectKey(t));
    }
    r := RemoveUnverifiedUpload(w, t, size, checksum);
  }

  datatype Outcome = Success(p: Publication) | Unknown | NotCommitted | NotPublished

  /** Remove the object of a commit that did not happen, or leave its row in the ledger. */
  method CompensateUncommittedRemoteBackup(w: World, t: Token)
    requires w.Valid() && t in w.state.attempts && w.state.attempts[t].Deleting? && w.state.attempts[t].why == Uncommitted
    modifies w
    ensures w.Valid() && t in w.state.attempts && w.state.attempts[t] == MarkingFailed && old(w.events) < w.events
    ensures t in w.state.issued <==> t in old(w.state).issued
  {
    var deleted, row := w.Send(t);
    if deleted {
      deleted, row := w.Send(t);
      if deleted && row {
        return;
      }
    }
    var _, _ := w.Send(t);
  }

  /** Attempt t read the record back after these events and did not find its commit. */
  ghost predicate ReadNotCommitted(start: State, read: seq<Event>, t: Token) {
    exists p :: IsAt(start, read, t, Reading(p)) && !ReadsCommitted(RunOf(Next, start, read).value.record, t, p)
  }

  method CompleteBackupAfterCapture(w: World, t: Token, size: nat, checksum: nat, hasTarget: bool)
    returns (outcome: Outcome, ghost read: seq<Event>)
    requires w.Valid() && t in w.state.attempts && w.state.attempts[t].Capturing?
    modifies w
    ensures w.Valid() && t in w.state.attempts
    ensures old(w.events) + [Captured(t, size, checksum, hasTarget)] <= w.events
    ensures match outcome
            case Success(p) => w.state.attempts[t] == Committed(p) && p.size == size && p.checksum == checksum
            case Unknown => w.state.attempts[t].OutcomeUnknown?
            case NotCommitted => w.state.attempts[t] == MarkingFailed && ReadNotCommitted(w.start, read, t) && read <= w.events
            case NotPublished => w.state.attempts[t] == MarkingFailed
    ensures t in w.state.issued <==> t in old(w.state).issued || !outcome.NotPublished?
  {
    read := [];
    var status, remoteObjectKey, pending := Completed, None, false;
    w.Perform(Captured(t, size, checksum, hasTarget));
    if hasTarget {
      var upload := UploadBackupArtifactToRemote(w, t, size, checksum);
      match upload {
        case Uploaded(key) =>
          remoteObjectKey, pending := Some(key), true;
        case NoUpload =>
        case UploadFailed =>
          status := Partial;
        case Orphaned =>
          status := Partial;
          var recorded, _ := w.Send(t);
          if !recorded {
            return NotPublished, read;
          }
          pending := true;
      }
    }
    outcome, read := CommitOrCompensate(w, t, Publication(status, size, checksum, remoteObjectKey, pending));
  }

  /** Publish; when that fails or gets no reply, read the record back and compensate if it was not committed. */
  method CommitOrCompensate(w: World, t: Token, p: Publication)
    returns (outcome: Outcome, ghost read: seq<Event>)
    requires w.Valid() && t in w.state.attempts && w.state.attempts[t] == Publishing(p)
    modifies w
    ensures w.Valid() && t in w.state.attempts && old(w.events) < w.events
    ensures match outcome
            case Success(q) => q == p && w.state.attempts[t] == Committed(p)
            case Unknown => w.state.attempts[t].OutcomeUnknown?
            case NotCommitted => w.state.attempts[t] == MarkingFailed && ReadNotCommitted(w.start, read, t) && read <= w.events
            case NotPublished => false
    ensures t in w.state.issued
  {
    read := [];
    var published, _ := w.Send(t);
    if !published {
      var current;
      current, read := w.ReadBack(t);
      if current.None? {
        return Unknown, read;
      }
      if !ReadsCommitted(current.value, t, p) {
        if p.pending {
          CompensateUncommittedRemoteBackup(w, t);
        }
        return NotCommitted, read;
      }
    }
    return Success(p), read;
  }

  /** The capture once it has taken the record over, up to its failure handler. */
  method RunBegunBackup(w: World, t: Token, size: nat, checksum: nat, hasTarget: bool)
    returns (outcome: Outcome, ghost read: seq<Event>)
    requires w.Valid() && t in w.state.attempts && w.state.attempts[t].Capturing?
    modifies w
    ensures w.Valid() && t in w.state.attempts && old(w.events) < w.events
    ensures match outcome
            case Success(p) => w.state.attempts[t] == Committed(p)
            case Unknown => w.state.attempts[t].OutcomeUnknown?
            case NotCommitted => w.state.attempts[t] == GaveUp && ReadNotCommitted(w.start, read, t) && read <= w.events
            case NotPublished => w.state.attempts[t] == GaveUp
    ensures t in w.state.issued <==> t in old(w.state).issued || !outcome.NotPublished?
  {
    read := [];
    w.Interfere(t);
    var streamed: bool := *;
    if streamed {
      outcome, read := CompleteBackupAfterCapture(w, t, size, checksum, hasTarget);
    } else {
      w.Perform(CaptureFails(t));
      outcome := NotPublished;
    }
    if outcome == NotCommitted || outcome == NotPublished {
      var _, _ := w.Send(t);
    }
  }

  /**
    A whole capture: its directory holds the only certain copy of the archive. It is kept exactly when a
    publishing transaction was issued and success is not reported; a capture that reports its transaction
    as not committed has found, when it read the record back, the record gone or another commit the last one.
   */
  method RunBackup(w: World, t: Token, size: nat, checksum: nat, hasTarget: bool)
    returns (outcome: Option<Outcome>, directoryKept: bool, ghost read: seq<Event>)
    requires w.Valid() && Initial(w.start) && t !in w.state.attempts
    modifies w
    ensures w.Valid() && Fenced(w.state)
    ensures outcome.None? <==> !CanBegin(old(w.state).record)
    ensures outcome.None? ==> w.state == old(w.state)
    ensures outcome.Some? ==> old(w.events) + [Begin(t)] <= w.events
    ensures outcome.Some? && outcome.value.Success? ==> Commit(t, outcome.value.p) in w.state.commits
    ensures outcome.Some? && !outcome.value.Success? && !outcome.value.Unknown? ==> t in w.state.attempts && w.state.attempts[t] == GaveUp
    ensures directoryKept <==> t in w.state.issued && !(outcome.Some? && outcome.value.Success?)
    ensures outcome == Some(NotCommitted) ==> read <= w.events && LastCommitIsNot(w.start, read, t)
  {
    read := [];
    NotBegunIsNotIssued(w, t);
    if !CanBegin(w.state.record) {
      WorldIsFenced(w);
      return None, false, read;
    }
    w.Perform(Begin(t));
    var result;
    result, read := RunBegunBackup(w, t, size, checksum, hasTarget);
    if result == NotCommitted {
      VerdictOfRead(w.start, read, t);
    }
    WorldIsFenced(w);
    return Some(result), result == Unknown || result == NotCommitted, read;
  }

  /**
    The same with the completion returned but not awaited: the directory is removed while the completion goes
    on, whatever its outcome, and no handler of the capture marks a failure of the completion.
   */
  method RunBackupUnawaited(w: World, t: Token, size: nat, checksum: nat, hasTarget: bool)
    returns (outcome: Option<Outcome>, directoryKept: bool)
    requires w.Valid() && Initial(w.start) && t !in w.state.attempts
    modifies w
    ensures w.Valid() && Fenced(w.state)
    ensures outcome.None? <==> !CanBegin(old(w.state).record)
    ensures outcome.None? ==> w.state == old(w.state)
    ensures !directoryKept
    ensures outcome.Some? ==> t in w.state.attempts
    ensures outcome.Some? ==>
              match outcome.value
              case Success(p) => Commit(t, p) in w.state.commits
              case Unknown => w.state.attempts[t].OutcomeUnknown?
              case NotCommitted => w.state.attempts[t] == MarkingFailed && t in w.state.issued
              case NotPublished =>
                var phase := w.state.attempts[t];
                phase.Capturing? || phase == MarkingFailed || phase == GaveUp
  {
    if !CanBegin(w.state.record) {
      WorldIsFenced(w);
      return None, false;
    }
    w.Perform(Begin(t));
    w.Interfere(t);
    var result: Outcome;
    var streamed: bool := *;
    if streamed {
      // The archive may be gone by the time that the completion looks for it, then or later.
      var found: bool := *;
      if found {
        ghost var read;
        result, read := CompleteBackupAfterCapture(w, t, size, checksum, hasTarget);
      } else {
        result := NotPublished;
      }
    } else {
      w.Perform(CaptureFails(t));
      var _, _ := w.Send(t);
      result := NotPublished;
    }
    WorldIsFenced(w);
    return Some(result), false;
  }

  lemma WorldIsFenced(w: World)
    requires w.Valid() && Initial(w.start)
    ensures Fenced(w.state)
  {
    var states := StatesOf(Next, w.start, w.events);
    FencedHolds(states, w.events, |w.events|);
  }

  /** What the read found is what the commits were. */
  lemma VerdictOfRead(start: State, read: seq<Event>, t: Token)
    requires Initial(start) && ReadNotCommitted(start, read, t)
    ensures LastCommitIsNot(start, read, t)
  {
    var p :| IsAt(start, read, t, Reading(p)) && !ReadsCommitted(RunOf(Next, start, read).value.record, t, p);
    var states := StatesOf(Next, start, read);
    VerdictIsExact(states, read, |read|, t, p);
  }

  lemma NotBegunIsNotIssued(w: World, t: Token)
    requires w.Valid() && Initial(w.start) && t !in w.state.attempts
    ensures t !in w.state.issued
  {
    var states := StatesOf(Next, w.start, w.events);
    IssuedHaveBegun(states, w.events, |w.events|);
  }

  lemma {:induction false} IssuedHaveBegun(states: seq<State>, events: seq<Event>, n: nat)
    requires IsRun(states, events) && n < |states|
    ensures forall t | t in states[n].issued :: t in states[n].attempts
    decreases n
  {
    if n > 0 {
      IssuedHaveBegun(states, events, n - 1);
      assert Next(states[n - 1], events[n - 1]) == Some(states[n]);
      StepIssues(states[n - 1], events[n - 1], states[n]);
    }
  }

  lemma StepIssues(s: State, e: Event, s': State)
    requires Next(s, e) == Some(s')
    ensures s.attempts.Keys <= s'.attempts.Keys
    ensures forall t | t in s'.issued :: t in s.issued || t in s'.attempts
  {
    if e.Call? {
      CallChangesOnePhase(s, e.t, e.effect, e.reply, s');
      CallIssues(s, e.t, e.effect, e.reply, s');
    }
  }

  lemma CallIssues(s: State, t: Token, effect: bool, reply: bool, s': State)
    requires t in s.attempts && NextCall(s, t, effect, reply) == Some(s')
    ensures s'.issued == if s.attempts[t].Publishing? then s.issued + {t} else s.issued
  {
  }
}
