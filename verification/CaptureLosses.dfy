/** Exactly which steps can lose an object, and runs in which they do. */
module CaptureLosses {
  import opened Wrappers
  import opened CaptureProtocol
  import opened CaptureFencing
  import opened CaptureConservation
  import opened Runs

  // ------------------------------------------------------------------ what careful steps can still lose

  /** All of these events are enabled one after the other, and each is careful. */
  predicate IsCareful(s: State, events: seq<Event>)
    decreases |events|
  {
    events != [] ==>
      Careful(s, events[0]) && Next(s, events[0]).Some? && IsCareful(Next(s, events[0]).value, events[1..])
  }

  function End(s: State, events: seq<Event>): State
    requires IsCareful(s, events)
    decreases |events|
  {
    if events == [] then s else End(Next(s, events[0]).value, events[1..])
  }

  /** Careful steps of everybody lead from here to an object without a name, or there is one already. */
  ghost predicate CanLose(s: State) {
    exists events :: IsCareful(s, events) && !Conserved(End(s, events))
  }

  lemma {:induction false} CarefulKeepsInv(s: State, events: seq<Event>)
    requires Inv(s) && IsCareful(s, events)
    ensures Inv(End(s, events))
    decreases |events|
  {
    if events != [] {
      StepKeepsInv(s, events[0], Next(s, events[0]).value);
      CarefulKeepsInv(Next(s, events[0]).value, events[1..]);
    }
  }

  lemma InvCannotLose(s: State)
    requires Inv(s)
    ensures !CanLose(s)
  {
    forall events | IsCareful(s, events) ensures Conserved(End(s, events)) {
      CarefulKeepsInv(s, events);
    }
  }

  /** One careful step before a loss. */
  lemma CanLoseBefore(s: State, e: Event, s': State)
    requires Careful(s, e) && Next(s, e) == Some(s') && CanLose(s')
    ensures CanLose(s)
  {
    var events :| IsCareful(s', events) && !Conserved(End(s', events));
    assert ([e] + events)[1..] == events;
    assert IsCareful(s, [e] + events) && End(s, [e] + events) == End(s', events);
  }

  lemma CanLoseNow(s: State)
    requires !Conserved(s)
    ensures CanLose(s)
  {
    assert IsCareful(s, []) && End(s, []) == s;
  }

  /** An upload lands that no row and no locator waits for. */
  lemma CanLandUnnamed(s: State, t: Token)
    requires t in s.flying && ObjectKey(t) !in s.ledger && !Names(s.record, ObjectKey(t))
    ensures CanLose(s)
  {
    var s' := Next(s, Land(t)).value;
    assert ObjectKey(t) in s'.objects;
    CanLoseNow(s');
    CanLoseBefore(s, Land(t), s');
  }

  /** A row claimed while its upload is outstanding: judged abandoned, erased and dropped before the upload lands. */
  lemma EarlyClaimCanLose(s: State, c: Token, t: Token)
    requires t in s.flying && c in s.cleaners && s.cleaners[c] == Cleaner(ObjectKey(t), Judging)
    requires Holds(s, c, ObjectKey(t)) && !Names(s.record, ObjectKey(t))
    ensures CanLose(s)
  {
    var key := ObjectKey(t);
    if DispositionOf(s.record, key) == Active {
      var failed := Next(s, FailLostJob).value;
      AbandonedClaimCanLose(failed, c, t);
      CanLoseBefore(s, FailLostJob, failed);
    } else {
      AbandonedClaimCanLose(s, c, t);
    }
  }

  lemma AbandonedClaimCanLose(s: State, c: Token, t: Token)
    requires t in s.flying && c in s.cleaners && s.cleaners[c] == Cleaner(ObjectKey(t), Judging)
    requires Holds(s, c, ObjectKey(t)) && DispositionOf(s.record, ObjectKey(t)) == Abandoned
    ensures CanLose(s)
  {
    var judged := Next(s, Judge(c)).value;
    var erased := Next(judged, CleanerCall(c, true, true)).value;
    var dropped := Next(erased, CleanerCall(c, true, true)).value;
    assert judged.cleaners[c].phase == Erasing && erased.cleaners[c].phase == Dropping;
    CanLandUnnamed(dropped, t);
    CanLoseBefore(erased, CleanerCall(c, true, true), dropped);
    CanLoseBefore(judged, CleanerCall(c, true, true), erased);
    CanLoseBefore(s, Judge(c), judged);
  }

  /** A row cleared after a confirmed deletion, before the upload lands. */
  lemma EarlyClearCanLose(s: State, t: Token)
    requires t in s.flying && t in s.attempts && s.attempts[t].Clearing? && !Names(s.record, ObjectKey(t))
    ensures CanLose(s)
  {
    var cleared := Next(s, Call(t, true, true)).value;
    CanLandUnnamed(cleared, t);
    CanLoseBefore(s, Call(t, true, true), cleared);
  }

  lemma FlightIsUnnamed(s: State, t: Token)
    requires Inv(s) && t in s.flying
    ensures !Names(s.record, ObjectKey(t))
  {
    assert PublishedHasLanded(s);
  }

  /** A commit over the locator of an object that is there leaves it without any name, or with a row about to go. */
  lemma OverwritingLoses(s: State, e: Event, s': State)
    requires Inv(s) && Next(s, e) == Some(s') && !OverwritesNothing(s, e)
    ensures CanLose(s')
  {
    var previous := s.record.value.remoteKey.value;
    CommitAddsOne(s, e, s');
    OverwrittenIsUnnamed(s, e, s');
    if previous !in s.ledger {
      assert previous in s'.objects && previous !in s'.ledger && !Names(s'.record, previous);
      CanLoseNow(s');
    } else {
      var c :| c in s.cleaners && IsAboutToDrop(s, c, previous);
      assert Holds(s', c, previous) && s'.cleaners[c] == Cleaner(previous, Dropping);
      var dropped := Next(s', CleanerCall(c, true, true)).value;
      assert previous in dropped.objects && previous !in dropped.ledger && !Names(dropped.record, previous);
      CanLoseNow(dropped);
      CanLoseBefore(s', CleanerCall(c, true, true), dropped);
    }
  }

  lemma OverwrittenIsUnnamed(s: State, e: Event, s': State)
    requires Next(s, e) == Some(s') && !OverwritesNothing(s, e)
    ensures var previous := s.record.value.remoteKey.value;
            && !Names(s'.record, previous) && s'.objects == s.objects && s'.cleaners == s.cleaners
            && (previous in s.ledger <==> previous in s'.ledger) && (previous in s.ledger ==> s'.ledger[previous] == s.ledger[previous])
  {
  }

  /**
    From every state that careful steps lead to, a step leaves an object that careful steps can lose
    exactly when it is not careful itself: when it commits over the locator of a stored object, unless a row
    that nobody is about to drop keeps it, claims a row while its upload is outstanding, or has a deletion
    confirmed while the upload is outstanding.
   */
  lemma LosesExactly(s: State, e: Event, s': State)
    requires Inv(s) && Next(s, e) == Some(s')
    ensures CanLose(s') <==> !Careful(s, e)
  {
    if Careful(s, e) {
      StepKeepsInv(s, e, s');
      InvCannotLose(s');
    } else if !OverwritesNothing(s, e) {
      OverwritingLoses(s, e, s');
    } else if e.ClaimOrphan? {
      FlightIsUnnamed(s, e.key.attempt);
      assert e.key == ObjectKey(e.key.attempt);
      EarlyClaimCanLose(s', e.cleaner, e.key.attempt);
    } else {
      FlightIsUnnamed(s, e.t);
      EarlyClearCanLose(s', e.t);
    }
  }

  /** A run is safe, with whatever careful steps may follow, exactly when all of its steps are careful. */
  lemma RunIsSafeExactly(states: seq<State>, events: seq<Event>)
    requires IsRun(states, events)
    ensures (forall n | 0 <= n < |states| :: !CanLose(states[n])) <==> Benign(states, events)
  {
    if Benign(states, events) {
      forall n | 0 <= n < |states| ensures !CanLose(states[n]) {
        InvHolds(states, events, n);
        InvCannotLose(states[n]);
      }
    } else {
      var n := FirstCarelessStep(states, events, |events|);
      InvHolds(states, events, n);
      LosesExactly(states[n], events[n], states[n + 1]);
    }
  }

  lemma {:induction false} FirstCarelessStep(states: seq<State>, events: seq<Event>, n: nat) returns (first: nat)
    requires |states| == |events| + 1 && n <= |events|
    requires exists i {:trigger events[i]} | 0 <= i < n :: !Careful(states[i], events[i])
    ensures first < n && !Careful(states[first], events[first])
    ensures forall i {:trigger events[i]} | 0 <= i < first :: Careful(states[i], events[i])
    decreases n
  {
    if i {:trigger events[i]} :| 0 <= i < n - 1 && !Careful(states[i], events[i]) {
      first := FirstCarelessStep(states, events, n - 1);
    } else {
      first := n - 1;
    }
  }

  // ------------------------------------------------------------------ runs that lose an object

  function Fresh(): State {
    State(Some(Record(Queued, None, None, None, None, None, false)), map[], {}, {}, map[], {}, map[], map[], 0, {}, [])
  }

  /** Neither time passes nor a job is given up nor a reconciler comes by. */
  predicate IsPlain(e: Event) {
    !e.Tick? && !e.FailLostJob? && !e.ClaimOrphan?
  }

  lemma Then(events: seq<Event>, s: State, e: Event) returns (events': seq<Event>, s': State)
    requires RunOf(Next, Fresh(), events) == Some(s) && Next(s, e).Some?
    ensures events' == events + [e] && Next(s, e) == Some(s') && RunOf(Next, Fresh(), events') == Some(s')
  {
    RunExtends(Next, Fresh(), events, e);
    events', s' := events + [e], Next(s, e).value;
  }

  /** An undisturbed capture up to its upload request. */
  lemma CaptureUpToUpload(events0: seq<Event>, s0: State, t: Token) returns (events: seq<Event>, s: State)
    requires RunOf(Next, Fresh(), events0) == Some(s0) && t !in s0.attempts && CanBegin(s0.record)
    requires forall e | e in events0 :: IsPlain(e)
    ensures RunOf(Next, Fresh(), events) == Some(s) && forall e | e in events :: IsPlain(e)
    ensures s == s0.(record := Some(BeginRecord(s0.record.value, t)), flying := s0.flying + {t},
                     ledger := s0.ledger[ObjectKey(t) := HeldByOwner(s0.now)], attempts := s0.attempts[t := Putting(1, 1)],
                     leased := s0.leased + {t})
  {
    events, s := Then(events0, s0, Begin(t));
    events, s := Then(events, s, Captured(t, 1, 1, true));
    events, s := Then(events, s, Call(t, true, true));
  }

  lemma UploadUpToPublish(events0: seq<Event>, s0: State, t: Token) returns (events: seq<Event>, s: State)
    requires RunOf(Next, Fresh(), events0) == Some(s0) && t in s0.attempts && s0.attempts[t] == Putting(1, 1)
    requires t in s0.flying && forall e | e in events0 :: IsPlain(e)
    ensures RunOf(Next, Fresh(), events) == Some(s) && forall e | e in events :: IsPlain(e)
    ensures s == s0.(objects := s0.objects + {ObjectKey(t)}, flying := s0.flying - {t},
                     attempts := s0.attempts[t := Publishing(Remote(1, 1, t))])
  {
    events, s := Then(events0, s0, Land(t));
    events, s := Then(events, s, Upload(t, Stored));
    events, s := Then(events, s, Verify(t, true));
  }

  /** The rest of an undisturbed capture. */
  lemma UploadUpToCommit(events0: seq<Event>, s0: State, t: Token) returns (events: seq<Event>, s: State)
    requires RunOf(Next, Fresh(), events0) == Some(s0) && t in s0.attempts && s0.attempts[t] == Putting(1, 1)
    requires MayCommit(s0, t) && CanBegin(s0.record) && t in s0.flying && ObjectKey(t) in s0.ledger
    requires forall e | e in events0 :: IsPlain(e)
    ensures RunOf(Next, Fresh(), events) == Some(s) && forall e | e in events :: IsPlain(e)
    ensures s.record == Some(PublishRecord(s0.record.value, t, Remote(1, 1, t)))
    ensures s.objects == s0.objects + {ObjectKey(t)} && s.ledger == s0.ledger - {ObjectKey(t)}
    ensures s.attempts.Keys == s0.attempts.Keys
  {
    events, s := UploadUpToPublish(events0, s0, t);
    events, s := Then(events, s, Call(t, true, true));
  }

  /** A second committed capture of the same record leaves the first one's object without a name. */
  lemma SecondCommitLosesTheFirstObject() returns (events: seq<Event>, s: State)
    ensures RunOf(Next, Fresh(), events) == Some(s) && !Conserved(s)
    ensures forall e | e in events :: IsPlain(e)
  {
    events, s := CaptureUpToUpload([], Fresh(), 1);
    events, s := UploadUpToCommit(events, s, 1);
    events, s := CaptureUpToUpload(events, s, 2);
    events, s := UploadUpToCommit(events, s, 2);
    assert ObjectKey(1) in s.objects && ObjectKey(1) !in s.ledger && !Names(s.record, ObjectKey(1));
  }

  /** A reconciler takes the row of an abandoned object, deletes the object, and drops the row. */
  lemma CleanUp(events0: seq<Event>, s0: State, c: Token, key: ObjectKey) returns (events: seq<Event>, s: State)
    requires RunOf(Next, Fresh(), events0) == Some(s0) && c !in s0.cleaners
    requires key in s0.ledger && CanClaim(s0.ledger[key], s0.now) && DispositionOf(s0.record, key) == Abandoned
    ensures RunOf(Next, Fresh(), events) == Some(s)
    ensures s.ledger == s0.ledger - {key} && s.objects == s0.objects - {key} && s.record == s0.record
    ensures s.flying == s0.flying && s.commits == s0.commits
  {
    events, s := Then(events0, s0, ClaimOrphan(c, key));
    events, s := Then(events, s, Judge(c));
    events, s := Then(events, s, CleanerCall(c, true, true));
    events, s := Then(events, s, CleanerCall(c, true, true));
  }

  lemma JobIsGivenUp(events0: seq<Event>, s0: State) returns (events: seq<Event>, s: State)
    requires RunOf(Next, Fresh(), events0) == Some(s0) && s0.record.Some? && s0.record.value.status == Running
    ensures RunOf(Next, Fresh(), events) == Some(s)
    ensures s == s0.(record := Some(s0.record.value.(status := Failed)), leased := {}, now := s0.now + CLAIM_STALE_MS + 1)
  {
    events, s := Then(events0, s0, FailLostJob);
    events, s := Then(events, s, Tick(CLAIM_STALE_MS + 1));
  }

  /**
    An upload that outlives the claim of its write intent, in a capture whose job was given up:
    the reconciler removes the obligation, then the object appears.
   */
  lemma LateUploadLosesTheObject() returns (events: seq<Event>, s: State)
    ensures RunOf(Next, Fresh(), events) == Some(s) && !Conserved(s) && s.commits == []
  {
    events, s := CaptureUpToUpload([], Fresh(), 1);
    events, s := JobIsGivenUp(events, s);
    events, s := CleanUp(events, s, 7, ObjectKey(1));
    events, s := Then(events, s, Land(1));
    assert ObjectKey(1) in s.objects && ObjectKey(1) !in s.ledger;
  }

  lemma FailureUpToClear(events0: seq<Event>, s0: State, t: Token) returns (events: seq<Event>, s: State)
    requires RunOf(Next, Fresh(), events0) == Some(s0) && t in s0.attempts && s0.attempts[t] == Putting(1, 1)
    requires forall e | e in events0 :: IsPlain(e)
    ensures RunOf(Next, Fresh(), events) == Some(s) && forall e | e in events :: IsPlain(e)
    ensures s.ledger == s0.ledger - {ObjectKey(t)} && s.record == s0.record
    ensures s.flying == s0.flying && s.commits == s0.commits
  {
    events, s := Then(events0, s0, Upload(t, Failure));
    events, s := Then(events, s, Call(t, true, true));
    events, s := Then(events, s, Call(t, true, true));
  }

  /**
    An upload call that fails while its request is still on the way: the deletion that answers it is
    confirmed and the row cleared, then the object appears.
   */
  lemma FailedUploadLosesTheObject() returns (events: seq<Event>, s: State)
    ensures RunOf(Next, Fresh(), events) == Some(s) && !Conserved(s) && s.commits == []
    ensures forall e | e in events :: IsPlain(e)
  {
    events, s := CaptureUpToUpload([], Fresh(), 1);
    events, s := FailureUpToClear(events, s, 1);
    events, s := Then(events, s, Land(1));
    assert ObjectKey(1) in s.objects && ObjectKey(1) !in s.ledger;
  }

  lemma AbortedUpToReading() returns (events: seq<Event>, s: State)
    ensures RunOf(Next, Fresh(), events) == Some(s) && forall e | e in events :: IsPlain(e)
    ensures s.issued == {1} && s.commits == [] && s.late == map[] && s.objects == {}
    ensures 1 in s.attempts && s.attempts[1] == Reading(LocalOnly(1, 1)) && s.record.Some? && s.record.value.committed.None?
  {
    events, s := Then([], Fresh(), Begin(1));
    events, s := Then(events, s, Captured(1, 1, 1, false));
    events, s := Then(events, s, Call(1, false, false));
    events, s := Then(events, s, Abort(1));
    assert s.late == map[];
  }

  /**
    A local capture whose publishing transaction is aborted: the attempt's directory is the only place that
    has the archive.
   */
  lemma OnlyTheDirectoryHasTheArchive() returns (events: seq<Event>, s: State)
    ensures RunOf(Next, Fresh(), events) == Some(s) && forall e | e in events :: IsPlain(e)
    ensures s.issued == {1} && s.commits == [] && s.late == map[] && s.objects == {}
    ensures 1 in s.attempts && s.attempts[1] == MarkingFailed
  {
    events, s := AbortedUpToReading();
    events, s := Then(events, s, Call(1, true, true));
  }
}
