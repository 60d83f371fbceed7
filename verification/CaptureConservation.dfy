/** No remote object is ever lost sight of during the capture of a backup. */
module CaptureConservation {
  import opened Wrappers
  import opened CaptureProtocol
  import opened CaptureFencing
  import opened Runs

  /** The record's committed locator is this key. */
  predicate Names(record: Option<Record>, key: ObjectKey) {
    record.Some? && record.value.remoteKey == Some(key) && record.value.committed == Some(key.attempt)
  }

  /** Every stored object is named by a ledger row or is the committed locator of the record. */
  predicate Conserved(s: State) {
    forall key | key in s.objects :: key in s.ledger || Names(s.record, key)
  }

  /** A cleaner that judged the key's row settled still holds it and is about to drop it. */
  predicate IsAboutToDrop(s: State, c: Token, key: ObjectKey) {
    c in s.cleaners && s.cleaners[c] == Cleaner(key, Dropping) && Holds(s, c, key)
  }

  /** This commit leaves a stored object that is in no ledger row, or in one that is about to be dropped. */
  predicate LeavesNameless(s: State, p: Publication) {
    && s.record.Some? && s.record.value.remoteKey.Some?
    && var previous := s.record.value.remoteKey.value;
       && previous in s.objects && p.remoteKey != Some(previous)
       && (previous !in s.ledger || exists c | c in s.cleaners :: IsAboutToDrop(s, c, previous))
  }

  /** The event is not a commit that takes an object's only lasting name away. */
  predicate OverwritesNothing(s: State, e: Event) {
    Commits(s, e) ==> !LeavesNameless(s, CommitOf(s, e))
  }

  /**
    No ledger row is claimed for clean-up, and no deletion of an attempt's own object is confirmed, while
    the attempt's upload request may still take effect.
   */
  predicate WaitsForUpload(s: State, e: Event) {
    match e
    case ClaimOrphan(_, key) => key.attempt !in s.flying
    case Call(t, _, reply) => t in s.attempts && s.attempts[t].Deleting? && reply ==> t !in s.flying
    case _ => true
  }

  /** A step that gives up no obligation too early and takes no name away. */
  predicate Careful(s: State, e: Event) {
    WaitsForUpload(s, e) && OverwritesNothing(s, e)
  }

  /** The attempt has passed the point where it inserts its write intent. */
  predicate Started(s: State, t: Token) {
    t in s.attempts && !s.attempts[t].Capturing? && !s.attempts[t].Uploading?
  }

  predicate ObjectsAreNamed(s: State) {
    forall key | key in s.objects :: Started(s, key.attempt) && (key in s.ledger || Names(s.record, key))
  }

  predicate LedgerIsStarted(s: State) {
    forall key | key in s.ledger :: Started(s, key.attempt)
  }

  /** While its upload is outstanding an attempt neither clears its row nor publishes its locator. */
  predicate CoversFlight(phase: Phase) {
    || phase.Putting? || phase.MarkingFailed? || phase.GaveUp?
    || (CarriesPublication(phase) && !phase.Clearing? && phase.p.remoteKey.None?)
  }

  /** The attempt has not gone past the deletion with which it answers a failed upload call. */
  predicate AwaitsAnswer(phase: Phase) {
    phase.Putting? || (phase.Deleting? && phase.why == Ambiguous)
  }

  predicate FlightIsCovered(s: State, t: Token) {
    && t in s.attempts && CoversFlight(s.attempts[t]) && ObjectKey(t) in s.ledger
    && (AwaitsAnswer(s.attempts[t]) ==> s.ledger[ObjectKey(t)].HeldByOwner?)
  }

  predicate FlightsAreCovered(s: State) {
    forall t | t in s.flying :: FlightIsCovered(s, t)
  }

  predicate ClearedAreGone(s: State) {
    forall t | t in s.attempts && s.attempts[t].Clearing? :: ObjectKey(t) !in s.objects
  }

  predicate CleanerIsSafe(s: State, c: Token)
    requires c in s.cleaners
  {
    var key := s.cleaners[c].key;
    && Started(s, key.attempt)
    && key.attempt !in s.flying
    && (IsAboutToDrop(s, c, key) ==> key !in s.objects || Names(s.record, key))
  }

  predicate CleanersAreSafe(s: State) {
    forall c | c in s.cleaners && s.cleaners[c].phase != Idle :: CleanerIsSafe(s, c)
  }

  predicate CarriesPublication(phase: Phase) {
    phase.Deleting? || phase.Clearing? || phase.Releasing? || phase.Recording? || phase.Publishing? || phase.Reading?
    || phase.Committed? || phase.OutcomeUnknown?
  }

  predicate LocatorIsOwn(phase: Phase, t: Token) {
    CarriesPublication(phase) && phase.p.remoteKey.Some? ==> phase.p.remoteKey == Some(ObjectKey(t)) && phase.p.pending
  }

  predicate LocatorsAreOwn(s: State) {
    && (forall t | t in s.attempts :: LocatorIsOwn(s.attempts[t], t))
    && (forall t | t in s.late :: LocatorIsOwn(Publishing(s.late[t]), t))
    && (s.record.Some? && s.record.value.remoteKey.Some? ==>
          s.record.value.committed == Some(s.record.value.remoteKey.value.attempt))
  }

  /** What is published, or may yet be by a transaction that got no reply, is no longer being uploaded. */
  predicate PublishedHasLanded(s: State) {
    && (forall t | t in s.late :: Started(s, t) && (s.late[t].remoteKey.Some? ==> t !in s.flying))
    && (s.record.Some? && s.record.value.remoteKey.Some? ==>
          Started(s, s.record.value.remoteKey.value.attempt) && s.record.value.remoteKey.value.attempt !in s.flying)
  }

  /** Every object, row, outstanding upload and cleaner is accounted for. */
  predicate Accounted(s: State) {
    && ObjectsAreNamed(s) && LedgerIsStarted(s) && FlightsAreCovered(s) && ClearedAreGone(s) && CleanersAreSafe(s)
    && PublishedHasLanded(s)
  }

  predicate Inv(s: State) {
    Accounted(s) && LocatorsAreOwn(s)
  }

  // ------------------------------------------------------------------ locators are own in every run

  lemma GivingUpLocatorStaysOwn(s: State, t: Token, effect: bool, reply: bool, s': State)
    requires t in s.attempts && LocatorIsOwn(s.attempts[t], t) && NextCall(s, t, effect, reply) == Some(s')
    requires GivesUp(s.attempts[t])
    ensures LocatorIsOwn(s'.attempts[t], t)
  {
    match s.attempts[t] {
      case Deleting(_, _) =>
      case Clearing(_, _) =>
      case Releasing(_, _) =>
      case Recording(_, _) =>
    }
  }

  lemma CallLocatorStaysOwn(s: State, t: Token, effect: bool, reply: bool, s': State)
    requires t in s.attempts && LocatorIsOwn(s.attempts[t], t) && NextCall(s, t, effect, reply) == Some(s')
    ensures LocatorIsOwn(s'.attempts[t], t)
  {
    if GivesUp(s.attempts[t]) {
      GivingUpLocatorStaysOwn(s, t, effect, reply, s');
    } else {
      match s.attempts[t] {
        case Uploading(_, _) =>
        case Publishing(_) =>
        case Reading(_) =>
        case MarkingFailed =>
      }
    }
  }

  /** A call leaves transactions without reply alone, or adds the attempt's own. */
  lemma CallChangesOwnLate(s: State, t: Token, effect: bool, reply: bool, s': State)
    requires t in s.attempts && NextCall(s, t, effect, reply) == Some(s')
    ensures s'.late == if s.attempts[t].Publishing? && !effect then s.late[t := s.attempts[t].p] else s.late
  {
  }

  lemma CallKeepsLocators(s: State, t: Token, effect: bool, reply: bool, s': State)
    requires LocatorsAreOwn(s) && t in s.attempts && NextCall(s, t, effect, reply) == Some(s')
    ensures LocatorsAreOwn(s')
  {
    CallChangesOnePhase(s, t, effect, reply, s');
    assert LocatorIsOwn(s.attempts[t], t);
    CallLocatorStaysOwn(s, t, effect, reply, s');
    CallChangesOwnLate(s, t, effect, reply, s');
    if !(s.attempts[t].Publishing? && effect) {
      CallChangesRecordOnlyToFail(s, t, effect, reply, s');
    }
  }

  lemma AttemptKeepsLocators(s: State, e: Event, s': State)
    requires LocatorsAreOwn(s) && Next(s, e) == Some(s')
    requires e.Begin? || e.Captured? || e.CaptureFails? || e.Verify? || e.Upload?
    ensures LocatorsAreOwn(s')
  {
    AttemptChangesOnePhase(s, e, s');
    assert forall t | t in s'.attempts && t != e.t :: t in s.attempts && s'.attempts[t] == s.attempts[t];
  }

  lemma UploadChangesOnePhase(s: State, t: Token, result: PutResult, s': State)
    requires t in s.attempts && s.attempts[t].Putting? && NextUpload(s, t, result) == Some(s')
    ensures t in s'.attempts && LocatorIsOwn(s'.attempts[t], t)
    ensures s'.ledger == s.ledger && s'.late == s.late && s'.attempts == s.attempts[t := s'.attempts[t]] && s'.record == s.record
  {
    match result {
      case Stored =>
      case Failure =>
      case Refusal =>
      case NoLocator =>
    }
  }

  lemma AttemptChangesOnePhase(s: State, e: Event, s': State)
    requires Next(s, e) == Some(s')
    requires e.Begin? || e.Captured? || e.CaptureFails? || e.Verify? || e.Upload?
    ensures e.t in s'.attempts && LocatorIsOwn(s'.attempts[e.t], e.t)
    ensures s'.ledger == s.ledger && s'.late == s.late && s'.attempts == s.attempts[e.t := s'.attempts[e.t]]
    ensures e.Begin? || s'.record == s.record
    ensures e.t in s.attempts ==> !CarriesPublication(s.attempts[e.t])
  {
    match e {
      case Begin(_) =>
      case Captured(_, _, _, _) =>
      case CaptureFails(_) =>
      case Verify(_, _) =>
      case Upload(t, result) => UploadChangesOnePhase(s, t, result, s');
    }
  }

  lemma CleanerKeepsLocators(s: State, e: Event, s': State)
    requires LocatorsAreOwn(s) && Next(s, e) == Some(s') && (e.ClaimOrphan? || e.Judge? || e.CleanerCall?)
    ensures LocatorsAreOwn(s')
  {
    QuietCleanerStep(s, e, s');
    assert s'.late == s.late;
  }

  lemma OtherKeepsLocators(s: State, e: Event, s': State)
    requires LocatorsAreOwn(s) && NextOther(s, e) == Some(s')
    ensures LocatorsAreOwn(s')
  {
    assert s'.attempts == s.attempts;
  }

  /** In every run a committed locator is its committer's own. */
  lemma StepKeepsLocators(s: State, e: Event, s': State)
    requires LocatorsAreOwn(s) && Next(s, e) == Some(s')
    ensures LocatorsAreOwn(s')
  {
    if e.Call? {
      CallKeepsLocators(s, e.t, e.effect, e.reply, s');
    } else if e.Begin? || e.Captured? || e.CaptureFails? || e.Verify? || e.Upload? {
      AttemptKeepsLocators(s, e, s');
    } else if e.ClaimOrphan? || e.Judge? || e.CleanerCall? {
      CleanerKeepsLocators(s, e, s');
    } else {
      OtherKeepsLocators(s, e, s');
    }
  }

  lemma {:induction false} LocatorsAreOwnIn(states: seq<State>, events: seq<Event>, n: nat)
    requires IsRun(states, events) && n < |states|
    ensures LocatorsAreOwn(states[n])
    decreases n
  {
    if n > 0 {
      LocatorsAreOwnIn(states, events, n - 1);
      assert Next(states[n - 1], events[n - 1]) == Some(states[n]);
      StepKeepsLocators(states[n - 1], events[n - 1], states[n]);
    }
  }

  // ------------------------------------------------------------------ what careful steps keep

  lemma InsertKeepsAccounts(s: State, t: Token, effect: bool, reply: bool, s': State)
    requires Inv(s) && t in s.attempts && s.attempts[t].Uploading? && NextCall(s, t, effect, reply) == Some(s')
    ensures Accounted(s')
  {
    assert ObjectKey(t) !in s.objects && ObjectKey(t) !in s.ledger;
    assert forall u | Started(s, u) :: Started(s', u);
  }

  lemma DeleteKeepsAccounts(s: State, t: Token, effect: bool, reply: bool, s': State)
    requires Inv(s) && t in s.attempts && s.attempts[t].Deleting? && NextCall(s, t, effect, reply) == Some(s')
    requires reply ==> t !in s.flying
    ensures Accounted(s')
  {
    assert forall u :: Started(s', u) == Started(s, u);
  }

  lemma ClearKeepsAccounts(s: State, t: Token, effect: bool, reply: bool, s': State)
    requires Inv(s) && t in s.attempts && s.attempts[t].Clearing? && NextCall(s, t, effect, reply) == Some(s')
    ensures Accounted(s')
  {
    assert forall u :: Started(s', u) == Started(s, u);
    assert t !in s.flying && ObjectKey(t) !in s.objects;
  }

  lemma ReleaseKeepsAccounts(s: State, t: Token, effect: bool, reply: bool, s': State)
    requires Inv(s) && t in s.attempts && s.attempts[t].Releasing? && NextCall(s, t, effect, reply) == Some(s')
    ensures Accounted(s')
  {
    assert forall u :: Started(s', u) == Started(s, u);
  }

  lemma RecordKeepsAccounts(s: State, t: Token, effect: bool, reply: bool, s': State)
    requires Inv(s) && t in s.attempts && s.attempts[t].Recording? && NextCall(s, t, effect, reply) == Some(s')
    ensures Accounted(s')
  {
    assert forall u :: Started(s', u) == Started(s, u);
  }

  /** A commit over nothing that would be left nameless; the published upload is over. */
  lemma CommitKeepsAccounts(s: State, t: Token, p: Publication)
    requires Inv(s) && CanPublish(s, t, p) && LocatorIsOwn(Publishing(p), t) && !LeavesNameless(s, p)
    requires Started(s, t) && (p.remoteKey.Some? ==> t !in s.flying)
    ensures Accounted(PublishState(s, t, p))
  {
    var s' := PublishState(s, t, p);
    CommitKeepsNames(s, t, p);
    forall d | d in s'.cleaners && s'.cleaners[d].phase != Idle ensures CleanerIsSafe(s', d) {
      assert CleanerIsSafe(s, d);
      assert IsAboutToDrop(s', d, s'.cleaners[d].key) ==> IsAboutToDrop(s, d, s.cleaners[d].key);
    }
  }

  lemma CommitKeepsNames(s: State, t: Token, p: Publication)
    requires Inv(s) && CanPublish(s, t, p) && LocatorIsOwn(Publishing(p), t) && !LeavesNameless(s, p)
    ensures ObjectsAreNamed(PublishState(s, t, p))
  {
    var s' := PublishState(s, t, p);
    forall key | key in s'.objects ensures Started(s', key.attempt) && (key in s'.ledger || Names(s'.record, key)) {
      assert Started(s, key.attempt);
      if p.remoteKey != Some(key) && Names(s.record, key) {
        assert key in s.ledger;
      }
    }
  }

  /** A change of one attempt's phase that starts no upload and covers what may be outstanding. */
  lemma PhaseKeepsAccounts(s: State, t: Token, s': State)
    requires Accounted(s) && Started(s, t) && t in s'.attempts
    requires s' == s.(attempts := s.attempts[t := s'.attempts[t]], issued := s'.issued, late := s'.late)
    requires s'.attempts[t].Reading? || s'.attempts[t].Committed?
    requires LocatorIsOwn(s'.attempts[t], t) && (t in s.flying ==> s'.attempts[t].p.remoteKey.None?)
    requires forall u | u in s'.late :: (u in s.late && s'.late[u] == s.late[u]) || (u == t && s'.late[t] == s'.attempts[t].p)
    ensures Accounted(s')
  {
    assert forall u :: Started(s', u) == Started(s, u);
    forall d | d in s'.cleaners && s'.cleaners[d].phase != Idle ensures CleanerIsSafe(s', d) {
      assert CleanerIsSafe(s, d);
    }
    forall u | u in s'.flying ensures FlightIsCovered(s', u) {
      assert FlightIsCovered(s, u);
    }
  }

  lemma PublishKeepsAccounts(s: State, t: Token, effect: bool, reply: bool, s': State)
    requires Inv(s) && t in s.attempts && s.attempts[t].Publishing? && NextCall(s, t, effect, reply) == Some(s')
    requires OverwritesNothing(s, Call(t, effect, reply))
    ensures Accounted(s')
  {
    var p := s.attempts[t].p;
    assert LocatorIsOwn(s.attempts[t], t);
    assert t in s.flying ==> FlightIsCovered(s, t);
    if effect {
      CommitKeepsAccounts(s, t, p);
      PhaseKeepsAccounts(PublishState(s, t, p), t, s');
    } else {
      PhaseKeepsAccounts(s, t, s');
    }
  }

  lemma LateCommitKeepsAccounts(s: State, t: Token, s': State)
    requires Inv(s) && NextOther(s, LateCommit(t)) == Some(s') && !LeavesNameless(s, s.late[t])
    ensures Accounted(s')
  {
    CommitKeepsAccounts(s, t, s.late[t]);
    LateEndsKeepsAccounts(PublishState(s, t, s.late[t]), t);
  }

  lemma LateEndsKeepsAccounts(s: State, t: Token)
    requires Accounted(s)
    ensures Accounted(s.(late := s.late - {t}))
  {
    var s' := s.(late := s.late - {t});
    assert forall u :: Started(s', u) == Started(s, u);
    forall d | d in s'.cleaners && s'.cleaners[d].phase != Idle ensures CleanerIsSafe(s', d) {
      assert CleanerIsSafe(s, d);
    }
    forall u | u in s'.flying ensures FlightIsCovered(s', u) {
      assert FlightIsCovered(s, u);
    }
  }

  lemma ReadKeepsAccounts(s: State, t: Token, effect: bool, reply: bool, s': State)
    requires Inv(s) && t in s.attempts && (s.attempts[t].Reading? || s.attempts[t].MarkingFailed?)
    requires NextCall(s, t, effect, reply) == Some(s')
    ensures Accounted(s')
  {
    assert forall u :: Started(s', u) == Started(s, u);
    assert forall key :: Names(s'.record, key) == Names(s.record, key);
  }

  lemma CallKeepsAccounts(s: State, t: Token, effect: bool, reply: bool, s': State)
    requires Inv(s) && t in s.attempts && NextCall(s, t, effect, reply) == Some(s')
    requires Careful(s, Call(t, effect, reply))
    ensures Accounted(s')
  {
    match s.attempts[t] {
      case Uploading(_, _) => InsertKeepsAccounts(s, t, effect, reply, s');
      case Deleting(_, _) => DeleteKeepsAccounts(s, t, effect, reply, s');
      case Clearing(_, _) => ClearKeepsAccounts(s, t, effect, reply, s');
      case Releasing(_, _) => ReleaseKeepsAccounts(s, t, effect, reply, s');
      case Recording(_, _) => RecordKeepsAccounts(s, t, effect, reply, s');
      case Publishing(_) => PublishKeepsAccounts(s, t, effect, reply, s');
      case Reading(_) => ReadKeepsAccounts(s, t, effect, reply, s');
      case MarkingFailed => ReadKeepsAccounts(s, t, effect, reply, s');
    }
  }

  /** A step to another phase, with no more uploads outstanding than before. */
  lemma MoveKeepsAccounts(s: State, t: Token, s': State)
    requires Accounted(s) && Started(s, t) && t in s'.attempts && Started(s', t) && !s'.attempts[t].Clearing?
    requires s' == s.(attempts := s.attempts[t := s'.attempts[t]], flying := s'.flying) && s'.flying <= s.flying
    requires t in s'.flying ==> FlightIsCovered(s', t)
    ensures Accounted(s')
  {
    assert forall u :: Started(s', u) == Started(s, u);
    forall d | d in s'.cleaners && s'.cleaners[d].phase != Idle ensures CleanerIsSafe(s', d) {
      assert CleanerIsSafe(s, d);
    }
    forall u | u in s'.flying ensures FlightIsCovered(s', u) {
      assert FlightIsCovered(s, u);
    }
  }

  lemma UploadKeepsAccounts(s: State, t: Token, result: PutResult, s': State)
    requires Inv(s) && t in s.attempts && s.attempts[t].Putting? && NextUpload(s, t, result) == Some(s')
    ensures Accounted(s')
  {
    assert t in s.flying ==> FlightIsCovered(s, t);
    MoveKeepsAccounts(s, t, s');
  }

  lemma CleanerChangesLittle(s: State, c: Token, effect: bool, reply: bool, s': State)
    requires c in s.cleaners && NextCleanerCall(s, c, effect, reply) == Some(s')
    ensures s'.record == s.record && s'.attempts == s.attempts && s'.flying == s.flying && s'.late == s.late
    ensures s'.objects <= s.objects && s'.cleaners == s.cleaners[c := s'.cleaners[c]]
    ensures forall d, key | d != c && Holds(s', d, key) :: Holds(s, d, key)
  {
    match s.cleaners[c].phase {
      case Deferring =>
      case Erasing =>
      case Dropping =>
      case Freeing =>
    }
  }

  /** With fewer objects and rows held, and records and attempts as before, the rest stays accounted for. */
  lemma OtherCleanersStaySafe(s: State, c: Token, s': State)
    requires Accounted(s) && s'.record == s.record && s'.attempts == s.attempts && s'.flying == s.flying && s'.late == s.late
    requires s'.objects <= s.objects && c in s.cleaners && c in s'.cleaners && s'.cleaners == s.cleaners[c := s'.cleaners[c]]
    requires forall d, key | d != c && Holds(s', d, key) :: Holds(s, d, key)
    ensures forall d | d in s'.cleaners && d != c && s'.cleaners[d].phase != Idle :: CleanerIsSafe(s', d)
    ensures ClearedAreGone(s') && PublishedHasLanded(s')
  {
    forall d | d in s'.cleaners && d != c && s'.cleaners[d].phase != Idle ensures CleanerIsSafe(s', d) {
      assert CleanerIsSafe(s, d);
    }
  }

  /** A cleaner's step changes no record and no attempt; it drops only a row whose object is gone or published. */
  lemma CleanerKeepsAccounts(s: State, c: Token, effect: bool, reply: bool, s': State)
    requires Inv(s) && c in s.cleaners && NextCleanerCall(s, c, effect, reply) == Some(s')
    ensures Accounted(s')
  {
    CleanerChangesLittle(s, c, effect, reply, s');
    OtherCleanersStaySafe(s, c, s');
    CleanerStepIsSafe(s, c, effect, reply, s');
    CleanerStepNames(s, c, effect, reply, s');
    CleanersTogether(s', c);
  }

  lemma CleanersTogether(s: State, c: Token)
    requires c in s.cleaners && (s.cleaners[c].phase != Idle ==> CleanerIsSafe(s, c))
    requires forall d | d in s.cleaners && d != c && s.cleaners[d].phase != Idle :: CleanerIsSafe(s, d)
    ensures CleanersAreSafe(s)
  {
  }

  lemma CleanerStepNames(s: State, c: Token, effect: bool, reply: bool, s': State)
    requires Inv(s) && c in s.cleaners && NextCleanerCall(s, c, effect, reply) == Some(s')
    ensures ObjectsAreNamed(s') && LedgerIsStarted(s') && FlightsAreCovered(s')
  {
    assert CleanerIsSafe(s, c);
    match s.cleaners[c].phase {
      case Deferring =>
      case Erasing =>
      case Dropping =>
      case Freeing =>
    }
  }

  lemma CleanerStepIsSafe(s: State, c: Token, effect: bool, reply: bool, s': State)
    requires Inv(s) && c in s.cleaners && NextCleanerCall(s, c, effect, reply) == Some(s')
    ensures s'.cleaners[c].phase != Idle ==> CleanerIsSafe(s', c)
  {
    assert CleanerIsSafe(s, c);
    match s.cleaners[c].phase {
      case Deferring =>
      case Erasing =>
      case Dropping =>
      case Freeing =>
    }
  }

  lemma JudgeKeepsAccounts(s: State, c: Token, s': State)
    requires Inv(s) && c in s.cleaners && NextJudge(s, c) == Some(s')
    ensures Accounted(s')
  {
    assert CleanerIsSafe(s, c);
    forall d | d in s'.cleaners && s'.cleaners[d].phase != Idle ensures CleanerIsSafe(s', d) {
      if d != c {
        assert CleanerIsSafe(s, d);
      }
    }
  }

  lemma ClaimKeepsAccounts(s: State, c: Token, key: ObjectKey, s': State)
    requires Inv(s) && key.attempt !in s.flying && Next(s, ClaimOrphan(c, key)) == Some(s')
    ensures Accounted(s')
  {
    forall d | d in s'.cleaners && s'.cleaners[d].phase != Idle ensures CleanerIsSafe(s', d) {
      if d != c {
        assert CleanerIsSafe(s, d);
      }
    }
  }

  lemma OtherKeepsAccounts(s: State, e: Event, s': State)
    requires Inv(s) && NextOther(s, e) == Some(s') && !e.LateCommit?
    ensures Accounted(s')
  {
    forall d | d in s'.cleaners && s'.cleaners[d].phase != Idle ensures CleanerIsSafe(s', d) {
      assert CleanerIsSafe(s, d);
    }
  }

  lemma AttemptKeepsAccounts(s: State, e: Event, s': State)
    requires Inv(s) && Next(s, e) == Some(s')
    requires e.Begin? || e.Captured? || e.CaptureFails? || e.Verify?
    ensures Accounted(s')
  {
    assert forall t | Started(s, t) :: Started(s', t);
    forall d | d in s'.cleaners && s'.cleaners[d].phase != Idle ensures CleanerIsSafe(s', d) {
      assert CleanerIsSafe(s, d);
    }
  }

  lemma StepKeepsInv(s: State, e: Event, s': State)
    requires Inv(s) && Careful(s, e) && Next(s, e) == Some(s')
    ensures Inv(s')
  {
    StepKeepsLocators(s, e, s');
    match e {
      case Call(t, effect, reply) => CallKeepsAccounts(s, t, effect, reply, s');
      case Upload(t, result) => UploadKeepsAccounts(s, t, result, s');
      case CleanerCall(c, effect, reply) => CleanerKeepsAccounts(s, c, effect, reply, s');
      case Judge(c) => JudgeKeepsAccounts(s, c, s');
      case ClaimOrphan(c, key) => ClaimKeepsAccounts(s, c, key, s');
      case Begin(t) => AttemptKeepsAccounts(s, e, s');
      case Captured(_, _, _, _) => AttemptKeepsAccounts(s, e, s');
      case CaptureFails(_) => AttemptKeepsAccounts(s, e, s');
      case Verify(_, _) => AttemptKeepsAccounts(s, e, s');
      case LateCommit(t) => LateCommitKeepsAccounts(s, t, s');
      case _ => OtherKeepsAccounts(s, e, s');
    }
  }

  // ------------------------------------------------------------------ whole runs

  /** Every step of the run is careful. */
  predicate Benign(states: seq<State>, events: seq<Event>)
    requires |states| == |events| + 1
  {
    forall i {:trigger events[i]} | 0 <= i < |events| :: Careful(states[i], events[i])
  }

  lemma {:induction false} InvHolds(states: seq<State>, events: seq<Event>, n: nat)
    requires IsRun(states, events) && n < |states|
    requires forall i {:trigger events[i]} | 0 <= i < n :: Careful(states[i], events[i])
    ensures Inv(states[n])
    decreases n
  {
    if n > 0 {
      InvHolds(states, events, n - 1);
      assert Next(states[n - 1], events[n - 1]) == Some(states[n]);
      StepKeepsInv(states[n - 1], events[n - 1], states[n]);
    }
  }

  /**
    Conservation: whatever crashes, replies are lost and reconcilers interfere, in a run of careful steps
    every uploaded object is at every moment absent, named by an open write intent or orphan row, or the
    committed locator.
   */
  lemma Conservation(states: seq<State>, events: seq<Event>, n: nat)
    requires IsRun(states, events) && Benign(states, events) && n < |states|
    ensures Conserved(states[n])
  {
    InvHolds(states, events, n);
  }

  // ------------------------------------------------------------------ which steps conserve

  /** The locator that a commit replaces names no object that would be left unnamed. */
  predicate ReplacesNoObject(s: State, p: Publication) {
    s.record.Some? && s.record.value.remoteKey.Some? ==>
      var previous := s.record.value.remoteKey.value;
      previous !in s.objects || p.remoteKey == Some(previous) || previous in s.ledger
  }

  /** The object of this key is gone or is the committed locator. */
  predicate NeedsNoRow(s: State, key: ObjectKey) {
    key !in s.objects || Names(s.record, key)
  }

  /** The condition on each step that may take an object's only name, or bring an object without one. */
  predicate StepConserves(s: State, e: Event) {
    match e
    case Land(t) => ObjectKey(t) in s.ledger || Names(s.record, ObjectKey(t))
    case LateCommit(t) => t in s.late ==> ReplacesNoObject(s, s.late[t])
    case Call(t, effect, _) =>
      if !effect || t !in s.attempts then true
      else if s.attempts[t].Publishing? then ReplacesNoObject(s, s.attempts[t].p)
      else s.attempts[t].Clearing? ==> NeedsNoRow(s, ObjectKey(t))
    case CleanerCall(c, effect, _) =>
      effect && c in s.cleaners && s.cleaners[c].phase == Dropping && Holds(s, c, s.cleaners[c].key)
      ==> NeedsNoRow(s, s.cleaners[c].key)
    case _ => true
  }

  lemma LosesRow(s: State, s': State, key: ObjectKey)
    requires Conserved(s) && s'.objects == s.objects && s'.record == s.record && s'.ledger == s.ledger - {key}
    ensures Conserved(s') <==> NeedsNoRow(s, key)
  {
    if NeedsNoRow(s, key) {
      forall k | k in s'.objects ensures k in s'.ledger || Names(s'.record, k) {
        assert k in s.objects;
      }
    }
  }

  /** A commit conserves exactly when the locator it replaces names no object that is left unnamed. */
  lemma PublishConservesExactly(s: State, t: Token, p: Publication)
    requires Conserved(s) && LocatorsAreOwn(s) && CanPublish(s, t, p) && LocatorIsOwn(Publishing(p), t)
    ensures Conserved(PublishState(s, t, p)) <==> ReplacesNoObject(s, p)
  {
    var s' := PublishState(s, t, p);
    if s.record.value.remoteKey.Some? {
      var previous := s.record.value.remoteKey.value;
      assert Names(s.record, previous);
      assert forall key | key in s.objects && key != previous :: key in s.ledger;
      if p.remoteKey != Some(previous) {
        assert !Names(s'.record, previous);
        assert previous in s'.ledger <==> previous in s.ledger;
      }
    }
  }

  lemma CallConservesExactly(s: State, t: Token, effect: bool, reply: bool, s': State)
    requires Conserved(s) && LocatorsAreOwn(s) && t in s.attempts && NextCall(s, t, effect, reply) == Some(s')
    ensures Conserved(s') <==> StepConserves(s, Call(t, effect, reply))
  {
    assert LocatorIsOwn(s.attempts[t], t);
    match s.attempts[t] {
      case Publishing(p) =>
        if effect {
          PublishConservesExactly(s, t, p);
          assert Conserved(s') == Conserved(PublishState(s, t, p));
        }
      case Clearing(_, _) =>
        if effect {
          LosesRow(s, s', ObjectKey(t));
        }
      case MarkingFailed =>
        assert forall key :: Names(s'.record, key) == Names(s.record, key);
      case Uploading(_, _) =>
      case Deleting(_, _) =>
      case Releasing(_, _) =>
      case Recording(_, _) =>
      case Reading(_) =>
    }
  }

  /** Dropping a ledger row conserves exactly when its object is gone or is the committed locator. */
  lemma CleanerConservesExactly(s: State, c: Token, effect: bool, reply: bool, s': State)
    requires Conserved(s) && c in s.cleaners && NextCleanerCall(s, c, effect, reply) == Some(s')
    ensures Conserved(s') <==> StepConserves(s, CleanerCall(c, effect, reply))
  {
    if s.cleaners[c].phase == Dropping && effect && Holds(s, c, s.cleaners[c].key) {
      LosesRow(s, s', s.cleaners[c].key);
    } else {
      assert forall key | key in s.ledger :: key in s'.ledger;
    }
  }

  lemma LateCommitConservesExactly(s: State, t: Token, s': State)
    requires Conserved(s) && LocatorsAreOwn(s) && NextOther(s, LateCommit(t)) == Some(s')
    ensures Conserved(s') <==> ReplacesNoObject(s, s.late[t])
  {
    PublishConservesExactly(s, t, s.late[t]);
    assert Conserved(s') == Conserved(PublishState(s, t, s.late[t]));
  }

  /**
    The one step that loses an object: it breaks conservation exactly when a landing upload finds neither
    row nor name, a commit replaces the only name of an object, or a row is removed from an object that
    is there and is not the committed locator.
   */
  lemma StepConservesExactly(s: State, e: Event, s': State)
    requires Conserved(s) && LocatorsAreOwn(s) && Next(s, e) == Some(s')
    ensures Conserved(s') <==> StepConserves(s, e)
  {
    match e {
      case Call(t, effect, reply) => CallConservesExactly(s, t, effect, reply, s');
      case CleanerCall(c, effect, reply) => CleanerConservesExactly(s, c, effect, reply, s');
      case Land(t) => assert ObjectKey(t) in s'.objects;
      case LateCommit(t) => LateCommitConservesExactly(s, t, s');
      case Upload(t, result) => UploadChangesOnePhase(s, t, result, s');
      case _ => PlainStepConserves(s, e, s');
    }
  }

  /** All other steps bring no object, drop no row and keep the record's name, unless its object is gone. */
  lemma PlainStepConserves(s: State, e: Event, s': State)
    requires Conserved(s) && Next(s, e) == Some(s')
    requires !e.Call? && !e.CleanerCall? && !e.Land? && !e.LateCommit? && !e.Upload?
    ensures Conserved(s')
  {
    assert forall key | key in s.ledger :: key in s'.ledger;
    assert s'.objects <= s.objects;
    assert forall key | key in s'.objects :: Names(s.record, key) ==> Names(s'.record, key);
  }

  /** A run conserves at every moment exactly when each of its steps meets that condition. */
  lemma RunConservesExactly(states: seq<State>, events: seq<Event>)
    requires IsRun(states, events)
    ensures (forall n | 0 <= n < |states| :: Conserved(states[n])) <==>
            (forall i {:trigger events[i]} | 0 <= i < |events| :: StepConserves(states[i], events[i]))
  {
    if forall n | 0 <= n < |states| :: Conserved(states[n]) {
      forall i {:trigger events[i]} | 0 <= i < |events| ensures StepConserves(states[i], events[i]) {
        LocatorsAreOwnIn(states, events, i);
        StepConservesExactly(states[i], events[i], states[i + 1]);
      }
    }
    if forall i {:trigger events[i]} | 0 <= i < |events| :: StepConserves(states[i], events[i]) {
      forall n | 0 <= n < |states| ensures Conserved(states[n]) {
        ConservedUpTo(states, events, n);
      }
    }
  }

  lemma {:induction false} ConservedUpTo(states: seq<State>, events: seq<Event>, n: nat)
    requires IsRun(states, events) && n < |states|
    requires forall i {:trigger events[i]} | 0 <= i < |events| :: StepConserves(states[i], events[i])
    ensures Conserved(states[n])
    decreases n
  {
    if n > 0 {
      ConservedUpTo(states, events, n - 1);
      LocatorsAreOwnIn(states, events, n - 1);
      assert StepConserves(states[n - 1], events[n - 1]);
      StepConservesExactly(states[n - 1], events[n - 1], states[n]);
    }
  }

  // ------------------------------------------------------------------ timely uploads, one commit

  /**
    Every outstanding upload belongs to a call that has not been answered or whose failure is being
    answered by the deletion, and the claim made with the write intent is still respected. A capture never
    renews that claim, so this is a bound on the upload request itself.
   */
  predicate Timely(s: State) {
    forall t | t in s.flying && t in s.attempts && ObjectKey(t) in s.ledger ::
      && AwaitsAnswer(s.attempts[t])
      && (s.ledger[ObjectKey(t)].HeldByOwner? ==> s.now - s.ledger[ObjectKey(t)].since <= CLAIM_STALE_MS)
  }

  lemma TimelyFlights(s: State)
    requires Inv(s) && Timely(s)
    ensures forall t | t in s.flying ::
              && ObjectKey(t) in s.ledger && s.ledger[ObjectKey(t)].HeldByOwner?
              && s.now - s.ledger[ObjectKey(t)].since <= CLAIM_STALE_MS
  {
    forall t | t in s.flying ensures FlightIsCovered(s, t) {}
  }

  /** With timely uploads no step gives up an obligation too early. */
  lemma TimelyStepWaits(s: State, e: Event, s': State)
    requires Inv(s) && Timely(s) && Timely(s') && Next(s, e) == Some(s')
    ensures WaitsForUpload(s, e)
  {
    TimelyFlights(s);
    match e {
      case ClaimOrphan(c, key) =>
        assert key == ObjectKey(key.attempt);
      case Call(t, effect, reply) =>
        assert t in s'.flying && t in s'.attempts && ObjectKey(t) in s'.ledger ==> AwaitsAnswer(s'.attempts[t]);
      case _ =>
    }
  }

  lemma {:induction false} CommitsGrow(states: seq<State>, events: seq<Event>, i: nat, j: nat)
    requires IsRun(states, events) && i <= j < |states|
    ensures |states[i].commits| <= |states[j].commits|
    decreases j
  {
    if i < j {
      CommitsGrow(states, events, i, j - 1);
      assert Next(states[j - 1], events[j - 1]) == Some(states[j]);
      StepCommitsAtMostOnce(states[j - 1], events[j - 1], states[j]);
    }
  }

  lemma StepCommitsAtMostOnce(s: State, e: Event, s': State)
    requires Next(s, e) == Some(s')
    ensures |s'.commits| == |s.commits| + if Commits(s, e) then 1 else 0
  {
    if !Commits(s, e) {
      QuietStep(s, e, s');
    }
  }

  lemma {:induction false} TimelyRunIsCareful(states: seq<State>, events: seq<Event>, n: nat)
    requires IsRun(states, events) && n < |states|
    requires forall i | 0 <= i < |states| :: Timely(states[i])
    requires forall i {:trigger events[i]} | 0 <= i < |events| :: OverwritesNothing(states[i], events[i])
    ensures forall i {:trigger events[i]} | 0 <= i < n :: Careful(states[i], events[i])
    decreases n
  {
    if n > 0 {
      TimelyRunIsCareful(states, events, n - 1);
      InvHolds(states, events, n - 1);
      assert OverwritesNothing(states[n - 1], events[n - 1]);
      TimelyStepWaits(states[n - 1], events[n - 1], states[n]);
    }
  }

  /** For a record whose captures commit at most once in the run, timely uploads are all it takes. */
  lemma ConservationOfOneCommit(states: seq<State>, events: seq<Event>, n: nat)
    requires IsRun(states, events) && n < |states|
    requires forall i | 0 <= i < |states| :: Timely(states[i])
    requires |states[|events|].commits| <= 1
    ensures Conserved(states[n])
  {
    forall i {:trigger events[i]} | 0 <= i < |events| ensures OverwritesNothing(states[i], events[i]) {
      if Commits(states[i], events[i]) {
        assert Next(states[i], events[i]) == Some(states[i + 1]);
        StepCommitsAtMostOnce(states[i], events[i], states[i + 1]);
        CommitsGrow(states, events, i + 1, |events|);
        FencedHolds(states, events, i);
      }
    }
    TimelyRunIsCareful(states, events, |events|);
    Conservation(states, events, n);
  }
}
