/**
  Whether the object that a record names stays where it is, and whether the answer of reading a record back
  stays true, while transactions without reply may still commit.
 */
module CaptureDurability {
  import opened Wrappers
  import opened CaptureProtocol
  import opened CaptureFencing
  import opened CaptureConservation
  import opened Runs
  import Losses = CaptureLosses

  /** The record's locator names an object that is there, unless the record is being deleted. */
  predicate Lasting(s: State) {
    s.record.Some? && !s.record.value.deleting && s.record.value.remoteKey.Some? ==> s.record.value.remoteKey.value in s.objects
  }

  /** A transaction without reply would still publish an object. */
  predicate MayCommitLate(s: State, t: Token) {
    t in s.late && s.late[t].remoteKey.Some? && MayCommit(s, t)
  }

  /** The attempt reads the record back and does not find its commit. */
  predicate ReadsNothing(s: State, e: Event) {
    e.Call? && e.reply && e.t in s.attempts && s.attempts[e.t].Reading? && !ReadsCommitted(s.record, e.t, s.attempts[e.t].p)
  }

  /** No attempt takes its commit for failed while it may still publish an object. */
  predicate Patient(s: State, e: Event) {
    ReadsNothing(s, e) ==> !MayCommitLate(s, e.t)
  }

  // ------------------------------------------------------------------ the invariant

  /** The attempt may still make the record name its object. */
  predicate MayName(s: State, t: Token) {
    t in s.attempts && MayCommit(s, t) && (!PastPublishing(s.attempts[t]) || MayCommitLate(s, t))
  }

  predicate CommitterIsPast(s: State) {
    s.record.Some? && s.record.value.committed.Some? ==>
      s.record.value.committed.value in s.attempts && PastPublishing(s.attempts[s.record.value.committed.value])
  }

  /** The attempt whose object the record names is at that publication or has reported it. */
  predicate CommitterHolds(s: State) {
    s.record.Some? && s.record.value.remoteKey.Some? ==>
      var t := s.record.value.remoteKey.value.attempt;
      && s.record.value.committed == Some(t) && t in s.attempts
      && (s.attempts[t].Reading? || s.attempts[t].Committed? || s.attempts[t].OutcomeUnknown?)
      && ReadsCommitted(s.record, t, s.attempts[t].p)
  }

  /** Whose transaction may still publish an object still waits for it. */
  predicate LateAreAwaited(s: State) {
    forall t | t in s.late && MayCommitLate(s, t) ::
      t in s.attempts && (s.attempts[t] == Reading(s.late[t]) || s.attempts[t] == OutcomeUnknown(s.late[t]))
  }

  /** A publication with a locator is pending, and its object is there as long as the attempt may name it. */
  predicate IsReady(s: State, t: Token, p: Publication) {
    p.remoteKey.Some? ==> p.pending && p.remoteKey == Some(ObjectKey(t)) && (MayName(s, t) ==> ObjectKey(t) in s.objects)
  }

  predicate AttemptIsReady(s: State, t: Token)
    requires t in s.attempts
  {
    var phase := s.attempts[t];
    && (phase.Publishing? ==> IsReady(s, t, phase.p))
    && (CarriesPublication(phase) && phase.p.remoteKey.Some? ==> phase.p.pending && phase.p.remoteKey == Some(ObjectKey(t)))
    && (GivesUp(phase) && phase.why != Uncommitted ==> phase.p.remoteKey.None?)
  }

  predicate LateIsReady(s: State, t: Token)
    requires t in s.late
  {
    && t in s.attempts && PastPublishing(s.attempts[t]) && IsReady(s, t, s.late[t])
    && (s.record.Some? ==> s.record.value.committed != Some(t))
  }

  predicate AllAreReady(s: State) {
    (forall t | t in s.attempts :: AttemptIsReady(s, t)) && (forall t | t in s.late :: LateIsReady(s, t))
  }

  /** An attempt that may still name its object keeps the record running. */
  predicate NamersRun(s: State) {
    forall t | t in s.attempts && MayName(s, t) :: s.record.value.status == Running
  }

  /** No cleaner that erases an object can meet one that is or will be named. */
  predicate EraserIsSafe(s: State, key: ObjectKey) {
    key.attempt in s.attempts && !MayName(s, key.attempt) && (s.record.Some? ==> s.record.value.remoteKey != Some(key))
  }

  predicate ErasersAreSafe(s: State) {
    && (forall c | c in s.cleaners && s.cleaners[c].phase == Erasing :: EraserIsSafe(s, s.cleaners[c].key))
    && (forall c | c in s.cleaners :: s.cleaners[c].key.attempt in s.attempts)
    && (forall key | key in s.ledger :: key.attempt in s.attempts)
  }

  predicate DurableInv(s: State) {
    && Lasting(s) && CommitterIsPast(s) && CommitterHolds(s) && LateAreAwaited(s) && AllAreReady(s) && NamersRun(s) && ErasersAreSafe(s)
  }

  // ------------------------------------------------------------------ steps by what they change

  /** The record keeps its commit and its owner, and ends being deleted only by going away. */
  predicate KeepsCommit(s: State, s': State) {
    s'.record.Some? ==>
      && s.record.Some? && SameCommit(s.record.value, s'.record.value) && s'.record.value.attempt == s.record.value.attempt
      && (s.record.value.deleting ==> s'.record.value.deleting)
  }

  /** Nobody may name more than before, and the record runs on for those who may. */
  ghost predicate NamesNoMore(s: State, s': State) {
    forall t | MayName(s', t) :: MayName(s, t) && s'.record.value.status == s.record.value.status
  }

  /** Objects go only when the record is being deleted, or when nobody names them. */
  predicate LosesNothingNamed(s: State, s': State) {
    forall key | key in s.objects && key !in s'.objects ::
      && !MayName(s', key.attempt)
      && (s'.record.Some? ==> s'.record.value.deleting || s'.record.value.remoteKey != Some(key))
  }

  predicate SameCleaners(s: State, s': State) {
    s'.cleaners == s.cleaners && s'.ledger.Keys <= s.ledger.Keys && s.attempts.Keys <= s'.attempts.Keys
  }

  /** A step that moves no attempt. */
  lemma QuietKeepsDurable(s: State, s': State)
    requires DurableInv(s) && KeepsCommit(s, s') && NamesNoMore(s, s') && LosesNothingNamed(s, s') && SameCleaners(s, s')
    requires s'.attempts == s.attempts && s'.late.Keys <= s.late.Keys && forall t | t in s'.late :: s'.late[t] == s.late[t]
    requires forall t | t in s'.late && MayCommitLate(s', t) :: MayCommitLate(s, t)
    ensures DurableInv(s')
  {
    forall t | t in s'.late ensures LateIsReady(s', t) {
      assert LateIsReady(s, t);
    }
    forall t | t in s'.attempts ensures AttemptIsReady(s', t) {
      assert AttemptIsReady(s, t);
    }
    forall c | c in s'.cleaners && s'.cleaners[c].phase == Erasing ensures EraserIsSafe(s', s'.cleaners[c].key) {
      assert EraserIsSafe(s, s.cleaners[c].key);
    }
  }

  /** One attempt moves on to a phase that is ready; an awaited transaction stays awaited. */
  lemma MoveKeepsDurable(s: State, t: Token, s': State)
    requires DurableInv(s) && KeepsCommit(s, s') && NamesNoMore(s, s') && LosesNothingNamed(s, s')
    requires t in s.attempts && t in s'.attempts && s'.attempts == s.attempts[t := s'.attempts[t]]
    requires s'.cleaners == s.cleaners && s'.ledger.Keys <= s.ledger.Keys + {ObjectKey(t)}
    requires AttemptIsReady(s', t) && (PastPublishing(s.attempts[t]) ==> PastPublishing(s'.attempts[t]))
    requires s'.late == s.late && s'.leased == s.leased
    requires MayCommitLate(s', t) ==> s'.attempts[t] == Reading(s.late[t]) || s'.attempts[t] == OutcomeUnknown(s.late[t])
    requires CommitterHolds(s')
    ensures DurableInv(s')
  {
    forall u | u in s'.late ensures LateIsReady(s', u) {
      assert LateIsReady(s, u);
    }
    forall u | u in s'.attempts ensures AttemptIsReady(s', u) {
      assert u != t ==> AttemptIsReady(s, u);
    }
    forall c | c in s'.cleaners && s'.cleaners[c].phase == Erasing ensures EraserIsSafe(s', s'.cleaners[c].key) {
      assert EraserIsSafe(s, s.cleaners[c].key);
    }
    forall u | u in s'.late && MayCommitLate(s', u)
      ensures u in s'.attempts && (s'.attempts[u] == Reading(s'.late[u]) || s'.attempts[u] == OutcomeUnknown(s'.late[u]))
    {
      assert MayCommitLate(s, u);
    }
  }

  lemma OtherKeepsDurable(s: State, e: Event, s': State)
    requires DurableInv(s) && NextOther(s, e) == Some(s') && !e.LateCommit?
    ensures DurableInv(s')
  {
    assert KeepsCommit(s, s') && SameCleaners(s, s');
    OtherNamesNoMore(s, e, s');
    QuietKeepsDurable(s, s');
  }

  lemma OtherNamesNoMore(s: State, e: Event, s': State)
    requires DurableInv(s) && NextOther(s, e) == Some(s') && !e.LateCommit?
    ensures NamesNoMore(s, s') && LosesNothingNamed(s, s')
    ensures s'.attempts == s.attempts && s'.late.Keys <= s.late.Keys && forall t | t in s'.late :: s'.late[t] == s.late[t]
    ensures forall t | t in s'.late && MayCommitLate(s', t) :: MayCommitLate(s, t)
  {
    assert s'.leased <= s.leased;
  }

  /** A cleaner's step; it erases only what nobody names or may name. */
  lemma CleanerMoveKeepsDurable(s: State, c: Token, s': State)
    requires DurableInv(s) && s'.record == s.record && s'.attempts == s.attempts && s'.late == s.late && s'.leased == s.leased
    requires c in s'.cleaners && s'.cleaners == s.cleaners[c := s'.cleaners[c]] && s'.cleaners[c].key.attempt in s.attempts
    requires s'.cleaners[c].phase == Erasing ==> EraserIsSafe(s, s'.cleaners[c].key)
    requires s'.ledger.Keys <= s.ledger.Keys
    requires forall key | key in s.objects && key !in s'.objects :: EraserIsSafe(s, key)
    ensures DurableInv(s')
  {
    assert forall t :: MayName(s', t) == MayName(s, t);
    forall u | u in s'.late ensures LateIsReady(s', u) {
      assert LateIsReady(s, u);
    }
    forall u | u in s'.attempts ensures AttemptIsReady(s', u) {
      assert AttemptIsReady(s, u);
    }
    forall d | d in s'.cleaners && s'.cleaners[d].phase == Erasing ensures EraserIsSafe(s', s'.cleaners[d].key) {
      assert d != c ==> EraserIsSafe(s, s.cleaners[d].key);
    }
  }

  /** What is judged abandoned is not named and will not be. */
  lemma AbandonedIsSafe(s: State, key: ObjectKey)
    requires DurableInv(s) && key.attempt in s.attempts && DispositionOf(s.record, key) == Abandoned
    ensures EraserIsSafe(s, key)
  {
  }

  lemma CleanerCallKeepsDurable(s: State, c: Token, effect: bool, reply: bool, s': State)
    requires DurableInv(s) && c in s.cleaners && NextCleanerCall(s, c, effect, reply) == Some(s')
    ensures DurableInv(s')
  {
    CleanerChangesLittle(s, c, effect, reply, s');
    assert s'.leased == s.leased && s'.ledger.Keys <= s.ledger.Keys;
    if s.cleaners[c].phase == Erasing {
      assert EraserIsSafe(s, s.cleaners[c].key);
    }
    assert s'.cleaners[c].phase != Erasing;
    assert s.cleaners[c].phase == Erasing || s'.objects == s.objects;
    CleanerMoveKeepsDurable(s, c, s');
  }

  lemma JudgeKeepsDurable(s: State, c: Token, s': State)
    requires DurableInv(s) && c in s.cleaners && NextJudge(s, c) == Some(s')
    ensures DurableInv(s')
  {
    if DispositionOf(s.record, s.cleaners[c].key) == Abandoned {
      AbandonedIsSafe(s, s.cleaners[c].key);
    }
    CleanerMoveKeepsDurable(s, c, s');
  }

  lemma ClaimKeepsDurable(s: State, c: Token, key: ObjectKey, s': State)
    requires DurableInv(s) && Next(s, ClaimOrphan(c, key)) == Some(s')
    ensures DurableInv(s')
  {
    CleanerMoveKeepsDurable(s, c, s');
  }

  lemma BeginKeepsDurable(s: State, t: Token, s': State)
    requires DurableInv(s) && Next(s, Begin(t)) == Some(s')
    ensures DurableInv(s')
  {
    assert forall u | u != t :: MayName(s', u) ==> MayName(s, u);
    forall u | u in s'.late ensures LateIsReady(s', u) {
      assert LateIsReady(s, u);
    }
    forall u | u in s'.attempts ensures AttemptIsReady(s', u) {
      assert u != t ==> AttemptIsReady(s, u);
    }
    forall c | c in s'.cleaners && s'.cleaners[c].phase == Erasing ensures EraserIsSafe(s', s'.cleaners[c].key) {
      assert EraserIsSafe(s, s.cleaners[c].key);
    }
  }

  lemma NotPastIsNotLate(s: State, t: Token)
    requires DurableInv(s) && t in s.attempts && !PastPublishing(s.attempts[t])
    ensures t !in s.late
  {
    assert t in s.late ==> LateIsReady(s, t);
  }

  lemma EarlyStepKeepsDurable(s: State, e: Event, s': State)
    requires DurableInv(s) && Next(s, e) == Some(s') && (e.Captured? || e.CaptureFails? || e.Verify? || e.Upload?)
    ensures DurableInv(s')
  {
    AttemptChangesOnePhase(s, e, s');
    NotPastIsNotLate(s, e.t);
    EarlyStepIsReady(s, e, s');
    assert forall u :: MayName(s', u) ==> MayName(s, u);
    MoveKeepsDurable(s, e.t, s');
  }

  lemma EarlyStepIsReady(s: State, e: Event, s': State)
    requires Next(s, e) == Some(s') && (e.Captured? || e.CaptureFails? || e.Verify? || e.Upload?)
    ensures e.t in s.attempts && !PastPublishing(s.attempts[e.t]) && !s.attempts[e.t].Reading?
    ensures s'.objects == s.objects && s'.cleaners == s.cleaners && s'.leased == s.leased && s'.record == s.record
    ensures e.t in s'.attempts && AttemptIsReady(s', e.t)
  {
    match e {
      case Captured(_, _, _, _) =>
      case CaptureFails(_) =>
      case Verify(_, _) =>
      case Upload(_, _) =>
    }
  }

  // ------------------------------------------------------------------ calls of an attempt

  /** An attempt that gives something up is past naming its object, or has never been ready to. */
  lemma GivingUpNamesNothing(s: State, t: Token)
    requires DurableInv(s) && t in s.attempts && GivesUp(s.attempts[t])
    ensures !MayCommitLate(s, t)
    ensures s.record.Some? ==> s.record.value.remoteKey != Some(ObjectKey(t))
    ensures s.attempts[t].why == Uncommitted ==> !MayName(s, t)
  {
    assert t in s.late ==> LateIsReady(s, t);
  }

  lemma GivingUpIsReady(s: State, t: Token, effect: bool, reply: bool, s': State)
    requires t in s.attempts && AttemptIsReady(s, t) && GivesUp(s.attempts[t]) && NextCall(s, t, effect, reply) == Some(s')
    ensures t in s'.attempts && AttemptIsReady(s', t)
    ensures PastPublishing(s.attempts[t]) ==> PastPublishing(s'.attempts[t])
    ensures s'.record == s.record && s'.cleaners == s.cleaners && s'.late == s.late && s'.leased == s.leased
    ensures s'.ledger.Keys <= s.ledger.Keys + {ObjectKey(t)}
    ensures s'.objects == s.objects || s'.objects == s.objects - {ObjectKey(t)}
  {
    match s.attempts[t] {
      case Deleting(_, _) =>
      case Clearing(_, _) =>
      case Releasing(_, _) =>
      case Recording(_, _) =>
    }
  }

  /** One attempt gives up its object: nobody names it, and the attempt itself has nothing more to publish with it. */
  lemma GiveUpKeepsDurable(s: State, t: Token, s': State)
    requires DurableInv(s) && t in s.attempts && GivesUp(s.attempts[t]) && !MayCommitLate(s, t)
    requires s.record.Some? ==> s.record.value.remoteKey != Some(ObjectKey(t))
    requires t in s'.attempts && s'.attempts == s.attempts[t := s'.attempts[t]] && AttemptIsReady(s', t)
    requires PastPublishing(s.attempts[t]) ==> PastPublishing(s'.attempts[t])
    requires s'.record == s.record && s'.cleaners == s.cleaners && s'.late == s.late && s'.leased == s.leased
    requires s'.ledger.Keys <= s.ledger.Keys + {ObjectKey(t)}
    requires s'.objects == s.objects || s'.objects == s.objects - {ObjectKey(t)}
    requires s'.attempts[t].Publishing? ==> s'.attempts[t].p.remoteKey.None?
    ensures DurableInv(s')
  {
    assert forall u :: MayName(s', u) ==> MayName(s, u);
    forall u | u in s'.late ensures LateIsReady(s', u) {
      assert LateIsReady(s, u);
    }
    forall u | u in s'.attempts ensures AttemptIsReady(s', u) {
      assert u != t ==> AttemptIsReady(s, u);
    }
    forall c | c in s'.cleaners && s'.cleaners[c].phase == Erasing ensures EraserIsSafe(s', s'.cleaners[c].key) {
      assert EraserIsSafe(s, s.cleaners[c].key);
    }
    forall u | u in s'.late && MayCommitLate(s', u)
      ensures u in s'.attempts && (s'.attempts[u] == Reading(s'.late[u]) || s'.attempts[u] == OutcomeUnknown(s'.late[u]))
    {
      assert MayCommitLate(s, u);
    }
  }

  lemma GivingUpPublishesNoLocator(s: State, t: Token, effect: bool, reply: bool, s': State)
    requires t in s.attempts && AttemptIsReady(s, t) && GivesUp(s.attempts[t]) && NextCall(s, t, effect, reply) == Some(s')
    ensures t in s'.attempts && (s'.attempts[t].Publishing? ==> s'.attempts[t].p.remoteKey.None?)
  {
    match s.attempts[t] {
      case Deleting(_, _) =>
      case Clearing(_, _) =>
      case Releasing(_, _) =>
      case Recording(_, _) =>
    }
  }

  lemma GivingUpKeepsDurable(s: State, t: Token, effect: bool, reply: bool, s': State)
    requires DurableInv(s) && t in s.attempts && GivesUp(s.attempts[t]) && NextCall(s, t, effect, reply) == Some(s')
    ensures DurableInv(s')
  {
    assert AttemptIsReady(s, t);
    GivingUpNamesNothing(s, t);
    GivingUpChangesOnePhase(s, t, effect, reply, s');
    GivingUpIsReady(s, t, effect, reply, s');
    GivingUpPublishesNoLocator(s, t, effect, reply, s');
    GiveUpKeepsDurable(s, t, s');
  }

  lemma InsertKeepsDurable(s: State, t: Token, effect: bool, reply: bool, s': State)
    requires DurableInv(s) && t in s.attempts && s.attempts[t].Uploading? && NextCall(s, t, effect, reply) == Some(s')
    ensures DurableInv(s')
  {
    NotPastIsNotLate(s, t);
    assert forall u :: MayName(s', u) == MayName(s, u);
    MoveKeepsDurable(s, t, s');
  }

  lemma ReadKeepsDurable(s: State, t: Token, reply: bool, effect: bool, s': State)
    requires DurableInv(s) && t in s.attempts && s.attempts[t].Reading? && NextCall(s, t, effect, reply) == Some(s')
    requires Patient(s, Call(t, effect, reply))
    ensures DurableInv(s')
  {
    assert AttemptIsReady(s, t);
    assert t in s.late ==> LateIsReady(s, t);
    assert forall u :: MayName(s', u) == MayName(s, u);
    MoveKeepsDurable(s, t, s');
  }

  lemma MarkKeepsDurable(s: State, t: Token, effect: bool, reply: bool, s': State)
    requires DurableInv(s) && t in s.attempts && s.attempts[t] == MarkingFailed && NextCall(s, t, effect, reply) == Some(s')
    ensures DurableInv(s')
  {
    assert !MayCommitLate(s, t);
    assert forall u | MayName(s', u) :: MayName(s, u) && (u == t || s'.record == s.record);
    MoveKeepsDurable(s, t, s');
  }

  lemma IssueKeepsDurable(s: State, t: Token, s': State)
    requires DurableInv(s) && t in s.attempts && s.attempts[t].Publishing? && NextCall(s, t, false, false) == Some(s')
    ensures DurableInv(s')
  {
    NotPastIsNotLate(s, t);
    assert AttemptIsReady(s, t);
    assert s' == s.(late := s.late[t := s.attempts[t].p], issued := s'.issued, attempts := s.attempts[t := Reading(s.attempts[t].p)]);
    assert forall u :: MayName(s', u) ==> MayName(s, u);
    forall u | u in s'.late ensures LateIsReady(s', u) {
      assert u != t ==> LateIsReady(s, u);
    }
    forall u | u in s'.attempts ensures AttemptIsReady(s', u) {
      assert u != t ==> AttemptIsReady(s, u);
    }
    forall c | c in s'.cleaners && s'.cleaners[c].phase == Erasing ensures EraserIsSafe(s', s'.cleaners[c].key) {
      assert EraserIsSafe(s, s.cleaners[c].key);
    }
    forall u | u in s'.late && MayCommitLate(s', u)
      ensures u in s'.attempts && (s'.attempts[u] == Reading(s'.late[u]) || s'.attempts[u] == OutcomeUnknown(s'.late[u]))
    {
      assert u != t ==> MayCommitLate(s, u);
    }
  }

  // ------------------------------------------------------------------ commits

  /** A commit of an attempt that may commit, whose object is there, and which will not commit again. */
  lemma CommitKeepsDurable(s: State, t: Token, p: Publication, s': State)
    requires DurableInv(s) && MayCommit(s, t) && IsReady(s, t, p) && (p.remoteKey.Some? ==> MayName(s, t))
    requires s'.record == Some(PublishRecord(s.record.value, t, p)) && s'.objects == s.objects && s'.cleaners == s.cleaners
    requires s'.ledger.Keys <= s.ledger.Keys && s'.leased == s.leased
    requires t in s.attempts && t in s'.attempts && s'.attempts == s.attempts[t := s'.attempts[t]]
    requires PastPublishing(s'.attempts[t]) && AttemptIsReady(s', t) && s'.late == s.late - {t}
    requires p.remoteKey.Some? ==> s'.attempts[t] == Reading(p) || s'.attempts[t] == Committed(p) || s'.attempts[t] == OutcomeUnknown(p)
    ensures DurableInv(s')
  {
    assert forall u :: MayName(s', u) ==> u != t && MayCommit(s, u);
    assert forall u :: !MayName(s', u);
    forall u | u in s'.late ensures LateIsReady(s', u) {
      assert LateIsReady(s, u);
    }
    forall u | u in s'.attempts ensures AttemptIsReady(s', u) {
      assert u != t ==> AttemptIsReady(s, u);
    }
    forall c | c in s'.cleaners && s'.cleaners[c].phase == Erasing ensures EraserIsSafe(s', s'.cleaners[c].key) {
      assert EraserIsSafe(s, s.cleaners[c].key);
    }
  }

  lemma PublishKeepsDurable(s: State, t: Token, reply: bool, s': State)
    requires DurableInv(s) && t in s.attempts && s.attempts[t].Publishing? && NextCall(s, t, true, reply) == Some(s')
    ensures DurableInv(s')
  {
    NotPastIsNotLate(s, t);
    assert AttemptIsReady(s, t);
    CommitKeepsDurable(s, t, s.attempts[t].p, s');
  }

  lemma LateCommitKeepsDurable(s: State, t: Token, s': State)
    requires DurableInv(s) && NextOther(s, LateCommit(t)) == Some(s')
    ensures DurableInv(s')
  {
    assert LateIsReady(s, t) && AttemptIsReady(s, t);
    assert s'.attempts == s.attempts[t := s'.attempts[t]];
    CommitKeepsDurable(s, t, s.late[t], s');
  }

  /** Every patient step keeps committed objects where they are. */
  lemma StepKeepsDurable(s: State, e: Event, s': State)
    requires DurableInv(s) && Patient(s, e) && Next(s, e) == Some(s')
    ensures DurableInv(s')
  {
    match e {
      case Call(t, effect, reply) => CallKeepsDurable(s, t, effect, reply, s');
      case Begin(t) => BeginKeepsDurable(s, t, s');
      case Captured(_, _, _, _) => EarlyStepKeepsDurable(s, e, s');
      case CaptureFails(_) => EarlyStepKeepsDurable(s, e, s');
      case Upload(_, _) => EarlyStepKeepsDurable(s, e, s');
      case Verify(_, _) => EarlyStepKeepsDurable(s, e, s');
      case ClaimOrphan(c, key) => ClaimKeepsDurable(s, c, key, s');
      case Judge(c) => JudgeKeepsDurable(s, c, s');
      case CleanerCall(c, effect, reply) => CleanerCallKeepsDurable(s, c, effect, reply, s');
      case LateCommit(t) => LateCommitKeepsDurable(s, t, s');
      case _ => OtherKeepsDurable(s, e, s');
    }
  }

  lemma CallKeepsDurable(s: State, t: Token, effect: bool, reply: bool, s': State)
    requires DurableInv(s) && t in s.attempts && NextCall(s, t, effect, reply) == Some(s') && Patient(s, Call(t, effect, reply))
    ensures DurableInv(s')
  {
    if GivesUp(s.attempts[t]) {
      GivingUpKeepsDurable(s, t, effect, reply, s');
    } else {
      match s.attempts[t] {
        case Uploading(_, _) => InsertKeepsDurable(s, t, effect, reply, s');
        case Publishing(_) =>
          if effect {
            PublishKeepsDurable(s, t, reply, s');
          } else {
            IssueKeepsDurable(s, t, s');
          }
        case Reading(_) => ReadKeepsDurable(s, t, reply, effect, s');
        case MarkingFailed => MarkKeepsDurable(s, t, effect, reply, s');
      }
    }
  }

  // ------------------------------------------------------------------ exactly when a committed object lasts

  predicate IsPatient(s: State, events: seq<Event>)
    decreases |events|
  {
    events != [] ==>
      Patient(s, events[0]) && Next(s, events[0]).Some? && IsPatient(Next(s, events[0]).value, events[1..])
  }

  function End(s: State, events: seq<Event>): State
    requires IsPatient(s, events)
    decreases |events|
  {
    if events == [] then s else End(Next(s, events[0]).value, events[1..])
  }

  /** Patient steps of everybody lead from here to a record that names an object which is not there. */
  ghost predicate CanVanish(s: State) {
    exists events :: IsPatient(s, events) && !Lasting(End(s, events))
  }

  lemma {:induction false} PatientKeepsDurable(s: State, events: seq<Event>)
    requires DurableInv(s) && IsPatient(s, events)
    ensures DurableInv(End(s, events))
    decreases |events|
  {
    if events != [] {
      StepKeepsDurable(s, events[0], Next(s, events[0]).value);
      PatientKeepsDurable(Next(s, events[0]).value, events[1..]);
    }
  }

  lemma DurableCannotVanish(s: State)
    requires DurableInv(s)
    ensures !CanVanish(s)
  {
    forall events | IsPatient(s, events) ensures Lasting(End(s, events)) {
      PatientKeepsDurable(s, events);
    }
  }

  lemma CanVanishBefore(s: State, e: Event, s': State)
    requires Patient(s, e) && Next(s, e) == Some(s') && CanVanish(s')
    ensures CanVanish(s)
  {
    var events :| IsPatient(s', events) && !Lasting(End(s', events));
    assert ([e] + events)[1..] == events;
    assert IsPatient(s, [e] + events) && End(s, [e] + events) == End(s', events);
  }

  /** The transaction commits after its object was deleted. */
  lemma CommitOfDeletedVanishes(s: State, t: Token)
    requires t in s.late && MayCommit(s, t) && s.late[t].remoteKey == Some(ObjectKey(t))
    requires ObjectKey(t) in s.ledger && ObjectKey(t) !in s.objects
    ensures CanVanish(s)
  {
    var s' := Next(s, LateCommit(t)).value;
    assert !Lasting(s') && IsPatient(s', []) && End(s', []) == s';
    CanVanishBefore(s, LateCommit(t), s');
  }

  /** The attempt compensates; if its row was gone, it comes back; then the transaction commits. */
  lemma HastyCompensationVanishes(s: State, t: Token, p: Publication)
    requires t in s.attempts && s.attempts[t] == Deleting(Uncommitted, p)
    requires t in s.late && MayCommit(s, t) && s.late[t].remoteKey == Some(ObjectKey(t))
    ensures CanVanish(s)
  {
    var deleted := Next(s, Call(t, true, true)).value;
    if ObjectKey(t) in s.ledger {
      CommitOfDeletedVanishes(deleted, t);
    } else {
      var cleared := Next(deleted, Call(t, true, true)).value;
      var recorded := Next(cleared, Call(t, true, true)).value;
      CommitOfDeletedVanishes(recorded, t);
      CanVanishBefore(cleared, Call(t, true, true), recorded);
      CanVanishBefore(deleted, Call(t, true, true), cleared);
    }
    CanVanishBefore(s, Call(t, true, true), deleted);
  }

  /**
    From every state that patient steps lead to, a step lets patient steps of everybody take away a committed
    object exactly when it is an attempt's reading of "not committed" while its transaction may still commit.
   */
  lemma VanishesExactly(s: State, e: Event, s': State)
    requires DurableInv(s) && Next(s, e) == Some(s')
    ensures CanVanish(s') <==> !Patient(s, e)
  {
    if Patient(s, e) {
      StepKeepsDurable(s, e, s');
      DurableCannotVanish(s');
    } else {
      assert AttemptIsReady(s, e.t) && LateIsReady(s, e.t);
      HastyCompensationVanishes(s', e.t, s.attempts[e.t].p);
    }
  }

  lemma {:induction false} DurableHolds(states: seq<State>, events: seq<Event>, n: nat)
    requires IsRun(states, events) && n < |states|
    requires forall i {:trigger events[i]} | 0 <= i < n :: Patient(states[i], events[i])
    ensures DurableInv(states[n])
    decreases n
  {
    if n > 0 {
      DurableHolds(states, events, n - 1);
      assert Next(states[n - 1], events[n - 1]) == Some(states[n]);
      StepKeepsDurable(states[n - 1], events[n - 1], states[n]);
    }
  }

  /** In a run of patient steps the object that the record names is there until the record is being deleted. */
  lemma CommittedObjectLasts(states: seq<State>, events: seq<Event>, n: nat)
    requires IsRun(states, events) && n < |states|
    requires forall i {:trigger events[i]} | 0 <= i < |events| :: Patient(states[i], events[i])
    ensures Lasting(states[n])
  {
    DurableHolds(states, events, n);
  }

  /** A run is durable, with whatever patient steps may follow, exactly when all of its steps are patient. */
  lemma RunIsDurableExactly(states: seq<State>, events: seq<Event>)
    requires IsRun(states, events)
    ensures (forall n | 0 <= n < |states| :: !CanVanish(states[n])) <==>
            (forall i {:trigger events[i]} | 0 <= i < |events| :: Patient(states[i], events[i]))
  {
    if forall i {:trigger events[i]} | 0 <= i < |events| :: Patient(states[i], events[i]) {
      forall n | 0 <= n < |states| ensures !CanVanish(states[n]) {
        DurableHolds(states, events, n);
        DurableCannotVanish(states[n]);
      }
    } else {
      var n := FirstHastyStep(states, events, |events|);
      DurableHolds(states, events, n);
      VanishesExactly(states[n], events[n], states[n + 1]);
    }
  }

  lemma {:induction false} FirstHastyStep(states: seq<State>, events: seq<Event>, n: nat) returns (first: nat)
    requires |states| == |events| + 1 && n <= |events|
    requires exists i {:trigger events[i]} | 0 <= i < n :: !Patient(states[i], events[i])
    ensures first < n && !Patient(states[first], events[first])
    ensures forall i {:trigger events[i]} | 0 <= i < first :: Patient(states[i], events[i])
    decreases n
  {
    if i {:trigger events[i]} :| 0 <= i < n - 1 && !Patient(states[i], events[i]) {
      first := FirstHastyStep(states, events, n - 1);
    } else {
      first := n - 1;
    }
  }

  // ------------------------------------------------------------------ exactly when a verdict stays true

  /** The record's commit is this attempt's. */
  predicate IsCommitter(s: State, t: Token) {
    s.record.Some? && s.record.value.committed == Some(t)
  }

  /** Some steps of everybody lead from here to a record whose commit is this attempt's. */
  ghost predicate CanBecomeCommitter(s: State, t: Token) {
    exists events {:trigger RunOf(Next, s, events)} ::
      RunOf(Next, s, events).Some? && IsCommitter(RunOf(Next, s, events).value, t)
  }

  /** What an attempt may commit, it might have before. */
  lemma MayCommitFades(s: State, e: Event, s': State, t: Token)
    requires Next(s, e) == Some(s') && t in s.attempts && MayCommit(s', t)
    ensures MayCommit(s, t)
  {
    if Commits(s, e) {
      CommitAddsOne(s, e, s');
      assert s'.leased == s.leased;
    } else if e.Call? {
      CallChangesRecordOnlyToFail(s, e.t, e.effect, e.reply, s');
      CallKeepsLeases(s, e.t, e.effect, e.reply, s');
    } else if e.ClaimOrphan? || e.Judge? || e.CleanerCall? {
      QuietCleanerStep(s, e, s');
      assert s'.leased == s.leased;
    }
  }

  lemma CallKeepsLeases(s: State, t: Token, effect: bool, reply: bool, s': State)
    requires t in s.attempts && NextCall(s, t, effect, reply) == Some(s')
    ensures s'.leased == s.leased
  {
  }

  /** The attempt has not committed the record and has no transaction left that may. */
  predicate IsOver(s: State, t: Token) {
    t in s.attempts && PastPublishing(s.attempts[t]) && !IsCommitter(s, t) && (t in s.late ==> !MayCommit(s, t))
  }

  lemma StepKeepsOver(s: State, e: Event, s': State, t: Token)
    requires IsOver(s, t) && Next(s, e) == Some(s')
    ensures IsOver(s', t)
  {
    if MayCommit(s', t) {
      MayCommitFades(s, e, s', t);
    }
    if Commits(s, e) {
      CommitAddsOne(s, e, s');
      if e.Call? {
        PastCallStaysPast(s, e.t, e.effect, e.reply, s', t);
      }
    } else {
      QuietStep(s, e, s');
    }
  }

  lemma PastCallStaysPast(s: State, u: Token, effect: bool, reply: bool, s': State, t: Token)
    requires u in s.attempts && NextCall(s, u, effect, reply) == Some(s') && t in s.attempts && PastPublishing(s.attempts[t])
    ensures t in s'.attempts && PastPublishing(s'.attempts[t])
  {
    CallChangesOnePhase(s, u, effect, reply, s');
    if u == t {
      PastStaysPast(s, t, effect, reply, s');
    }
  }

  lemma {:induction false} OverForGood(s: State, events: seq<Event>, t: Token)
    requires IsOver(s, t) && RunOf(Next, s, events).Some?
    ensures IsOver(RunOf(Next, s, events).value, t)
    decreases |events|
  {
    if events != [] {
      StepKeepsOver(s, events[0], Next(s, events[0]).value, t);
      OverForGood(Next(s, events[0]).value, events[1..], t);
    }
  }

  lemma CanBecomeBefore(s: State, e: Event, s': State, t: Token)
    requires Next(s, e) == Some(s') && CanBecomeCommitter(s', t)
    ensures CanBecomeCommitter(s, t)
  {
    var events {:trigger RunOf(Next, s', events)} :| RunOf(Next, s', events).Some? && IsCommitter(RunOf(Next, s', events).value, t);
    assert ([e] + events)[0] == e && ([e] + events)[1..] == events;
    assert RunOf(Next, s, [e] + events) == RunOf(Next, s', events);
  }

  lemma LateCommitTurns(s: State, t: Token)
    requires t in s.late && CanPublish(s, t, s.late[t])
    ensures CanBecomeCommitter(s, t)
  {
    var s' := Next(s, LateCommit(t)).value;
    assert RunOf(Next, s', []) == Some(s') && IsCommitter(s', t);
    CanBecomeBefore(s, LateCommit(t), s', t);
  }

  /** The transaction finds the row that its commit clears, or the compensation brings it back. */
  lemma CompensationTurns(s: State, t: Token, p: Publication)
    requires t in s.attempts && s.attempts[t] == Deleting(Uncommitted, p)
    requires t in s.late && MayCommit(s, t) && s.late[t].remoteKey == Some(ObjectKey(t))
    ensures CanBecomeCommitter(s, t)
  {
    if ObjectKey(t) in s.ledger {
      LateCommitTurns(s, t);
    } else {
      var deleted := Next(s, Call(t, true, true)).value;
      var cleared := Next(deleted, Call(t, true, true)).value;
      var recorded := Next(cleared, Call(t, true, true)).value;
      LateCommitTurns(recorded, t);
      CanBecomeBefore(cleared, Call(t, true, true), recorded, t);
      CanBecomeBefore(deleted, Call(t, true, true), cleared, t);
      CanBecomeBefore(s, Call(t, true, true), deleted, t);
    }
  }

  lemma ReadingNothingIsNoCommit(s: State, t: Token)
    requires Fenced(s) && t in s.attempts && s.attempts[t].Reading? && !ReadsCommitted(s.record, t, s.attempts[t].p)
    ensures !IsCommitter(s, t)
  {
    assert s.commits != [] ==> CommitIsPast(s, s.commits[|s.commits| - 1]);
  }

  /**
    An answer "not committed" can still be overturned exactly when the attempt's transaction may yet commit:
    it got no reply, has not been aborted, and the attempt still owns the record, which is not being
    deleted, and holds its lease.
   */
  lemma VerdictStaysExactly(states: seq<State>, events: seq<Event>, n: nat, t: Token, effect: bool, s': State)
    requires IsRun(states, events) && n < |states|
    requires t in states[n].attempts && states[n].attempts[t].Reading?
    requires !ReadsCommitted(states[n].record, t, states[n].attempts[t].p)
    requires NextCall(states[n], t, effect, true) == Some(s')
    ensures CanBecomeCommitter(s', t) <==> t in states[n].late && MayCommit(states[n], t)
  {
    var s := states[n];
    FencedHolds(states, events, n);
    LocatorsAreOwnIn(states, events, n);
    ReadingNothingIsNoCommit(s, t);
    if t in s.late && MayCommit(s, t) {
      assert LateIsPast(s, t) && LocatorIsOwn(s.attempts[t], t);
      if s.late[t].remoteKey.None? {
        LateCommitTurns(s', t);
      } else {
        CompensationTurns(s', t, s.attempts[t].p);
      }
    } else {
      assert IsOver(s', t);
      forall more {:trigger RunOf(Next, s', more)} | RunOf(Next, s', more).Some?
        ensures !IsCommitter(RunOf(Next, s', more).value, t)
      {
        OverForGood(s', more, t);
      }
    }
  }

  // ------------------------------------------------------------------ a run that deletes a committed object

  lemma VerdictBeforeCommit(events0: seq<Event>, s0: State, t: Token, p: Publication) returns (events: seq<Event>, s: State)
    requires RunOf(Next, Losses.Fresh(), events0) == Some(s0) && forall e | e in events0 :: Losses.IsPlain(e)
    requires t in s0.attempts && s0.attempts[t] == Publishing(p) && p.pending && !IsCommitter(s0, t)
    ensures RunOf(Next, Losses.Fresh(), events) == Some(s) && forall e | e in events :: Losses.IsPlain(e)
    ensures s == s0.(late := s0.late[t := p], issued := s0.issued + {t}, objects := s0.objects - {ObjectKey(t)},
                     attempts := s0.attempts[t := Clearing(Uncommitted, p)])
  {
    events, s := Losses.Then(events0, s0, Call(t, false, false));
    events, s := Losses.Then(events, s, Call(t, true, true));
    events, s := Losses.Then(events, s, Call(t, true, true));
  }

  /**
    The reply to the commit is lost, the record is read back too early, the compensation deletes the object,
    and the transaction then commits its locator.
   */
  lemma LateCommitNamesADeletedObject() returns (events: seq<Event>, s: State)
    ensures RunOf(Next, Losses.Fresh(), events) == Some(s) && forall e | e in events :: Losses.IsPlain(e)
    ensures !Lasting(s) && IsCommitter(s, 1)
  {
    events, s := Losses.CaptureUpToUpload([], Losses.Fresh(), 1);
    events, s := Losses.UploadUpToPublish(events, s, 1);
    events, s := VerdictBeforeCommit(events, s, 1, Remote(1, 1, 1));
    events, s := Losses.Then(events, s, LateCommit(1));
  }
}
