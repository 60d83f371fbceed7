/** Attempts on one backup are fenced from each other by their tokens. */
module CaptureFencing {
  import opened Wrappers
  import opened CaptureProtocol

  /** The attempt has issued its publishing transaction. */
  predicate PastPublishing(phase: Phase) {
    || phase.Reading? || phase.Committed? || phase.OutcomeUnknown? || phase.MarkingFailed? || phase.GaveUp?
    || ((phase.Deleting? || phase.Clearing? || phase.Releasing? || phase.Recording?) && phase.why == Uncommitted)
  }

  /** The record's size, checksum, locator and committed token all come from this one commit. */
  predicate IsFrom(r: Record, c: Commit) {
    && r.committed == Some(c.attempt) && r.size == Some(c.p.size) && r.checksum == Some(c.p.checksum)
    && r.remoteKey == c.p.remoteKey
  }

  predicate RecordIsLastCommit(s: State) {
    s.record.Some? ==>
      if s.commits == [] then
        s.record.value.committed.None? && s.record.value.size.None? && s.record.value.checksum.None?
        && s.record.value.remoteKey.None?
      else IsFrom(s.record.value, s.commits[|s.commits| - 1])
  }

  predicate CommitIsPast(s: State, c: Commit) {
    && c.attempt in s.attempts
    && PastPublishing(s.attempts[c.attempt])
    && (s.attempts[c.attempt].Reading? ==> s.attempts[c.attempt].p == c.p)
  }

  predicate CommitsArePast(s: State) {
    forall i | 0 <= i < |s.commits| :: CommitIsPast(s, s.commits[i])
  }

  predicate CommitsAreDistinct(s: State) {
    forall i, j | 0 <= i < j < |s.commits| :: s.commits[i].attempt != s.commits[j].attempt
  }

  predicate OwnerHasBegun(s: State) {
    s.record.Some? && s.record.value.attempt.Some? ==> s.record.value.attempt.value in s.attempts
  }

  /** A transaction that may still commit is that of an attempt past its publishing, which has not committed. */
  predicate LateIsPast(s: State, t: Token) {
    && t in s.late && t in s.attempts && PastPublishing(s.attempts[t])
    && (s.attempts[t].Reading? ==> s.attempts[t].p == s.late[t])
    && (forall i | 0 <= i < |s.commits| :: s.commits[i].attempt != t)
  }

  predicate LateArePast(s: State) {
    forall t | t in s.late :: LateIsPast(s, t)
  }

  /** An attempt that reports success is in the list of commits, with what it reports. */
  predicate SuccessIsCommitted(s: State) {
    forall t | t in s.attempts && s.attempts[t].Committed? :: Commit(t, s.attempts[t].p) in s.commits
  }

  predicate Fenced(s: State) {
    RecordIsLastCommit(s) && CommitsArePast(s) && CommitsAreDistinct(s) && OwnerHasBegun(s) && SuccessIsCommitted(s) && LateArePast(s)
  }

  // A step that commits nothing leaves the committed fields alone and every attempt past publishing past it.

  /** Same commits, same committed fields, and no attempt comes back from publishing. */
  predicate Quiet(s: State, s': State) {
    && s'.commits == s.commits
    && (s'.record.Some? ==> s.record.Some? && SameCommit(s.record.value, s'.record.value))
    && s.attempts.Keys <= s'.attempts.Keys
    && (forall t | t in s'.late && t !in s.late :: IsJustIssued(s, s', t))
    && (forall t | t in s'.late && t in s.late :: s'.late[t] == s.late[t] || IsJustIssued(s, s', t))
    && (forall t | t in s.attempts && PastPublishing(s.attempts[t]) ::
          PastPublishing(s'.attempts[t]) && (s'.attempts[t].Reading? ==> s.attempts[t] == s'.attempts[t]))
    && (s'.record.Some? && s'.record.value.attempt.Some? && s'.record.value.attempt != s.record.value.attempt
        ==> s'.record.value.attempt.value in s'.attempts)
  }

  /** The attempt has got no reply to its publishing transaction. */
  predicate IsJustIssued(s: State, s': State, t: Token) {
    && t in s.attempts && !PastPublishing(s.attempts[t])
    && t in s'.late && t in s'.attempts && s'.attempts[t] == Reading(s'.late[t])
  }

  predicate SameCommit(r: Record, r': Record) {
    r'.size == r.size && r'.checksum == r.checksum && r'.remoteKey == r.remoteKey && r'.committed == r.committed
  }

  /** The attempt is giving up an object or a row. */
  predicate GivesUp(phase: Phase) {
    phase.Deleting? || phase.Clearing? || phase.Releasing? || phase.Recording?
  }

  lemma GivingUpChangesOnePhase(s: State, t: Token, effect: bool, reply: bool, s': State)
    requires t in s.attempts && NextCall(s, t, effect, reply) == Some(s') && GivesUp(s.attempts[t])
    ensures s'.attempts == s.attempts[t := s'.attempts[t]]
  {
    match s.attempts[t] {
      case Deleting(_, _) =>
      case Clearing(_, _) =>
      case Releasing(_, _) =>
      case Recording(_, _) =>
    }
  }

  lemma CallChangesOnePhase(s: State, t: Token, effect: bool, reply: bool, s': State)
    requires t in s.attempts && NextCall(s, t, effect, reply) == Some(s')
    ensures s'.attempts == s.attempts[t := s'.attempts[t]]
  {
    if GivesUp(s.attempts[t]) {
      GivingUpChangesOnePhase(s, t, effect, reply, s');
    } else {
      match s.attempts[t] {
        case Uploading(_, _) =>
        case Publishing(_) =>
        case Reading(_) =>
        case MarkingFailed =>
      }
    }
  }

  lemma PastStaysPast(s: State, t: Token, effect: bool, reply: bool, s': State)
    requires t in s.attempts && NextCall(s, t, effect, reply) == Some(s') && PastPublishing(s.attempts[t])
    ensures PastPublishing(s'.attempts[t]) && !s'.attempts[t].Reading?
  {
  }

  lemma CallChangesRecordOnlyToFail(s: State, t: Token, effect: bool, reply: bool, s': State)
    requires t in s.attempts && NextCall(s, t, effect, reply) == Some(s')
    requires s.attempts[t].Publishing? ==> !effect
    ensures s'.commits == s.commits
    ensures s'.record == s.record || s'.record == FailOwned(s.record, t)
  {
  }

  lemma QuietCallIsQuiet(s: State, t: Token, effect: bool, reply: bool, s': State)
    requires t in s.attempts && NextCall(s, t, effect, reply) == Some(s')
    requires s.attempts[t].Publishing? ==> !effect
    ensures Quiet(s, s')
  {
    CallChangesOnePhase(s, t, effect, reply, s');
    CallChangesRecordOnlyToFail(s, t, effect, reply, s');
    if PastPublishing(s.attempts[t]) {
      PastStaysPast(s, t, effect, reply, s');
    }
  }

  predicate Commits(s: State, e: Event) {
    || (e.Call? && e.effect && e.t in s.attempts && s.attempts[e.t].Publishing?)
    || (e.LateCommit? && e.t in s.late)
  }

  /** What a committing event publishes. */
  function CommitOf(s: State, e: Event): Publication
    requires Commits(s, e)
  {
    if e.Call? then s.attempts[e.t].p else s.late[e.t]
  }

  lemma QuietAttemptStep(s: State, e: Event, s': State)
    requires Next(s, e) == Some(s')
    requires e.Begin? || e.Captured? || e.CaptureFails? || e.Upload? || e.Verify?
    ensures Quiet(s, s')
  {
  }

  lemma QuietOtherStep(s: State, e: Event, s': State)
    requires NextOther(s, e) == Some(s') && !e.LateCommit?
    ensures Quiet(s, s')
  {
  }

  lemma QuietCleanerStep(s: State, e: Event, s': State)
    requires Next(s, e) == Some(s') && (e.ClaimOrphan? || e.Judge? || e.CleanerCall?)
    ensures s'.attempts == s.attempts && s'.record == s.record && s'.commits == s.commits
  {
  }

  lemma QuietStep(s: State, e: Event, s': State)
    requires Next(s, e) == Some(s') && !Commits(s, e)
    ensures Quiet(s, s')
  {
    if e.Call? {
      QuietCallIsQuiet(s, e.t, e.effect, e.reply, s');
    } else if e.Begin? || e.Captured? || e.CaptureFails? || e.Upload? || e.Verify? {
      QuietAttemptStep(s, e, s');
    } else if e.ClaimOrphan? || e.Judge? || e.CleanerCall? {
      QuietCleanerStep(s, e, s');
    } else {
      QuietOtherStep(s, e, s');
    }
  }

  lemma QuietKeepsFenced(s: State, s': State)
    requires Fenced(s) && Quiet(s, s') && SuccessIsCommitted(s')
    ensures Fenced(s')
  {
    forall i | 0 <= i < |s'.commits| ensures CommitIsPast(s', s'.commits[i]) {
      assert CommitIsPast(s, s.commits[i]);
    }
  }

  lemma OnlyCallsSucceed(s: State, e: Event, s': State, t: Token)
    requires Next(s, e) == Some(s') && !e.Call? && t in s'.attempts && s'.attempts[t].Committed?
    ensures t in s.attempts && s.attempts[t] == s'.attempts[t]
  {
  }

  lemma ReadingSucceeds(s: State, t: Token, effect: bool, reply: bool, s': State)
    requires t in s.attempts && NextCall(s, t, effect, reply) == Some(s') && s'.attempts[t].Committed?
    requires s.attempts[t].Publishing? ==> !effect
    ensures s.attempts[t].Reading? && ReadsCommitted(s.record, t, s.attempts[t].p) && s'.attempts[t].p == s.attempts[t].p
  {
  }

  /** Reading back "committed" finds the attempt's own commit, which is the last one. */
  lemma QuietKeepsSuccess(s: State, e: Event, s': State)
    requires Fenced(s) && Next(s, e) == Some(s') && !Commits(s, e) && s'.commits == s.commits
    ensures SuccessIsCommitted(s')
  {
    forall t | t in s'.attempts && s'.attempts[t].Committed? ensures Commit(t, s'.attempts[t].p) in s'.commits {
      if !e.Call? {
        OnlyCallsSucceed(s, e, s', t);
      } else {
        CallChangesOnePhase(s, e.t, e.effect, e.reply, s');
        if e.t == t {
          ReadingSucceeds(s, t, e.effect, e.reply, s');
          ReadBackIsLast(s, t);
        }
      }
    }
  }

  lemma ReadBackIsLast(s: State, t: Token)
    requires Fenced(s) && t in s.attempts && s.attempts[t].Reading? && ReadsCommitted(s.record, t, s.attempts[t].p)
    ensures Commit(t, s.attempts[t].p) in s.commits
  {
    var last := s.commits[|s.commits| - 1];
    assert CommitIsPast(s, last);
    assert last == Commit(t, s.attempts[t].p);
  }

  lemma CommitAddsOne(s: State, e: Event, s': State)
    requires Next(s, e) == Some(s') && Commits(s, e)
    ensures s'.commits == s.commits + [Commit(e.t, CommitOf(s, e))]
    ensures s.record.Some? && s'.record == Some(PublishRecord(s.record.value, e.t, CommitOf(s, e))) && Owns(s.record, e.t)
    ensures s'.attempts == if e.Call? then s.attempts[e.t := s'.attempts[e.t]] else s.attempts
    ensures e.Call? ==> s'.late == s.late && (s'.attempts[e.t] == Committed(CommitOf(s, e)) || s'.attempts[e.t] == Reading(CommitOf(s, e)))
    ensures e.LateCommit? ==> s'.late == s.late - {e.t}
  {
  }

  lemma CommitKeepsFenced(s: State, e: Event, s': State)
    requires Fenced(s) && Next(s, e) == Some(s') && Commits(s, e)
    ensures Fenced(s')
    ensures s'.commits == s.commits + [Commit(e.t, CommitOf(s, e))]
  {
    CommitAddsOne(s, e, s');
    assert e.LateCommit? ==> LateIsPast(s, e.t);
    forall i | 0 <= i < |s.commits| ensures CommitIsPast(s', s.commits[i]) && s.commits[i].attempt != e.t {
      assert CommitIsPast(s, s.commits[i]);
    }
    forall t | t in s'.late ensures LateIsPast(s', t) {
      assert LateIsPast(s, t);
    }
  }

  lemma StepKeepsFenced(s: State, e: Event, s': State)
    requires Fenced(s) && Next(s, e) == Some(s')
    ensures Fenced(s')
  {
    if Commits(s, e) {
      CommitKeepsFenced(s, e, s');
    } else {
      QuietStep(s, e, s');
      QuietKeepsSuccess(s, e, s');
      QuietKeepsFenced(s, s');
    }
  }

  lemma {:induction false} FencedHolds(states: seq<State>, events: seq<Event>, n: nat)
    requires IsRun(states, events) && n < |states|
    ensures Fenced(states[n])
    decreases n
  {
    if n > 0 {
      FencedHolds(states, events, n - 1);
      assert Next(states[n - 1], events[n - 1]) == Some(states[n]);
      StepKeepsFenced(states[n - 1], events[n - 1], states[n]);
    }
  }

  /** At every moment the record's committed fields are those of the last commit, all of them. */
  lemma OneAttemptOwnsTheCommit(states: seq<State>, events: seq<Event>, n: nat)
    requires IsRun(states, events) && n < |states| && states[n].record.Some? && states[n].commits != []
    ensures IsFrom(states[n].record.value, states[n].commits[|states[n].commits| - 1])
  {
    FencedHolds(states, events, n);
  }

  /** Reconciling a commit whose outcome is unclear answers "committed" exactly when it is the last commit. */
  lemma VerdictIsExact(states: seq<State>, events: seq<Event>, n: nat, t: Token, p: Publication)
    requires IsRun(states, events) && n < |states|
    requires t in states[n].attempts && states[n].attempts[t] == Reading(p)
    ensures ReadsCommitted(states[n].record, t, p) <==>
            && states[n].record.Some?
            && states[n].commits != []
            && states[n].commits[|states[n].commits| - 1].attempt == t
  {
    FencedHolds(states, events, n);
    var s := states[n];
    if s.record.Some? && s.commits != [] {
      assert CommitIsPast(s, s.commits[|s.commits| - 1]);
    }
  }

  /** No attempt commits twice. */
  lemma EachAttemptCommitsOnce(states: seq<State>, events: seq<Event>, n: nat, i: nat, j: nat)
    requires IsRun(states, events) && n < |states| && i < j < |states[n].commits|
    ensures states[n].commits[i].attempt != states[n].commits[j].attempt
  {
    FencedHolds(states, events, n);
  }

  // ------------------------------------------------------------------ superseded attempts

  predicate IsStepOf(e: Event, t: Token) {
    (e.Captured? || e.CaptureFails? || e.Upload? || e.Verify? || e.Call?) && e.t == t
  }

  /** A step of the attempt, or of a transaction of it that got no reply. */
  predicate ActsFor(e: Event, t: Token) {
    IsStepOf(e, t) || ((e.LateCommit? || e.Abort?) && e.t == t)
  }

  lemma SupersededCallChangesNothing(s: State, t: Token, effect: bool, reply: bool, s': State)
    requires t in s.attempts && NextCall(s, t, effect, reply) == Some(s') && !Owns(s.record, t)
    ensures s'.record == s.record && s'.commits == s.commits
  {
    if s.attempts[t].Publishing? {
      assert !CanPublish(s, t, s.attempts[t].p);
    } else {
      CallChangesRecordOnlyToFail(s, t, effect, reply, s');
    }
  }

  /** An attempt that does not own the record changes neither the record nor the list of commits. */
  lemma SupersededChangesNothing(s: State, e: Event, t: Token, s': State)
    requires Next(s, e) == Some(s') && ActsFor(e, t) && !Owns(s.record, t)
    ensures s'.record == s.record && s'.commits == s.commits
  {
    match e {
      case Call(_, effect, reply) => SupersededCallChangesNothing(s, t, effect, reply, s');
      case Upload(_, _) =>
      case _ =>
    }
  }

  lemma StepKeepsSuperseded(s: State, e: Event, t: Token, s': State)
    requires Next(s, e) == Some(s') && t in s.attempts && !Owns(s.record, t)
    ensures t in s'.attempts && !Owns(s'.record, t)
  {
    match e {
      case Call(u, effect, reply) =>
        CallChangesOnePhase(s, u, effect, reply, s');
        if !(s.attempts[u].Publishing? && effect) {
          CallChangesRecordOnlyToFail(s, u, effect, reply, s');
        }
      case _ =>
    }
  }

  /** Once superseded, an attempt stays superseded: none of its later steps or transactions publishes or marks anything failed. */
  lemma {:induction false} SupersededForever(states: seq<State>, events: seq<Event>, t: Token, i: nat, j: nat)
    requires IsRun(states, events) && i <= j < |events|
    requires t in states[i].attempts && !Owns(states[i].record, t)
    ensures t in states[j].attempts && !Owns(states[j].record, t)
    ensures ActsFor(events[j], t) ==>
            states[j + 1].record == states[j].record && states[j + 1].commits == states[j].commits
    decreases j
  {
    if i < j {
      SupersededForever(states, events, t, i, j - 1);
      assert Next(states[j - 1], events[j - 1]) == Some(states[j]);
      StepKeepsSuperseded(states[j - 1], events[j - 1], t, states[j]);
    }
    assert Next(states[j], events[j]) == Some(states[j + 1]);
    if ActsFor(events[j], t) {
      SupersededChangesNothing(states[j], events[j], t, states[j + 1]);
    }
  }
}
