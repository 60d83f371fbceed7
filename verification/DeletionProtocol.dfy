/**
  The deletion of one backup record as a state machine: the first deleter and any number of
  reconcilers that take its claim over run against the admission of new work and against captures.
  Transactions, remote deletions and the unlink are single steps; a run that crashes takes no more.
 */
module DeletionProtocol {
  import opened Wrappers

  type Token = nat
  type Key = nat

  datatype Status = Queued | Running | Settled

  /** at is the last heartbeat of the claim, since that of the reconciler that took it over. */
  datatype Reconciliation = Reconciliation(token: Token, since: int)
  datatype Claim = Claim(token: Token, at: int, reconciliation: Option<Reconciliation>)

  /** keys are all remote keys the record names; late are those appended after the current run read it. */
  datatype Record = Record(status: Status, claim: Option<Claim>, keys: set<Key>, late: set<Key>)

  const QUIESCENCE_MS := 11 * 60_000

  predicate Quiescent(at: int, now: int) {
    at <= now - QUIESCENCE_MS
  }

  datatype RunPhase = Removing(remaining: seq<Key>) | Finishing | Deleted | Stopped

  /** A deletion run with the tokens it goes by and the keys it read from the record. */
  datatype Run = Run(claim: Token, reconciliation: Option<Token>, keys: seq<Key>, phase: RunPhase)

  datatype State = State(
    record: Option<Record>, jobs: set<Token>, restores: set<Token>, objects: set<Key>, archive: bool,
    runs: map<Token, Run>, used: set<Key>, now: int)

  datatype Event =
    | Enqueue(job: Token, withRestore: Option<Token>)
    | FinishJob(job: Token)
    | SettleRestore(restore: Token)
    | BeginCapture
    | Upload(key: Key)
    | Publish(locator: Option<Key>, archive: bool)
    | FailCapture
    | AppendOrphanKey(key: Key)
    | ClaimDeletion(run: Token, order: seq<Key>)
    | TakeOver(run: Token, order: seq<Key>)
    | Heartbeat(run: Token)
    | RemoveKey(run: Token, effect: bool, reply: bool)
    | Unlink(run: Token, effect: bool, reply: bool)
    | Finish(run: Token, reply: bool)
    | Tick(ms: nat)

  // ------------------------------------------------------------------ the transactions

  predicate CanAdmit(record: Option<Record>) {
    record.Some? && record.value.claim.None?
  }

  predicate CanClaim(s: State) {
    && s.record.Some? && s.record.value.status == Settled && s.record.value.claim.None?
    && s.jobs == {} && s.restores == {}
  }

  predicate ReconciliationIsQuiescent(claim: Claim, now: int) {
    claim.reconciliation.Some? ==> Quiescent(claim.reconciliation.value.since, now)
  }

  predicate CanTakeOver(s: State) {
    && s.record.Some? && s.record.value.claim.Some?
    && Quiescent(s.record.value.claim.value.at, s.now)
    && ReconciliationIsQuiescent(s.record.value.claim.value, s.now)
    && s.jobs == {} && s.restores == {}
  }

  /** The record's claim and reconciliation tokens are the run's. */
  predicate Owns(record: Option<Record>, run: Run) {
    && record.Some? && record.value.claim.Some?
    && record.value.claim.value.token == run.claim
    && (match run.reconciliation
        case None => record.value.claim.value.reconciliation.None?
        case Some(token) =>
          record.value.claim.value.reconciliation.Some? && record.value.claim.value.reconciliation.value.token == token)
  }

  function Beat(claim: Claim, run: Run, now: int): Claim {
    match run.reconciliation
    case None => claim.(at := now)
    case Some(token) => claim.(at := now, reconciliation := Some(Reconciliation(token, now)))
  }

  /** order is the record's key set in some order without repetition. */
  predicate Orders(order: seq<Key>, keys: set<Key>) {
    && (forall key | key in order :: key in keys)
    && (forall key | key in keys :: key in order)
    && forall i, j | 0 <= i < j < |order| :: order[i] != order[j]
  }

  function SetPhase(s: State, r: Token, phase: RunPhase): State
    requires r in s.runs
  {
    s.(runs := s.runs[r := s.runs[r].(phase := phase)])
  }

  function Start(s: State, r: Token, claim: Claim, order: seq<Key>): State
    requires s.record.Some?
  {
    var reconciliation := if claim.reconciliation.Some? then Some(claim.reconciliation.value.token) else None;
    s.(record := Some(s.record.value.(claim := Some(claim), late := {})),
       runs := s.runs[r := Run(claim.token, reconciliation, order, Removing(order))])
  }

  /** The closing transaction deletes the record only for its owner, and only with no restore pending. */
  predicate CanFinish(s: State, run: Run) {
    Owns(s.record, run) && s.restores == {}
  }

  // ------------------------------------------------------------------ steps

  function NextRun(s: State, e: Event): Option<State> {
    match e
    case Heartbeat(r) =>
      if r !in s.runs then None
      else if Owns(s.record, s.runs[r])
      then Some(s.(record := Some(s.record.value.(claim := Some(Beat(s.record.value.claim.value, s.runs[r], s.now))))))
      else Some(s)
    case RemoveKey(r, effect, reply) =>
      if r !in s.runs || !s.runs[r].phase.Removing? || s.runs[r].phase.remaining == [] || (reply && !effect) then None
      else
        var remaining := s.runs[r].phase.remaining;
        var s' := if effect then s.(objects := s.objects - {remaining[0]}) else s;
        Some(SetPhase(s', r, if !reply then Stopped else Removing(remaining[1..])))
    case Unlink(r, effect, reply) =>
      if r !in s.runs || s.runs[r].phase != Removing([]) || (reply && !effect) then None
      else
        var s' := if effect then s.(archive := false) else s;
        Some(SetPhase(s', r, if reply then Finishing else Stopped))
    case Finish(r, reply) =>
      if r !in s.runs || s.runs[r].phase != Finishing then None
      else if CanFinish(s, s.runs[r])
      then Some(SetPhase(s.(record := None), r, if reply then Deleted else Stopped))
      else Some(SetPhase(s, r, Stopped))
    case _ => None
  }

  function NextWork(s: State, e: Event): Option<State> {
    match e
    case Enqueue(job, restore) =>
      if CanAdmit(s.record)
      then Some(s.(jobs := s.jobs + {job}, restores := if restore.Some? then s.restores + {restore.value} else s.restores))
      else None
    case FinishJob(job) => Some(s.(jobs := s.jobs - {job}))
    case SettleRestore(restore) => Some(s.(restores := s.restores - {restore}))
    case BeginCapture =>
      if CanAdmit(s.record) then Some(s.(record := Some(s.record.value.(status := Running)))) else None
    case Upload(key) => if key !in s.used then Some(s.(objects := s.objects + {key}, used := s.used + {key})) else None
    case Publish(key, archive) =>
      if CanAdmit(s.record) && (key.Some? ==> key.value in s.used)
      then Some(s.(record := Some(s.record.value.(status := Settled,
                                                  keys := if key.Some? then s.record.value.keys + {key.value} else s.record.value.keys)),
                   archive := s.archive || archive))
      else None
    case FailCapture =>
      if s.record.Some? && s.record.value.status != Settled
      then Some(s.(record := Some(s.record.value.(status := Settled)))) else None
    case AppendOrphanKey(key) =>
      if s.record.Some? && key in s.used
      then Some(s.(record := Some(s.record.value.(keys := s.record.value.keys + {key},
                                                  late := if key in s.record.value.keys then s.record.value.late
                                                          else s.record.value.late + {key}))))
      else None
    case Tick(ms) => Some(s.(now := s.now + ms))
    case _ => None
  }

  function Next(s: State, e: Event): Option<State> {
    match e
    case ClaimDeletion(r, order) =>
      if r !in s.runs && CanClaim(s) && Orders(order, s.record.value.keys)
      then Some(Start(s, r, Claim(r, s.now, None), order)) else None
    case TakeOver(r, order) =>
      if r !in s.runs && CanTakeOver(s) && Orders(order, s.record.value.keys)
      then Some(Start(s, r, Claim(s.record.value.claim.value.token, s.now, Some(Reconciliation(r, s.now))), order)) else None
    case Heartbeat(_) => NextRun(s, e)
    case RemoveKey(_, _, _) => NextRun(s, e)
    case Unlink(_, _, _) => NextRun(s, e)
    case Finish(_, _) => NextRun(s, e)
    case _ => NextWork(s, e)
  }

  predicate Initial(s: State) {
    && s.record.Some? && s.record.value.claim.None? && s.record.value.late == {} && s.record.value.keys <= s.used
    && s.objects <= s.used && s.runs == map[]
  }

  predicate IsRun(states: seq<State>, events: seq<Event>) {
    && |states| == |events| + 1
    && Initial(states[0])
    && forall i {:trigger events[i]} | 0 <= i < |events| :: Next(states[i], events[i]) == Some(states[i + 1])
  }

  // ------------------------------------------------------------------ deletion excludes work

  predicate Excludes(s: State) {
    s.record.Some? && s.record.value.claim.Some? ==>
      s.jobs == {} && s.restores == {} && s.record.value.status == Settled
  }

  lemma StepKeepsExclusion(s: State, e: Event, s': State)
    requires Excludes(s) && Next(s, e) == Some(s')
    ensures Excludes(s')
  {
  }

  /** A claimed record has no queued or running job, no pending restore, and no capture under way. */
  lemma {:induction false} DeletionExcludesWork(states: seq<State>, events: seq<Event>, n: nat)
    requires IsRun(states, events) && n < |states|
    ensures Excludes(states[n])
    decreases n
  {
    if n > 0 {
      DeletionExcludesWork(states, events, n - 1);
      assert Next(states[n - 1], events[n - 1]) == Some(states[n]);
      StepKeepsExclusion(states[n - 1], events[n - 1], states[n]);
    }
  }

  /** While a record is claimed nothing is admitted to it, and no capture begins or publishes. */
  lemma ClaimRefusesWork(s: State, e: Event)
    requires s.record.Some? && s.record.value.claim.Some?
    requires e.Enqueue? || e.BeginCapture? || e.Publish?
    ensures Next(s, e).None?
  {
  }

  // ------------------------------------------------------------------ a single owner

  /** Every run goes by the token it started with: as the claim's, or as the reconciliation's. */
  predicate RunsAreNamed(s: State) {
    forall r | r in s.runs :: OwnToken(s.runs[r]) == r
  }

  function OwnToken(run: Run): Token {
    match run.reconciliation case None => run.claim case Some(token) => token
  }

  predicate OwnerIs(s: State, r: Token) {
    r in s.runs && Owns(s.record, s.runs[r])
  }

  /** What a step that starts no run leaves of the runs and of their ownership. */
  lemma OtherStepsKeepRuns(s: State, e: Event, s': State)
    requires Next(s, e) == Some(s') && !e.ClaimDeletion? && !e.TakeOver?
    ensures s'.runs.Keys == s.runs.Keys
    ensures forall r | r in s.runs :: SameRun(s.runs[r], s'.runs[r])
    ensures s'.record.Some? ==> s.record.Some? && SameOwner(s.record.value.claim, s'.record.value.claim)
  {
  }

  predicate SameRun(run: Run, run': Run) {
    run'.claim == run.claim && run'.reconciliation == run.reconciliation && run'.keys == run.keys
  }

  /** The same tokens; only the heartbeat may have moved. */
  predicate SameOwner(claim: Option<Claim>, claim': Option<Claim>) {
    match claim
    case None => claim'.None?
    case Some(c) =>
      && claim'.Some? && claim'.value.token == c.token
      && claim'.value.reconciliation.Some? == c.reconciliation.Some?
      && (c.reconciliation.Some? ==> claim'.value.reconciliation.value.token == c.reconciliation.value.token)
  }

  lemma StepKeepsNames(s: State, e: Event, s': State)
    requires RunsAreNamed(s) && Next(s, e) == Some(s')
    ensures RunsAreNamed(s')
  {
    if !e.ClaimDeletion? && !e.TakeOver? {
      OtherStepsKeepRuns(s, e, s');
    }
  }

  lemma {:induction false} NamesHold(states: seq<State>, events: seq<Event>, n: nat)
    requires IsRun(states, events) && n < |states|
    ensures RunsAreNamed(states[n])
    decreases n
  {
    if n > 0 {
      NamesHold(states, events, n - 1);
      assert Next(states[n - 1], events[n - 1]) == Some(states[n]);
      StepKeepsNames(states[n - 1], events[n - 1], states[n]);
    }
  }

  /** However many deleters and reconcilers there are, at most one holds the current pair of tokens. */
  lemma SingleOwner(states: seq<State>, events: seq<Event>, n: nat, r: Token, q: Token)
    requires IsRun(states, events) && n < |states| && OwnerIs(states[n], r) && OwnerIs(states[n], q)
    ensures r == q
  {
    NamesHold(states, events, n);
  }

  /** Only the owner's heartbeat or closing transaction changes the record. */
  lemma OnlyTheOwnerActs(s: State, e: Event, s': State)
    requires Next(s, e) == Some(s') && (e.Heartbeat? || e.Finish? || e.RemoveKey? || e.Unlink?)
    ensures s'.record != s.record ==> OwnerIs(s, e.run) && (e.Heartbeat? || e.Finish?)
  {
  }

  /** Ownership is lost only to a reconciler that saw eleven minutes without a heartbeat, or with the record. */
  lemma OwnershipEndsByTakeOver(s: State, e: Event, s': State, r: Token)
    requires RunsAreNamed(s) && Next(s, e) == Some(s') && OwnerIs(s, r) && !OwnerIs(s', r)
    ensures s'.record.None? || (e.TakeOver? && s.now - s.record.value.claim.value.at >= QUIESCENCE_MS)
  {
    if !e.ClaimDeletion? && !e.TakeOver? {
      OtherStepsKeepRuns(s, e, s');
    }
  }

  lemma StepKeepsHeartbeat(s: State, e: Event, s': State, r: Token, t: int)
    requires RunsAreNamed(s) && Next(s, e) == Some(s') && OwnerIs(s, r) && OwnerIs(s', r)
    requires t <= s.record.value.claim.value.at && t <= s.now
    ensures t <= s'.record.value.claim.value.at && t <= s'.now
  {
  }

  lemma {:induction false} HeartbeatLasts(states: seq<State>, events: seq<Event>, i: nat, j: nat, r: Token)
    requires IsRun(states, events) && i < j < |states|
    requires events[i] == Heartbeat(r) && forall k | i <= k <= j :: OwnerIs(states[k], r)
    ensures OwnerIs(states[j], r) && states[i].now <= states[j].record.value.claim.value.at && states[i].now <= states[j].now
    decreases j
  {
    assert Next(states[i], events[i]) == Some(states[i + 1]);
    if j > i + 1 {
      HeartbeatLasts(states, events, i, j - 1, r);
      NamesHold(states, events, j - 1);
      assert Next(states[j - 1], events[j - 1]) == Some(states[j]);
      StepKeepsHeartbeat(states[j - 1], events[j - 1], states[j], r, states[i].now);
    }
  }

  /** A takeover comes at least eleven minutes after every heartbeat of the owner it replaces. */
  lemma TakeOverNeedsSilence(states: seq<State>, events: seq<Event>, i: nat, j: nat, r: Token)
    requires IsRun(states, events) && i < j < |events|
    requires events[i] == Heartbeat(r) && (forall k | i <= k <= j :: OwnerIs(states[k], r))
    requires states[j + 1].record.Some? && !OwnerIs(states[j + 1], r)
    ensures states[j].now - states[i].now >= QUIESCENCE_MS
  {
    HeartbeatLasts(states, events, i, j, r);
    NamesHold(states, events, j);
    assert Next(states[j], events[j]) == Some(states[j + 1]);
    OwnershipEndsByTakeOver(states[j], events[j], states[j + 1], r);
  }

  // ------------------------------------------------------------------ deleted once, and only after the clean-up

  lemma {:induction false} GoneForGood(states: seq<State>, events: seq<Event>, i: nat, j: nat)
    requires IsRun(states, events) && i <= j < |states| && states[i].record.None?
    ensures states[j].record.None?
    decreases j
  {
    if i < j {
      GoneForGood(states, events, i, j - 1);
      assert Next(states[j - 1], events[j - 1]) == Some(states[j]);
    }
  }

  predicate DeletesRecord(states: seq<State>, i: nat)
    requires i + 1 < |states|
  {
    states[i].record.Some? && states[i + 1].record.None?
  }

  /** The record is deleted exactly once, by the closing transaction of its owner. */
  lemma DeletedOnce(states: seq<State>, events: seq<Event>, i: nat, j: nat)
    requires IsRun(states, events) && i < |events| && j < |events|
    requires DeletesRecord(states, i) && DeletesRecord(states, j)
    ensures i == j && events[i].Finish? && OwnerIs(states[i], events[i].run)
  {
    assert Next(states[i], events[i]) == Some(states[i + 1]);
    if i < j {
      GoneForGood(states, events, i + 1, j);
    }
    if j < i {
      GoneForGood(states, events, j + 1, i);
    }
  }

  /** What a run has done so far: the keys it has passed are gone, and after the unlink so is the archive. */
  predicate RunHasCleaned(s: State, run: Run) {
    match run.phase
    case Removing(remaining) => forall key | key in run.keys && key in s.objects :: key in remaining
    case Finishing => (forall key | key in run.keys :: key !in s.objects) && !s.archive
    case _ => true
  }

  predicate OwnersClean(s: State) {
    && (s.record.Some? ==> s.record.value.keys <= s.used)
    && (forall r, key | r in s.runs && key in s.runs[r].keys :: key in s.used)
    && forall r | r in s.runs && OwnerIs(s, r) ::
         && RunHasCleaned(s, s.runs[r])
         && forall key | key in s.record.value.keys :: key in s.record.value.late || key in s.runs[r].keys
  }

  lemma StartKeepsOwnersClean(s: State, e: Event, s': State)
    requires RunsAreNamed(s) && OwnersClean(s) && Next(s, e) == Some(s') && (e.ClaimDeletion? || e.TakeOver?)
    ensures OwnersClean(s')
  {
  }

  lemma CleanUpKeepsOwnersClean(s: State, e: Event, s': State)
    requires OwnersClean(s) && NextRun(s, e) == Some(s') && (e.RemoveKey? || e.Unlink?)
    ensures OwnersClean(s')
  {
    assert s'.record == s.record && s'.used == s.used;
    assert forall key | key in s'.objects :: key in s.objects;
    assert forall r | r in s.runs && r != e.run :: s'.runs[r] == s.runs[r];
    if OwnerIs(s', e.run) {
      assert OwnerIs(s, e.run) && RunHasCleaned(s', s'.runs[e.run]);
    }
  }

  lemma RunKeepsOwnersClean(s: State, e: Event, s': State)
    requires OwnersClean(s) && NextRun(s, e) == Some(s')
    ensures OwnersClean(s')
  {
    if e.RemoveKey? || e.Unlink? {
      CleanUpKeepsOwnersClean(s, e, s');
    } else {
      assert s'.objects == s.objects && s'.archive == s.archive && s'.used == s.used;
      assert forall r | OwnerIs(s', r) :: OwnerIs(s, r);
    }
  }

  lemma WorkKeepsOwnersClean(s: State, e: Event, s': State)
    requires OwnersClean(s) && NextWork(s, e) == Some(s')
    ensures OwnersClean(s')
  {
    assert s'.runs == s.runs;
    assert forall r | OwnerIs(s', r) :: OwnerIs(s, r);
    assert forall key | key in s'.objects && key in s.used :: key in s.objects;
  }

  lemma StepKeepsOwnersClean(s: State, e: Event, s': State)
    requires RunsAreNamed(s) && OwnersClean(s) && Next(s, e) == Some(s')
    ensures OwnersClean(s')
  {
    if e.ClaimDeletion? || e.TakeOver? {
      StartKeepsOwnersClean(s, e, s');
    } else if e.Heartbeat? || e.RemoveKey? || e.Unlink? || e.Finish? {
      RunKeepsOwnersClean(s, e, s');
    } else {
      WorkKeepsOwnersClean(s, e, s');
    }
  }

  lemma {:induction false} OwnersCleanHolds(states: seq<State>, events: seq<Event>, n: nat)
    requires IsRun(states, events) && n < |states|
    ensures OwnersClean(states[n])
    decreases n
  {
    if n > 0 {
      OwnersCleanHolds(states, events, n - 1);
      NamesHold(states, events, n - 1);
      assert Next(states[n - 1], events[n - 1]) == Some(states[n]);
      StepKeepsOwnersClean(states[n - 1], events[n - 1], states[n]);
    }
  }

  /** The record goes only after a run that removed every remote key it read, and the local archive. */
  lemma VanishesAfterCleanUp(states: seq<State>, events: seq<Event>, i: nat)
    requires IsRun(states, events) && i < |events| && DeletesRecord(states, i)
    ensures forall key | key in states[i].record.value.keys && key !in states[i].record.value.late :: key !in states[i].objects
    ensures !states[i].archive
    ensures states[i].jobs == {} && states[i].restores == {}
  {
    DeletedOnce(states, events, i, i);
    OwnersCleanHolds(states, events, i);
    DeletionExcludesWork(states, events, i);
    assert Next(states[i], events[i]) == Some(states[i + 1]);
  }
}
