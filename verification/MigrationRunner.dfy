/**
  The migration runner: any number of replicas apply the same sorted list of files under one session
  lock. Every query may be rejected, or break the connection before or after it took effect, and the
  server may end a session at any time.
 */
module MigrationRunner {
  import opened Wrappers

  type File = string
  type Replica = nat

  /** What a transaction has done so far: run the file's SQL, inserted its ledger row. */
  datatype Tx = NoTx | Tx(sql: bool, row: bool)

  /** alive: the server still has the session; connected: the client can still use it. */
  datatype Session = Session(alive: bool, connected: bool, tx: Tx)

  datatype Phase =
    | Locking
    | CreatingLedger
    | Beginning(i: nat)
    | Checking(i: nat)
    | Reading(i: nat)
    | Applying(i: nat)
    | Recording(i: nat)
    | Committing(i: nat)
    | RollingBack(i: nat)
    | Unlocking(failed: bool, destroy: bool)
    | Releasing(failed: bool, destroy: bool)
    | Released(failed: bool, destroyed: bool)

  /** applied: the files whose SQL is committed, in order; rows: the committed ledger. */
  datatype State = State(
    applied: seq<File>, rows: seq<File>, lock: Option<Replica>,
    sessions: map<Replica, Session>, phases: map<Replica, Phase>)

  /** Done: the reply arrived. Rejected: an error reply. Broken: the connection is gone, with or without effect. */
  datatype Outcome = Done | Rejected | Broken(effect: bool)

  datatype Event =
    | Connect(r: Replica)
    | Call(r: Replica, outcome: Outcome)
    | ReadFile(r: Replica, ok: bool)
    | Release(r: Replica)
    | EndSession(r: Replica)

  predicate Sends(phase: Phase) {
    !phase.Reading? && !phase.Releasing? && !phase.Released?
  }

  /** The server's side of a call that takes effect. */
  function Effect(files: seq<File>, s: State, r: Replica): State
    requires r in s.phases && r in s.sessions
  {
    match s.phases[r]
    case Locking => s.(lock := Some(r))
    case Beginning(_) => SetTx(s, r, Tx(false, false))
    case Applying(_) => SetTx(s, r, if s.sessions[r].tx.Tx? then s.sessions[r].tx.(sql := true) else NoTx)
    case Recording(_) => SetTx(s, r, if s.sessions[r].tx.Tx? then s.sessions[r].tx.(row := true) else NoTx)
    case Committing(i) =>
      var tx := s.sessions[r].tx;
      var committed := s.(applied := if tx.Tx? && tx.sql && i < |files| then s.applied + [files[i]] else s.applied,
                          rows := if tx.Tx? && tx.row && i < |files| then s.rows + [files[i]] else s.rows);
      SetTx(committed, r, NoTx)
    case RollingBack(_) => SetTx(s, r, NoTx)
    case Unlocking(_, _) => if s.lock == Some(r) then s.(lock := None) else s
    case _ => s
  }

  function SetTx(s: State, r: Replica, tx: Tx): State
    requires r in s.sessions
  {
    s.(sessions := s.sessions[r := s.sessions[r].(tx := tx)])
  }

  /** The lock is waited for; everything else runs on a live connection. */
  predicate CanTakeEffect(s: State, r: Replica)
    requires r in s.phases && r in s.sessions
  {
    s.sessions[r].alive && s.sessions[r].connected && (s.phases[r].Locking? ==> s.lock.None?)
  }

  function NextFile(files: seq<File>, i: nat): Phase {
    if i < |files| then Beginning(i) else Unlocking(false, false)
  }

  /** Where a replica goes on; known tells whether the ledger has the file that is being checked. */
  function After(files: seq<File>, phase: Phase, done: bool, known: bool): Phase {
    match phase
    case Locking => if done then CreatingLedger else Releasing(true, true)
    case CreatingLedger => if done then NextFile(files, 0) else Unlocking(true, false)
    case Beginning(i) => if done then Checking(i) else Unlocking(true, false)
    case Checking(i) => if !done then RollingBack(i) else if known then Committing(i) else Reading(i)
    case Applying(i) => if done then Recording(i) else RollingBack(i)
    case Recording(i) => if done then Committing(i) else RollingBack(i)
    case Committing(i) => if done then NextFile(files, i + 1) else RollingBack(i)
    case RollingBack(i) => Unlocking(true, !done)
    case Unlocking(failed, destroy) => Releasing(failed || !done, destroy || !done)
    case _ => phase
  }

  function NextCall(files: seq<File>, s: State, r: Replica, outcome: Outcome): Option<State>
    requires r in s.phases && r in s.sessions && Sends(s.phases[r])
  {
    var phase := s.phases[r];
    var known := (phase.Checking? && phase.i < |files| && files[phase.i] in s.rows);
    match outcome
    case Done =>
      if !CanTakeEffect(s, r) then None
      else
        // Releasing a lock that is not held is an error too.
        var done := phase.Unlocking? ==> s.lock == Some(r);
        var s' := Effect(files, s, r);
        Some(s'.(phases := s.phases[r := After(files, phase, done, known)]))
    case Rejected =>
      if !s.sessions[r].connected || !s.sessions[r].alive then None
      else
        // A commit that is refused has ended its transaction.
        var s' := if phase.Committing? then SetTx(s, r, NoTx) else s;
        Some(s'.(phases := s.phases[r := After(files, phase, false, known)]))
    case Broken(effect) =>
      if effect && !CanTakeEffect(s, r) then None
      else
        var s' := if effect then Effect(files, s, r) else s;
        Some(s'.(sessions := s'.sessions[r := s'.sessions[r].(connected := false)],
                 phases := s.phases[r := After(files, phase, false, known)]))
  }

  /** A session that ends gives up its transaction and its lock. */
  function EndOf(s: State, r: Replica): State
    requires r in s.sessions
  {
    s.(sessions := s.sessions[r := Session(false, false, NoTx)], lock := if s.lock == Some(r) then None else s.lock)
  }

  function Next(files: seq<File>, s: State, e: Event): Option<State> {
    match e
    case Connect(r) =>
      if r in s.phases || r in s.sessions then None
      else Some(s.(sessions := s.sessions[r := Session(true, true, NoTx)], phases := s.phases[r := Locking]))
    case Call(r, outcome) =>
      if r in s.phases && r in s.sessions && Sends(s.phases[r]) then NextCall(files, s, r, outcome) else None
    case ReadFile(r, ok) =>
      if r in s.phases && s.phases[r].Reading?
      then Some(s.(phases := s.phases[r := if ok then Applying(s.phases[r].i) else RollingBack(s.phases[r].i)])) else None
    case Release(r) =>
      if r in s.phases && r in s.sessions && s.phases[r].Releasing? then
        var s' := if s.phases[r].destroy then EndOf(s, r) else s;
        Some(s'.(phases := s.phases[r := Released(s.phases[r].failed, s.phases[r].destroy)]))
      else None
    case EndSession(r) => if r in s.sessions then Some(EndOf(s, r)) else None
  }

  predicate Initial(s: State) {
    s.applied == [] && s.rows == [] && s.lock.None? && s.sessions == map[] && s.phases == map[]
  }

  predicate AreDistinct(files: seq<File>) {
    forall i, j | 0 <= i < j < |files| :: files[i] != files[j]
  }

  // ------------------------------------------------------------------ the invariant

  /** The committed files are the first of the list, each with its ledger row. */
  predicate IsPrefix(files: seq<File>, s: State) {
    s.applied == s.rows && s.applied <= files
  }

  predicate LockIsLive(s: State) {
    s.lock.Some? ==> s.lock.value in s.sessions && s.sessions[s.lock.value].alive && s.lock.value in s.phases
  }

  predicate OnFile(phase: Phase) {
    phase.Checking? || phase.Reading? || phase.Applying? || phase.Recording? || phase.Committing? || phase.RollingBack?
  }

  /** A session with an open transaction holds the lock, or is about to be destroyed. */
  predicate TxIsLocked(s: State, r: Replica)
    requires r in s.sessions && r in s.phases
  {
    s.sessions[r].tx.Tx? ==>
      s.sessions[r].alive && (s.lock == Some(r) || (s.phases[r].Releasing? && s.phases[r].destroy))
  }

  /** What a replica on a live connection has done. */
  predicate PhaseIsTrue(files: seq<File>, s: State, r: Replica)
    requires r in s.sessions && r in s.phases
  {
    var session, phase := s.sessions[r], s.phases[r];
    session.alive && (session.connected || phase.Releasing? || phase.Released?) ==>
      match phase
      case Locking => s.lock != Some(r) && session.tx.NoTx?
      case CreatingLedger => s.lock == Some(r) && session.tx.NoTx?
      case Beginning(i) => s.lock == Some(r) && session.tx.NoTx? && i <= |s.applied| && i < |files|
      case Checking(i) => s.lock == Some(r) && session.tx == Tx(false, false) && i <= |s.applied| && i < |files|
      case Reading(i) => s.lock == Some(r) && session.tx == Tx(false, false) && i == |s.applied| && i < |files|
      case Applying(i) => s.lock == Some(r) && session.tx == Tx(false, false) && i == |s.applied| && i < |files|
      case Recording(i) => s.lock == Some(r) && session.tx == Tx(true, false) && i == |s.applied| && i < |files|
      case Committing(i) =>
        s.lock == Some(r) && i < |files|
        && ((session.tx == Tx(false, false) && i < |s.applied|) || (session.tx == Tx(true, true) && i == |s.applied|))
      case RollingBack(i) => s.lock == Some(r)
      case Unlocking(_, destroy) => s.lock == Some(r) && (!destroy ==> session.tx.NoTx?)
      case Releasing(_, destroy) => !destroy ==> s.lock != Some(r) && session.tx.NoTx?
      case Released(_, destroyed) => s.lock != Some(r) && session.tx.NoTx?
  }

  predicate ReplicaIsTrue(files: seq<File>, s: State, r: Replica)
    requires r in s.sessions && r in s.phases
  {
    TxIsLocked(s, r) && (!s.sessions[r].alive ==> !s.sessions[r].connected) && PhaseIsTrue(files, s, r)
  }

  predicate Inv(files: seq<File>, s: State) {
    && IsPrefix(files, s) && LockIsLive(s)
    && s.sessions.Keys == s.phases.Keys
    && (forall r | r in s.sessions :: ReplicaIsTrue(files, s, r))
  }

  /** A step of r leaves the others alone; it takes or gives up the lock only for itself, and commits only under it. */
  predicate OnlyTouches(s: State, s': State, r: Replica) {
    && s'.sessions.Keys == s.sessions.Keys + {r} && s'.phases.Keys == s.phases.Keys + {r}
    && (forall q | q in s.sessions && q != r :: s'.sessions[q] == s.sessions[q])
    && (forall q | q in s.phases && q != r :: s'.phases[q] == s.phases[q])
    && (s'.lock == s.lock || (s.lock.None? && s'.lock == Some(r)) || (s.lock == Some(r) && s'.lock.None?))
    && (s'.applied == s.applied || s.lock == Some(r))
  }

  lemma OthersStayTrue(files: seq<File>, s: State, s': State, r: Replica)
    requires Inv(files, s) && OnlyTouches(s, s', r)
    ensures forall q | q in s'.sessions && q != r :: ReplicaIsTrue(files, s', q)
  {
    forall q | q in s'.sessions && q != r ensures ReplicaIsTrue(files, s', q) {
      assert ReplicaIsTrue(files, s, q);
    }
  }

  lemma CallTouchesOne(files: seq<File>, s: State, r: Replica, outcome: Outcome, s': State)
    requires Inv(files, s) && r in s.phases && Sends(s.phases[r]) && NextCall(files, s, r, outcome) == Some(s')
    ensures OnlyTouches(s, s', r)
  {
    assert ReplicaIsTrue(files, s, r);
  }

  lemma QueryKeepsTrue(files: seq<File>, s: State, r: Replica, outcome: Outcome, s': State)
    requires AreDistinct(files) && Inv(files, s) && r in s.phases && Sends(s.phases[r]) && !s.phases[r].Committing?
    requires NextCall(files, s, r, outcome) == Some(s')
    ensures s'.applied == s.applied && s'.rows == s.rows
    ensures LockIsLive(s') && ReplicaIsTrue(files, s', r)
  {
    if OnFile(s.phases[r]) {
      FileQueryKeepsTrue(files, s, r, outcome, s');
    } else {
      FrameQueryKeepsTrue(files, s, r, outcome, s');
    }
  }

  /** A query inside a file's transaction. */
  lemma FileQueryKeepsTrue(files: seq<File>, s: State, r: Replica, outcome: Outcome, s': State)
    requires AreDistinct(files) && Inv(files, s) && r in s.phases && Sends(s.phases[r]) && !s.phases[r].Committing?
    requires OnFile(s.phases[r]) && NextCall(files, s, r, outcome) == Some(s')
    ensures s'.applied == s.applied && s'.rows == s.rows
    ensures LockIsLive(s') && ReplicaIsTrue(files, s', r)
  {
    assert ReplicaIsTrue(files, s, r);
    if s.phases[r].Checking? && s.phases[r].i < |files| {
      KnownIsCommitted(files, s, s.phases[r].i);
    }
  }

  /** Taking and giving up the lock, creating the ledger, and beginning a transaction. */
  lemma FrameQueryKeepsTrue(files: seq<File>, s: State, r: Replica, outcome: Outcome, s': State)
    requires Inv(files, s) && r in s.phases && Sends(s.phases[r]) && !OnFile(s.phases[r])
    requires NextCall(files, s, r, outcome) == Some(s')
    ensures s'.applied == s.applied && s'.rows == s.rows
    ensures LockIsLive(s') && ReplicaIsTrue(files, s', r)
  {
    assert ReplicaIsTrue(files, s, r);
  }

  /** The ledger has a file exactly when the file is among the committed ones at the front of the list. */
  lemma KnownIsCommitted(files: seq<File>, s: State, i: nat)
    requires AreDistinct(files) && IsPrefix(files, s) && i < |files|
    ensures files[i] in s.rows <==> i < |s.applied|
  {
    if i < |s.applied| {
      assert s.applied[i] == files[i];
    }
  }

  /** A commit adds the next file of the list, with its row, or nothing. */
  lemma CommitKeepsTrue(files: seq<File>, s: State, r: Replica, outcome: Outcome, s': State)
    requires AreDistinct(files) && Inv(files, s) && r in s.phases && s.phases[r].Committing?
    requires NextCall(files, s, r, outcome) == Some(s')
    ensures IsPrefix(files, s') && LockIsLive(s') && ReplicaIsTrue(files, s', r)
  {
    assert ReplicaIsTrue(files, s, r);
  }

  lemma OtherStepKeepsTrue(files: seq<File>, s: State, e: Event, s': State)
    requires Inv(files, s) && Next(files, s, e) == Some(s') && !e.Call?
    ensures OnlyTouches(s, s', e.r) && s'.applied == s.applied && s'.rows == s.rows
    ensures LockIsLive(s') && e.r in s'.sessions && ReplicaIsTrue(files, s', e.r)
  {
    assert e.r in s.sessions ==> ReplicaIsTrue(files, s, e.r);
  }

  lemma StepKeepsInv(files: seq<File>, s: State, e: Event, s': State)
    requires AreDistinct(files) && Inv(files, s) && Next(files, s, e) == Some(s')
    ensures Inv(files, s')
  {
    if e.Call? {
      CallTouchesOne(files, s, e.r, e.outcome, s');
      if s.phases[e.r].Committing? {
        CommitKeepsTrue(files, s, e.r, e.outcome, s');
      } else {
        QueryKeepsTrue(files, s, e.r, e.outcome, s');
      }
    } else {
      OtherStepKeepsTrue(files, s, e, s');
    }
    OthersStayTrue(files, s, s', e.r);
  }

  /** A replica that has not failed by the end has seen every file committed. */
  predicate SuccessIsComplete(files: seq<File>, s: State) {
    forall r | r in s.phases && Succeeds(s.phases[r]) :: s.applied == files
  }

  predicate Succeeds(phase: Phase) {
    (phase.Unlocking? || phase.Releasing? || phase.Released?) && !phase.failed
  }

  lemma CallCompletes(files: seq<File>, s: State, r: Replica, outcome: Outcome, s': State)
    requires AreDistinct(files) && Inv(files, s) && Inv(files, s') && SuccessIsComplete(files, s)
    requires r in s.phases && Sends(s.phases[r]) && NextCall(files, s, r, outcome) == Some(s')
    requires s.applied <= s'.applied && Succeeds(s'.phases[r])
    ensures s'.applied == files
  {
    assert ReplicaIsTrue(files, s, r);
    if Succeeds(s.phases[r]) {
      assert s.applied == files;
    } else if s.phases[r].CreatingLedger? {
      assert files == [];
    } else {
      assert s.phases[r].Committing? && outcome == Done;
    }
  }

  lemma StepKeepsSuccess(files: seq<File>, s: State, e: Event, s': State)
    requires AreDistinct(files) && Inv(files, s) && SuccessIsComplete(files, s) && Next(files, s, e) == Some(s')
    ensures SuccessIsComplete(files, s')
  {
    StepKeepsInv(files, s, e, s');
    AppliedGrows(files, s, e, s');
    forall r | r in s'.phases && Succeeds(s'.phases[r]) ensures s'.applied == files {
      if r != e.r {
        assert r in s.phases && s.phases[r] == s'.phases[r];
      } else if e.Call? {
        CallCompletes(files, s, r, e.outcome, s');
      } else {
        OthersCompleteNothing(files, s, e, s');
      }
    }
  }

  lemma OthersCompleteNothing(files: seq<File>, s: State, e: Event, s': State)
    requires Next(files, s, e) == Some(s') && !e.Call? && e.r in s'.phases && Succeeds(s'.phases[e.r])
    ensures e.r in s.phases && Succeeds(s.phases[e.r]) && s'.applied == s.applied
  {
  }

  lemma AppliedGrows(files: seq<File>, s: State, e: Event, s': State)
    requires Inv(files, s) && Next(files, s, e) == Some(s')
    ensures s.applied <= s'.applied
    ensures forall r | r in s'.phases && r != e.r :: r in s.phases && s.phases[r] == s'.phases[r]
  {
    if e.Call? {
      CallTouchesOne(files, s, e.r, e.outcome, s');
      CallExtends(files, s, e.r, e.outcome, s');
    } else {
      OtherStepKeepsTrue(files, s, e, s');
    }
  }

  lemma CallExtends(files: seq<File>, s: State, r: Replica, outcome: Outcome, s': State)
    requires r in s.phases && r in s.sessions && Sends(s.phases[r]) && NextCall(files, s, r, outcome) == Some(s')
    ensures s.applied <= s'.applied
  {
  }

  // ------------------------------------------------------------------ whole runs

  predicate IsRun(files: seq<File>, states: seq<State>, events: seq<Event>) {
    && |states| == |events| + 1
    && Initial(states[0])
    && forall i {:trigger events[i]} | 0 <= i < |events| :: Next(files, states[i], events[i]) == Some(states[i + 1])
  }

  lemma {:induction false} InvHolds(files: seq<File>, states: seq<State>, events: seq<Event>, n: nat)
    requires AreDistinct(files) && IsRun(files, states, events) && n < |states|
    ensures Inv(files, states[n]) && SuccessIsComplete(files, states[n])
    decreases n
  {
    if n > 0 {
      InvHolds(files, states, events, n - 1);
      assert Next(files, states[n - 1], events[n - 1]) == Some(states[n]);
      StepKeepsInv(files, states[n - 1], events[n - 1], states[n]);
      StepKeepsSuccess(files, states[n - 1], events[n - 1], states[n]);
    }
  }

  /**
    At every moment of any run the committed SQL is that of the first files of the sorted list, each
    file once, and the ledger has exactly their rows.
   */
  lemma CommittedOnceInOrder(files: seq<File>, states: seq<State>, events: seq<Event>, n: nat)
    requires AreDistinct(files) && IsRun(files, states, events) && n < |states|
    ensures states[n].rows == states[n].applied <= files
    ensures forall i, j | 0 <= i < j < |states[n].applied| :: states[n].applied[i] != states[n].applied[j]
  {
    InvHolds(files, states, events, n);
    assert forall i | 0 <= i < |states[n].applied| :: states[n].applied[i] == files[i];
  }

  /** A connection goes back to the pool only without the lock and without an open transaction. */
  lemma NothingIsReturnedHeld(files: seq<File>, states: seq<State>, events: seq<Event>, n: nat, r: Replica)
    requires AreDistinct(files) && IsRun(files, states, events) && n < |events| && events[n] == Release(r)
    ensures r in states[n].phases && states[n].phases[r].Releasing?
    ensures r in states[n + 1].sessions
    ensures states[n + 1].lock != Some(r) && states[n + 1].sessions[r].tx.NoTx?
    ensures states[n].phases[r].destroy ==> !states[n + 1].sessions[r].alive
  {
    InvHolds(files, states, events, n);
    assert Next(files, states[n], events[n]) == Some(states[n + 1]);
    assert ReplicaIsTrue(files, states[n], r);
  }

  /** A run that reports success leaves every file committed. */
  lemma SuccessCommitsEverything(files: seq<File>, states: seq<State>, events: seq<Event>, n: nat, r: Replica)
    requires AreDistinct(files) && IsRun(files, states, events) && n < |states|
    requires r in states[n].phases && states[n].phases[r].Released? && !states[n].phases[r].failed
    ensures states[n].applied == files
  {
    InvHolds(files, states, events, n);
  }

  // ------------------------------------------------------------------ the runner

  /** An outcome that the connection's state allows. */
  function Possible(s: State, r: Replica, outcome: Outcome): Outcome
    requires r in s.phases && r in s.sessions
  {
    match outcome
    case Done => if CanTakeEffect(s, r) then Done else Broken(false)
    case Rejected => if s.sessions[r].alive && s.sessions[r].connected then Rejected else Broken(false)
    case Broken(effect) => Broken(effect && CanTakeEffect(s, r))
  }

  lemma PossibleIsEnabled(files: seq<File>, s: State, r: Replica, outcome: Outcome)
    requires r in s.phases && r in s.sessions && Sends(s.phases[r])
    ensures NextCall(files, s, r, Possible(s, r, outcome)).Some?
  {
  }

  /** A predicate that stands for the invariant, so that callers need not look into it. */
  ghost predicate IsInvariant(files: seq<File>, holds: State -> bool) {
    forall s {:trigger Inv(files, s)} :: holds(s) <==> Inv(files, s) && SuccessIsComplete(files, s)
  }

  class World {
    var state: State
    ghost var events: seq<Event>
    const files: seq<File>
    ghost const holds: State -> bool

    ghost predicate Valid()
      reads this
    {
      IsInvariant(files, holds) && holds(state) && AreDistinct(files)
    }

    constructor (sorted: seq<File>)
      requires AreDistinct(sorted)
      ensures Valid() && files == sorted && events == []
    {
      files, events := sorted, [];
      state := State([], [], None, map[], map[]);
      holds := s => Inv(sorted, s) && SuccessIsComplete(sorted, s);
      new;
      assert Inv(files, state);
    }

    method Perform(e: Event)
      requires Valid() && Next(files, state, e).Some?
      modifies this
      ensures Valid() && Some(state) == Next(files, old(state), e) && events == old(events) + [e]
    {
      assert Inv(files, state);
      StepKeepsInv(files, state, e, Next(files, state, e).value);
      StepKeepsSuccess(files, state, e, Next(files, state, e).value);
      state := Next(files, state, e).value;
      events := events + [e];
    }

    /** Any number of steps of other replicas, and of ends of sessions. */
    method Interfere(r: Replica)
      requires Valid()
      modifies this
      ensures Valid() && OnlyOthers(old(events), events, r)
      ensures r in state.phases <==> r in old(state).phases
      ensures r in state.phases ==> state.phases[r] == old(state).phases[r]
    {
      var steps: nat := *;
      while steps > 0
        invariant Valid() && OnlyOthers(old(events), events, r)
        invariant r in state.phases <==> r in old(state).phases
        invariant r in state.phases ==> state.phases[r] == old(state).phases[r]
      {
        var e: Event := *;
        if (e.r != r || e.EndSession?) && Next(files, state, e).Some? {
          Perform(e);
        }
        steps := steps - 1;
      }
    }

    /** One query; known tells whether the checked file has a ledger row. */
    method Query(r: Replica) returns (done: bool, known: bool)
      requires Valid() && r in state.phases && Sends(state.phases[r])
      modifies this
      ensures Valid() && r in state.phases
      ensures state.phases[r] == After(files, old(state.phases[r]), done, known)
      ensures ReleasesOf(events, r) == ReleasesOf(old(events), r)
    {
      Interfere(r);
      OthersReleaseNothing(old(events), events, r);
      assert Inv(files, state);
      var wanted: Outcome := *;
      var outcome := Possible(state, r, wanted);
      var phase := state.phases[r];
      done := outcome.Done? && (phase.Unlocking? ==> state.lock == Some(r));
      known := phase.Checking? && phase.i < |files| && files[phase.i] in state.rows;
      ReleasesAppend(events, Call(r, outcome), r);
      PossibleIsEnabled(files, state, r, wanted);
      Perform(Call(r, outcome));
    }
  }

  ghost predicate OnlyOthers(before: seq<Event>, after: seq<Event>, r: Replica) {
    before <= after && forall i | |before| <= i < |after| :: after[i].r != r || after[i].EndSession?
  }

  /** How often a replica has released its connection. */
  function ReleasesOf(events: seq<Event>, r: Replica): nat {
    if events == [] then 0
    else ReleasesOf(events[..|events| - 1], r) + if events[|events| - 1] == Release(r) then 1 else 0
  }

  lemma ReleasesAppend(events: seq<Event>, e: Event, r: Replica)
    ensures ReleasesOf(events + [e], r) == ReleasesOf(events, r) + if e == Release(r) then 1 else 0
  {
    assert (events + [e])[..|events|] == events;
  }

  lemma {:induction false} OthersReleaseNothing(before: seq<Event>, after: seq<Event>, r: Replica)
    requires OnlyOthers(before, after, r)
    ensures ReleasesOf(after, r) == ReleasesOf(before, r)
    decreases |after|
  {
    if |after| == |before| {
      assert after == before;
    } else {
      OthersReleaseNothing(before, after[..|after| - 1], r);
    }
  }

  /** The files in order, each in its own transaction; returns whether all went well and the state of the connection. */
  method ApplyFiles(w: World, r: Replica) returns (failed: bool, destroy: bool)
    requires w.Valid() && r in w.state.phases && w.state.phases[r] == NextFile(w.files, 0)
    modifies w
    ensures w.Valid() && r in w.state.phases && w.state.phases[r] == Unlocking(failed, destroy)
    ensures ReleasesOf(w.events, r) == ReleasesOf(old(w.events), r)
  {
    var i := 0;
    while i < |w.files|
      invariant 0 <= i <= |w.files|
      invariant w.Valid() && r in w.state.phases && w.state.phases[r] == NextFile(w.files, i)
      invariant ReleasesOf(w.events, r) == ReleasesOf(old(w.events), r)
    {
      var begun, _ := w.Query(r);
      if !begun {
        return true, false;
      }
      var committed := ApplyFile(w, r, i);
      if !committed {
        var rolledBack, _ := w.Query(r);
        return true, !rolledBack;
      }
      i := i + 1;
    }
    return false, false;
  }

  method ApplyFile(w: World, r: Replica, i: nat) returns (committed: bool)
    requires w.Valid() && i < |w.files| && r in w.state.phases && w.state.phases[r] == Checking(i)
    modifies w
    ensures w.Valid() && r in w.state.phases
    ensures w.state.phases[r] == if committed then NextFile(w.files, i + 1) else RollingBack(i)
    ensures ReleasesOf(w.events, r) == ReleasesOf(old(w.events), r)
  {
    var checked, known := w.Query(r);
    if !checked {
      return false;
    }
    if !known {
      var readable: bool := *;
      ReleasesAppend(w.events, ReadFile(r, readable), r);
      w.Perform(ReadFile(r, readable));
      if !readable {
        return false;
      }
      var ran, _ := w.Query(r);
      if !ran {
        return false;
      }
      var recorded, _ := w.Query(r);
      if !recorded {
        return false;
      }
    }
    var done, _ := w.Query(r);
    return done;
  }

  method FinishRun(w: World, r: Replica, destroy: bool) returns (ok: bool)
    requires w.Valid() && r in w.state.phases && w.state.phases[r].Releasing? && w.state.phases[r].destroy == destroy
    modifies w
    ensures w.Valid() && r in w.state.phases && r in w.state.sessions && w.state.phases[r].Released?
    ensures ok == !w.state.phases[r].failed && (ok ==> w.state.applied == w.files)
    ensures ReleasesOf(w.events, r) == ReleasesOf(old(w.events), r) + 1
    ensures w.state.lock != Some(r) && w.state.sessions[r].tx.NoTx?
  {
    assert Inv(w.files, w.state) && ReplicaIsTrue(w.files, w.state, r);
    ReleasesAppend(w.events, Release(r), r);
    w.Perform(Release(r));
    assert Inv(w.files, w.state);
    ok := !w.state.phases[r].failed;
  }

  /** The whole runner: it releases its connection exactly once, and destroys it whenever it may hold something. */
  method RunMigrations(w: World, r: Replica) returns (ok: bool)
    requires w.Valid() && r !in w.state.phases && r !in w.state.sessions
    modifies w
    ensures w.Valid() && r in w.state.phases && r in w.state.sessions && w.state.phases[r].Released? && ok == !w.state.phases[r].failed
    ensures ok ==> w.state.applied == w.files
    ensures ReleasesOf(w.events, r) == ReleasesOf(old(w.events), r) + 1
    ensures w.state.lock != Some(r) && w.state.sessions[r].tx.NoTx?
  {
    var lockAcquired, runFailed, clientMustBeDestroyed := false, false, false;
    ReleasesAppend(w.events, Connect(r), r);
    w.Perform(Connect(r));
    var locked, _ := w.Query(r);
    lockAcquired := locked;
    if lockAcquired {
      var created, _ := w.Query(r);
      if created {
        runFailed, clientMustBeDestroyed := ApplyFiles(w, r);
      } else {
        runFailed := true;
      }
      var unlocked, _ := w.Query(r);
      if !unlocked {
        clientMustBeDestroyed := true;
      }
    } else {
      runFailed, clientMustBeDestroyed := true, true;
    }
    ok := FinishRun(w, r, clientMustBeDestroyed);
  }
}
