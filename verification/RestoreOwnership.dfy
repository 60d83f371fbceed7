/**
  Restoring a backup into a new volume on a host where others create and remove volumes at any time:
  the volume is the attempt's own only if it carries the attempt's labels. A command whose reply is lost
  may still begin; the ledger defers the cleanup by a fixed time and cannot see whether it is over.
 */
module RestoreOwnership {
  import opened Wrappers
  import opened Runs

  const RECOVERY_RESTORE_MAX_REMOTE_MUTATION_MS := 10 * 60_000
  const RECOVERY_RESTORE_RECONCILIATION_MARGIN_MS := 60_000
  const RECOVERY_RESTORE_QUIESCENCE_MS :=
    RECOVERY_RESTORE_MAX_REMOTE_MUTATION_MS + RECOVERY_RESTORE_RECONCILIATION_MARGIN_MS

  /** The labels of a volume: the attempt's token and the restore's scope. */
  datatype Labels = Labels(token: nat, scope: string)

  /** What stands under the target name. */
  datatype Target = Absent | Volume(labels: Option<Labels>)

  datatype Access = Extracted(into: Option<Labels>) | Removed(labels: Option<Labels>)

  datatype Phase =
    | Checking
    | Refused
    | Creating
    | Verifying
    | Extracting
    | Waiting
    | Succeeded
    | Inspecting
    | Confirming
    | Removing
    | Deferred(notBefore: int)
    | Cleaned
    | GivenUp

  /**
    pending: the extraction command was sent and has not yet mounted the volume; removals: how many removal
    commands were sent, got no reply and have not yet acted; sent: when the last of these was sent; heartbeat:
    when the attempt was entered in the ledger.
   */
  datatype State = State(
    target: Target, phase: Phase, pending: bool, removals: nat, log: seq<Access>, now: int, heartbeat: int, sent: int)

  /** durable: the attempt is in the restore ledger, so that a lost reply defers the cleanup. */
  datatype Attempt = Attempt(labels: Labels, durable: bool)

  datatype Event =
    // the attempt; reply: what the command's reply says, marked: the ledger took the time for the cleanup
    | Inspect(reply: Option<bool>)
    | Create(effect: bool, reply: Option<bool>, marked: bool)
    | Verify(ok: bool)
    | SendExtract
    | Mount
    | Vanish
    | ExtractReply(reply: Option<bool>, marked: bool)
    | Dispose
    | Retry
    | InspectOwner(ok: bool)
    | ConfirmOwner(ok: bool)
    | Remove(effect: bool, ok: bool, marked: bool)
    | LateRemove
    | RemoveVanishes
    // everybody else
    | Crash
    | Tick(ms: nat)
    | ForeignCreate(labels: Option<Labels>)
    | ForeignRemove

  predicate IsOwn(a: Attempt, t: Target) {
    t == Volume(Some(a.labels))
  }

  function LabelsOf(t: Target): Option<Labels> {
    if t.Volume? then t.labels else None
  }

  /** An attempt in the ledger without a time for its cleanup is taken up once its heartbeat is old. */
  function CleanupTime(s: State, marked: bool): int {
    (if marked then s.now else s.heartbeat) + RECOVERY_RESTORE_QUIESCENCE_MS
  }

  /** After a failed or unanswered step: an unanswered mutation of a durable attempt defers its cleanup. */
  function AfterFailure(a: Attempt, s: State, reply: Option<bool>, marked: bool): Phase {
    if reply.None? && a.durable then Deferred(CleanupTime(s, marked)) else Inspecting
  }

  function NextAttempt(a: Attempt, s: State, e: Event): Option<State> {
    match e
    case Inspect(reply) =>
      // Any failing exit code of the inspection counts as a free name.
      if s.phase != Checking || (reply == Some(true) && s.target == Absent) then None
      else if reply == Some(false) then Some(s.(phase := Creating, heartbeat := s.now))
      else Some(s.(phase := Refused))
    case Create(effect, reply, marked) =>
      if s.phase != Creating || (reply == Some(true) && !effect) then None
      else
        // Creating a volume under a name that is taken succeeds and changes nothing.
        var s' := if effect && s.target == Absent then s.(target := Volume(Some(a.labels))) else s;
        Some(s'.(phase := if reply == Some(true) then Verifying else AfterFailure(a, s, reply, marked)))
    case Verify(ok) =>
      if s.phase != Verifying then None
      else Some(s.(phase := if ok && IsOwn(a, s.target) then Extracting else Inspecting))
    case SendExtract =>
      if s.phase != Extracting then None else Some(s.(phase := Waiting, pending := true, sent := s.now))
    case Mount =>
      if !s.pending then None
      else
        // Running a container creates the volume it names if there is none.
        var target := if s.target == Absent then Volume(None) else s.target;
        Some(s.(target := target, pending := false, log := s.log + [Extracted(LabelsOf(target))]))
    case Vanish => if s.pending then Some(s.(pending := false)) else None
    case ExtractReply(reply, marked) =>
      if s.phase != Waiting || (reply.Some? && s.pending) then None
      else Some(s.(phase := if reply == Some(true) then Succeeded else AfterFailure(a, s, reply, marked)))
    case _ => None
  }

  /** The volume under the name is removed, whosever it is. */
  function Taken(s: State): State {
    if s.target.Volume? then s.(target := Absent, log := s.log + [Removed(s.target.labels)]) else s
  }

  function NextCleanup(a: Attempt, s: State, e: Event): Option<State> {
    match e
    case Dispose =>
      if s.phase == Succeeded || (s.phase.Deferred? && s.phase.notBefore <= s.now) then Some(s.(phase := Inspecting)) else None
    case Retry =>
      // A failed cleanup of a durable attempt is taken up again.
      if s.phase == GivenUp && a.durable then Some(s.(phase := Inspecting)) else None
    case InspectOwner(ok) =>
      if s.phase != Inspecting then None
      else if ok && s.target == Absent then Some(s.(phase := Cleaned))
      else Some(s.(phase := if ok && IsOwn(a, s.target) then Confirming else GivenUp))
    case ConfirmOwner(ok) =>
      if s.phase != Confirming then None
      else if ok && s.target == Absent then Some(s.(phase := Cleaned))
      else Some(s.(phase := if ok && IsOwn(a, s.target) then Removing else GivenUp))
    case Remove(effect, ok, marked) =>
      // A removal whose reply is lost without effect may still act.
      if s.phase != Removing || (ok && !effect) then None
      else
        var s' := if effect then Taken(s) else s.(removals := s.removals + 1, sent := s.now);
        Some(s'.(phase := if ok then Cleaned else if a.durable && marked then Deferred(CleanupTime(s, true)) else GivenUp))
    case LateRemove => if s.removals > 0 then Some(Taken(s).(removals := s.removals - 1)) else None
    case RemoveVanishes => if s.removals > 0 then Some(s.(removals := s.removals - 1)) else None
    case Crash =>
      // The process stops: a durable attempt is left to the ledger, any other to nobody.
      if s.phase == Creating || s.phase == Verifying || s.phase == Extracting || s.phase == Waiting || s.phase == Succeeded
      then Some(s.(phase := if a.durable then Deferred(CleanupTime(s, false)) else GivenUp)) else None
    case Tick(ms) => Some(s.(now := s.now + ms))
    case ForeignCreate(labels) =>
      if s.target == Absent && labels != Some(a.labels) then Some(s.(target := Volume(labels))) else None
    case ForeignRemove =>
      if s.target.Volume? && !IsOwn(a, s.target) then Some(s.(target := Absent)) else None
    case _ => None
  }

  function Next(a: Attempt, s: State, e: Event): Option<State> {
    match NextAttempt(a, s, e)
    case Some(s') => Some(s')
    case None => NextCleanup(a, s, e)
  }

  /** No command whose reply was lost may still act. */
  predicate IsQuiet(s: State) {
    !s.pending && s.removals == 0
  }

  /** A cleanup does not start while the extraction that it follows, or an earlier removal, may still act. */
  predicate Settled(a: Attempt, s: State, e: Event) {
    Next(a, s, e).Some? && Next(a, s, e).value.phase == Inspecting && s.phase != Inspecting ==> IsQuiet(s)
  }

  predicate AccessIsOwn(a: Attempt, access: Access) {
    match access
    case Extracted(labels) => labels == Some(a.labels)
    case Removed(labels) => labels == Some(a.labels)
  }

  predicate AllOwn(a: Attempt, s: State) {
    forall k | 0 <= k < |s.log| :: AccessIsOwn(a, s.log[k])
  }

  /** Phases that follow a look at the labels. */
  predicate RestsOnOwnership(phase: Phase) {
    phase == Extracting || phase == Waiting || phase == Succeeded || phase == Confirming || phase == Removing
  }

  /** Phases in which an extraction may be outstanding: its reply is awaited, was lost, or nobody waits any more. */
  predicate MayBePending(a: Attempt, phase: Phase) {
    phase == Waiting || phase.Deferred? || (phase == GivenUp && !a.durable)
  }

  predicate Inv(a: Attempt, s: State) {
    && AllOwn(a, s)
    && (!IsQuiet(s) || RestsOnOwnership(s.phase) ==> IsOwn(a, s.target))
    && (s.pending ==> MayBePending(a, s.phase) && s.removals == 0)
    && (s.removals > 0 ==> s.removals == 1 && (s.phase == GivenUp || s.phase.Deferred?))
  }

  lemma StepKeepsInv(a: Attempt, s: State, e: Event, s': State)
    requires Inv(a, s) && Settled(a, s, e) && Next(a, s, e) == Some(s')
    ensures Inv(a, s')
  {
  }

  predicate IsRun(a: Attempt, states: seq<State>, events: seq<Event>) {
    && |states| == |events| + 1
    && states[0].phase == Checking && IsQuiet(states[0]) && states[0].log == []
    && forall i {:trigger events[i]} | 0 <= i < |events| :: Next(a, states[i], events[i]) == Some(states[i + 1])
  }

  lemma {:induction false} InvHolds(a: Attempt, states: seq<State>, events: seq<Event>, n: nat)
    requires IsRun(a, states, events) && n < |states|
    requires forall i {:trigger events[i]} | 0 <= i < n :: Settled(a, states[i], events[i])
    ensures Inv(a, states[n])
    decreases n
  {
    if n > 0 {
      InvHolds(a, states, events, n - 1);
      assert Next(a, states[n - 1], events[n - 1]) == Some(states[n]);
      assert Settled(a, states[n - 1], events[n - 1]);
      StepKeepsInv(a, states[n - 1], events[n - 1], states[n]);
    }
  }

  /** Every attempt touches only volumes of its own, if each of its cleanups waits for its extraction. */
  lemma SettledRestoreTouchesOnlyItsOwn(a: Attempt, states: seq<State>, events: seq<Event>, n: nat, k: nat)
    requires IsRun(a, states, events) && n < |states| && k < |states[n].log|
    requires forall i {:trigger events[i]} | 0 <= i < |events| :: Settled(a, states[i], events[i])
    ensures AccessIsOwn(a, states[n].log[k])
  {
    InvHolds(a, states, events, n);
  }

  // ------------------------------------------------------------------ the ledger's time against the command's

  /** A command whose reply is lost is over before the ledger's time for the cleanup, which is noted. */
  predicate Quiesces(s: State) {
    !IsQuiet(s) ==> s.phase != GivenUp && (s.phase.Deferred? ==> s.now < s.phase.notBefore)
  }

  /** The only cleanup of a durable attempt that can start beside its own commands is the deferred one. */
  lemma QuiescentStepSettles(a: Attempt, s: State, e: Event, s': State)
    requires a.durable && Inv(a, s) && Quiesces(s) && Next(a, s, e) == Some(s')
    ensures Settled(a, s, e)
  {
  }

  lemma {:induction false} QuiescentRunSettles(a: Attempt, states: seq<State>, events: seq<Event>, n: nat)
    requires a.durable && IsRun(a, states, events) && n < |states|
    requires forall i | 0 <= i < |states| :: Quiesces(states[i])
    ensures Inv(a, states[n])
    ensures forall i {:trigger events[i]} | 0 <= i < n :: Settled(a, states[i], events[i])
    decreases n
  {
    if n > 0 {
      QuiescentRunSettles(a, states, events, n - 1);
      assert Next(a, states[n - 1], events[n - 1]) == Some(states[n]);
      QuiescentStepSettles(a, states[n - 1], events[n - 1], states[n]);
      StepKeepsInv(a, states[n - 1], events[n - 1], states[n]);
    }
  }

  /**
    A durable attempt whose command is over by the time the ledger lets the cleanup start extracts only
    into, and removes only, a volume with its own token and scope, whoever takes the name and whenever.
   */
  lemma DurableRestoreTouchesOnlyItsOwn(a: Attempt, states: seq<State>, events: seq<Event>, n: nat, k: nat)
    requires a.durable && IsRun(a, states, events) && n < |states| && k < |states[n].log|
    requires forall i | 0 <= i < |states| :: Quiesces(states[i])
    ensures AccessIsOwn(a, states[n].log[k])
  {
    QuiescentRunSettles(a, states, events, n);
  }

  /** A command has begun or is dead within the quiescence time after it was sent. */
  predicate Brief(s: State) {
    !IsQuiet(s) ==> s.now < s.sent + RECOVERY_RESTORE_QUIESCENCE_MS
  }

  /** The process that lost the reply is alive and has told the ledger. */
  predicate IsMarked(e: Event) {
    !e.Crash? && (e.ExtractReply? || e.Remove? ==> e.marked)
  }

  /** The cleanup is deferred by the quiescence time from the lost reply on, which is after the sending. */
  predicate DefersEnough(a: Attempt, s: State) {
    && (s.pending ==> s.phase == Waiting || s.phase.Deferred?)
    && (s.removals > 0 ==> s.phase.Deferred?)
    && (!IsQuiet(s) ==> s.sent <= s.now)
    && (!IsQuiet(s) && s.phase.Deferred? ==> s.sent + RECOVERY_RESTORE_QUIESCENCE_MS <= s.phase.notBefore)
  }

  lemma StepDefersEnough(a: Attempt, s: State, e: Event, s': State)
    requires a.durable && DefersEnough(a, s) && Brief(s) && IsMarked(e) && Next(a, s, e) == Some(s')
    ensures DefersEnough(a, s')
  {
  }

  /** With the time noted at every lost reply, brief commands are over in time. */
  lemma {:induction false} BriefCommandsQuiesce(a: Attempt, states: seq<State>, events: seq<Event>, n: nat)
    requires a.durable && IsRun(a, states, events) && n < |states|
    requires forall i | 0 <= i < |states| :: Brief(states[i])
    requires forall i {:trigger events[i]} | 0 <= i < |events| :: IsMarked(events[i])
    ensures DefersEnough(a, states[n]) && Quiesces(states[n])
    decreases n
  {
    assert Brief(states[n]);
    if n > 0 {
      BriefCommandsQuiesce(a, states, events, n - 1);
      assert Next(a, states[n - 1], events[n - 1]) == Some(states[n]);
      StepDefersEnough(a, states[n - 1], events[n - 1], states[n]);
    }
  }

  // ------------------------------------------------------------------ exactly when the promise holds

  /** All of these events are enabled one after the other, and each is settled. */
  predicate IsSettled(a: Attempt, s: State, events: seq<Event>)
    decreases |events|
  {
    events != [] ==>
      Settled(a, s, events[0]) && Next(a, s, events[0]).Some? && IsSettled(a, Next(a, s, events[0]).value, events[1..])
  }

  function End(a: Attempt, s: State, events: seq<Event>): State
    requires IsSettled(a, s, events)
    decreases |events|
  {
    if events == [] then s else End(a, Next(a, s, events[0]).value, events[1..])
  }

  /** Settled steps lead from here to an access to a volume that is not the attempt's. */
  ghost predicate CanEscape(a: Attempt, s: State) {
    exists events :: IsSettled(a, s, events) && !AllOwn(a, End(a, s, events))
  }

  lemma {:induction false} SettledKeepsInv(a: Attempt, s: State, events: seq<Event>)
    requires Inv(a, s) && IsSettled(a, s, events)
    ensures Inv(a, End(a, s, events))
    decreases |events|
  {
    if events != [] {
      StepKeepsInv(a, s, events[0], Next(a, s, events[0]).value);
      SettledKeepsInv(a, Next(a, s, events[0]).value, events[1..]);
    }
  }

  lemma InvCannotEscape(a: Attempt, s: State)
    requires Inv(a, s)
    ensures !CanEscape(a, s)
  {
    forall events | IsSettled(a, s, events) ensures AllOwn(a, End(a, s, events)) {
      SettledKeepsInv(a, s, events);
    }
  }

  lemma CanEscapeBefore(a: Attempt, s: State, e: Event, s': State)
    requires Settled(a, s, e) && Next(a, s, e) == Some(s') && CanEscape(a, s')
    ensures CanEscape(a, s)
  {
    var events :| IsSettled(a, s', events) && !AllOwn(a, End(a, s', events));
    assert ([e] + events)[1..] == events;
    assert IsSettled(a, s, [e] + events) && End(a, s, [e] + events) == End(a, s', events);
  }

  /** The cleanup removes the attempt's volume. */
  lemma CleanupRemoves(a: Attempt, s: State, s': State)
    requires s.phase == Inspecting && IsOwn(a, s.target)
    requires s' == s.(target := Absent, phase := Cleaned, log := s.log + [Removed(Some(a.labels))])
    ensures CanEscape(a, s') ==> CanEscape(a, s)
  {
    if CanEscape(a, s') {
      var s1 := Next(a, s, InspectOwner(true)).value;
      var s2 := Next(a, s1, ConfirmOwner(true)).value;
      assert Next(a, s2, Remove(true, true, true)) == Some(s');
      CanEscapeBefore(a, s2, Remove(true, true, true), s');
      CanEscapeBefore(a, s1, ConfirmOwner(true), s2);
      CanEscapeBefore(a, s, InspectOwner(true), s1);
    }
  }

  lemma CanEscapeNow(a: Attempt, s: State)
    requires s.log != [] && !AccessIsOwn(a, s.log[|s.log| - 1])
    ensures CanEscape(a, s)
  {
    assert IsSettled(a, s, []) && End(a, s, []) == s;
  }

  /**
    The cleanup removes the attempt's volume; then a pending extraction begins in a new one without labels,
    or a pending removal removes whatever somebody else has put under the name.
   */
  lemma EarlyCleanupCanEscape(a: Attempt, s: State)
    requires !IsQuiet(s) && s.phase == Inspecting && IsOwn(a, s.target)
    ensures CanEscape(a, s)
  {
    var s' := s.(target := Absent, phase := Cleaned, log := s.log + [Removed(Some(a.labels))]);
    CleanupRemoves(a, s, s');
    if s.pending {
      var mounted := Next(a, s', Mount).value;
      CanEscapeNow(a, mounted);
      CanEscapeBefore(a, s', Mount, mounted);
    } else {
      var created := Next(a, s', ForeignCreate(None)).value;
      var removed := Next(a, created, LateRemove).value;
      CanEscapeNow(a, removed);
      CanEscapeBefore(a, created, LateRemove, removed);
      CanEscapeBefore(a, s', ForeignCreate(None), created);
    }
  }

  /**
    From every state that settled steps lead to, a step makes a foreign access possible exactly when it
    starts a cleanup while a command of the attempt may still act: outside the ledger at the lost reply to an
    extraction, with the ledger when the deferred cleanup comes up, or a failed one is taken up again.
   */
  lemma EscapesExactly(a: Attempt, s: State, e: Event, s': State)
    requires Inv(a, s) && Next(a, s, e) == Some(s')
    ensures CanEscape(a, s') <==> !Settled(a, s, e)
    ensures !Settled(a, s, e) <==> !IsQuiet(s) && (e == Dispose || e == Retry || (e.ExtractReply? && !a.durable))
  {
    if Settled(a, s, e) {
      StepKeepsInv(a, s, e, s');
      InvCannotEscape(a, s');
    } else {
      EarlyCleanupCanEscape(a, s');
    }
  }

  /** A restore is safe, whatever settled steps may follow, exactly when all of its steps are settled. */
  lemma RestoreIsSafeExactly(a: Attempt, states: seq<State>, events: seq<Event>)
    requires IsRun(a, states, events)
    ensures (forall n | 0 <= n < |states| :: !CanEscape(a, states[n])) <==>
            (forall i {:trigger events[i]} | 0 <= i < |events| :: Settled(a, states[i], events[i]))
  {
    if forall i {:trigger events[i]} | 0 <= i < |events| :: Settled(a, states[i], events[i]) {
      forall n | 0 <= n < |states| ensures !CanEscape(a, states[n]) {
        InvHolds(a, states, events, n);
        InvCannotEscape(a, states[n]);
      }
    } else {
      var n := FirstUnsettledStep(a, states, events, |events|);
      InvHolds(a, states, events, n);
      EscapesExactly(a, states[n], events[n], states[n + 1]);
    }
  }

  lemma {:induction false} FirstUnsettledStep(a: Attempt, states: seq<State>, events: seq<Event>, n: nat) returns (first: nat)
    requires |states| == |events| + 1 && n <= |events|
    requires exists i {:trigger events[i]} | 0 <= i < n :: !Settled(a, states[i], events[i])
    ensures first < n && !Settled(a, states[first], events[first])
    ensures forall i {:trigger events[i]} | 0 <= i < first :: Settled(a, states[i], events[i])
    decreases n
  {
    if i {:trigger events[i]} :| 0 <= i < n - 1 && !Settled(a, states[i], events[i]) {
      first := FirstUnsettledStep(a, states, events, n - 1);
    } else {
      first := n - 1;
    }
  }

  /** The extraction lands in a volume of the attempt exactly when that volume is still there. */
  lemma MountIsOwnExactly(a: Attempt, s: State, s': State)
    requires AllOwn(a, s) && Next(a, s, Mount) == Some(s')
    ensures AllOwn(a, s') <==> IsOwn(a, s.target)
  {
    assert s'.log[|s.log|] == Extracted(LabelsOf(s'.target));
    if IsOwn(a, s.target) {
      forall k | 0 <= k < |s'.log| ensures AccessIsOwn(a, s'.log[k]) {
        if k < |s.log| {
          assert s'.log[k] == s.log[k];
        }
      }
    }
  }

  // ------------------------------------------------------------------ restores that touch a foreign volume

  const START := State(Absent, Checking, false, 0, [], 0, 0, 0)

  function Step(a: Attempt): Machine<State, Event> {
    (s, e) => Next(a, s, e)
  }

  lemma Then(a: Attempt, events: seq<Event>, s: State, e: Event) returns (events': seq<Event>, s': State)
    requires RunOf(Step(a), START, events) == Some(s) && Next(a, s, e).Some?
    ensures Next(a, s, e) == Some(s') && RunOf(Step(a), START, events') == Some(s')
  {
    RunExtends(Step(a), START, events, e);
    events', s' := events + [e], Next(a, s, e).value;
  }

  lemma RestoreUpToExtract(a: Attempt) returns (events: seq<Event>, s: State)
    ensures RunOf(Step(a), START, events) == Some(s)
    ensures s == State(Volume(Some(a.labels)), Waiting, true, 0, [], 0, 0, 0)
  {
    events, s := [], START;
    events, s := Then(a, events, s, Inspect(Some(false)));
    events, s := Then(a, events, s, Create(true, Some(true), true));
    events, s := Then(a, events, s, Verify(true));
    events, s := Then(a, events, s, SendExtract);
  }

  lemma CleanupBeforeExtract(a: Attempt, events0: seq<Event>, s0: State) returns (events: seq<Event>, s: State)
    requires RunOf(Step(a), START, events0) == Some(s0)
    requires s0.phase == Inspecting && s0.pending && IsOwn(a, s0.target) && s0.log == []
    ensures RunOf(Step(a), START, events) == Some(s)
    ensures s.log == [Removed(Some(a.labels)), Extracted(None)] && !AccessIsOwn(a, s.log[1]) && s.now == s0.now
  {
    events, s := Then(a, events0, s0, InspectOwner(true));
    events, s := Then(a, events, s, ConfirmOwner(true));
    events, s := Then(a, events, s, Remove(true, true, true));
    events, s := Then(a, events, s, Mount);
  }

  /**
    Without the ledger: the reply to the extraction is lost, the cleanup removes the attempt's volume,
    and the extraction then begins in a new volume without labels.
   */
  lemma LateExtractionEscapes(a: Attempt) returns (events: seq<Event>, s: State)
    requires !a.durable
    ensures RunOf(Step(a), START, events) == Some(s)
    ensures s.log == [Removed(Some(a.labels)), Extracted(None)] && !AccessIsOwn(a, s.log[1])
  {
    events, s := RestoreUpToExtract(a);
    events, s := Then(a, events, s, ExtractReply(None, true));
    events, s := CleanupBeforeExtract(a, events, s);
  }

  lemma DeferralUpToCleanup(a: Attempt, events0: seq<Event>, s0: State) returns (events: seq<Event>, s: State)
    requires RunOf(Step(a), START, events0) == Some(s0) && a.durable && s0.phase == Waiting
    ensures RunOf(Step(a), START, events) == Some(s)
    ensures s == s0.(phase := Inspecting, now := s0.now + RECOVERY_RESTORE_QUIESCENCE_MS)
  {
    events, s := Then(a, events0, s0, ExtractReply(None, true));
    events, s := Then(a, events, s, Tick(RECOVERY_RESTORE_QUIESCENCE_MS));
    events, s := Then(a, events, s, Dispose);
  }

  /** With the ledger the same happens to a command that begins after the quiescence time. */
  lemma OverlongExtractionEscapes(a: Attempt) returns (events: seq<Event>, s: State)
    requires a.durable
    ensures RunOf(Step(a), START, events) == Some(s)
    ensures s.log == [Removed(Some(a.labels)), Extracted(None)] && !AccessIsOwn(a, s.log[1])
    ensures s.now == RECOVERY_RESTORE_QUIESCENCE_MS
  {
    events, s := RestoreUpToExtract(a);
    events, s := DeferralUpToCleanup(a, events, s);
    events, s := CleanupBeforeExtract(a, events, s);
  }

  lemma RollbackLosesItsReply(a: Attempt) returns (events: seq<Event>, s: State)
    ensures RunOf(Step(a), START, events) == Some(s)
    ensures s == State(Volume(Some(a.labels)), GivenUp, false, 1, [Extracted(Some(a.labels))], 0, 0, 0)
  {
    events, s := RestoreUpToExtract(a);
    events, s := Then(a, events, s, Mount);
    events, s := Then(a, events, s, ExtractReply(Some(true), true));
    events, s := Then(a, events, s, Dispose);
    events, s := Then(a, events, s, InspectOwner(true));
    events, s := Then(a, events, s, ConfirmOwner(true));
    events, s := Then(a, events, s, Remove(false, false, false));
  }

  lemma CleanupAgain(a: Attempt, events0: seq<Event>, s0: State) returns (events: seq<Event>, s: State)
    requires RunOf(Step(a), START, events0) == Some(s0) && a.durable && s0.phase == GivenUp && IsOwn(a, s0.target)
    ensures RunOf(Step(a), START, events) == Some(s)
    ensures s == s0.(phase := Cleaned, target := Absent, log := s0.log + [Removed(Some(a.labels))])
  {
    events, s := Then(a, events0, s0, Retry);
    events, s := Then(a, events, s, InspectOwner(true));
    events, s := Then(a, events, s, ConfirmOwner(true));
    events, s := Then(a, events, s, Remove(true, true, true));
  }

  /**
    A removal whose reply is lost acts after a second cleanup has removed the volume and somebody else has
    taken the name.
   */
  lemma LateRemovalEscapes(a: Attempt) returns (events: seq<Event>, s: State)
    requires a.durable
    ensures RunOf(Step(a), START, events) == Some(s)
    ensures s.log == [Extracted(Some(a.labels)), Removed(Some(a.labels)), Removed(None)] && !AccessIsOwn(a, s.log[2])
  {
    events, s := RollbackLosesItsReply(a);
    events, s := CleanupAgain(a, events, s);
    events, s := Then(a, events, s, ForeignCreate(None));
    events, s := Then(a, events, s, LateRemove);
  }

  // ------------------------------------------------------------------ the restore and its cleanups

  /** Nothing was removed between the two states. */
  predicate RemovesNothing(s: State, s': State) {
    s.log <= s'.log && forall k | |s.log| <= k < |s'.log| :: s'.log[k].Extracted?
  }

  /** Time passes, and nothing but what the attempt's pending commands do is added to the log. */
  predicate GoesOn(s: State, s': State) {
    && s'.phase == s.phase && s.now <= s'.now && (s'.pending ==> s.pending) && s'.removals <= s.removals
    && s.log <= s'.log && (IsQuiet(s) ==> s'.log == s.log) && (s.removals == 0 ==> RemovesNothing(s, s'))
  }

  lemma GoesOnTwice(s: State, mid: State, s': State)
    requires GoesOn(s, mid) && GoesOn(mid, s')
    ensures GoesOn(s, s')
  {
  }

  predicate IsOthers(e: Event) {
    e.ForeignCreate? || e.ForeignRemove? || e.Mount? || e.Vanish? || e.LateRemove? || e.RemoveVanishes? || e.Tick?
  }

  lemma OthersGoOn(a: Attempt, s: State, e: Event, s': State)
    requires IsOthers(e) && Next(a, s, e) == Some(s')
    ensures GoesOn(s, s') && (Settled(a, s, e) || s.phase == Inspecting)
    ensures Inv(a, s) ==> Inv(a, s')
  {
    if Inv(a, s) {
      StepKeepsInv(a, s, e, s');
    }
  }

  class Host {
    var state: State
    const attempt: Attempt
    /** Whether all steps so far were settled. */
    ghost var settled: bool
    /** What the inspections by name have reported, in their order. */
    ghost var reports: seq<Target>

    ghost predicate Valid()
      reads this
    {
      settled ==> Inv(attempt, state)
    }

    constructor (a: Attempt, target: Target, now: int)
      ensures Valid() && attempt == a && settled && reports == []
      ensures state == State(target, Checking, false, 0, [], now, now, now)
    {
      attempt, state, settled, reports := a, State(target, Checking, false, 0, [], now, now, now), true, [];
    }

    method Perform(e: Event)
      requires Valid() && Next(attempt, state, e).Some?
      modifies this`state, this`settled
      ensures Valid() && Some(state) == Next(attempt, old(state), e)
      ensures settled <==> old(settled) && Settled(attempt, old(state), e)
    {
      if settled && Settled(attempt, state, e) {
        StepKeepsInv(attempt, state, e, Next(attempt, state, e).value);
      }
      settled := settled && Settled(attempt, state, e);
      state := Next(attempt, state, e).value;
    }

    /** Others create and remove volumes, time passes, and a sent extraction begins or dies. */
    method Interfere()
      requires Valid()
      modifies this`state
      ensures Valid() && GoesOn(old(state), state)
    {
      var steps: nat := *;
      while steps > 0
        invariant Valid() && GoesOn(old(state), state)
      {
        var e: Event := *;
        if IsOthers(e) && Next(attempt, state, e).Some? {
          OthersGoOn(attempt, state, e, Next(attempt, state, e).value);
          GoesOnTwice(old(state), state, Next(attempt, state, e).value);
          state := Next(attempt, state, e).value;
        }
        steps := steps - 1;
      }
    }

    /** The volume's labels as an inspection by name reports them; None when the command fails. */
    method Report() returns (found: Option<Target>)
      requires Valid()
      modifies this`state, this`reports
      ensures Valid() && GoesOn(old(state), state)
      ensures found.Some? ==> found.value == state.target
      ensures reports == if found.Some? then old(reports) + [found.value] else old(reports)
    {
      Interfere();
      var answered: bool := *;
      if !answered {
        return None;
      }
      reports := reports + [state.target];
      return Some(state.target);
    }
  }

  /** Where a cleanup leaves the attempt: done, given up, or with the ledger. */
  predicate IsLeft(a: Attempt, phase: Phase, cleaned: bool) {
    if cleaned then phase == Cleaned else phase == GivenUp || (a.durable && phase.Deferred?)
  }

  /** The second inspection must report what the first did. */
  method RemoveWithinBoundary(h: Host, identity: Target) returns (cleaned: bool)
    requires h.Valid() && h.state.phase == Confirming && IsOwn(h.attempt, identity)
    modifies h
    ensures h.Valid() && h.settled == old(h.settled) && old(h.state).log <= h.state.log && old(h.state).now <= h.state.now
    ensures IsLeft(h.attempt, h.state.phase, cleaned)
    ensures old(h.state).removals > 0 || RemovesNothing(old(h.state), h.state) || h.reports == old(h.reports) + [identity]
  {
    var boundary := h.Report();
    h.Perform(ConfirmOwner(boundary.Some?));
    if boundary.None? || boundary != Some(identity) {
      return boundary == Some(Absent);
    }
    h.Interfere();
    var effect: bool, reply: bool, marked: bool := *, *, *;
    h.Perform(Remove(effect || reply, reply, marked));
    return reply;
  }

  /**
    Remove the volume if, and only if, two inspections in a row find it labelled by the attempt. The
    attempt's own clean-up and the deferred one both do this.
   */
  method CleanupLegacyRestoreVolume(h: Host) returns (cleaned: bool)
    requires h.Valid() && h.state.phase == Inspecting
    modifies h
    ensures h.Valid() && h.settled == old(h.settled) && old(h.state).log <= h.state.log && old(h.state).now <= h.state.now
    ensures IsLeft(h.attempt, h.state.phase, cleaned)
    ensures old(h.state).removals > 0 || RemovesNothing(old(h.state), h.state)
            || h.reports == old(h.reports) + [Volume(Some(h.attempt.labels)), Volume(Some(h.attempt.labels))]
  {
    var identity := h.Report();
    h.Perform(InspectOwner(identity.Some?));
    if identity.None? || !IsOwn(h.attempt, identity.value) {
      return identity == Some(Absent);
    }
    cleaned := RemoveWithinBoundary(h, identity.value);
  }

  /**
    The cleanup of an attempt in the ledger, once its time has come or when a failed one is taken up again;
    late: a command of the attempt could still act then.
   */
  method ReconcileRestoreAttempt(h: Host) returns (cleaned: Option<bool>, ghost late: bool)
    requires h.Valid() && h.attempt.durable && (h.state.phase.Deferred? || h.state.phase == GivenUp)
    modifies h
    ensures h.Valid() && h.settled == (old(h.settled) && !late)
    ensures cleaned.None? ==> h.state.phase == old(h.state).phase && !late
    ensures cleaned.Some? ==> IsLeft(h.attempt, h.state.phase, cleaned.value)
    ensures cleaned.Some? && old(h.state).phase.Deferred? ==> old(h.state).phase.notBefore <= h.state.now
    ensures late ==> !IsQuiet(old(h.state))
    ensures old(h.state).removals > 0 || RemovesNothing(old(h.state), h.state)
            || h.reports == old(h.reports) + [Volume(Some(h.attempt.labels)), Volume(Some(h.attempt.labels))]
  {
    h.Interfere();
    if h.state.phase.Deferred? && h.state.now < h.state.phase.notBefore {
      return None, false;
    }
    late := !IsQuiet(h.state);
    h.Perform(if h.state.phase.Deferred? then Dispose else Retry);
    var done := CleanupLegacyRestoreVolume(h);
    return Some(done), late;
  }

  datatype Outcome = Restored | Declined | Failed(cleaned: bool) | Unknown

  /**
    A restore into a name that must be free. Up to its own cleanup it touches only its own volume; the
    cleanup comes too early exactly when an attempt outside the ledger loses the reply to an extraction
    that is still pending.
   */
  method RestoreVolumeBackupArtifact(h: Host) returns (outcome: Outcome, ghost late: bool)
    requires h.Valid() && h.settled && h.state.phase == Checking && h.state.log == []
    modifies h
    ensures h.Valid() && h.settled == !late && (!late ==> AllOwn(h.attempt, h.state))
    ensures late ==> !h.attempt.durable && outcome.Failed?
    ensures outcome == Restored ==> h.state.phase == Succeeded && IsOwn(h.attempt, h.state.target)
    ensures outcome == Declined ==> h.state.phase == Refused && h.state.log == []
    ensures outcome == Unknown ==> h.attempt.durable && h.state.phase.Deferred?
    ensures outcome.Failed? ==> IsLeft(h.attempt, h.state.phase, outcome.cleaned)
  {
    late := false;
    h.Interfere();
    var exitsWithZero: Option<bool> := *;
    if h.state.target == Absent && exitsWithZero == Some(true) {
      exitsWithZero := Some(false);
    }
    h.Perform(Inspect(exitsWithZero));
    if exitsWithZero != Some(false) {
      return Declined, late;
    }
    h.Interfere();
    var effect: bool, created: Option<bool>, marked: bool := *, *, *;
    h.Perform(Create(effect || created == Some(true), created, marked));
    if created != Some(true) {
      outcome := FailRestore(h, created);
      return;
    }
    outcome, late := RestoreIntoCreated(h);
  }

  /** The volume was created or was there: it must carry the labels. */
  method RestoreIntoCreated(h: Host) returns (outcome: Outcome, ghost late: bool)
    requires h.Valid() && h.settled && h.state.phase == Verifying
    modifies h
    ensures h.Valid() && h.settled == !late
    ensures late ==> !h.attempt.durable && outcome.Failed?
    ensures outcome == Restored ==> h.state.phase == Succeeded && IsOwn(h.attempt, h.state.target)
    ensures outcome != Declined
    ensures outcome == Unknown ==> h.attempt.durable && h.state.phase.Deferred?
    ensures outcome.Failed? ==> IsLeft(h.attempt, h.state.phase, outcome.cleaned)
  {
    late := false;
    var ownership := h.Report();
    h.Perform(Verify(ownership.Some?));
    if ownership.None? || !IsOwn(h.attempt, ownership.value) {
      outcome := FailRestore(h, Some(false));
      return;
    }
    h.Perform(SendExtract);
    outcome, late := AwaitExtract(h);
  }

  /** The extraction was sent: its reply, or none. */
  method AwaitExtract(h: Host) returns (outcome: Outcome, ghost late: bool)
    requires h.Valid() && h.settled && h.state.phase == Waiting
    modifies h
    ensures h.Valid() && h.settled == !late
    ensures late ==> !h.attempt.durable && outcome.Failed?
    ensures outcome == Restored ==> h.state.phase == Succeeded && IsOwn(h.attempt, h.state.target)
    ensures outcome != Declined
    ensures outcome == Unknown ==> h.attempt.durable && h.state.phase.Deferred?
    ensures outcome.Failed? ==> IsLeft(h.attempt, h.state.phase, outcome.cleaned)
  {
    h.Interfere();
    var restored: Option<bool>, marked: bool := *, *;
    if h.state.pending {
      restored := None;
    }
    late := h.state.pending && !h.attempt.durable;
    h.Perform(ExtractReply(restored, marked));
    if restored == Some(true) {
      return Restored, late;
    }
    outcome := FailRestore(h, restored);
  }

  method FailRestore(h: Host, reply: Option<bool>) returns (outcome: Outcome)
    requires h.Valid() && reply != Some(true)
    requires if reply.None? && h.attempt.durable then h.state.phase.Deferred? else h.state.phase == Inspecting
    modifies h
    ensures h.Valid() && h.settled == old(h.settled)
    ensures outcome == Unknown <==> reply.None? && h.attempt.durable
    ensures outcome == Unknown ==> h.state.phase.Deferred?
    ensures outcome != Unknown ==> outcome.Failed? && IsLeft(h.attempt, h.state.phase, outcome.cleaned)
  {
    if reply.None? && h.attempt.durable {
      return Unknown;
    }
    var cleaned := CleanupLegacyRestoreVolume(h);
    return Failed(cleaned);
  }
}
