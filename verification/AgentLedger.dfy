/** The agent's ledger of remote operations behind a network that loses, delays and duplicates messages. */
module AgentLedger {
  import opened Wrappers

  type OperationId = nat
  type Digest = nat

  const RETENTION_MS := 24 * 60 * 60_000

  datatype Kind = DockerCommand | FileWrite
  datatype Status = Running | Completed | Failed | TimedOut

  /** What a request asks for; the digest is that of the command, or of path and content. */
  datatype Params = Params(kind: Kind, digest: Digest, timeoutMs: nat)

  /** serial numbers the execution that the operation stands for. */
  datatype Operation = Operation(params: Params, status: Status, completedAt: Option<int>, serial: nat)

  type Ledger = map<OperationId, Operation>

  // ------------------------------------------------------------------ the ledger

  predicate Expired(op: Operation, now: int) {
    op.status != Running && op.completedAt.Some? && now - op.completedAt.value > RETENTION_MS
  }

  function Retained(ledger: Ledger, now: int): Ledger {
    map id | id in ledger && !Expired(ledger[id], now) :: ledger[id]
  }

  datatype Answer = Mismatch | Joined(op: Operation) | Started

  /** What a tracked request meets after the clean-up. */
  function Lookup(ledger: Ledger, id: OperationId, params: Params): Answer {
    if id !in ledger then Started
    else if ledger[id].params != params then Mismatch
    else Joined(ledger[id])
  }

  class AgentOperations {
    var operations: Ledger

    constructor ()
      ensures operations == map[]
    {
      operations := map[];
    }

    method CleanupAgentOperations(now: int)
      modifies this
      ensures operations == Retained(old(operations), now)
    {
      var ids := operations.Keys;
      while ids != {}
        invariant ids <= operations.Keys <= old(operations).Keys
        invariant forall id | id in operations :: operations[id] == old(operations)[id]
        invariant forall id | id in old(operations) && id !in ids :: id in operations <==> !Expired(old(operations)[id], now)
        decreases |ids|
      {
        var id :| id in ids;
        ids := ids - {id};
        if Expired(operations[id], now) {
          operations := operations - {id};
        }
      }
    }

    /** Join a running or finished operation, refuse a different one, or start it. */
    method RunTracked(id: OperationId, params: Params, now: int, serial: nat) returns (answer: Answer)
      modifies this
      ensures answer == Lookup(Retained(old(operations), now), id, params)
      ensures operations == if answer.Started? then Retained(old(operations), now)[id := Operation(params, Running, None, serial)]
                            else Retained(old(operations), now)
    {
      CleanupAgentOperations(now);
      if id in operations {
        return if operations[id].params != params then Mismatch else Joined(operations[id]);
      }
      operations := operations[id := Operation(params, Running, None, serial)];
      return Started;
    }

    method Finish(id: OperationId, outcome: Status, now: int)
      requires id in operations && operations[id].status == Running
      modifies this
      ensures operations == old(operations)[id := old(operations)[id].(status := outcome, completedAt := Some(now))]
    {
      operations := operations[id := operations[id].(status := outcome, completedAt := Some(now))];
    }

    method Inspect(id: OperationId, now: int) returns (status: Option<Status>)
      modifies this
      ensures operations == Retained(old(operations), now)
      ensures status == if id in operations then Some(operations[id].status) else None
    {
      CleanupAgentOperations(now);
      return if id in operations then Some(operations[id].status) else None;
    }
  }

  // ------------------------------------------------------------------ replies and what the manager makes of them

  /** What the manager may learn from the operation part of a reply. */
  datatype RuntimeState = Known(status: Status) | Missing | Other

  /** An answer over HTTP: the outcome is that of the command, operation the agent's receipt. */
  datatype HttpReply = HttpReply(code: nat, outcome: Option<Status>, operation: Option<(OperationId, RuntimeState)>)

  predicate Ok(reply: HttpReply) {
    200 <= reply.code < 300
  }

  /** The run route's answer once the operation has finished; exitCode is the command's. */
  function RunReply(id: OperationId, outcome: Status, exitCode: nat): HttpReply {
    HttpReply(if outcome == TimedOut then 504 else if exitCode != 0 then 500 else 200,
              Some(outcome), Some((id, Known(outcome))))
  }

  /** The file-write route's answer; a failed write reports its own error code. */
  function WriteReply(id: OperationId, outcome: Status, errorCode: nat): HttpReply {
    HttpReply(if outcome == Completed then 200 else errorCode, None, Some((id, Known(outcome))))
  }

  const MISMATCH_REPLY := HttpReply(409, None, None)

  datatype Verdict = Record(status: Status) | Unknown

  predicate IsTerminal(state: RuntimeState) {
    state.Known? && state.status != Running
  }

  /** The manager's reading of a run reply; an older agent's plain success counts as completed. */
  function ReadRunReply(id: OperationId, reply: HttpReply): Verdict {
    var state :=
      if reply.operation.Some? && reply.operation.value.0 == id then reply.operation.value.1
      else if reply.outcome.Some? then Known(reply.outcome.value) else Other;
    if IsTerminal(state) then Record(state.status)
    else if Ok(reply) then Record(Completed)
    else Unknown
  }

  function ReadWriteReply(id: OperationId, reply: HttpReply): Verdict {
    if reply.operation.Some? then
      if reply.operation.value.0 == id && IsTerminal(reply.operation.value.1) then Record(reply.operation.value.1.status) else Unknown
    else if Ok(reply) then Record(Completed)
    else Unknown
  }

  /** The manager records exactly the outcome the agent reports, whatever the exit or error code. */
  lemma RepliesAreReadAsMeant(id: OperationId, outcome: Status, code: nat)
    requires outcome != Running
    ensures ReadRunReply(id, RunReply(id, outcome, code)) == Record(outcome)
    ensures ReadWriteReply(id, WriteReply(id, outcome, code)) == Record(outcome)
    ensures ReadRunReply(id, MISMATCH_REPLY) == Unknown && ReadWriteReply(id, MISMATCH_REPLY) == Unknown
  {
  }

  // ------------------------------------------------------------------ the link

  datatype Request = Request(id: OperationId, params: Params)

  datatype Message =
    | Reply(id: OperationId, serial: nat, http: HttpReply)
    | Refusal(id: OperationId)
    | Inspection(id: OperationId, serial: nat, status: Status)
    | NotFound(id: OperationId)

  datatype Execution = Execution(id: OperationId, params: Params, finished: Option<Status>)

  /**
    requests and messages are everything ever sent: a message that is never delivered is lost, one
    that is delivered twice is duplicated. executions lists every command or write ever started.
   */
  datatype State = State(
    ledger: Ledger, executions: seq<Execution>, requests: set<Request>, messages: set<Message>,
    recorded: map<OperationId, (nat, Status)>, now: int)

  datatype Event =
    | Send(request: Request)
    | Deliver(request: Request, code: nat)
    | Finish(id: OperationId, outcome: Status, code: nat)
    | Inspect(id: OperationId)
    | ReceiveRun(message: Message)
    | Tick(ms: nat)

  function ReplyFor(id: OperationId, params: Params, outcome: Status, code: nat): HttpReply {
    if params.kind == DockerCommand then RunReply(id, outcome, code) else WriteReply(id, outcome, code)
  }

  function ReadReply(kind: Kind, id: OperationId, reply: HttpReply): Verdict {
    if kind == DockerCommand then ReadRunReply(id, reply) else ReadWriteReply(id, reply)
  }

  /** A file write has no time limit of its own to exceed. */
  predicate CanEnd(kind: Kind, outcome: Status) {
    outcome != Running && (kind == FileWrite ==> outcome != TimedOut)
  }

  function NextDeliver(s: State, r: Request, code: nat): State {
    var ledger := Retained(s.ledger, s.now);
    match Lookup(ledger, r.id, r.params)
    case Mismatch => s.(ledger := ledger, messages := s.messages + {Refusal(r.id)})
    case Joined(op) =>
      if op.status == Running then s.(ledger := ledger)
      else s.(ledger := ledger, messages := s.messages + {Reply(r.id, op.serial, ReplyFor(r.id, r.params, op.status, code))})
    case Started =>
      s.(ledger := ledger[r.id := Operation(r.params, Running, None, |s.executions|)],
         executions := s.executions + [Execution(r.id, r.params, None)])
  }

  function NextFinish(s: State, id: OperationId, outcome: Status, code: nat): State
    requires id in s.ledger && s.ledger[id].serial < |s.executions|
  {
    var op := s.ledger[id];
    s.(ledger := s.ledger[id := op.(status := outcome, completedAt := Some(s.now))],
       executions := s.executions[op.serial := s.executions[op.serial].(finished := Some(outcome))],
       messages := s.messages + {Reply(id, op.serial, ReplyFor(id, op.params, outcome, code))})
  }

  function NextInspect(s: State, id: OperationId): State {
    var ledger := Retained(s.ledger, s.now);
    if id in ledger then s.(ledger := ledger, messages := s.messages + {Inspection(id, ledger[id].serial, ledger[id].status)})
    else s.(ledger := ledger, messages := s.messages + {NotFound(id)})
  }

  /** A reply reaches the manager, which records a terminal state. */
  function NextReceive(s: State, m: Message): State
    requires m.Reply? && m.serial < |s.executions|
  {
    match ReadReply(s.executions[m.serial].params.kind, m.id, m.http)
    case Record(status) => s.(recorded := s.recorded[m.id := (m.serial, status)])
    case Unknown => s
  }

  function Next(s: State, e: Event): Option<State> {
    match e
    case Send(r) => Some(s.(requests := s.requests + {r}))
    case Deliver(r, code) => if r in s.requests then Some(NextDeliver(s, r, code)) else None
    case Finish(id, outcome, code) =>
      if id in s.ledger && s.ledger[id].status == Running && s.ledger[id].serial < |s.executions|
         && CanEnd(s.ledger[id].params.kind, outcome)
      then Some(NextFinish(s, id, outcome, code)) else None
    case Inspect(id) => Some(NextInspect(s, id))
    case ReceiveRun(m) => if m in s.messages && m.Reply? && m.serial < |s.executions| then Some(NextReceive(s, m)) else None
    case Tick(ms) => Some(s.(now := s.now + ms))
  }

  predicate Initial(s: State) {
    s.ledger == map[] && s.executions == [] && s.requests == {} && s.messages == {} && s.recorded == map[]
  }

  predicate IsRun(states: seq<State>, events: seq<Event>) {
    && |states| == |events| + 1
    && Initial(states[0])
    && forall i {:trigger events[i]} | 0 <= i < |events| :: Next(states[i], events[i]) == Some(states[i + 1])
  }

  // ------------------------------------------------------------------ at most once

  /** The event starts the command or write of this operation. */
  predicate Starts(s: State, e: Event, id: OperationId) {
    e.Deliver? && e.request.id == id && id !in Retained(s.ledger, s.now)
  }

  /** Since an execution began at time t, the operation is in the ledger or more than a day has passed. */
  predicate Remembers(s: State, id: OperationId, t: int) {
    && t <= s.now
    && (id in s.ledger ==> s.ledger[id].completedAt.Some? ==> t <= s.ledger[id].completedAt.value)
    && (id !in s.ledger ==> s.now - t > RETENTION_MS)
  }

  lemma StepRemembers(s: State, e: Event, s': State, id: OperationId, t: int)
    requires Remembers(s, id, t) && Next(s, e) == Some(s')
    ensures Remembers(s', id, t)
  {
  }

  lemma StartRemembers(s: State, e: Event, s': State, id: OperationId)
    requires Next(s, e) == Some(s') && Starts(s, e, id)
    ensures Remembers(s', id, s.now)
  {
  }

  lemma {:induction false} RunRemembers(states: seq<State>, events: seq<Event>, i: nat, j: nat, id: OperationId)
    requires IsRun(states, events) && i < j < |states| && Starts(states[i], events[i], id)
    ensures Remembers(states[j], id, states[i].now)
    decreases j
  {
    assert Next(states[i], events[i]) == Some(states[i + 1]);
    if j == i + 1 {
      StartRemembers(states[i], events[i], states[j], id);
    } else {
      RunRemembers(states, events, i, j - 1, id);
      assert Next(states[j - 1], events[j - 1]) == Some(states[j]);
      StepRemembers(states[j - 1], events[j - 1], states[j], id, states[i].now);
    }
  }

  /**
    However requests are lost, retried or duplicated, and whichever kind of operation they ask for,
    an operation id is executed a second time only after more than the retention period.
   */
  lemma AtMostOnceWhileRetained(states: seq<State>, events: seq<Event>, i: nat, j: nat, id: OperationId)
    requires IsRun(states, events) && i < j < |events|
    requires Starts(states[i], events[i], id) && Starts(states[j], events[j], id)
    ensures states[j].now - states[i].now > RETENTION_MS
  {
    RunRemembers(states, events, i, j, id);
  }

  /** Nothing but starting an operation executes anything, and it executes what was asked for. */
  lemma ExecutionsAreStarts(s: State, e: Event, s': State)
    requires Next(s, e) == Some(s')
    ensures |s'.executions| == |s.executions| + (if e.Deliver? && Starts(s, e, e.request.id) then 1 else 0)
    ensures |s'.executions| > |s.executions| ==>
              s'.executions == s.executions + [Execution(e.request.id, e.request.params, None)]
  {
  }

  /** A request that differs in kind, content or time limit from the retained operation runs nothing. */
  lemma MismatchRunsNothing(s: State, r: Request, code: nat, s': State)
    requires Next(s, Deliver(r, code)) == Some(s')
    requires r.id in Retained(s.ledger, s.now) && s.ledger[r.id].params != r.params
    ensures s'.executions == s.executions && s'.ledger == Retained(s.ledger, s.now)
    ensures s'.messages == s.messages + {Refusal(r.id)}
  {
  }

  // ------------------------------------------------------------------ one terminal state, reported truly

  predicate OperationIsReal(s: State, id: OperationId, op: Operation) {
    && op.serial < |s.executions|
    && s.executions[op.serial].id == id
    && s.executions[op.serial].params == op.params
    && s.executions[op.serial].finished == (if op.status == Running then None else Some(op.status))
  }

  predicate IsOutcome(s: State, id: OperationId, serial: nat, status: Status) {
    serial < |s.executions| && s.executions[serial].id == id && s.executions[serial].finished == Some(status)
  }

  /** A message tells only what has happened. */
  predicate MessageIsTrue(s: State, m: Message) {
    match m
    case Reply(id, serial, http) =>
      && serial < |s.executions| && s.executions[serial].finished.Some? && s.executions[serial].id == id
      && ReadReply(s.executions[serial].params.kind, id, http) == Record(s.executions[serial].finished.value)
    case Inspection(id, serial, status) => status != Running ==> IsOutcome(s, id, serial, status)
    case _ => true
  }

  predicate Truthful(s: State) {
    && (forall id | id in s.ledger :: OperationIsReal(s, id, s.ledger[id]))
    && (forall m | m in s.messages :: MessageIsTrue(s, m))
    && (forall id | id in s.recorded :: IsOutcome(s, id, s.recorded[id].0, s.recorded[id].1))
    && (forall i | 0 <= i < |s.executions| :: s.executions[i].finished != Some(Running))
  }

  /** The executions of s, some more finished, none finished differently. */
  predicate Grows(s: State, s': State) {
    && |s.executions| <= |s'.executions|
    && forall i | 0 <= i < |s.executions| ::
         && s'.executions[i].id == s.executions[i].id && s'.executions[i].params == s.executions[i].params
         && (s.executions[i].finished.Some? ==> s'.executions[i].finished == s.executions[i].finished)
  }

  lemma StepGrows(s: State, e: Event, s': State)
    requires Truthful(s) && Next(s, e) == Some(s')
    ensures Grows(s, s')
  {
    if e.Finish? {
      assert OperationIsReal(s, e.id, s.ledger[e.id]);
    }
  }

  lemma StepKeepsOperationsReal(s: State, e: Event, s': State)
    requires Truthful(s) && SerialsAreDistinct(s) && Next(s, e) == Some(s')
    ensures forall id | id in s'.ledger :: OperationIsReal(s', id, s'.ledger[id])
  {
    forall id | id in s'.ledger ensures OperationIsReal(s', id, s'.ledger[id]) {
      if id in s.ledger {
        assert OperationIsReal(s, id, s.ledger[id]);
      }
    }
  }

  lemma TruthLasts(s: State, s': State, m: Message)
    requires Grows(s, s') && MessageIsTrue(s, m)
    ensures MessageIsTrue(s', m)
  {
  }

  lemma NewMessageIsTrue(s: State, e: Event, s': State, m: Message)
    requires Truthful(s) && Next(s, e) == Some(s') && m in s'.messages && m !in s.messages
    ensures MessageIsTrue(s', m)
  {
    if e.Deliver? {
      if m.Reply? {
        var op := s.ledger[m.id];
        assert OperationIsReal(s, m.id, op);
        RepliesAreReadAsMeant(m.id, op.status, e.code);
      }
    } else if e.Finish? {
      assert OperationIsReal(s, e.id, s.ledger[e.id]);
      RepliesAreReadAsMeant(e.id, e.outcome, e.code);
    } else {
      assert e.id in s.ledger ==> OperationIsReal(s, e.id, s.ledger[e.id]);
    }
  }

  lemma StepKeepsMessagesTrue(s: State, e: Event, s': State)
    requires Truthful(s) && Next(s, e) == Some(s') && Grows(s, s')
    ensures forall m | m in s'.messages :: MessageIsTrue(s', m)
  {
    forall m | m in s'.messages ensures MessageIsTrue(s', m) {
      if m in s.messages {
        TruthLasts(s, s', m);
      } else {
        NewMessageIsTrue(s, e, s', m);
      }
    }
  }

  lemma StepKeepsRecordsTrue(s: State, e: Event, s': State)
    requires Truthful(s) && Next(s, e) == Some(s') && Grows(s, s')
    ensures forall id | id in s'.recorded :: IsOutcome(s', id, s'.recorded[id].0, s'.recorded[id].1)
  {
    if e.ReceiveRun? {
      assert MessageIsTrue(s, e.message);
    }
    forall id | id in s'.recorded ensures IsOutcome(s', id, s'.recorded[id].0, s'.recorded[id].1) {
      if id in s.recorded {
        assert IsOutcome(s, id, s.recorded[id].0, s.recorded[id].1);
      }
    }
  }

  predicate SerialsAreDistinct(s: State) {
    forall a, b | a in s.ledger && b in s.ledger && a != b :: s.ledger[a].serial != s.ledger[b].serial
  }

  lemma StepKeepsTruth(s: State, e: Event, s': State)
    requires Truthful(s) && SerialsAreDistinct(s) && Next(s, e) == Some(s')
    ensures Truthful(s') && SerialsAreDistinct(s')
  {
    StepGrows(s, e, s');
    StepKeepsOperationsReal(s, e, s');
    StepKeepsMessagesTrue(s, e, s');
    StepKeepsRecordsTrue(s, e, s');
  }

  lemma {:induction false} TruthHolds(states: seq<State>, events: seq<Event>, n: nat)
    requires IsRun(states, events) && n < |states|
    ensures Truthful(states[n]) && SerialsAreDistinct(states[n])
    decreases n
  {
    if n > 0 {
      TruthHolds(states, events, n - 1);
      assert Next(states[n - 1], events[n - 1]) == Some(states[n]);
      StepKeepsTruth(states[n - 1], events[n - 1], states[n]);
    }
  }

  /** A finished operation keeps its terminal state for as long as it is retained. */
  lemma StatusLeavesRunningOnce(s: State, e: Event, s': State, id: OperationId)
    requires Next(s, e) == Some(s') && id in s.ledger && s.ledger[id].status != Running && id in Retained(s.ledger, s'.now)
    requires id in s'.ledger
    ensures s'.ledger[id] == s.ledger[id]
  {
  }

  /** The execution of this operation that is in the ledger is the only one there has been. */
  predicate RanOnce(s: State, id: OperationId) {
    forall i, j | 0 <= i < j < |s.executions| :: s.executions[i].id == id ==> s.executions[j].id != id
  }

  /**
    Whatever terminal state the manager has recorded for an operation is the one in which its
    execution ended, and is the ledger's while the operation is retained and has run once.
   */
  lemma RecordsEqualTheLedger(states: seq<State>, events: seq<Event>, n: nat, id: OperationId)
    requires IsRun(states, events) && n < |states| && id in states[n].recorded
    ensures IsOutcome(states[n], id, states[n].recorded[id].0, states[n].recorded[id].1)
    ensures id in states[n].ledger && RanOnce(states[n], id) ==> states[n].ledger[id].status == states[n].recorded[id].1
  {
    TruthHolds(states, events, n);
    var s := states[n];
    if id in s.ledger && RanOnce(s, id) {
      assert OperationIsReal(s, id, s.ledger[id]);
      var a, b := s.ledger[id].serial, s.recorded[id].0;
      assert a == b;
    }
  }

  /** An inspection that reports a terminal state reports how the execution ended. */
  lemma InspectionsAreTrue(states: seq<State>, events: seq<Event>, n: nat, id: OperationId, serial: nat, status: Status)
    requires IsRun(states, events) && n < |states| && Inspection(id, serial, status) in states[n].messages && status != Running
    ensures IsOutcome(states[n], id, serial, status)
    ensures id in states[n].ledger && RanOnce(states[n], id) ==> states[n].ledger[id].status == status
  {
    TruthHolds(states, events, n);
    var s := states[n];
    assert MessageIsTrue(s, Inspection(id, serial, status));
    if id in s.ledger && RanOnce(s, id) {
      assert OperationIsReal(s, id, s.ledger[id]);
      assert s.ledger[id].serial == serial;
    }
  }

  // ------------------------------------------------------------------ within a day nothing is forgotten

  predicate Unforgotten(s: State, start: int) {
    && start <= s.now
    && (forall id | id in s.ledger && s.ledger[id].completedAt.Some? :: start <= s.ledger[id].completedAt.value)
    && (forall i | 0 <= i < |s.executions| :: s.executions[i].id in s.ledger)
    && (forall i, j | 0 <= i < j < |s.executions| :: s.executions[i].id != s.executions[j].id)
  }

  lemma NothingExpires(s: State, start: int)
    requires Unforgotten(s, start) && s.now - start <= RETENTION_MS
    ensures Retained(s.ledger, s.now) == s.ledger
  {
  }

  lemma StepKeepsUnforgotten(s: State, e: Event, s': State, start: int)
    requires Truthful(s) && Unforgotten(s, start) && s.now - start <= RETENTION_MS && Next(s, e) == Some(s')
    ensures Unforgotten(s', start)
  {
    NothingExpires(s, start);
    if e.Finish? {
      assert OperationIsReal(s, e.id, s.ledger[e.id]);
    }
  }

  lemma {:induction false} TimePasses(states: seq<State>, events: seq<Event>, i: nat, j: nat)
    requires IsRun(states, events) && i <= j < |states|
    ensures states[i].now <= states[j].now
    decreases j
  {
    if i < j {
      TimePasses(states, events, i, j - 1);
      assert Next(states[j - 1], events[j - 1]) == Some(states[j]);
    }
  }

  lemma {:induction false} UnforgottenHolds(states: seq<State>, events: seq<Event>, n: nat)
    requires IsRun(states, events) && n < |states| && states[n].now - states[0].now <= RETENTION_MS
    ensures Unforgotten(states[n], states[0].now)
    decreases n
  {
    if n > 0 {
      TimePasses(states, events, n - 1, n);
      UnforgottenHolds(states, events, n - 1);
      TruthHolds(states, events, n - 1);
      assert Next(states[n - 1], events[n - 1]) == Some(states[n]);
      StepKeepsUnforgotten(states[n - 1], events[n - 1], states[n], states[0].now);
    }
  }

  /** Over any run of at most a day each operation runs at most once, and every record is the ledger's state. */
  lemma OneDay(states: seq<State>, events: seq<Event>, n: nat, id: OperationId)
    requires IsRun(states, events) && n < |states| && states[n].now - states[0].now <= RETENTION_MS
    ensures RanOnce(states[n], id)
    ensures id in states[n].recorded ==> id in states[n].ledger && states[n].ledger[id].status == states[n].recorded[id].1
  {
    UnforgottenHolds(states, events, n);
    if id in states[n].recorded {
      RecordsEqualTheLedger(states, events, n, id);
      assert states[n].executions[states[n].recorded[id].0].id == id;
    }
  }
}
