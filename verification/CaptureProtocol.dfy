/**
  The capture of one backup record as a state machine: any number of capture attempts, the orphan
  reconciler, the deleter and the job layer act on a shared record, a ledger of obligations to clean
  up remote objects, and the remote store. Every database statement, remote call and transaction is
  one step; a call may take effect and lose its reply, and a process that crashes takes no more steps.
 */
module CaptureProtocol {
  import opened Wrappers

  /** Random identifiers, only ever compared. */
  type Token = nat

  /** The object an attempt uploads to: the path holds the attempt's token. */
  datatype ObjectKey = ObjectKey(attempt: Token)

  datatype Status = Queued | Running | Completed | Partial | Failed

  datatype Record = Record(
    status: Status, size: Option<nat>, checksum: Option<nat>, remoteKey: Option<ObjectKey>,
    attempt: Option<Token>, committed: Option<Token>, deleting: bool)

  /** The claim on a ledger row: the owner's, made with the row, or a cleaner's. */
  datatype Claim = Free | HeldByOwner(since: int) | HeldByCleaner(cleaner: Token, since: int)

  const CLAIM_STALE_MS := 5 * 60_000

  /** What an attempt is about to publish. */
  datatype Publication = Publication(
    status: Status, size: nat, checksum: nat, remoteKey: Option<ObjectKey>, pending: bool)

  /** Why an attempt gives up its object. */
  datatype Why = Ambiguous | Unverified | Refused | Nothing | Uncommitted

  datatype Phase =
    | Capturing
    | Uploading(size: nat, checksum: nat)
    | Putting(size: nat, checksum: nat)
    | Verifying(size: nat, checksum: nat)
    | Deleting(why: Why, p: Publication)
    | Clearing(why: Why, p: Publication)
    | Releasing(why: Why, p: Publication)
    | Recording(why: Why, p: Publication)
    | Publishing(p: Publication)
    | Reading(p: Publication)
    | MarkingFailed
    | Committed(p: Publication)
    | OutcomeUnknown(p: Publication)
    | GaveUp

  datatype CleanerPhase = Judging | Deferring | Erasing | Dropping | Freeing | Idle
  datatype Cleaner = Cleaner(key: ObjectKey, phase: CleanerPhase)

  datatype Commit = Commit(attempt: Token, p: Publication)

  datatype State = State(
    record: Option<Record>,
    ledger: map<ObjectKey, Claim>,
    objects: set<ObjectKey>,
    /** Upload requests that may still take effect. */
    flying: set<Token>,
    attempts: map<Token, Phase>,
    /** The attempts that still hold their job's lease. */
    leased: set<Token>,
    /** Publishing transactions that got no reply and may still commit. */
    late: map<Token, Publication>,
    cleaners: map<Token, Cleaner>,
    now: int,
    /** History: the attempts that issued a publishing transaction, and the commits in their order. */
    issued: set<Token>,
    commits: seq<Commit>)

  datatype PutResult = Stored | Failure | Refusal | NoLocator

  datatype Event =
    // a capture attempt
    | Begin(t: Token)
    | Captured(t: Token, size: nat, checksum: nat, hasTarget: bool)
    | CaptureFails(t: Token)
    | Upload(t: Token, result: PutResult)
    | Verify(t: Token, ok: bool)
    | Call(t: Token, effect: bool, reply: bool)
    // the network
    | Land(t: Token)
    | Vanish(t: Token)
    | LateCommit(t: Token)
    | Abort(t: Token)
    // the orphan reconciler
    | ClaimOrphan(cleaner: Token, key: ObjectKey)
    | Judge(cleaner: Token)
    | CleanerCall(cleaner: Token, effect: bool, reply: bool)
    // everything else
    | Tick(ms: nat)
    | LoseLease
    | FailLostJob
    | ClaimDeletion
    | EraseLocator
    | RemoveRecord

  function PartialOf(size: nat, checksum: nat): Publication {
    Publication(Partial, size, checksum, None, false)
  }

  function LocalOnly(size: nat, checksum: nat): Publication {
    Publication(Completed, size, checksum, None, false)
  }

  function Remote(size: nat, checksum: nat, t: Token): Publication {
    Publication(Completed, size, checksum, Some(ObjectKey(t)), true)
  }

  predicate Owns(record: Option<Record>, t: Token) {
    record.Some? && record.value.attempt == Some(t)
  }

  // ------------------------------------------------------------------ the attempt's transactions

  /** An attempt takes the record over, whatever its status, unless it is being deleted. */
  predicate CanBegin(record: Option<Record>) {
    record.Some? && !record.value.deleting
  }

  function BeginRecord(r: Record, t: Token): Record {
    r.(status := Running, attempt := Some(t))
  }

  /** The attempt owns the record, which is not being deleted, and holds its job's lease. */
  predicate MayCommit(s: State, t: Token) {
    Owns(s.record, t) && !s.record.value.deleting && t in s.leased
  }

  /** The publishing transaction's conditions: those, and the intent it clears. */
  predicate CanPublish(s: State, t: Token, p: Publication) {
    && MayCommit(s, t)
    && (p.remoteKey.Some? ==> p.remoteKey.value in s.ledger)
  }

  function PublishRecord(r: Record, t: Token, p: Publication): Record {
    r.(status := p.status, size := Some(p.size), checksum := Some(p.checksum), remoteKey := p.remoteKey, committed := Some(t))
  }

  function PublishState(s: State, t: Token, p: Publication): State
    requires CanPublish(s, t, p)
  {
    s.(record := Some(PublishRecord(s.record.value, t, p)),
       ledger := if p.remoteKey.Some? then s.ledger - {p.remoteKey.value} else s.ledger,
       commits := s.commits + [Commit(t, p)])
  }

  /** What reading the record back tells an attempt whose commit failed or got no reply. */
  predicate ReadsCommitted(record: Option<Record>, t: Token, p: Publication) {
    && record.Some?
    && record.value.committed == Some(t)
    && record.value.size == Some(p.size)
    && record.value.checksum == Some(p.checksum)
    && record.value.remoteKey == p.remoteKey
  }

  function FailOwned(record: Option<Record>, t: Token): Option<Record> {
    if Owns(record, t) then Some(record.value.(status := Failed)) else record
  }

  // ------------------------------------------------------------------ the attempt's calls

  function AfterRecording(why: Why, p: Publication, ok: bool): Phase {
    if why == Uncommitted || !ok then MarkingFailed else Publishing(p.(pending := true))
  }

  function AfterReleasing(why: Why, p: Publication, ok: bool): Phase {
    match why
    case Ambiguous => if ok then Recording(why, p) else Publishing(p)
    case Unverified => Recording(why, p)
    case Refused => Publishing(p)
    case Nothing => if ok then Publishing(p) else Publishing(p.(status := Partial))
    case Uncommitted => MarkingFailed
  }

  /** reply: the statement did not throw; cleared: it removed the ledger row. */
  function AfterClearing(why: Why, p: Publication, reply: bool, cleared: bool): Phase {
    match why
    case Ambiguous => if reply then Publishing(p) else Recording(why, p)
    case Unverified => if reply then Publishing(p) else Releasing(why, p)
    case _ => if reply && cleared then MarkingFailed else Recording(why, p)
  }

  function AfterDeleting(why: Why, p: Publication, reply: bool): Phase {
    if reply then Clearing(why, p) else if why == Uncommitted then Recording(why, p) else Releasing(why, p)
  }

  function AfterReading(record: Option<Record>, t: Token, p: Publication, reply: bool): Phase {
    if !reply then OutcomeUnknown(p)
    else if ReadsCommitted(record, t, p) then Committed(p)
    else if p.pending then Deleting(Uncommitted, p)
    else MarkingFailed
  }

  function SetPhase(s: State, t: Token, phase: Phase): State {
    s.(attempts := s.attempts[t := phase])
  }

  function ReleaseRow(ledger: map<ObjectKey, Claim>, key: ObjectKey): map<ObjectKey, Claim> {
    if key in ledger then ledger[key := Free] else ledger
  }

  /** A request whose call failed or timed out may still take effect; any other answer ends it. */
  function NextUpload(s: State, t: Token, result: PutResult): Option<State>
    requires t in s.attempts && s.attempts[t].Putting?
  {
    var size, checksum := s.attempts[t].size, s.attempts[t].checksum;
    var s' := if result.Failure? then s else s.(flying := s.flying - {t});
    match result
    case Stored => if ObjectKey(t) in s.objects then Some(SetPhase(s', t, Verifying(size, checksum))) else None
    case Failure => Some(SetPhase(s', t, Deleting(Ambiguous, PartialOf(size, checksum))))
    case Refusal => Some(SetPhase(s', t, Releasing(Refused, PartialOf(size, checksum))))
    case NoLocator => Some(SetPhase(s', t, Releasing(Nothing, LocalOnly(size, checksum))))
  }

  /** The call that attempt t is at; a successful reply means that the call took effect. */
  function NextCall(s: State, t: Token, effect: bool, reply: bool): Option<State>
    requires t in s.attempts
  {
    var key := ObjectKey(t);
    if reply && !effect then None
    else
      match s.attempts[t]
      case Uploading(size, checksum) =>
        var s' := if effect then s.(ledger := s.ledger[key := HeldByOwner(s.now)]) else s;
        if reply then Some(SetPhase(s'.(flying := s.flying + {t}), t, Putting(size, checksum)))
        else Some(SetPhase(s', t, Publishing(PartialOf(size, checksum))))
      case Deleting(why, p) =>
        var s' := if effect then s.(objects := s.objects - {key}) else s;
        Some(SetPhase(s', t, AfterDeleting(why, p, reply)))
      case Clearing(why, p) =>
        var s' := if effect then s.(ledger := s.ledger - {key}) else s;
        Some(SetPhase(s', t, AfterClearing(why, p, reply, key in s.ledger)))
      case Releasing(why, p) =>
        var s' := if effect then s.(ledger := ReleaseRow(s.ledger, key)) else s;
        Some(SetPhase(s', t, AfterReleasing(why, p, reply && key in s.ledger)))
      case Recording(why, p) =>
        var s' := if effect then s.(ledger := s.ledger[key := Free]) else s;
        Some(SetPhase(s', t, AfterRecording(why, p, reply)))
      case Publishing(p) =>
        if effect && !CanPublish(s, t, p) then None
        else
          var s' := if effect then PublishState(s, t, p) else s.(late := s.late[t := p]);
          Some(SetPhase(s'.(issued := s.issued + {t}), t, if reply then Committed(p) else Reading(p)))
      case Reading(p) => Some(SetPhase(s, t, AfterReading(s.record, t, p, reply)))
      case MarkingFailed =>
        var s' := if effect then s.(record := FailOwned(s.record, t)) else s;
        Some(SetPhase(s', t, GaveUp))
      case _ => None
  }

  // ------------------------------------------------------------------ the orphan reconciler

  datatype Disposition = Active | Published | Abandoned

  function DispositionOf(record: Option<Record>, key: ObjectKey): Disposition {
    if record.None? then Abandoned
    else if record.value.remoteKey == Some(key) && record.value.committed == Some(key.attempt) then Published
    else if record.value.status == Running && record.value.attempt == Some(key.attempt) && !record.value.deleting then Active
    else Abandoned
  }

  predicate CanClaim(claim: Claim, now: int) {
    claim.Free? || claim.since < now - CLAIM_STALE_MS
  }

  predicate Holds(s: State, cleaner: Token, key: ObjectKey) {
    key in s.ledger && s.ledger[key].HeldByCleaner? && s.ledger[key].cleaner == cleaner
  }

  function SetCleaner(s: State, c: Token, phase: CleanerPhase): State
    requires c in s.cleaners
  {
    s.(cleaners := s.cleaners[c := s.cleaners[c].(phase := phase)])
  }

  function NextCleanerCall(s: State, c: Token, effect: bool, reply: bool): Option<State>
    requires c in s.cleaners
  {
    var key := s.cleaners[c].key;
    var held := Holds(s, c, key);
    if reply && !effect then None
    else
      match s.cleaners[c].phase
      case Deferring =>
        var s' := if effect && held then s.(ledger := s.ledger[key := HeldByCleaner(c, s.now)]) else s;
        Some(SetCleaner(s', c, if reply && held then Idle else Freeing))
      case Erasing =>
        var s' := if effect then s.(objects := s.objects - {key}) else s;
        Some(SetCleaner(s', c, if reply then Dropping else Freeing))
      case Dropping =>
        var s' := if effect && held then s.(ledger := s.ledger - {key}) else s;
        Some(SetCleaner(s', c, if reply && held then Idle else Freeing))
      case Freeing =>
        var s' := if effect && held then s.(ledger := s.ledger[key := Free]) else s;
        Some(SetCleaner(s', c, Idle))
      case _ => None
  }

  function NextJudge(s: State, c: Token): Option<State>
    requires c in s.cleaners
  {
    if s.cleaners[c].phase != Judging then None
    else
      match DispositionOf(s.record, s.cleaners[c].key)
      case Active => Some(SetCleaner(s, c, Deferring))
      case Published => Some(SetCleaner(s, c, Dropping))
      case Abandoned => Some(SetCleaner(s, c, Erasing))
  }

  // ------------------------------------------------------------------ all steps

  function NextOther(s: State, e: Event): Option<State> {
    match e
    case Land(t) => if t in s.flying then Some(s.(objects := s.objects + {ObjectKey(t)})) else None
    case Vanish(t) => if t in s.flying then Some(s.(flying := s.flying - {t})) else None
    case LateCommit(t) =>
      if t in s.late && CanPublish(s, t, s.late[t]) then Some(PublishState(s, t, s.late[t]).(late := s.late - {t})) else None
    case Abort(t) => if t in s.late then Some(s.(late := s.late - {t})) else None
    case Tick(ms) => Some(s.(now := s.now + ms))
    case LoseLease => Some(s.(leased := {}))
    case FailLostJob =>
      // The job ends in the same transaction, and with it its lease.
      if s.record.Some? && (s.record.value.status == Queued || s.record.value.status == Running)
      then Some(s.(record := Some(s.record.value.(status := Failed)), leased := {})) else None
    case ClaimDeletion =>
      if s.record.Some? && !s.record.value.deleting && s.record.value.status != Queued && s.record.value.status != Running
      then Some(s.(record := Some(s.record.value.(deleting := true)))) else None
    case EraseLocator =>
      if s.record.Some? && s.record.value.deleting && s.record.value.remoteKey.Some?
      then Some(s.(objects := s.objects - {s.record.value.remoteKey.value})) else None
    case RemoveRecord =>
      if s.record.Some? && s.record.value.deleting
         && (s.record.value.remoteKey.Some? ==> s.record.value.remoteKey.value !in s.objects)
      then Some(s.(record := None)) else None
    case _ => None
  }

  function Next(s: State, e: Event): Option<State> {
    match e
    case Begin(t) =>
      if t !in s.attempts && CanBegin(s.record)
      then Some(SetPhase(s.(record := Some(BeginRecord(s.record.value, t)), leased := s.leased + {t}), t, Capturing)) else None
    case Captured(t, size, checksum, hasTarget) =>
      if t in s.attempts && s.attempts[t].Capturing?
      then Some(SetPhase(s, t, if hasTarget then Uploading(size, checksum) else Publishing(LocalOnly(size, checksum)))) else None
    case CaptureFails(t) =>
      if t in s.attempts && s.attempts[t].Capturing? then Some(SetPhase(s, t, MarkingFailed)) else None
    case Upload(t, result) =>
      if t in s.attempts && s.attempts[t].Putting? then NextUpload(s, t, result) else None
    case Verify(t, ok) =>
      if t in s.attempts && s.attempts[t].Verifying? && (ok ==> ObjectKey(t) in s.objects)
      then
        var size, checksum := s.attempts[t].size, s.attempts[t].checksum;
        Some(SetPhase(s, t, if ok then Publishing(Remote(size, checksum, t)) else Deleting(Unverified, PartialOf(size, checksum))))
      else None
    case Call(t, effect, reply) => if t in s.attempts then NextCall(s, t, effect, reply) else None
    case ClaimOrphan(c, key) =>
      if c !in s.cleaners && key in s.ledger && CanClaim(s.ledger[key], s.now)
      then Some(s.(ledger := s.ledger[key := HeldByCleaner(c, s.now)], cleaners := s.cleaners[c := Cleaner(key, Judging)]))
      else None
    case Judge(c) => if c in s.cleaners then NextJudge(s, c) else None
    case CleanerCall(c, effect, reply) => if c in s.cleaners then NextCleanerCall(s, c, effect, reply) else None
    case _ => NextOther(s, e)
  }

  /** A record just created, before any capture. */
  predicate Initial(s: State) {
    && s.record.Some? && s.record.value.size.None? && s.record.value.checksum.None? && s.record.value.remoteKey.None?
    && s.record.value.attempt.None? && s.record.value.committed.None? && !s.record.value.deleting
    && s.ledger == map[] && s.objects == {} && s.flying == {} && s.attempts == map[] && s.cleaners == map[]
    && s.leased == {} && s.late == map[]
    && s.issued == {} && s.commits == []
  }

  /** The states a run passes through; states[i] --events[i]--> states[i + 1]. */
  predicate IsRun(states: seq<State>, events: seq<Event>) {
    && |states| == |events| + 1
    && Initial(states[0])
    && forall i {:trigger events[i]} | 0 <= i < |events| :: Next(states[i], events[i]) == Some(states[i + 1])
  }
}
