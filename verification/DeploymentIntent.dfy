/** Materializing a Compose deployment from its durable intent, once however often it is replayed. */
module DeploymentIntent {
  import opened Wrappers

  type Id = nat
  type Ciphertext = string

  const MAX_VERSION_NUMBER := 0x7fff_ffff

  datatype Details = Details(
    kind: string, repositoryUrl: Option<string>, branch: Option<string>, workingDir: Option<string>,
    composePath: Option<string>, currentCommitSha: Option<string>, latestCommitSha: Option<string>)

  datatype Source = Source(
    details: Details, environment: Option<string>, binding: Option<string>, deploymentSourceId: Option<Id>)

  datatype Identity = Identity(jobId: Id, attemptCount: nat, hostId: Id)

  datatype Intent = Intent(
    identity: Identity, projectName: string, name: string, composeYaml: string, env: string, source: Source,
    versionSource: string, note: Option<string>, createdBy: Option<Id>, cloneJob: Option<Id>,
    candidateStackId: Id, candidateVersionId: Id)

  /** A stack is found by its host and project name, which the table keeps unique. */
  datatype Site = Site(hostId: Id, projectName: string)

  datatype Stack = Stack(
    id: Id, name: string, composeYaml: string, env: string, secret: Option<Ciphertext>, binding: Option<string>,
    details: Details, deploymentSourceId: Option<Id>, deployed: bool, currentVersion: Option<Id>)

  datatype Version = Version(
    id: Id, stackId: Id, number: nat, composeYaml: string, env: string, source: string, note: Option<string>,
    createdBy: Option<Id>)

  datatype Tables = Tables(stacks: map<Site, Stack>, versions: seq<Version>)

  /** Name-based identifiers, the keyed binding of an environment, and randomized encryption. */
  datatype Secrets = Secrets(
    stackIdOf: (Id, nat) -> Id, versionIdOf: (Id, nat) -> Id, bind: string -> string,
    encrypt: (string, nat) -> Ciphertext, decrypt: Ciphertext -> Option<string>)
  {
    ghost predicate Lawful() {
      forall text, nonce :: decrypt(encrypt(text, nonce)) == Some(text)
    }
  }

  /** The law can be met, by no encryption at all. */
  lemma LawfulSecretsExist(stackIdOf: (Id, nat) -> Id, versionIdOf: (Id, nat) -> Id, bind: string -> string)
    ensures Secrets(stackIdOf, versionIdOf, bind, (text: string, nonce: nat) => text, (c: Ciphertext) => Some(c)).Lawful()
  {
  }

  datatype Error = InvalidIntent | RemoteOutcomeUnknown | NoVersionNumber | IdTaken

  datatype Finalized = Finalized(stackId: Id, versionId: Id, number: nat, replayed: bool, cloneJob: Option<Id>)

  // ------------------------------------------------------------------ the pieces of a finalization

  predicate ValidIntent(c: Secrets, i: Intent) {
    && i.candidateStackId == c.stackIdOf(i.identity.jobId, i.identity.attemptCount)
    && i.candidateVersionId == c.versionIdOf(i.identity.jobId, i.identity.attemptCount)
    && i.source.binding == (if i.source.environment.None? then None else Some(c.bind(i.source.environment.value)))
  }

  function SiteOf(i: Intent): Site {
    Site(i.identity.hostId, i.projectName)
  }

  /** The stored environment: kept when it is the same environment, refused when its binding lies. */
  function SourceEnvironmentCiphertext(c: Secrets, i: Intent, existing: Option<Stack>, nonce: nat): Result<Option<Ciphertext>, Error> {
    if i.source.environment.None? then Ok(None)
    else if existing.Some? && existing.value.secret.Some? && existing.value.binding == i.source.binding then
      if c.decrypt(existing.value.secret.value) == i.source.environment then Ok(existing.value.secret) else Err(InvalidIntent)
    else Ok(Some(c.encrypt(i.source.environment.value, nonce)))
  }

  function NewStack(i: Intent, secret: Option<Ciphertext>): Stack {
    Stack(i.candidateStackId, i.name, i.composeYaml, i.env, secret, i.source.binding, i.source.details,
          i.source.deploymentSourceId, true, None)
  }

  function UpdatedStack(s: Stack, i: Intent, secret: Option<Ciphertext>): Stack {
    s.(name := i.name, composeYaml := i.composeYaml, env := i.env, secret := secret, binding := i.source.binding,
       details := i.source.details, deployed := true,
       deploymentSourceId := if i.source.deploymentSourceId.Some? then i.source.deploymentSourceId else s.deploymentSourceId)
  }

  predicate IdIsTaken(stacks: map<Site, Stack>, id: Id) {
    exists site | site in stacks :: stacks[site].id == id
  }

  function FindVersion(versions: seq<Version>, id: Id): (r: Option<Version>)
    ensures r.Some? ==> r.value in versions && r.value.id == id
    ensures r.None? ==> forall v | v in versions :: v.id != id
  {
    if versions == [] then None
    else if versions[0].id == id then Some(versions[0])
    else FindVersion(versions[1..], id)
  }

  /** The largest version number of a stack, 0 when it has none. */
  function MaxNumber(versions: seq<Version>, stackId: Id): (n: nat)
    ensures forall v | v in versions && v.stackId == stackId :: v.number <= n
    ensures n == 0 || exists v | v in versions :: v.stackId == stackId && v.number == n
  {
    if versions == [] then 0
    else
      var rest := MaxNumber(versions[1..], stackId);
      var v := versions[0];
      if v.stackId == stackId && v.number > rest then v.number else rest
  }

  predicate Matches(v: Version, stackId: Id, i: Intent) {
    && v.id == i.candidateVersionId && v.stackId == stackId && v.number > 0
    && v.composeYaml == i.composeYaml && v.env == i.env && v.source == i.versionSource && v.note == i.note
    && v.createdBy == i.createdBy
  }

  function NewVersion(i: Intent, stackId: Id, number: nat): Version {
    Version(i.candidateVersionId, stackId, number, i.composeYaml, i.env, i.versionSource, i.note, i.createdBy)
  }

  /** The number an intent's version has or gets, and the version rows afterwards. */
  function Materialize(versions: seq<Version>, stackId: Id, i: Intent): Result<(nat, seq<Version>), Error> {
    match FindVersion(versions, i.candidateVersionId)
    case Some(v) => if Matches(v, stackId, i) then Ok((v.number, versions)) else Err(RemoteOutcomeUnknown)
    case None =>
      var number := MaxNumber(versions, stackId) + 1;
      if number > MAX_VERSION_NUMBER then Err(NoVersionNumber)
      else Ok((number, versions + [NewVersion(i, stackId, number)]))
  }

  /**
    One finalizing transaction. seen is false when the stack's row was not there at the first read;
    another transaction may have inserted it by the time of the upsert.
   */
  function Finalize(c: Secrets, db: Tables, i: Intent, seen: bool, nonce: nat): Result<(Tables, Finalized), Error> {
    var site := SiteOf(i);
    var existing := if seen && site in db.stacks then Some(db.stacks[site]) else None;
    if !ValidIntent(c, i) then Err(InvalidIntent)
    else
      match SourceEnvironmentCiphertext(c, i, existing, nonce)
      case Err(e) => Err(e)
      case Ok(secret) =>
        if site !in db.stacks && IdIsTaken(db.stacks, i.candidateStackId) then Err(IdTaken)
        else
          var stack := if site in db.stacks then UpdatedStack(db.stacks[site], i, secret) else NewStack(i, secret);
          if stack.id != (if existing.Some? then existing.value.id else i.candidateStackId) then Err(RemoteOutcomeUnknown)
          else
            match Materialize(db.versions, stack.id, i)
            case Err(e) => Err(e)
            case Ok((number, versions)) =>
              var current := stack.(currentVersion := Some(i.candidateVersionId));
              Ok((Tables(db.stacks[site := current], versions),
                  Finalized(stack.id, i.candidateVersionId, number, FindVersion(db.versions, i.candidateVersionId).Some?, i.cloneJob)))
  }

  // ------------------------------------------------------------------ the tables' invariant

  predicate VersionsAreDistinct(versions: seq<Version>) {
    && (forall p, q | 0 <= p < q < |versions| :: versions[p].id != versions[q].id)
    && (forall p, q | 0 <= p < q < |versions| && versions[p].stackId == versions[q].stackId ::
          versions[p].number < versions[q].number)
    && (forall p | 0 <= p < |versions| :: versions[p].number > 0)
  }

  predicate StackIdsAreDistinct(stacks: map<Site, Stack>) {
    forall a, b | a in stacks && b in stacks && a != b :: stacks[a].id != stacks[b].id
  }

  /** The stack runs exactly the version that its current version names. */
  predicate RunsItsVersion(stack: Stack, versions: seq<Version>) {
    stack.currentVersion.Some? ==>
      exists v | v in versions ::
        v.id == stack.currentVersion.value && v.stackId == stack.id && v.composeYaml == stack.composeYaml && v.env == stack.env
  }

  predicate StacksRunTheirVersions(db: Tables) {
    forall site | site in db.stacks :: RunsItsVersion(db.stacks[site], db.versions)
  }

  predicate Valid(db: Tables) {
    VersionsAreDistinct(db.versions) && StackIdsAreDistinct(db.stacks) && StacksRunTheirVersions(db)
  }

  lemma AppendKeepsDistinct(versions: seq<Version>, v: Version)
    requires VersionsAreDistinct(versions) && v.number > 0
    requires forall w | w in versions :: w.id != v.id && (w.stackId == v.stackId ==> w.number < v.number)
    ensures VersionsAreDistinct(versions + [v])
  {
    forall p | 0 <= p < |versions| ensures versions[p] in versions {}
  }

  lemma MaterializeKeepsDistinct(versions: seq<Version>, stackId: Id, i: Intent)
    requires VersionsAreDistinct(versions) && Materialize(versions, stackId, i).Ok?
    ensures VersionsAreDistinct(Materialize(versions, stackId, i).value.1)
    ensures versions <= Materialize(versions, stackId, i).value.1
    ensures NewVersion(i, stackId, Materialize(versions, stackId, i).value.0) in Materialize(versions, stackId, i).value.1
  {
    match FindVersion(versions, i.candidateVersionId) {
      case None =>
        AppendKeepsDistinct(versions, NewVersion(i, stackId, MaxNumber(versions, stackId) + 1));
      case Some(v) =>
        assert v == NewVersion(i, stackId, v.number);
    }
  }

  /**
    A finalization keeps version numbers distinct within each stack, stack identifiers distinct, and
    every stack's YAML and environment those of its current version, which for the finalized stack is
    the intent's own version.
   */
  lemma FinalizeKeepsValid(c: Secrets, db: Tables, i: Intent, seen: bool, nonce: nat, db': Tables, r: Finalized)
    requires Valid(db) && Finalize(c, db, i, seen, nonce) == Ok((db', r))
    ensures Valid(db') && db.versions <= db'.versions
    ensures SiteOf(i) in db'.stacks && db'.stacks[SiteOf(i)].currentVersion == Some(i.candidateVersionId)
    ensures db'.stacks[SiteOf(i)].composeYaml == i.composeYaml && db'.stacks[SiteOf(i)].env == i.env
  {
    var site := SiteOf(i);
    var stack := db'.stacks[site];
    MaterializeKeepsDistinct(db.versions, stack.id, i);
    assert NewVersion(i, stack.id, r.number) in db'.versions;
    forall other | other in db'.stacks && other != site
      ensures RunsItsVersion(db'.stacks[other], db'.versions) && db'.stacks[other].id != stack.id
    {
      assert db'.stacks[other] == db.stacks[other];
      assert RunsItsVersion(db.stacks[other], db.versions);
      assert forall v | v in db.versions :: v in db'.versions;
    }
  }

  /** A new version is numbered one above all earlier versions of its stack, and from one on. */
  lemma NewNumberIsNext(c: Secrets, db: Tables, i: Intent, seen: bool, nonce: nat, db': Tables, r: Finalized)
    requires Finalize(c, db, i, seen, nonce) == Ok((db', r)) && !r.replayed
    ensures db'.versions == db.versions + [NewVersion(i, r.stackId, r.number)]
    ensures forall v | v in db.versions && v.stackId == r.stackId :: v.number < r.number
    ensures r.number == 1 || exists v | v in db.versions :: v.stackId == r.stackId && v.number == r.number - 1
  {
  }

  /** With the version already there, finalization succeeds exactly when the row is the intent's own. */
  lemma ReplayFailsClosed(c: Secrets, db: Tables, i: Intent, seen: bool, nonce: nat, v: Version)
    requires FindVersion(db.versions, i.candidateVersionId) == Some(v) && ValidIntent(c, i)
    requires SiteOf(i) in db.stacks && seen
    requires SourceEnvironmentCiphertext(c, i, Some(db.stacks[SiteOf(i)]), nonce).Ok?
    ensures Finalize(c, db, i, seen, nonce).Ok? <==> Matches(v, db.stacks[SiteOf(i)].id, i)
    ensures Finalize(c, db, i, seen, nonce).Err? ==> Finalize(c, db, i, seen, nonce).error == RemoteOutcomeUnknown
    ensures Finalize(c, db, i, seen, nonce).Ok? ==>
              Finalize(c, db, i, seen, nonce).value.0.versions == db.versions
              && Finalize(c, db, i, seen, nonce).value.1.number == v.number
  {
  }

  lemma {:induction false} FindInPrefix(versions: seq<Version>, more: seq<Version>, id: Id)
    requires FindVersion(versions, id).Some?
    ensures FindVersion(versions + more, id) == FindVersion(versions, id)
    decreases |versions|
  {
    if versions[0].id != id {
      assert (versions + more)[1..] == versions[1..] + more;
      FindInPrefix(versions[1..], more, id);
    } else {
      assert (versions + more)[0] == versions[0];
    }
  }

  lemma {:induction false} FindLast(versions: seq<Version>, v: Version)
    requires FindVersion(versions, v.id).None?
    ensures FindVersion(versions + [v], v.id) == Some(v)
    decreases |versions|
  {
    if versions != [] {
      assert (versions + [v])[1..] == versions[1..] + [v];
      assert versions[0] in versions;
      FindLast(versions[1..], v);
    }
  }

  lemma FinalizedVersionIsFound(c: Secrets, db: Tables, i: Intent, seen: bool, nonce: nat, db': Tables, r: Finalized)
    requires Finalize(c, db, i, seen, nonce) == Ok((db', r))
    ensures FindVersion(db'.versions, i.candidateVersionId) == Some(NewVersion(i, r.stackId, r.number)) && r.number > 0
  {
    match FindVersion(db.versions, i.candidateVersionId) {
      case Some(v) =>
        assert v == NewVersion(i, r.stackId, v.number);
      case None =>
        FindLast(db.versions, NewVersion(i, r.stackId, r.number));
    }
  }

  /** Finalizing twice is finalizing once: the second time changes nothing and reports the same number. */
  lemma FinalizeTwice(c: Secrets, db: Tables, i: Intent, seen: bool, nonce: nat, db': Tables, r: Finalized, again: nat)
    requires c.Lawful() && Finalize(c, db, i, seen, nonce) == Ok((db', r))
    ensures Finalize(c, db', i, true, again) == Ok((db', r.(replayed := true)))
  {
    FinalizedVersionIsFound(c, db, i, seen, nonce, db', r);
    var site := SiteOf(i);
    var stack := db'.stacks[site];
    if i.source.environment.Some? {
      assert stack.secret.Some? && c.decrypt(stack.secret.value) == i.source.environment;
    }
    assert UpdatedStack(stack, i, stack.secret).(currentVersion := Some(i.candidateVersionId)) == stack;
    assert db'.stacks[site := stack] == db'.stacks;
  }

  // ------------------------------------------------------------------ runs of finalizations

  /** An attempted transaction; a refused one leaves the tables as they were. */
  datatype Attempt = Attempt(intent: Intent, seen: bool, nonce: nat)

  function After(c: Secrets, db: Tables, a: Attempt): Tables {
    match Finalize(c, db, a.intent, a.seen, a.nonce) case Ok((db', _)) => db' case Err(_) => db
  }

  function AfterAll(c: Secrets, db: Tables, attempts: seq<Attempt>): Tables
    decreases |attempts|
  {
    if attempts == [] then db else AfterAll(c, After(c, db, attempts[0]), attempts[1..])
  }

  /** Over any run, the tables stay valid and no version row is ever changed or removed. */
  lemma {:induction false} RunKeepsValid(c: Secrets, db: Tables, attempts: seq<Attempt>)
    requires Valid(db)
    ensures Valid(AfterAll(c, db, attempts)) && db.versions <= AfterAll(c, db, attempts).versions
    decreases |attempts|
  {
    if attempts != [] {
      var a := attempts[0];
      match Finalize(c, db, a.intent, a.seen, a.nonce) {
        case Ok((db', r)) => FinalizeKeepsValid(c, db, a.intent, a.seen, a.nonce, db', r);
        case Err(_) =>
      }
      RunKeepsValid(c, After(c, db, a), attempts[1..]);
    }
  }

  lemma KnownVersionIsReused(c: Secrets, db: Tables, i: Intent, seen: bool, nonce: nat, db': Tables, r: Finalized, v: Version)
    requires Finalize(c, db, i, seen, nonce) == Ok((db', r)) && FindVersion(db.versions, i.candidateVersionId) == Some(v)
    ensures db'.versions == db.versions && r.number == v.number && r.stackId == v.stackId && r.replayed
  {
  }

  /** A version that is there is found unchanged after any run. */
  lemma VersionStays(c: Secrets, db: Tables, attempts: seq<Attempt>, id: Id)
    requires Valid(db) && FindVersion(db.versions, id).Some?
    ensures FindVersion(AfterAll(c, db, attempts).versions, id) == FindVersion(db.versions, id)
  {
    RunKeepsValid(c, db, attempts);
    var versions := AfterAll(c, db, attempts).versions;
    assert versions == db.versions + versions[|db.versions|..];
    FindInPrefix(db.versions, versions[|db.versions|..], id);
  }

  /**
    A replay after any run of other finalizations and replays adds no version and returns the number
    that the first finalization allocated, or fails.
   */
  lemma ReplayAfterAnyRun(
    c: Secrets, db: Tables, first: Attempt, db': Tables, r: Finalized, attempts: seq<Attempt>,
    again: Attempt, last: Tables, replay: Finalized)
    requires Valid(db) && Finalize(c, db, first.intent, first.seen, first.nonce) == Ok((db', r))
    requires again.intent == first.intent
    requires Finalize(c, AfterAll(c, db', attempts), again.intent, again.seen, again.nonce) == Ok((last, replay))
    ensures last.versions == AfterAll(c, db', attempts).versions
    ensures replay.number == r.number && replay.stackId == r.stackId && replay.replayed
  {
    var i := first.intent;
    FinalizeKeepsValid(c, db, i, first.seen, first.nonce, db', r);
    FinalizedVersionIsFound(c, db, i, first.seen, first.nonce, db', r);
    VersionStays(c, db', attempts, i.candidateVersionId);
    KnownVersionIsReused(c, AfterAll(c, db', attempts), i, again.seen, again.nonce, last, replay, NewVersion(i, r.stackId, r.number));
  }

  // ------------------------------------------------------------------ the durable intent on its job

  const INTENT_KEY := "composeStackDeploymentIntent"
  const MAX_ENCRYPTED_INTENT_BYTES := 4 * 1024 * 1024

  /** A job's result column; only an object can take the intent. */
  datatype JobResult = NoResult | Object(fields: map<string, string>) | OtherResult
  datatype Job = Job(identity: Identity, running: bool, result: JobResult)

  /** Authenticated encryption of an intent's JSON text, and reading it back through the schema. */
  datatype Sealing = Sealing(seal: (Intent, nat) -> string, unseal: string -> Option<Intent>)

  function FieldsOf(result: JobResult): map<string, string> {
    if result.Object? then result.fields else map[]
  }

  /** The fenced update: only the running attempt that the intent names can store it. */
  function Persist(k: Sealing, job: Job, i: Intent, nonce: nat): Option<Job> {
    if job.identity == i.identity && job.running && !job.result.OtherResult?
    then Some(job.(result := Object(FieldsOf(job.result)[INTENT_KEY := k.seal(i, nonce)])))
    else None
  }

  function Parse(c: Secrets, k: Sealing, result: JobResult, expected: Identity): Option<Intent> {
    if !result.Object? || INTENT_KEY !in result.fields then None
    else
      var text := result.fields[INTENT_KEY];
      if |text| == 0 || |text| > MAX_ENCRYPTED_INTENT_BYTES then None
      else
        match k.unseal(text)
        case None => None
        case Some(i) => if ValidIntent(c, i) && i.identity == expected then Some(i) else None
  }

  function Discard(job: Job, expected: Identity): Option<Job> {
    if job.identity == expected && !job.result.OtherResult?
    then Some(if job.result.Object? then job.(result := Object(job.result.fields - {INTENT_KEY})) else job)
    else None
  }

  /**
    A stored intent is read back as itself exactly by its own job, attempt and host, and exactly
    when its ciphertext is not longer than the reader accepts, which the writer does not check.
   */
  lemma StoredIntentIsReadBack(c: Secrets, k: Sealing, job: Job, i: Intent, nonce: nat, expected: Identity, job': Job)
    requires k.unseal(k.seal(i, nonce)) == Some(i)
    requires ValidIntent(c, i) && Persist(k, job, i, nonce) == Some(job')
    ensures Parse(c, k, job'.result, expected) == Some(i) <==>
            expected == i.identity && 0 < |k.seal(i, nonce)| <= MAX_ENCRYPTED_INTENT_BYTES
    ensures Parse(c, k, job'.result, expected).Some? ==> Parse(c, k, job'.result, expected) == Some(i)
  {
  }

  /** Discarding takes away the intent and nothing else of the job's result. */
  lemma DiscardUndoesPersist(k: Sealing, job: Job, i: Intent, nonce: nat, job': Job)
    requires Persist(k, job, i, nonce) == Some(job')
    ensures Discard(job', i.identity) == Some(job.(result := Object(FieldsOf(job.result) - {INTENT_KEY})))
  {
    assert FieldsOf(job.result)[INTENT_KEY := k.seal(i, nonce)] - {INTENT_KEY} == FieldsOf(job.result) - {INTENT_KEY};
  }

  // ------------------------------------------------------------------ the transaction, statement by statement

  class StackDatabase {
    var stacks: map<Site, Stack>
    var versions: seq<Version>

    constructor (db: Tables)
      ensures stacks == db.stacks && versions == db.versions
    {
      stacks, versions := db.stacks, db.versions;
    }

    method UpsertStack(i: Intent, secret: Option<Ciphertext>) returns (id: Option<Id>)
      modifies this`stacks
      ensures id.None? <==> SiteOf(i) !in old(stacks) && IdIsTaken(old(stacks), i.candidateStackId)
      ensures id.None? ==> stacks == old(stacks)
      ensures id.Some? ==>
                var stack := if SiteOf(i) in old(stacks) then UpdatedStack(old(stacks)[SiteOf(i)], i, secret) else NewStack(i, secret);
                stacks == old(stacks)[SiteOf(i) := stack] && id == Some(stack.id)
    {
      var site := SiteOf(i);
      if site !in stacks && IdIsTaken(stacks, i.candidateStackId) {
        return None;
      }
      var stack := if site in stacks then UpdatedStack(stacks[site], i, secret) else NewStack(i, secret);
      stacks := stacks[site := stack];
      return Some(stack.id);
    }

    method PersistVersion(i: Intent, stackId: Id) returns (number: Result<nat, Error>, replayed: bool)
      modifies this`versions
      ensures match Materialize(old(versions), stackId, i)
              case Ok((n, rows)) => number == Ok(n) && versions == rows
              case Err(e) => number == Err(e) && versions == old(versions)
      ensures replayed <==> FindVersion(old(versions), i.candidateVersionId).Some?
    {
      var found := FindVersion(versions, i.candidateVersionId);
      if found.Some? {
        return if Matches(found.value, stackId, i) then Ok(found.value.number) else Err(RemoteOutcomeUnknown), true;
      }
      var next := MaxNumber(versions, stackId) + 1;
      if next > MAX_VERSION_NUMBER {
        return Err(NoVersionNumber), false;
      }
      versions := versions + [NewVersion(i, stackId, next)];
      return Ok(next), false;
    }

    method Publish(site: Site, versionId: Id)
      requires site in stacks
      modifies this`stacks
      ensures stacks == old(stacks)[site := old(stacks)[site].(currentVersion := Some(versionId))]
    {
      stacks := stacks[site := stacks[site].(currentVersion := Some(versionId))];
    }

    /** All or nothing: any error rolls the caller's transaction back. */
    method FinalizeIntent(c: Secrets, i: Intent, seen: bool, nonce: nat) returns (r: Result<Finalized, Error>)
      modifies this
      ensures match Finalize(c, Tables(old(stacks), old(versions)), i, seen, nonce)
              case Ok((db, finalized)) => r == Ok(finalized) && stacks == db.stacks && versions == db.versions
              case Err(e) => r == Err(e) && stacks == old(stacks) && versions == old(versions)
    {
      var stacks0, versions0 := stacks, versions;
      var site := SiteOf(i);
      if !ValidIntent(c, i) {
        return Err(InvalidIntent);
      }
      var existing := if seen && site in stacks then Some(stacks[site]) else None;
      var secret := SourceEnvironmentCiphertext(c, i, existing, nonce);
      if secret.Err? {
        return Err(secret.error);
      }
      var stackId := UpsertStack(i, secret.value);
      if stackId.None? {
        return Err(IdTaken);
      }
      if stackId.value != (if existing.Some? then existing.value.id else i.candidateStackId) {
        stacks := stacks0;
        return Err(RemoteOutcomeUnknown);
      }
      var number, replayed := PersistVersion(i, stackId.value);
      if number.Err? {
        stacks := stacks0;
        return Err(number.error);
      }
      Publish(site, i.candidateVersionId);
      assert stacks0[site := stacks[site]] == stacks;
      return Ok(Finalized(stackId.value, i.candidateVersionId, number.value, replayed, i.cloneJob));
    }
  }
}
