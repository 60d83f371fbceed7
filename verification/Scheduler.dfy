/**
  The optimistic scheduler: any number of workers prepare backups from snapshots of due schedules and
  enqueue them in transactions that check the row version, while schedules are edited and deleted.
 */
module Scheduler {
  import opened Wrappers

  type ScheduleId = nat
  type Worker = nat

  const MIN_INTERVAL_MS := 300_000

  /** What a backup record is prepared from. */
  datatype Config = Config(hostId: nat, source: string, targetId: Option<nat>, encryption: string, retention: Option<nat>)

  /** A row and the version that every update of it replaces. */
  datatype Schedule = Schedule(version: nat, config: Config, enabled: bool, nextRunAt: int, intervalMs: int)

  datatype Snapshot = Snapshot(id: ScheduleId, row: Schedule)

  /** A backup put on the queue: by whom, what it was prepared from and the row it replaced. */
  datatype Enqueued = Enqueued(worker: Worker, id: ScheduleId, prepared: Config, locked: Schedule, at: int, nextRunAt: int)

  /** work: the due rows that a worker has read and not yet handled; tick: the version that the next update gets. */
  datatype State = State(rows: map<ScheduleId, Schedule>, work: map<Worker, seq<Snapshot>>, queue: seq<Enqueued>, tick: nat, now: int)

  datatype Event =
    | Query(w: Worker, ids: seq<ScheduleId>)
    | Enqueue(w: Worker)
    | Fail(w: Worker)
    | Finish(w: Worker)
    | Create(id: ScheduleId, config: Config, nextRunAt: int, intervalMs: int)
    | Edit(id: ScheduleId, config: Config, enabled: bool, nextRunAt: int, intervalMs: int)
    | RecordResult(id: ScheduleId)
    | Delete(id: ScheduleId)
    | Tick(ms: nat)

  predicate Due(row: Schedule, now: int) {
    row.enabled && row.nextRunAt <= now
  }

  /** The locked row is still there, still due, and is the one the backup was prepared from. */
  predicate CanEnqueue(s: State, snapshot: Snapshot) {
    && snapshot.id in s.rows
    && Due(s.rows[snapshot.id], s.now)
    && s.rows[snapshot.id].version == snapshot.row.version
  }

  function Update(s: State, id: ScheduleId, row: Schedule): State {
    s.(rows := s.rows[id := row.(version := s.tick)], tick := s.tick + 1)
  }

  /** The rows of one query: due at that moment, each once. */
  predicate AreDue(s: State, ids: seq<ScheduleId>) {
    && (forall k | 0 <= k < |ids| :: ids[k] in s.rows && Due(s.rows[ids[k]], s.now))
    && (forall j, k | 0 <= j < k < |ids| :: ids[j] != ids[k])
  }

  function SnapshotsOf(s: State, ids: seq<ScheduleId>): seq<Snapshot>
    requires AreDue(s, ids)
  {
    seq(|ids|, k requires 0 <= k < |ids| => Snapshot(ids[k], s.rows[ids[k]]))
  }

  predicate HasWork(s: State, w: Worker) {
    w in s.work && s.work[w] != []
  }

  /** The worker's next row is handled. */
  function Handled(s: State, w: Worker): State
    requires HasWork(s, w)
  {
    s.(work := s.work[w := s.work[w][1..]])
  }

  function EnqueueState(s: State, w: Worker, snapshot: Snapshot): State
    requires CanEnqueue(s, snapshot)
  {
    var locked := s.rows[snapshot.id];
    var next := s.now + locked.intervalMs;
    Update(s, snapshot.id, locked.(nextRunAt := next))
      .(queue := s.queue + [Enqueued(w, snapshot.id, snapshot.row.config, locked, s.now, next)])
  }

  function Next(s: State, e: Event): Option<State> {
    match e
    case Query(w, ids) =>
      if w !in s.work && AreDue(s, ids) then Some(s.(work := s.work[w := SnapshotsOf(s, ids)])) else None
    case Enqueue(w) =>
      if !HasWork(s, w) then None
      else
        var snapshot := s.work[w][0];
        Some(Handled(if CanEnqueue(s, snapshot) then EnqueueState(s, w, snapshot) else s, w))
    case Fail(w) => if HasWork(s, w) then Some(Handled(s, w)) else None
    case Finish(w) => if w in s.work && s.work[w] == [] then Some(s.(work := s.work - {w})) else None
    case Create(id, config, nextRunAt, intervalMs) =>
      if id !in s.rows && intervalMs >= MIN_INTERVAL_MS
      then Some(Update(s, id, Schedule(0, config, true, nextRunAt, intervalMs))) else None
    case Edit(id, config, enabled, nextRunAt, intervalMs) =>
      if id in s.rows && intervalMs >= MIN_INTERVAL_MS
      then Some(Update(s, id, Schedule(0, config, enabled, nextRunAt, intervalMs))) else None
    case RecordResult(id) => if id in s.rows then Some(Update(s, id, s.rows[id])) else None
    case Delete(id) => if id in s.rows then Some(s.(rows := s.rows - {id})) else None
    case Tick(ms) => Some(s.(now := s.now + ms))
  }

  predicate Initial(s: State) {
    s.rows == map[] && s.work == map[] && s.queue == []
  }

  predicate IsRun(states: seq<State>, events: seq<Event>) {
    && |states| == |events| + 1
    && Initial(states[0])
    && forall i {:trigger events[i]} | 0 <= i < |events| :: Next(states[i], events[i]) == Some(states[i + 1])
  }

  // ------------------------------------------------------------------ the invariant

  /** A version stands for one content of one row. */
  predicate SnapshotIsTrue(s: State, snapshot: Snapshot) {
    && snapshot.row.version < s.tick
    && (snapshot.id in s.rows && s.rows[snapshot.id].version == snapshot.row.version ==> s.rows[snapshot.id] == snapshot.row)
    && (forall id | id in s.rows && s.rows[id].version == snapshot.row.version :: id == snapshot.id)
  }

  predicate EntryIsTrue(s: State, e: Enqueued) {
    && e.locked.version < s.tick
    && e.prepared == e.locked.config
    && e.locked.nextRunAt <= e.at < e.nextRunAt == e.at + e.locked.intervalMs
    && e.at <= s.now
    && (forall id | id in s.rows :: s.rows[id].version != e.locked.version)
  }

  predicate SnapshotsAreTrue(s: State, snapshots: seq<Snapshot>) {
    forall k | 0 <= k < |snapshots| :: SnapshotIsTrue(s, snapshots[k])
  }

  predicate Inv(s: State) {
    && (forall id | id in s.rows :: s.rows[id].version < s.tick && s.rows[id].intervalMs >= MIN_INTERVAL_MS)
    && (forall a, b | a in s.rows && b in s.rows && a != b :: s.rows[a].version != s.rows[b].version)
    && (forall w | w in s.work :: SnapshotsAreTrue(s, s.work[w]))
    && (forall k | 0 <= k < |s.queue| :: EntryIsTrue(s, s.queue[k]))
    && (forall j, k | 0 <= j < k < |s.queue| :: s.queue[j].locked.version != s.queue[k].locked.version)
  }

  lemma SnapshotsStayTrue(s: State, s': State, snapshots: seq<Snapshot>)
    requires SnapshotsAreTrue(s, snapshots) && s.tick <= s'.tick
    requires forall id | id in s'.rows :: (id in s.rows && s'.rows[id] == s.rows[id]) || s'.rows[id].version >= s.tick
    ensures SnapshotsAreTrue(s', snapshots)
  {
    forall k | 0 <= k < |snapshots| ensures SnapshotIsTrue(s', snapshots[k]) {
      assert SnapshotIsTrue(s, snapshots[k]);
    }
  }

  lemma UpdateKeepsTrue(s: State, id: ScheduleId, row: Schedule, s': State)
    requires Inv(s) && s' == Update(s, id, row) && row.intervalMs >= MIN_INTERVAL_MS
    ensures Inv(s')
  {
    forall w | w in s'.work ensures SnapshotsAreTrue(s', s'.work[w]) {
      SnapshotsStayTrue(s, s', s.work[w]);
    }
    forall k | 0 <= k < |s.queue| ensures EntryIsTrue(s', s'.queue[k]) {
      assert EntryIsTrue(s, s.queue[k]);
    }
  }

  lemma AppendKeepsInv(s: State, e: Enqueued, s': State)
    requires Inv(s) && EntryIsTrue(s, e) && s' == s.(queue := s.queue + [e])
    requires forall k | 0 <= k < |s.queue| :: s.queue[k].locked.version != e.locked.version
    ensures Inv(s')
  {
    forall w | w in s'.work ensures SnapshotsAreTrue(s', s'.work[w]) {
      SnapshotsStayTrue(s, s', s.work[w]);
    }
    forall k | 0 <= k < |s'.queue| ensures EntryIsTrue(s', s'.queue[k]) {
      if k < |s.queue| {
        assert EntryIsTrue(s, s.queue[k]);
      }
    }
  }

  /** Only the worker's list changes, to one of true snapshots. */
  lemma WorkKeepsInv(s: State, w: Worker, s': State)
    requires Inv(s) && s' == s.(work := s'.work)
    requires forall v | v in s'.work && v != w :: v in s.work && s'.work[v] == s.work[v]
    requires w in s'.work ==> SnapshotsAreTrue(s, s'.work[w])
    ensures Inv(s')
  {
    forall v | v in s'.work ensures SnapshotsAreTrue(s', s'.work[v]) {
      SnapshotsStayTrue(s, s', s'.work[v]);
    }
    forall k | 0 <= k < |s'.queue| ensures EntryIsTrue(s', s'.queue[k]) {
      assert EntryIsTrue(s, s.queue[k]);
    }
  }

  lemma HandledKeepsInv(s: State, w: Worker)
    requires Inv(s) && HasWork(s, w)
    ensures Inv(Handled(s, w))
  {
    assert SnapshotsAreTrue(s, s.work[w]);
    WorkKeepsInv(s, w, Handled(s, w));
  }

  lemma EnqueueKeepsInv(s: State, w: Worker, s': State)
    requires Inv(s) && Next(s, Enqueue(w)) == Some(s')
    ensures Inv(s')
  {
    var snapshot := s.work[w][0];
    if CanEnqueue(s, snapshot) {
      EntryKeepsInv(s, w, snapshot);
      HandledKeepsInv(EnqueueState(s, w, snapshot), w);
    } else {
      HandledKeepsInv(s, w);
    }
  }

  lemma EntryKeepsInv(s: State, w: Worker, snapshot: Snapshot)
    requires Inv(s) && SnapshotIsTrue(s, snapshot) && CanEnqueue(s, snapshot)
    ensures Inv(EnqueueState(s, w, snapshot))
  {
    var locked := s.rows[snapshot.id];
    var next := s.now + locked.intervalMs;
    var updated := Update(s, snapshot.id, locked.(nextRunAt := next));
    UpdateKeepsTrue(s, snapshot.id, locked.(nextRunAt := next), updated);
    forall k | 0 <= k < |s.queue| ensures s.queue[k].locked.version != locked.version {
      assert EntryIsTrue(s, s.queue[k]);
    }
    AppendKeepsInv(updated, Enqueued(w, snapshot.id, snapshot.row.config, locked, s.now, next), EnqueueState(s, w, snapshot));
  }

  lemma QueryKeepsInv(s: State, w: Worker, ids: seq<ScheduleId>, s': State)
    requires Inv(s) && Next(s, Query(w, ids)) == Some(s')
    ensures Inv(s')
  {
    forall k | 0 <= k < |ids| ensures SnapshotIsTrue(s, SnapshotsOf(s, ids)[k]) {}
    WorkKeepsInv(s, w, s');
  }

  lemma PassingKeepsInv(s: State, e: Event, s': State)
    requires Inv(s) && Next(s, e) == Some(s') && (e.Delete? || e.Tick?)
    ensures Inv(s')
  {
    forall v | v in s'.work ensures SnapshotsAreTrue(s', s'.work[v]) {
      SnapshotsStayTrue(s, s', s.work[v]);
    }
    forall k | 0 <= k < |s'.queue| ensures EntryIsTrue(s', s'.queue[k]) {
      assert EntryIsTrue(s, s.queue[k]);
    }
  }

  lemma StepKeepsInv(s: State, e: Event, s': State)
    requires Inv(s) && Next(s, e) == Some(s')
    ensures Inv(s')
  {
    match e {
      case Enqueue(w) => EnqueueKeepsInv(s, w, s');
      case Create(id, config, nextRunAt, intervalMs) => UpdateKeepsTrue(s, id, Schedule(0, config, true, nextRunAt, intervalMs), s');
      case Edit(id, config, enabled, nextRunAt, intervalMs) =>
        UpdateKeepsTrue(s, id, Schedule(0, config, enabled, nextRunAt, intervalMs), s');
      case RecordResult(id) => UpdateKeepsTrue(s, id, s.rows[id], s');
      case Fail(w) => HandledKeepsInv(s, w);
      case Finish(w) => WorkKeepsInv(s, w, s');
      case Query(w, ids) => QueryKeepsInv(s, w, ids, s');
      case _ => PassingKeepsInv(s, e, s');
    }
  }

  lemma {:induction false} InvHolds(states: seq<State>, events: seq<Event>, n: nat)
    requires IsRun(states, events) && n < |states|
    ensures Inv(states[n])
    decreases n
  {
    if n > 0 {
      InvHolds(states, events, n - 1);
      assert Next(states[n - 1], events[n - 1]) == Some(states[n]);
      StepKeepsInv(states[n - 1], events[n - 1], states[n]);
    }
  }

  // ------------------------------------------------------------------ the promises

  /** Each row version enqueues at most one backup. */
  lemma OneBackupPerVersion(states: seq<State>, events: seq<Event>, n: nat, j: nat, k: nat)
    requires IsRun(states, events) && n < |states| && j < k < |states[n].queue|
    ensures states[n].queue[j].locked.version != states[n].queue[k].locked.version
  {
    InvHolds(states, events, n);
  }

  /**
    A backup was prepared from the configuration that is locked when it is enqueued, and its schedule's
    next run moves strictly forward, to one interval after the enqueuing.
   */
  lemma PreparedFromTheLockedRow(states: seq<State>, events: seq<Event>, n: nat, k: nat)
    requires IsRun(states, events) && n < |states| && k < |states[n].queue|
    ensures var e := states[n].queue[k];
            e.prepared == e.locked.config && e.locked.nextRunAt <= e.at < e.nextRunAt && e.nextRunAt == e.at + e.locked.intervalMs
  {
    InvHolds(states, events, n);
    assert EntryIsTrue(states[n], states[n].queue[k]);
  }

  /** The event enqueues a backup of this schedule. */
  predicate Enqueues(s: State, e: Event, id: ScheduleId) {
    e.Enqueue? && HasWork(s, e.w) && s.work[e.w][0].id == id && CanEnqueue(s, s.work[e.w][0])
  }

  predicate Touches(e: Event, id: ScheduleId) {
    (e.Edit? || e.Delete? || e.Create?) && e.id == id
  }

  /** Enqueuing happens only when a worker's snapshot is still current, and enters the locked row. */
  lemma EnqueuesAddOne(s: State, e: Event, s': State)
    requires Inv(s) && Next(s, e) == Some(s')
    ensures |s'.queue| > |s.queue| <==> e.Enqueue? && Enqueues(s, e, s.work[e.w][0].id)
    ensures |s'.queue| > |s.queue| ==>
              var id := s.work[e.w][0].id;
              s'.queue == s.queue + [Enqueued(e.w, id, s.rows[id].config, s.rows[id], s.now, s'.rows[id].nextRunAt)]
  {
    if e.Enqueue? {
      assert SnapshotIsTrue(s, s.work[e.w][0]);
    }
  }

  /** After an enqueuing at time t, and until someone edits the schedule, its next run is an interval after t or later. */
  predicate Spaced(s: State, id: ScheduleId, t: int, interval: int) {
    t <= s.now && (id in s.rows ==> s.rows[id].intervalMs == interval && s.rows[id].nextRunAt >= t + interval)
  }

  lemma StepKeepsSpacing(s: State, e: Event, s': State, id: ScheduleId, t: int, interval: int)
    requires Inv(s) && Spaced(s, id, t, interval) && Next(s, e) == Some(s') && !Touches(e, id)
    ensures Spaced(s', id, t, interval)
  {
  }

  lemma {:induction false} SpacingLasts(states: seq<State>, events: seq<Event>, i: nat, j: nat, id: ScheduleId)
    requires IsRun(states, events) && i < j < |states| && Enqueues(states[i], events[i], id)
    requires forall k {:trigger events[k]} | i < k < j :: !Touches(events[k], id)
    ensures Spaced(states[j], id, states[i].now, states[i].rows[id].intervalMs)
    decreases j
  {
    assert Next(states[i], events[i]) == Some(states[i + 1]);
    InvHolds(states, events, i);
    if j > i + 1 {
      SpacingLasts(states, events, i, j - 1, id);
      InvHolds(states, events, j - 1);
      assert Next(states[j - 1], events[j - 1]) == Some(states[j]);
      StepKeepsSpacing(states[j - 1], events[j - 1], states[j], id, states[i].now, states[i].rows[id].intervalMs);
    }
  }

  /** Two enqueuings of a schedule that nobody edits in between are at least its interval apart. */
  lemma EnqueuesAreSpaced(states: seq<State>, events: seq<Event>, i: nat, j: nat, id: ScheduleId)
    requires IsRun(states, events) && i < j < |events|
    requires Enqueues(states[i], events[i], id) && Enqueues(states[j], events[j], id)
    requires forall k {:trigger events[k]} | i < k < j :: !Touches(events[k], id)
    ensures states[j].now - states[i].now >= states[i].rows[id].intervalMs >= MIN_INTERVAL_MS
  {
    SpacingLasts(states, events, i, j, id);
    InvHolds(states, events, i);
    InvHolds(states, events, j);
  }

  // ------------------------------------------------------------------ the scheduler's pass

  predicate IsStepOf(e: Event, w: Worker) {
    (e.Query? || e.Enqueue? || e.Fail? || e.Finish?) && e.w == w
  }

  /** The schedules of the backups that a worker has put on the queue, in their order. */
  function OwnIds(queue: seq<Enqueued>, w: Worker): seq<ScheduleId> {
    if queue == [] then []
    else
      var last := queue[|queue| - 1];
      OwnIds(queue[..|queue| - 1], w) + if last.worker == w then [last.id] else []
  }

  lemma OwnIdsOneMore(queue: seq<Enqueued>, e: Enqueued, w: Worker)
    ensures OwnIds(queue + [e], w) == OwnIds(queue, w) + if e.worker == w then [e.id] else []
  {
    assert (queue + [e])[..|queue|] == queue;
  }

  lemma OthersKeepWork(s: State, e: Event, w: Worker, s': State)
    requires Next(s, e) == Some(s') && !IsStepOf(e, w)
    ensures w in s'.work <==> w in s.work
    ensures w in s.work ==> s'.work[w] == s.work[w]
    ensures OwnIds(s'.queue, w) == OwnIds(s.queue, w)
  {
    if s'.queue != s.queue {
      OwnIdsOneMore(s.queue, s'.queue[|s.queue|], w);
    }
  }

  class World {
    var state: State
    ghost var events: seq<Event>

    ghost predicate Valid()
      reads this
    {
      Inv(state)
    }

    constructor (now: int)
      ensures Valid() && Initial(state) && state.now == now && events == []
    {
      state, events := State(map[], map[], [], 0, now), [];
    }

    method Perform(e: Event)
      requires Valid() && Next(state, e).Some?
      modifies this
      ensures Valid() && Some(state) == Next(old(state), e) && events == old(events) + [e]
    {
      StepKeepsInv(state, e, Next(state, e).value);
      state := Next(state, e).value;
      events := events + [e];
    }

    /** Any number of steps of other workers and editors. */
    method Interfere(w: Worker)
      requires Valid()
      modifies this
      ensures Valid() && old(events) <= events && OwnIds(state.queue, w) == OwnIds(old(state).queue, w)
      ensures w in state.work <==> w in old(state).work
      ensures w in state.work ==> state.work[w] == old(state).work[w]
    {
      var steps: nat := *;
      while steps > 0
        invariant Valid() && old(events) <= events && OwnIds(state.queue, w) == OwnIds(old(state).queue, w)
        invariant w in state.work <==> w in old(state).work
        invariant w in state.work ==> state.work[w] == old(state).work[w]
      {
        var e: Event := *;
        if !IsStepOf(e, w) && Next(state, e).Some? {
          OthersKeepWork(state, e, w, Next(state, e).value);
          Perform(e);
        }
        steps := steps - 1;
      }
    }
  }

  predicate AreDistinct(ids: seq<ScheduleId>) {
    forall j, k | 0 <= j < k < |ids| :: ids[j] != ids[k]
  }

  predicate AreAmong(ids: seq<ScheduleId>, due: seq<ScheduleId>) {
    forall k | 0 <= k < |ids| :: ids[k] in due
  }

  /**
    One pass: the rows due at its query, one after the other. It puts at most one backup on the queue for
    each of them and none for any other, and reports exactly those.
   */
  method RunDueBackupSchedules(world: World, w: Worker) returns (due: seq<ScheduleId>, enqueued: seq<ScheduleId>)
    requires world.Valid() && w !in world.state.work
    modifies world
    ensures world.Valid() && w !in world.state.work && old(world.events) <= world.events
    ensures OwnIds(world.state.queue, w) == OwnIds(old(world.state).queue, w) + enqueued
    ensures AreDistinct(enqueued) && AreAmong(enqueued, due) && Query(w, due) in world.events
  {
    world.Interfere(w);
    due := *;
    if !AreDue(world.state, due) {
      due := [];
    }
    world.Perform(Query(w, due));
    ghost var queried := world.events;
    enqueued := HandleRows(world, w, due);
    world.Interfere(w);
    world.Perform(Finish(w));
    assert queried[|queried| - 1] == Query(w, due) && queried <= world.events;
  }

  /** The rows that a query returned, in their order. */
  method HandleRows(world: World, w: Worker, due: seq<ScheduleId>) returns (enqueued: seq<ScheduleId>)
    requires world.Valid() && AreDistinct(due) && w in world.state.work
    requires IdsOf(world.state.work[w]) == due
    modifies world
    ensures world.Valid() && w in world.state.work && world.state.work[w] == [] && old(world.events) <= world.events
    ensures OwnIds(world.state.queue, w) == OwnIds(old(world.state).queue, w) + enqueued
    ensures AreDistinct(enqueued) && AreAmong(enqueued, due)
  {
    enqueued := [];
    var i := 0;
    while i < |due|
      invariant 0 <= i <= |due| && world.Valid() && old(world.events) <= world.events
      invariant w in world.state.work && IdsOf(world.state.work[w]) == due[i..]
      invariant OwnIds(world.state.queue, w) == OwnIds(old(world.state).queue, w) + enqueued
      invariant AreDistinct(enqueued) && AreAmong(enqueued, due[..i])
    {
      FirstRowIsNext(world.state.work[w], due, i);
      var added := EnqueueOne(world, w);
      HandledOneMore(due, i, enqueued, OwnIds(old(world.state).queue, w));
      if added {
        enqueued := enqueued + [due[i]];
      }
      i := i + 1;
    }
    assert due[..i] == due && |world.state.work[w]| == |due[i..]|;
  }

  function IdsOf(snapshots: seq<Snapshot>): (ids: seq<ScheduleId>)
    ensures |ids| == |snapshots|
  {
    seq(|snapshots|, k requires 0 <= k < |snapshots| => snapshots[k].id)
  }

  lemma FirstRowIsNext(snapshots: seq<Snapshot>, due: seq<ScheduleId>, i: nat)
    requires i < |due| && IdsOf(snapshots) == due[i..]
    ensures snapshots != [] && snapshots[0].id == due[i] && IdsOf(snapshots[1..]) == due[i + 1..]
  {
    assert due[i..][0] == due[i] && due[i..][1..] == due[i + 1..];
    assert forall k | 0 <= k < |snapshots| :: IdsOf(snapshots)[k] == snapshots[k].id;
    assert IdsOf(snapshots[1..]) == due[i..][1..];
  }

  lemma HandledOneMore(due: seq<ScheduleId>, i: nat, enqueued: seq<ScheduleId>, earlier: seq<ScheduleId>)
    requires i < |due| && AreDistinct(due) && AreDistinct(enqueued) && AreAmong(enqueued, due[..i])
    ensures AreDistinct(enqueued + [due[i]])
    ensures AreAmong(enqueued, due[..i + 1]) && AreAmong(enqueued + [due[i]], due[..i + 1])
    ensures earlier + enqueued + [due[i]] == earlier + (enqueued + [due[i]])
    ensures earlier + enqueued + [] == earlier + enqueued
  {
    assert forall k | 0 <= k < |enqueued| :: enqueued[k] in due[..i];
    assert due[..i + 1][i] == due[i];
    assert forall id | id in due[..i] :: id in due[..i + 1] && id != due[i];
  }

  /** Prepare from a snapshot outside the transaction, then lock, check again, move the next run and enqueue. */
  method EnqueueOne(world: World, w: Worker) returns (added: bool)
    requires world.Valid() && HasWork(world.state, w)
    modifies world
    ensures world.Valid() && old(world.events) < world.events
    ensures w in world.state.work && world.state.work[w] == old(world.state).work[w][1..]
    ensures world.events[|world.events| - 1] == Enqueue(w) || (world.events[|world.events| - 1] == Fail(w) && !added)
    ensures OwnIds(world.state.queue, w) ==
            OwnIds(old(world.state).queue, w) + if added then [old(world.state).work[w][0].id] else []
    ensures added ==> world.state.queue != []
    ensures added ==> var last := world.state.queue[|world.state.queue| - 1];
                      && last.worker == w && last.id == old(world.state).work[w][0].id
                      && last.prepared == last.locked.config == old(world.state).work[w][0].row.config
  {
    world.Interfere(w);
    var prepared: bool := *;
    if !prepared {
      world.Perform(Fail(w));
      return false;
    }
    ghost var queue := world.state.queue;
    added := CanEnqueue(world.state, world.state.work[w][0]);
    world.Perform(Enqueue(w));
    if added {
      OwnIdsOneMore(queue, world.state.queue[|queue|], w);
      assert EntryIsTrue(world.state, world.state.queue[|queue|]);
    }
  }
}
