/** The deletion code itself, step by step, against the state machine of DeletionProtocol. */
module DeletionRun {
  import opened Wrappers
  import opened DeletionProtocol
  import opened Runs

  /** A step that run r takes itself; its heartbeat is a timer and beats beside it. */
  predicate IsStepOf(e: Event, r: Token) {
    (e.ClaimDeletion? || e.TakeOver? || e.RemoveKey? || e.Unlink? || e.Finish?) && e.run == r
  }

  lemma OthersKeepPhase(s: State, e: Event, r: Token, s': State)
    requires Next(s, e) == Some(s') && !IsStepOf(e, r) && r in s.runs
    ensures r in s'.runs && s'.runs[r] == s.runs[r]
  {
  }

  class World {
    var state: State
    ghost var events: seq<Event>
    ghost const start: State

    ghost predicate Valid()
      reads this
    {
      RunOf(Next, start, events) == Some(state)
    }

    constructor (s: State)
      ensures Valid() && state == s && start == s && events == []
    {
      state, start, events := s, s, [];
    }

    method Perform(e: Event)
      requires Valid() && Next(state, e).Some?
      modifies this
      ensures Valid() && Some(state) == Next(old(state), e) && events == old(events) + [e]
    {
      RunExtends(Next, start, events, e);
      state := Next(state, e).value;
      events := events + [e];
    }

    /** Any number of heartbeats of r and of steps of others between two steps of run r. */
    method Interfere(r: Token)
      requires Valid()
      modifies this
      ensures Valid() && old(events) <= events
      ensures r in old(state).runs ==> r in state.runs && state.runs[r] == old(state).runs[r]
      ensures r !in old(state).runs ==> r !in state.runs
    {
      var steps: nat := *;
      while steps > 0
        invariant Valid() && old(events) <= events
        invariant r in old(state).runs ==> r in state.runs && state.runs[r] == old(state).runs[r]
        invariant r !in old(state).runs ==> r !in state.runs
      {
        var e: Event := *;
        if !IsStepOf(e, r) && Next(state, e).Some? {
          if r in state.runs {
            OthersKeepPhase(state, e, r, Next(state, e).value);
          }
          Perform(e);
        }
        steps := steps - 1;
      }
    }
  }

  /** The keys of a record's locators, each once. */
  method ListKeys(keys: set<Key>) returns (order: seq<Key>)
    ensures Orders(order, keys)
  {
    order := [];
    var rest := keys;
    while rest != {}
      invariant rest <= keys && Orders(order, keys - rest)
      decreases |rest|
    {
      var key :| key in rest;
      rest := rest - {key};
      order := order + [key];
    }
    assert keys - rest == keys;
  }

  /** Remove the remote objects one by one, then the local archive, then the record if it is still this run's. */
  method FinishClaimedBackupDeletion(w: World, r: Token) returns (deleted: bool)
    requires w.Valid() && r in w.state.runs && w.state.runs[r].phase == Removing(w.state.runs[r].keys)
    modifies w
    ensures w.Valid() && r in w.state.runs && old(w.events) <= w.events
    ensures deleted <==> w.state.runs[r].phase == Deleted
    ensures !deleted ==> w.state.runs[r].phase == Stopped
    ensures deleted && Initial(w.start) ==> w.state.record.None? && !w.state.archive
  {
    var keys := w.state.runs[r].keys;
    var i := 0;
    while i < |keys|
      invariant 0 <= i <= |keys|
      invariant w.Valid() && r in w.state.runs && old(w.events) <= w.events
      invariant w.state.runs[r].phase == Removing(keys[i..])
    {
      w.Interfere(r);
      var effect: bool, reply: bool := *, *;
      w.Perform(RemoveKey(r, effect || reply, reply));
      if !reply {
        return false;
      }
      i := i + 1;
    }
    w.Interfere(r);
    var effect: bool, unlinked: bool := *, *;
    w.Perform(Unlink(r, effect || unlinked, unlinked));
    if !unlinked {
      return false;
    }
    w.Interfere(r);
    var reply: bool := *;
    w.Perform(Finish(r, reply));
    deleted := w.state.runs[r].phase == Deleted;
    if deleted {
      DeletedWorldIsClean(w, r, reply);
    }
  }

  lemma DeletedWorldIsClean(w: World, r: Token, reply: bool)
    requires w.Valid() && w.events != [] && w.events[|w.events| - 1] == Finish(r, reply)
    requires r in w.state.runs && w.state.runs[r].phase == Deleted
    ensures Initial(w.start) ==> w.state.record.None? && !w.state.archive
  {
    if Initial(w.start) {
      var states := StatesOf(Next, w.start, w.events);
      var last := |w.events| - 1;
      assert Next(states[last], w.events[last]) == Some(states[last + 1]);
      VanishesAfterCleanUp(states, w.events, last);
    }
  }

  /** None when the record cannot be claimed. */
  method DeleteBackup(w: World, r: Token) returns (deleted: Option<bool>)
    requires w.Valid() && r !in w.state.runs
    modifies w
    ensures w.Valid() && old(w.events) <= w.events
    ensures deleted.None? ==> !CanClaim(w.state) && r !in w.state.runs
    ensures deleted == Some(false) ==> r in w.state.runs && w.state.runs[r].phase == Stopped
    ensures deleted == Some(true) <==> r in w.state.runs && w.state.runs[r].phase == Deleted
    ensures deleted == Some(true) && Initial(w.start) ==> w.state.record.None? && !w.state.archive
  {
    w.Interfere(r);
    if !CanClaim(w.state) {
      return None;
    }
    var order := ListKeys(w.state.record.value.keys);
    w.Perform(ClaimDeletion(r, order));
    var done := FinishClaimedBackupDeletion(w, r);
    return Some(done);
  }

  /** One candidate of a reconciliation pass. */
  method ReconcileClaimedBackupDeletion(w: World, r: Token) returns (deleted: Option<bool>)
    requires w.Valid() && r !in w.state.runs
    modifies w
    ensures w.Valid() && old(w.events) <= w.events
    ensures deleted.None? ==> !CanTakeOver(w.state) && r !in w.state.runs
    ensures deleted == Some(false) ==> r in w.state.runs && w.state.runs[r].phase == Stopped
    ensures deleted == Some(true) <==> r in w.state.runs && w.state.runs[r].phase == Deleted
    ensures deleted == Some(true) && Initial(w.start) ==> w.state.record.None? && !w.state.archive
  {
    w.Interfere(r);
    if !CanTakeOver(w.state) {
      return None;
    }
    var order := ListKeys(w.state.record.value.keys);
    w.Perform(TakeOver(r, order));
    var done := FinishClaimedBackupDeletion(w, r);
    return Some(done);
  }
}
