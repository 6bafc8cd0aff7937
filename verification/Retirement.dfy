/** Retirement: inactive dogs leave their session, and their players leave the registry. */
module Retirement {
  import opened Entities
  import opened GameStates
  import opened PlayerRegistry
  import opened Removal
  import opened Sessions

  function IdSet(dogs: seq<Dog>): set<nat> { set d | d in dogs :: d.id }

  /** The session's dogs have players, and those players hold on to this session. */
  ghost predicate OwnsItsDogs(players: seq<Player>, session: GameSession, dogs: seq<Dog>) {
    && (forall p :: p in players && p.dog.id in IdSet(dogs) ==> p.session == session)
    && forall d :: d in dogs ==> exists p :: p in players && p.dog.id == d.id
  }

  function RecordOfDog(d: Dog, clock: int): Record
    reads d
  {
    RecordOf(d.State(), clock)
  }

  /** `inactive` lists the dogs over the limit. */
  ghost predicate AreInactive(inactive: seq<Dog>, dogs: seq<Dog>, limit: real)
    reads dogs
  {
    && (forall d :: d in inactive ==> d in dogs)
    && forall d :: d in dogs ==> (d in inactive <==> d.inactivity >= limit)
  }

  lemma PrefixStates(dogs: seq<Dog>, n: nat)
    requires n < |dogs|
    ensures DogStates(dogs[..n + 1]) == DogStates(dogs[..n]) + [dogs[n].State()]
  {
  }

  lemma RetiringWithLast(dogs: seq<DogState>, d: DogState, limit: real)
    ensures Retiring(dogs + [d], limit)
         == if d.inactivity >= limit then Retiring(dogs, limit) + [d] else Retiring(dogs, limit)
  {
    assert (dogs + [d])[..|dogs|] == dogs;
  }

  lemma StayingWithLast(dogs: seq<DogState>, d: DogState, limit: real)
    ensures Staying(dogs + [d], limit)
         == if d.inactivity >= limit then Staying(dogs, limit) else Staying(dogs, limit) + [d]
  {
    assert (dogs + [d])[..|dogs|] == dogs;
  }

  function Extended(dogs: seq<Dog>, dog: Dog, add: bool): seq<Dog> { if add then dogs + [dog] else dogs }

  lemma OneMoreInactive(inactive: seq<Dog>, dogs: seq<Dog>, n: nat, limit: real)
    requires DistinctKeys(dogs, IdOf) && n < |dogs|
    requires AreInactive(inactive, dogs[..n], limit) && DistinctKeys(inactive, IdOf)
    ensures var next := Extended(inactive, dogs[n], dogs[n].inactivity >= limit);
      AreInactive(next, dogs[..n + 1], limit) && DistinctKeys(next, IdOf)
  {
    assert dogs[..n + 1] == dogs[..n] + [dogs[n]];
    forall k | 0 <= k < |inactive| ensures inactive[k].id != dogs[n].id {
      assert inactive[k] in dogs[..n];
    }
  }

  lemma StatesOfExtended(dogs: seq<Dog>, dog: Dog)
    ensures DogStates(dogs + [dog]) == DogStates(dogs) + [dog.State()]
  {
  }

  lemma OneMoreRetiring(inactive: seq<Dog>, dogs: seq<Dog>, n: nat, limit: real)
    requires n < |dogs| && DogStates(inactive) == Retiring(DogStates(dogs[..n]), limit)
    ensures DogStates(Extended(inactive, dogs[n], dogs[n].inactivity >= limit))
         == Retiring(DogStates(dogs[..n + 1]), limit)
  {
    PrefixStates(dogs, n);
    RetiringWithLast(DogStates(dogs[..n]), dogs[n].State(), limit);
    StatesOfExtended(inactive, dogs[n]);
  }

  method InactiveDogs(dogs: seq<Dog>, limit: real) returns (inactive: seq<Dog>)
    requires DistinctKeys(dogs, IdOf)
    ensures AreInactive(inactive, dogs, limit) && DistinctKeys(inactive, IdOf)
    ensures DogStates(inactive) == Retiring(DogStates(dogs), limit)
  {
    inactive := [];
    for i := 0 to |dogs|
      invariant AreInactive(inactive, dogs[..i], limit) && DistinctKeys(inactive, IdOf)
      invariant DogStates(inactive) == Retiring(DogStates(dogs[..i]), limit)
    {
      OneMoreInactive(inactive, dogs, i, limit);
      OneMoreRetiring(inactive, dogs, i, limit);
      if dogs[i].inactivity >= limit {
        inactive := inactive + [dogs[i]];
      }
    }
    assert dogs[..|dogs|] == dogs;
  }

  /** Filtering the dogs by the ids of the inactive ones is filtering them by their inactivity. */
  lemma {:induction false} StatesWithout(dogs: seq<Dog>, gone: set<nat>, limit: real)
    requires IdsOfInactive(dogs, gone, limit)
    ensures DogStates(Without(dogs, IdOf, gone)) == Staying(DogStates(dogs), limit)
  {
    if dogs == [] {
    } else {
      var (front, last) := (dogs[..|dogs| - 1], dogs[|dogs| - 1]);
      StatesWithout(front, gone, limit);
      assert dogs == front + [last];
      StatesOfExtended(front, last);
      StayingWithLast(DogStates(front), last.State(), limit);
      StatesOfExtended(Without(front, IdOf, gone), last);
    }
  }

  /** One dog and its player leave. */
  method RetireDog(session: GameSession, registry: Players, dog: Dog)
    requires DistinctKeys(session.dogs, IdOf) && DistinctKeys(registry.players, DogIdOf)
    requires dog in session.dogs && OwnsItsDogs(registry.players, session, session.dogs)
    modifies session`dogs, registry`players
    ensures session.dogs == Without(old(session.dogs), IdOf, {dog.id})
    ensures registry.players == Without(old(registry.players), DogIdOf, {dog.id})
  {
    ErasingIsFiltering(session.dogs, IdOf, dog.id);
    ErasingIsFiltering(registry.players, DogIdOf, dog.id);
    assert dog.id in IdSet(session.dogs);
    assert registry.Owner(dog.id) == {session};
    registry.RemovePlayerFromGameByDogId(dog.id);
  }

  lemma OwnershipAfter(dogs: seq<Dog>, players: seq<Player>, gone: set<nat>, session: GameSession)
    requires OwnsItsDogs(players, session, dogs)
    ensures OwnsItsDogs(Without(players, DogIdOf, gone), session, Without(dogs, IdOf, gone))
  {
    forall d | d in Without(dogs, IdOf, gone)
      ensures exists p :: p in Without(players, DogIdOf, gone) && p.dog.id == d.id
    {
      var p :| p in players && p.dog.id == d.id;
      assert DogIdOf(p) == IdOf(d);
    }
  }

  lemma IdSetWithLast(dogs: seq<Dog>, n: nat)
    requires n < |dogs|
    ensures IdSet(dogs[..n + 1]) == IdSet(dogs[..n]) + {dogs[n].id}
  {
    assert dogs[..n + 1] == dogs[..n] + [dogs[n]];
  }

  /** Dogs and players after the first `n` inactive dogs have left. */
  ghost predicate HaveLeft(
    session: GameSession, registry: Players, dogs: seq<Dog>, players: seq<Player>, gone: set<nat>)
    reads session, registry
  {
    session.dogs == Without(dogs, IdOf, gone) && registry.players == Without(players, DogIdOf, gone)
  }

  method RetireNext(session: GameSession, registry: Players, dog: Dog,
                    ghost dogs: seq<Dog>, ghost players: seq<Player>, ghost gone: set<nat>)
    requires DistinctKeys(dogs, IdOf) && DistinctKeys(players, DogIdOf)
    requires OwnsItsDogs(players, session, dogs)
    requires HaveLeft(session, registry, dogs, players, gone) && dog in dogs && dog.id !in gone
    modifies session`dogs, registry`players
    ensures HaveLeft(session, registry, dogs, players, gone + {dog.id})
  {
    OwnershipAfter(dogs, players, gone, session);
    WithoutKeepsDistinct(dogs, IdOf, gone);
    WithoutKeepsDistinct(players, DogIdOf, gone);
    RetireDog(session, registry, dog);
    WithoutTwice(dogs, IdOf, gone, {dog.id});
    WithoutTwice(players, DogIdOf, gone, {dog.id});
  }

  function Active(dogs: seq<Dog>, limit: real): seq<Dog>
    reads dogs
  {
    if dogs == [] then []
    else
      var n := |dogs| - 1;
      Extended(Active(dogs[..n], limit), dogs[n], dogs[n].inactivity < limit)
  }

  lemma {:induction false} AllActive(dogs: seq<Dog>, limit: real)
    requires forall i :: 0 <= i < |dogs| ==> dogs[i].inactivity < limit
    ensures Active(dogs, limit) == dogs
  {
    if dogs == [] {
    } else {
      AllActive(dogs[..|dogs| - 1], limit);
    }
  }

  /** The final sweep over the session's dogs. */
  method Sweep(dogs: seq<Dog>, limit: real) returns (kept: seq<Dog>)
    ensures kept == Active(dogs, limit)
  {
    kept := [];
    for i := 0 to |dogs|
      invariant kept == Active(dogs[..i], limit)
    {
      assert dogs[..i + 1][..i] == dogs[..i];
      if dogs[i].inactivity < limit {
        kept := kept + [dogs[i]];
      }
    }
    assert dogs[..|dogs|] == dogs;
  }

  /** Every inactive dog gets a record, and it and its player leave; what stays keeps its order. */
  method RetireInactive(session: GameSession, registry: Players, inactive: seq<Dog>, clock: int,
                        ghost states: seq<DogState>)
    returns (written: seq<Record>)
    requires DistinctKeys(session.dogs, IdOf) && DistinctKeys(registry.players, DogIdOf)
    requires OwnsItsDogs(registry.players, session, session.dogs) && states == DogStates(inactive)
    requires DistinctKeys(inactive, IdOf) && forall d :: d in inactive ==> d in session.dogs
    modifies session`dogs, registry`players
    ensures written == RecordsOf(states, clock)
    ensures HaveLeft(session, registry, old(session.dogs), old(registry.players), IdSet(inactive))
  {
    written := [];
    ghost var (dogs, players) := (session.dogs, registry.players);
    WithoutNothing(dogs, IdOf, {});
    WithoutNothing(players, DogIdOf, {});
    assert IdSet(inactive[..0]) == {};
    for n := 0 to |inactive|
      invariant HaveLeft(session, registry, dogs, players, IdSet(inactive[..n]))
      invariant written == RecordsOf(states[..n], clock)
    {
      written := written + [RecordOfDog(inactive[n], clock)];
      RecordsWithLast(states, n, clock);
      RetireNext(session, registry, inactive[n], dogs, players, IdSet(inactive[..n]));
      IdSetWithLast(inactive, n);
    }
    assert inactive[..|inactive|] == inactive && states[..|inactive|] == states;
  }

  /** The ids in `gone` are those of the inactive dogs. */
  ghost predicate IdsOfInactive(dogs: seq<Dog>, gone: set<nat>, limit: real)
    reads dogs
  {
    forall d :: d in dogs ==> (d.id in gone <==> d.inactivity >= limit)
  }

  twostate lemma StatesAfterRetirement(dogs: seq<Dog>, new states: seq<DogState>, new gone: set<nat>, new limit: real)
    requires old(DogStates(dogs)) == states
    requires forall d: Dog :: old(allocated(d)) ==> d.State() == old(d.State())
    ensures old(IdsOfInactive(dogs, gone, limit)) ==> DogStates(Without(dogs, IdOf, gone)) == Staying(states, limit)
  {
    if old(IdsOfInactive(dogs, gone, limit)) {
      assert DogStates(dogs) == states;
      assert forall d :: d in dogs ==> d.inactivity == old(d.inactivity);
      StatesWithout(dogs, gone, limit);
    }
  }

  lemma RecordsWithLast(dogs: seq<DogState>, n: nat, clock: int)
    requires n < |dogs|
    ensures RecordsOf(dogs[..n + 1], clock) == RecordsOf(dogs[..n], clock) + [RecordOf(dogs[n], clock)]
  {
    assert dogs[..n + 1][..n] == dogs[..n];
  }

  lemma GoneIds(inactive: seq<Dog>, dogs: seq<Dog>, limit: real)
    requires DistinctKeys(dogs, IdOf) && AreInactive(inactive, dogs, limit)
    requires DogStates(inactive) == Retiring(DogStates(dogs), limit)
    ensures IdSet(inactive) == IdsOf(Retiring(DogStates(dogs), limit))
    ensures IdsOfInactive(dogs, IdSet(inactive), limit)
  {
    forall d | d in dogs && d.id in IdSet(inactive) ensures d.inactivity >= limit {
      var e :| e in inactive && e.id == d.id;
      var i, j :| 0 <= i < |dogs| && 0 <= j < |dogs| && dogs[i] == d && dogs[j] == e;
      assert IdOf(dogs[i]) == IdOf(dogs[j]);
    }
    forall id | id in IdSet(inactive) ensures id in IdsOf(DogStates(inactive)) {
      var k :| 0 <= k < |inactive| && inactive[k].id == id;
      assert DogStates(inactive)[k] in DogStates(inactive);
    }
    forall id | id in IdsOf(DogStates(inactive)) ensures id in IdSet(inactive) {
      var k :| 0 <= k < |inactive| && DogStates(inactive)[k].id == id;
      assert inactive[k] in inactive;
    }
  }

  method RetireAll(session: GameSession, registry: Players, limit: real, clock: int, ghost states: seq<DogState>)
    returns (written: seq<Record>, ghost gone: set<nat>)
    requires DistinctKeys(session.dogs, IdOf) && DistinctKeys(registry.players, DogIdOf)
    requires OwnsItsDogs(registry.players, session, session.dogs) && states == DogStates(session.dogs)
    modifies session`dogs, registry`players
    ensures written == RecordsOf(Retiring(states, limit), clock)
    ensures gone == IdsOf(Retiring(states, limit))
    ensures HaveLeft(session, registry, old(session.dogs), old(registry.players), gone)
    ensures old(IdsOfInactive(session.dogs, gone, limit))
  {
    var inactive := InactiveDogs(session.dogs, limit);
    gone := IdSet(inactive);
    GoneIds(inactive, session.dogs, limit);
    written := RetireInactive(session, registry, inactive, clock, Retiring(states, limit));
  }

  method RetireAndSweep(session: GameSession, registry: Players, limit: real, clock: int, ghost states: seq<DogState>)
    returns (written: seq<Record>, ghost gone: set<nat>)
    requires DistinctKeys(session.dogs, IdOf) && DistinctKeys(registry.players, DogIdOf)
    requires OwnsItsDogs(registry.players, session, session.dogs) && states == DogStates(session.dogs)
    modifies session`dogs, registry`players
    ensures written == RecordsOf(Retiring(states, limit), clock)
    ensures gone == IdsOf(Retiring(states, limit))
    ensures HaveLeft(session, registry, old(session.dogs), old(registry.players), gone)
    ensures old(IdsOfInactive(session.dogs, gone, limit))
  {
    written, gone := RetireAll(session, registry, limit, clock, states);
    forall i | 0 <= i < |session.dogs| ensures session.dogs[i].inactivity < limit {
      assert session.dogs[i] in old(session.dogs) && IdOf(session.dogs[i]) !in gone;
    }
    AllActive(session.dogs, limit);
    var kept := Sweep(session.dogs, limit);
    assert kept == session.dogs;
    session.dogs := kept;
  }

  method RemoveInactiveDogs(session: GameSession, registry: Players, limit: real, clock: int,
                            ghost states: seq<DogState>)
    returns (written: seq<Record>, ghost gone: set<nat>)
    requires DistinctKeys(session.dogs, IdOf) && DistinctKeys(registry.players, DogIdOf)
    requires OwnsItsDogs(registry.players, session, session.dogs) && states == DogStates(session.dogs)
    modifies session`dogs, registry`players
    ensures written == RecordsOf(Retiring(states, limit), clock)
    ensures gone == IdsOf(Retiring(states, limit))
    ensures HaveLeft(session, registry, old(session.dogs), old(registry.players), gone)
    ensures DogStates(session.dogs) == Staying(states, limit)
  {
    ghost var dogs := session.dogs;
    written, gone := RetireAndSweep(session, registry, limit, clock, states);
    StatesAfterRetirement(dogs, states, gone, limit);
  }
}
