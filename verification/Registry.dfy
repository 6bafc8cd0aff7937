/**
 * Identities. In every reachable state all dogs, sessions, players and loots have distinct ids below
 * the counters from which new ids are taken, each loot is in one place, and players correspond
 * one-to-one with the dogs of all sessions.
 */
module Registry {
  import opened Entities
  import opened GameStates
  import opened Geometry
  import opened Replay

  ghost predicate DistinctDogs(dogs: seq<DogState>) {
    forall i, j :: 0 <= i < j < |dogs| ==> dogs[i].id != dogs[j].id
  }

  ghost predicate DistinctPlayers(players: seq<PlayerState>) {
    forall i, j :: 0 <= i < j < |players| ==> players[i].id != players[j].id && players[i].dogId != players[j].dogId
  }

  ghost predicate GoodIds(g: GameState) {
    && (forall m :: m in g.sessions ==>
          && DistinctDogs(g.sessions[m].dogs)
          && g.sessions[m].id < g.counters.sessions
          && forall id :: id in DogsIn(g.sessions[m]) ==> id < g.counters.dogs)
    && (forall m1, m2 :: m1 in g.sessions && m2 in g.sessions && m1 != m2 ==>
          && g.sessions[m1].id != g.sessions[m2].id
          && DogsIn(g.sessions[m1]) !! DogsIn(g.sessions[m2]))
    && DistinctPlayers(g.players)
    && forall p :: p in g.players ==> p.id < g.counters.players
  }

  ghost predicate HasOwner(g: GameState, sessionId: nat, dogId: nat) {
    exists p :: p in g.players && p.sessionId == sessionId && p.dogId == dogId
  }

  ghost predicate HasDog(g: GameState, p: PlayerState) {
    exists m :: m in g.sessions && g.sessions[m].id == p.sessionId && p.dogId in DogsIn(g.sessions[m])
  }

  ghost predicate GoodLinks(g: GameState) {
    && (forall p :: p in g.players ==> HasDog(g, p))
    && forall m, id :: m in g.sessions && id in DogsIn(g.sessions[m]) ==> HasOwner(g, g.sessions[m].id, id)
  }

  ghost predicate OwnsSomeDog(g: GameState, i: nat) { exists m, j :: Owns(g, i, m, j) }

  ghost predicate IsOwned(g: GameState, m: string, j: nat) { exists i :: Owns(g, i, m, j) }

  lemma PlayerOwnsSomeDog(g: GameState, i: nat)
    requires GoodLinks(g) && i < |g.players|
    ensures OwnsSomeDog(g, i)
  {
    assert HasDog(g, g.players[i]);
    var m :| m in g.sessions && g.sessions[m].id == g.players[i].sessionId
             && g.players[i].dogId in DogsIn(g.sessions[m]);
    var d :| d in g.sessions[m].dogs && d.id == g.players[i].dogId;
    var j :| 0 <= j < |g.sessions[m].dogs| && g.sessions[m].dogs[j] == d;
    assert Owns(g, i, m, j);
  }

  lemma DogIsOwned(g: GameState, m: string, j: nat)
    requires GoodLinks(g) && m in g.sessions && j < |g.sessions[m].dogs|
    ensures IsOwned(g, m, j)
  {
    var d := g.sessions[m].dogs[j];
    assert d in g.sessions[m].dogs && d.id in DogsIn(g.sessions[m]);
    assert HasOwner(g, g.sessions[m].id, d.id);
    var p :| p in g.players && p.sessionId == g.sessions[m].id && p.dogId == d.id;
    var i :| 0 <= i < |g.players| && g.players[i] == p;
    assert Owns(g, i, m, j);
  }

  /** Each player owns exactly one dog, and each dog has exactly one owner. */
  lemma PlayersAndDogsCorrespond(g: GameState)
    requires GoodIds(g) && GoodLinks(g)
    ensures forall i: nat :: i < |g.players| ==> OwnsSomeDog(g, i)
    ensures forall i, m1, j1, m2, j2 :: Owns(g, i, m1, j1) && Owns(g, i, m2, j2) ==> m1 == m2 && j1 == j2
    ensures forall m, j: nat :: m in g.sessions && j < |g.sessions[m].dogs| ==> IsOwned(g, m, j)
    ensures forall i1, i2, m, j :: Owns(g, i1, m, j) && Owns(g, i2, m, j) ==> i1 == i2
  {
    forall i: nat | i < |g.players| ensures OwnsSomeDog(g, i) {
      PlayerOwnsSomeDog(g, i);
    }
    forall m, j: nat | m in g.sessions && j < |g.sessions[m].dogs| ensures IsOwned(g, m, j) {
      DogIsOwned(g, m, j);
    }
  }

  // ---- joining and acting ----

  lemma JoinKeepsIds(g: GameState, name: string, mapId: string, spawn: Point, token: string, uuid: string)
    requires GoodIds(g) && GoodLinks(g) && mapId in g.maps
    ensures GoodIds(Joined(g, name, mapId, spawn, token, uuid))
  {
    var g' := Joined(g, name, mapId, spawn, token, uuid);
    var (s, s') := (SessionOf(g, mapId), g'.sessions[mapId]);
    IdsWithLast(s.dogs, NewDog(g.counters.dogs, name, spawn, uuid, g.clock));
    assert DogsIn(s') == DogsIn(s) + {g.counters.dogs};
    forall i, j | 0 <= i < j < |s'.dogs| ensures s'.dogs[i].id != s'.dogs[j].id {
      if j == |s.dogs| { assert s.dogs[i].id in DogsIn(s); }
    }
    forall i, j | 0 <= i < j < |g'.players|
      ensures g'.players[i].id != g'.players[j].id && g'.players[i].dogId != g'.players[j].dogId
    {
      if j == |g.players| {
        assert g.players[i] in g.players && HasDog(g, g.players[i]);
      }
    }
  }

  lemma IdsWithLast(dogs: seq<DogState>, d: DogState)
    ensures IdsOf(dogs + [d]) == IdsOf(dogs) + {d.id}
  {
    assert forall e :: e in dogs + [d] <==> e in dogs || e == d;
  }

  lemma JoinKeepsLinks(g: GameState, name: string, mapId: string, spawn: Point, token: string, uuid: string)
    requires GoodLinks(g) && mapId in g.maps
    ensures GoodLinks(Joined(g, name, mapId, spawn, token, uuid))
  {
    var g' := Joined(g, name, mapId, spawn, token, uuid);
    var (s, s') := (SessionOf(g, mapId), g'.sessions[mapId]);
    IdsWithLast(s.dogs, s'.dogs[|s.dogs|]);
    forall p | p in g'.players ensures HasDog(g', p) {
      if p in g.players {
        assert HasDog(g, p);
        var m :| m in g.sessions && g.sessions[m].id == p.sessionId && p.dogId in DogsIn(g.sessions[m]);
        assert m in g'.sessions && g'.sessions[m].id == p.sessionId && p.dogId in DogsIn(g'.sessions[m]);
      } else {
        assert mapId in g'.sessions && s'.id == p.sessionId && p.dogId in DogsIn(s');
      }
    }
    forall m, id | m in g'.sessions && id in DogsIn(g'.sessions[m]) ensures HasOwner(g', g'.sessions[m].id, id) {
      if m in g.sessions && id in DogsIn(g.sessions[m]) {
        var p :| p in g.players && p.sessionId == g.sessions[m].id && p.dogId == id;
        assert p in g'.players;
      } else {
        assert g'.players[|g.players|] in g'.players;
      }
    }
  }

  /** Requests that keep the ids of the dogs of every session keep everything about identities. */
  ghost predicate SameIdentities(g: GameState, g': GameState) {
    && g'.sessions.Keys == g.sessions.Keys && g'.players == g.players
    && forall m :: m in g.sessions ==>
         g'.sessions[m].id == g.sessions[m].id && SameIds(g.sessions[m].dogs, g'.sessions[m].dogs)
  }

  ghost predicate SameIds(dogs: seq<DogState>, dogs': seq<DogState>) {
    |dogs'| == |dogs| && forall i :: 0 <= i < |dogs| ==> dogs'[i].id == dogs[i].id
  }

  lemma SameIdsSameSet(dogs: seq<DogState>, dogs': seq<DogState>)
    requires SameIds(dogs, dogs')
    ensures IdsOf(dogs') == IdsOf(dogs)
    ensures DistinctDogs(dogs) ==> DistinctDogs(dogs')
  {
    forall id | id in IdsOf(dogs') ensures id in IdsOf(dogs) {
      var i :| 0 <= i < |dogs'| && dogs'[i].id == id;
      assert dogs[i] in dogs;
    }
    forall id | id in IdsOf(dogs) ensures id in IdsOf(dogs') {
      var i :| 0 <= i < |dogs| && dogs[i].id == id;
      assert dogs'[i] in dogs';
    }
  }

  lemma SameIdentitiesKeepLinks(g: GameState, g': GameState)
    requires SameIdentities(g, g') && GoodLinks(g)
    ensures GoodLinks(g')
    ensures forall m :: m in g.sessions ==> DogsIn(g'.sessions[m]) == DogsIn(g.sessions[m])
    ensures forall m :: m in g.sessions && DistinctDogs(g.sessions[m].dogs) ==> DistinctDogs(g'.sessions[m].dogs)
  {
    forall m | m in g.sessions ensures DogsIn(g'.sessions[m]) == DogsIn(g.sessions[m])
      ensures DistinctDogs(g.sessions[m].dogs) ==> DistinctDogs(g'.sessions[m].dogs)
    {
      SameIdsSameSet(g.sessions[m].dogs, g'.sessions[m].dogs);
    }
    forall p | p in g'.players ensures HasDog(g', p) {
      var m :| m in g.sessions && g.sessions[m].id == p.sessionId && p.dogId in DogsIn(g.sessions[m]);
      assert m in g'.sessions;
    }
    forall m, id | m in g'.sessions && id in DogsIn(g'.sessions[m]) ensures HasOwner(g', g'.sessions[m].id, id) {
      assert HasOwner(g, g.sessions[m].id, id);
    }
  }

  lemma ActKeepsIdentities(g: GameState, mapId: string, j: nat, move: string)
    requires GoodIds(g) && GoodLinks(g) && mapId in g.sessions && j < |g.sessions[mapId].dogs|
    ensures GoodIds(Acted(g, mapId, j, move)) && GoodLinks(Acted(g, mapId, j, move))
  {
    var g' := Acted(g, mapId, j, move);
    assert SameIdentities(g, g');
    SameIdentitiesKeepLinks(g, g');
  }

  // ---- retirement ----

  lemma {:induction false} StayingIds(dogs: seq<DogState>, limit: real)
    requires DistinctDogs(dogs)
    ensures DistinctDogs(Staying(dogs, limit))
    ensures IdsOf(Staying(dogs, limit)) == IdsOf(dogs) - IdsOf(Retiring(dogs, limit))
    ensures IdsOf(Retiring(dogs, limit)) <= IdsOf(dogs)
  {
    if dogs == [] {
    } else {
      var (front, last) := (dogs[..|dogs| - 1], dogs[|dogs| - 1]);
      StayingIds(front, limit);
      assert dogs == front + [last];
      IdsWithLast(front, last);
      IdsWithLast(Staying(front, limit), last);
      IdsWithLast(Retiring(front, limit), last);
      assert last.id !in IdsOf(front);
    }
  }

  lemma {:induction false} PlayersWithoutStayDistinct(players: seq<PlayerState>, gone: set<nat>)
    requires DistinctPlayers(players)
    ensures DistinctPlayers(PlayersWithout(players, gone))
  {
    if players == [] {
    } else {
      var (front, last) := (players[..|players| - 1], players[|players| - 1]);
      PlayersWithoutStayDistinct(front, gone);
      var kept := PlayersWithout(front, gone);
      forall i | 0 <= i < |kept| ensures kept[i].id != last.id && kept[i].dogId != last.dogId {
        assert kept[i] in front;
      }
    }
  }

  lemma HarvestKeepsIds(s: SessionState, nextLoot: nat, dt: real, c: Choice)
    requires IsChoice(s, nextLoot, dt, c)
    ensures InRange(c.events, |c.moved|)
    ensures SameIds(s.dogs, Harvested(s, c).dogs)
  {
    EventsInRange(s, nextLoot, dt, c);
    ReplayChangesOnlyHauls(Start(s, c), c.events, s.gameMap.bagCapacity);
    forall i | 0 <= i < |s.dogs| ensures Harvested(s, c).dogs[i].id == s.dogs[i].id {
      assert DogMoved(s.gameMap.roads, dt, s.dogs[i], c.moved[i]);
      assert SameButHaul(c.moved[i], Harvested(s, c).dogs[i]);
    }
  }

  /** After a session's part of a tick its dogs are the old ones without the retired. */
  lemma TickIds(g: GameState, mapId: string, dt: real, c: Choice)
    requires GoodIds(g) && mapId in g.sessions
    requires IsChoice(g.sessions[mapId], g.counters.loot, dt, c)
    ensures InRange(c.events, |c.moved|)
    ensures var gone := IdsOf(Retiring(Harvested(g.sessions[mapId], c).dogs, g.retirementTime));
      var s' := AfterTick(g, mapId, c).sessions[mapId];
      && gone <= DogsIn(g.sessions[mapId])
      && DogsIn(s') == DogsIn(g.sessions[mapId]) - gone
      && DistinctDogs(s'.dogs)
  {
    var s := g.sessions[mapId];
    HarvestKeepsIds(s, g.counters.loot, dt, c);
    SameIdsSameSet(s.dogs, Harvested(s, c).dogs);
    StayingIds(Harvested(s, c).dogs, g.retirementTime);
  }

  lemma TickKeepsIds(g: GameState, mapId: string, dt: real, c: Choice)
    requires GoodIds(g) && mapId in g.sessions
    requires IsChoice(g.sessions[mapId], g.counters.loot, dt, c)
    ensures InRange(c.events, |c.moved|)
    ensures GoodIds(AfterTick(g, mapId, c))
  {
    TickIds(g, mapId, dt, c);
    var gone := IdsOf(Retiring(Harvested(g.sessions[mapId], c).dogs, g.retirementTime));
    PlayersWithoutStayDistinct(g.players, gone);
  }

  lemma TickKeepsLinks(g: GameState, mapId: string, dt: real, c: Choice)
    requires GoodIds(g) && GoodLinks(g) && mapId in g.sessions
    requires IsChoice(g.sessions[mapId], g.counters.loot, dt, c)
    ensures InRange(c.events, |c.moved|)
    ensures GoodLinks(AfterTick(g, mapId, c))
  {
    TickIds(g, mapId, dt, c);
    LinksAfterRetirement(g, AfterTick(g, mapId, c),
                         IdsOf(Retiring(Harvested(g.sessions[mapId], c).dogs, g.retirementTime)));
  }

  lemma LinksAfterRetirement(g: GameState, g': GameState, gone: set<nat>)
    requires GoodLinks(g) && g'.sessions.Keys == g.sessions.Keys
    requires forall m :: m in g.sessions ==>
               g'.sessions[m].id == g.sessions[m].id && DogsIn(g'.sessions[m]) == DogsIn(g.sessions[m]) - gone
    requires g'.players == PlayersWithout(g.players, gone)
    ensures GoodLinks(g')
  {
    forall p | p in g'.players ensures HasDog(g', p) {
      assert HasDog(g, p);
      var m :| m in g.sessions && g.sessions[m].id == p.sessionId && p.dogId in DogsIn(g.sessions[m]);
      assert m in g'.sessions && g'.sessions[m].id == p.sessionId && p.dogId in DogsIn(g'.sessions[m]);
    }
    forall m, id | m in g'.sessions && id in DogsIn(g'.sessions[m]) ensures HasOwner(g', g'.sessions[m].id, id) {
      assert id in DogsIn(g.sessions[m]) && HasOwner(g, g.sessions[m].id, id);
      var p :| p in g.players && p.sessionId == g.sessions[m].id && p.dogId == id;
      assert p in g'.players;
    }
  }

  /** Retirement does not touch the dogs of other sessions or their players. */
  lemma RetirementIsLocal(g: GameState, mapId: string, dt: real, c: Choice)
    requires GoodIds(g) && GoodLinks(g) && mapId in g.sessions
    requires IsChoice(g.sessions[mapId], g.counters.loot, dt, c)
    ensures InRange(c.events, |c.moved|)
    ensures var g' := AfterTick(g, mapId, c);
      && (forall m :: m in g.sessions && m != mapId ==> g'.sessions[m] == g.sessions[m])
      && forall p :: p in g.players && p.sessionId != g.sessions[mapId].id ==> p in g'.players
  {
    TickIds(g, mapId, dt, c);
    forall p | p in g.players && p.sessionId != g.sessions[mapId].id ensures p in AfterTick(g, mapId, c).players {
      assert HasDog(g, p);
    }
  }

  // ---- restarting ----

  lemma RestartKeepsIdentities(g: GameState, uuids: nat -> string, joinTimes: nat -> int)
    requires GoodIds(g) && GoodLinks(g)
    ensures GoodIds(Restarted(g, uuids, joinTimes)) && GoodLinks(Restarted(g, uuids, joinTimes))
  {
    var g' := Restarted(g, uuids, joinTimes);
    forall m | m in g.sessions ensures SameIds(g.sessions[m].dogs, g'.sessions[m].dogs) {
      RestoredDogs(g.sessions[m], uuids, joinTimes);
    }
    assert SameIdentities(g, g');
    SameIdentitiesKeepLinks(g, g');
    forall m, id | m in g'.sessions && id in DogsIn(g'.sessions[m]) ensures id < g'.counters.dogs {
      assert id in DogsIn(g.sessions[m]) && SomeDog(g);
    }
  }
}
