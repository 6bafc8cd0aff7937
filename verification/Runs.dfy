/** Whole runs: from a fresh server through any sequence of requests. */
module Runs {
  import opened Bookkeeping
  import opened Clocks
  import opened Entities
  import opened GameStates
  import opened LootPlaces
  import opened Motion
  import opened Peaks
  import opened Registry
  import opened Replay
  import opened Roads
  import opened Terrain

  /** Everything that holds at all times, even between two sessions' parts of one tick. */
  ghost predicate Sound(g: GameState) {
    && GoodTerrain(g) && WithinPeaks(g) && Balanced(g) && GoodIds(g) && GoodLinks(g) && GoodLoot(g)
  }

  lemma SessionTickKeepsSound(g: GameState, mapId: string, dt: real, c: Choice)
    requires Sound(g) && mapId in g.sessions && dt >= 0.0
    requires IsChoice(g.sessions[mapId], g.counters.loot, dt, c)
    ensures InRange(c.events, |c.moved|)
    ensures Sound(AfterTick(g, mapId, c))
  {
    TickKeepsTerrain(g, mapId, dt, c);
    TickKeepsPeaks(g, mapId, dt, c);
    TickKeepsBalance(g, mapId, dt, c);
    TickKeepsIds(g, mapId, dt, c);
    TickKeepsLinks(g, mapId, dt, c);
    TickKeepsPlaces(g, mapId, dt, c);
  }

  function SetOf(order: seq<string>): set<string> { set m | m in order }

  /** The sessions in `done`, and only they, have had their part of the tick and retired their dogs. */
  ghost predicate PartlyTicked(g: GameState, b: GameState, done: set<string>) {
    && b.sessions.Keys == g.sessions.Keys
    && (forall m :: m in g.sessions && m !in done ==> b.sessions[m] == g.sessions[m])
    && forall m :: m in done && m in g.sessions ==> RetiredOnTime(b, m, DogsIn(g.sessions[m]))
  }

  lemma OneMoreTicked(g: GameState, b: GameState, done: set<string>, dt: int, mapId: string, c: Choice)
    requires GoodIds(g) && GoodIds(b) && MidTick(b, done, dt) && dt >= 0
    requires PartlyTicked(g, b, done) && mapId in g.sessions && mapId !in done
    requires IsChoice(b.sessions[mapId], b.counters.loot, dt as real / MS_IN_SECONDS, c)
    ensures InRange(c.events, |c.moved|)
    ensures PartlyTicked(g, AfterTick(b, mapId, c), done + {mapId})
  {
    TickRetiresOnTime(b, mapId, dt, c);
    forall m | m in done && m in g.sessions ensures RetiredOnTime(AfterTick(b, mapId, c), m, DogsIn(g.sessions[m])) {
      TickKeepsRetirement(b, mapId, dt as real / MS_IN_SECONDS, c, m, DogsIn(g.sessions[m]));
    }
  }

  lemma LastTicked(g: GameState, dt: int, order: seq<string>, choices: seq<Choice>)
    requires order != [] && AreChoices(g, dt, order, choices)
    ensures |choices| == |order| && AreChoices(g, dt, order[..|order| - 1], choices[..|order| - 1])
    ensures var b := Ticked(g, order[..|order| - 1], choices[..|order| - 1]);
      var (m, c) := (order[|order| - 1], choices[|order| - 1]);
      && m in b.sessions && IsChoice(b.sessions[m], b.counters.loot, dt as real / MS_IN_SECONDS, c)
      && InRange(c.events, |c.moved|) && Ticked(g, order, choices) == AfterTick(b, m, c)
  {
    var b := Ticked(g, order[..|order| - 1], choices[..|order| - 1]);
    EventsInRange(b.sessions[order[|order| - 1]], b.counters.loot, dt as real / MS_IN_SECONDS, choices[|order| - 1]);
  }

  /** The state `b` after all sessions but the last had their part passes its soundness on. */
  lemma LastTickKeepsSound(g: GameState, dt: int, order: seq<string>, choices: seq<Choice>, b: GameState)
    requires order != [] && dt >= 0 && AreChoices(g, dt, order, choices)
    requires b == Ticked(g, order[..|order| - 1], choices[..|order| - 1]) && Sound(b)
    ensures Sound(Ticked(g, order, choices))
  {
    LastTicked(g, dt, order, choices);
    SessionTickKeepsSound(b, order[|order| - 1], dt as real / MS_IN_SECONDS, choices[|order| - 1]);
  }

  lemma {:induction false} PrefixIsSound(g: GameState, dt: int, order: seq<string>, choices: seq<Choice>)
    requires Sound(g) && dt >= 0 && AreChoices(g, dt, order, choices)
    ensures Sound(Ticked(g, order, choices))
    decreases |order|
  {
    if order == [] {
    } else {
      var n := |order| - 1;
      PrefixIsSound(g, dt, order[..n], choices[..n]);
      LastTickKeepsSound(g, dt, order, choices, Ticked(g, order[..n], choices[..n]));
    }
  }

  lemma {:induction false} PrefixKeepsIds(g: GameState, dt: int, order: seq<string>, choices: seq<Choice>)
    requires GoodIds(g) && AreChoices(g, dt, order, choices)
    ensures GoodIds(Ticked(g, order, choices))
    decreases |order|
  {
    if order == [] {
    } else {
      var n := |order| - 1;
      LastTicked(g, dt, order, choices);
      PrefixKeepsIds(g, dt, order[..n], choices[..n]);
      TickKeepsIds(Ticked(g, order[..n], choices[..n]), order[n], dt as real / MS_IN_SECONDS, choices[n]);
    }
  }

  lemma {:induction false} PrefixTicked(g: GameState, dt: int, order: seq<string>, choices: seq<Choice>)
    requires GoodIds(g) && MidTick(g, {}, dt) && dt >= 0
    requires forall i, j :: 0 <= i < j < |order| ==> order[i] != order[j]
    requires AreChoices(g, dt, order, choices)
    ensures MidTick(Ticked(g, order, choices), SetOf(order), dt)
    ensures PartlyTicked(g, Ticked(g, order, choices), SetOf(order))
    decreases |order|
  {
    if order == [] {
    } else {
      var n := |order| - 1;
      LastTicked(g, dt, order, choices);
      PrefixKeepsIds(g, dt, order[..n], choices[..n]);
      PrefixTicked(g, dt, order[..n], choices[..n]);
      SetOfWithLast(order);
      var b := Ticked(g, order[..n], choices[..n]);
      NextTicked(g, b, SetOf(order[..n]), dt, order[n], choices[n]);
    }
  }

  lemma NextTicked(g: GameState, b: GameState, done: set<string>, dt: int, mapId: string, c: Choice)
    requires GoodIds(g) && GoodIds(b) && MidTick(b, done, dt) && dt >= 0
    requires PartlyTicked(g, b, done) && mapId in b.sessions && mapId !in done
    requires IsChoice(b.sessions[mapId], b.counters.loot, dt as real / MS_IN_SECONDS, c)
    ensures InRange(c.events, |c.moved|)
    ensures MidTick(AfterTick(b, mapId, c), done + {mapId}, dt)
    ensures PartlyTicked(g, AfterTick(b, mapId, c), done + {mapId})
  {
    TickKeepsClock(b, mapId, done, dt, c);
    OneMoreTicked(g, b, done, dt, mapId, c);
  }

  lemma SetOfWithLast(order: seq<string>)
    requires order != [] && forall i, j :: 0 <= i < j < |order| ==> order[i] != order[j]
    ensures SetOf(order) == SetOf(order[..|order| - 1]) + {order[|order| - 1]}
    ensures order[|order| - 1] !in SetOf(order[..|order| - 1])
  {
    assert order == order[..|order| - 1] + [order[|order| - 1]];
  }

  /** The invariant of the game at request boundaries. */
  ghost predicate Inv(g: GameState) { Sound(g) && GoodClock(g) }

  lemma AdvancingKeepsIdentities(g: GameState, dt: int)
    requires GoodIds(g) && GoodLinks(g)
    ensures GoodIds(Advanced(g, dt)) && GoodLinks(Advanced(g, dt))
  {
    SameIdentitiesKeepLinks(g, Advanced(g, dt));
  }

  lemma AdvancingKeepsLoot(g: GameState, dt: int)
    requires GoodLoot(g)
    ensures GoodLoot(Advanced(g, dt))
  {
    SameLootKeepsPlaces(g, Advanced(g, dt));
  }

  lemma AdvancingStartsTick(g: GameState, dt: int)
    requires GoodClock(g)
    ensures MidTick(Advanced(g, dt), {}, dt)
  {
    forall m | m in g.sessions ensures AllOnTime(g.sessions[m], g.history, Advanced(g, dt).clock - dt) {
      assert Advanced(g, dt).clock - dt == g.clock;
    }
  }

  lemma AdvancingIsSound(g: GameState, dt: int)
    requires Inv(g)
    ensures Sound(Advanced(g, dt)) && MidTick(Advanced(g, dt), {}, dt)
  {
    AdvancingKeepsIdentities(g, dt);
    AdvancingKeepsLoot(g, dt);
    AdvancingStartsTick(g, dt);
    AdvancingKeepsRest(g, dt);
  }

  lemma AdvancingKeepsRest(g: GameState, dt: int)
    requires GoodTerrain(g) && WithinPeaks(g) && Balanced(g)
    ensures GoodTerrain(Advanced(g, dt)) && WithinPeaks(Advanced(g, dt)) && Balanced(Advanced(g, dt))
  {
  }

  lemma WholeTickIsOnTime(g: GameState, dt: int, order: seq<string>, choices: seq<Choice>)
    requires GoodIds(g) && MidTick(g, {}, dt) && dt >= 0
    requires IsOrder(order, g.sessions) && AreChoices(g, dt, order, choices)
    ensures GoodClock(Ticked(g, order, choices))
    ensures forall m :: m in g.sessions ==> RetiredOnTime(Ticked(g, order, choices), m, DogsIn(g.sessions[m]))
  {
    PrefixTicked(g, dt, order, choices);
    assert forall m :: m in g.sessions ==> m in SetOf(order);
  }

  lemma WholeTick(g: GameState, dt: int, order: seq<string>, choices: seq<Choice>)
    requires Inv(g) && Possible(g, Tick(dt, order, choices))
    ensures Inv(Served(g, Tick(dt, order, choices)))
    ensures forall m :: m in g.sessions ==>
              RetiredOnTime(Served(g, Tick(dt, order, choices)), m, DogsIn(g.sessions[m]))
  {
    AdvancingIsSound(g, dt);
    PrefixIsSound(Advanced(g, dt), dt, order, choices);
    WholeTickIsOnTime(Advanced(g, dt), dt, order, choices);
  }

  lemma InvAtStart(g: GameState)
    requires IsInitial(g)
    ensures Inv(g)
  {
  }

  lemma RequestKeepsInv(g: GameState, r: Request)
    requires Inv(g) && Possible(g, r)
    ensures Inv(Served(g, r))
  {
    match r
    case Join(name, mapId, spawn, token, uuid) =>
      JoinKeepsTerrain(g, name, mapId, spawn, token, uuid);
      JoinKeepsPeaks(g, name, mapId, spawn, token, uuid);
      JoinKeepsBalance(g, name, mapId, spawn, token, uuid);
      JoinKeepsIds(g, name, mapId, spawn, token, uuid);
      JoinKeepsLinks(g, name, mapId, spawn, token, uuid);
      JoinKeepsPlaces(g, name, mapId, spawn, token, uuid);
      JoinKeepsClock(g, name, mapId, spawn, token, uuid);
    case Act(player, mapId, dog, move) =>
      ActKeepsTerrain(g, mapId, dog, move);
      ActKeepsPeaks(g, mapId, dog, move);
      ActKeepsBalance(g, mapId, dog, move);
      ActKeepsIdentities(g, mapId, dog, move);
      ActKeepsPlaces(g, mapId, dog, move);
      ActKeepsClock(g, mapId, dog, move);
    case Tick(dt, order, choices) =>
      WholeTick(g, dt, order, choices);
    case Restart(uuids, joinTimes) =>
      RestartKeepsTerrain(g, uuids, joinTimes);
      RestartKeepsPeaks(g, uuids, joinTimes);
      RestartKeepsBalance(g, uuids, joinTimes);
      RestartKeepsIdentities(g, uuids, joinTimes);
      RestartKeepsPlaces(g, uuids, joinTimes);
      RestartKeepsClock(g, uuids, joinTimes);
  }

  lemma {:induction false} RunKeepsInv(g: GameState, requests: seq<Request>)
    requires IsInitial(g) && IsRun(g, requests)
    ensures Inv(AfterRun(g, requests))
    decreases |requests|
  {
    if requests == [] {
      InvAtStart(g);
    } else {
      var n := |requests| - 1;
      RunKeepsInv(g, requests[..n]);
      RequestKeepsInv(AfterRun(g, requests[..n]), requests[n]);
    }
  }

  // ---- what a run guarantees ----

  /** In every reachable state every dog is on a road of its map, and heading and velocity agree. */
  lemma DogsStayOnRoads(g: GameState, requests: seq<Request>, m: string, d: DogState)
    requires IsInitial(g) && IsRun(g, requests)
    requires m in AfterRun(g, requests).sessions && d in AfterRun(g, requests).sessions[m].dogs
    ensures var s := AfterRun(g, requests).sessions[m];
      && s.gameMap.id == m
      && OnSomeRoad(d.position, s.gameMap.roads)
      && Coherent(d.direction, d.speed)
      && |d.bag| <= s.gameMap.bagCapacity
  {
    RunKeepsInv(g, requests);
    GoodDogStands(AfterRun(g, requests), m, d);
  }

  lemma GoodDogStands(g: GameState, m: string, d: DogState)
    requires GoodTerrain(g) && m in g.sessions && d in g.sessions[m].dogs
    ensures g.sessions[m].gameMap.id == m && GoodDog(g.sessions[m].gameMap, d)
  {
    assert GoodDogs(g.maps[m], g.sessions[m].dogs);
  }

  /** In every reachable state the books balance; exactly, while less than 2^32 has been generated. */
  lemma BooksBalance(g: GameState, requests: seq<Request>)
    requires IsInitial(g) && IsRun(g, requests)
    ensures var g' := AfterRun(g, requests);
      && Conserved(g'.history.generated, Ledger(g'))
      && (g'.history.generated < TWO_TO_32 ==> Ledger(g') == g'.history.generated)
  {
    RunKeepsInv(g, requests);
    if AfterRun(g, requests).history.generated < TWO_TO_32 {
      BalancedExactlyWhenSmall(AfterRun(g, requests));
    }
  }

  /** In every reachable state each dog has one owner, each player one dog, and new ids are fresh. */
  lemma OwnershipIsOneToOne(g: GameState, requests: seq<Request>)
    requires IsInitial(g) && IsRun(g, requests)
    ensures var g' := AfterRun(g, requests);
      && (forall i: nat :: i < |g'.players| ==> OwnsSomeDog(g', i))
      && (forall i, m1, j1, m2, j2 :: Owns(g', i, m1, j1) && Owns(g', i, m2, j2) ==> m1 == m2 && j1 == j2)
      && (forall m, j: nat :: m in g'.sessions && j < |g'.sessions[m].dogs| ==> IsOwned(g', m, j))
      && (forall i1, i2, m, j :: Owns(g', i1, m, j) && Owns(g', i2, m, j) ==> i1 == i2)
    ensures var g' := AfterRun(g, requests);
      && g'.counters.dogs !in LiveDogs(g')
      && (forall p :: p in g'.players ==> p.id < g'.counters.players)
      && forall m :: m in g'.sessions ==> g'.sessions[m].id < g'.counters.sessions
  {
    RunKeepsInv(g, requests);
    PlayersAndDogsCorrespond(AfterRun(g, requests));
  }

  /** In every reachable state two places of a session never hold the same loot, nor the same loot id. */
  lemma LootHasOnePlace(
    g: GameState, requests: seq<Request>, m1: string, l1: Loot, p1: Place, m2: string, l2: Loot, p2: Place)
    requires IsInitial(g) && IsRun(g, requests)
    requires m1 in AfterRun(g, requests).sessions && m2 in AfterRun(g, requests).sessions
    requires IsAt(AfterRun(g, requests).sessions[m1], l1, p1) && IsAt(AfterRun(g, requests).sessions[m2], l2, p2)
    requires l1.id == l2.id
    ensures m1 == m2 && p1 == p2 && l1 == l2 && l1.id < AfterRun(g, requests).counters.loot
  {
    RunKeepsInv(g, requests);
    LootIsInOnePlace(AfterRun(g, requests), m1, l1, p1, m2, l2, p2);
  }

  /**
   * In every reachable state a session has no more loot on the ground than its largest number of
   * dogs, and no dog carries loot whose id is not below that number.
   */
  lemma LootIsBoundedByPeak(g: GameState, requests: seq<Request>, m: string)
    requires IsInitial(g) && IsRun(g, requests) && m in AfterRun(g, requests).sessions
    ensures var g' := AfterRun(g, requests);
      && |g'.sessions[m].loot| <= PeakOf(g', m)
      && forall d, l :: d in g'.sessions[m].dogs && l in d.bag ==> l.id < PeakOf(g', m)
  {
    RunKeepsInv(g, requests);
  }

  /**
   * A tick from a reachable state retires exactly the dogs that have then been idle for the
   * retirement time; before the tick no dog had been idle that long, so it is the first such tick.
   */
  lemma DogsRetireOnTime(
    g: GameState, requests: seq<Request>, dt: int, order: seq<string>, choices: seq<Choice>, m: string, d: DogState)
    requires IsInitial(g) && IsRun(g, requests) && Possible(AfterRun(g, requests), Tick(dt, order, choices))
    requires m in AfterRun(g, requests).sessions && d in AfterRun(g, requests).sessions[m].dogs
    ensures var (before, after) := (AfterRun(g, requests), Served(AfterRun(g, requests), Tick(dt, order, choices)));
      && OnTime(d, before.history, before.clock)
      && (d.inactivity < before.retirementTime || d.inactivity == 0.0)
      && m in after.sessions && d.id in after.history.lastActive
      && (d.id in DogsIn(after.sessions[m])
          <==> (after.clock - after.history.lastActive[d.id]) as real < after.retirementTime * MS_IN_SECONDS)
  {
    RunKeepsInv(g, requests);
    WholeTick(AfterRun(g, requests), dt, order, choices);
    assert d.id in DogsIn(AfterRun(g, requests).sessions[m]);
  }
}
