/**
 * In every reachable state all loot, on the ground or in a bag, is what the map's configuration says:
 * of a kind of the map, with the value of that kind, and from a grid point of a road. Dogs are 0.6
 * wide and loot is a point.
 */
module Wares {
  import opened Entities
  import opened GameStates
  import opened Geometry
  import opened LootPlaces
  import opened Replay
  import opened Roads
  import opened Runs
  import opened Terrain

  /** A point with whole coordinates between the ends of the road. */
  ghost predicate IsOnGridOf(r: Road, p: Point) {
    exists x: int, y: int ::
      IsInRange(r.start.x, r.End().x, x) && IsInRange(r.start.y, r.End().y, y) && p == Point(x as real, y as real)
  }

  ghost predicate IsWare(gameMap: GameMap, l: Loot) {
    && l.kind < |gameMap.lootValues| && l.value == gameMap.lootValues[l.kind] && l.width == 0.0
    && exists r :: r in gameMap.roads && IsOnGridOf(r, l.position)
  }

  ghost predicate GoodWares(s: SessionState) {
    && (forall l :: l in HeldIn(s) ==> IsWare(s.gameMap, l))
    && forall d :: d in s.dogs ==> d.width == 0.6
  }

  ghost predicate AllGoodWares(g: GameState) { forall m :: m in g.sessions ==> GoodWares(g.sessions[m]) }

  lemma NewLootIsWare(gameMap: GameMap, l: Loot, id: nat)
    requires IsNewLoot(gameMap, l, id)
    ensures IsWare(gameMap, l)
  {
    var r, x: int, y: int :|
      r in gameMap.roads && IsGridPoint(r, x, y) && l.position == Point(x as real, y as real);
    assert IsInRange(r.start.x, r.End().x, x) && IsInRange(r.start.y, r.End().y, y);
    assert IsOnGridOf(r, l.position);
  }

  lemma JoinKeepsWares(g: GameState, name: string, mapId: string, spawn: Point, token: string, uuid: string)
    requires AllGoodWares(g) && mapId in g.maps
    ensures AllGoodWares(Joined(g, name, mapId, spawn, token, uuid))
  {
    JoinedSession(g, name, mapId, spawn, token, uuid);
    JoinHolds(g, name, mapId, spawn, token, uuid);
  }

  lemma ActKeepsWares(g: GameState, mapId: string, j: nat, move: string)
    requires AllGoodWares(g) && mapId in g.sessions && j < |g.sessions[mapId].dogs|
    ensures AllGoodWares(Acted(g, mapId, j, move))
  {
    var (dogs, dogs') := (g.sessions[mapId].dogs, Acted(g, mapId, j, move).sessions[mapId].dogs);
    EqualBags(dogs, dogs');
    assert GoodWares(g.sessions[mapId]) && dogs[j] in dogs;
    forall d | d in dogs' ensures d.width == 0.6 {
      var i :| 0 <= i < |dogs'| && dogs'[i] == d;
      assert dogs[i] in dogs;
    }
  }

  lemma HarvestKeepsWidths(s: SessionState, nextLoot: nat, dt: real, c: Choice, i: nat)
    requires IsChoice(s, nextLoot, dt, c) && i < |s.dogs|
    ensures InRange(c.events, |c.moved|) && |c.moved| == |s.dogs|
    ensures c.moved[i].width == s.dogs[i].width && Harvested(s, c).dogs[i].width == s.dogs[i].width
  {
    EventsInRange(s, nextLoot, dt, c);
    ReplayChangesOnlyHauls(Start(s, c), c.events, s.gameMap.bagCapacity);
    assert DogMoved(s.gameMap.roads, dt, s.dogs[i], c.moved[i]);
    assert SameButHaul(c.moved[i], Harvested(s, c).dogs[i]);
  }

  lemma SpawnedAreWares(
    gameMap: GameMap, held: multiset<Loot>, nextLoot: nat, spawned: seq<Loot>, held': multiset<Loot>)
    requires forall l :: l in held ==> IsWare(gameMap, l)
    requires forall i :: 0 <= i < |spawned| ==> IsNewLoot(gameMap, spawned[i], nextLoot + i)
    requires held' <= held + multiset(spawned)
    ensures forall l :: l in held' ==> IsWare(gameMap, l)
  {
    forall l | l in held' ensures IsWare(gameMap, l) {
      assert l in held + multiset(spawned);
      if l !in held {
        var i :| 0 <= i < |spawned| && spawned[i] == l;
        NewLootIsWare(gameMap, l, nextLoot + i);
      }
    }
  }

  lemma PartKeepsWidths(s: SessionState, nextLoot: nat, dt: real, c: Choice, limit: real)
    requires IsChoice(s, nextLoot, dt, c) && forall d :: d in s.dogs ==> d.width == 0.6
    ensures InRange(c.events, |c.moved|)
    ensures forall d :: d in Staying(Harvested(s, c).dogs, limit) ==> d.width == 0.6
  {
    EventsInRange(s, nextLoot, dt, c);
    var dogs := Harvested(s, c).dogs;
    forall d | d in dogs ensures d.width == 0.6 {
      var i :| 0 <= i < |dogs| && dogs[i] == d;
      HarvestKeepsWidths(s, nextLoot, dt, c, i);
      assert s.dogs[i] in s.dogs;
    }
  }

  lemma PartKeepsWares(g: GameState, mapId: string, dt: real, c: Choice)
    requires AllGoodWares(g) && mapId in g.sessions && IsChoice(g.sessions[mapId], g.counters.loot, dt, c)
    ensures InRange(c.events, |c.moved|) && AllGoodWares(AfterTick(g, mapId, c))
  {
    var s := g.sessions[mapId];
    assert GoodWares(s);
    TickHolds(g, mapId, dt, c);
    SpawnedAreWares(s.gameMap, HeldIn(s), g.counters.loot, c.spawned, HeldIn(AfterTick(g, mapId, c).sessions[mapId]));
    PartKeepsWidths(s, g.counters.loot, dt, c, g.retirementTime);
  }

  lemma {:induction false} TickKeepsWares(g: GameState, dt: int, order: seq<string>, choices: seq<Choice>)
    requires AllGoodWares(g) && AreChoices(g, dt, order, choices)
    ensures AllGoodWares(Ticked(g, order, choices))
    decreases |order|
  {
    if order == [] {
    } else {
      var n := |order| - 1;
      LastTicked(g, dt, order, choices);
      TickKeepsWares(g, dt, order[..n], choices[..n]);
      PartKeepsWares(Ticked(g, order[..n], choices[..n]), order[n], dt as real / MS_IN_SECONDS, choices[n]);
    }
  }

  lemma RestartKeepsWares(g: GameState, uuids: nat -> string, joinTimes: nat -> int)
    requires AllGoodWares(g)
    ensures AllGoodWares(Restarted(g, uuids, joinTimes))
  {
    RestartedHolds(g, uuids, joinTimes);
    forall m | m in g.sessions ensures GoodWares(Restarted(g, uuids, joinTimes).sessions[m]) {
      assert GoodWares(g.sessions[m]);
      RestoredDogs(g.sessions[m], uuids, joinTimes);
    }
  }

  lemma RequestKeepsWares(g: GameState, r: Request)
    requires AllGoodWares(g) && Possible(g, r)
    ensures AllGoodWares(Served(g, r))
  {
    match r
    case Join(name, mapId, spawn, token, uuid) => JoinKeepsWares(g, name, mapId, spawn, token, uuid);
    case Act(player, mapId, dog, move) => ActKeepsWares(g, mapId, dog, move);
    case Tick(dt, order, choices) => TickKeepsWares(Advanced(g, dt), dt, order, choices);
    case Restart(uuids, joinTimes) => RestartKeepsWares(g, uuids, joinTimes);
  }

  lemma {:induction false} RunKeepsWares(g: GameState, requests: seq<Request>)
    requires IsInitial(g) && IsRun(g, requests)
    ensures AllGoodWares(AfterRun(g, requests))
    decreases |requests|
  {
    if requests == [] {
    } else {
      var n := |requests| - 1;
      RunKeepsWares(g, requests[..n]);
      RequestKeepsWares(AfterRun(g, requests[..n]), requests[n]);
    }
  }

  /** In every reachable state all loot is a ware of its session's map, in whichever place it is. */
  lemma LootIsWare(g: GameState, requests: seq<Request>, m: string, l: Loot, p: Place)
    requires IsInitial(g) && IsRun(g, requests) && m in AfterRun(g, requests).sessions
    requires IsAt(AfterRun(g, requests).sessions[m], l, p)
    ensures m in AfterRun(g, requests).maps && IsWare(AfterRun(g, requests).maps[m], l)
  {
    RunKeepsInv(g, requests);
    RunKeepsWares(g, requests);
    PlaceIsHeld(AfterRun(g, requests).sessions[m], l, p);
    assert GoodWares(AfterRun(g, requests).sessions[m]);
  }
}
