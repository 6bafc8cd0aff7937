/** Joining: whom a request adds to the game, and what it leaves alone. */
module Newcomers {
  import opened Entities
  import opened GameStates
  import opened Geometry
  import opened Meetings
  import opened Motion
  import opened Registry
  import opened Replay
  import opened Roads
  import opened Runs
  import opened SessionTicks

  /** A dog that has just entered the game, at `clock`, and faces north. */
  predicate IsNewcomer(d: DogState, id: nat, name: string, spawn: Point, uuid: string, clock: int) {
    && d.id == id && d.name == name && d.uuid == uuid && d.joinTime == clock
    && d.position == spawn && d.speed == Vec(0.0, 0.0) && d.direction == North && d.width == 0.6
    && d.bag == [] && d.score == 0 && d.inactivity == 0.0 && d.active
  }

  /** Joining adds one dog to the session of the map and one player, who owns it; all others stay. */
  lemma JoinBringsNewcomer(
    g: GameState, name: string, mapId: string, spawn: Point, token: string, uuid: string, joined: GameState)
    requires mapId in g.maps && joined == Joined(g, name, mapId, spawn, token, uuid)
    ensures joined.sessions.Keys == g.sessions.Keys + {mapId}
    ensures forall m :: m in g.sessions && m != mapId ==> joined.sessions[m] == g.sessions[m]
    ensures var dogs := joined.sessions[mapId].dogs;
      && dogs != [] && IsNewcomer(dogs[|dogs| - 1], g.counters.dogs, name, spawn, uuid, g.clock)
      && dogs[..|dogs| - 1] == (if mapId in g.sessions then g.sessions[mapId].dogs else [])
      && joined.sessions[mapId].loot == (if mapId in g.sessions then g.sessions[mapId].loot else [])
      && joined.sessions[mapId].gameMap == (if mapId in g.sessions then g.sessions[mapId].gameMap else g.maps[mapId])
    ensures |joined.players| == |g.players| + 1 && joined.players[..|g.players|] == g.players
    ensures joined.players[|g.players|].token == token && joined.players[|g.players|].id == g.counters.players
    ensures Owns(joined, |g.players|, mapId, |joined.sessions[mapId].dogs| - 1)
    ensures joined.counters.dogs == g.counters.dogs + 1 && joined.counters.players == g.counters.players + 1
    ensures joined.counters.sessions == g.counters.sessions + if mapId in g.sessions then 0 else 1
  {
    var s := SessionOf(g, mapId);
    assert joined.sessions[mapId].dogs == s.dogs + [NewDog(g.counters.dogs, name, spawn, uuid, g.clock)];
  }

  lemma StandingDogStays(roads: seq<Road>, time: real, d: DogState, moved: DogState)
    requires DogMoved(roads, time, d, moved) && d.speed == Vec(0.0, 0.0)
    ensures moved == d.(active := false, inactivity := d.inactivity + time)
  {
    var stopped :| Moves(d.position, d.speed, d.direction, time, roads, moved.position, stopped)
                   && moved == AfterMove(d, moved.position, stopped, time);
  }

  lemma StandingDogInPart(s: SessionState, nextLoot: nat, time: real, c: Choice, i: nat, d: DogState)
    requires IsChoice(s, nextLoot, time, c) && InRange(c.events, |c.moved|)
    requires i < |s.dogs| && s.dogs[i] == d && d.speed == Vec(0.0, 0.0)
    ensures |c.moved| == |s.dogs|
    ensures Harvested(s, c).dogs[i] == d.(active := false, inactivity := d.inactivity + time)
  {
    StandingDogStays(s.gameMap.roads, time, d, c.moved[i]);
    UnmovedDogMeetsNothing(s, nextLoot, time, c, i);
  }

  /** A dog that stands only gets older in a tick, whatever goes on around it. */
  lemma StandingDogOnlyWaits(
    g: GameState, s: SessionState, m: string, dt: int, order: seq<string>, choices: seq<Choice>,
    d: DogState, d': DogState, time: real)
    requires m in g.sessions && s == g.sessions[m] && DistinctDogs(s.dogs) && d in s.dogs
    requires d.speed == Vec(0.0, 0.0) && time == dt as real / 1000.0
    requires IsAfterTick(g, m, dt, order, choices, d') && d'.id == d.id
    ensures d' == d.(active := false, inactivity := d.inactivity + time)
  {
    var c, nextLoot, i := DogInTick(g, s, m, dt, order, choices, d, d', time);
    StandingDogInPart(s, nextLoot, time, c, i, d);
  }

  /** A player joins a reachable game, and a tick follows: the new dog waits where it was spawned. */
  lemma NewcomerWaits(
    start: GameState, past: seq<Request>, g: GameState, name: string, mapId: string, spawn: Point, token: string,
    uuid: string, joined: GameState, dt: int, order: seq<string>, choices: seq<Choice>, d': DogState)
    requires IsInitial(start) && IsRun(start, past) && g == AfterRun(start, past)
    requires Possible(g, Join(name, mapId, spawn, token, uuid))
    requires joined == Served(g, Join(name, mapId, spawn, token, uuid))
    requires IsAfterTick(joined, mapId, dt, order, choices, d') && d'.id == g.counters.dogs
    ensures IsNewcomer(d'.(active := true, inactivity := 0.0), g.counters.dogs, name, spawn, uuid, g.clock)
    ensures d'.inactivity == dt as real / 1000.0
  {
    assert GoodIds(joined) by {
      RunKeepsInv(start, past);
      RequestKeepsInv(g, Join(name, mapId, spawn, token, uuid));
    }
    JoinBringsNewcomer(g, name, mapId, spawn, token, uuid, joined);
    var dogs := joined.sessions[mapId].dogs;
    StandingDogOnlyWaits(joined, joined.sessions[mapId], mapId, dt, order, choices, dogs[|dogs| - 1], d',
                         dt as real / 1000.0);
  }
}
