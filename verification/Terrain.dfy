/**
 * Every dog of every reachable state stands on a road of its map, with velocity and heading in
 * agreement, and carries no more than its map allows.
 */
module Terrain {
  import opened Entities
  import opened GameStates
  import opened Geometry
  import opened Motion
  import opened Replay
  import opened Roads

  ghost predicate GoodDog(gameMap: GameMap, d: DogState) {
    && OnSomeRoad(d.position, gameMap.roads)
    && Coherent(d.direction, d.speed)
    && |d.bag| <= gameMap.bagCapacity
  }

  ghost predicate GoodDogs(gameMap: GameMap, dogs: seq<DogState>) {
    forall d :: d in dogs ==> GoodDog(gameMap, d)
  }

  /** The session filed under a map's id is a session of that map, and its dogs are well-behaved. */
  ghost predicate GoodTerrain(g: GameState) {
    && (forall m :: m in g.maps ==> g.maps[m].Playable() && g.maps[m].id == m)
    && forall m :: m in g.sessions ==>
         m in g.maps && g.sessions[m].gameMap == g.maps[m] && GoodDogs(g.maps[m], g.sessions[m].dogs)
  }

  lemma GridPointIsOnRoad(r: Road, x: int, y: int)
    requires IsGridPoint(r, x, y)
    ensures OnRoad(Point(x as real, y as real), r)
  {
  }

  /** The random numbers that a grid point is made from: a road, and steps along both axes. */
  datatype PointDraw = PointDraw(road: nat, x: nat, y: nat)

  /** The random numbers that a new loot is made from. */
  datatype LootDraw = LootDraw(point: PointDraw, kind: nat)

  /** The generators draw from the roads and loot kinds of the map. */
  ghost predicate AreLootDraws(gameMap: GameMap, draws: nat -> LootDraw) {
    forall i :: draws(i).point.road < |gameMap.roads| && draws(i).kind < |gameMap.lootValues|
  }

  /** The smaller and the larger of two numbers, and a step between them chosen by `draw`. */
  function DrawnBetween(a: int, b: int, draw: nat): (d: int)
    ensures a <= d <= b || b <= d <= a
  {
    var (lo, hi) := if a > b then (b, a) else (a, b);
    lo + draw % (hi - lo + 1)
  }

  function DrawnPoint(roads: seq<Road>, draw: PointDraw): GridPoint
    requires draw.road < |roads|
  {
    var r := roads[draw.road];
    GridPoint(DrawnBetween(r.start.x, r.End().x, draw.x), DrawnBetween(r.start.y, r.End().y, draw.y))
  }

  /** The ends of the drawn road may come in any order. */
  method GetRandomPointOnRoad(roads: seq<Road>, draw: PointDraw) returns (p: GridPoint)
    requires draw.road < |roads|
    ensures p == DrawnPoint(roads, draw)
    ensures IsGridPointOf(roads, Point(p.x as real, p.y as real))
    ensures OnSomeRoad(Point(p.x as real, p.y as real), roads)
  {
    var (start, end) := (roads[draw.road].start, roads[draw.road].End());
    var (x1, x2) := if start.x > end.x then (end.x, start.x) else (start.x, end.x);
    var (y1, y2) := if start.y > end.y then (end.y, start.y) else (start.y, end.y);
    p := GridPoint(x1 + draw.x % (x2 - x1 + 1), y1 + draw.y % (y2 - y1 + 1));
    assert IsGridPoint(roads[draw.road], p.x, p.y);
    GridPointsAreOnRoads(roads, Point(p.x as real, p.y as real));
  }

  predicate IsInRange(a: int, b: int, c: int) { a <= c <= b || b <= c <= a }

  /** Exactly the grid points between the ends of the roads can be drawn. */
  lemma DrawnPointsAreGridPoints(roads: seq<Road>, p: GridPoint)
    ensures (exists r :: r in roads && IsInRange(r.start.x, r.End().x, p.x) && IsInRange(r.start.y, r.End().y, p.y))
       <==> exists draw: PointDraw :: draw.road < |roads| && DrawnPoint(roads, draw) == p
  {
    if r :| r in roads && IsInRange(r.start.x, r.End().x, p.x) && IsInRange(r.start.y, r.End().y, p.y) {
      var i :| 0 <= i < |roads| && roads[i] == r;
      var x := DrawFor(r.start.x, r.End().x, p.x);
      var y := DrawFor(r.start.y, r.End().y, p.y);
      assert DrawnPoint(roads, PointDraw(i, x, y)) == p;
    }
    if draw: PointDraw :| draw.road < |roads| && DrawnPoint(roads, draw) == p {
      assert roads[draw.road] in roads;
    }
  }

  lemma DrawFor(a: int, b: int, c: int) returns (draw: nat)
    requires IsInRange(a, b, c)
    ensures DrawnBetween(a, b, draw) == c
  {
    draw := if a > b then c - b else c - a;
  }

  lemma GridPointsAreOnRoads(roads: seq<Road>, p: Point)
    requires IsGridPointOf(roads, p)
    ensures OnSomeRoad(p, roads)
  {
    var r, x: int, y: int :| r in roads && IsGridPoint(r, x, y) && p == Point(x as real, y as real);
    GridPointIsOnRoad(r, x, y);
  }

  /** Both spawn modes place the dog on a road. */
  lemma SpawnPointIsOnRoad(gameMap: GameMap, p: Point)
    requires IsSpawnPoint(gameMap, p)
    ensures OnSomeRoad(p, gameMap.roads)
  {
    if IsGridPointOf(gameMap.roads, p) {
      GridPointsAreOnRoads(gameMap.roads, p);
    } else {
      var r := gameMap.roads[0];
      GridPointIsOnRoad(r, r.start.x, r.start.y);
    }
  }

  lemma JoinKeepsTerrain(g: GameState, name: string, mapId: string, spawn: Point, token: string, uuid: string)
    requires GoodTerrain(g) && mapId in g.maps && IsSpawnPoint(g.maps[mapId], spawn)
    ensures GoodTerrain(Joined(g, name, mapId, spawn, token, uuid))
  {
    SpawnPointIsOnRoad(g.maps[mapId], spawn);
  }

  lemma ActKeepsTerrain(g: GameState, mapId: string, j: nat, move: string)
    requires GoodTerrain(g) && mapId in g.sessions && j < |g.sessions[mapId].dogs|
    ensures GoodTerrain(Acted(g, mapId, j, move))
  {
    var s := g.sessions[mapId];
    var d := Commanded(s.dogs[j], move, s.gameMap.dogSpeed);
    assert s.dogs[j] in s.dogs;
    assert GoodDog(s.gameMap, d);
    forall e | e in s.dogs[j := d] ensures GoodDog(s.gameMap, e) {
      assert e == d || e in s.dogs;
    }
  }

  lemma MoveKeepsDogGood(gameMap: GameMap, dt: real, d: DogState, d': DogState)
    requires GoodDog(gameMap, d) && dt >= 0.0 && DogMoved(gameMap.roads, dt, d, d')
    ensures GoodDog(gameMap, d')
  {
    var stopped :| Moves(d.position, d.speed, d.direction, dt, gameMap.roads, d'.position, stopped)
                   && d' == AfterMove(d, d'.position, stopped, dt);
    MoveStaysOnRoads(d.position, d.speed, d.direction, dt, gameMap.roads, d'.position, stopped);
  }

  /** Movement, gathering and banking keep all dogs of a session well-behaved. */
  lemma HarvestKeepsDogsGood(s: SessionState, nextLoot: nat, dt: real, c: Choice)
    requires GoodDogs(s.gameMap, s.dogs) && dt >= 0.0 && IsChoice(s, nextLoot, dt, c)
    ensures InRange(c.events, |c.moved|)
    ensures GoodDogs(s.gameMap, Harvested(s, c).dogs)
  {
    EventsInRange(s, nextLoot, dt, c);
    forall i | 0 <= i < |c.moved| ensures GoodDog(s.gameMap, c.moved[i]) {
      assert s.dogs[i] in s.dogs;
      MoveKeepsDogGood(s.gameMap, dt, s.dogs[i], c.moved[i]);
    }
    ReplayRespectsCapacity(Start(s, c), c.events, s.gameMap.bagCapacity);
    ReplayChangesOnlyHauls(Start(s, c), c.events, s.gameMap.bagCapacity);
    var dogs := Harvested(s, c).dogs;
    forall d | d in dogs ensures GoodDog(s.gameMap, d) {
      var i :| 0 <= i < |dogs| && dogs[i] == d;
      assert SameButHaul(c.moved[i], dogs[i]);
    }
  }

  lemma TickKeepsTerrain(g: GameState, mapId: string, dt: real, c: Choice)
    requires GoodTerrain(g) && mapId in g.sessions && dt >= 0.0
    requires IsChoice(g.sessions[mapId], g.counters.loot, dt, c)
    ensures InRange(c.events, |c.moved|)
    ensures GoodTerrain(AfterTick(g, mapId, c))
  {
    HarvestKeepsDogsGood(g.sessions[mapId], g.counters.loot, dt, c);
  }

  lemma RestartKeepsTerrain(g: GameState, uuids: nat -> string, joinTimes: nat -> int)
    requires GoodTerrain(g)
    ensures GoodTerrain(Restarted(g, uuids, joinTimes))
  {
    var g' := Restarted(g, uuids, joinTimes);
    forall m | m in g'.sessions ensures GoodDogs(g.maps[m], g'.sessions[m].dogs) {
      var (s, s') := (g.sessions[m], g'.sessions[m]);
      forall d | d in s'.dogs ensures GoodDog(g.maps[m], d) {
        var i :| 0 <= i < |s'.dogs| && s'.dogs[i] == d;
        RestoredDogs(s, uuids, joinTimes);
        assert GoodDog(g.maps[m], s.dogs[i]);
        assert d.position == s.dogs[i].position;
      }
    }
  }
}
