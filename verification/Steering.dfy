/**
 * From a player's command to the dog's way: which way each command sends the dog, and how far it gets
 * in the next tick.
 */
module Steering {
  import opened Entities
  import opened GameStates
  import opened Geometry
  import opened Motion
  import opened Registry
  import opened Replay
  import opened Roads
  import opened Runs
  import opened SessionTicks

  // ---- commands ----

  /** Where a dog gets that goes `way` as told. Up is where y is smaller. */
  function Destination(move: string, from: Point, way: real): Point {
    if move == "U" then Point(from.x, from.y - way)
    else if move == "D" then Point(from.x, from.y + way)
    else if move == "L" then Point(from.x - way, from.y)
    else if move == "R" then Point(from.x + way, from.y)
    else from
  }

  predicate IsDirection(move: string) { move in {"U", "D", "L", "R"} }

  /** A command sets the dog's course and its clock, and nothing else. Any other word stops the dog. */
  lemma CommandSetsCourse(d: DogState, move: string, speed: real, dt: real)
    ensures var d' := Commanded(d, move, speed);
      && Target(d.position, d'.speed, dt) == Destination(move, d.position, speed * dt)
      && (!IsDirection(move) ==> Stands(d'.direction, d'.speed))
      && (IsDirection(move) && speed >= EPSILON ==> !Stands(d'.direction, d'.speed))
      && (speed >= 0.0 ==> Coherent(d'.direction, d'.speed))
      && (move == "U" ==> d'.direction == North) && (move == "D" ==> d'.direction == South)
      && (move == "L" ==> d'.direction == West) && (move == "R" ==> d'.direction == East)
      && (!IsDirection(move) ==> d'.direction == NoDirection && d'.speed == Vec(0.0, 0.0))
      && d' == d.(speed := d'.speed, direction := d'.direction, active := true, inactivity := 0.0)
  {
    var (p, v) := (d.position, Commanded(d, move, speed).speed);
    OppositeSpeed(speed, dt);
    if move == "U" {
      TargetBy(p, v, dt, 0.0, -(speed * dt));
    } else if move == "D" {
      TargetBy(p, v, dt, 0.0, speed * dt);
    } else if move == "L" {
      TargetBy(p, v, dt, -(speed * dt), 0.0);
    } else if move == "R" {
      TargetBy(p, v, dt, speed * dt, 0.0);
    } else {
      TargetBy(p, v, dt, 0.0, 0.0);
    }
  }

  lemma TargetBy(p: Point, v: Vec, dt: real, x: real, y: real)
    requires v.x * dt == x && v.y * dt == y
    ensures Target(p, v, dt) == Point(p.x + x, p.y + y)
  {
  }

  lemma OppositeSpeed(speed: real, dt: real)
    ensures (-speed) * dt == -(speed * dt) && 0.0 * dt == 0.0
  {
  }

  // ---- movement ----

  /** A dog with a heading counts as standing exactly when it is slower than 2^-52. */
  lemma StandsWhenSlow(dir: Direction, v: Vec)
    requires Coherent(dir, v) && dir != NoDirection
    ensures Stands(dir, v) <==> Distance(Point(0.0, 0.0), Point(v.x, v.y)) < 1.0 / 4503599627370496.0
  {
  }

  /** From between the ends of a road a dog gets all the way to a target on that road, whatever else there is. */
  lemma RoadCarriesDog(
    from: Point, v: Vec, dir: Direction, dt: real, roads: seq<Road>, r: Road, to: Point, stopped: bool)
    requires Moves(from, v, dir, dt, roads, to, stopped) && !Stands(dir, v)
    requires r in roads && OnRoad(from, r) && !BeyondEnds(from, r) && OnRoad(Target(from, v, dt), r)
    ensures to == Target(from, v, dt) && !stopped
  {
    RoadBetweenEndsIsFound(from, Target(from, v, dt), r);
    ReachesTargetDecidesMove(from, v, dir, dt, roads, to, stopped);
  }

  /** From between the ends of a road a dog gets at least as far as that road does, up to its target. */
  lemma RoadCarriesDogToItsEdge(
    from: Point, v: Vec, dir: Direction, dt: real, roads: seq<Road>, r: Road, to: Point, stopped: bool, p: Point)
    requires Moves(from, v, dir, dt, roads, to, stopped) && !Stands(dir, v) && Coherent(dir, v) && dt >= 0.0
    requires r in roads && OnRoad(from, r) && !BeyondEnds(from, r)
    requires OnRoad(p, r) && Ahead(dir, from, p) && Ahead(dir, p, Target(from, v, dt))
    ensures AxisParallel(from, to) && Distance(from, p) <= Max(SMALLEST_NORMAL, Distance(from, to))
  {
    RoadBetweenEndsIsFound(from, Target(from, v, dt), r);
    if stopped {
      StopIsFarthest(from, v, dir, dt, roads, to, r, p);
    } else {
      var found :| IsQuery(roads, from, Target(from, v, dt), found) && IsMove(from, v, dir, dt, found, to, stopped);
      assert r in found;
    }
  }

  /** Some road leads the dog from between its ends to the destination. */
  ghost predicate RoadLeads(roads: seq<Road>, from: Point, to: Point) {
    exists r :: r in roads && OnRoad(from, r) && !BeyondEnds(from, r) && OnRoad(to, r)
  }

  lemma RoadLeadsDog(roads: seq<Road>, dt: real, d: DogState, moved: DogState, to: Point)
    requires DogMoved(roads, dt, d, moved) && to == Target(d.position, d.speed, dt)
    requires Stands(d.direction, d.speed) ==> to == d.position
    requires RoadLeads(roads, d.position, to)
    ensures moved.position == to
  {
    var stopped :| Moves(d.position, d.speed, d.direction, dt, roads, moved.position, stopped)
                   && moved == AfterMove(d, moved.position, stopped, dt);
    if !Stands(d.direction, d.speed) {
      var r :| r in roads && OnRoad(d.position, r) && !BeyondEnds(d.position, r) && OnRoad(to, r);
      RoadCarriesDog(d.position, d.speed, d.direction, dt, roads, r, moved.position, stopped);
    }
  }

  lemma DogGoesStraight(roads: seq<Road>, dt: real, d: DogState, moved: DogState)
    requires DogMoved(roads, dt, d, moved) && OnSomeRoad(d.position, roads)
    requires Coherent(d.direction, d.speed) && dt >= 0.0
    ensures Ahead(d.direction, d.position, moved.position)
    ensures moved.position == d.position
            || Ahead(d.direction, moved.position, Target(d.position, d.speed, dt))
  {
    var stopped :| Moves(d.position, d.speed, d.direction, dt, roads, moved.position, stopped)
                   && moved == AfterMove(d, moved.position, stopped, dt);
    MoveStaysOnRoads(d.position, d.speed, d.direction, dt, roads, moved.position, stopped);
  }

  // ---- a command and the next tick ----

  /** The dog has gone straight as told, not farther than `whole`, and just as far if a road leads it there. */
  ghost predicate Obeys(gameMap: GameMap, move: string, from: Point, to: Point, whole: real) {
    && (exists way: real :: 0.0 <= way <= whole && to == Destination(move, from, way))
    && ((gameMap.dogSpeed >= EPSILON && RoadLeads(gameMap.roads, from, Destination(move, from, whole)))
          ==> to == Destination(move, from, whole))
  }

  /** The command's heading is that of the destination. */
  lemma CommandHeads(d: DogState, move: string, speed: real, to: Point, whole: real) returns (way: real)
    requires Ahead(Commanded(d, move, speed).direction, d.position, to) && whole >= 0.0
    requires to == d.position
             || Ahead(Commanded(d, move, speed).direction, to, Destination(move, d.position, whole))
    ensures 0.0 <= way <= whole && to == Destination(move, d.position, way)
  {
    way := if IsDirection(move) then Distance(d.position, to) else 0.0;
  }

  lemma ToldDogObeys(
    gameMap: GameMap, d: DogState, move: string, told: DogState, time: real, moved: DogState, whole: real)
    requires told == Commanded(d, move, gameMap.dogSpeed) && Coherent(told.direction, told.speed)
    requires Target(d.position, told.speed, time) == Destination(move, d.position, whole)
    requires IsDirection(move) && gameMap.dogSpeed >= EPSILON ==> !Stands(told.direction, told.speed)
    requires time >= 0.0 && whole >= 0.0 && OnSomeRoad(d.position, gameMap.roads)
    requires DogMoved(gameMap.roads, time, told, moved)
    ensures Obeys(gameMap, move, d.position, moved.position, whole)
  {
    DogGoesStraight(gameMap.roads, time, told, moved);
    var way := CommandHeads(d, move, gameMap.dogSpeed, moved.position, whole);
    var to := Destination(move, d.position, whole);
    if gameMap.dogSpeed >= EPSILON && RoadLeads(gameMap.roads, d.position, to) {
      RoadLeadsDog(gameMap.roads, time, told, moved, to);
    }
  }

  lemma CourseOfCommand(d: DogState, move: string, speed: real, time: real, told: DogState, whole: real)
    requires told == Commanded(d, move, speed) && whole == speed * time && speed >= 0.0 && time >= 0.0
    ensures Coherent(told.direction, told.speed) && whole >= 0.0
    ensures Target(d.position, told.speed, time) == Destination(move, d.position, whole)
    ensures IsDirection(move) && speed >= EPSILON ==> !Stands(told.direction, told.speed)
  {
    ProductIsNonNegative(speed, time);
    CommandSetsCourse(d, move, speed, time);
  }

  lemma MoveObeys(gameMap: GameMap, d: DogState, move: string, time: real, moved: DogState, whole: real)
    requires gameMap.dogSpeed >= 0.0 && time >= 0.0 && whole == gameMap.dogSpeed * time
    requires OnSomeRoad(d.position, gameMap.roads)
    requires DogMoved(gameMap.roads, time, Commanded(d, move, gameMap.dogSpeed), moved)
    ensures Obeys(gameMap, move, d.position, moved.position, whole)
  {
    var told := Commanded(d, move, gameMap.dogSpeed);
    CourseOfCommand(d, move, gameMap.dogSpeed, time, told, whole);
    ToldDogObeys(gameMap, d, move, told, time, moved, whole);
  }

  /** In `told` the dog `d` of the session has just been commanded. */
  ghost predicate IsTold(told: GameState, m: string, gameMap: GameMap, d: DogState, move: string) {
    && GoodIds(told) && m in told.sessions && told.sessions[m].gameMap == gameMap
    && gameMap.dogSpeed >= 0.0 && OnSomeRoad(d.position, gameMap.roads)
    && Commanded(d, move, gameMap.dogSpeed) in told.sessions[m].dogs
  }

  lemma CommandedDog(g: GameState, player: nat, m: string, j: nat, move: string)
    requires Inv(g) && Possible(g, Act(player, m, j, move))
    ensures IsTold(Served(g, Act(player, m, j, move)), m, g.sessions[m].gameMap, g.sessions[m].dogs[j], move)
  {
    var told := Served(g, Act(player, m, j, move));
    GoodDogStands(g, m, g.sessions[m].dogs[j]);
    assert g.maps[m].Playable();
    CommandKeepsIds(g, player, m, j, move);
    assert told.sessions[m].dogs[j] == Commanded(g.sessions[m].dogs[j], move, g.sessions[m].gameMap.dogSpeed);
  }

  lemma CommandKeepsIds(g: GameState, player: nat, m: string, j: nat, move: string)
    requires Inv(g) && Possible(g, Act(player, m, j, move))
    ensures GoodIds(Served(g, Act(player, m, j, move)))
  {
    RequestKeepsInv(g, Act(player, m, j, move));
  }

  lemma CommandedDogObeys(
    told: GameState, m: string, gameMap: GameMap, d: DogState, move: string,
    dt: int, order: seq<string>, choices: seq<Choice>, d': DogState, time: real, whole: real)
    requires IsTold(told, m, gameMap, d, move) && IsAfterTick(told, m, dt, order, choices, d') && d'.id == d.id
    requires time == dt as real / 1000.0 && whole == gameMap.dogSpeed * time
    ensures Obeys(gameMap, move, d.position, d'.position, whole)
  {
    var moved := DogAfterTick(
      told, dt, order, choices, m, Commanded(d, move, gameMap.dogSpeed), d', gameMap.roads, time);
    MoveObeys(gameMap, d, move, time, moved, whole);
  }

  /** In a reachable state a player commands dog `d`, and a tick of `dt` milliseconds follows: the dog obeys. */
  lemma DogObeysCommand(
    start: GameState, past: seq<Request>, g: GameState, player: nat, m: string, j: nat, move: string,
    gameMap: GameMap, d: DogState, told: GameState, dt: int, order: seq<string>, choices: seq<Choice>, d': DogState,
    time: real, whole: real)
    requires IsInitial(start) && IsRun(start, past) && g == AfterRun(start, past)
    requires Possible(g, Act(player, m, j, move)) && told == Served(g, Act(player, m, j, move))
    requires gameMap == g.sessions[m].gameMap && d == g.sessions[m].dogs[j]
    requires IsAfterTick(told, m, dt, order, choices, d') && d'.id == d.id
    requires time == dt as real / 1000.0 && whole == gameMap.dogSpeed * time
    ensures Obeys(gameMap, move, d.position, d'.position, whole)
  {
    assert IsTold(told, m, gameMap, d, move) by {
      RunKeepsInv(start, past);
      CommandedDog(g, player, m, j, move);
    }
    CommandedDogObeys(told, m, gameMap, d, move, dt, order, choices, d', time, whole);
  }

  // ---- idleness ----

  /** A dog is idle in a tick, and its idle time goes on, exactly if the tick leaves it where it was. */
  ghost predicate IdlesIfUnmoved(d: DogState, d': DogState, time: real) {
    if d'.position.x == d.position.x && d'.position.y == d.position.y then
      !d'.active && d'.inactivity == d.inactivity + time
    else
      d'.active && d'.inactivity == 0.0
  }

  lemma MoveShowsIdleness(roads: seq<Road>, time: real, d: DogState, moved: DogState, d': DogState)
    requires DogMoved(roads, time, d, moved) && SameButHaul(moved, d')
    ensures IdlesIfUnmoved(d, d', time)
  {
  }

  lemma DogIdlesIfUnmoved(
    start: GameState, past: seq<Request>, g: GameState, dt: int, order: seq<string>, choices: seq<Choice>,
    m: string, d: DogState, d': DogState, time: real)
    requires IsInitial(start) && IsRun(start, past) && g == AfterRun(start, past)
    requires m in g.sessions && d in g.sessions[m].dogs && time == dt as real / 1000.0
    requires IsAfterTick(g, m, dt, order, choices, d') && d'.id == d.id
    ensures IdlesIfUnmoved(d, d', time)
  {
    assert GoodIds(g) by { RunKeepsInv(start, past); }
    var moved := DogAfterTick(g, dt, order, choices, m, d, d', g.sessions[m].gameMap.roads, time);
    MoveShowsIdleness(g.sessions[m].gameMap.roads, time, d, moved, d');
  }

  /** A dog that moves is not retired: of a positive retirement time nothing has passed for it. */
  lemma RetiredDogHasNotMoved(
    s: SessionState, nextLoot: nat, time: real, c: Choice, limit: real, i: nat)
    requires IsChoice(s, nextLoot, time, c) && InRange(c.events, |c.moved|) && i < |s.dogs| && limit > 0.0
    requires |c.moved| == |s.dogs| && Harvested(s, c).dogs[i] in Retiring(Harvested(s, c).dogs, limit)
    ensures c.moved[i].position == s.dogs[i].position && s.dogs[i].inactivity + time >= limit
  {
    ReplayChangesOnlyHauls(Start(s, c), c.events, s.gameMap.bagCapacity);
    MoveShowsIdleness(s.gameMap.roads, time, s.dogs[i], c.moved[i], Harvested(s, c).dogs[i]);
  }
}
