/**
 * Progress of one dog that nobody commands: it moves until it stops, may be left frozen on the way,
 * and then stands until it retires. How long it can stay is bounded by where it is, and each tick
 * takes its own length off that bound, however the ticks cut up the time.
 */
module Progress {
  import opened Entities
  import opened GameStates
  import opened Geometry
  import opened Motion
  import opened Roads

  // ---- the road ahead ----

  /** How far along the heading a point lies. */
  function Along(dir: Direction, p: Point): real {
    match dir
    case East => p.x
    case West => -p.x
    case South => p.y
    case North => -p.y
    case NoDirection => 0.0
  }

  function SpeedAlong(dir: Direction, v: Vec): real { Along(dir, Point(v.x, v.y)) }

  /** Where a box begins for a dog with this heading. */
  function Beginning(dir: Direction, b: Box): real {
    match dir
    case East => b.lo.x
    case West => -b.hi.x
    case South => b.lo.y
    case North => -b.hi.y
    case NoDirection => 0.0
  }

  /** Where the surface of a road ends for a dog with this heading. */
  function Ending(dir: Direction, r: Road): real {
    match dir
    case East => r.MaxX() + ROAD_HALF_WIDTH
    case West => -(r.MinX() - ROAD_HALF_WIDTH)
    case South => r.MaxY() + ROAD_HALF_WIDTH
    case North => -(r.MinY() - ROAD_HALF_WIDTH)
    case NoDirection => 0.0
  }

  function LastEnding(dir: Direction, roads: seq<Road>): (e: real)
    requires roads != []
    ensures forall r :: r in roads ==> Ending(dir, r) <= e
  {
    var last := roads[|roads| - 1];
    if |roads| == 1 then Ending(dir, last)
    else
      assert forall r :: r in roads ==> r in roads[..|roads| - 1] || r == last;
      Max(LastEnding(dir, roads[..|roads| - 1]), Ending(dir, last))
  }

  lemma RoadEndsAhead(dir: Direction, p: Point, roads: seq<Road>)
    requires OnSomeRoad(p, roads)
    ensures roads != [] && Along(dir, p) <= LastEnding(dir, roads)
  {
    var r :| r in roads && OnRoad(p, r);
    assert Along(dir, p) <= Ending(dir, r);
  }

  ghost predicate InSomeBox(p: Point, roads: seq<Road>) {
    exists r :: r in roads && InBox(p, BoundingBox(r))
  }

  /** One wait for every road whose box begins beyond `x`. */
  function Waits(dir: Direction, x: real, roads: seq<Road>, wait: real): real {
    if roads == [] then 0.0
    else
      var n := |roads| - 1;
      Waits(dir, x, roads[..n], wait) + if Beginning(dir, BoundingBox(roads[n])) > x then wait else 0.0
  }

  lemma {:induction false} FewerWaits(dir: Direction, x: real, x': real, roads: seq<Road>, wait: real)
    requires x <= x' && wait >= 0.0
    ensures 0.0 <= Waits(dir, x', roads, wait) <= Waits(dir, x, roads, wait)
  {
    if roads == [] {
    } else {
      FewerWaits(dir, x, x', roads[..|roads| - 1], wait);
    }
  }

  lemma {:induction false} OneWaitLess(
    dir: Direction, x: real, x': real, roads: seq<Road>, wait: real, r: Road)
    requires r in roads && x < Beginning(dir, BoundingBox(r)) <= x' && wait >= 0.0
    ensures 0.0 <= Waits(dir, x', roads, wait) <= Waits(dir, x, roads, wait) - wait
  {
    var n := |roads| - 1;
    if roads[n] == r {
      FewerWaits(dir, x, x', roads[..n], wait);
    } else {
      assert r in roads[..n];
      OneWaitLess(dir, x, x', roads[..n], wait, r);
    }
  }

  /** The time in which a dog at `x` that runs with `speed` gets to `end`. */
  function RunningTime(end: real, x: real, speed: real): real
    requires speed > 0.0
  {
    (end - x) / speed
  }

  lemma RunningTimeIsNonNegative(end: real, x: real, speed: real)
    requires speed > 0.0 && x <= end
    ensures RunningTime(end, x, speed) >= 0.0
  {
  }

  lemma RunningTimePasses(end: real, x: real, speed: real, dt: real)
    requires speed > 0.0
    ensures RunningTime(end, x + Product(speed, dt), speed) == RunningTime(end, x, speed) - dt
  {
    var t := RunningTime(end, x, speed);
    assert end - x == t * speed;
    assert end - (x + speed * dt) == (t - dt) * speed;
    assert ((t - dt) * speed) / speed == t - dt;
  }

  // ---- how long a dog can stay ----

  /** A dog may wait for as long as the retirement time, and not at all if that is negative. */
  function Wait(limit: real): (w: real)
    ensures w >= 0.0
  {
    Max(0.0, limit)
  }

  /** Only a dog outside all boxes can be waiting with its velocity kept. */
  ghost function WaitLeft(from: Point, roads: seq<Road>, wait: real, inactivity: real): real {
    if InSomeBox(from, roads) then wait else wait - inactivity
  }

  /** A bound on the time that an uncommanded dog stays, if no tick takes longer than `longest`. */
  ghost function TimeLeft(roads: seq<Road>, limit: real, longest: real, d: DogState): real
    requires roads != [] && Coherent(d.direction, d.speed)
  {
    var (dir, x, wait) := (d.direction, Along(d.direction, d.position), Wait(limit));
    if Stands(dir, d.speed) then wait - d.inactivity
    else
      MovingIsPositive(dir, d.speed);
      RunningTime(LastEnding(dir, roads), x, SpeedAlong(dir, d.speed)) + longest + Waits(dir, x, roads, wait)
        + WaitLeft(d.position, roads, wait, d.inactivity)
  }

  lemma MovingIsPositive(dir: Direction, v: Vec)
    requires Coherent(dir, v) && !Stands(dir, v)
    ensures SpeedAlong(dir, v) > 0.0
  {
  }

  // ---- one dog in one tick ----

  lemma TargetIsAlong(dir: Direction, from: Point, v: Vec, dt: real)
    requires Coherent(dir, v)
    ensures Along(dir, Target(from, v, dt)) == Along(dir, from) + Product(SpeedAlong(dir, v), dt)
  {
  }

  lemma CrossesBeginning(dir: Direction, from: Point, v: Vec, dt: real, r: Road)
    requires Coherent(dir, v) && dt >= 0.0 && !Stands(dir, v)
    requires Relevant(from, Target(from, v, dt), r) && !InBox(from, BoundingBox(r))
    ensures Along(dir, from) < Beginning(dir, BoundingBox(r)) <= Along(dir, Target(from, v, dt))
  {
    TargetIsAhead(from, v, dir, dt);
    OverlapDecidesMeeting(from, Target(from, v, dt), BoundingBox(r));
  }

  /** From outside all boxes a dog for which the index finds a road comes to the beginning of a box. */
  lemma LeavesWaitBehind(dir: Direction, from: Point, v: Vec, dt: real, roads: seq<Road>, found: seq<Road>, wait: real)
    requires Coherent(dir, v) && dt >= 0.0 && !Stands(dir, v) && wait >= 0.0
    requires IsQuery(roads, from, Target(from, v, dt), found) && found != [] && !InSomeBox(from, roads)
    ensures 0.0 <= Waits(dir, Along(dir, Target(from, v, dt)), roads, wait)
                <= Waits(dir, Along(dir, from), roads, wait) - wait
  {
    assert found[0] in found;
    CrossesBeginning(dir, from, v, dt, found[0]);
    OneWaitLess(dir, Along(dir, from), Along(dir, Target(from, v, dt)), roads, wait, found[0]);
  }

  lemma BoxIsFound(from: Point, to: Point, roads: seq<Road>, found: seq<Road>)
    requires IsQuery(roads, from, to, found) && InSomeBox(from, roads)
    ensures found != []
  {
    var r :| r in roads && InBox(from, BoundingBox(r));
    assert Between(from, to, 0.0) == from;
    assert Relevant(from, to, r);
  }

  lemma RunningOnTakesTime(
    dir: Direction, from: Point, v: Vec, dt: real, roads: seq<Road>, found: seq<Road>, wait: real, idle: real)
    requires Coherent(dir, v) && dt >= 0.0 && !Stands(dir, v) && 0.0 <= idle <= wait
    requires IsQuery(roads, from, Target(from, v, dt), found) && found != []
    ensures var to := Target(from, v, dt);
      Waits(dir, Along(dir, to), roads, wait) + wait
        <= Waits(dir, Along(dir, from), roads, wait) + WaitLeft(from, roads, wait, idle)
    ensures Waits(dir, Along(dir, Target(from, v, dt)), roads, wait) >= 0.0
  {
    TargetIsAlong(dir, from, v, dt);
    MovingIsPositive(dir, v);
    ProductIsNonNegative(SpeedAlong(dir, v), dt);
    if InSomeBox(from, roads) {
      FewerWaits(dir, Along(dir, from), Along(dir, Target(from, v, dt)), roads, wait);
    } else {
      LeavesWaitBehind(dir, from, v, dt, roads, found, wait);
    }
  }

  lemma NotMoved(from: Point, dir: Direction, v: Vec, dt: real)
    requires Coherent(dir, v) && !Stands(dir, v) && Target(from, v, dt) == from
    ensures dt == 0.0
  {
    MovingIsPositive(dir, v);
    TargetIsAlong(dir, from, v, dt);
  }

  ghost predicate CanWait(d: DogState, limit: real) { 0.0 <= d.inactivity <= Wait(limit) }

  /** A dog that reaches its target has used up as much running time as the tick took. */
  lemma ReachingTargetTakesTime(
    roads: seq<Road>, limit: real, longest: real, dt: real, d: DogState, found: seq<Road>)
    requires roads != [] && Coherent(d.direction, d.speed) && CanWait(d, limit) && dt >= 0.0
    requires !Stands(d.direction, d.speed) && found != []
    requires IsQuery(roads, d.position, Target(d.position, d.speed, dt), found)
    ensures TimeLeft(roads, limit, longest, AfterMove(d, Target(d.position, d.speed, dt), false, dt))
         <= TimeLeft(roads, limit, longest, d) - dt
  {
    var (dir, v, wait) := (d.direction, d.speed, Wait(limit));
    var to := Target(d.position, v, dt);
    if to == d.position {
      NotMoved(d.position, dir, v, dt);
    } else {
      MovingIsPositive(dir, v);
      TargetIsAlong(dir, d.position, v, dt);
      RunningTimePasses(LastEnding(dir, roads), Along(dir, d.position), SpeedAlong(dir, v), dt);
      RunningOnTakesTime(dir, d.position, v, dt, roads, found, wait, d.inactivity);
    }
  }

  /** A dog that stops has no running time left, and the tick was no longer than `longest`. */
  lemma StoppingTakesTime(
    roads: seq<Road>, limit: real, longest: real, dt: real, d: DogState, found: seq<Road>, to: Point)
    requires OnSomeRoad(d.position, roads) && roads != [] && Coherent(d.direction, d.speed) && CanWait(d, limit)
    requires 0.0 <= dt <= longest && !Stands(d.direction, d.speed) && found != []
    requires IsQuery(roads, d.position, Target(d.position, d.speed, dt), found)
    ensures TimeLeft(roads, limit, longest, AfterMove(d, to, true, dt)) <= TimeLeft(roads, limit, longest, d) - dt
  {
    var (dir, v, wait) := (d.direction, d.speed, Wait(limit));
    MovingIsPositive(dir, v);
    RoadEndsAhead(dir, d.position, roads);
    RunningTimeIsNonNegative(LastEnding(dir, roads), Along(dir, d.position), SpeedAlong(dir, v));
    RunningOnTakesTime(dir, d.position, v, dt, roads, found, wait, d.inactivity);
  }

  lemma MoveTakesTime(roads: seq<Road>, limit: real, longest: real, dt: real, d: DogState, d': DogState)
    requires OnSomeRoad(d.position, roads) && roads != [] && Coherent(d.direction, d.speed) && CanWait(d, limit)
    requires 0.0 <= dt <= longest && DogMoved(roads, dt, d, d')
    ensures Coherent(d'.direction, d'.speed)
    ensures TimeLeft(roads, limit, longest, d') <= TimeLeft(roads, limit, longest, d) - dt
  {
    var (from, v, dir) := (d.position, d.speed, d.direction);
    var stopped :| Moves(from, v, dir, dt, roads, d'.position, stopped)
                   && d' == AfterMove(d, d'.position, stopped, dt);
    var found :| IsQuery(roads, from, Target(from, v, dt), found)
                 && IsMove(from, v, dir, dt, found, d'.position, stopped);
    if !Stands(dir, v) {
      if found == [] {
        if InSomeBox(from, roads) { BoxIsFound(from, Target(from, v, dt), roads, found); }
      } else if stopped {
        StoppingTakesTime(roads, limit, longest, dt, d, found, d'.position);
      } else {
        ReachingTargetTakesTime(roads, limit, longest, dt, d, found);
      }
    }
  }

  lemma TimeLeftIsNonNegative(roads: seq<Road>, limit: real, longest: real, d: DogState)
    requires OnSomeRoad(d.position, roads) && roads != [] && Coherent(d.direction, d.speed) && CanWait(d, limit)
    requires longest >= 0.0
    ensures TimeLeft(roads, limit, longest, d) >= 0.0
  {
    var (dir, v) := (d.direction, d.speed);
    if !Stands(dir, v) {
      MovingIsPositive(dir, v);
      RoadEndsAhead(dir, d.position, roads);
      RunningTimeIsNonNegative(LastEnding(dir, roads), Along(dir, d.position), SpeedAlong(dir, v));
      FewerWaits(dir, Along(dir, d.position), Along(dir, d.position), roads, Wait(limit));
    }
  }

  lemma {:induction false} WaitsAreFew(dir: Direction, x: real, roads: seq<Road>, wait: real)
    requires wait >= 0.0
    ensures Waits(dir, x, roads, wait) <= Product(|roads| as real, wait)
  {
    if roads == [] {
    } else {
      WaitsAreFew(dir, x, roads[..|roads| - 1], wait);
      assert Product(|roads| as real, wait) == Product((|roads| - 1) as real, wait) + wait;
    }
  }

  /** Running to the end of the last road, one tick, and a wait for each road and one more. */
  lemma TimeLeftIsBounded(roads: seq<Road>, limit: real, longest: real, d: DogState)
    requires roads != [] && Coherent(d.direction, d.speed) && !Stands(d.direction, d.speed) && CanWait(d, limit)
    ensures SpeedAlong(d.direction, d.speed) > 0.0
    ensures TimeLeft(roads, limit, longest, d)
         <= RunningTime(LastEnding(d.direction, roads), Along(d.direction, d.position),
                        SpeedAlong(d.direction, d.speed))
            + longest + Product(|roads| as real, Wait(limit)) + Wait(limit)
  {
    MovingIsPositive(d.direction, d.speed);
    WaitsAreFew(d.direction, Along(d.direction, d.position), roads, Wait(limit));
  }
}
