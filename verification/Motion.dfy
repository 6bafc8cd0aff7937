/**
 * One dog's movement in one tick: the rule, and what it means on a road network.
 * The rule is a relation between the roads found by the index and the outcome, because the index
 * may return the roads in any order; `MoveIsDeterministic` shows that the order does not matter.
 */
module Motion {
  import opened Geometry
  import opened Roads

  type PositiveReal = r: real | r > 0.0 witness 1.0

  /** Machine epsilon of a double, 2^-52: slower dogs count as standing. */
  const EPSILON: PositiveReal := 1.0 / 4503599627370496.0

  /** The smallest normal double, 2^-1022: the initial best distance of the stop search. */
  const SMALLEST_NORMAL: PositiveReal := 64.0 / (TWO_TO_257 * TWO_TO_257 * TWO_TO_257 * TWO_TO_257)
  const TWO_TO_257: PositiveReal :=
    231584178474632390847141970017375815706539969331281128078915168015826259279872.0

  /** Heading and velocity agree; a dog without heading stands. */
  predicate Coherent(dir: Direction, v: Vec) {
    match dir
    case North => v.x == 0.0 && v.y <= 0.0
    case South => v.x == 0.0 && v.y >= 0.0
    case West => v.x <= 0.0 && v.y == 0.0
    case East => v.x >= 0.0 && v.y == 0.0
    case NoDirection => v.x == 0.0 && v.y == 0.0
  }

  predicate Stands(dir: Direction, v: Vec) {
    dir == NoDirection || (Abs(v.x) < EPSILON && Abs(v.y) < EPSILON)
  }

  function Target(from: Point, v: Vec, dt: real): Point {
    Point(from.x + v.x * dt, from.y + v.y * dt)
  }

  /** `stop` is where the search over `found` ends when the target itself is on no found road. */
  ghost predicate IsStop(from: Point, to: Point, dir: Direction, found: seq<Road>, stop: Point) {
    && AxisParallel(from, stop)
    && (|| stop == from
        || exists r :: r in found && OnRoad(from, r) && stop == FindStopPoint(from, to, r, dir)
                       && Distance(from, stop) > SMALLEST_NORMAL)
    && forall r :: r in found && OnRoad(from, r)
         ==> Distance(from, FindStopPoint(from, to, r, dir)) <= Max(SMALLEST_NORMAL, Distance(from, stop))
  }

  /** The outcome of a tick for a dog at `from`, given the roads `found` by the index. */
  ghost predicate IsMove(
    from: Point, v: Vec, dir: Direction, dt: real, found: seq<Road>, to: Point, stopped: bool)
  {
    var target := Target(from, v, dt);
    if Stands(dir, v) || found == [] then
      to == from && !stopped
    else if OnSomeRoad(target, found) then
      to == target && !stopped
    else
      stopped && IsStop(from, target, dir, found, to)
  }

  /** The outcome of a tick on a road network, through the index. */
  ghost predicate Moves(
    from: Point, v: Vec, dir: Direction, dt: real, roads: seq<Road>, to: Point, stopped: bool)
  {
    exists found :: IsQuery(roads, from, Target(from, v, dt), found)
                    && IsMove(from, v, dir, dt, found, to, stopped)
  }

  ghost predicate SameRoads(a: seq<Road>, b: seq<Road>) {
    forall r :: r in a <==> r in b
  }

  /** The order in which the index returns the roads cannot change the outcome, nor can repetitions. */
  lemma MoveIsDeterministic(
    from: Point, v: Vec, dir: Direction, dt: real,
    found1: seq<Road>, to1: Point, stopped1: bool, found2: seq<Road>, to2: Point, stopped2: bool)
    requires SameRoads(found1, found2)
    requires IsMove(from, v, dir, dt, found1, to1, stopped1)
    requires IsMove(from, v, dir, dt, found2, to2, stopped2)
    ensures to1 == to2 && stopped1 == stopped2
  {
    if found1 == [] {
      assert |found2| > 0 ==> found2[0] in found1;
    } else {
      assert found1[0] in found2;
      if stopped1 && stopped2 {
        StopIsUnique(from, Target(from, v, dt), dir, found1, to1, found2, to2);
      }
    }
  }

  lemma StopIsUnique(
    from: Point, to: Point, dir: Direction, found1: seq<Road>, stop1: Point, found2: seq<Road>, stop2: Point)
    requires SameRoads(found1, found2)
    requires IsStop(from, to, dir, found1, stop1) && IsStop(from, to, dir, found2, stop2)
    ensures stop1 == stop2
  {
    if stop1 != from && stop2 != from {
      var r1 :| r1 in found1 && OnRoad(from, r1) && stop1 == FindStopPoint(from, to, r1, dir);
      var r2 :| r2 in found2 && OnRoad(from, r2) && stop2 == FindStopPoint(from, to, r2, dir);
      assert r1 in found2 && r2 in found1;
      assert Distance(from, stop1) == Distance(from, stop2);
    }
  }

  lemma OutcomeIsUnique(
    from: Point, v: Vec, dir: Direction, dt: real, roads: seq<Road>,
    to1: Point, stopped1: bool, to2: Point, stopped2: bool)
    requires Moves(from, v, dir, dt, roads, to1, stopped1)
    requires Moves(from, v, dir, dt, roads, to2, stopped2)
    ensures to1 == to2 && stopped1 == stopped2
  {
    var target := Target(from, v, dt);
    var found1 :| IsQuery(roads, from, target, found1) && IsMove(from, v, dir, dt, found1, to1, stopped1);
    var found2 :| IsQuery(roads, from, target, found2) && IsMove(from, v, dir, dt, found2, to2, stopped2);
    assert SameRoads(found1, found2);
    MoveIsDeterministic(from, v, dir, dt, found1, to1, stopped1, found2, to2, stopped2);
  }

  lemma TargetIsAhead(from: Point, v: Vec, dir: Direction, dt: real)
    requires Coherent(dir, v) && dt >= 0.0
    ensures Ahead(dir, from, Target(from, v, dt))
  {
    if v.x >= 0.0 { ProductIsNonNegative(v.x, dt); } else { ProductIsNonNegative(-v.x, dt); }
    if v.y >= 0.0 { ProductIsNonNegative(v.y, dt); } else { ProductIsNonNegative(-v.y, dt); }
  }

  /** A dog on the road network stays on it, never turns and never runs past its target. */
  lemma MoveStaysOnRoads(
    from: Point, v: Vec, dir: Direction, dt: real, roads: seq<Road>, to: Point, stopped: bool)
    requires Coherent(dir, v) && dt >= 0.0
    requires OnSomeRoad(from, roads)
    requires Moves(from, v, dir, dt, roads, to, stopped)
    ensures OnSomeRoad(to, roads)
    ensures to == from || (Ahead(dir, from, to) && Ahead(dir, to, Target(from, v, dt)))
  {
    var target := Target(from, v, dt);
    var found :| IsQuery(roads, from, target, found) && IsMove(from, v, dir, dt, found, to, stopped);
    TargetIsAhead(from, v, dir, dt);
    if to == target && !stopped && to != from {
      var r :| r in found && OnRoad(target, r);
    } else if stopped && to != from {
      var r :| r in found && OnRoad(from, r) && to == FindStopPoint(from, target, r, dir);
      StopPointIsFarthest(from, target, r, dir);
    }
  }

  /** Every point of the way from `from` to `to` is on the road. */
  ghost predicate SweptBy(r: Road, from: Point, to: Point) {
    forall t: real :: 0.0 <= t <= 1.0 ==> OnRoad(Between(from, to, t), r)
  }

  /** A road covers a straight movement exactly when it holds both of its ends. */
  lemma SameRoadMovesAreSafe(from: Point, to: Point, r: Road)
    ensures OnRoad(from, r) && OnRoad(to, r) <==> SweptBy(r, from, to)
  {
    if OnRoad(from, r) && OnRoad(to, r) {
      forall t: real | 0.0 <= t <= 1.0 ensures OnRoad(Between(from, to, t), r) {
        RoadIsConvex(from, to, r, t);
      }
    } else {
      assert Between(from, to, 0.0) == from;
      assert Between(from, to, 1.0) == to;
    }
  }

  /** A dog that is stopped has walked straight along a single road. */
  lemma StopSweepsOneRoad(from: Point, v: Vec, dir: Direction, dt: real, roads: seq<Road>, to: Point)
    requires Coherent(dir, v) && dt >= 0.0
    requires OnSomeRoad(from, roads)
    requires Moves(from, v, dir, dt, roads, to, true)
    ensures exists r :: r in roads && SweptBy(r, from, to)
  {
    var target := Target(from, v, dt);
    var found :| IsQuery(roads, from, target, found) && IsMove(from, v, dir, dt, found, to, true);
    TargetIsAhead(from, v, dir, dt);
    var road :| road in roads && OnRoad(from, road);
    if to != from {
      var r :| r in found && OnRoad(from, r) && to == FindStopPoint(from, target, r, dir);
      StopPointIsFarthest(from, target, r, dir);
      road := r;
    }
    SameRoadMovesAreSafe(from, to, road);
  }

  /** A dog that is stopped has walked along its heading, not farther than its speed allows. */
  lemma StopIsWithinReach(from: Point, v: Vec, dir: Direction, dt: real, roads: seq<Road>, to: Point)
    requires Coherent(dir, v) && dt >= 0.0
    requires OnSomeRoad(from, roads)
    requires Moves(from, v, dir, dt, roads, to, true)
    ensures Ahead(dir, from, to)
    ensures AxisParallel(from, to) && Distance(from, to) <= (Abs(v.x) + Abs(v.y)) * dt
  {
    MoveStaysOnRoads(from, v, dir, dt, roads, to, true);
    if to == from {
      ProductIsNonNegative(Abs(v.x) + Abs(v.y), dt);
    } else {
      WayIsShort(from, v, dir, dt, to);
    }
  }

  lemma WayIsShort(from: Point, v: Vec, dir: Direction, dt: real, to: Point)
    requires Coherent(dir, v) && dt >= 0.0
    requires Ahead(dir, from, to) && Ahead(dir, to, Target(from, v, dt))
    ensures AxisParallel(from, to) && Distance(from, to) <= (Abs(v.x) + Abs(v.y)) * dt
  {
    match dir
    case North => assert Abs(v.x) + Abs(v.y) == -v.y; assert (-v.y) * dt == -(v.y * dt);
    case South => assert Abs(v.x) + Abs(v.y) == v.y;
    case West => assert Abs(v.x) + Abs(v.y) == -v.x; assert (-v.x) * dt == -(v.x * dt);
    case East => assert Abs(v.x) + Abs(v.y) == v.x;
    case NoDirection => assert Abs(v.x) + Abs(v.y) == 0.0;
  }

  /**
   * A dog that is stopped stands at the farthest point on its way that it could reach on any found
   * road under its feet; only a way shorter than the smallest normal double is ignored.
   */
  lemma StopIsFarthest(from: Point, v: Vec, dir: Direction, dt: real, roads: seq<Road>, to: Point, r: Road, p: Point)
    requires Coherent(dir, v) && dt >= 0.0
    requires Moves(from, v, dir, dt, roads, to, true)
    requires r in roads && Relevant(from, Target(from, v, dt), r) && OnRoad(from, r)
    requires OnRoad(p, r) && Ahead(dir, from, p) && Ahead(dir, p, Target(from, v, dt))
    ensures AxisParallel(from, to) && Distance(from, p) <= Max(SMALLEST_NORMAL, Distance(from, to))
  {
    var target := Target(from, v, dt);
    var found :| IsQuery(roads, from, target, found) && IsMove(from, v, dir, dt, found, to, true);
    TargetIsAhead(from, v, dir, dt);
    assert r in found;
    StopPointIsFarthest(from, target, r, dir);
  }

  /**
   * The index against a scan of all roads: the index never sends a dog farther, and the two agree
   * when neither end of the movement lies in an end cap of a road.
   */
  lemma IndexRefinesFullScan(
    from: Point, v: Vec, dir: Direction, dt: real, roads: seq<Road>,
    to: Point, stopped: bool, fullTo: Point, fullStopped: bool)
    requires Coherent(dir, v) && dt >= 0.0
    requires Moves(from, v, dir, dt, roads, to, stopped)
    requires IsMove(from, v, dir, dt, roads, fullTo, fullStopped)
    ensures AxisParallel(from, to) && AxisParallel(from, fullTo)
    ensures Distance(from, to) <= Distance(from, fullTo)
    ensures (forall r :: r in roads ==> !InEndCap(from, r) && !InEndCap(Target(from, v, dt), r))
      ==> to == fullTo && (OnSomeRoad(from, roads) ==> stopped == fullStopped)
  {
    var target := Target(from, v, dt);
    var found :| IsQuery(roads, from, target, found) && IsMove(from, v, dir, dt, found, to, stopped);
    TargetIsAhead(from, v, dir, dt);
    IndexNeverFarther(from, v, dir, dt, roads, found, to, stopped, fullTo, fullStopped);
    if forall r :: r in roads ==> !InEndCap(from, r) && !InEndCap(target, r) {
      forall r | r in roads && (OnRoad(from, r) || OnRoad(target, r)) ensures r in found {
        if !Relevant(from, target, r) { IndexLosesOnlyEndCaps(from, target, r); }
      }
      IndexAgrees(from, v, dir, dt, roads, found, to, stopped, fullTo, fullStopped);
    }
  }

  lemma IndexNeverFarther(
    from: Point, v: Vec, dir: Direction, dt: real, roads: seq<Road>, found: seq<Road>,
    to: Point, stopped: bool, fullTo: Point, fullStopped: bool)
    requires Ahead(dir, from, Target(from, v, dt))
    requires forall r :: r in found ==> r in roads
    requires IsMove(from, v, dir, dt, found, to, stopped)
    requires IsMove(from, v, dir, dt, roads, fullTo, fullStopped)
    ensures AxisParallel(from, to) && AxisParallel(from, fullTo)
    ensures Distance(from, to) <= Distance(from, fullTo)
  {
    var target := Target(from, v, dt);
    if to != from {
      if !stopped {
        assert OnSomeRoad(target, roads);
      } else {
        var r :| r in found && OnRoad(from, r) && to == FindStopPoint(from, target, r, dir)
                 && Distance(from, to) > SMALLEST_NORMAL;
        assert r in roads;
        StopPointIsFarthest(from, target, r, dir);
      }
    }
  }

  lemma IndexAgrees(
    from: Point, v: Vec, dir: Direction, dt: real, roads: seq<Road>, found: seq<Road>,
    to: Point, stopped: bool, fullTo: Point, fullStopped: bool)
    requires forall r :: r in found ==> r in roads
    requires forall r :: r in roads && (OnRoad(from, r) || OnRoad(Target(from, v, dt), r)) ==> r in found
    requires IsMove(from, v, dir, dt, found, to, stopped)
    requires IsMove(from, v, dir, dt, roads, fullTo, fullStopped)
    ensures to == fullTo
    ensures OnSomeRoad(from, roads) ==> stopped == fullStopped
  {
    var target := Target(from, v, dt);
    if fullStopped && fullTo != from {
      var r :| r in roads && OnRoad(from, r) && fullTo == FindStopPoint(from, target, r, dir)
               && Distance(from, fullTo) > SMALLEST_NORMAL;
      assert r in found;
    }
    if stopped && fullStopped {
      assert IsStop(from, target, dir, found, fullTo);
      assert SameRoads(found, found);
      StopIsUnique(from, target, dir, found, to, found, fullTo);
    }
  }

  /**
   * Beyond the end of a lone road the index is blind: a dog that was stopped at the east edge and
   * turns west leaves the cap exactly when one tick carries it back over the cap's width.
   */
  lemma FrozenInEndCap(road: Road, speed: real, dt: real, to: Point, stopped: bool)
    requires road.HorizontalRoad? && road.start.x < road.endX
    requires speed >= EPSILON && dt >= 0.0
    requires Moves(Point(road.MaxX() + ROAD_HALF_WIDTH, road.start.y as real), Vec(-speed, 0.0), West, dt,
                   [road], to, stopped)
    ensures to == Point(road.MaxX() + ROAD_HALF_WIDTH, road.start.y as real)
       <==> speed * dt < ROAD_HALF_WIDTH
    ensures speed * dt < ROAD_HALF_WIDTH ==> !stopped
  {
    var from := Point(road.MaxX() + ROAD_HALF_WIDTH, road.start.y as real);
    var v := Vec(-speed, 0.0);
    var target := Target(from, v, dt);
    ProductIsNonNegative(speed, dt);
    assert target == Point(from.x - speed * dt, from.y);
    OverlapDecidesMeeting(from, target, BoundingBox(road));
    var found :| IsQuery([road], from, target, found) && IsMove(from, v, West, dt, found, to, stopped);
    if speed * dt < ROAD_HALF_WIDTH {
      assert |found| > 0 ==> found[0] in [road];
    } else {
      assert road in found;
      if stopped {
        var stop := FindStopPoint(from, target, road, West);
        assert Distance(from, stop) > 0.1;
        assert to != from;
      }
    }
  }

  /**
   * Only the end point of a movement is tested, so a long tick can carry a dog over a gap: here
   * from a road that ends at x = 1 to one that starts at x = 3, although x = 2 is on no road.
   */
  lemma LongTickJumpsGap(to: Point, stopped: bool)
    requires Moves(Point(0.0, 0.0), Vec(3.0, 0.0), East, 1.0,
                   [HorizontalRoad(GridPoint(0, 0), 1), HorizontalRoad(GridPoint(3, 0), 4)], to, stopped)
    ensures to == Point(3.0, 0.0)
    ensures !OnSomeRoad(Point(2.0, 0.0),
                        [HorizontalRoad(GridPoint(0, 0), 1), HorizontalRoad(GridPoint(3, 0), 4)])
  {
    FarSideIsReached();
    ReachesTargetDecidesMove(Point(0.0, 0.0), Vec(3.0, 0.0), East, 1.0,
      [HorizontalRoad(GridPoint(0, 0), 1), HorizontalRoad(GridPoint(3, 0), 4)], to, stopped);
  }

  lemma FarSideIsReached()
    ensures ReachesTarget(Point(0.0, 0.0), Vec(3.0, 0.0), East, 1.0,
                          [HorizontalRoad(GridPoint(0, 0), 1), HorizontalRoad(GridPoint(3, 0), 4)])
  {
    var from := Point(0.0, 0.0);
    var far := HorizontalRoad(GridPoint(3, 0), 4);
    var target := Target(from, Vec(3.0, 0.0), 1.0);
    assert target == Point(3.0, 0.0);
    OverlapDecidesMeeting(from, target, BoundingBox(far));
    assert Relevant(from, target, far) && OnRoad(target, far);
    assert far in [HorizontalRoad(GridPoint(0, 0), 1), far];
  }

  // ---- merging ticks ----

  /** The tick takes the "move to target" branch. */
  ghost predicate ReachesTarget(from: Point, v: Vec, dir: Direction, dt: real, roads: seq<Road>) {
    && !Stands(dir, v)
    && exists r :: r in roads && Relevant(from, Target(from, v, dt), r) && OnRoad(Target(from, v, dt), r)
  }

  lemma ReachesTargetDecidesMove(
    from: Point, v: Vec, dir: Direction, dt: real, roads: seq<Road>, to: Point, stopped: bool)
    requires Moves(from, v, dir, dt, roads, to, stopped)
    requires !Stands(dir, v)
    ensures ReachesTarget(from, v, dir, dt, roads) ==> to == Target(from, v, dt) && !stopped
    ensures to == Target(from, v, dt) && !stopped && to != from ==> ReachesTarget(from, v, dir, dt, roads)
  {
    var target := Target(from, v, dt);
    var found :| IsQuery(roads, from, target, found) && IsMove(from, v, dir, dt, found, to, stopped);
    if ReachesTarget(from, v, dir, dt, roads) {
      var r :| r in roads && Relevant(from, target, r) && OnRoad(target, r);
      assert r in found;
    }
  }

  function Sum(dts: seq<real>): real {
    if dts == [] then 0.0 else Sum(dts[..|dts| - 1]) + dts[|dts| - 1]
  }

  /** Where a dog is after ticks that all reach their targets. */
  function Walk(from: Point, v: Vec, dts: seq<real>): Point {
    if dts == [] then from else Target(Walk(from, v, dts[..|dts| - 1]), v, dts[|dts| - 1])
  }

  lemma {:induction false} WalkIsOneStep(from: Point, v: Vec, dts: seq<real>)
    ensures Walk(from, v, dts) == Target(from, v, Sum(dts))
  {
    if dts == [] {
    } else {
      var (s, d) := (Sum(dts[..|dts| - 1]), dts[|dts| - 1]);
      WalkIsOneStep(from, v, dts[..|dts| - 1]);
      assert v.x * s + v.x * d == v.x * (s + d);
      assert v.y * s + v.y * d == v.y * (s + d);
    }
  }

  lemma {:induction false} SumIsNonNegative(dts: seq<real>)
    requires forall k :: 0 <= k < |dts| ==> dts[k] >= 0.0
    ensures Sum(dts) >= 0.0
  {
    if dts == [] {
    } else {
      SumIsNonNegative(dts[..|dts| - 1]);
    }
  }

  /**
   * Consecutive ticks under one heading that all reach their targets can be merged: a single tick
   * of the total duration reaches its target too, and that target is where the small ticks ended.
   */
  lemma MergedTickReachesSameTarget(from: Point, v: Vec, dir: Direction, dts: seq<real>, roads: seq<Road>)
    requires dts != [] && forall k :: 0 <= k < |dts| ==> dts[k] >= 0.0
    requires forall k :: 0 <= k < |dts| ==> ReachesTarget(Walk(from, v, dts[..k]), v, dir, dts[k], roads)
    ensures ReachesTarget(from, v, dir, Sum(dts), roads)
    ensures Target(from, v, Sum(dts)) == Walk(from, v, dts)
  {
    var n := |dts| - 1;
    WalkIsOneStep(from, v, dts[..n]);
    WalkIsOneStep(from, v, dts);
    SumIsNonNegative(dts[..n]);
    LastTickDecides(from, Walk(from, v, dts[..n]), v, dir, Sum(dts[..n]), dts[n], roads);
  }

  lemma LastTickDecides(
    from: Point, mid: Point, v: Vec, dir: Direction, s: real, d: real, roads: seq<Road>)
    requires s >= 0.0 && d >= 0.0
    requires mid == Target(from, v, s)
    requires ReachesTarget(mid, v, dir, d, roads)
    ensures ReachesTarget(from, v, dir, s + d, roads)
  {
    assert v.x * s + v.x * d == v.x * (s + d);
    assert v.y * s + v.y * d == v.y * (s + d);
    assert Target(mid, v, d) == Target(from, v, s + d);
    var r :| r in roads && Relevant(mid, Target(mid, v, d), r) && OnRoad(Target(mid, v, d), r);
    LongerSegmentMeetsBox(from, v, s, d, BoundingBox(r));
  }

  lemma LongerSegmentMeetsBox(from: Point, v: Vec, s: real, d: real, box: Box)
    requires s >= 0.0 && d >= 0.0
    requires var mid := Target(from, v, s);
      SegmentMeetsBox(mid, Target(mid, v, d), box) || InsideBox(mid, box)
    ensures SegmentMeetsBox(from, Target(from, v, s + d), box)
  {
    var mid := Target(from, v, s);
    var to := Target(from, v, s + d);
    var t := 0.0;
    if SegmentMeetsBox(mid, Target(mid, v, d), box) {
      t :| 0.0 <= t <= 1.0 && InBox(Between(mid, Target(mid, v, d), t), box);
    }
    assert Between(mid, Target(mid, v, d), 0.0) == mid;
    var u := PlaceOnLongerSegment(from, v, s, d, t);
    assert InBox(Between(from, to, u), box);
  }

  lemma PlaceOnLongerSegment(from: Point, v: Vec, s: real, d: real, t: real) returns (u: real)
    requires s >= 0.0 && d >= 0.0 && 0.0 <= t <= 1.0
    ensures 0.0 <= u <= 1.0
    ensures var mid := Target(from, v, s);
      Between(from, Target(from, v, s + d), u) == Between(mid, Target(mid, v, d), t)
  {
    if s + d == 0.0 {
      u := 0.0;
    } else {
      u := (s + t * d) / (s + d);
      ConvexCombination(0.0, d, t, 0.0, d);
      DivisionBounds(s + t * d, s + d);
      assert u * (s + d) == s + t * d;
      SameFraction(v.x, s, d, t, u);
      SameFraction(v.y, s, d, t, u);
    }
  }

  lemma SameFraction(c: real, s: real, d: real, t: real, u: real)
    requires u * (s + d) == s + t * d
    ensures u * (c * (s + d)) == c * s + t * (c * d)
  {
    assert u * (c * (s + d)) == c * (u * (s + d));
    assert c * (s + t * d) == c * s + c * (t * d);
    assert c * (t * d) == t * (c * d);
  }
}
