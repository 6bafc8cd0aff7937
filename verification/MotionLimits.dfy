/**
 * What the motion code does not promise, and exactly when it happens: dogs that the index leaves
 * frozen, stops that differ from those of a scan of all roads, and ways that leave the network.
 */
module MotionLimits {
  import opened Geometry
  import opened Motion
  import opened Roads

  // ---- freezing ----

  /** Some road passes the filter of the index query for the movement. */
  ghost predicate SomeRelevant(from: Point, to: Point, roads: seq<Road>) {
    exists r :: r in roads && Relevant(from, to, r)
  }

  lemma FoundNothing(from: Point, to: Point, roads: seq<Road>, found: seq<Road>)
    requires IsQuery(roads, from, to, found)
    ensures found == [] <==> !SomeRelevant(from, to, roads)
  {
    if found != [] {
      assert found[0] in found;
    }
  }

  /**
   * A dog that should move stays where it is without being stopped exactly when no road passes the
   * filter, or when the tick is too short to move it and a found road holds it. On a road network a
   * dog for which no road passes the filter stands past an end of every road that holds it.
   */
  lemma FrozenExactly(
    from: Point, v: Vec, dir: Direction, dt: real, roads: seq<Road>, to: Point, stopped: bool)
    requires !Stands(dir, v)
    requires Moves(from, v, dir, dt, roads, to, stopped)
    ensures to == from && !stopped
       <==> || !SomeRelevant(from, Target(from, v, dt), roads)
            || (Target(from, v, dt) == from && ReachesTarget(from, v, dir, dt, roads))
    ensures !SomeRelevant(from, Target(from, v, dt), roads)
       ==> forall r :: r in roads && OnRoad(from, r) ==> BeyondEnds(from, r)
  {
    var target := Target(from, v, dt);
    var found :| IsQuery(roads, from, target, found) && IsMove(from, v, dir, dt, found, to, stopped);
    FoundNothing(from, target, roads, found);
    ReachesTargetDecidesMove(from, v, dir, dt, roads, to, stopped);
    if found != [] && OnSomeRoad(target, found) {
      assert ReachesTarget(from, v, dir, dt, roads);
    }
    if !SomeRelevant(from, target, roads) {
      forall r | r in roads && OnRoad(from, r) ensures BeyondEnds(from, r) {
        IndexLosesOnlyEndCaps(from, target, r);
      }
    }
  }

  /** A dog that a tick leaves frozen is left frozen by every shorter tick. */
  lemma FrozenForShorterTicks(from: Point, v: Vec, dir: Direction, dt: real, shorter: real, roads: seq<Road>)
    requires Coherent(dir, v) && 0.0 <= shorter <= dt
    requires !SomeRelevant(from, Target(from, v, dt), roads)
    ensures !SomeRelevant(from, Target(from, v, shorter), roads)
  {
    var (near, far) := (Target(from, v, shorter), Target(from, v, dt));
    NearerOnAxis(from.x, v.x, shorter, dt);
    NearerOnAxis(from.y, v.y, shorter, dt);
    StaysOnAxis(v, dir, shorter, dt);
    assert AxisParallel(from, far) && AxisParallel(from, near);
    forall r | r in roads ensures !Relevant(from, near, r) {
      assert !Relevant(from, far, r);
      NearerMeetsLess(from, near, far, BoundingBox(r));
    }
  }

  lemma NearerMeetsLess(from: Point, near: Point, far: Point, box: Box)
    requires box.lo.x <= box.hi.x && box.lo.y <= box.hi.y
    requires AxisParallel(from, far) && AxisParallel(from, near)
    requires Min(from.x, far.x) <= near.x <= Max(from.x, far.x)
    requires Min(from.y, far.y) <= near.y <= Max(from.y, far.y)
    ensures SegmentMeetsBox(from, near, box) ==> SegmentMeetsBox(from, far, box)
  {
    OverlapDecidesMeeting(from, near, box);
    OverlapDecidesMeeting(from, far, box);
  }

  lemma NearerOnAxis(a: real, c: real, s: real, dt: real)
    requires 0.0 <= s <= dt
    ensures Min(a, a + c * dt) <= a + c * s <= Max(a, a + c * dt)
  {
    ScaledBy(c, s, dt);
    var (x, y) := (c * s, c * dt);
    if c >= 0.0 {
      assert 0.0 <= x <= y;
    } else {
      assert y <= x <= 0.0;
    }
  }

  lemma StaysOnAxis(v: Vec, dir: Direction, s: real, dt: real)
    requires Coherent(dir, v)
    ensures (v.x * s == 0.0 && v.x * dt == 0.0) || (v.y * s == 0.0 && v.y * dt == 0.0)
  {
    if v.x == 0.0 {
      assert v.x * s == 0.0 && v.x * dt == 0.0;
    } else {
      assert v.y == 0.0;
      assert v.y * s == 0.0 && v.y * dt == 0.0;
    }
  }

  lemma ScaledBy(c: real, s: real, dt: real)
    requires 0.0 <= s <= dt
    ensures c >= 0.0 ==> 0.0 <= c * s <= c * dt
    ensures c <= 0.0 ==> c * dt <= c * s <= 0.0
  {
    if c >= 0.0 {
      ProductIsNonNegative(c, s);
      ProductIsNonNegative(c, dt - s);
    }
    if c <= 0.0 {
      ProductIsNonNegative(-c, s);
      ProductIsNonNegative(-c, dt - s);
    }
  }

  // ---- the index against a scan of all roads ----

  /** How far the dog would get on this road alone. */
  function Reach(from: Point, to: Point, r: Road, dir: Direction): real {
    Distance(from, FindStopPoint(from, to, r, dir))
  }

  /** Some found road under the dog offers as much as `r`. */
  ghost predicate IsMatched(from: Point, to: Point, dir: Direction, roads: seq<Road>, r: Road) {
    exists s :: s in roads && Relevant(from, to, s) && OnRoad(from, s)
                && Reach(from, to, r, dir) <= Reach(from, to, s, dir)
  }

  /** Whatever way a road under the dog offers, some found road under the dog offers as much. */
  ghost predicate NothingLost(from: Point, to: Point, dir: Direction, roads: seq<Road>) {
    forall r {:trigger IsMatched(from, to, dir, roads, r)} ::
      (r in roads && OnRoad(from, r) && Reach(from, to, r, dir) > SMALLEST_NORMAL)
        ==> IsMatched(from, to, dir, roads, r)
  }

  ghost predicate SameStopFlag(from: Point, v: Vec, dir: Direction, dt: real, roads: seq<Road>) {
    var target := Target(from, v, dt);
    if OnSomeRoad(target, roads) then ReachesTarget(from, v, dir, dt, roads) || !SomeRelevant(from, target, roads)
    else SomeRelevant(from, target, roads)
  }

  /**
   * The index gives the position of a scan of all roads exactly when it finds a road that holds the
   * target (or the tick does not move the dog), where some road holds the target; and exactly when
   * it loses no way under the dog, where none does. The stop flag agrees too, except that the index
   * lets a dog for which it finds no road keep its speed.
   */
  lemma IndexAgreesExactly(
    from: Point, v: Vec, dir: Direction, dt: real, roads: seq<Road>,
    to: Point, stopped: bool, fullTo: Point, fullStopped: bool)
    requires Coherent(dir, v) && dt >= 0.0
    requires Moves(from, v, dir, dt, roads, to, stopped)
    requires IsMove(from, v, dir, dt, roads, fullTo, fullStopped)
    ensures Stands(dir, v) ==> to == fullTo && stopped == fullStopped
    ensures !Stands(dir, v) && OnSomeRoad(Target(from, v, dt), roads) ==>
              (to == fullTo <==> Target(from, v, dt) == from || ReachesTarget(from, v, dir, dt, roads))
    ensures !Stands(dir, v) && !OnSomeRoad(Target(from, v, dt), roads) ==>
              (to == fullTo <==> NothingLost(from, Target(from, v, dt), dir, roads))
    ensures !Stands(dir, v) && roads != [] ==>
              (stopped == fullStopped <==> SameStopFlag(from, v, dir, dt, roads))
  {
    if !Stands(dir, v) {
      var target := Target(from, v, dt);
      var found :| IsQuery(roads, from, target, found) && IsMove(from, v, dir, dt, found, to, stopped);
      FoundNothing(from, target, roads, found);
      TargetIsAhead(from, v, dir, dt);
      assert OnSomeRoad(target, found) <==> ReachesTarget(from, v, dir, dt, roads);
      if OnSomeRoad(target, roads) {
        assert roads != [];
        if stopped { StopShortOfTarget(from, target, dir, found, to); }
      } else if roads != [] {
        StopsAgreeExactly(from, target, dir, roads, found, to, fullTo);
      }
    }
  }

  /** A stop on roads that do not hold the target is not at the target, unless the dog is there already. */
  lemma StopShortOfTarget(from: Point, to: Point, dir: Direction, found: seq<Road>, stop: Point)
    requires IsStop(from, to, dir, found, stop) && Ahead(dir, from, to) && !OnSomeRoad(to, found)
    ensures stop == to ==> to == from
    ensures to == from ==> stop == from
  {
    if stop != from {
      var r :| r in found && OnRoad(from, r) && stop == FindStopPoint(from, to, r, dir);
      StopPointIsFarthest(from, to, r, dir);
    }
  }

  lemma StopsAgreeExactly(
    from: Point, target: Point, dir: Direction, roads: seq<Road>, found: seq<Road>, to: Point, fullTo: Point)
    requires Ahead(dir, from, target) && IsQuery(roads, from, target, found)
    requires if found == [] then to == from else IsStop(from, target, dir, found, to)
    requires IsStop(from, target, dir, roads, fullTo)
    ensures to == fullTo <==> NothingLost(from, target, dir, roads)
  {
    if NothingLost(from, target, dir, roads) {
      NothingLostAgrees(from, target, dir, roads, found, to, fullTo);
    } else {
      var r :| r in roads && OnRoad(from, r) && Reach(from, target, r, dir) > SMALLEST_NORMAL
               && !IsMatched(from, target, dir, roads, r);
      LostWayIsMissed(from, target, dir, roads, found, to, fullTo, r);
    }
  }

  lemma NothingLostAgrees(
    from: Point, target: Point, dir: Direction, roads: seq<Road>, found: seq<Road>, to: Point, fullTo: Point)
    requires Ahead(dir, from, target) && IsQuery(roads, from, target, found)
    requires if found == [] then to == from else IsStop(from, target, dir, found, to)
    requires IsStop(from, target, dir, roads, fullTo) && NothingLost(from, target, dir, roads)
    ensures to == fullTo
  {
    if fullTo != from {
      var s := AsFarAsStop(from, target, dir, roads, fullTo);
      assert s in found;
      FartherStopIsSame(from, target, dir, roads, found, to, fullTo, s);
    } else if to != from {
      NoStopBeyond(from, target, dir, roads, found, to);
    }
  }

  lemma AsFarAsStop(from: Point, target: Point, dir: Direction, roads: seq<Road>, fullTo: Point) returns (s: Road)
    requires IsStop(from, target, dir, roads, fullTo) && NothingLost(from, target, dir, roads) && fullTo != from
    ensures s in roads && Relevant(from, target, s) && OnRoad(from, s)
    ensures SMALLEST_NORMAL < Distance(from, fullTo) <= Reach(from, target, s, dir)
  {
    var r :| r in roads && OnRoad(from, r) && fullTo == FindStopPoint(from, target, r, dir)
             && Distance(from, fullTo) > SMALLEST_NORMAL;
    assert IsMatched(from, target, dir, roads, r);
    s :| s in roads && Relevant(from, target, s) && OnRoad(from, s)
         && Reach(from, target, r, dir) <= Reach(from, target, s, dir);
  }

  /** Where the full scan does not move the dog, no stop on some of the roads does. */
  lemma NoStopBeyond(from: Point, target: Point, dir: Direction, roads: seq<Road>, found: seq<Road>, to: Point)
    requires IsStop(from, target, dir, roads, from) && IsStop(from, target, dir, found, to)
    requires forall r :: r in found ==> r in roads
    ensures to == from
  {
    forall s | s in found && OnRoad(from, s) ensures Reach(from, target, s, dir) <= SMALLEST_NORMAL {
      assert s in roads;
    }
  }

  /** A found road that reaches as far as the full scan's stop makes the index stop there. */
  lemma FartherStopIsSame(
    from: Point, target: Point, dir: Direction, roads: seq<Road>, found: seq<Road>, to: Point, fullTo: Point, s: Road)
    requires Ahead(dir, from, target) && (forall r :: r in found ==> r in roads)
    requires IsStop(from, target, dir, found, to) && IsStop(from, target, dir, roads, fullTo)
    requires s in found && OnRoad(from, s) && fullTo != from
    requires SMALLEST_NORMAL < Distance(from, fullTo) <= Reach(from, target, s, dir)
    ensures to == fullTo
  {
    var r :| r in roads && OnRoad(from, r) && fullTo == FindStopPoint(from, target, r, dir);
    StopPointIsFarthest(from, target, r, dir);
    assert Distance(from, to) >= Distance(from, fullTo);
    var q :| q in found && OnRoad(from, q) && to == FindStopPoint(from, target, q, dir);
    StopPointIsFarthest(from, target, q, dir);
    assert q in roads && Distance(from, to) <= Distance(from, fullTo);
  }

  lemma LostWayIsMissed(
    from: Point, target: Point, dir: Direction, roads: seq<Road>, found: seq<Road>, to: Point, fullTo: Point, r: Road)
    requires IsQuery(roads, from, target, found)
    requires if found == [] then to == from else IsStop(from, target, dir, found, to)
    requires IsStop(from, target, dir, roads, fullTo)
    requires r in roads && OnRoad(from, r) && Reach(from, target, r, dir) > SMALLEST_NORMAL
    requires !IsMatched(from, target, dir, roads, r)
    ensures to != fullTo
  {
    assert Distance(from, fullTo) >= Reach(from, target, r, dir);
    if to != from {
      var s :| s in found && OnRoad(from, s) && to == FindStopPoint(from, target, s, dir);
      assert s in roads && Reach(from, target, s, dir) < Reach(from, target, r, dir);
    }
  }

  // ---- ways that leave the network ----

  /** Every point of the straight way is on some road. */
  ghost predicate WayIsOnNetwork(from: Point, to: Point, roads: seq<Road>) {
    forall t: real :: 0.0 <= t <= 1.0 ==> OnSomeRoad(Between(from, to, t), roads)
  }

  /** The far edge of the road for a dog that follows the heading on the line through `p`. */
  function Edge(dir: Direction, p: Point, r: Road): Point {
    match dir
    case East => Point(r.MaxX() + ROAD_HALF_WIDTH, p.y)
    case West => Point(r.MinX() - ROAD_HALF_WIDTH, p.y)
    case North => Point(p.x, r.MinY() - ROAD_HALF_WIDTH)
    case South => Point(p.x, r.MaxY() + ROAD_HALF_WIDTH)
    case NoDirection => p
  }

  /** The road ends on the way, short of the target. */
  predicate EndsOnWay(dir: Direction, from: Point, to: Point, r: Road) {
    var edge := Edge(dir, from, r);
    OnRoad(edge, r) && Ahead(dir, from, edge) && Ahead(dir, edge, to) && edge != to
  }

  /** The road `s` holds the edge of `r` and goes on beyond it. */
  predicate TakesOver(dir: Direction, from: Point, r: Road, s: Road) {
    var edge := Edge(dir, from, r);
    OnRoad(edge, s) && Ahead(dir, edge, Edge(dir, from, s)) && Edge(dir, from, s) != edge
  }

  ghost predicate IsContinued(dir: Direction, from: Point, roads: seq<Road>, r: Road) {
    exists s :: s in roads && TakesOver(dir, from, r, s)
  }

  /** Every road that ends on the way is continued by another. */
  ghost predicate HasNoGap(dir: Direction, from: Point, to: Point, roads: seq<Road>) {
    forall r {:trigger IsContinued(dir, from, roads, r)} ::
      r in roads && EndsOnWay(dir, from, to, r) ==> IsContinued(dir, from, roads, r)
  }

  // On the line that a dog follows, a road is an interval. Positions along the heading grow ahead.

  function Along(dir: Direction, p: Point): real {
    match dir
    case East => p.x
    case West => -p.x
    case North => -p.y
    case South => p.y
    case NoDirection => 0.0
  }

  function Begin(dir: Direction, r: Road): real {
    match dir
    case East => r.MinX() - ROAD_HALF_WIDTH
    case West => -(r.MaxX() + ROAD_HALF_WIDTH)
    case North => -(r.MaxY() + ROAD_HALF_WIDTH)
    case South => r.MinY() - ROAD_HALF_WIDTH
    case NoDirection => 0.0
  }

  function End(dir: Direction, r: Road): real {
    match dir
    case East => r.MaxX() + ROAD_HALF_WIDTH
    case West => -(r.MinX() - ROAD_HALF_WIDTH)
    case North => -(r.MinY() - ROAD_HALF_WIDTH)
    case South => r.MaxY() + ROAD_HALF_WIDTH
    case NoDirection => 0.0
  }

  /** The line through `p` along the heading runs over the road. */
  predicate Crosses(dir: Direction, p: Point, r: Road) {
    if dir == East || dir == West then r.MinY() - ROAD_HALF_WIDTH <= p.y <= r.MaxY() + ROAD_HALF_WIDTH
    else r.MinX() - ROAD_HALF_WIDTH <= p.x <= r.MaxX() + ROAD_HALF_WIDTH
  }

  predicate Holds(dir: Direction, p: Point, r: Road, x: real) {
    Crosses(dir, p, r) && Begin(dir, r) <= x <= End(dir, r)
  }

  ghost predicate IsHeld(dir: Direction, p: Point, roads: seq<Road>, x: real) {
    exists r :: r in roads && Holds(dir, p, r, x)
  }

  /** The point of the line through `p` at position `x`. */
  function At(dir: Direction, p: Point, x: real): Point {
    match dir
    case East => Point(x, p.y)
    case West => Point(-x, p.y)
    case North => Point(p.x, -x)
    case South => Point(p.x, x)
    case NoDirection => p
  }

  lemma HoldsMeansOnRoad(dir: Direction, p: Point, r: Road, x: real)
    requires dir != NoDirection
    ensures Holds(dir, p, r, x) <==> OnRoad(At(dir, p, x), r)
  {
  }

  lemma EdgeIsAtEnd(dir: Direction, p: Point, r: Road)
    requires dir != NoDirection
    ensures Edge(dir, p, r) == At(dir, p, End(dir, r))
  {
  }

  /** Points of one line compare as their positions do. */
  lemma AheadMeansGreater(dir: Direction, p: Point, x: real, y: real)
    requires dir != NoDirection
    ensures Ahead(dir, At(dir, p, x), At(dir, p, y)) <==> x <= y
    ensures At(dir, p, x) == At(dir, p, y) <==> x == y
  {
  }

  lemma AheadIsAt(dir: Direction, p: Point, to: Point)
    requires dir != NoDirection && Ahead(dir, p, to)
    ensures p == At(dir, p, Along(dir, p)) && to == At(dir, p, Along(dir, to))
  {
  }

  lemma EndsMeansEnd(dir: Direction, p: Point, to: Point, r: Road)
    requires dir != NoDirection && Ahead(dir, p, to)
    ensures EndsOnWay(dir, p, to, r) <==> Crosses(dir, p, r) && Along(dir, p) <= End(dir, r) < Along(dir, to)
  {
    EdgeIsAtEnd(dir, p, r);
    AheadIsAt(dir, p, to);
    HoldsMeansOnRoad(dir, p, r, End(dir, r));
    AheadMeansGreater(dir, p, Along(dir, p), End(dir, r));
    AheadMeansGreater(dir, p, End(dir, r), Along(dir, to));
  }

  lemma TakesOverMeansBeyond(dir: Direction, p: Point, r: Road, s: Road)
    requires dir != NoDirection
    ensures TakesOver(dir, p, r, s) <==> Holds(dir, p, s, End(dir, r)) && End(dir, r) < End(dir, s)
  {
    EdgeIsAtEnd(dir, p, r);
    EdgeIsAtEnd(dir, p, s);
    HoldsMeansOnRoad(dir, p, s, End(dir, r));
    AheadMeansGreater(dir, p, End(dir, r), End(dir, s));
  }

  /** Points of the way are the positions between its ends. */
  lemma WayIsInterval(dir: Direction, from: Point, to: Point, roads: seq<Road>)
    requires dir != NoDirection && Ahead(dir, from, to)
    ensures WayIsOnNetwork(from, to, roads)
       <==> forall x: real :: Along(dir, from) <= x <= Along(dir, to) ==> IsHeld(dir, from, roads, x)
  {
    if WayIsOnNetwork(from, to, roads) {
      forall x: real | Along(dir, from) <= x <= Along(dir, to) ensures IsHeld(dir, from, roads, x) {
        var t := FractionOf(Along(dir, from), Along(dir, to), x);
        BetweenIsAt(dir, from, to, t);
        assert OnSomeRoad(Between(from, to, t), roads);
        HeldMeansOnSomeRoad(dir, from, roads, x);
      }
    } else {
      var t :| 0.0 <= t <= 1.0 && !OnSomeRoad(Between(from, to, t), roads);
      var x := Mix(Along(dir, from), Along(dir, to), t);
      BetweenIsAt(dir, from, to, t);
      ConvexCombination(Along(dir, from), Along(dir, to), t, Along(dir, from), Along(dir, to));
      HeldMeansOnSomeRoad(dir, from, roads, x);
    }
  }

  lemma BetweenIsAt(dir: Direction, from: Point, to: Point, t: real)
    requires dir != NoDirection && Ahead(dir, from, to)
    ensures Between(from, to, t) == At(dir, from, Mix(Along(dir, from), Along(dir, to), t))
  {
    MixOfEqual(from.x, t);
    MixOfEqual(from.y, t);
    MixOfOpposites(from.x, to.x, t);
    MixOfOpposites(from.y, to.y, t);
  }

  lemma MixOfEqual(a: real, t: real)
    ensures Mix(a, a, t) == a
  {
  }

  lemma MixOfOpposites(a: real, b: real, t: real)
    ensures Mix(-a, -b, t) == -Mix(a, b, t)
  {
    assert t * (-b - -a) == -(t * (b - a));
  }

  lemma HeldMeansOnSomeRoad(dir: Direction, p: Point, roads: seq<Road>, x: real)
    requires dir != NoDirection
    ensures IsHeld(dir, p, roads, x) <==> OnSomeRoad(At(dir, p, x), roads)
  {
    forall r | r in roads ensures Holds(dir, p, r, x) <==> OnRoad(At(dir, p, x), r) {
      HoldsMeansOnRoad(dir, p, r, x);
    }
  }

  /** The roads that end at positions from `a` up to but not at `b` are continued. */
  ghost predicate EndsAreContinued(dir: Direction, p: Point, roads: seq<Road>, a: real, b: real) {
    forall r {:trigger IsHeldBeyond(dir, p, roads, End(dir, r))} ::
      r in roads && Crosses(dir, p, r) && a <= End(dir, r) < b ==> IsHeldBeyond(dir, p, roads, End(dir, r))
  }

  ghost predicate IsHeldBeyond(dir: Direction, p: Point, roads: seq<Road>, x: real) {
    exists s :: s in roads && Holds(dir, p, s, x) && x < End(dir, s)
  }

  /** A position beyond `h`, not beyond `b`, before which no road begins that begins beyond `h`. */
  function NextBegin(dir: Direction, roads: seq<Road>, h: real, b: real): (x: real)
    requires h < b
    ensures h < x <= b && forall r :: r in roads && Begin(dir, r) > h ==> x <= Begin(dir, r)
  {
    if roads == [] then b
    else
      var x := NextBegin(dir, roads[1..], h, b);
      var first := Begin(dir, roads[0]);
      if h < first < x then first else x
  }

  lemma CoveredEndsAreContinued(dir: Direction, p: Point, roads: seq<Road>, a: real, b: real)
    requires forall x: real :: a <= x <= b ==> IsHeld(dir, p, roads, x)
    ensures EndsAreContinued(dir, p, roads, a, b)
  {
    forall r | r in roads && Crosses(dir, p, r) && a <= End(dir, r) < b
      ensures IsHeldBeyond(dir, p, roads, End(dir, r))
    {
      var h := End(dir, r);
      var x := (h + NextBegin(dir, roads, h, b)) / 2.0;
      assert IsHeld(dir, p, roads, x);
      var s :| s in roads && Holds(dir, p, s, x);
    }
  }

  /** Of the roads that begin by `x` and reach `a`, one that reaches farthest. */
  lemma Farthest(dir: Direction, p: Point, roads: seq<Road>, a: real, x: real) returns (far: Road)
    requires exists r :: r in roads && Crosses(dir, p, r) && Begin(dir, r) <= x && a <= End(dir, r)
    ensures far in roads && Crosses(dir, p, far) && Begin(dir, far) <= x && a <= End(dir, far)
    ensures forall r :: r in roads && Crosses(dir, p, r) && Begin(dir, r) <= x ==> End(dir, r) <= End(dir, far)
  {
    var some :| some in roads && Crosses(dir, p, some) && Begin(dir, some) <= x && a <= End(dir, some);
    far := some;
    for i := 0 to |roads|
      invariant far in roads && Crosses(dir, p, far) && Begin(dir, far) <= x && a <= End(dir, far)
      invariant forall j :: 0 <= j < i && Crosses(dir, p, roads[j]) && Begin(dir, roads[j]) <= x ==>
                  End(dir, roads[j]) <= End(dir, far)
    {
      if Crosses(dir, p, roads[i]) && Begin(dir, roads[i]) <= x && End(dir, roads[i]) > End(dir, far) {
        far := roads[i];
      }
    }
  }

  lemma ContinuedEndsCover(dir: Direction, p: Point, roads: seq<Road>, a: real, b: real, x: real)
    requires IsHeld(dir, p, roads, a) && EndsAreContinued(dir, p, roads, a, b) && a <= x <= b
    ensures IsHeld(dir, p, roads, x)
  {
    var first :| first in roads && Holds(dir, p, first, a);
    var far := Farthest(dir, p, roads, a, x);
    assert End(dir, far) < x ==> IsHeldBeyond(dir, p, roads, End(dir, far));
    assert Holds(dir, p, far, x);
  }

  /** A straight way stays on the network exactly when it starts there and every road that ends on it is continued. */
  lemma WayIsOnNetworkExactly(dir: Direction, from: Point, to: Point, roads: seq<Road>)
    requires Ahead(dir, from, to)
    ensures WayIsOnNetwork(from, to, roads) <==> OnSomeRoad(from, roads) && HasNoGap(dir, from, to, roads)
  {
    assert Between(from, to, 0.0) == from;
    if dir == NoDirection {
      assert forall t: real :: Between(from, to, t) == from;
    } else {
      var (a, b) := (Along(dir, from), Along(dir, to));
      WayIsInterval(dir, from, to, roads);
      HeldMeansOnSomeRoad(dir, from, roads, a);
      NoGapMeansContinued(dir, from, to, roads);
      if forall x: real :: a <= x <= b ==> IsHeld(dir, from, roads, x) {
        CoveredEndsAreContinued(dir, from, roads, a, b);
      } else if IsHeld(dir, from, roads, a) && EndsAreContinued(dir, from, roads, a, b) {
        forall x: real | a <= x <= b ensures IsHeld(dir, from, roads, x) {
          ContinuedEndsCover(dir, from, roads, a, b, x);
        }
      }
    }
  }

  lemma NoGapMeansContinued(dir: Direction, from: Point, to: Point, roads: seq<Road>)
    requires dir != NoDirection && Ahead(dir, from, to)
    ensures HasNoGap(dir, from, to, roads)
       <==> EndsAreContinued(dir, from, roads, Along(dir, from), Along(dir, to))
  {
    forall r | r in roads
      ensures EndsOnWay(dir, from, to, r)
         <==> Crosses(dir, from, r) && Along(dir, from) <= End(dir, r) < Along(dir, to)
      ensures IsContinued(dir, from, roads, r) <==> IsHeldBeyond(dir, from, roads, End(dir, r))
    {
      EndsMeansEnd(dir, from, to, r);
      forall s | s in roads
        ensures TakesOver(dir, from, r, s) <==> Holds(dir, from, s, End(dir, r)) && End(dir, r) < End(dir, s)
      {
        TakesOverMeansBeyond(dir, from, r, s);
      }
    }
  }

  /**
   * The way of a tick stays on the network exactly when the tick does not take the "move to target"
   * branch or every road that ends on the way to the target is continued by another.
   */
  lemma TickStaysOnNetworkExactly(
    from: Point, v: Vec, dir: Direction, dt: real, roads: seq<Road>, to: Point, stopped: bool)
    requires Coherent(dir, v) && dt >= 0.0 && OnSomeRoad(from, roads)
    requires Moves(from, v, dir, dt, roads, to, stopped)
    ensures WayIsOnNetwork(from, to, roads)
       <==> !ReachesTarget(from, v, dir, dt, roads) || HasNoGap(dir, from, Target(from, v, dt), roads)
  {
    TargetIsAhead(from, v, dir, dt);
    if ReachesTarget(from, v, dir, dt, roads) {
      ReachesTargetDecidesMove(from, v, dir, dt, roads, to, stopped);
      WayIsOnNetworkExactly(dir, from, to, roads);
    } else {
      OtherBranchesAreSafe(from, v, dir, dt, roads, to, stopped);
    }
  }

  lemma OtherBranchesAreSafe(
    from: Point, v: Vec, dir: Direction, dt: real, roads: seq<Road>, to: Point, stopped: bool)
    requires Coherent(dir, v) && dt >= 0.0 && OnSomeRoad(from, roads)
    requires Moves(from, v, dir, dt, roads, to, stopped) && !ReachesTarget(from, v, dir, dt, roads)
    ensures WayIsOnNetwork(from, to, roads)
  {
    if stopped {
      StopSweepsOneRoad(from, v, dir, dt, roads, to);
      var r :| r in roads && SweptBy(r, from, to);
      forall t: real | 0.0 <= t <= 1.0 ensures OnSomeRoad(Between(from, to, t), roads) {
        assert OnRoad(Between(from, to, t), r);
      }
    } else {
      var found :| IsQuery(roads, from, Target(from, v, dt), found) && IsMove(from, v, dir, dt, found, to, stopped);
      assert to == from;
      forall t: real | 0.0 <= t <= 1.0 ensures OnSomeRoad(Between(from, to, t), roads) {
        assert Between(from, to, t) == from;
      }
    }
  }

  /** The long tick of `LongTickJumpsGap` leaves the network: nothing continues the first road. */
  lemma LongTickLeavesNetwork(to: Point, stopped: bool)
    requires Moves(Point(0.0, 0.0), Vec(3.0, 0.0), East, 1.0,
                   [HorizontalRoad(GridPoint(0, 0), 1), HorizontalRoad(GridPoint(3, 0), 4)], to, stopped)
    ensures !WayIsOnNetwork(Point(0.0, 0.0), to,
                            [HorizontalRoad(GridPoint(0, 0), 1), HorizontalRoad(GridPoint(3, 0), 4)])
  {
    var roads := [HorizontalRoad(GridPoint(0, 0), 1), HorizontalRoad(GridPoint(3, 0), 4)];
    LongTickJumpsGap(to, stopped);
    assert !IsContinued(East, Point(0.0, 0.0), roads, roads[0]);
    assert EndsOnWay(East, Point(0.0, 0.0), to, roads[0]) && roads[0] in roads;
    WayIsOnNetworkExactly(East, Point(0.0, 0.0), to, roads);
  }
}
