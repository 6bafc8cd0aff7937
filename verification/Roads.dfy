/**
 * Roads, the boxes under which the spatial index files them, and the two geometric tests of the
 * motion code: "is this point on this road?" and "where would a dog stop on this road?".
 */
module Roads {
  import opened Geometry

  const ROAD_HALF_WIDTH: real := 0.4

  datatype GridPoint = GridPoint(x: int, y: int)

  /** A road is built from a start and one end coordinate, along one of the axes. */
  datatype Road =
    | HorizontalRoad(start: GridPoint, endX: int)
    | VerticalRoad(start: GridPoint, endY: int)
  {
    function End(): GridPoint {
      match this
      case HorizontalRoad(s, x) => GridPoint(x, s.y)
      case VerticalRoad(s, y) => GridPoint(s.x, y)
    }

    /** A road of length zero is horizontal and vertical at once. */
    predicate IsHorizontal() { start.y == End().y }

    predicate IsVertical() { start.x == End().x }

    function MinX(): real { Min(start.x as real, End().x as real) }
    function MaxX(): real { Max(start.x as real, End().x as real) }
    function MinY(): real { Min(start.y as real, End().y as real) }
    function MaxY(): real { Max(start.y as real, End().y as real) }
  }

  datatype Box = Box(lo: Point, hi: Point)

  /** The box stored in the index: padded across the road, not beyond its two ends. */
  function BoundingBox(r: Road): (b: Box)
    ensures b.lo.x <= b.hi.x && b.lo.y <= b.hi.y
  {
    if r.IsVertical() then
      Box(Point(r.start.x as real - ROAD_HALF_WIDTH, r.MinY()),
          Point(r.start.x as real + ROAD_HALF_WIDTH, r.MaxY()))
    else
      Box(Point(r.MinX(), r.start.y as real - ROAD_HALF_WIDTH),
          Point(r.MaxX(), r.start.y as real + ROAD_HALF_WIDTH))
  }

  /** The road surface: padded on all four sides. */
  predicate OnRoad(p: Point, r: Road) {
    if r.IsHorizontal() then
      && r.MinX() - ROAD_HALF_WIDTH <= p.x <= r.MaxX() + ROAD_HALF_WIDTH
      && r.start.y as real - ROAD_HALF_WIDTH <= p.y <= r.start.y as real + ROAD_HALF_WIDTH
    else
      && r.MinY() - ROAD_HALF_WIDTH <= p.y <= r.MaxY() + ROAD_HALF_WIDTH
      && r.start.x as real - ROAD_HALF_WIDTH <= p.x <= r.start.x as real + ROAD_HALF_WIDTH
  }

  ghost predicate OnSomeRoad(p: Point, roads: seq<Road>) {
    exists r :: r in roads && OnRoad(p, r)
  }

  predicate InBox(p: Point, b: Box) {
    b.lo.x <= p.x <= b.hi.x && b.lo.y <= p.y <= b.hi.y
  }

  predicate InsideBox(p: Point, b: Box) {
    b.lo.x < p.x < b.hi.x && b.lo.y < p.y < b.hi.y
  }

  /** The closed segment from `a` to `b` meets the closed box. */
  ghost predicate SegmentMeetsBox(a: Point, b: Point, box: Box) {
    exists t: real :: 0.0 <= t <= 1.0 && InBox(Between(a, b, t), box)
  }

  /** The filter of the index query for a movement from `from` to `to`. */
  ghost predicate Relevant(from: Point, to: Point, r: Road) {
    SegmentMeetsBox(from, to, BoundingBox(r)) || InsideBox(from, BoundingBox(r))
  }

  /** `found` lists, in any order, exactly the roads that pass the filter. */
  ghost predicate IsQuery(roads: seq<Road>, from: Point, to: Point, found: seq<Road>) {
    forall r :: r in found <==> r in roads && Relevant(from, to, r)
  }

  predicate AxisParallel(a: Point, b: Point) {
    a.x == b.x || a.y == b.y
  }

  /** For a movement along an axis the filter is an overlap of intervals. */
  predicate Overlaps(a: Point, b: Point, box: Box) {
    && Min(a.x, b.x) <= box.hi.x && box.lo.x <= Max(a.x, b.x)
    && Min(a.y, b.y) <= box.hi.y && box.lo.y <= Max(a.y, b.y)
  }

  lemma OverlapDecidesMeeting(a: Point, b: Point, box: Box)
    requires AxisParallel(a, b)
    requires box.lo.x <= box.hi.x && box.lo.y <= box.hi.y
    ensures Overlaps(a, b, box) <==> SegmentMeetsBox(a, b, box)
  {
    if Overlaps(a, b, box) {
      OverlapMeets(a, b, box);
    }
    if SegmentMeetsBox(a, b, box) {
      var t :| 0.0 <= t <= 1.0 && InBox(Between(a, b, t), box);
      ConvexCombination(a.x, b.x, t, Min(a.x, b.x), Max(a.x, b.x));
      ConvexCombination(a.y, b.y, t, Min(a.y, b.y), Max(a.y, b.y));
    }
  }

  lemma OverlapMeets(a: Point, b: Point, box: Box)
    requires AxisParallel(a, b) && Overlaps(a, b, box)
    requires box.lo.x <= box.hi.x && box.lo.y <= box.hi.y
    ensures SegmentMeetsBox(a, b, box)
  {
    // the point of the segment nearest to the low corner of the box
    var near := Point(Max(Min(a.x, b.x), box.lo.x), Max(Min(a.y, b.y), box.lo.y));
    var t: real;
    if a.x == b.x {
      t := FractionOf(a.y, b.y, near.y);
    } else {
      t := FractionOf(a.x, b.x, near.x);
    }
    assert Between(a, b, t) == near && InBox(near, box);
  }

  /** The index query. Callers learn which roads are found, not in which order. */
  method QueryIndex(roads: seq<Road>, from: Point, to: Point) returns (found: seq<Road>)
    requires AxisParallel(from, to)
    ensures IsQuery(roads, from, to, found)
  {
    found := [];
    for i := 0 to |roads|
      invariant forall r :: r in found <==> r in roads[..i] && Relevant(from, to, r)
    {
      OverlapDecidesMeeting(from, to, BoundingBox(roads[i]));
      assert roads[..i + 1] == roads[..i] + [roads[i]];
      if Overlaps(from, to, BoundingBox(roads[i])) || InsideBox(from, BoundingBox(roads[i])) {
        found := found + [roads[i]];
      }
    }
    assert roads[..|roads|] == roads;
  }

  /** `p` lies on the road but beyond the box under which the index files the road. */
  predicate InEndCap(p: Point, r: Road) {
    OnRoad(p, r) && !InBox(p, BoundingBox(r))
  }

  /** Past one of the two ends of the road, along the road. */
  predicate BeyondEnds(p: Point, r: Road) {
    if r.IsVertical() then p.y < r.MinY() || p.y > r.MaxY() else p.x < r.MinX() || p.x > r.MaxX()
  }

  /** No coordinate of the two points differs by more than 0.4. */
  predicate IsNear(p: Point, q: Point) { Abs(p.x - q.x) <= 0.4 && Abs(p.y - q.y) <= 0.4 }

  /** A road's surface is what lies near its middle line. */
  lemma HorizontalRoadSurface(start: GridPoint, endX: int, p: Point)
    ensures OnRoad(p, HorizontalRoad(start, endX))
       <==> exists q: Point :: && IsNear(p, q) && q.y == start.y as real
                               && Min(start.x as real, endX as real) <= q.x <= Max(start.x as real, endX as real)
  {
    var (lo, hi) := (Min(start.x as real, endX as real), Max(start.x as real, endX as real));
    var q := Point(Max(lo, Min(p.x, hi)), start.y as real);
    assert OnRoad(p, HorizontalRoad(start, endX)) <==> IsNear(p, q);
  }

  lemma VerticalRoadSurface(start: GridPoint, endY: int, p: Point)
    ensures OnRoad(p, VerticalRoad(start, endY))
       <==> exists q: Point :: && IsNear(p, q) && q.x == start.x as real
                               && Min(start.y as real, endY as real) <= q.y <= Max(start.y as real, endY as real)
  {
    var (lo, hi) := (Min(start.y as real, endY as real), Max(start.y as real, endY as real));
    var q := Point(start.x as real, Max(lo, Min(p.y, hi)));
    assert OnRoad(p, VerticalRoad(start, endY)) <==> IsNear(p, q);
  }

  /** The index files of each road the part of its surface that lies between its ends. */
  lemma BoxIsSurfaceBetweenEnds(p: Point, r: Road)
    ensures InBox(p, BoundingBox(r)) <==> OnRoad(p, r) && !BeyondEnds(p, r)
    ensures InEndCap(p, r) <==> OnRoad(p, r) && BeyondEnds(p, r)
  {
  }

  /** Wherever a dog between the ends of a road is going, the index finds that road. */
  lemma RoadBetweenEndsIsFound(p: Point, to: Point, r: Road)
    requires OnRoad(p, r) && !BeyondEnds(p, r)
    ensures Relevant(p, to, r)
  {
    BoxIsSurfaceBetweenEnds(p, r);
    assert Between(p, to, 0.0) == p;
  }

  /** The index can lose a road that holds one end of the movement only beyond the road's ends. */
  lemma IndexLosesOnlyEndCaps(from: Point, to: Point, r: Road)
    requires OnRoad(from, r) || OnRoad(to, r)
    requires !Relevant(from, to, r)
    ensures OnRoad(from, r) ==> InEndCap(from, r) && BeyondEnds(from, r)
    ensures OnRoad(to, r) ==> InEndCap(to, r) && BeyondEnds(to, r)
  {
    assert Between(from, to, 0.0) == from;
    assert Between(from, to, 1.0) == to;
    BoxIsSurfaceBetweenEnds(from, r);
    BoxIsSurfaceBetweenEnds(to, r);
  }

  /** Where a dog going from `from` towards `to` would stop if `r` were the only road. */
  function FindStopPoint(from: Point, to: Point, r: Road, dir: Direction): (stop: Point)
    ensures AxisParallel(from, stop)
  {
    match dir
    case East => Point(Min(to.x, r.MaxX() + ROAD_HALF_WIDTH), from.y)
    case West => Point(Max(to.x, r.MinX() - ROAD_HALF_WIDTH), from.y)
    case North => Point(from.x, Max(to.y, r.MinY() - ROAD_HALF_WIDTH))
    case South => Point(from.x, Min(to.y, r.MaxY() + ROAD_HALF_WIDTH))
    case NoDirection => from
  }

  /** `p` is on the ray that starts at `from` and follows the heading. */
  predicate Ahead(dir: Direction, from: Point, p: Point) {
    match dir
    case North => p.x == from.x && p.y <= from.y
    case South => p.x == from.x && p.y >= from.y
    case West => p.y == from.y && p.x <= from.x
    case East => p.y == from.y && p.x >= from.x
    case NoDirection => p == from
  }

  /** The stop point is the farthest point of the road on the way to the target. */
  lemma StopPointIsFarthest(from: Point, to: Point, r: Road, dir: Direction)
    requires OnRoad(from, r) && Ahead(dir, from, to)
    ensures var stop := FindStopPoint(from, to, r, dir);
      && OnRoad(stop, r) && Ahead(dir, from, stop) && Ahead(dir, stop, to)
      && forall p: Point :: OnRoad(p, r) && Ahead(dir, from, p) && Ahead(dir, p, to)
           ==> Distance(from, p) <= Distance(from, stop)
  {
  }

  /** A road is convex: it contains the whole segment between two of its points. */
  lemma RoadIsConvex(a: Point, b: Point, r: Road, t: real)
    requires OnRoad(a, r) && OnRoad(b, r) && 0.0 <= t <= 1.0
    ensures OnRoad(Between(a, b, t), r)
  {
    var (loX, hiX) := (r.MinX() - ROAD_HALF_WIDTH, r.MaxX() + ROAD_HALF_WIDTH);
    var (loY, hiY) := (r.MinY() - ROAD_HALF_WIDTH, r.MaxY() + ROAD_HALF_WIDTH);
    ConvexCombination(a.x, b.x, t, loX, hiX);
    ConvexCombination(a.y, b.y, t, loY, hiY);
  }
}
