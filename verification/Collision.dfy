/** Detecting which gatherer passes which item, and when. */
module Collision {
  import opened Geometry

  datatype ItemType = LootItem | OfficeItem

  datatype Item = Item(position: Point, width: real, id: nat, itemType: ItemType)

  datatype Gatherer = Gatherer(start: Point, end: Point, width: real, id: nat)

  datatype CollectionResult = CollectionResult(sqDistance: real, projRatio: real) {
    predicate IsCollected(radius: real) {
      0.0 <= projRatio <= 1.0 && sqDistance <= radius * radius
    }
  }

  /** `item` and `gatherer` are positions in the provider's two lists, not entity ids. */
  datatype Event = Event(item: nat, gatherer: nat, sqDistance: real, time: real, itemType: ItemType)

  lemma SignOfProduct(a: real, b: real)
    ensures (a > 0.0 && b > 0.0) || (a < 0.0 && b < 0.0) ==> Product(a, b) > 0.0
    ensures a == 0.0 ==> Product(a, b) == 0.0
  {
  }

  function Square(r: real): (s: real)
    ensures s >= 0.0
    ensures s == 0.0 <==> r == 0.0
  {
    SignOfProduct(r, r);
    Product(r, r)
  }

  function SquaredLength(v: Vec): (r: real)
    ensures r >= 0.0
    ensures r == 0.0 <==> v.x == 0.0 && v.y == 0.0
  {
    Square(v.x) + Square(v.y)
  }

  function Minus(a: Point, b: Point): Vec { Vec(a.x - b.x, a.y - b.y) }

  function Dot(u: Vec, v: Vec): real { u.x * v.x + u.y * v.y }

  function Cross(u: Vec, v: Vec): real { u.x * v.y - u.y * v.x }

  lemma DistinctPoints(a: Point, b: Point)
    requires a != b
    ensures SquaredLength(Minus(b, a)) > 0.0
  {
    assert Minus(b, a).x != 0.0 || Minus(b, a).y != 0.0;
  }

  /** Projects `u` on `v`: the squared distance from the line of `v` and the place on it. */
  function Project(u: Vec, v: Vec): CollectionResult
    requires SquaredLength(v) != 0.0
  {
    CollectionResult(SquaredLength(u) - (Dot(u, v) * Dot(u, v)) / SquaredLength(v),
                     Dot(u, v) / SquaredLength(v))
  }

  /** Projects the item `c` on the line through `a` and `b`. */
  function TryCollectPoint(a: Point, b: Point, c: Point): CollectionResult
    requires a != b
  {
    DistinctPoints(a, b);
    Project(Minus(c, a), Minus(b, a))
  }

  /** Squared distance from the tip of `u` to the point `t * v`. */
  function SquaredOffset(u: Vec, v: Vec, t: real): real {
    SquaredLength(Vec(u.x - t * v.x, u.y - t * v.y))
  }

  /** Squared distance from `c` to the point a fraction `t` of the way from `a` to `b`. */
  function SquaredDistanceAt(a: Point, b: Point, c: Point, t: real): real {
    SquaredLength(Minus(c, Between(a, b, t)))
  }

  lemma OffsetFromLine(a: Point, b: Point, c: Point, t: real)
    ensures SquaredDistanceAt(a, b, c, t) == SquaredOffset(Minus(c, a), Minus(b, a), t)
  {
    OffsetOnAxis(a.x, b.x, c.x, t);
    OffsetOnAxis(a.y, b.y, c.y, t);
  }

  lemma OffsetOnAxis(a: real, b: real, c: real, t: real)
    ensures c - (a + t * (b - a)) == (c - a) - t * (b - a)
  {
  }

  /** Lagrange's identity. */
  lemma DotAndCross(u: Vec, v: Vec)
    ensures SquaredLength(u) * SquaredLength(v) == Dot(u, v) * Dot(u, v) + Cross(u, v) * Cross(u, v)
  {
  }

  /** `sqDistance` is the squared distance of the item from the line. */
  lemma SquaredDistanceIsCrossProduct(a: Point, b: Point, c: Point)
    requires a != b
    ensures var r := TryCollectPoint(a, b, c);
      && r.sqDistance * SquaredLength(Minus(b, a)) == Cross(Minus(c, a), Minus(b, a)) * Cross(Minus(c, a), Minus(b, a))
      && r.sqDistance >= 0.0
  {
    DistinctPoints(a, b);
    ResidueIsCrossProduct(Minus(c, a), Minus(b, a));
  }

  lemma ResidueIsCrossProduct(u: Vec, v: Vec)
    requires SquaredLength(v) > 0.0
    ensures Project(u, v).sqDistance * SquaredLength(v) == Cross(u, v) * Cross(u, v)
    ensures Project(u, v).sqDistance >= 0.0
  {
    var len := SquaredLength(v);
    var (d, x) := (Dot(u, v), Cross(u, v));
    var sq := Project(u, v).sqDistance;
    DotAndCross(u, v);
    assert (d * d / len) * len == d * d;
    assert sq * len == x * x;
    assert x * x >= 0.0;
    SignOfFactor(sq, len);
  }

  lemma SignOfFactor(a: real, b: real)
    requires b > 0.0 && a * b >= 0.0
    ensures a >= 0.0
  {
  }

  /** Completing the square: how far the item is from an arbitrary point of the line. */
  lemma OffsetAlongLine(u: Vec, v: Vec, t: real)
    requires SquaredLength(v) > 0.0
    ensures SquaredOffset(u, v, t)
         == Project(u, v).sqDistance + SquaredLength(v) * Square(t - Project(u, v).projRatio)
  {
    ExpandOffset(u, v, t);
    CompleteSquare(SquaredLength(u), Dot(u, v), SquaredLength(v), t, SquaredOffset(u, v, t));
  }

  lemma ExpandOffset(u: Vec, v: Vec, t: real)
    ensures SquaredOffset(u, v, t) == SquaredLength(u) - 2.0 * t * Dot(u, v) + SquaredLength(v) * (t * t)
  {
  }

  lemma CompleteSquare(uu: real, d: real, len: real, t: real, offset: real)
    requires len > 0.0
    requires offset == uu - 2.0 * t * d + len * (t * t)
    ensures offset == uu - (d * d) / len + len * Square(t - d / len)
  {
    var p := d / len;
    assert p * len == d;
    assert (d * d) / len == p * d by {
      var q := (d * d) / len;
      assert q * len == d * d;
      assert (q - p * d) * len == 0.0;
    }
    ExpandSquare(len, t, p);
  }

  lemma ExpandSquare(len: real, t: real, p: real)
    ensures len * Square(t - p) == len * (t * t) - 2.0 * t * (p * len) + p * (p * len)
  {
    assert Square(t - p) == t * t - 2.0 * (t * p) + p * p;
  }

  /** `projRatio` is where the line comes closest to the item, and only there. */
  lemma ProjectionIsClosestApproach(a: Point, b: Point, c: Point, t: real)
    requires a != b
    ensures var r := TryCollectPoint(a, b, c);
      && SquaredDistanceAt(a, b, c, r.projRatio) == r.sqDistance
      && SquaredDistanceAt(a, b, c, t) >= r.sqDistance
      && (SquaredDistanceAt(a, b, c, t) == r.sqDistance ==> t == r.projRatio)
  {
    var r := TryCollectPoint(a, b, c);
    DistinctPoints(a, b);
    OffsetFromLine(a, b, c, t);
    OffsetFromLine(a, b, c, r.projRatio);
    ClosestOffset(Minus(c, a), Minus(b, a), t);
  }

  lemma ClosestOffset(u: Vec, v: Vec, t: real)
    requires SquaredLength(v) > 0.0
    ensures var r := Project(u, v);
      && SquaredOffset(u, v, r.projRatio) == r.sqDistance
      && SquaredOffset(u, v, t) >= r.sqDistance
      && (SquaredOffset(u, v, t) == r.sqDistance ==> t == r.projRatio)
  {
    var r := Project(u, v);
    OffsetAlongLine(u, v, r.projRatio);
    OffsetAlongLine(u, v, t);
    NonNegativeGap(SquaredLength(v), t - r.projRatio);
  }

  lemma NonNegativeGap(len: real, off: real)
    requires len > 0.0
    ensures len * Square(off) >= 0.0
    ensures len * Square(off) == 0.0 ==> off == 0.0
    ensures len * Square(0.0) == 0.0
  {
    ProductIsNonNegative(len, Square(off));
    if Square(off) > 0.0 { ProductIsPositive(len, Square(off)); }
  }

  /** `t` is a point of closest approach of the whole line through `a` and `b` to `c`. */
  ghost predicate IsClosestApproach(a: Point, b: Point, c: Point, t: real) {
    forall s: real :: SquaredDistanceAt(a, b, c, t) <= SquaredDistanceAt(a, b, c, s)
  }

  /** At `t` the way from `a` to `b` is closest to `c`, closest of the whole line, and within `radius`. */
  ghost predicate PassesAt(a: Point, b: Point, c: Point, radius: real, t: real) {
    0.0 <= t <= 1.0 && IsClosestApproach(a, b, c, t) && SquaredDistanceAt(a, b, c, t) <= radius * radius
  }

  /** An item is collected exactly when the line's nearest point lies on the way and within reach. */
  lemma CollectedMeansNearOnTheWay(a: Point, b: Point, c: Point, radius: real)
    requires a != b
    ensures TryCollectPoint(a, b, c).IsCollected(radius)
       <==> exists t: real :: PassesAt(a, b, c, radius, t)
  {
    var r := TryCollectPoint(a, b, c);
    forall s: real ensures SquaredDistanceAt(a, b, c, r.projRatio) <= SquaredDistanceAt(a, b, c, s) {
      ProjectionIsClosestApproach(a, b, c, s);
    }
    ProjectionIsClosestApproach(a, b, c, r.projRatio);
    assert IsClosestApproach(a, b, c, r.projRatio);
    assert r.IsCollected(radius) ==> PassesAt(a, b, c, radius, r.projRatio);
    if t: real :| PassesAt(a, b, c, radius, t) {
      ProjectionIsClosestApproach(a, b, c, t);
      assert SquaredDistanceAt(a, b, c, t) <= SquaredDistanceAt(a, b, c, r.projRatio);
    }
  }

  // ---- the event list ----

  /** The way is not just a point, and passes `c` within `radius`. */
  ghost predicate Passes(a: Point, b: Point, c: Point, radius: real) {
    a != b && exists t: real :: PassesAt(a, b, c, radius, t)
  }

  predicate Collects(g: Gatherer, item: Item) {
    g.start != g.end && TryCollectPoint(g.start, g.end, item.position).IsCollected(g.width + item.width)
  }

  /** A gatherer collects what it passes within both widths together. */
  lemma CollectsWhatItPasses(g: Gatherer, item: Item)
    ensures Collects(g, item) <==> Passes(g.start, g.end, item.position, g.width + item.width)
  {
    if g.start != g.end {
      CollectedMeansNearOnTheWay(g.start, g.end, item.position, g.width + item.width);
    }
  }

  lemma ProjectionTellsWhere(a: Point, b: Point, c: Point, radius: real)
    requires a != b && TryCollectPoint(a, b, c).IsCollected(radius)
    ensures var r := TryCollectPoint(a, b, c);
      PassesAt(a, b, c, radius, r.projRatio) && r.sqDistance == SquaredDistanceAt(a, b, c, r.projRatio)
  {
    var r := TryCollectPoint(a, b, c);
    forall s: real ensures SquaredDistanceAt(a, b, c, r.projRatio) <= SquaredDistanceAt(a, b, c, s) {
      ProjectionIsClosestApproach(a, b, c, s);
    }
    ProjectionIsClosestApproach(a, b, c, r.projRatio);
  }

  function EventOf(g: Gatherer, item: Item, gi: nat, ii: nat): Event
    requires g.start != g.end
  {
    var r := TryCollectPoint(g.start, g.end, item.position);
    Event(ii, gi, r.sqDistance, r.projRatio, item.itemType)
  }

  /** `e` reports that its gatherer moved past its item. */
  predicate IsEvent(items: seq<Item>, gatherers: seq<Gatherer>, e: Event) {
    && e.item < |items| && e.gatherer < |gatherers|
    && Collects(gatherers[e.gatherer], items[e.item])
    && e == EventOf(gatherers[e.gatherer], items[e.item], e.gatherer, e.item)
  }

  ghost predicate SortedByTime(events: seq<Event>) {
    forall i, j :: 0 <= i < j < |events| ==> events[i].time <= events[j].time
  }

  /** A chronological list with each event once and nothing else; equal times come in any order. */
  ghost predicate IsEventLog(items: seq<Item>, gatherers: seq<Gatherer>, events: seq<Event>) {
    && SortedByTime(events)
    && forall e :: multiset(events)[e] == if IsEvent(items, gatherers, e) then 1 else 0
  }

  class GathererProvider {
    var items: seq<Item>
    var gatherers: seq<Gatherer>

    constructor ()
      ensures items == [] && gatherers == []
    {
      items := [];
      gatherers := [];
    }

    method AddItem(item: Item)
      modifies this`items
      ensures items == old(items) + [item]
    {
      items := items + [item];
    }

    method AddGatherer(g: Gatherer)
      modifies this`gatherers
      ensures gatherers == old(gatherers) + [g]
    {
      gatherers := gatherers + [g];
    }
  }

  /** The events of gatherer `e.gatherer` come before those of pair (g, i) in the detection loops. */
  predicate Before(e: Event, g: nat, i: nat) {
    e.gatherer < g || (e.gatherer == g && e.item < i)
  }

  method FindGatherEvents(provider: GathererProvider) returns (events: seq<Event>)
    ensures IsEventLog(provider.items, provider.gatherers, events)
  {
    var detected: seq<Event> := [];
    var (items, gatherers) := (provider.items, provider.gatherers);
    for g := 0 to |gatherers|
      invariant forall e :: multiset(detected)[e] == if IsEvent(items, gatherers, e) && Before(e, g, 0) then 1 else 0
    {
      var gatherer := gatherers[g];
      if gatherer.start != gatherer.end {
        for i := 0 to |items|
          invariant forall e ::
            multiset(detected)[e] == if IsEvent(items, gatherers, e) && Before(e, g, i) then 1 else 0
        {
          var result := TryCollectPoint(gatherer.start, gatherer.end, items[i].position);
          if result.IsCollected(gatherer.width + items[i].width) {
            detected := detected + [Event(i, g, result.sqDistance, result.projRatio, items[i].itemType)];
          }
        }
      }
    }
    events := SortByTime(detected);
  }

  /** A sort that promises the order of the times and nothing about equal times. */
  method SortByTime(events: seq<Event>) returns (sorted: seq<Event>)
    ensures SortedByTime(sorted)
    ensures multiset(sorted) == multiset(events)
  {
    sorted := [];
    for i := 0 to |events|
      invariant SortedByTime(sorted)
      invariant multiset(sorted) == multiset(events[..i])
    {
      sorted := Insert(sorted, events[i]);
      assert events[..i + 1] == events[..i] + [events[i]];
    }
    assert events[..|events|] == events;
  }

  method Insert(sorted: seq<Event>, e: Event) returns (result: seq<Event>)
    requires SortedByTime(sorted)
    ensures SortedByTime(result)
    ensures multiset(result) == multiset(sorted) + multiset{e}
  {
    var k := 0;
    while k < |sorted| && sorted[k].time <= e.time
      invariant 0 <= k <= |sorted|
      invariant forall i :: 0 <= i < k ==> sorted[i].time <= e.time
    {
      k := k + 1;
    }
    result := sorted[..k] + [e] + sorted[k..];
    InsertedMultiset(sorted, k, e);
  }

  lemma InsertedMultiset<T>(s: seq<T>, k: nat, x: T)
    requires k <= |s|
    ensures multiset(s[..k] + [x] + s[k..]) == multiset(s) + multiset{x}
  {
    assert s == s[..k] + s[k..];
  }

  /** The event says where on its way its gatherer passes its item, how closely, and what the item is. */
  ghost predicate TellsOfPassing(items: seq<Item>, gatherers: seq<Gatherer>, e: Event) {
    && e.item < |items| && e.gatherer < |gatherers|
    && var (g, item) := (gatherers[e.gatherer], items[e.item]);
       && g.start != g.end && PassesAt(g.start, g.end, item.position, g.width + item.width, e.time)
       && e.sqDistance == SquaredDistanceAt(g.start, g.end, item.position, e.time)
       && e.itemType == item.itemType
  }

  lemma EventTellsOfPassing(items: seq<Item>, gatherers: seq<Gatherer>, e: Event)
    requires IsEvent(items, gatherers, e)
    ensures TellsOfPassing(items, gatherers, e)
  {
    var (g, item) := (gatherers[e.gatherer], items[e.item]);
    ProjectionTellsWhere(g.start, g.end, item.position, g.width + item.width);
  }

  /**
   * What a reader of the log can rely on: it has an event for a gatherer and an item exactly when the
   * gatherer passes the item, one only; each tells where and how closely; they come in order of time.
   */
  lemma EventLogIsExact(items: seq<Item>, gatherers: seq<Gatherer>, events: seq<Event>, gi: nat, ii: nat)
    requires IsEventLog(items, gatherers, events)
    requires gi < |gatherers| && ii < |items|
    ensures Passes(gatherers[gi].start, gatherers[gi].end, items[ii].position, gatherers[gi].width + items[ii].width)
       <==> exists k :: 0 <= k < |events| && events[k].gatherer == gi && events[k].item == ii
    ensures forall k :: 0 <= k < |events| ==> TellsOfPassing(items, gatherers, events[k])
    ensures forall j, k :: 0 <= j < k < |events| ==>
              && !(events[j].gatherer == events[k].gatherer && events[j].item == events[k].item)
              && events[j].time <= events[k].time
  {
    forall k | 0 <= k < |events|
      ensures IsEvent(items, gatherers, events[k]) && TellsOfPassing(items, gatherers, events[k])
    {
      assert multiset(events)[events[k]] >= 1;
      EventTellsOfPassing(items, gatherers, events[k]);
    }
    CollectsWhatItPasses(gatherers[gi], items[ii]);
    if Collects(gatherers[gi], items[ii]) {
      var e := EventOf(gatherers[gi], items[ii], gi, ii);
      assert multiset(events)[e] == 1;
      assert e in events;
    }
    forall j, k | 0 <= j < k < |events|
      ensures !(events[j].gatherer == events[k].gatherer && events[j].item == events[k].item)
    {
      if events[j].gatherer == events[k].gatherer && events[j].item == events[k].item {
        assert events[j] == events[k];
        RepetitionCounts(events, j, k);
        assert false;
      }
    }
  }

  lemma RepetitionCounts(events: seq<Event>, j: nat, k: nat)
    requires j < k < |events| && events[j] == events[k]
    ensures multiset(events)[events[j]] >= 2
  {
    var (before, after) := (events[..k], events[k..]);
    assert events == before + after;
    assert before[j] in multiset(before) && after[0] in multiset(after);
  }
}
