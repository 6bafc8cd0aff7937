/**
 * Another run of the game of `PassedInVain`: loot 1 appears at the far end of the lane, a second
 * dog joins, and when the first dog meets loot 2, the second item of the list, it gets loot 1.
 */
module TakenUnmet {
  import opened Collision
  import opened Entities
  import opened GameStates
  import opened Geometry
  import opened Motion
  import opened PassedInVain
  import opened Replay
  import opened Roads

  /** A dog that has just joined on the start of the lane. */
  predicate IsNew(d: DogState) {
    d.position == Point(0.0, 0.0) && d.speed == Vec(0.0, 0.0) && d.bag == [] && d.inactivity == 0.0
  }

  function Resting(e: DogState): DogState { AfterMove(e, e.position, false, 1.0) }

  /** In one second the dog runs from `x` to `x + 1` and meets nothing, while a loot appears. */
  function Running(d: DogState, x: int, far: Loot): Choice { Choice([MovedTo(d, x + 1)], [far], []) }

  /** In one second the dog runs from `x` to `x + 1`, where the second loot of the list appears. */
  function Meeting(d: DogState, e: DogState, x: int, id: nat): Choice {
    Choice([MovedTo(d, x + 1), Resting(e)], [LootAt(id, x + 1)], [Event(1, 0, 0.0, 1.0, LootItem)])
  }

  // ---- movement and collisions ----

  lemma NewDogRests(e: DogState)
    requires IsNew(e)
    ensures DogMoved([LANE], 1.0, e, Resting(e))
  {
    var target := Target(e.position, e.speed, 1.0);
    assert target == e.position;
    assert InBox(Between(e.position, target, 0.0), BoundingBox(LANE));
    assert Relevant(e.position, target, LANE) && LANE in [LANE];
    assert IsQuery([LANE], e.position, target, [LANE]);
    assert IsMove(e.position, e.speed, e.direction, 1.0, [LANE], e.position, false);
    assert Moves(e.position, e.speed, e.direction, 1.0, [LANE], e.position, false);
  }

  lemma OnUnit(a: real, b: real, x: real, y: real)
    requires x == 1.0 && y == 0.0
    ensures a * x + b * y == a
  {
  }

  lemma RatioToOne(d: real, l: real)
    requires l == 1.0
    ensures d / l == d
  {
  }

  /** Along one unit of the lane the ratio of the projection is the distance from the start. */
  lemma RatioIsDistance(u: Vec, v: Vec)
    requires v == Vec(1.0, 0.0) && SquaredLength(v) != 0.0
    ensures Project(u, v).projRatio == u.x
  {
    OnUnit(u.x, u.y, v.x, v.y);
    OnUnit(v.x, v.y, v.x, v.y);
    RatioToOne(Dot(u, v), SquaredLength(v));
  }

  lemma BeyondTheEnd(a: Point, b: Point, c: Point)
    requires a != b && Minus(b, a) == Vec(1.0, 0.0) && c.x - a.x > 1.0
    ensures TryCollectPoint(a, b, c).projRatio > 1.0
  {
    DistinctPoints(a, b);
    RatioIsDistance(Minus(c, a), Minus(b, a));
  }

  /** The dog's way to `x + 1` ends before the far loot. */
  lemma RunnerMissesFarLoot(d: DogState, x: int, far: Loot)
    requires IsRunning(d, x) && far.position.x > (x + 1) as real
    ensures !Collects(Gatherer(d.position, MovedTo(d, x + 1).position, d.width, d.id),
                      Item(far.position, far.width, far.id, LootItem))
  {
    BeyondTheEnd(d.position, MovedTo(d, x + 1).position, far.position);
  }

  lemma RunnerReachesLoot(d: DogState, x: int, id: nat)
    requires IsRunning(d, x)
    ensures Collects(Gatherer(d.position, MovedTo(d, x + 1).position, DOG_WIDTH, d.id),
                     Item(LootAt(id, x + 1).position, LOOT_WIDTH, id, LootItem))
    ensures EventOf(Gatherer(d.position, MovedTo(d, x + 1).position, DOG_WIDTH, d.id),
                    Item(LootAt(id, x + 1).position, LOOT_WIDTH, id, LootItem), 0, 1)
         == Event(1, 0, 0.0, 1.0, LootItem)
  {
    ItemAtEnd(d.position, MovedTo(d, x + 1).position);
    WidthIsEnough();
  }

  lemma NoEvents(items: seq<Item>, gatherers: seq<Gatherer>)
    requires |items| == 1 && |gatherers| == 1 && !Collects(gatherers[0], items[0])
    ensures IsEventLog(items, gatherers, [])
  {
  }

  lemma SecondItemOnly(items: seq<Item>, gatherers: seq<Gatherer>, e: Event)
    requires |items| == 2 && |gatherers| == 2 && gatherers[1].start == gatherers[1].end
    requires !Collects(gatherers[0], items[0]) && Collects(gatherers[0], items[1])
    requires e == EventOf(gatherers[0], items[1], 0, 1)
    ensures IsEventLog(items, gatherers, [e])
  {
    forall e' ensures multiset([e])[e'] == if IsEvent(items, gatherers, e') then 1 else 0 {
      assert IsEvent(items, gatherers, e') <==> e' == e;
    }
  }

  // ---- the two ticks ----

  lemma RunningIsPossible(s: SessionState, d: DogState, x: int, far: Loot)
    requires s.gameMap == FIELD && s.dogs == [d] && s.loot == [] && IsRunning(d, x)
    requires IsNewLoot(FIELD, far, far.id) && far.position.x > (x + 1) as real
    ensures IsChoice(s, far.id, 1.0, Running(d, x, far))
  {
    var c := Running(d, x, far);
    RunnerMoves(d, x);
    assert IsSpawn(FIELD, 0, 1, far.id, c.spawned);
    RunnerMissesFarLoot(d, x, far);
    var (items, gatherers) := (Items(FIELD, s.loot + c.spawned), Gatherers(s.dogs, c.moved));
    assert s.loot + c.spawned == c.spawned;
    assert items == [Item(far.position, far.width, far.id, LootItem)];
    assert gatherers == [Gatherer(d.position, MovedTo(d, x + 1).position, d.width, d.id)];
    NoEvents(items, gatherers);
  }

  lemma RunningHarvests(s: SessionState, d: DogState, x: int, far: Loot)
    requires s.gameMap == FIELD && s.dogs == [d] && s.loot == []
    ensures Harvested(s, Running(d, x, far)) == Field([MovedTo(d, x + 1)], [far], {})
  {
    assert s.loot + Running(d, x, far).spawned == [far];
  }

  lemma MeetingLog(s: SessionState, d: DogState, e: DogState, x: int, far: Loot, id: nat)
    requires s.gameMap == FIELD && s.dogs == [d, e] && s.loot == [far] && IsRunning(d, x)
    requires far.position.x > (x + 1) as real
    ensures var c := Meeting(d, e, x, id);
      IsEventLog(Items(s.gameMap, s.loot + c.spawned), Gatherers(s.dogs, c.moved), c.events)
  {
    var c := Meeting(d, e, x, id);
    var (items, gatherers) := (Items(FIELD, s.loot + c.spawned), Gatherers(s.dogs, c.moved));
    assert items == [Item(far.position, far.width, far.id, LootItem),
                     Item(LootAt(id, x + 1).position, LOOT_WIDTH, id, LootItem)];
    assert gatherers[0] == Gatherer(d.position, MovedTo(d, x + 1).position, d.width, d.id);
    RunnerMissesFarLoot(d, x, far);
    RunnerReachesLoot(d, x, id);
    SecondItemOnly(items, gatherers, Event(1, 0, 0.0, 1.0, LootItem));
  }

  lemma BothMove(roads: seq<Road>, dt: real, d: DogState, d': DogState, e: DogState, e': DogState)
    requires DogMoved(roads, dt, d, d') && DogMoved(roads, dt, e, e')
    ensures DogsMoved(roads, dt, [d, e], [d', e'])
  {
  }

  lemma LootIsSpawned(x: int, id: nat)
    requires 0 <= x <= 9
    ensures IsSpawn(FIELD, 1, 2, id, [LootAt(id, x + 1)])
  {
    LootAppears(x, id);
  }

  lemma MeetingIsPossible(s: SessionState, d: DogState, e: DogState, x: int, far: Loot, id: nat)
    requires s.gameMap == FIELD && s.dogs == [d, e] && s.loot == [far] && IsRunning(d, x) && IsNew(e)
    requires far.position.x > (x + 1) as real
    ensures IsChoice(s, id, 1.0, Meeting(d, e, x, id))
  {
    assert DogsMoved(s.gameMap.roads, 1.0, s.dogs, Meeting(d, e, x, id).moved) by {
      RunnerMoves(d, x);
      NewDogRests(e);
      BothMove([LANE], 1.0, d, MovedTo(d, x + 1), e, Resting(e));
    }
    assert IsSpawn(s.gameMap, |s.loot|, |s.dogs|, id, Meeting(d, e, x, id).spawned) by {
      LootIsSpawned(x, id);
    }
    MeetingLog(s, d, e, x, far, id);
  }

  /** Loot 1 goes into the runner's bag, and the loot that was met stays on the ground. */
  lemma MeetingHarvests(s: SessionState, d: DogState, e: DogState, x: int, far: Loot, id: nat)
    requires s.gameMap == FIELD && s.dogs == [d, e] && s.loot == [far] && far.id == 1 && |d.bag| < 3
    ensures InRange(Meeting(d, e, x, id).events, 2)
    ensures Harvested(s, Meeting(d, e, x, id))
         == Field([WithLoot(MovedTo(d, x + 1), far), Resting(e)], [LootAt(id, x + 1)], {1})
  {
    var c := Meeting(d, e, x, id);
    var (f, events) := (Start(s, c), c.events);
    assert f.ground == [far, LootAt(id, x + 1)] && FirstWithId(f.ground, 1) == 0;
    assert events[..0] == [];
    assert Replayed(f, events, 3) == Step(f, events[0], 3);
  }

  // ---- the run ----

  /** One session, and so much loot generated. */
  ghost predicate IsShared(g: GameState, dogs: seq<DogState>, loot: seq<Loot>, generated: nat) {
    && g.sessions.Keys == {"field"} && g.sessions["field"].gameMap == FIELD && g.retirementTime == 60.0
    && g.sessions["field"].dogs == dogs && g.sessions["field"].loot == loot && g.counters.loot == generated
  }

  lemma RunnerRuns(g: GameState, d: DogState, x: int, far: Loot)
    requires IsAlone(g, [d], [], far.id) && IsRunning(d, x)
    requires IsNewLoot(FIELD, far, far.id) && far.position.x > (x + 1) as real
    ensures var r := Tick(1000, ["field"], [Running(d, x, far)]);
      Possible(g, r) && IsAlone(Served(g, r), [MovedTo(d, x + 1)], [far], far.id + 1)
  {
    var (c, a) := (Running(d, x, far), Advanced(g, 1000));
    RunningIsPossible(a.sessions["field"], d, x, far);
    RunningHarvests(a.sessions["field"], d, x, far);
    OneSessionTick(a, c);
    StayingOne(Harvested(a.sessions["field"], c).dogs, 60.0);
  }

  const SECOND_JOIN: Request := Join("Max", "field", Point(0.0, 0.0), "key", "other")

  lemma SecondDogJoins(g: GameState, d: DogState, loot: seq<Loot>, generated: nat) returns (e: DogState)
    requires IsAlone(g, [d], loot, generated)
    ensures Possible(g, SECOND_JOIN) && IsNew(e) && IsShared(Served(g, SECOND_JOIN), [d, e], loot, generated)
  {
    assert IsSpawnPoint(FIELD, Point(0.0, 0.0));
    e := NewDog(g.counters.dogs, "Max", Point(0.0, 0.0), "other", g.clock);
    assert Served(g, SECOND_JOIN).sessions["field"].dogs == [d] + [e];
  }

  lemma StayingBoth(dogs: seq<DogState>, limit: real)
    requires |dogs| == 2 && dogs[0].inactivity < limit && dogs[1].inactivity < limit
    ensures Staying(dogs, limit) == dogs
  {
    StayingOne(dogs[..1], limit);
    assert dogs == dogs[..1] + [dogs[1]];
  }

  lemma RunnerMeetsLoot(g: GameState, d: DogState, e: DogState, x: int, far: Loot, id: nat)
    requires IsShared(g, [d, e], [far], id) && IsRunning(d, x) && IsNew(e) && |d.bag| < 3
    requires far.id == 1 && far.position.x > (x + 1) as real
    ensures var r := Tick(1000, ["field"], [Meeting(d, e, x, id)]);
      && Possible(g, r)
      && IsShared(Served(g, r), [WithLoot(MovedTo(d, x + 1), far), Resting(e)], [LootAt(id, x + 1)], id + 1)
  {
    var (c, a) := (Meeting(d, e, x, id), Advanced(g, 1000));
    MeetingIsPossible(a.sessions["field"], d, e, x, far, id);
    MeetingHarvests(a.sessions["field"], d, e, x, far, id);
    OneSessionTick(a, c);
    StayingBoth(Harvested(a.sessions["field"], c).dogs, 60.0);
  }

  lemma GoesOn(g: GameState, r: Request) returns (g': GameState)
    requires IsReachable(g) && Possible(g, r)
    ensures IsReachable(g') && g' == Served(g, r)
  {
    var start, requests :| IsInitial(start) && IsRun(start, requests) && AfterRun(start, requests) == g;
    OneMoreRequest(start, requests, g, r);
    RunReaches(start, requests + [r]);
    g' := Served(g, r);
  }

  lemma SharedStateIsReachable() returns (g: GameState, d: DogState, e: DogState)
    ensures IsReachable(g) && IsShared(g, [d, e], [LootAt(1, 9)], 2)
    ensures IsRunning(d, 2) && IsNew(e) && |d.bag| < 3
  {
    var first, runner := ThirdStateIsReachable();
    LootAppears(8, 1);
    RunnerRuns(first, runner, 1, LootAt(1, 9));
    var second := GoesOn(first, Tick(1000, ["field"], [Running(runner, 1, LootAt(1, 9))]));
    d := MovedTo(runner, 2);
    e := SecondDogJoins(second, d, [LootAt(1, 9)], 2);
    g := GoesOn(second, SECOND_JOIN);
  }

  /**
   * In a reachable state loot 1 lies at 9, and in a tick that is possible then a dog goes from 2 to
   * 3, where loot 2 appears. It does not meet loot 1 on this way, and yet it ends up with loot 1,
   * while loot 2 stays where it is.
   */
  lemma LootIsTakenUnmet() returns (g: GameState, d: DogState, e: DogState, r: Request)
    ensures IsReachable(g) && Possible(g, r) && r == Tick(1000, ["field"], [Meeting(d, e, 2, 2)])
    ensures IsShared(g, [d, e], [LootAt(1, 9)], 2) && d.position == Point(2.0, 0.0)
    ensures var far := LootAt(1, 9);
      !Collects(Gatherer(d.position, MovedTo(d, 3).position, d.width, d.id),
                Item(far.position, far.width, far.id, LootItem))
    ensures IsShared(Served(g, r), [WithLoot(MovedTo(d, 3), LootAt(1, 9)), Resting(e)], [LootAt(2, 3)], 3)
  {
    g, d, e := SharedStateIsReachable();
    r := Tick(1000, ["field"], [Meeting(d, e, 2, 2)]);
    RunnerMissesFarLoot(d, 2, LootAt(1, 9));
    RunnerMeetsLoot(g, d, e, 2, LootAt(1, 9), 2);
  }
}
