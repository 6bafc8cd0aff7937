/**
 * A run on which a dog with room in its bag runs over a loot and does not get it: one dog, which
 * picks up loot 0 in one second and passes loot 1 in vain in the next.
 */
module PassedInVain {
  import opened Collision
  import opened Entities
  import opened GameStates
  import opened Geometry
  import opened Motion
  import opened Replay
  import opened Roads
  import opened StrandedLoot

  const LANE: Road := HorizontalRoad(GridPoint(0, 0), 10)

  const FIELD: GameMap := GameMap("field", [LANE], [], 1.0, 3, [5])

  /** A dog in the middle of the lane, running east at speed 1. */
  predicate IsRunning(d: DogState, x: int) {
    && 0 <= x <= 9 && d.position == Point(x as real, 0.0)
    && d.speed == Vec(1.0, 0.0) && d.direction == East && d.width == DOG_WIDTH && d.inactivity == 0.0
  }

  function LootAt(id: nat, x: int): Loot { Loot(0, id, 5, Point(x as real, 0.0), LOOT_WIDTH) }

  function MovedTo(d: DogState, x: int): DogState { AfterMove(d, Point(x as real, 0.0), false, 1.0) }

  /** In one second the dog runs from `x` to `x + 1`, and a loot appears where it arrives. */
  function Passing(d: DogState, x: int, id: nat): Choice {
    Choice([MovedTo(d, x + 1)], [LootAt(id, x + 1)], [Event(0, 0, 0.0, 1.0, LootItem)])
  }

  lemma RunnerMoves(d: DogState, x: int)
    requires IsRunning(d, x)
    ensures DogMoved([LANE], 1.0, d, MovedTo(d, x + 1))
  {
    var target := Target(d.position, d.speed, 1.0);
    assert target == Point((x + 1) as real, 0.0);
    assert InBox(Between(d.position, target, 0.0), BoundingBox(LANE));
    assert Relevant(d.position, target, LANE) && LANE in [LANE] && OnRoad(target, LANE);
    assert IsQuery([LANE], d.position, target, [LANE]);
    assert IsMove(d.position, d.speed, d.direction, 1.0, [LANE], target, false);
    assert Moves(d.position, d.speed, d.direction, 1.0, [LANE], target, false);
  }

  lemma RunnerPassesLoot(d: DogState, x: int, id: nat)
    requires IsRunning(d, x)
    ensures Collects(Gatherer(d.position, MovedTo(d, x + 1).position, DOG_WIDTH, d.id),
                     Item(LootAt(id, x + 1).position, LOOT_WIDTH, id, LootItem))
    ensures EventOf(Gatherer(d.position, MovedTo(d, x + 1).position, DOG_WIDTH, d.id),
                    Item(LootAt(id, x + 1).position, LOOT_WIDTH, id, LootItem), 0, 0)
         == Event(0, 0, 0.0, 1.0, LootItem)
  {
    var (a, b) := (d.position, MovedTo(d, x + 1).position);
    ItemAtEnd(a, b);
    WidthIsEnough();
  }

  /** An item at the very end of the way is met at time 1, at no distance. */
  lemma ItemAtEnd(a: Point, b: Point)
    requires a != b
    ensures TryCollectPoint(a, b, b) == CollectionResult(0.0, 1.0)
  {
    DistinctPoints(a, b);
    ProjectedOnItself(Minus(b, a));
  }

  lemma ProjectedOnItself(v: Vec)
    requires SquaredLength(v) != 0.0
    ensures Project(v, v) == CollectionResult(0.0, 1.0)
  {
    ResidueIsCrossProduct(v, v);
    CrossWithItself(v);
    ZeroFactor(Project(v, v).sqDistance, SquaredLength(v));
    DotIsSquaredLength(v);
    RatioOfEqual(Dot(v, v), SquaredLength(v));
  }

  lemma CrossWithItself(v: Vec)
    ensures Cross(v, v) == 0.0
  {
  }

  lemma ZeroFactor(a: real, b: real)
    requires a * b == 0.0 && b != 0.0
    ensures a == 0.0
  {
  }

  lemma DotIsSquaredLength(v: Vec)
    ensures Dot(v, v) == SquaredLength(v)
  {
  }

  lemma RatioOfEqual(d: real, l: real)
    requires d == l != 0.0
    ensures d / l == 1.0
  {
  }

  lemma WidthIsEnough()
    ensures CollectionResult(0.0, 1.0).IsCollected(DOG_WIDTH + LOOT_WIDTH)
  {
  }

  lemma LootAppears(x: int, id: nat)
    requires 0 <= x <= 9
    ensures IsNewLoot(FIELD, LootAt(id, x + 1), id)
  {
    assert IsGridPoint(LANE, x + 1, 0);
    assert LANE in FIELD.roads;
  }

  lemma PassingIsPossible(s: SessionState, d: DogState, x: int, id: nat)
    requires s.gameMap == FIELD && s.dogs == [d] && s.loot == [] && IsRunning(d, x)
    ensures IsChoice(s, id, 1.0, Passing(d, x, id))
  {
    var c := Passing(d, x, id);
    RunnerMoves(d, x);
    LootAppears(x, id);
    assert IsSpawn(FIELD, 0, 1, id, c.spawned);
    RunnerPassesLoot(d, x, id);
    var (items, gatherers) := (Items(FIELD, s.loot + c.spawned), Gatherers(s.dogs, c.moved));
    assert s.loot + c.spawned == c.spawned;
    assert items == [Item(LootAt(id, x + 1).position, LOOT_WIDTH, id, LootItem)];
    assert gatherers == [Gatherer(d.position, MovedTo(d, x + 1).position, DOG_WIDTH, d.id)];
    OnlyEvent(items, gatherers, Event(0, 0, 0.0, 1.0, LootItem));
  }

  lemma OnlyEvent(items: seq<Item>, gatherers: seq<Gatherer>, e: Event)
    requires |items| == 1 && |gatherers| == 1 && Collects(gatherers[0], items[0])
    requires e == EventOf(gatherers[0], items[0], 0, 0)
    ensures IsEventLog(items, gatherers, [e])
  {
  }

  /** The dog picks the loot up if the loot's id is 0, and passes it in vain otherwise. */
  lemma PassingReplayed(s: SessionState, d: DogState, x: int, id: nat)
    requires s.gameMap == FIELD && s.dogs == [d] && s.loot == [] && |d.bag| < 3
    ensures InRange(Passing(d, x, id).events, 1)
    ensures Harvested(s, Passing(d, x, id))
         == if id == 0 then Field([WithLoot(MovedTo(d, x + 1), LootAt(0, x + 1))], [], {0})
            else Field([MovedTo(d, x + 1)], [LootAt(id, x + 1)], {})
  {
    var c := Passing(d, x, id);
    assert c.events[..0] == [];
    assert s.loot + c.spawned == c.spawned;
    assert Replayed(Start(s, c), c.events, 3) == Step(Start(s, c), c.events[0], 3);
  }

  // ---- the run ----

  const START: GameState := GameState(
    map["field" := FIELD], map[], [], [], Counters(0, 0, 0, 0), 0, 60.0, History(0, 0, map[], {}, map[]))

  const RUNNER: DogState :=
    DogState(0, "Rex", Point(0.0, 0.0), Vec(1.0, 0.0), East, [], DOG_WIDTH, 0, 0, 0.0, true, "uuid")

  const RICHER: DogState := WithLoot(MovedTo(RUNNER, 1), LootAt(0, 1))

  const JOIN: Request := Join("Rex", "field", Point(0.0, 0.0), "token", "uuid")
  const ACT: Request := Act(0, "field", 0, "R")
  const FIRST: Request := Tick(1000, ["field"], [Passing(RUNNER, 0, 0)])

  /** One session, with one dog, and so much loot generated. */
  ghost predicate IsAlone(g: GameState, dogs: seq<DogState>, loot: seq<Loot>, generated: nat) {
    && g.sessions.Keys == {"field"} && g.sessions["field"].gameMap == FIELD && g.retirementTime == 60.0
    && g.sessions["field"].dogs == dogs && g.sessions["field"].loot == loot
    && g.counters.loot == generated && PeakOf(g, "field") == 1
    && "field" in g.maps && g.maps["field"] == FIELD
  }

  lemma JoinAndAct()
    ensures IsInitial(START) && Possible(START, JOIN)
    ensures Possible(Served(START, JOIN), ACT)
    ensures IsAlone(Served(Served(START, JOIN), ACT), [RUNNER], [], 0)
  {
    assert IsSpawnPoint(FIELD, Point(0.0, 0.0));
    assert START.maps["field"] == FIELD;
    var g := Served(START, JOIN);
    assert g.sessions["field"].dogs == [NewDog(0, "Rex", Point(0.0, 0.0), "uuid", 0)];
    assert g.players == [PlayerState(0, "token", 0, 0)];
    assert Owns(g, 0, "field", 0);
  }

  lemma SecondPasses(g: GameState, d: DogState, x: int, id: nat)
    requires IsAlone(g, [d], [], id) && IsRunning(d, x) && |d.bag| < 3
    ensures var r := Tick(1000, ["field"], [Passing(d, x, id)]);
      && Possible(g, r)
      && if id == 0 then IsAlone(Served(g, r), [WithLoot(MovedTo(d, x + 1), LootAt(0, x + 1))], [], 1)
         else IsAlone(Served(g, r), [MovedTo(d, x + 1)], [LootAt(id, x + 1)], id + 1)
  {
    var (c, a) := (Passing(d, x, id), Advanced(g, 1000));
    PassingIsPossible(a.sessions["field"], d, x, id);
    PassingReplayed(a.sessions["field"], d, x, id);
    OneSessionTick(a, c);
    StayingOne(Harvested(a.sessions["field"], c).dogs, 60.0);
  }

  lemma OneSessionTick(g: GameState, c: Choice)
    requires g.sessions.Keys == {"field"} && IsChoice(g.sessions["field"], g.counters.loot, 1.0, c)
    ensures InRange(c.events, |c.moved|)
    ensures IsOrder(["field"], g.sessions) && AreChoices(g, 1000, ["field"], [c])
    ensures Ticked(g, ["field"], [c]) == AfterTick(g, "field", c)
  {
    EventsInRange(g.sessions["field"], g.counters.loot, 1.0, c);
    assert ["field"][..0] == [] && [c][..0] == [];
  }

  lemma StayingOne(dogs: seq<DogState>, limit: real)
    requires |dogs| == 1 && dogs[0].inactivity < limit
    ensures Staying(dogs, limit) == dogs
  {
    assert dogs[..0] == [] && dogs == [dogs[0]];
  }

  lemma OneMoreRequest(g: GameState, requests: seq<Request>, now: GameState, r: Request)
    requires IsRun(g, requests) && AfterRun(g, requests) == now && Possible(now, r)
    ensures IsRun(g, requests + [r]) && AfterRun(g, requests + [r]) == Served(now, r)
  {
    assert (requests + [r])[..|requests|] == requests;
  }

  lemma FirstThree()
    ensures IsInitial(START) && IsRun(START, [JOIN, ACT, FIRST])
    ensures IsAlone(AfterRun(START, [JOIN, ACT, FIRST]), [RICHER], [], 1)
  {
    assert [] + [JOIN] == [JOIN] && [JOIN] + [ACT] == [JOIN, ACT] && [JOIN, ACT] + [FIRST] == [JOIN, ACT, FIRST];
    JoinAndAct();
    OneMoreRequest(START, [], START, JOIN);
    OneMoreRequest(START, [JOIN], Served(START, JOIN), ACT);
    var g := AfterRun(START, [JOIN, ACT]);
    SecondPasses(g, RUNNER, 0, 0);
    OneMoreRequest(START, [JOIN, ACT], g, FIRST);
  }

  ghost predicate IsReachable(g: GameState) {
    exists start, requests :: IsInitial(start) && IsRun(start, requests) && AfterRun(start, requests) == g
  }

  lemma RunReaches(start: GameState, requests: seq<Request>)
    requires IsInitial(start) && IsRun(start, requests)
    ensures IsReachable(AfterRun(start, requests))
  {
  }

  lemma ThirdStateIsReachable() returns (g: GameState, d: DogState)
    ensures IsReachable(g) && IsAlone(g, [d], [], 1)
    ensures IsRunning(d, 1) && |d.bag| < FIELD.bagCapacity
  {
    FirstThree();
    RunReaches(START, [JOIN, ACT, FIRST]);
    g, d := AfterRun(START, [JOIN, ACT, FIRST]), RICHER;
  }

  /**
   * In a reachable state a dog has room in its bag. In a tick that is possible then, loot 1 appears
   * where it arrives, and the one collision event is that it meets this loot (`RunnerPassesLoot`).
   * Afterwards its bag is as before, and the loot lies on the ground, stranded.
   */
  lemma LootIsPassedInVain() returns (g: GameState, d: DogState, r: Request)
    ensures IsReachable(g) && Possible(g, r)
    ensures IsAlone(g, [d], [], 1) && |d.bag| < FIELD.bagCapacity
    ensures r == Tick(1000, ["field"], [Choice([MovedTo(d, 2)], [LootAt(1, 2)], [Event(0, 0, 0.0, 1.0, LootItem)])])
    ensures IsAlone(Served(g, r), [MovedTo(d, 2)], [LootAt(1, 2)], 2)
    ensures MovedTo(d, 2).bag == d.bag && IsStranded(Served(g, r), "field", LootAt(1, 2))
  {
    g, d := ThirdStateIsReachable();
    r := Tick(1000, ["field"], [Passing(d, 1, 1)]);
    SecondPasses(g, d, 1, 1);
  }
}
