/** Game sessions as objects, and the parts of a tick that work on one session. */
module Sessions {
  import opened Collision
  import opened Entities
  import opened GameStates
  import opened Geometry
  import opened LootGeneration
  import opened Motion
  import opened Options
  import opened Removal
  import opened Replay
  import opened Roads
  import opened Terrain

  function IdOf(d: Dog): nat { d.id }

  function DogStates(dogs: seq<Dog>): (states: seq<DogState>)
    reads dogs
    ensures |states| == |dogs|
    ensures forall i :: 0 <= i < |dogs| ==> states[i] == dogs[i].State()
  {
    seq(|dogs|, i requires 0 <= i < |dogs| reads dogs => dogs[i].State())
  }

  lemma MatchingStates(dogs: seq<Dog>, states: seq<DogState>)
    requires |dogs| == |states| && forall i :: 0 <= i < |dogs| ==> dogs[i].State() == states[i]
    ensures DogStates(dogs) == states
  {
  }

  ghost predicate DistinctObjects(dogs: seq<Dog>) {
    forall i, j :: 0 <= i < j < |dogs| ==> dogs[i] != dogs[j]
  }

  class GameSession {
    const id: nat
    const gameMap: GameMap
    var dogs: seq<Dog>
    var loot: seq<Loot>

    function State(): SessionState
      reads this, dogs
    {
      SessionState(id, gameMap, DogStates(dogs), loot)
    }

    constructor (gameMap: GameMap, id: nat)
      ensures this.gameMap == gameMap && this.id == id && dogs == [] && loot == []
    {
      this.gameMap, this.id, dogs, loot := gameMap, id, [], [];
    }

    method AddDog(dog: Dog)
      modifies this`dogs
      ensures dogs == old(dogs) + [dog]
    {
      dogs := dogs + [dog];
    }

    method AddLoot(item: Loot)
      modifies this`loot
      ensures loot == old(loot) + [item]
    {
      loot := loot + [item];
    }

    method GetDogById(dogId: nat) returns (dog: Option<Dog>)
      ensures dog.Some? ==> dog.value in dogs && dog.value.id == dogId
      ensures dog.None? ==> dogId !in DogsIn(State())
    {
      for i := 0 to |dogs|
        invariant forall j :: 0 <= j < i ==> dogs[j].id != dogId
      {
        if dogs[i].id == dogId { return Some(dogs[i]); }
      }
      forall d | d in DogStates(dogs) ensures d.id != dogId {
        var i :| 0 <= i < |dogs| && DogStates(dogs)[i] == d;
      }
      return None;
    }

    /** Takes the first loot with this id off the ground; `None` stands for the thrown exception. */
    method GatherLoot(lootId: nat) returns (item: Option<Loot>)
      modifies this`loot
      ensures item.Some? <==> OnGround(old(loot), lootId)
      ensures item.Some? ==> var k := FirstWithId(old(loot), lootId);
        item.value == old(loot)[k] && loot == RemoveAt(old(loot), k)
      ensures item.None? ==> loot == old(loot)
    {
      var k := 0;
      while k < |loot| && loot[k].id != lootId
        invariant 0 <= k <= |loot|
        invariant forall j :: 0 <= j < k ==> loot[j].id != lootId
      {
        k := k + 1;
      }
      FirstIsUnique(loot, lootId, k);
      if k == |loot| {
        return None;
      }
      item := Some(loot[k]);
      loot := loot[..k] + loot[k + 1..];
    }

    /** Removes the first dog with this id, if there is one. */
    method RemoveDog(dogId: nat)
      modifies this`dogs
      ensures dogs == RemoveFirst(old(dogs), IdOf, dogId)
    {
      var k := 0;
      while k < |dogs| && dogs[k].id != dogId
        invariant 0 <= k <= |dogs|
        invariant forall j :: 0 <= j < k ==> dogs[j].id != dogId
      {
        k := k + 1;
      }
      if k < |dogs| {
        dogs := dogs[..k] + dogs[k + 1..];
      }
    }
  }

  lemma FirstIsUnique(ground: seq<Loot>, id: nat, k: nat)
    requires k <= |ground| && forall j :: 0 <= j < k ==> ground[j].id != id
    requires k < |ground| ==> ground[k].id == id
    ensures FirstWithId(ground, id) == k
  {
  }

  // ---- movement ----

  method UpdateDogsPosition(session: GameSession, timeDelta: int, provider: GathererProvider)
    requires timeDelta >= 0 && DistinctObjects(session.dogs)
    requires forall i :: 0 <= i < |session.dogs| ==> Coherent(session.dogs[i].direction, session.dogs[i].speed)
    modifies session.dogs, provider`gatherers
    ensures DogsMoved(session.gameMap.roads, timeDelta as real / MS_IN_SECONDS,
                      old(DogStates(session.dogs)), DogStates(session.dogs))
    ensures provider.gatherers
         == old(provider.gatherers) + Gatherers(old(DogStates(session.dogs)), DogStates(session.dogs))
  {
    var dt := timeDelta as real / MS_IN_SECONDS;
    ghost var before := DogStates(session.dogs);
    ghost var after: seq<DogState> := [];
    for i := 0 to |session.dogs|
      invariant |after| == i
      invariant forall j :: i <= j < |before| ==> session.dogs[j].State() == before[j]
      invariant forall j :: 0 <= j < i ==> session.dogs[j].State() == after[j]
      invariant DogsMoved(session.gameMap.roads, dt, before[..i], after)
      invariant provider.gatherers == old(provider.gatherers) + Gatherers(before[..i], after)
    {
      MoveDog(session.dogs[i], dt, session.gameMap.roads, provider);
      OneMoreMoved(session.gameMap.roads, dt, before, after, session.dogs[i].State());
      after := after + [session.dogs[i].State()];
    }
    assert before[..|before|] == before;
    MatchingStates(session.dogs, after);
  }

  lemma OneMoreMoved(roads: seq<Road>, dt: real, before: seq<DogState>, after: seq<DogState>, d: DogState)
    requires |after| < |before| && DogsMoved(roads, dt, before[..|after|], after)
    requires DogMoved(roads, dt, before[|after|], d)
    ensures DogsMoved(roads, dt, before[..|after| + 1], after + [d])
    ensures Gatherers(before[..|after| + 1], after + [d])
         == Gatherers(before[..|after|], after) + [Gatherer(before[|after|].position, d.position, d.width, d.id)]
  {
  }

  method MoveDog(dog: Dog, dt: real, roads: seq<Road>, provider: GathererProvider)
    requires dt >= 0.0 && Coherent(dog.direction, dog.speed)
    modifies dog, provider`gatherers
    ensures DogMoved(roads, dt, old(dog.State()), dog.State())
    ensures provider.gatherers
         == old(provider.gatherers) + [Gatherer(old(dog.position), dog.position, dog.width, dog.id)]
  {
    var oldPosition := dog.position;
    var newPosition := dog.CalculateNewPosition(dt, roads);
    dog.position := newPosition;
    provider.AddGatherer(Gatherer(oldPosition, newPosition, dog.width, dog.id));
    if oldPosition.x == newPosition.x && oldPosition.y == newPosition.y {
      dog.active := false;
      dog.inactivity := dog.inactivity + dt;
    } else {
      dog.active := true;
      dog.inactivity := 0.0;
    }
    ghost var stopped :| Moves(oldPosition, old(dog.speed), old(dog.direction), dt, roads, newPosition, stopped)
                         && dog.speed == if stopped then Vec(0.0, 0.0) else old(dog.speed);
    assert dog.State() == AfterMove(old(dog.State()), newPosition, stopped, dt);
  }

  // ---- new loot ----

  /** Kinds and places of the new loot are those drawn. */
  ghost predicate IsDrawn(gameMap: GameMap, draws: nat -> LootDraw, spawned: seq<Loot>) {
    && AreLootDraws(gameMap, draws)
    && forall i :: 0 <= i < |spawned| ==>
         var p := DrawnPoint(gameMap.roads, draws(i).point);
         spawned[i].kind == draws(i).kind && spawned[i].position == Point(p.x as real, p.y as real)
  }

  /**
   * As much loot has appeared as the generator yields for a tick of `dt` seconds, although `dt` is the
   * length of the tick in milliseconds. Its clock goes from `before` to `after`.
   */
  ghost predicate IsYield(
    generator: LootGenerator, lootCount: nat, dogCount: nat, spawned: seq<Loot>,
    before: int, after: int, dt: int, random: real)
  {
    && generator.baseInterval > 0
    && |spawned| == Amount(Shortage(lootCount, dogCount), generator.Decay(before + dt * 1000), random)
    && after == if |spawned| > 0 then 0 else before + dt * 1000
  }

  /** Adds the loot that the generator allows; `draws` stands for the random generators. */
  method UpdateLoot(
    session: GameSession, timeDelta: int, generator: LootGenerator, random: real, nextId: nat,
    draws: nat -> LootDraw)
    returns (spawned: seq<Loot>)
    requires generator.baseInterval > 0 && AreLootDraws(session.gameMap, draws)
    modifies session`loot, generator`timeWithoutLoot
    ensures session.loot == old(session.loot) + spawned
    ensures IsSpawn(session.gameMap, |old(session.loot)|, |session.dogs|, nextId, spawned)
    ensures IsDrawn(session.gameMap, draws, spawned)
    ensures IsYield(generator, old(|session.loot|), |session.dogs|, spawned,
                    old(generator.timeWithoutLoot), generator.timeWithoutLoot, timeDelta, random)
  {
    // the tick length in milliseconds is handed over as a number of seconds
    var count := generator.Generate(timeDelta * 1000, |session.loot|, |session.dogs|, random);
    spawned := [];
    ghost var time := generator.timeWithoutLoot;
    for i := 0 to count
      invariant generator.timeWithoutLoot == time
      invariant |spawned| == i && session.loot == old(session.loot) + spawned
      invariant forall j :: 0 <= j < i ==> IsNewLoot(session.gameMap, spawned[j], nextId + j)
      invariant IsDrawn(session.gameMap, draws, spawned)
    {
      var item := NewLoot(session.gameMap, nextId + i, draws(i));
      session.AddLoot(item);
      spawned := spawned + [item];
    }
  }

  method NewLoot(gameMap: GameMap, id: nat, draw: LootDraw) returns (item: Loot)
    requires draw.point.road < |gameMap.roads| && draw.kind < |gameMap.lootValues|
    ensures IsNewLoot(gameMap, item, id)
    ensures item.kind == draw.kind
    ensures var p := DrawnPoint(gameMap.roads, draw.point); item.position == Point(p.x as real, p.y as real)
  {
    var p := GetRandomPointOnRoad(gameMap.roads, draw.point);
    item := Loot(draw.kind, id, gameMap.lootValues[draw.kind], Point(p.x as real, p.y as real), LOOT_WIDTH);
  }

  // ---- collisions ----

  method AddLootToGathererProvider(session: GameSession, provider: GathererProvider)
    modifies provider`items
    ensures provider.items == old(provider.items) + LootItems(session.loot)
  {
    for i := 0 to |session.loot|
      invariant provider.items == old(provider.items) + LootItems(session.loot)[..i]
    {
      var item := session.loot[i];
      provider.AddItem(Item(item.position, item.width, item.id, LootItem));
    }
  }

  method AddOfficesToGathererProvider(session: GameSession, provider: GathererProvider)
    modifies provider`items
    ensures provider.items == old(provider.items) + OfficeItems(session.gameMap.offices)
  {
    var offices := session.gameMap.offices;
    for i := 0 to |offices|
      invariant provider.items == old(provider.items) + OfficeItems(offices)[..i]
    {
      var office := offices[i];
      provider.AddItem(Item(Point(office.position.x as real, office.position.y as real), OFFICE_WIDTH,
                            office.number, OfficeItem));
    }
  }

  /** The session's objects show the field `f`. */
  ghost predicate Shows(session: GameSession, f: Field, collected: seq<nat>)
    reads session, session.dogs
  {
    && f.dogs == DogStates(session.dogs) && f.ground == session.loot
    && forall id :: id in f.taken <==> id in collected
  }

  /** The ids noted at the start are still on the ground unless collected; nothing else is there. */
  ghost predicate Present(ground: seq<Loot>, existing: seq<nat>, collected: seq<nat>) {
    && (forall id :: id in existing && id !in collected ==> OnGround(ground, id))
    && forall l :: l in ground ==> l.id in existing
  }

  lemma CollectingKeepsPresent(ground: seq<Loot>, existing: seq<nat>, collected: seq<nat>, id: nat)
    requires Present(ground, existing, collected) && OnGround(ground, id)
    ensures Present(RemoveAt(ground, FirstWithId(ground, id)), existing, collected + [id])
  {
    var k := FirstWithId(ground, id);
    forall other | other in existing && other !in collected + [id] ensures OnGround(RemoveAt(ground, k), other) {
      RemovingOthersKeepsFirst(ground, k, other);
    }
  }

  /**
   * Replays the events. The code keeps the ids present at the start and the ids already collected;
   * together they say what the specification reads off the ground, so no gathering can fail.
   */
  method GatherLoot(session: GameSession, provider: GathererProvider) returns (events: seq<Event>)
    requires DistinctObjects(session.dogs) && |provider.gatherers| <= |session.dogs|
    modifies session`loot, session.dogs
    ensures IsEventLog(provider.items, provider.gatherers, events)
    ensures InRange(events, |session.dogs|)
    ensures var f := Replayed(Field(old(DogStates(session.dogs)), old(session.loot), {}), events,
                              session.gameMap.bagCapacity);
      f.dogs == DogStates(session.dogs) && f.ground == session.loot
  {
    events := FindGatherEvents(provider);
    LogIsInRange(provider.items, provider.gatherers, events);
    var collected: seq<nat> := [];
    var existing := IdsOnGround(session.loot);
    ghost var start := Field(DogStates(session.dogs), session.loot, {});
    assert Present(session.loot, existing, collected);
    for n := 0 to |events|
      invariant InRange(events[..n], |start.dogs|)
      invariant Shows(session, Replayed(start, events[..n], session.gameMap.bagCapacity), collected)
      invariant Present(session.loot, existing, collected)
    {
      NextReplayed(start, events, n, session.gameMap.bagCapacity);
      collected := ReplayEvent(session, events[n], existing, collected,
                               Replayed(start, events[..n], session.gameMap.bagCapacity));
    }
    assert events[..|events|] == events;
  }

  method IdsOnGround(loot: seq<Loot>) returns (ids: seq<nat>)
    ensures |ids| == |loot| && forall i :: 0 <= i < |loot| ==> ids[i] == loot[i].id
    ensures Present(loot, ids, [])
  {
    ids := [];
    for i := 0 to |loot|
      invariant |ids| == i && forall j :: 0 <= j < i ==> ids[j] == loot[j].id
    {
      ids := ids + [loot[i].id];
    }
  }

  lemma LogIsInRange(items: seq<Item>, gatherers: seq<Gatherer>, events: seq<Event>)
    requires IsEventLog(items, gatherers, events)
    ensures InRange(events, |gatherers|)
  {
    forall k | 0 <= k < |events| ensures events[k].gatherer < |gatherers| {
      assert multiset(events)[events[k]] >= 1;
    }
  }

  method ReplayEvent(session: GameSession, e: Event, existing: seq<nat>, collected: seq<nat>, ghost f: Field)
    returns (collected': seq<nat>)
    requires DistinctObjects(session.dogs) && e.gatherer < |session.dogs|
    requires Shows(session, f, collected) && Present(session.loot, existing, collected)
    modifies session`loot, session.dogs[e.gatherer]
    ensures Shows(session, Step(f, e, session.gameMap.bagCapacity), collected')
    ensures Present(session.loot, existing, collected')
  {
    collected' := collected;
    if e.itemType != OfficeItem && e.item !in existing {
      return;
    }
    var dog := session.dogs[e.gatherer];
    var alreadyCollected := e.item in collected;
    if e.itemType == OfficeItem {
      dog.ReleaseLoot();
    } else if !alreadyCollected && |dog.bag| < session.gameMap.bagCapacity {
      CollectingKeepsPresent(session.loot, existing, collected, e.item);
      var loot := session.GatherLoot(e.item);
      assert loot.Some?;
      dog.AddLoot(loot.value);
      collected' := collected + [e.item];
    }
  }

  // ---- movement, new loot and collisions, one after the other ----

  method MoveAndSpawn(
    session: GameSession, timeDelta: int, generator: LootGenerator, random: real, nextId: nat,
    draws: nat -> LootDraw, provider: GathererProvider)
    returns (spawned: seq<Loot>)
    requires timeDelta >= 0 && generator.baseInterval > 0 && DistinctObjects(session.dogs)
    requires forall i :: 0 <= i < |session.dogs| ==> Coherent(session.dogs[i].direction, session.dogs[i].speed)
    requires AreLootDraws(session.gameMap, draws)
    requires provider.items == [] && provider.gatherers == []
    modifies session`loot, session.dogs, generator`timeWithoutLoot, provider`gatherers
    ensures DogsMoved(session.gameMap.roads, timeDelta as real / MS_IN_SECONDS,
                      old(DogStates(session.dogs)), DogStates(session.dogs))
    ensures IsSpawn(session.gameMap, |old(session.loot)|, |session.dogs|, nextId, spawned)
    ensures session.loot == old(session.loot) + spawned
    ensures provider.gatherers == Gatherers(old(DogStates(session.dogs)), DogStates(session.dogs))
    ensures IsDrawn(session.gameMap, draws, spawned)
    ensures IsYield(generator, old(|session.loot|), |session.dogs|, spawned,
                    old(generator.timeWithoutLoot), generator.timeWithoutLoot, timeDelta, random)
  {
    UpdateDogsPosition(session, timeDelta, provider);
    spawned := UpdateLoot(session, timeDelta, generator, random, nextId, draws);
  }

  method AddItems(session: GameSession, provider: GathererProvider)
    requires provider.items == []
    modifies provider`items
    ensures provider.items == Items(session.gameMap, session.loot)
  {
    AddLootToGathererProvider(session, provider);
    AddOfficesToGathererProvider(session, provider);
  }

  method Collect(session: GameSession, provider: GathererProvider) returns (events: seq<Event>)
    requires DistinctObjects(session.dogs) && provider.items == [] && |provider.gatherers| == |session.dogs|
    modifies session`loot, session.dogs, provider`items
    ensures IsEventLog(Items(session.gameMap, old(session.loot)), provider.gatherers, events)
    ensures InRange(events, |session.dogs|)
    ensures var f := Replayed(Field(old(DogStates(session.dogs)), old(session.loot), {}), events,
                              session.gameMap.bagCapacity);
      f.dogs == DogStates(session.dogs) && f.ground == session.loot
  {
    AddItems(session, provider);
    events := GatherLoot(session, provider);
  }

  method PlayTick(
    session: GameSession, timeDelta: int, generator: LootGenerator, random: real, nextId: nat,
    draws: nat -> LootDraw, ghost s: SessionState)
    returns (count: nat, ghost c: Choice)
    requires timeDelta >= 0 && generator.baseInterval > 0 && DistinctObjects(session.dogs)
    requires s.gameMap == session.gameMap && s.loot == session.loot && s.dogs == DogStates(session.dogs)
    requires forall i :: 0 <= i < |session.dogs| ==> Coherent(session.dogs[i].direction, session.dogs[i].speed)
    requires AreLootDraws(session.gameMap, draws)
    modifies session`loot, session.dogs, generator`timeWithoutLoot
    ensures IsChoice(s, nextId, timeDelta as real / MS_IN_SECONDS, c) && InRange(c.events, |c.moved|)
    ensures DogStates(session.dogs) == Harvested(s, c).dogs && session.loot == Harvested(s, c).ground
    ensures count == |c.spawned| && IsDrawn(session.gameMap, draws, c.spawned)
    ensures IsYield(generator, |s.loot|, |s.dogs|, c.spawned,
                    old(generator.timeWithoutLoot), generator.timeWithoutLoot, timeDelta, random)
  {
    var provider := new GathererProvider();
    var spawned := MoveAndSpawn(session, timeDelta, generator, random, nextId, draws, provider);
    ghost var moved := DogStates(session.dogs);
    var events := Collect(session, provider);
    c := Choice(moved, spawned, events);
    count := |spawned|;
  }
}
