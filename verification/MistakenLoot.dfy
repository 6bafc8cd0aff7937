/**
 * Which loot a tick takes. An event names the position of the item that a dog meets, and the loot
 * with that number as its id leaves the ground, wherever it lies.
 */
module MistakenLoot {
  import opened Collision
  import opened Entities
  import opened GameStates
  import opened LootPlaces
  import opened Replay
  import opened Runs

  ghost predicate DistinctLoot(ground: seq<Loot>) {
    forall i, j :: 0 <= i < j < |ground| ==> ground[i].id != ground[j].id
  }

  /** The loot that an event takes is the loot that its dog met exactly when its id is its position. */
  lemma TakesMetLoot(ground: seq<Loot>, f: Field, e: Event, capacity: nat)
    requires e.gatherer < |f.dogs| && CanTake(f, e, capacity)
    requires e.item < |ground| && DistinctLoot(ground) && forall l :: l in f.ground ==> l in ground
    ensures f.ground[FirstWithId(f.ground, e.item)] == ground[e.item] <==> ground[e.item].id == e.item
  {
    assert f.ground[FirstWithId(f.ground, e.item)] in ground;
  }

  // ---- a whole tick ----

  lemma StepTakesByName(f: Field, e: Event, capacity: nat)
    requires e.gatherer < |f.dogs| && DistinctLoot(f.ground)
    requires forall l :: l in f.ground ==> l.id !in f.taken
    ensures DistinctLoot(Step(f, e, capacity).ground)
    ensures forall l :: l in Step(f, e, capacity).ground ==> l in f.ground && l.id !in Step(f, e, capacity).taken
  {
    if CanTake(f, e, capacity) {
      var k := FirstWithId(f.ground, e.item);
      var rest := RemoveAt(f.ground, k);
      forall i | 0 <= i < |rest| ensures rest[i] == f.ground[if i < k then i else i + 1] {
      }
    }
  }

  /** A loot that has been taken is on the ground no more. */
  lemma {:induction false} TakenIsGone(f: Field, events: seq<Event>, capacity: nat)
    requires InRange(events, |f.dogs|) && DistinctLoot(f.ground) && f.taken == {}
    ensures DistinctLoot(Replayed(f, events, capacity).ground)
    ensures forall l :: l in Replayed(f, events, capacity).ground ==>
              l in f.ground && l.id !in Replayed(f, events, capacity).taken
  {
    if events == [] {
    } else {
      TakenIsGone(f, events[..|events| - 1], capacity);
      StepTakesByName(Replayed(f, events[..|events| - 1], capacity), events[|events| - 1], capacity);
    }
  }

  lemma LeavesIfTaken(f: Field, events: seq<Event>, capacity: nat, l: Loot)
    requires InRange(events, |f.dogs|) && DistinctLoot(f.ground) && f.taken == {} && l in f.ground
    ensures l !in Replayed(f, events, capacity).ground <==> l.id in Replayed(f, events, capacity).taken
  {
    TakenIsGone(f, events, capacity);
    if l.id !in Replayed(f, events, capacity).taken {
      var i :| 0 <= i < |f.ground| && f.ground[i] == l;
      assert FirstWithId(f.ground, l.id) == i;
      FirstClaimWins(f, events, capacity, l.id);
      assert NoClaim(f, events, capacity, |events|, l.id);
    }
  }

  /** Dog `g` runs past the item at position `i` of the provider's list in this tick. */
  predicate Meets(s: SessionState, c: Choice, g: nat, i: nat)
    requires |s.dogs| == |c.moved|
  {
    && g < |s.dogs| && i < |Items(s.gameMap, s.loot + c.spawned)|
    && Collects(Gatherers(s.dogs, c.moved)[g], Items(s.gameMap, s.loot + c.spawned)[i])
  }

  /** A dog with room, at that moment, meets the item whose position is the number `id`. */
  ghost predicate IsCalledFor(s: SessionState, c: Choice, id: nat)
    requires |s.dogs| == |c.moved| && InRange(c.events, |c.moved|)
  {
    exists j :: && 0 <= j < |c.events| && Meets(s, c, c.events[j].gatherer, id)
                && Claims(Start(s, c), c.events, s.gameMap.bagCapacity, j, id)
  }

  /**
   * A loot leaves the ground in a tick exactly when a dog with room meets the item at the position
   * that is the loot's id. Where the loot itself lies does not matter.
   */
  lemma LeavesGroundExactly(s: SessionState, nextLoot: nat, dt: real, c: Choice, l: Loot)
    requires IsChoice(s, nextLoot, dt, c) && DistinctLoot(s.loot + c.spawned) && l in s.loot + c.spawned
    ensures InRange(c.events, |c.moved|)
    ensures l !in Harvested(s, c).ground <==> IsCalledFor(s, c, l.id)
  {
    EventsInRange(s, nextLoot, dt, c);
    var (f, capacity) := (Start(s, c), s.gameMap.bagCapacity);
    LeavesIfTaken(f, c.events, capacity, l);
    assert OnGround(f.ground, l.id);
    FirstClaimWins(f, c.events, capacity, l.id);
    forall j | 0 <= j < |c.events| && Claims(f, c.events, capacity, j, l.id)
      ensures Meets(s, c, c.events[j].gatherer, l.id)
    {
      assert multiset(c.events)[c.events[j]] >= 1;
      assert IsEvent(Items(s.gameMap, s.loot + c.spawned), Gatherers(s.dogs, c.moved), c.events[j]);
    }
  }

  lemma LyingIsDistinct(s: SessionState, nextLoot: nat)
    requires GoodHolding(s, nextLoot)
    ensures DistinctLoot(s.loot) && forall i :: 0 <= i < |s.loot| ==> s.loot[i].id < nextLoot
  {
    forall i, j | 0 <= i < j < |s.loot| ensures s.loot[i].id != s.loot[j].id {
      assert s.loot[i] in HeldIn(s) && s.loot[j] in HeldIn(s);
      if s.loot[i] == s.loot[j] { RepeatedElement(s.loot, i, j); }
    }
    forall i | 0 <= i < |s.loot| ensures s.loot[i].id < nextLoot {
      assert s.loot[i] in HeldIn(s);
    }
  }

  /** In a sound game the loot on the ground, new loot included, has distinct ids. */
  lemma GroundIsDistinct(g: GameState, m: string, dt: real, c: Choice)
    requires GoodLoot(g) && m in g.sessions && IsChoice(g.sessions[m], g.counters.loot, dt, c)
    ensures DistinctLoot(g.sessions[m].loot + c.spawned)
  {
    LyingIsDistinct(g.sessions[m], g.counters.loot);
    NewLootIsDistinct(g.sessions[m].gameMap, g.sessions[m].loot, g.counters.loot, c.spawned);
  }

  lemma NewLootIsDistinct(gameMap: GameMap, lying: seq<Loot>, nextLoot: nat, spawned: seq<Loot>)
    requires DistinctLoot(lying) && forall i :: 0 <= i < |lying| ==> lying[i].id < nextLoot
    requires forall i :: 0 <= i < |spawned| ==> IsNewLoot(gameMap, spawned[i], nextLoot + i)
    ensures DistinctLoot(lying + spawned)
  {
  }

  /** In a tick from a reachable state exactly the loot that is called for leaves the ground. */
  lemma ReachableTicksTakeByName(
    g: GameState, requests: seq<Request>, dt: int, order: seq<string>, choices: seq<Choice>,
    m: string, c: Choice, l: Loot)
    requires IsInitial(g) && IsRun(g, requests) && dt >= 0
    requires AreChoices(Advanced(AfterRun(g, requests), dt), dt, order, choices)
    requires var b := Ticked(Advanced(AfterRun(g, requests), dt), order, choices);
      && m in b.sessions && IsChoice(b.sessions[m], b.counters.loot, dt as real / MS_IN_SECONDS, c)
      && l in b.sessions[m].loot + c.spawned
    ensures InRange(c.events, |c.moved|)
    ensures var b := Ticked(Advanced(AfterRun(g, requests), dt), order, choices);
      l !in AfterTick(b, m, c).sessions[m].loot <==> IsCalledFor(b.sessions[m], c, l.id)
  {
    RunKeepsInv(g, requests);
    AdvancingIsSound(AfterRun(g, requests), dt);
    PrefixIsSound(Advanced(AfterRun(g, requests), dt), dt, order, choices);
    var b := Ticked(Advanced(AfterRun(g, requests), dt), order, choices);
    SoundTickTakesByName(b, m, dt as real / MS_IN_SECONDS, c, l);
  }

  lemma SoundTickTakesByName(b: GameState, m: string, dt: real, c: Choice, l: Loot)
    requires GoodLoot(b) && m in b.sessions && IsChoice(b.sessions[m], b.counters.loot, dt, c)
    requires l in b.sessions[m].loot + c.spawned
    ensures InRange(c.events, |c.moved|)
    ensures l !in AfterTick(b, m, c).sessions[m].loot <==> IsCalledFor(b.sessions[m], c, l.id)
  {
    GroundIsDistinct(b, m, dt, c);
    LeavesGroundExactly(b.sessions[m], b.counters.loot, dt, c, l);
  }
}
