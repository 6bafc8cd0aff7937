/**
 * What dogs meet in a tick: loot and offices take part, at their places on the map and with their
 * widths. A dog's score grows at offices only, and there by what it brings along.
 */
module Meetings {
  import opened Collision
  import opened Entities
  import opened GameStates
  import opened Geometry
  import opened Registry
  import opened Replay
  import opened Runs
  import opened SessionTicks
  import opened Wares

  // ---- who takes part ----

  /** The provider lists the loot on the ground, in order, and after it the offices of the map. */
  lemma ItemsAreLootAndOffices(gameMap: GameMap, loot: seq<Loot>, i: nat)
    ensures |Items(gameMap, loot)| == |loot| + |gameMap.offices|
    ensures i < |loot| ==> var item := Items(gameMap, loot)[i];
              && item.itemType == LootItem && item.position == loot[i].position && item.width == loot[i].width
              && item.id == loot[i].id
    ensures |loot| <= i < |loot| + |gameMap.offices| ==>
              var (item, o) := (Items(gameMap, loot)[i], gameMap.offices[i - |loot|]);
              && item.itemType == OfficeItem && item.width == 0.5 && item.id == o.number
              && item.position == Point(o.position.x as real, o.position.y as real)
  {
  }

  /** On its way in this part of the tick, dog `g` passes a place that is `width` wide. */
  ghost predicate DogPasses(s: SessionState, c: Choice, g: nat, place: Point, width: real)
    requires g < |s.dogs| == |c.moved|
  {
    Passes(s.dogs[g].position, c.moved[g].position, place, c.moved[g].width + width)
  }

  ghost predicate DogPassesOffice(s: SessionState, c: Choice, g: nat)
    requires g < |s.dogs| == |c.moved|
  {
    exists o :: o in s.gameMap.offices && DogPasses(s, c, g, Point(o.position.x as real, o.position.y as real), 0.5)
  }

  /** The log has an event for dog `g` and the item at position `i`. */
  ghost predicate HasEvent(c: Choice, g: nat, i: nat) {
    exists k :: 0 <= k < |c.events| && c.events[k].gatherer == g && c.events[k].item == i
  }

  lemma MeetsExactly(s: SessionState, nextLoot: nat, dt: real, c: Choice, g: nat, i: nat)
    requires IsChoice(s, nextLoot, dt, c) && g < |s.dogs| && i < |Items(s.gameMap, s.loot + c.spawned)|
    ensures var item := Items(s.gameMap, s.loot + c.spawned)[i];
      HasEvent(c, g, i) <==> DogPasses(s, c, g, item.position, item.width)
    ensures forall k :: 0 <= k < |c.events| ==>
              && c.events[k].item < |Items(s.gameMap, s.loot + c.spawned)|
              && c.events[k].itemType == Items(s.gameMap, s.loot + c.spawned)[c.events[k].item].itemType
  {
    EventLogIsExact(Items(s.gameMap, s.loot + c.spawned), Gatherers(s.dogs, c.moved), c.events, g, i);
  }

  /** There is an event for a dog and a loot exactly when the dog passes the loot where it lies. */
  lemma MeetsLootItPasses(s: SessionState, nextLoot: nat, dt: real, c: Choice, g: nat, i: nat)
    requires IsChoice(s, nextLoot, dt, c) && g < |s.dogs| && i < |s.loot + c.spawned|
    ensures var l := (s.loot + c.spawned)[i];
      HasEvent(c, g, i) <==> DogPasses(s, c, g, l.position, l.width)
  {
    ItemsAreLootAndOffices(s.gameMap, s.loot + c.spawned, i);
    MeetsExactly(s, nextLoot, dt, c, g, i);
  }

  ghost predicate BanksInTick(c: Choice, g: nat) { exists k :: 0 <= k < |c.events| && Banks(c.events[k], g) }

  lemma PassedOfficeIsBank(s: SessionState, nextLoot: nat, dt: real, c: Choice, g: nat, j: nat)
    requires IsChoice(s, nextLoot, dt, c) && g < |s.dogs| && j < |s.gameMap.offices|
    requires var o := s.gameMap.offices[j]; DogPasses(s, c, g, Point(o.position.x as real, o.position.y as real), 0.5)
    ensures BanksInTick(c, g)
  {
    var i := |s.loot + c.spawned| + j;
    ItemsAreLootAndOffices(s.gameMap, s.loot + c.spawned, i);
    MeetsExactly(s, nextLoot, dt, c, g, i);
    var k :| 0 <= k < |c.events| && c.events[k].gatherer == g && c.events[k].item == i;
    assert Banks(c.events[k], g);
  }

  lemma BankIsPassedOffice(s: SessionState, nextLoot: nat, dt: real, c: Choice, g: nat, k: nat)
    requires IsChoice(s, nextLoot, dt, c) && g < |s.dogs| && k < |c.events| && Banks(c.events[k], g)
    ensures DogPassesOffice(s, c, g)
  {
    MeetsAreItems(s, nextLoot, dt, c, k);
    var i := c.events[k].item;
    ItemsAreLootAndOffices(s.gameMap, s.loot + c.spawned, i);
    MeetsExactly(s, nextLoot, dt, c, g, i);
    assert HasEvent(c, g, i);
    var o := s.gameMap.offices[i - |s.loot + c.spawned|];
    assert o in s.gameMap.offices;
  }

  lemma MeetsAreItems(s: SessionState, nextLoot: nat, dt: real, c: Choice, k: nat)
    requires IsChoice(s, nextLoot, dt, c) && k < |c.events|
    ensures c.events[k].item < |Items(s.gameMap, s.loot + c.spawned)|
    ensures c.events[k].itemType == Items(s.gameMap, s.loot + c.spawned)[c.events[k].item].itemType
  {
    assert multiset(c.events)[c.events[k]] >= 1;
    assert IsEvent(Items(s.gameMap, s.loot + c.spawned), Gatherers(s.dogs, c.moved), c.events[k]);
  }

  /** A dog banks in a tick exactly when it passes an office of the map. */
  lemma BanksExactlyAtOffices(s: SessionState, nextLoot: nat, dt: real, c: Choice, g: nat)
    requires IsChoice(s, nextLoot, dt, c) && g < |s.dogs|
    ensures BanksInTick(c, g) <==> DogPassesOffice(s, c, g)
  {
    if BanksInTick(c, g) {
      var k :| 0 <= k < |c.events| && Banks(c.events[k], g);
      BankIsPassedOffice(s, nextLoot, dt, c, g, k);
    }
    if DogPassesOffice(s, c, g) {
      var o :| o in s.gameMap.offices
               && DogPasses(s, c, g, Point(o.position.x as real, o.position.y as real), 0.5);
      var j :| 0 <= j < |s.gameMap.offices| && s.gameMap.offices[j] == o;
      PassedOfficeIsBank(s, nextLoot, dt, c, g, j);
    }
  }

  // ---- bag and score ----

  /** What a dog gathers has left the ground. */
  lemma {:induction false} GathersComeFromGround(f: Field, events: seq<Event>, capacity: nat, g: nat)
    requires InRange(events, |f.dogs|)
    ensures multiset(Replayed(f, events, capacity).ground) + multiset(Gathers(f, events, capacity, g))
         <= multiset(f.ground)
  {
    if events == [] {
    } else {
      var (before, e) := (events[..|events| - 1], events[|events| - 1]);
      GathersComeFromGround(f, before, capacity, g);
      var now := Replayed(f, before, capacity);
      if CanTake(now, e, capacity) { MultisetWithout(now.ground, FirstWithId(now.ground, e.item)); }
    }
  }

  /**
   * The dog has banked its old bag and `banked`. This and what it carries now has been on the
   * ground, old loot or new.
   */
  ghost predicate HasBanked(d: DogState, d': DogState, ground: seq<Loot>, banked: seq<Loot>) {
    && d'.score == (d.score + BagValue(d.bag + banked)) % 0x1_0000_0000
    && multiset(banked) + multiset(d'.bag) <= multiset(ground)
  }

  /** The dog has kept score and bag, and has put what it gathered on top. */
  ghost predicate HasKept(d: DogState, d': DogState, ground: seq<Loot>) {
    d'.score == d.score && d.bag <= d'.bag && multiset(d'.bag[|d.bag|..]) <= multiset(ground)
  }

  /** What becomes of a dog's haul: `banks` says whether it has been to an office. */
  ghost predicate HasHauled(d: DogState, d': DogState, ground: seq<Loot>, banks: bool) {
    if banks then exists banked :: HasBanked(d, d', ground, banked) else HasKept(d, d', ground)
  }

  lemma HaulFromAccounts(
    d: DogState, d': DogState, all: seq<Loot>, banked: seq<Loot>, visited: bool, ground: seq<Loot>)
    requires Accounts(d, d', all, banked, visited) && multiset(all) <= multiset(ground)
    ensures HasHauled(d, d', ground, visited)
  {
    if visited {
      assert all == banked + d'.bag;
      assert HasBanked(d, d', ground, banked);
    } else {
      assert d'.bag[|d.bag|..] == all;
    }
  }

  lemma HaulAfterReplay(f: Field, events: seq<Event>, capacity: nat, g: nat)
    requires InRange(events, |f.dogs|) && g < |f.dogs|
    ensures HasHauled(f.dogs[g], Replayed(f, events, capacity).dogs[g], f.ground, LastBanking(events, g) > 0)
  {
    var n := LastBanking(events, g);
    var (all, banked) := (Gathers(f, events, capacity, g), Gathers(f, events[..n], capacity, g));
    BagAndScoreAfterReplay(f, events, capacity, g);
    GathersComeFromGround(f, events, capacity, g);
    assert multiset(all) <= multiset(f.ground);
    HaulFromAccounts(f.dogs[g], Replayed(f, events, capacity).dogs[g], all, banked, n > 0, f.ground);
  }

  /** In a session's part of a tick a dog keeps its haul, or passes an office and banks it. */
  lemma HaulAfterPart(s: SessionState, nextLoot: nat, dt: real, c: Choice, g: nat)
    requires IsChoice(s, nextLoot, dt, c) && g < |s.dogs|
    ensures InRange(c.events, |c.moved|) && |c.moved| == |s.dogs|
    ensures HasHauled(s.dogs[g], Harvested(s, c).dogs[g], s.loot + c.spawned, DogPassesOffice(s, c, g))
  {
    EventsInRange(s, nextLoot, dt, c);
    BanksExactlyAtOffices(s, nextLoot, dt, c, g);
    LastBankingMeansBanks(c.events, g);
    HaulAfterReplay(Start(s, c), c.events, s.gameMap.bagCapacity, g);
    assert DogMoved(s.gameMap.roads, dt, s.dogs[g], c.moved[g]);
    SameHaul(s.dogs[g], c.moved[g], Harvested(s, c).dogs[g], s.loot + c.spawned, DogPassesOffice(s, c, g));
  }

  lemma SameHaul(d: DogState, moved: DogState, d': DogState, ground: seq<Loot>, banks: bool)
    requires moved.bag == d.bag && moved.score == d.score && HasHauled(moved, d', ground, banks)
    ensures HasHauled(d, d', ground, banks)
  {
    if banks {
      var banked :| HasBanked(moved, d', ground, banked);
      assert HasBanked(d, d', ground, banked);
    }
  }

  lemma LastBankingMeansBanks(events: seq<Event>, g: nat)
    ensures LastBanking(events, g) > 0 <==> exists k :: 0 <= k < |events| && Banks(events[k], g)
  {
  }

  lemma {:induction false} BystanderKeepsHaul(f: Field, events: seq<Event>, capacity: nat, g: nat)
    requires InRange(events, |f.dogs|) && g < |f.dogs|
    requires forall k :: 0 <= k < |events| ==> events[k].gatherer != g
    ensures Replayed(f, events, capacity).dogs[g] == f.dogs[g]
  {
    if events == [] {
    } else {
      BystanderKeepsHaul(f, events[..|events| - 1], capacity, g);
    }
  }

  /** A dog that stays where it is meets nothing, not even where it stands. */
  lemma UnmovedDogMeetsNothing(s: SessionState, nextLoot: nat, dt: real, c: Choice, g: nat)
    requires IsChoice(s, nextLoot, dt, c) && g < |s.dogs| && InRange(c.events, |c.moved|)
    requires c.moved[g].position == s.dogs[g].position
    ensures Harvested(s, c).dogs[g] == c.moved[g]
  {
    var (items, gatherers) := (Items(s.gameMap, s.loot + c.spawned), Gatherers(s.dogs, c.moved));
    forall k | 0 <= k < |c.events| ensures c.events[k].gatherer != g {
      assert multiset(c.events)[c.events[k]] >= 1;
      assert IsEvent(items, gatherers, c.events[k]);
    }
    BystanderKeepsHaul(Start(s, c), c.events, s.gameMap.bagCapacity, g);
  }

  // ---- whole ticks ----

  /** The straight way from `a` to `b` passes an office of the map within 1.1, the two widths together. */
  ghost predicate PassesOffice(gameMap: GameMap, a: Point, b: Point) {
    exists o :: o in gameMap.offices && Passes(a, b, Point(o.position.x as real, o.position.y as real), 1.1)
  }

  lemma PartTrades(s: SessionState, nextLoot: nat, dt: real, c: Choice, g: nat)
    requires IsChoice(s, nextLoot, dt, c) && g < |s.dogs| && s.dogs[g].width == 0.6
    ensures InRange(c.events, |c.moved|) && |c.moved| == |s.dogs|
    ensures var (d, d') := (s.dogs[g], Harvested(s, c).dogs[g]);
      HasHauled(d, d', s.loot + c.spawned, PassesOffice(s.gameMap, d.position, d'.position))
  {
    HaulAfterPart(s, nextLoot, dt, c, g);
    HarvestKeepsWidths(s, nextLoot, dt, c, g);
    ReplayChangesOnlyHauls(Start(s, c), c.events, s.gameMap.bagCapacity);
    assert SameButHaul(c.moved[g], Harvested(s, c).dogs[g]);
    assert c.moved[g].width + 0.5 == 1.1;
    assert DogPassesOffice(s, c, g) <==> PassesOffice(s.gameMap, s.dogs[g].position, c.moved[g].position);
  }

  lemma TickTrades(
    g: GameState, s: SessionState, dt: int, order: seq<string>, choices: seq<Choice>, m: string,
    d: DogState, d': DogState) returns (spawned: seq<Loot>)
    requires m in g.sessions && s == g.sessions[m] && DistinctDogs(s.dogs) && GoodWares(s)
    requires d in s.dogs && IsAfterTick(g, m, dt, order, choices, d') && d'.id == d.id
    ensures spawned == [] || |s.loot + spawned| <= |s.dogs|
    ensures HasHauled(d, d', s.loot + spawned, PassesOffice(s.gameMap, d.position, d'.position))
  {
    var time := dt as real / MS_IN_SECONDS;
    var c, nextLoot, i := DogInTick(g, s, m, dt, order, choices, d, d', time);
    PartTrades(s, nextLoot, time, c, i);
    spawned := c.spawned;
  }

  /**
   * In a tick from a reachable state a dog's score changes only if its way passes an office, and then
   * by the value of its old bag and of loot from the ground, modulo 2^32. Otherwise it keeps its bag.
   */
  lemma ScoresComeFromOffices(
    start: GameState, past: seq<Request>, g: GameState, s: SessionState,
    dt: int, order: seq<string>, choices: seq<Choice>, m: string, d: DogState, d': DogState)
    returns (spawned: seq<Loot>)
    requires IsInitial(start) && IsRun(start, past) && g == AfterRun(start, past)
    requires m in g.sessions && s == g.sessions[m] && d in s.dogs
    requires IsAfterTick(g, m, dt, order, choices, d') && d'.id == d.id
    ensures spawned == [] || |s.loot + spawned| <= |s.dogs|
    ensures HasHauled(d, d', s.loot + spawned, PassesOffice(s.gameMap, d.position, d'.position))
  {
    assert DistinctDogs(s.dogs) by { RunKeepsInv(start, past); }
    assert GoodWares(s) by { RunKeepsWares(start, past); }
    spawned := TickTrades(g, s, dt, order, choices, m, d, d');
  }
}
