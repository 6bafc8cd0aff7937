/**
 * Every live loot of every reachable state is in exactly one place, on the ground or in one bag, and
 * its id is below the loot counter, so the next loot gets a fresh id.
 */
module LootPlaces {
  import opened Entities
  import opened GameStates
  import opened Geometry
  import opened Replay

  function HeldIn(s: SessionState): multiset<Loot> { multiset(s.loot) + Bags(s.dogs) }

  ghost predicate IdsBelow(held: multiset<Loot>, n: nat) {
    forall l :: l in held ==> l.id < n
  }

  ghost predicate NoCommonId(a: multiset<Loot>, b: multiset<Loot>) {
    forall l1, l2 :: l1 in a && l2 in b ==> l1.id != l2.id
  }

  ghost predicate GoodHolding(s: SessionState, nextLoot: nat) {
    OnePlaceEach(HeldIn(s)) && IdsBelow(HeldIn(s), nextLoot)
  }

  ghost predicate Apart(s1: SessionState, s2: SessionState) { NoCommonId(HeldIn(s1), HeldIn(s2)) }

  ghost predicate GoodLoot(g: GameState) {
    && (forall m :: m in g.sessions ==> GoodHolding(g.sessions[m], g.counters.loot))
    && forall m1, m2 :: m1 in g.sessions && m2 in g.sessions && m1 != m2 ==> Apart(g.sessions[m1], g.sessions[m2])
  }

  lemma {:induction false} EqualBags(a: seq<DogState>, b: seq<DogState>)
    requires |a| == |b| && forall i :: 0 <= i < |a| ==> a[i].bag == b[i].bag
    ensures Bags(a) == Bags(b)
  {
    if a == [] {
    } else {
      EqualBags(a[..|a| - 1], b[..|b| - 1]);
    }
  }

  lemma BagsWithLast(dogs: seq<DogState>, d: DogState)
    ensures Bags(dogs + [d]) == Bags(dogs) + multiset(d.bag)
  {
    assert (dogs + [d])[..|dogs|] == dogs;
  }

  /** A change that moves no loot between places keeps the discipline. */
  lemma SameLootKeepsPlaces(g: GameState, g': GameState)
    requires GoodLoot(g) && g'.sessions.Keys == g.sessions.Keys && g'.counters.loot == g.counters.loot
    requires forall m :: m in g.sessions ==> HeldIn(g'.sessions[m]) == HeldIn(g.sessions[m])
    ensures GoodLoot(g')
  {
    forall m1, m2 | m1 in g'.sessions && m2 in g'.sessions && m1 != m2
      ensures Apart(g'.sessions[m1], g'.sessions[m2])
    {
      assert Apart(g.sessions[m1], g.sessions[m2]);
    }
    forall m | m in g'.sessions ensures GoodHolding(g'.sessions[m], g'.counters.loot) {
      assert GoodHolding(g.sessions[m], g.counters.loot);
    }
  }

  lemma EmptySessionKeepsPlaces(g: GameState, g': GameState, mapId: string)
    requires GoodLoot(g) && mapId !in g.sessions && g'.counters.loot == g.counters.loot
    requires mapId in g'.sessions && g'.sessions == g.sessions[mapId := g'.sessions[mapId]]
    requires HeldIn(g'.sessions[mapId]) == multiset{}
    ensures GoodLoot(g')
  {
    forall m1, m2 | m1 in g'.sessions && m2 in g'.sessions && m1 != m2
      ensures Apart(g'.sessions[m1], g'.sessions[m2])
    {
      if m1 != mapId && m2 != mapId { assert Apart(g.sessions[m1], g.sessions[m2]); }
    }
    forall m | m in g'.sessions ensures GoodHolding(g'.sessions[m], g'.counters.loot) {
      if m == mapId {
        NothingHeldIsGood(g'.sessions[m], g'.counters.loot);
      } else {
        assert GoodHolding(g.sessions[m], g.counters.loot);
      }
    }
  }

  lemma NothingHeldIsGood(s: SessionState, nextLoot: nat)
    requires HeldIn(s) == multiset{}
    ensures GoodHolding(s, nextLoot)
  {
  }

  lemma DogWithoutLoot(s: SessionState, dog: DogState)
    requires dog.bag == []
    ensures HeldIn(s.(dogs := s.dogs + [dog])) == HeldIn(s)
  {
    BagsWithLast(s.dogs, dog);
    assert multiset(dog.bag) == multiset{};
  }

  lemma OneSessionKeepsPlaces(g: GameState, g': GameState, mapId: string)
    requires GoodLoot(g) && mapId in g.sessions && g'.counters.loot == g.counters.loot
    requires mapId in g'.sessions && g'.sessions == g.sessions[mapId := g'.sessions[mapId]]
    requires HeldIn(g'.sessions[mapId]) == HeldIn(g.sessions[mapId])
    ensures GoodLoot(g')
  {
    SameHoldings(g.sessions, g'.sessions, mapId);
    SameLootKeepsPlaces(g, g');
  }

  lemma SameHoldings(a: map<string, SessionState>, b: map<string, SessionState>, m0: string)
    requires m0 in a && m0 in b && b == a[m0 := b[m0]] && HeldIn(b[m0]) == HeldIn(a[m0])
    ensures b.Keys == a.Keys && forall m :: m in a ==> HeldIn(b[m]) == HeldIn(a[m])
  {
    forall m | m in a ensures HeldIn(b[m]) == HeldIn(a[m]) {
      if m != m0 { assert b[m] == a[m]; }
    }
  }

  lemma JoinedSession(g: GameState, name: string, mapId: string, spawn: Point, token: string, uuid: string)
    requires mapId in g.maps
    ensures var (g', s) := (Joined(g, name, mapId, spawn, token, uuid), SessionOf(g, mapId));
      && g'.sessions == g.sessions[
           mapId := s.(dogs := s.dogs + [NewDog(g.counters.dogs, name, spawn, uuid, g.clock)])]
      && g'.counters.loot == g.counters.loot
  {
  }

  lemma NewSessionHoldsNothing(s: SessionState)
    requires s.dogs == [] && s.loot == []
    ensures HeldIn(s) == multiset{}
  {
  }

  lemma JoinHolds(g: GameState, name: string, mapId: string, spawn: Point, token: string, uuid: string)
    requires mapId in g.maps
    ensures HeldIn(Joined(g, name, mapId, spawn, token, uuid).sessions[mapId])
         == if mapId in g.sessions then HeldIn(g.sessions[mapId]) else multiset{}
  {
    var s := SessionOf(g, mapId);
    JoinedSession(g, name, mapId, spawn, token, uuid);
    DogWithoutLoot(s, NewDog(g.counters.dogs, name, spawn, uuid, g.clock));
    if mapId !in g.sessions { NewSessionHoldsNothing(s); }
  }

  lemma JoinKeepsPlaces(g: GameState, name: string, mapId: string, spawn: Point, token: string, uuid: string)
    requires GoodLoot(g) && mapId in g.maps
    ensures GoodLoot(Joined(g, name, mapId, spawn, token, uuid))
  {
    var g' := Joined(g, name, mapId, spawn, token, uuid);
    JoinedSession(g, name, mapId, spawn, token, uuid);
    JoinHolds(g, name, mapId, spawn, token, uuid);
    if mapId in g.sessions {
      OneSessionKeepsPlaces(g, g', mapId);
    } else {
      EmptySessionKeepsPlaces(g, g', mapId);
    }
  }

  lemma ActKeepsPlaces(g: GameState, mapId: string, j: nat, move: string)
    requires GoodLoot(g) && mapId in g.sessions && j < |g.sessions[mapId].dogs|
    ensures GoodLoot(Acted(g, mapId, j, move))
  {
    var g' := Acted(g, mapId, j, move);
    EqualBags(g.sessions[mapId].dogs, g'.sessions[mapId].dogs);
    SameLootKeepsPlaces(g, g');
  }

  lemma {:induction false} SpawnHasFreshIds(loot: seq<Loot>, next: nat)
    requires forall i :: 0 <= i < |loot| ==> loot[i].id == next + i
    ensures OnePlaceEach(multiset(loot))
    ensures forall l :: l in multiset(loot) ==> next <= l.id < next + |loot|
  {
    if loot == [] {
    } else {
      var (front, last) := (loot[..|loot| - 1], loot[|loot| - 1]);
      SpawnHasFreshIds(front, next);
      assert loot == front + [last];
      assert multiset(loot) == multiset(front) + multiset{last};
      assert last !in multiset(front);
    }
  }

  lemma JoinedPlaces(a: multiset<Loot>, b: multiset<Loot>)
    requires OnePlaceEach(a) && OnePlaceEach(b) && NoCommonId(a, b)
    ensures OnePlaceEach(a + b)
  {
  }

  lemma {:induction false} StayingBags(dogs: seq<DogState>, limit: real)
    ensures Bags(Staying(dogs, limit)) <= Bags(dogs)
  {
    if dogs == [] {
    } else {
      StayingBags(dogs[..|dogs| - 1], limit);
      BagsWithLast(Staying(dogs[..|dogs| - 1], limit), dogs[|dogs| - 1]);
    }
  }

  /** What a session holds after its part of a tick it held before or has just been generated. */
  lemma TickHolds(g: GameState, mapId: string, dt: real, c: Choice)
    requires mapId in g.sessions && IsChoice(g.sessions[mapId], g.counters.loot, dt, c)
    ensures InRange(c.events, |c.moved|)
    ensures HeldIn(AfterTick(g, mapId, c).sessions[mapId]) <= HeldIn(g.sessions[mapId]) + multiset(c.spawned)
  {
    var s := g.sessions[mapId];
    EventsInRange(s, g.counters.loot, dt, c);
    ReplayCreatesNoLoot(Start(s, c), c.events, s.gameMap.bagCapacity);
    forall i | 0 <= i < |s.dogs| ensures c.moved[i].bag == s.dogs[i].bag {
      assert DogMoved(s.gameMap.roads, dt, s.dogs[i], c.moved[i]);
    }
    EqualBags(s.dogs, c.moved);
    var f := Harvested(s, c);
    StayingBags(f.dogs, g.retirementTime);
    assert multiset(s.loot + c.spawned) == multiset(s.loot) + multiset(c.spawned);
    assert Held(Start(s, c)) == HeldIn(s) + multiset(c.spawned);
  }

  lemma TickKeepsPlaces(g: GameState, mapId: string, dt: real, c: Choice)
    requires GoodLoot(g) && mapId in g.sessions
    requires IsChoice(g.sessions[mapId], g.counters.loot, dt, c)
    ensures InRange(c.events, |c.moved|)
    ensures GoodLoot(AfterTick(g, mapId, c))
  {
    TickHolds(g, mapId, dt, c);
    TickGrows(g, mapId, dt, c);
    OneSessionGrows(g, AfterTick(g, mapId, c), mapId, multiset(c.spawned), |c.spawned|);
  }

  /** Only one session's holding has grown, by loot with the next `n` ids. */
  ghost predicate Grows(g: GameState, g': GameState, mapId: string, spawned: multiset<Loot>, n: nat) {
    && mapId in g.sessions && g'.sessions.Keys == g.sessions.Keys
    && (forall m :: m in g.sessions && m != mapId ==> g'.sessions[m] == g.sessions[m])
    && OnePlaceEach(spawned)
    && (forall l :: l in spawned ==> g.counters.loot <= l.id < g.counters.loot + n)
    && g'.counters.loot == g.counters.loot + n
    && HeldIn(g'.sessions[mapId]) <= HeldIn(g.sessions[mapId]) + spawned
  }

  lemma TickGrows(g: GameState, mapId: string, dt: real, c: Choice)
    requires mapId in g.sessions && InRange(c.events, |c.moved|)
    requires IsChoice(g.sessions[mapId], g.counters.loot, dt, c)
    requires HeldIn(AfterTick(g, mapId, c).sessions[mapId]) <= HeldIn(g.sessions[mapId]) + multiset(c.spawned)
    ensures Grows(g, AfterTick(g, mapId, c), mapId, multiset(c.spawned), |c.spawned|)
  {
    SpawnHasFreshIds(c.spawned, g.counters.loot);
  }

  lemma OneSessionGrows(g: GameState, g': GameState, mapId: string, spawned: multiset<Loot>, n: nat)
    requires GoodLoot(g) && Grows(g, g', mapId, spawned, n)
    ensures GoodLoot(g')
  {
    var (s, s') := (g.sessions[mapId], g'.sessions[mapId]);
    assert GoodHolding(s, g.counters.loot);
    HoldingGrows(HeldIn(s), spawned, HeldIn(s'), g.counters.loot, n);
    forall m | m in g.sessions && m != mapId ensures Apart(g'.sessions[m], s') && Apart(s', g'.sessions[m]) {
      assert Apart(g.sessions[m], s) && GoodHolding(g.sessions[m], g.counters.loot);
      StillApart(HeldIn(g.sessions[m]), HeldIn(s), spawned, HeldIn(s'), g.counters.loot);
    }
    forall m | m in g'.sessions ensures GoodHolding(g'.sessions[m], g'.counters.loot) {
      if m != mapId { assert GoodHolding(g.sessions[m], g.counters.loot); }
    }
    forall m1, m2 | m1 in g'.sessions && m2 in g'.sessions && m1 != m2
      ensures Apart(g'.sessions[m1], g'.sessions[m2])
    {
      if m1 != mapId && m2 != mapId { assert Apart(g.sessions[m1], g.sessions[m2]); }
    }
  }

  lemma HoldingGrows(held: multiset<Loot>, spawned: multiset<Loot>, held': multiset<Loot>, next: nat, n: nat)
    requires OnePlaceEach(held) && IdsBelow(held, next)
    requires OnePlaceEach(spawned) && forall l :: l in spawned ==> next <= l.id < next + n
    requires held' <= held + spawned
    ensures OnePlaceEach(held') && IdsBelow(held', next + n)
  {
    JoinedPlaces(held, spawned);
    SubsetKeepsPlaces(held + spawned, held');
    forall l | l in held' ensures l.id < next + n { assert l in held + spawned; }
  }

  lemma StillApart(
    other: multiset<Loot>, held: multiset<Loot>, spawned: multiset<Loot>, held': multiset<Loot>, next: nat)
    requires NoCommonId(other, held) && IdsBelow(other, next)
    requires forall l :: l in spawned ==> next <= l.id
    requires held' <= held + spawned
    ensures NoCommonId(other, held') && NoCommonId(held', other)
  {
    forall l1, l2 | l1 in other && l2 in held' ensures l1.id != l2.id {
      assert l2 in held + spawned;
    }
  }

  lemma {:induction false} BagInBags(dogs: seq<DogState>, i: nat, l: Loot)
    requires i < |dogs| && l in dogs[i].bag
    ensures l in Bags(dogs)
  {
    if i < |dogs| - 1 { BagInBags(dogs[..|dogs| - 1], i, l); }
  }

  lemma {:induction false} NothingHeld(dogs: seq<DogState>)
    requires forall i :: 0 <= i < |dogs| ==> dogs[i].bag == []
    ensures Bags(dogs) == multiset{}
  {
    if dogs == [] {
    } else {
      NothingHeld(dogs[..|dogs| - 1]);
    }
  }

  lemma RestartedHolds(g: GameState, uuids: nat -> string, joinTimes: nat -> int)
    ensures forall m :: m in g.sessions ==>
              HeldIn(Restarted(g, uuids, joinTimes).sessions[m]) == HeldIn(g.sessions[m])
  {
    forall m | m in g.sessions
      ensures HeldIn(Restarted(g, uuids, joinTimes).sessions[m]) == HeldIn(g.sessions[m])
    {
      RestoredDogs(g.sessions[m], uuids, joinTimes);
      EqualBags(RestoredSession(g.sessions[m], uuids, joinTimes).dogs, g.sessions[m].dogs);
    }
  }

  lemma NoLootHeld(g: GameState)
    requires !SomeLoot(g)
    ensures forall m :: m in g.sessions ==> HeldIn(g.sessions[m]) == multiset{}
  {
    forall m | m in g.sessions ensures HeldIn(g.sessions[m]) == multiset{} {
      assert !HasLoot(g.sessions[m]);
      NothingHeld(g.sessions[m].dogs);
    }
  }

  lemma RestartKeepsPlaces(g: GameState, uuids: nat -> string, joinTimes: nat -> int)
    requires GoodLoot(g)
    ensures GoodLoot(Restarted(g, uuids, joinTimes))
  {
    RestartedHolds(g, uuids, joinTimes);
    if SomeLoot(g) {
      SameLootKeepsPlaces(g, Restarted(g, uuids, joinTimes));
    } else {
      NoLootHeld(g);
      NoLootIsGood(Restarted(g, uuids, joinTimes));
    }
  }

  lemma NoLootIsGood(g: GameState)
    requires forall m :: m in g.sessions ==> HeldIn(g.sessions[m]) == multiset{}
    ensures GoodLoot(g)
  {
    forall m | m in g.sessions ensures GoodHolding(g.sessions[m], g.counters.loot) {
      assert HeldIn(g.sessions[m]) == multiset{};
    }
    forall m1, m2 | m1 in g.sessions && m2 in g.sessions && m1 != m2 ensures Apart(g.sessions[m1], g.sessions[m2]) {
      assert HeldIn(g.sessions[m1]) == multiset{};
    }
  }

  /** Where a loot can be found: on the ground or in the bag of one dog. */
  datatype Place = Ground(index: nat) | Bag(dog: nat, index: nat)

  predicate IsAt(s: SessionState, l: Loot, p: Place) {
    match p
    case Ground(i) => i < |s.loot| && s.loot[i] == l
    case Bag(d, i) => d < |s.dogs| && i < |s.dogs[d].bag| && s.dogs[d].bag[i] == l
  }

  /** The discipline in terms of places: no loot, and no loot id, is in two of them. */
  lemma LootIsInOnePlace(g: GameState, m1: string, l1: Loot, p1: Place, m2: string, l2: Loot, p2: Place)
    requires GoodLoot(g) && m1 in g.sessions && m2 in g.sessions
    requires IsAt(g.sessions[m1], l1, p1) && IsAt(g.sessions[m2], l2, p2) && l1.id == l2.id
    ensures m1 == m2 && p1 == p2 && l1 == l2
    ensures l1.id < g.counters.loot
  {
    PlaceIsHeld(g.sessions[m1], l1, p1);
    PlaceIsHeld(g.sessions[m2], l2, p2);
    if p1 != p2 {
      TwoPlacesCountTwice(g.sessions[m1], l1, p1, p2);
      assert false;
    }
  }

  lemma PlaceIsHeld(s: SessionState, l: Loot, p: Place)
    requires IsAt(s, l, p)
    ensures l in HeldIn(s)
  {
    if p.Bag? { BagInBags(s.dogs, p.dog, l); }
  }

  lemma TwoPlacesCountTwice(s: SessionState, l: Loot, p: Place, q: Place)
    requires IsAt(s, l, p) && IsAt(s, l, q) && p != q
    ensures HeldIn(s)[l] >= 2
  {
    match (p, q)
    case (Ground(i), Ground(j)) => RepeatedElement(s.loot, i, j);
    case (Ground(i), Bag(d, j)) => BagInBags(s.dogs, d, l);
    case (Bag(d, i), Ground(j)) => BagInBags(s.dogs, d, l);
    case (Bag(d, i), Bag(e, j)) =>
      if d == e {
        RepeatedElement(s.dogs[d].bag, i, j);
        BagCountInBags(s.dogs, d, l);
      } else {
        TwoBags(s.dogs, d, e, l);
      }
  }

  lemma RepeatedElement<T>(s: seq<T>, i: nat, j: nat)
    requires i < |s| && j < |s| && i != j && s[i] == s[j]
    ensures multiset(s)[s[i]] >= 2
  {
    var k := if i < j then j else i;
    var (before, after) := (s[..k], s[k..]);
    assert s == before + after;
    assert before[i + j - k] in multiset(before) && after[0] in multiset(after);
  }

  lemma {:induction false} BagCountInBags(dogs: seq<DogState>, i: nat, l: Loot)
    requires i < |dogs|
    ensures Bags(dogs)[l] >= multiset(dogs[i].bag)[l]
  {
    if i < |dogs| - 1 { BagCountInBags(dogs[..|dogs| - 1], i, l); }
  }

  lemma {:induction false} TwoBags(dogs: seq<DogState>, d: nat, e: nat, l: Loot)
    requires d < |dogs| && e < |dogs| && d != e && l in dogs[d].bag && l in dogs[e].bag
    ensures Bags(dogs)[l] >= 2
  {
    var n := |dogs| - 1;
    if d == n {
      BagInBags(dogs[..n], e, l);
    } else if e == n {
      BagInBags(dogs[..n], d, l);
    } else {
      TwoBags(dogs[..n], d, e, l);
    }
  }
}
