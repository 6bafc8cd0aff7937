/**
 * Inactivity. At every tick boundary a dog's inactivity is the time since it last joined, acted or
 * moved, so a dog is retired by exactly the first tick that ends with that time at the threshold.
 * Game time is the test-mode clock, which a tick advances before it updates the game.
 */
module Clocks {
  import opened Entities
  import opened GameStates
  import opened Geometry
  import opened Registry
  import opened Replay

  /** The dog's inactivity at game time `now` is the time since it was last active. */
  predicate OnTime(d: DogState, h: History, now: int) {
    && d.id in h.lastActive && h.lastActive[d.id] <= now
    && d.inactivity * MS_IN_SECONDS == (now - h.lastActive[d.id]) as real
    && (d.id !in h.restored ==> d.joinTime <= h.lastActive[d.id])
  }

  ghost predicate AllOnTime(s: SessionState, h: History, now: int) {
    forall d :: d in s.dogs ==> OnTime(d, h, now)
  }

  /** No dog at or over the threshold is left, except one that has just become active. */
  ghost predicate NoneOverdue(s: SessionState, limit: real) {
    forall d :: d in s.dogs ==> d.inactivity < limit || d.inactivity == 0.0
  }

  ghost predicate GoodClock(g: GameState) {
    forall m :: m in g.sessions ==>
      AllOnTime(g.sessions[m], g.history, g.clock) && NoneOverdue(g.sessions[m], g.retirementTime)
  }

  /** In the middle of a tick of `dt` milliseconds: the sessions in `done` have had their part. */
  ghost predicate MidTick(g: GameState, done: set<string>, dt: int) {
    forall m :: m in g.sessions ==>
      && AllOnTime(g.sessions[m], g.history, if m in done then g.clock else g.clock - dt)
      && NoneOverdue(g.sessions[m], g.retirementTime)
  }

  lemma JoinKeepsClock(g: GameState, name: string, mapId: string, spawn: Point, token: string, uuid: string)
    requires GoodIds(g) && GoodClock(g) && mapId in g.maps
    ensures GoodClock(Joined(g, name, mapId, spawn, token, uuid))
  {
    var g' := Joined(g, name, mapId, spawn, token, uuid);
    forall m | m in g'.sessions
      ensures AllOnTime(g'.sessions[m], g'.history, g'.clock) && NoneOverdue(g'.sessions[m], g'.retirementTime)
    {
      forall d | d in g'.sessions[m].dogs
        ensures OnTime(d, g'.history, g'.clock) && (d.inactivity < g'.retirementTime || d.inactivity == 0.0)
      {
        if m in g.sessions && d in g.sessions[m].dogs {
          assert OnTime(d, g.history, g.clock) && d.id in DogsIn(g.sessions[m]);
        } else {
          assert d == NewDog(g.counters.dogs, name, spawn, uuid, g.clock);
        }
      }
    }
  }

  lemma ActKeepsClock(g: GameState, mapId: string, j: nat, move: string)
    requires GoodIds(g) && GoodClock(g) && mapId in g.sessions && j < |g.sessions[mapId].dogs|
    ensures GoodClock(Acted(g, mapId, j, move))
  {
    var g' := Acted(g, mapId, j, move);
    var acting := g.sessions[mapId].dogs[j];
    assert acting in g.sessions[mapId].dogs && acting.id in DogsIn(g.sessions[mapId]);
    forall m | m in g'.sessions
      ensures AllOnTime(g'.sessions[m], g'.history, g'.clock) && NoneOverdue(g'.sessions[m], g'.retirementTime)
    {
      var dogs := g'.sessions[m].dogs;
      forall d | d in dogs
        ensures OnTime(d, g'.history, g'.clock) && (d.inactivity < g'.retirementTime || d.inactivity == 0.0)
      {
        var i :| 0 <= i < |dogs| && dogs[i] == d;
        var before := g.sessions[m].dogs[i];
        assert before in g.sessions[m].dogs && before.id in DogsIn(g.sessions[m]);
        assert OnTime(before, g.history, g.clock);
        if m == mapId && i != j {
          assert before.id != acting.id;
        }
      }
    }
  }

  // ---- a session's part of a tick ----

  predicate MovedActively(moved: seq<DogState>, id: nat) {
    exists i :: 0 <= i < |moved| && moved[i].id == id && moved[i].active
  }

  /** Moving keeps a dog on time, counted to the end of the tick. */
  lemma MoveKeepsTime(s: SessionState, c: Choice, h: History, h': History, now: int, dt: int, i: nat)
    requires DistinctDogs(s.dogs) && AllOnTime(s, h, now - dt) && dt >= 0 && i < |s.dogs|
    requires DogsMoved(s.gameMap.roads, dt as real / MS_IN_SECONDS, s.dogs, c.moved)
    requires h'.lastActive == LastActiveAfter(h.lastActive, c.moved, now) && h'.restored == h.restored
    ensures OnTime(c.moved[i], h', now)
  {
    var (d, d') := (s.dogs[i], c.moved[i]);
    assert d in s.dogs && OnTime(d, h, now - dt);
    assert DogMoved(s.gameMap.roads, dt as real / MS_IN_SECONDS, d, d');
    if MovedActively(c.moved, d.id) {
      var k :| 0 <= k < |c.moved| && c.moved[k].id == d.id && c.moved[k].active;
      assert DogMoved(s.gameMap.roads, dt as real / MS_IN_SECONDS, s.dogs[k], c.moved[k]);
      assert k == i;
    }
  }

  /** The inactivity after a session's part of a tick, dog by dog. */
  lemma HarvestKeepsTime(g: GameState, mapId: string, dt: int, c: Choice, h': History, i: nat)
    requires GoodIds(g) && mapId in g.sessions && i < |g.sessions[mapId].dogs| && dt >= 0
    requires AllOnTime(g.sessions[mapId], g.history, g.clock - dt)
    requires IsChoice(g.sessions[mapId], g.counters.loot, dt as real / MS_IN_SECONDS, c)
    requires h'.lastActive == LastActiveAfter(g.history.lastActive, c.moved, g.clock)
    requires h'.restored == g.history.restored
    ensures InRange(c.events, |c.moved|) && |c.moved| == |g.sessions[mapId].dogs|
    ensures OnTime(Harvested(g.sessions[mapId], c).dogs[i], h', g.clock)
    ensures Harvested(g.sessions[mapId], c).dogs[i].id == g.sessions[mapId].dogs[i].id
  {
    var s := g.sessions[mapId];
    HarvestKeepsIds(s, g.counters.loot, dt as real / MS_IN_SECONDS, c);
    MoveKeepsTime(s, c, g.history, h', g.clock, dt, i);
    ReplayChangesOnlyHauls(Start(s, c), c.events, s.gameMap.bagCapacity);
    assert SameButHaul(c.moved[i], Harvested(s, c).dogs[i]);
  }

  /** A session's part of a tick counts only its own dogs as active. */
  lemma OnlyOwnDogsMove(
    s: SessionState, nextLoot: nat, dt: real, c: Choice, lastActive: map<nat, int>, clock: int, id: nat)
    requires IsChoice(s, nextLoot, dt, c) && id !in DogsIn(s) && id in lastActive
    ensures LastActiveAfter(lastActive, c.moved, clock)[id] == lastActive[id]
  {
    forall i | 0 <= i < |c.moved| ensures c.moved[i].id in DogsIn(s) {
      assert DogMoved(s.gameMap.roads, dt, s.dogs[i], c.moved[i]);
      assert s.dogs[i] in s.dogs;
    }
  }

  /** Dogs of other sessions are not affected. */
  lemma OthersKeepTime(g: GameState, mapId: string, dt: int, c: Choice, h': History, m: string, now: int)
    requires GoodIds(g) && mapId in g.sessions && m in g.sessions && m != mapId
    requires IsChoice(g.sessions[mapId], g.counters.loot, dt as real / MS_IN_SECONDS, c)
    requires h'.lastActive == LastActiveAfter(g.history.lastActive, c.moved, g.clock)
    requires h'.restored == g.history.restored
    requires AllOnTime(g.sessions[m], g.history, now)
    ensures AllOnTime(g.sessions[m], h', now)
  {
    forall d | d in g.sessions[m].dogs ensures OnTime(d, h', now) {
      assert OnTime(d, g.history, now) && d.id in DogsIn(g.sessions[m]);
      OnlyOwnDogsMove(g.sessions[mapId], g.counters.loot, dt as real / MS_IN_SECONDS, c,
                      g.history.lastActive, g.clock, d.id);
    }
  }

  lemma TickKeepsClock(g: GameState, mapId: string, done: set<string>, dt: int, c: Choice)
    requires GoodIds(g) && MidTick(g, done, dt) && mapId in g.sessions && mapId !in done && dt >= 0
    requires IsChoice(g.sessions[mapId], g.counters.loot, dt as real / MS_IN_SECONDS, c)
    ensures InRange(c.events, |c.moved|)
    ensures MidTick(AfterTick(g, mapId, c), done + {mapId}, dt)
  {
    EventsInRange(g.sessions[mapId], g.counters.loot, dt as real / MS_IN_SECONDS, c);
    var g' := AfterTick(g, mapId, c);
    var dogs := Harvested(g.sessions[mapId], c).dogs;
    forall m | m in g'.sessions
      ensures AllOnTime(g'.sessions[m], g'.history, if m in done + {mapId} then g.clock else g.clock - dt)
      ensures NoneOverdue(g'.sessions[m], g.retirementTime)
    {
      if m == mapId {
        forall d | d in g'.sessions[m].dogs ensures OnTime(d, g'.history, g.clock) {
          assert d in dogs;
          var i :| 0 <= i < |dogs| && dogs[i] == d;
          HarvestKeepsTime(g, mapId, dt, c, g'.history, i);
        }
      } else {
        OthersKeepTime(g, mapId, dt, c, g'.history, m, if m in done then g.clock else g.clock - dt);
      }
    }
  }

  // ---- retirement happens on time ----

  /** Of the dogs with ids `ids`, exactly those idle for less than the limit are still in session `m`. */
  ghost predicate RetiredOnTime(g: GameState, m: string, ids: set<nat>) {
    && m in g.sessions
    && forall id :: id in ids ==>
         && id in g.history.lastActive
         && (id in DogsIn(g.sessions[m])
             <==> (g.clock - g.history.lastActive[id]) as real < g.retirementTime * MS_IN_SECONDS)
  }

  lemma TickRetiresOnTime(g: GameState, mapId: string, dt: int, c: Choice)
    requires GoodIds(g) && mapId in g.sessions && dt >= 0
    requires AllOnTime(g.sessions[mapId], g.history, g.clock - dt)
    requires IsChoice(g.sessions[mapId], g.counters.loot, dt as real / MS_IN_SECONDS, c)
    ensures InRange(c.events, |c.moved|)
    ensures RetiredOnTime(AfterTick(g, mapId, c), mapId, DogsIn(g.sessions[mapId]))
  {
    var s := g.sessions[mapId];
    EventsInRange(s, g.counters.loot, dt as real / MS_IN_SECONDS, c);
    HarvestKeepsIds(s, g.counters.loot, dt as real / MS_IN_SECONDS, c);
    var g' := AfterTick(g, mapId, c);
    var dogs := Harvested(s, c).dogs;
    SameIdsSameSet(s.dogs, dogs);
    forall id | id in DogsIn(s)
      ensures id in g'.history.lastActive
      ensures id in DogsIn(g'.sessions[mapId])
         <==> (g.clock - g'.history.lastActive[id]) as real < g.retirementTime * MS_IN_SECONDS
    {
      var i :| 0 <= i < |s.dogs| && s.dogs[i].id == id;
      HarvestKeepsTime(g, mapId, dt, c, g'.history, i);
      StaysById(dogs, g.retirementTime, i);
    }
  }

  lemma StaysById(dogs: seq<DogState>, limit: real, i: nat)
    requires DistinctDogs(dogs) && i < |dogs|
    ensures dogs[i].id in IdsOf(Staying(dogs, limit)) <==> dogs[i].inactivity < limit
  {
    assert dogs[i] in dogs;
    if dogs[i].id in IdsOf(Staying(dogs, limit)) {
      var d :| d in Staying(dogs, limit) && d.id == dogs[i].id;
      var k :| 0 <= k < |dogs| && dogs[k] == d;
      assert k == i;
    }
  }

  /** A later session's part of the tick changes nothing about it. */
  lemma TickKeepsRetirement(g: GameState, mapId: string, dt: real, c: Choice, m: string, ids: set<nat>)
    requires mapId in g.sessions && m != mapId && RetiredOnTime(g, m, ids) && ids !! DogsIn(g.sessions[mapId])
    requires IsChoice(g.sessions[mapId], g.counters.loot, dt, c)
    ensures InRange(c.events, |c.moved|)
    ensures RetiredOnTime(AfterTick(g, mapId, c), m, ids)
  {
    EventsInRange(g.sessions[mapId], g.counters.loot, dt, c);
    forall id | id in ids
      ensures AfterTick(g, mapId, c).history.lastActive[id] == g.history.lastActive[id]
    {
      OnlyOwnDogsMove(g.sessions[mapId], g.counters.loot, dt, c, g.history.lastActive, g.clock, id);
    }
  }

  lemma {:induction false} RecordsInOrder(dogs: seq<DogState>, clock: int)
    ensures |RecordsOf(dogs, clock)| == |dogs|
    ensures forall k :: 0 <= k < |dogs| ==> RecordsOf(dogs, clock)[k] == RecordOf(dogs[k], clock)
  {
    if dogs == [] {
    } else {
      RecordsInOrder(dogs[..|dogs| - 1], clock);
    }
  }

  /**
   * A session's part of a tick writes one record per retiring dog, in the dogs' order, and the
   * record of a dog that was not restored shows a play time of at least the retirement time.
   */
  lemma TickRecords(g: GameState, mapId: string, dt: int, c: Choice)
    requires GoodIds(g) && mapId in g.sessions && dt >= 0
    requires AllOnTime(g.sessions[mapId], g.history, g.clock - dt)
    requires IsChoice(g.sessions[mapId], g.counters.loot, dt as real / MS_IN_SECONDS, c)
    ensures InRange(c.events, |c.moved|)
    ensures var gone := Retiring(Harvested(g.sessions[mapId], c).dogs, g.retirementTime);
      && AfterTick(g, mapId, c).records[..|g.records|] == g.records
      && |AfterTick(g, mapId, c).records| == |g.records| + |gone|
      && forall k :: 0 <= k < |gone| ==>
           var r := AfterTick(g, mapId, c).records[|g.records| + k];
           && r == RecordOf(gone[k], g.clock)
           && (gone[k].id !in g.history.restored && g.clock - gone[k].joinTime < TWO_TO_64
               ==> r.playTime as real >= g.retirementTime * MS_IN_SECONDS)
  {
    EventsInRange(g.sessions[mapId], g.counters.loot, dt as real / MS_IN_SECONDS, c);
    var dogs := Harvested(g.sessions[mapId], c).dogs;
    var gone := Retiring(dogs, g.retirementTime);
    RecordsInOrder(gone, g.clock);
    forall k | 0 <= k < |gone| && gone[k].id !in g.history.restored && g.clock - gone[k].joinTime < TWO_TO_64
      ensures RecordOf(gone[k], g.clock).playTime as real >= g.retirementTime * MS_IN_SECONDS
    {
      assert gone[k] in dogs;
      var i :| 0 <= i < |dogs| && dogs[i] == gone[k];
      RetiringPlayTime(g, mapId, dt, c, i);
    }
  }

  lemma RetiringPlayTime(g: GameState, mapId: string, dt: int, c: Choice, i: nat)
    requires GoodIds(g) && mapId in g.sessions && i < |g.sessions[mapId].dogs| && dt >= 0
    requires AllOnTime(g.sessions[mapId], g.history, g.clock - dt)
    requires IsChoice(g.sessions[mapId], g.counters.loot, dt as real / MS_IN_SECONDS, c)
    ensures InRange(c.events, |c.moved|) && |c.moved| == |g.sessions[mapId].dogs|
    ensures var d := Harvested(g.sessions[mapId], c).dogs[i];
      (d.inactivity >= g.retirementTime && d.id !in g.history.restored && g.clock - d.joinTime < TWO_TO_64)
        ==> RecordOf(d, g.clock).playTime as real >= g.retirementTime * MS_IN_SECONDS
  {
    var h := g.history.(lastActive := LastActiveAfter(g.history.lastActive, c.moved, g.clock));
    HarvestKeepsTime(g, mapId, dt, c, h, i);
    var d := Harvested(g.sessions[mapId], c).dogs[i];
    if d.inactivity >= g.retirementTime && d.id !in g.history.restored && g.clock - d.joinTime < TWO_TO_64 {
      PlayTimeCoversRetirement(d, h, g.clock, g.retirementTime);
    }
  }

  lemma PlayTimeCoversRetirement(d: DogState, h: History, clock: int, limit: real)
    requires OnTime(d, h, clock) && d.id !in h.restored
    requires d.inactivity >= limit && clock - d.joinTime < TWO_TO_64
    ensures RecordOf(d, clock).playTime as real >= limit * MS_IN_SECONDS
  {
    assert RecordOf(d, clock).playTime == clock - d.joinTime;
  }

  lemma RestartKeepsClock(g: GameState, uuids: nat -> string, joinTimes: nat -> int)
    requires GoodClock(g)
    ensures GoodClock(Restarted(g, uuids, joinTimes))
  {
    var g' := Restarted(g, uuids, joinTimes);
    forall m | m in g'.sessions
      ensures AllOnTime(g'.sessions[m], g'.history, 0) && NoneOverdue(g'.sessions[m], g'.retirementTime)
    {
      RestoredDogs(g.sessions[m], uuids, joinTimes);
      var (s, s') := (g.sessions[m], RestoredSession(g.sessions[m], uuids, joinTimes));
      forall d | d in s'.dogs ensures OnTime(d, g'.history, 0) && d.inactivity == 0.0 {
        var i :| 0 <= i < |s'.dogs| && s'.dogs[i] == d;
        assert s.dogs[i] in s.dogs && s.dogs[i].id in DogsIn(s);
      }
    }
  }
}
