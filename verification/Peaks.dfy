/**
 * How much loot can lie in a session, and which loot can ever be picked up. Both are bounded by the
 * largest number of dogs that the session has had: the generator never fills the ground beyond it,
 * and, because collision events carry positions where loot ids are expected, a loot whose id is not
 * below that number can never be taken.
 */
module Peaks {
  import opened Collision
  import opened Entities
  import opened GameStates
  import opened Geometry
  import opened Replay

  ghost predicate BagIdsBelow(dogs: seq<DogState>, n: nat) {
    forall d, l :: d in dogs && l in d.bag ==> l.id < n
  }

  ghost predicate SessionWithinPeak(s: SessionState, peak: nat) {
    |s.dogs| <= peak && |s.loot| <= peak && BagIdsBelow(s.dogs, peak)
  }

  ghost predicate WithinPeaks(g: GameState) {
    forall m :: m in g.sessions ==> m in g.history.peaks && SessionWithinPeak(g.sessions[m], g.history.peaks[m])
  }

  lemma JoinKeepsPeaks(g: GameState, name: string, mapId: string, spawn: Point, token: string, uuid: string)
    requires WithinPeaks(g) && mapId in g.maps
    ensures WithinPeaks(Joined(g, name, mapId, spawn, token, uuid))
  {
    var g' := Joined(g, name, mapId, spawn, token, uuid);
    var s' := g'.sessions[mapId];
    assert s'.dogs[..|s'.dogs| - 1] == SessionOf(g, mapId).dogs;
    assert BagIdsBelow(SessionOf(g, mapId).dogs, PeakOf(g, mapId));
    forall d, l | d in s'.dogs && l in d.bag ensures l.id < g'.history.peaks[mapId] {
      assert d in SessionOf(g, mapId).dogs;
    }
  }

  lemma ActKeepsPeaks(g: GameState, mapId: string, j: nat, move: string)
    requires WithinPeaks(g) && mapId in g.sessions && j < |g.sessions[mapId].dogs|
    ensures WithinPeaks(Acted(g, mapId, j, move))
  {
    var s := g.sessions[mapId];
    var s' := Acted(g, mapId, j, move).sessions[mapId];
    forall d, l | d in s'.dogs && l in d.bag ensures l.id < g.history.peaks[mapId] {
      var i :| 0 <= i < |s'.dogs| && s'.dogs[i] == d;
      assert s.dogs[i] in s.dogs && d.bag == s.dogs[i].bag;
    }
  }

  lemma {:induction false} FewerStay(dogs: seq<DogState>, limit: real)
    ensures |Staying(dogs, limit)| <= |dogs|
  {
    if dogs == [] {
    } else {
      FewerStay(dogs[..|dogs| - 1], limit);
    }
  }

  lemma {:induction false} GroundOnlyShrinks(f: Field, events: seq<Event>, capacity: nat)
    requires InRange(events, |f.dogs|)
    ensures |Replayed(f, events, capacity).ground| <= |f.ground|
  {
    if events == [] {
    } else {
      GroundOnlyShrinks(f, events[..|events| - 1], capacity);
    }
  }

  lemma HarvestStaysWithinPeak(s: SessionState, peak: nat, nextLoot: nat, dt: real, c: Choice)
    requires SessionWithinPeak(s, peak) && IsChoice(s, nextLoot, dt, c)
    ensures InRange(c.events, |c.moved|)
    ensures |Harvested(s, c).ground| <= peak && BagIdsBelow(Harvested(s, c).dogs, peak)
    ensures forall l :: l in s.loot + c.spawned && l.id >= peak ==> l in Harvested(s, c).ground
  {
    EventsInRange(s, nextLoot, dt, c);
    var f := Start(s, c);
    GroundOnlyShrinks(f, c.events, s.gameMap.bagCapacity);
    HighIdsAreOutOfReach(f, c.events, s.gameMap.bagCapacity, |f.ground|);
    var dogs := Harvested(s, c).dogs;
    forall d, l | d in dogs && l in d.bag ensures l.id < peak {
      var i :| 0 <= i < |dogs| && dogs[i] == d;
      assert DogMoved(s.gameMap.roads, dt, s.dogs[i], c.moved[i]);
      assert c.moved[i].bag == s.dogs[i].bag && s.dogs[i] in s.dogs;
    }
  }

  lemma TickKeepsPeaks(g: GameState, mapId: string, dt: real, c: Choice)
    requires WithinPeaks(g) && mapId in g.sessions
    requires IsChoice(g.sessions[mapId], g.counters.loot, dt, c)
    ensures InRange(c.events, |c.moved|)
    ensures WithinPeaks(AfterTick(g, mapId, c))
  {
    HarvestStaysWithinPeak(g.sessions[mapId], g.history.peaks[mapId], g.counters.loot, dt, c);
    FewerStay(Harvested(g.sessions[mapId], c).dogs, g.retirementTime);
  }

  /** Loot whose id is not below the session's peak survives every tick, whoever runs over it. */
  lemma HighLootIsStranded(g: GameState, mapId: string, dt: real, c: Choice, l: Loot)
    requires WithinPeaks(g) && mapId in g.sessions
    requires IsChoice(g.sessions[mapId], g.counters.loot, dt, c)
    requires l in g.sessions[mapId].loot && l.id >= g.history.peaks[mapId]
    ensures InRange(c.events, |c.moved|)
    ensures l in AfterTick(g, mapId, c).sessions[mapId].loot
  {
    HarvestStaysWithinPeak(g.sessions[mapId], g.history.peaks[mapId], g.counters.loot, dt, c);
  }

  lemma RestartKeepsPeaks(g: GameState, uuids: nat -> string, joinTimes: nat -> int)
    requires WithinPeaks(g)
    ensures WithinPeaks(Restarted(g, uuids, joinTimes))
  {
    var g' := Restarted(g, uuids, joinTimes);
    forall m | m in g'.sessions ensures SessionWithinPeak(g'.sessions[m], g.history.peaks[m]) {
      var (s, s') := (g.sessions[m], g'.sessions[m]);
      forall d, l | d in s'.dogs && l in d.bag ensures l.id < g.history.peaks[m] {
        var i :| 0 <= i < |s'.dogs| && s'.dogs[i] == d;
        RestoredDogs(s, uuids, joinTimes);
        assert s.dogs[i] in s.dogs && d.bag == s.dogs[i].bag;
      }
    }
  }
}
