/**
 * The value ledger. In every reachable state the value on the ground, in bags, in scores, in the
 * records of retired dogs and in the bags they took away adds up to the value ever generated, up to
 * multiples of 2^32 lost when a 32-bit score wraps around.
 */
module Bookkeeping {
  import opened Entities
  import opened GameStates
  import opened Geometry
  import opened Replay

  function SessionWorth(s: SessionState): nat { BagValue(s.loot) + TotalWorth(s.dogs) }

  ghost function SumWorth(sessions: map<string, SessionState>): nat
    decreases |sessions|
  {
    if sessions == map[] then 0
    else
      var m :| m in sessions;
      SessionWorth(sessions[m]) + SumWorth(sessions - {m})
  }

  /** The sum does not depend on the order in which it is taken. */
  lemma {:induction false} SumWorthSplit(sessions: map<string, SessionState>, m: string)
    requires m in sessions
    ensures SumWorth(sessions) == SessionWorth(sessions[m]) + SumWorth(sessions - {m})
    decreases |sessions|
  {
    var k :| k in sessions && SumWorth(sessions) == SessionWorth(sessions[k]) + SumWorth(sessions - {k});
    if k != m {
      SumWorthSplit(sessions - {k}, m);
      SumWorthSplit(sessions - {m}, k);
      assert sessions - {k} - {m} == sessions - {m} - {k};
    }
  }

  lemma SumWorthUpdate(sessions: map<string, SessionState>, m: string, s: SessionState)
    ensures SumWorth(sessions[m := s]) + (if m in sessions then SessionWorth(sessions[m]) else 0)
         == SumWorth(sessions) + SessionWorth(s)
  {
    SumWorthSplit(sessions[m := s], m);
    if m in sessions {
      SumWorthSplit(sessions, m);
      assert sessions[m := s] - {m} == sessions - {m};
    } else {
      assert sessions[m := s] - {m} == sessions;
    }
  }

  lemma {:induction false} SumWorthOfEqualSessions(a: map<string, SessionState>, b: map<string, SessionState>)
    requires a.Keys == b.Keys && forall m :: m in a ==> SessionWorth(a[m]) == SessionWorth(b[m])
    ensures SumWorth(a) == SumWorth(b)
    decreases |a|
  {
    if a == map[] {
      assert b == map[];
    } else {
      var m :| m in a && SumWorth(a) == SessionWorth(a[m]) + SumWorth(a - {m});
      SumWorthSplit(b, m);
      SumWorthOfEqualSessions(a - {m}, b - {m});
    }
  }

  function RecordedWorth(records: seq<Record>): nat {
    if records == [] then 0 else RecordedWorth(records[..|records| - 1]) + records[|records| - 1].score
  }

  lemma {:induction false} RecordedWorthOfConcatenation(a: seq<Record>, b: seq<Record>)
    ensures RecordedWorth(a + b) == RecordedWorth(a) + RecordedWorth(b)
  {
    if b == [] {
      assert a + b == a;
    } else {
      RecordedWorthOfConcatenation(a, b[..|b| - 1]);
      FrontOfConcatenation(a, b);
    }
  }

  /** A retiring dog's worth is split between its record and the value it takes away in its bag. */
  lemma {:induction false} RecordsAccountForDogs(dogs: seq<DogState>, clock: int)
    ensures RecordedWorth(RecordsOf(dogs, clock)) + CarriedValue(dogs) == TotalWorth(dogs)
  {
    if dogs == [] {
    } else {
      var (front, last) := (dogs[..|dogs| - 1], dogs[|dogs| - 1]);
      RecordsAccountForDogs(front, clock);
      FrontOfConcatenation(RecordsOf(front, clock), [RecordOf(last, clock)]);
      assert RecordsOf(front, clock) + [] == RecordsOf(front, clock);
    }
  }

  lemma {:induction false} RetirementSplitsWorth(dogs: seq<DogState>, limit: real)
    ensures TotalWorth(Staying(dogs, limit)) + TotalWorth(Retiring(dogs, limit)) == TotalWorth(dogs)
  {
    if dogs == [] {
    } else {
      var (front, last) := (dogs[..|dogs| - 1], dogs[|dogs| - 1]);
      RetirementSplitsWorth(front, limit);
      WorthWithLast(Staying(front, limit), last);
      WorthWithLast(Retiring(front, limit), last);
    }
  }

  lemma WorthWithLast(dogs: seq<DogState>, d: DogState)
    ensures TotalWorth(dogs + [d]) == TotalWorth(dogs) + Worth(d)
  {
    assert (dogs + [d])[..|dogs|] == dogs;
  }

  lemma {:induction false} EqualDogsEqualWorth(a: seq<DogState>, b: seq<DogState>)
    requires |a| == |b|
    requires forall i :: 0 <= i < |a| ==> a[i].bag == b[i].bag && a[i].score == b[i].score
    ensures TotalWorth(a) == TotalWorth(b)
  {
    if a == [] {
    } else {
      EqualDogsEqualWorth(a[..|a| - 1], b[..|b| - 1]);
    }
  }

  function Total(g: GameState): nat {
    RecordedWorth(g.records) + g.history.forfeited
  }

  ghost function Ledger(g: GameState): nat { SumWorth(g.sessions) + Total(g) }

  ghost predicate Balanced(g: GameState) { Conserved(g.history.generated, Ledger(g)) }

  /** As long as less than 2^32 has been generated, the ledger is exact. */
  lemma BalancedExactlyWhenSmall(g: GameState)
    requires Balanced(g) && g.history.generated < TWO_TO_32
    ensures Ledger(g) == g.history.generated
  {
    ConservedExactlyWhenSmall(g.history.generated, Ledger(g));
  }

  lemma JoinKeepsBalance(g: GameState, name: string, mapId: string, spawn: Point, token: string, uuid: string)
    requires Balanced(g) && mapId in g.maps
    ensures Balanced(Joined(g, name, mapId, spawn, token, uuid))
  {
    var s := SessionOf(g, mapId);
    var dog := NewDog(g.counters.dogs, name, spawn, uuid, g.clock);
    WorthWithLast(s.dogs, dog);
    SumWorthUpdate(g.sessions, mapId, s.(dogs := s.dogs + [dog]));
  }

  lemma ActKeepsBalance(g: GameState, mapId: string, j: nat, move: string)
    requires Balanced(g) && mapId in g.sessions && j < |g.sessions[mapId].dogs|
    ensures Balanced(Acted(g, mapId, j, move))
  {
    var s := g.sessions[mapId];
    var s' := Acted(g, mapId, j, move).sessions[mapId];
    EqualDogsEqualWorth(s.dogs, s'.dogs);
    SumWorthUpdate(g.sessions, mapId, s');
  }

  /** A session's part of a tick adds the value of the new loot; all else only changes hands. */
  lemma HarvestConservesValue(s: SessionState, nextLoot: nat, dt: real, c: Choice)
    requires IsChoice(s, nextLoot, dt, c)
    ensures InRange(c.events, |c.moved|)
    ensures Conserved(SessionWorth(s) + BagValue(c.spawned), FieldValue(Harvested(s, c)))
  {
    EventsInRange(s, nextLoot, dt, c);
    ReplayConservesValue(Start(s, c), c.events, s.gameMap.bagCapacity);
    StartValue(s, nextLoot, dt, c);
  }

  lemma StartValue(s: SessionState, nextLoot: nat, dt: real, c: Choice)
    requires IsChoice(s, nextLoot, dt, c)
    ensures FieldValue(Start(s, c)) == SessionWorth(s) + BagValue(c.spawned)
  {
    BagValueOfConcatenation(s.loot, c.spawned);
    forall i | 0 <= i < |s.dogs| ensures c.moved[i].bag == s.dogs[i].bag && c.moved[i].score == s.dogs[i].score {
      assert DogMoved(s.gameMap.roads, dt, s.dogs[i], c.moved[i]);
    }
    EqualDogsEqualWorth(s.dogs, c.moved);
  }

  lemma RetirementIsBooked(records: seq<Record>, dogs: seq<DogState>, limit: real, clock: int)
    ensures var gone := Retiring(dogs, limit);
      TotalWorth(Staying(dogs, limit)) + RecordedWorth(records + RecordsOf(gone, clock)) + CarriedValue(gone)
        == TotalWorth(dogs) + RecordedWorth(records)
  {
    var gone := Retiring(dogs, limit);
    RetirementSplitsWorth(dogs, limit);
    RecordsAccountForDogs(gone, clock);
    RecordedWorthOfConcatenation(records, RecordsOf(gone, clock));
  }

  lemma LedgerAfterTick(g: GameState, mapId: string, c: Choice)
    requires mapId in g.sessions && InRange(c.events, |c.moved|)
    ensures Ledger(AfterTick(g, mapId, c)) + SessionWorth(g.sessions[mapId])
         == Ledger(g) + FieldValue(Harvested(g.sessions[mapId], c))
  {
    var f := Harvested(g.sessions[mapId], c);
    var s' := g.sessions[mapId].(dogs := Staying(f.dogs, g.retirementTime), loot := f.ground);
    RetirementIsBooked(g.records, f.dogs, g.retirementTime, g.clock);
    SumWorthUpdate(g.sessions, mapId, s');
  }

  lemma TickKeepsBalance(g: GameState, mapId: string, dt: real, c: Choice)
    requires Balanced(g) && mapId in g.sessions
    requires IsChoice(g.sessions[mapId], g.counters.loot, dt, c)
    ensures InRange(c.events, |c.moved|)
    ensures Balanced(AfterTick(g, mapId, c))
  {
    var s := g.sessions[mapId];
    HarvestConservesValue(s, g.counters.loot, dt, c);
    LedgerAfterTick(g, mapId, c);
    GeneratedAfterTick(g, mapId, c);
    var (before, after) := (SessionWorth(s) + BagValue(c.spawned), FieldValue(Harvested(s, c)));
    StillBalanced(g, AfterTick(g, mapId, c), BagValue(c.spawned), before, after);
  }

  lemma StillBalanced(g: GameState, g': GameState, spawned: nat, before: nat, after: nat)
    requires Balanced(g) && Conserved(before, after)
    requires Ledger(g') + before == Ledger(g) + spawned + after
    requires g'.history.generated == g.history.generated + spawned
    ensures Balanced(g')
  {
    BalanceArithmetic(g.history.generated, Ledger(g), spawned, before, after, Ledger(g'));
  }

  lemma GeneratedAfterTick(g: GameState, mapId: string, c: Choice)
    requires mapId in g.sessions && InRange(c.events, |c.moved|)
    ensures AfterTick(g, mapId, c).history.generated == g.history.generated + BagValue(c.spawned)
  {
  }

  lemma BalanceArithmetic(generated: nat, ledger: nat, spawned: nat, before: nat, after: nat, ledger': nat)
    requires Conserved(generated, ledger) && Conserved(before, after)
    requires ledger' + before == ledger + spawned + after
    ensures Conserved(generated + spawned, ledger')
  {
  }

  lemma RestartKeepsLedger(g: GameState, uuids: nat -> string, joinTimes: nat -> int)
    ensures Ledger(Restarted(g, uuids, joinTimes)) == Ledger(g)
  {
    var g' := Restarted(g, uuids, joinTimes);
    forall m | m in g.sessions ensures SessionWorth(g'.sessions[m]) == SessionWorth(g.sessions[m]) {
      RestoredDogs(g.sessions[m], uuids, joinTimes);
      EqualDogsEqualWorth(g'.sessions[m].dogs, g.sessions[m].dogs);
    }
    SumWorthOfEqualSessions(g'.sessions, g.sessions);
  }

  lemma RestartKeepsBalance(g: GameState, uuids: nat -> string, joinTimes: nat -> int)
    requires Balanced(g)
    ensures Balanced(Restarted(g, uuids, joinTimes))
  {
    RestartKeepsLedger(g, uuids, joinTimes);
  }
}
