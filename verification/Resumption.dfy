/**
 * A game that was saved and loaded goes on like the original, request by request, until somebody
 * retires: loading sets the dogs' inactivity to zero, so in the loaded game they retire later.
 */
module Resumption {
  import opened Clocks
  import opened Collision
  import opened Crashes
  import opened Entities
  import opened GameStates
  import opened Geometry
  import opened Motion
  import opened Replay
  import opened Roads
  import opened Runs

  /** The second dog may have another uuid, join time and status, and has been idle no longer. */
  predicate SameDog(d: DogState, d': DogState) {
    && d' == d.(uuid := d'.uuid, joinTime := d'.joinTime, inactivity := d'.inactivity, active := d'.active)
    && d'.inactivity <= d.inactivity
  }

  ghost predicate SameDogs(dogs: seq<DogState>, dogs': seq<DogState>) {
    |dogs'| == |dogs| && forall i :: 0 <= i < |dogs| ==> SameDog(dogs[i], dogs'[i])
  }

  ghost predicate SameSession(s: SessionState, s': SessionState) {
    s' == s.(dogs := s'.dogs) && SameDogs(s.dogs, s'.dogs)
  }

  /** The two games differ in their clocks and in what a save file does not keep of the dogs. */
  ghost predicate SameGame(g: GameState, g': GameState) {
    && g' == g.(sessions := g'.sessions, clock := g'.clock, history := g'.history)
    && g'.sessions.Keys == g.sessions.Keys
    && forall m :: m in g.sessions ==> SameSession(g.sessions[m], g'.sessions[m])
  }

  // ---- loading ----

  /** Each counter that has been used has an entity of its kind in the game. */
  ghost predicate KeepsCounters(g: GameState) {
    && (g.counters.dogs == 0 || SomeDog(g)) && (g.counters.players == 0 || g.players != [])
    && (g.counters.sessions == 0 || g.sessions != map[]) && (g.counters.loot == 0 || SomeLoot(g))
  }

  /** Loading gives the same game exactly when the save file keeps the counters. */
  lemma LoadedIsSameExactly(g: GameState, uuids: nat -> string, joinTimes: nat -> int)
    requires GoodClock(g)
    ensures SameGame(g, Restarted(g, uuids, joinTimes)) <==> KeepsCounters(g)
  {
    var g' := Restarted(g, uuids, joinTimes);
    forall m | m in g.sessions ensures SameSession(g.sessions[m], g'.sessions[m]) {
      RestoredDogs(g.sessions[m], uuids, joinTimes);
      forall d | d in g.sessions[m].dogs ensures d.inactivity >= 0.0 {
        assert OnTime(d, g.history, g.clock);
      }
    }
    assert KeepsCounters(g) <==> g'.counters == g.counters;
  }

  /** Two games that are the same stay so when both are saved and loaded. */
  lemma RestartsMatch(g: GameState, g': GameState, uuids: nat -> string, joinTimes: nat -> int)
    requires SameGame(g, g')
    ensures SameGame(Restarted(g, uuids, joinTimes), Restarted(g', uuids, joinTimes))
  {
    forall m | m in g.sessions
      ensures SameSession(RestoredSession(g.sessions[m], uuids, joinTimes),
                          RestoredSession(g'.sessions[m], uuids, joinTimes))
      ensures (g.sessions[m].dogs != [] <==> g'.sessions[m].dogs != [])
      ensures HasLoot(g.sessions[m]) <==> HasLoot(g'.sessions[m])
    {
      RestoredDogs(g.sessions[m], uuids, joinTimes);
      RestoredDogs(g'.sessions[m], uuids, joinTimes);
    }
    assert SomeDog(g) <==> SomeDog(g');
    assert SomeLoot(g) <==> SomeLoot(g');
  }

  // ---- joining and acting ----

  lemma JoinsMatch(
    g: GameState, g': GameState, name: string, mapId: string, spawn: Point, token: string, uuid: string)
    requires SameGame(g, g') && mapId in g.maps
    ensures SameGame(Joined(g, name, mapId, spawn, token, uuid), Joined(g', name, mapId, spawn, token, uuid))
  {
    assert SameSession(SessionOf(g, mapId), SessionOf(g', mapId));
  }

  lemma ActsMatch(g: GameState, g': GameState, mapId: string, j: nat, move: string)
    requires SameGame(g, g') && mapId in g.sessions && j < |g.sessions[mapId].dogs|
    ensures SameGame(Acted(g, mapId, j, move), Acted(g', mapId, j, move))
  {
    assert SameSession(g.sessions[mapId], g'.sessions[mapId]);
  }

  // ---- one session's part of a tick ----

  /** The dog `d` moves to where `m` is. */
  function Following(d: DogState, m: DogState, dt: real): DogState {
    AfterMove(d, m.position, false, dt).(speed := m.speed)
  }

  /** The dogs of the session make the movements of the choice. */
  function FollowingAll(dogs: seq<DogState>, moved: seq<DogState>, dt: real): seq<DogState>
    requires |dogs| == |moved|
  {
    seq(|dogs|, i requires 0 <= i < |dogs| => Following(dogs[i], moved[i], dt))
  }

  /** The two choices show the same movements, loot and collisions. */
  ghost predicate SameChoice(c: Choice, c': Choice) {
    c' == c.(moved := c'.moved) && SameDogs(c.moved, c'.moved)
  }

  lemma DogFollows(roads: seq<Road>, dt: real, d: DogState, d': DogState, m: DogState)
    requires SameDog(d, d') && DogMoved(roads, dt, d, m)
    ensures DogMoved(roads, dt, d', Following(d', m, dt)) && SameDog(m, Following(d', m, dt))
  {
    var stopped :| Moves(d.position, d.speed, d.direction, dt, roads, m.position, stopped)
                   && m == AfterMove(d, m.position, stopped, dt);
    assert Following(d', m, dt) == AfterMove(d', m.position, stopped, dt);
  }

  lemma ChoicesMatch(s: SessionState, s': SessionState, nextLoot: nat, dt: real, c: Choice) returns (c': Choice)
    requires SameSession(s, s') && IsChoice(s, nextLoot, dt, c)
    ensures SameChoice(c, c') && IsChoice(s', nextLoot, dt, c')
  {
    c' := c.(moved := FollowingAll(s'.dogs, c.moved, dt));
    forall i | 0 <= i < |s.dogs|
      ensures DogMoved(s.gameMap.roads, dt, s'.dogs[i], c'.moved[i]) && SameDog(c.moved[i], c'.moved[i])
    {
      DogFollows(s.gameMap.roads, dt, s.dogs[i], s'.dogs[i], c.moved[i]);
    }
    assert Gatherers(s.dogs, c.moved) == Gatherers(s'.dogs, c'.moved);
  }

  ghost predicate SameField(f: Field, f': Field) {
    f' == f.(dogs := f'.dogs) && SameDogs(f.dogs, f'.dogs)
  }

  lemma {:induction false} ReplaysMatch(f: Field, f': Field, events: seq<Event>, capacity: nat)
    requires SameField(f, f') && InRange(events, |f.dogs|)
    ensures SameField(Replayed(f, events, capacity), Replayed(f', events, capacity))
  {
    if events == [] {
    } else {
      ReplaysMatch(f, f', events[..|events| - 1], capacity);
    }
  }

  lemma {:induction false} NobodyLeaves(dogs: seq<DogState>, limit: real)
    requires Retiring(dogs, limit) == []
    ensures Staying(dogs, limit) == dogs
  {
    if dogs == [] {
    } else {
      NobodyLeaves(dogs[..|dogs| - 1], limit);
    }
  }

  lemma NobodyElseLeaves(dogs: seq<DogState>, dogs': seq<DogState>, limit: real)
    requires SameDogs(dogs, dogs') && Retiring(dogs, limit) == []
    ensures Retiring(dogs', limit) == []
  {
    forall d' | d' in dogs' ensures d'.inactivity < limit {
      var i :| 0 <= i < |dogs'| && dogs'[i] == d';
      assert dogs[i] in dogs && dogs[i] !in Retiring(dogs, limit);
    }
    NobodyAtLimit(dogs', limit);
  }

  lemma {:induction false} NobodyAtLimit(dogs: seq<DogState>, limit: real)
    requires forall d :: d in dogs ==> d.inactivity < limit
    ensures Retiring(dogs, limit) == []
  {
    if dogs == [] {
    } else {
      NobodyAtLimit(dogs[..|dogs| - 1], limit);
    }
  }

  lemma {:induction false} AllPlayersStay(players: seq<PlayerState>)
    ensures PlayersWithout(players, {}) == players
  {
    if players == [] {
    } else {
      AllPlayersStay(players[..|players| - 1]);
    }
  }

  lemma NothingRemoved(players: seq<PlayerState>, records: seq<Record>, gone: seq<DogState>, clock: int)
    requires gone == []
    ensures PlayersWithout(players, IdsOf(gone)) == players && records + RecordsOf(gone, clock) == records
  {
    AllPlayersStay(players);
  }

  /** When nobody retires, this is a session's part of a tick. */
  lemma QuietTick(g: GameState, mapId: string, c: Choice, f: Field)
    requires mapId in g.sessions && InRange(c.events, |c.moved|) && f == Harvested(g.sessions[mapId], c)
    requires Retiring(f.dogs, g.retirementTime) == []
    ensures var g' := AfterTick(g, mapId, c);
      g' == g.(sessions := g.sessions[mapId := g.sessions[mapId].(dogs := f.dogs, loot := f.ground)],
               counters := g.counters.(loot := g.counters.loot + |c.spawned|), history := g'.history)
  {
    NobodyLeaves(f.dogs, g.retirementTime);
    NothingRemoved(g.players, g.records, Retiring(f.dogs, g.retirementTime), g.clock);
  }

  lemma HarvestsMatch(s: SessionState, s': SessionState, c: Choice, c': Choice)
    requires SameSession(s, s') && SameChoice(c, c')
    requires InRange(c.events, |c.moved|)
    ensures SameField(Harvested(s, c), Harvested(s', c'))
  {
    ReplaysMatch(Start(s, c), Start(s', c'), c.events, s.gameMap.bagCapacity);
  }

  lemma QuietTicksMatch(g: GameState, g': GameState, mapId: string, c: Choice, c': Choice)
    requires SameGame(g, g') && mapId in g.sessions && SameChoice(c, c') && InRange(c.events, |c.moved|)
    requires SameField(Harvested(g.sessions[mapId], c), Harvested(g'.sessions[mapId], c'))
    requires AfterTick(g, mapId, c).records == g.records
    ensures SameGame(AfterTick(g, mapId, c), AfterTick(g', mapId, c'))
  {
    var (f, f') := (Harvested(g.sessions[mapId], c), Harvested(g'.sessions[mapId], c'));
    RecordsInOrder(Retiring(f.dogs, g.retirementTime), g.clock);
    NobodyElseLeaves(f.dogs, f'.dogs, g.retirementTime);
    QuietTick(g, mapId, c, f);
    QuietTick(g', mapId, c', f');
  }

  lemma PartsMatch(g: GameState, g': GameState, mapId: string, dt: real, c: Choice) returns (c': Choice)
    requires SameGame(g, g') && mapId in g.sessions
    requires IsChoice(g.sessions[mapId], g.counters.loot, dt, c) && InRange(c.events, |c.moved|)
    requires AfterTick(g, mapId, c).records == g.records
    ensures SameChoice(c, c') && IsChoice(g'.sessions[mapId], g'.counters.loot, dt, c')
    ensures InRange(c'.events, |c'.moved|) && SameGame(AfterTick(g, mapId, c), AfterTick(g', mapId, c'))
  {
    c' := ChoicesMatch(g.sessions[mapId], g'.sessions[mapId], g.counters.loot, dt, c);
    HarvestsMatch(g.sessions[mapId], g'.sessions[mapId], c, c');
    QuietTicksMatch(g, g', mapId, c, c');
  }

  // ---- whole ticks, requests and runs ----

  ghost predicate SameChoices(choices: seq<Choice>, choices': seq<Choice>) {
    |choices'| == |choices| && forall k :: 0 <= k < |choices| ==> SameChoice(choices[k], choices'[k])
  }

  lemma SameChoicesFront(choices: seq<Choice>, front: seq<Choice>, last: Choice)
    requires choices != [] && SameChoices(choices[..|choices| - 1], front)
    requires SameChoice(choices[|choices| - 1], last)
    ensures SameChoices(choices, front + [last])
  {
    forall k | 0 <= k < |choices| - 1 ensures SameChoice(choices[k], front[k]) {
      assert choices[..|choices| - 1][k] == choices[k];
    }
  }

  /** One more session's part of a tick. */
  lemma NextTicked(g: GameState, dt: int, order: seq<string>, front: seq<Choice>, b: GameState, last: Choice)
    requires order != [] && AreChoices(g, dt, order[..|order| - 1], front)
    requires b == Ticked(g, order[..|order| - 1], front) && order[|order| - 1] in b.sessions
    requires IsChoice(b.sessions[order[|order| - 1]], b.counters.loot, dt as real / MS_IN_SECONDS, last)
    ensures AreChoices(g, dt, order, front + [last]) && InRange(last.events, |last.moved|)
    ensures Ticked(g, order, front + [last]) == AfterTick(b, order[|order| - 1], last)
  {
    assert (front + [last])[..|order| - 1] == front;
    EventsInRange(b.sessions[order[|order| - 1]], b.counters.loot, dt as real / MS_IN_SECONDS, last);
  }

  /** The states `b` and `b'`, after all sessions but the last had their part, pass the match on. */
  lemma LastPartsMatch(
    g: GameState, g': GameState, dt: int, order: seq<string>, choices: seq<Choice>, b: GameState,
    front: seq<Choice>, b': GameState) returns (choices': seq<Choice>)
    requires order != [] && AreChoices(g, dt, order, choices)
    requires b == Ticked(g, order[..|order| - 1], choices[..|order| - 1])
    requires Ticked(g, order, choices).records == b.records && SameGame(b, b')
    requires AreChoices(g', dt, order[..|order| - 1], front) && b' == Ticked(g', order[..|order| - 1], front)
    requires SameChoices(choices[..|order| - 1], front)
    ensures SameChoices(choices, choices') && AreChoices(g', dt, order, choices')
    ensures SameGame(Ticked(g, order, choices), Ticked(g', order, choices'))
  {
    var n := |order| - 1;
    LastTicked(g, dt, order, choices);
    var last := PartsMatch(b, b', order[n], dt as real / MS_IN_SECONDS, choices[n]);
    choices' := front + [last];
    NextTicked(g', dt, order, front, b', last);
    SameChoicesFront(choices, front, last);
  }

  lemma {:induction false} TicksMatch(
    g: GameState, g': GameState, dt: int, order: seq<string>, choices: seq<Choice>) returns (choices': seq<Choice>)
    requires SameGame(g, g') && AreChoices(g, dt, order, choices) && Ticked(g, order, choices).records == g.records
    ensures SameChoices(choices, choices') && AreChoices(g', dt, order, choices')
    ensures SameGame(Ticked(g, order, choices), Ticked(g', order, choices'))
    decreases |order|
  {
    if order == [] {
      choices' := [];
    } else {
      var n := |order| - 1;
      var b := Ticked(g, order[..n], choices[..n]);
      TickAppendsRecords(g, order[..n], choices[..n]);
      assert b.records <= Ticked(g, order, choices).records;
      var front := TicksMatch(g, g', dt, order[..n], choices[..n]);
      choices' := LastPartsMatch(g, g', dt, order, choices, b, front, Ticked(g', order[..n], front));
    }
  }

  /** The requests are the same, and the outcome of chance is the same in both. */
  ghost predicate SameRequest(r: Request, r': Request) {
    r' == r || (r.Tick? && r'.Tick? && r' == r.(choices := r'.choices) && SameChoices(r.choices, r'.choices))
  }

  lemma RequestsMatch(g: GameState, g': GameState, r: Request) returns (r': Request)
    requires SameGame(g, g') && Possible(g, r) && Served(g, r).records == g.records
    ensures SameRequest(r, r') && Possible(g', r') && SameGame(Served(g, r), Served(g', r'))
  {
    r' := r;
    match r
    case Join(name, mapId, spawn, token, uuid) => JoinsMatch(g, g', name, mapId, spawn, token, uuid);
    case Act(player, mapId, dog, move) =>
      assert SameSession(g.sessions[mapId], g'.sessions[mapId]);
      ActsMatch(g, g', mapId, dog, move);
    case Tick(dt, order, choices) =>
      var choices' := TicksMatch(Advanced(g, dt), Advanced(g', dt), dt, order, choices);
      r' := Tick(dt, order, choices');
    case Restart(uuids, joinTimes) => RestartsMatch(g, g', uuids, joinTimes);
  }

  ghost predicate SameRequests(requests: seq<Request>, requests': seq<Request>) {
    |requests'| == |requests| && forall k :: 0 <= k < |requests| ==> SameRequest(requests[k], requests'[k])
  }

  lemma {:induction false} RunsMatch(g: GameState, g': GameState, requests: seq<Request>)
    returns (requests': seq<Request>)
    requires SameGame(g, g') && IsRun(g, requests) && AfterRun(g, requests).records == g.records
    ensures SameRequests(requests, requests') && IsRun(g', requests')
    ensures SameGame(AfterRun(g, requests), AfterRun(g', requests'))
    decreases |requests|
  {
    if requests == [] {
      requests' := [];
    } else {
      var n := |requests| - 1;
      var b := AfterRun(g, requests[..n]);
      RequestAppendsRecords(b, requests[n]);
      RunAppendsRecords(g, requests[..n]);
      var front := RunsMatch(g, g', requests[..n]);
      var last := RequestsMatch(b, AfterRun(g', front), requests[n]);
      requests' := front + [last];
      assert requests'[..n] == front;
    }
  }

  lemma {:induction false} RunAppendsRecords(g: GameState, requests: seq<Request>)
    requires IsRun(g, requests)
    ensures g.records <= AfterRun(g, requests).records
    decreases |requests|
  {
    if requests == [] {
    } else {
      RunAppendsRecords(g, requests[..|requests| - 1]);
      RequestAppendsRecords(AfterRun(g, requests[..|requests| - 1]), requests[|requests| - 1]);
    }
  }

  /**
   * Whatever the original of a reachable game could go on to do without anybody retiring, the loaded
   * game can do as well: the same requests, with the same outcome of chance, are possible, and they
   * lead to the same game. Loading the file has to bring the counters back.
   */
  lemma LoadedGameGoesOn(
    start: GameState, past: seq<Request>, uuids: nat -> string, joinTimes: nat -> int, requests: seq<Request>)
    returns (requests': seq<Request>)
    requires IsInitial(start) && IsRun(start, past) && KeepsCounters(AfterRun(start, past))
    requires IsRun(AfterRun(start, past), requests)
    requires AfterRun(AfterRun(start, past), requests).records == AfterRun(start, past).records
    ensures SameRequests(requests, requests')
    ensures var (g, g') := (AfterRun(start, past), Restarted(AfterRun(start, past), uuids, joinTimes));
      IsRun(g', requests') && SameGame(AfterRun(g, requests), AfterRun(g', requests'))
  {
    RunKeepsInv(start, past);
    var g := AfterRun(start, past);
    LoadedIsSameExactly(g, uuids, joinTimes);
    requests' := RunsMatch(g, Restarted(g, uuids, joinTimes), requests);
  }
}
