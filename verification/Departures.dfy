/**
 * Progress of the game: a dog that nobody commands leaves it, after a time that can be computed from
 * where the dog is. What happens to other dogs in the meantime makes no difference.
 */
module Departures {
  import opened Clocks
  import opened Entities
  import opened GameStates
  import opened Geometry
  import opened Motion
  import opened Progress
  import opened Registry
  import opened Replay
  import opened Runs
  import opened Terrain

  // ---- one session's part of a tick ----

  /** The dog with this id, if it is in the session, has no more than `bound` left. */
  ghost predicate LeavesIn(s: SessionState, limit: real, longest: real, id: nat, bound: real) {
    forall d :: d in s.dogs && d.id == id ==>
      && s.gameMap.roads != [] && Coherent(d.direction, d.speed)
      && TimeLeft(s.gameMap.roads, limit, longest, d) <= bound
  }

  ghost predicate AllCanWait(s: SessionState, limit: real) { forall d :: d in s.dogs ==> CanWait(d, limit) }

  lemma HarvestTakesTime(
    s: SessionState, limit: real, longest: real, id: nat, bound: real, nextLoot: nat, dt: real, c: Choice, d': DogState)
    requires GoodDogs(s.gameMap, s.dogs) && AllCanWait(s, limit) && 0.0 <= dt <= longest
    requires IsChoice(s, nextLoot, dt, c) && LeavesIn(s, limit, longest, id, bound)
    requires InRange(c.events, |c.moved|) && d' in Harvested(s, c).dogs && d'.id == id
    ensures s.gameMap.roads != [] && Coherent(d'.direction, d'.speed)
    ensures TimeLeft(s.gameMap.roads, limit, longest, d') <= bound - dt
  {
    var dogs := Harvested(s, c).dogs;
    var i :| 0 <= i < |dogs| && dogs[i] == d';
    ReplayChangesOnlyHauls(Start(s, c), c.events, s.gameMap.bagCapacity);
    assert SameButHaul(c.moved[i], d');
    var d := s.dogs[i];
    assert d in s.dogs && DogMoved(s.gameMap.roads, dt, d, c.moved[i]) && GoodDog(s.gameMap, d) && CanWait(d, limit);
    MoveTakesTime(s.gameMap.roads, limit, longest, dt, d, c.moved[i]);
  }

  lemma PartTakesTime(g: GameState, mapId: string, dt: real, c: Choice, longest: real, id: nat, bound: real)
    requires GoodTerrain(g) && mapId in g.sessions && AllCanWait(g.sessions[mapId], g.retirementTime)
    requires IsChoice(g.sessions[mapId], g.counters.loot, dt, c) && 0.0 <= dt <= longest
    requires LeavesIn(g.sessions[mapId], g.retirementTime, longest, id, bound)
    ensures InRange(c.events, |c.moved|)
    ensures LeavesIn(AfterTick(g, mapId, c).sessions[mapId], g.retirementTime, longest, id, bound - dt)
  {
    var s := g.sessions[mapId];
    EventsInRange(s, g.counters.loot, dt, c);
    forall d' | d' in AfterTick(g, mapId, c).sessions[mapId].dogs && d'.id == id
      ensures s.gameMap.roads != [] && Coherent(d'.direction, d'.speed)
      ensures TimeLeft(s.gameMap.roads, g.retirementTime, longest, d') <= bound - dt
    {
      HarvestTakesTime(s, g.retirementTime, longest, id, bound, g.counters.loot, dt, c, d');
    }
  }

  // ---- a whole tick ----

  /** The dog with this id, if it is in the game, has no more than `bound` left. */
  ghost predicate LeavesBy(g: GameState, longest: real, id: nat, bound: real) {
    forall m :: m in g.sessions ==> LeavesIn(g.sessions[m], g.retirementTime, longest, id, bound)
  }

  /** In the middle of a tick: the sessions in `done` have had their part. */
  ghost predicate LeavesMidTick(
    g: GameState, done: set<string>, dt: int, longest: real, id: nat, bound: real)
  {
    forall m :: m in g.sessions ==>
      LeavesIn(g.sessions[m], g.retirementTime, longest, id,
               if m in done then bound - dt as real / MS_IN_SECONDS else bound)
  }

  lemma OnTimeCanWait(s: SessionState, h: History, now: int, limit: real)
    requires AllOnTime(s, h, now) && NoneOverdue(s, limit)
    ensures AllCanWait(s, limit)
  {
    forall d | d in s.dogs ensures CanWait(d, limit) {
      assert OnTime(d, h, now);
    }
  }

  lemma OneMorePart(
    g: GameState, mapId: string, done: set<string>, dt: int, c: Choice, longest: real, id: nat, bound: real)
    requires GoodTerrain(g) && MidTick(g, done, dt) && mapId in g.sessions && mapId !in done
    requires IsChoice(g.sessions[mapId], g.counters.loot, dt as real / MS_IN_SECONDS, c)
    requires dt >= 0 && dt as real / MS_IN_SECONDS <= longest && LeavesMidTick(g, done, dt, longest, id, bound)
    ensures InRange(c.events, |c.moved|)
    ensures LeavesMidTick(AfterTick(g, mapId, c), done + {mapId}, dt, longest, id, bound)
  {
    OnTimeCanWait(g.sessions[mapId], g.history, g.clock - dt, g.retirementTime);
    PartTakesTime(g, mapId, dt as real / MS_IN_SECONDS, c, longest, id, bound);
  }

  /** `b` is the state after all sessions but the last had their part. */
  lemma LastPartTakesTime(
    g: GameState, dt: int, order: seq<string>, choices: seq<Choice>, b: GameState,
    longest: real, id: nat, bound: real)
    requires order != [] && AreChoices(g, dt, order, choices)
    requires forall i, j :: 0 <= i < j < |order| ==> order[i] != order[j]
    requires b == Ticked(g, order[..|order| - 1], choices[..|order| - 1])
    requires GoodTerrain(b) && MidTick(b, SetOf(order[..|order| - 1]), dt)
    requires dt >= 0 && dt as real / MS_IN_SECONDS <= longest
    requires LeavesMidTick(b, SetOf(order[..|order| - 1]), dt, longest, id, bound)
    ensures LeavesMidTick(Ticked(g, order, choices), SetOf(order), dt, longest, id, bound)
  {
    LastTicked(g, dt, order, choices);
    SetOfWithLast(order);
    OneMorePart(b, order[|order| - 1], SetOf(order[..|order| - 1]), dt, choices[|order| - 1], longest, id, bound);
  }

  lemma PrefixIsInMidTick(g: GameState, dt: int, order: seq<string>, choices: seq<Choice>)
    requires Sound(g) && MidTick(g, {}, dt) && AreChoices(g, dt, order, choices) && dt >= 0
    requires forall i, j :: 0 <= i < j < |order| ==> order[i] != order[j]
    ensures GoodTerrain(Ticked(g, order, choices)) && MidTick(Ticked(g, order, choices), SetOf(order), dt)
  {
    PrefixIsSound(g, dt, order, choices);
    PrefixTicked(g, dt, order, choices);
  }

  lemma {:induction false} PrefixTakesTime(
    g: GameState, dt: int, order: seq<string>, choices: seq<Choice>, longest: real, id: nat, bound: real)
    requires Sound(g) && MidTick(g, {}, dt) && AreChoices(g, dt, order, choices)
    requires forall i, j :: 0 <= i < j < |order| ==> order[i] != order[j]
    requires dt >= 0 && dt as real / MS_IN_SECONDS <= longest && LeavesBy(g, longest, id, bound)
    ensures LeavesMidTick(Ticked(g, order, choices), SetOf(order), dt, longest, id, bound)
    decreases |order|
  {
    if order == [] {
    } else {
      var n := |order| - 1;
      PrefixIsInMidTick(g, dt, order[..n], choices[..n]);
      PrefixTakesTime(g, dt, order[..n], choices[..n], longest, id, bound);
      LastPartTakesTime(g, dt, order, choices, Ticked(g, order[..n], choices[..n]), longest, id, bound);
    }
  }

  lemma {:induction false} TickKeepsSessionsAndDogIds(g: GameState, dt: int, order: seq<string>, choices: seq<Choice>)
    requires AreChoices(g, dt, order, choices)
    ensures Ticked(g, order, choices).sessions.Keys == g.sessions.Keys
    ensures Ticked(g, order, choices).counters.dogs == g.counters.dogs
    decreases |order|
  {
    if order == [] {
    } else {
      LastTicked(g, dt, order, choices);
      TickKeepsSessionsAndDogIds(g, dt, order[..|order| - 1], choices[..|order| - 1]);
    }
  }

  lemma TickTakesTime(
    g: GameState, dt: int, order: seq<string>, choices: seq<Choice>, longest: real, id: nat, bound: real)
    requires Inv(g) && Possible(g, Tick(dt, order, choices))
    requires dt as real / MS_IN_SECONDS <= longest && LeavesBy(g, longest, id, bound)
    ensures LeavesBy(Served(g, Tick(dt, order, choices)), longest, id, bound - dt as real / MS_IN_SECONDS)
    ensures Served(g, Tick(dt, order, choices)).counters.dogs == g.counters.dogs
  {
    AdvancingIsSound(g, dt);
    PrefixTakesTime(Advanced(g, dt), dt, order, choices, longest, id, bound);
    TickKeepsSessionsAndDogIds(Advanced(g, dt), dt, order, choices);
    assert forall m :: m in g.sessions ==> m in SetOf(order);
  }

  // ---- requests and runs ----

  /** The request does not command the dog, and the server is neither stopped nor slow. */
  ghost predicate LeavesAlone(g: GameState, r: Request, longest: real, id: nat)
    requires Possible(g, r)
  {
    match r
    case Join(name, mapId, spawn, token, uuid) => true
    case Act(player, mapId, dog, move) => g.sessions[mapId].dogs[dog].id != id
    case Tick(dt, order, choices) => dt as real / MS_IN_SECONDS <= longest
    case Restart(uuids, joinTimes) => false
  }

  function Duration(r: Request): real { if r.Tick? then r.dt as real / MS_IN_SECONDS else 0.0 }

  function TotalDuration(requests: seq<Request>): real {
    if requests == [] then 0.0
    else TotalDuration(requests[..|requests| - 1]) + Duration(requests[|requests| - 1])
  }

  lemma JoinTakesNoTime(
    g: GameState, name: string, mapId: string, spawn: Point, token: string, uuid: string,
    longest: real, id: nat, bound: real)
    requires mapId in g.maps && LeavesBy(g, longest, id, bound) && id < g.counters.dogs
    ensures LeavesBy(Joined(g, name, mapId, spawn, token, uuid), longest, id, bound)
  {
    var g' := Joined(g, name, mapId, spawn, token, uuid);
    forall m | m in g'.sessions ensures LeavesIn(g'.sessions[m], g.retirementTime, longest, id, bound) {
      if m in g.sessions { assert LeavesIn(g.sessions[m], g.retirementTime, longest, id, bound); }
    }
  }

  lemma ActTakesNoTime(g: GameState, mapId: string, j: nat, move: string, longest: real, id: nat, bound: real)
    requires mapId in g.sessions && j < |g.sessions[mapId].dogs| && g.sessions[mapId].dogs[j].id != id
    requires LeavesBy(g, longest, id, bound)
    ensures LeavesBy(Acted(g, mapId, j, move), longest, id, bound)
  {
    var g' := Acted(g, mapId, j, move);
    forall m | m in g'.sessions ensures LeavesIn(g'.sessions[m], g.retirementTime, longest, id, bound) {
      assert LeavesIn(g.sessions[m], g.retirementTime, longest, id, bound);
    }
  }

  lemma RequestTakesTime(g: GameState, r: Request, longest: real, id: nat, bound: real)
    requires Inv(g) && Possible(g, r) && LeavesAlone(g, r, longest, id) && id < g.counters.dogs
    requires LeavesBy(g, longest, id, bound)
    ensures LeavesBy(Served(g, r), longest, id, bound - Duration(r)) && id < Served(g, r).counters.dogs
  {
    match r
    case Join(name, mapId, spawn, token, uuid) =>
      JoinTakesNoTime(g, name, mapId, spawn, token, uuid, longest, id, bound);
    case Act(player, mapId, dog, move) => ActTakesNoTime(g, mapId, dog, move, longest, id, bound);
    case Tick(dt, order, choices) => TickTakesTime(g, dt, order, choices, longest, id, bound);
  }

  ghost predicate IsLeftAlone(g: GameState, requests: seq<Request>, longest: real, id: nat)
    requires IsRun(g, requests)
    decreases |requests|
  {
    requests != [] ==>
      var n := |requests| - 1;
      && IsLeftAlone(g, requests[..n], longest, id)
      && LeavesAlone(AfterRun(g, requests[..n]), requests[n], longest, id)
  }

  /** The dog leaves in time, and the game is in a state where requests keep that up. */
  ghost predicate IsTimely(g: GameState, longest: real, id: nat, bound: real) {
    Inv(g) && id < g.counters.dogs && LeavesBy(g, longest, id, bound)
  }

  lemma RequestKeepsTimely(g: GameState, r: Request, longest: real, id: nat, bound: real)
    requires IsTimely(g, longest, id, bound) && Possible(g, r) && LeavesAlone(g, r, longest, id)
    ensures IsTimely(Served(g, r), longest, id, bound - Duration(r))
  {
    RequestKeepsInv(g, r);
    RequestTakesTime(g, r, longest, id, bound);
  }

  /** `b` is the state before the last request. */
  lemma LastRequestTakesTime(
    g: GameState, requests: seq<Request>, b: GameState, longest: real, id: nat, left: real, bound: real)
    requires requests != [] && IsRun(g, requests) && IsLeftAlone(g, requests, longest, id)
    requires b == AfterRun(g, requests[..|requests| - 1]) && IsTimely(b, longest, id, left)
    requires left == bound - TotalDuration(requests[..|requests| - 1])
    ensures IsTimely(AfterRun(g, requests), longest, id, bound - TotalDuration(requests))
  {
    var r := requests[|requests| - 1];
    RequestKeepsTimely(b, r, longest, id, left);
    assert bound - TotalDuration(requests) == left - Duration(r);
    assert AfterRun(g, requests) == Served(b, r);
  }

  lemma {:induction false} RunTakesTime(g: GameState, requests: seq<Request>, longest: real, id: nat, bound: real)
    requires IsTimely(g, longest, id, bound) && IsRun(g, requests) && IsLeftAlone(g, requests, longest, id)
    ensures IsTimely(AfterRun(g, requests), longest, id, bound - TotalDuration(requests))
    decreases |requests|
  {
    if requests == [] {
    } else {
      var front := requests[..|requests| - 1];
      RunTakesTime(g, front, longest, id, bound);
      LastRequestTakesTime(g, requests, AfterRun(g, front), longest, id, bound - TotalDuration(front), bound);
    }
  }

  /** The time that the dog `d` of the session `m` has left. */
  ghost function TimeOf(g: GameState, m: string, d: DogState, longest: real): real
    requires m in g.sessions && g.sessions[m].gameMap.roads != [] && Coherent(d.direction, d.speed)
  {
    TimeLeft(g.sessions[m].gameMap.roads, g.retirementTime, longest, d)
  }

  lemma OnlyDogWithId(g: GameState, m: string, d: DogState, m': string, d': DogState)
    requires GoodIds(g) && m in g.sessions && d in g.sessions[m].dogs
    requires m' in g.sessions && d' in g.sessions[m'].dogs && d'.id == d.id
    ensures m' == m && d' == d && d.id < g.counters.dogs
  {
    assert d.id in DogsIn(g.sessions[m]) && d'.id in DogsIn(g.sessions[m']);
  }

  lemma DogIsTimely(g: GameState, m: string, d: DogState, longest: real)
    requires Inv(g) && m in g.sessions && d in g.sessions[m].dogs
    ensures g.sessions[m].gameMap.roads != [] && Coherent(d.direction, d.speed)
    ensures IsTimely(g, longest, d.id, TimeOf(g, m, d, longest))
  {
    GoodDogStands(g, m, d);
    OnlyDogWithId(g, m, d, m, d);
    forall m', d' | m' in g.sessions && d' in g.sessions[m'].dogs && d'.id == d.id ensures m' == m && d' == d {
      OnlyDogWithId(g, m, d, m', d');
    }
  }

  lemma NobodyIsLate(g: GameState, longest: real, id: nat, bound: real)
    requires IsTimely(g, longest, id, bound) && bound < 0.0 <= longest
    ensures id !in LiveDogs(g)
  {
    forall m, d | m in g.sessions && d in g.sessions[m].dogs ensures d.id != id {
      GoodDogStands(g, m, d);
      OnTimeCanWait(g.sessions[m], g.history, g.clock, g.retirementTime);
      TimeLeftIsNonNegative(g.sessions[m].gameMap.roads, g.retirementTime, longest, d);
      assert LeavesIn(g.sessions[m], g.retirementTime, longest, id, bound);
    }
  }

  lemma RunEndsWithout(g: GameState, requests: seq<Request>, longest: real, id: nat, bound: real)
    requires IsTimely(g, longest, id, bound) && IsRun(g, requests) && IsLeftAlone(g, requests, longest, id)
    requires bound < TotalDuration(requests) && longest >= 0.0
    ensures id !in LiveDogs(AfterRun(g, requests))
  {
    RunTakesTime(g, requests, longest, id, bound);
    NobodyIsLate(AfterRun(g, requests), longest, id, bound - TotalDuration(requests));
  }

  lemma LateDogLeaves(g: GameState, m: string, d: DogState, requests: seq<Request>, longest: real)
    requires Inv(g) && m in g.sessions && d in g.sessions[m].dogs && longest >= 0.0
    requires IsRun(g, requests) && IsLeftAlone(g, requests, longest, d.id)
    ensures g.sessions[m].gameMap.roads != [] && Coherent(d.direction, d.speed)
    ensures TotalDuration(requests) > TimeOf(g, m, d, longest) ==> d.id !in LiveDogs(AfterRun(g, requests))
  {
    DogIsTimely(g, m, d, longest);
    if TotalDuration(requests) > TimeOf(g, m, d, longest) {
      RunEndsWithout(g, requests, longest, d.id, TimeOf(g, m, d, longest));
    }
  }

  /**
   * A dog of a reachable state that nobody commands any more is gone when its time is over: whoever
   * joins, whatever the others do and however the time is cut into ticks of at most `longest`.
   */
  lemma UncommandedDogLeaves(
    start: GameState, past: seq<Request>, g: GameState, m: string, d: DogState, requests: seq<Request>, longest: real)
    requires IsInitial(start) && IsRun(start, past) && g == AfterRun(start, past)
    requires m in g.sessions && d in g.sessions[m].dogs && longest >= 0.0
    requires IsRun(g, requests) && IsLeftAlone(g, requests, longest, d.id)
    ensures g.sessions[m].gameMap.roads != [] && Coherent(d.direction, d.speed)
    ensures TotalDuration(requests) > TimeOf(g, m, d, longest) ==> d.id !in LiveDogs(AfterRun(g, requests))
  {
    RunKeepsInv(start, past);
    LateDogLeaves(g, m, d, requests, longest);
  }
}
