/** What a whole tick means for one session: one part, from the state before the tick. */
module SessionTicks {
  import opened Entities
  import opened GameStates
  import opened Registry
  import opened Replay
  import opened Roads
  import opened Runs

  /** The session after its part of the tick. */
  function PartDone(s: SessionState, c: Choice, limit: real): SessionState
    requires InRange(c.events, |c.moved|)
  {
    s.(dogs := Staying(Harvested(s, c).dogs, limit), loot := Harvested(s, c).ground)
  }

  lemma {:induction false} OthersHaveTheirPart(
    g: GameState, dt: int, order: seq<string>, choices: seq<Choice>, m: string)
    requires AreChoices(g, dt, order, choices)
    ensures Ticked(g, order, choices).sessions.Keys == g.sessions.Keys
    ensures Ticked(g, order, choices).retirementTime == g.retirementTime
    ensures m in g.sessions && m !in order ==> Ticked(g, order, choices).sessions[m] == g.sessions[m]
    decreases |order|
  {
    if order == [] {
    } else {
      LastTicked(g, dt, order, choices);
      OthersHaveTheirPart(g, dt, order[..|order| - 1], choices[..|order| - 1], m);
    }
  }

  /** In whatever order the sessions come, each has one part, on what it was before the tick. */
  lemma {:induction false} TickOfSession(
    g: GameState, dt: int, order: seq<string>, choices: seq<Choice>, m: string) returns (c: Choice, nextLoot: nat)
    requires AreChoices(g, dt, order, choices) && m in order
    requires forall i, j :: 0 <= i < j < |order| ==> order[i] != order[j]
    ensures m in g.sessions && IsChoice(g.sessions[m], nextLoot, dt as real / MS_IN_SECONDS, c)
    ensures InRange(c.events, |c.moved|) && m in Ticked(g, order, choices).sessions
    ensures Ticked(g, order, choices).sessions[m] == PartDone(g.sessions[m], c, g.retirementTime)
    decreases |order|
  {
    var n := |order| - 1;
    LastTicked(g, dt, order, choices);
    OthersHaveTheirPart(g, dt, order[..n], choices[..n], m);
    if m == order[n] {
      c, nextLoot := choices[n], Ticked(g, order[..n], choices[..n]).counters.loot;
    } else {
      c, nextLoot := TickOfSession(g, dt, order[..n], choices[..n], m);
    }
  }

  /** A dog that is still there after its session's part is the dog that had its id before. */
  lemma DogAfterPart(
    s: SessionState, nextLoot: nat, dt: real, c: Choice, limit: real, d: DogState, d': DogState) returns (i: nat)
    requires DistinctDogs(s.dogs) && IsChoice(s, nextLoot, dt, c) && InRange(c.events, |c.moved|)
    requires d in s.dogs && d' in PartDone(s, c, limit).dogs && d'.id == d.id
    ensures i < |s.dogs| == |c.moved| && s.dogs[i] == d && Harvested(s, c).dogs[i] == d'
  {
    HarvestKeepsIds(s, nextLoot, dt, c);
    var dogs := Harvested(s, c).dogs;
    i :| 0 <= i < |dogs| && dogs[i] == d';
    var j :| 0 <= j < |s.dogs| && s.dogs[j] == d;
    assert i == j;
  }

  /** The tick is possible, and afterwards `d` is in the session. */
  ghost predicate IsAfterTick(
    g: GameState, m: string, dt: int, order: seq<string>, choices: seq<Choice>, d: DogState)
  {
    && Possible(g, Tick(dt, order, choices))
    && m in Served(g, Tick(dt, order, choices)).sessions
    && d in Served(g, Tick(dt, order, choices)).sessions[m].dogs
  }

  /** A dog that is still there after a tick has had its session's part, with some choice. */
  lemma DogInTick(
    g: GameState, s: SessionState, m: string, dt: int, order: seq<string>, choices: seq<Choice>,
    d: DogState, d': DogState, time: real) returns (c: Choice, nextLoot: nat, i: nat)
    requires m in g.sessions && s == g.sessions[m] && DistinctDogs(s.dogs) && d in s.dogs
    requires IsAfterTick(g, m, dt, order, choices, d') && d'.id == d.id && time == dt as real / MS_IN_SECONDS
    ensures IsChoice(s, nextLoot, time, c) && InRange(c.events, |c.moved|) && time >= 0.0
    ensures i < |s.dogs| == |c.moved| && s.dogs[i] == d && Harvested(s, c).dogs[i] == d'
  {
    c, nextLoot := TickOfSession(Advanced(g, dt), dt, order, choices, m);
    i := DogAfterPart(s, nextLoot, time, c, g.retirementTime, d, d');
  }

  /** It has made one movement, and its haul may have changed. */
  lemma DogAfterTick(
    g: GameState, dt: int, order: seq<string>, choices: seq<Choice>, m: string, d: DogState, d': DogState,
    roads: seq<Road>, time: real) returns (moved: DogState)
    requires GoodIds(g) && m in g.sessions && d in g.sessions[m].dogs
    requires IsAfterTick(g, m, dt, order, choices, d') && d'.id == d.id
    requires roads == g.sessions[m].gameMap.roads && time == dt as real / MS_IN_SECONDS
    ensures DogMoved(roads, time, d, moved) && SameButHaul(moved, d') && moved.position == d'.position && time >= 0.0
  {
    var s := g.sessions[m];
    var c, nextLoot, i := DogInTick(g, s, m, dt, order, choices, d, d', time);
    ReplayChangesOnlyHauls(Start(s, c), c.events, s.gameMap.bagCapacity);
    moved := c.moved[i];
  }
}
