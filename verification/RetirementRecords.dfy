/**
 * The records that a tick writes: on every run exactly the dogs that the tick retires get one, and
 * the play time of a dog that was not restored covers the retirement time.
 */
module RetirementRecords {
  import opened Clocks
  import opened Entities
  import opened GameStates
  import opened Registry
  import opened Replay
  import opened Runs

  /** `r` shows the dog's papers, and the milliseconds between its joining and `clock`. */
  predicate ShowsPapers(r: Record, d: DogState, clock: int) {
    && r.uuid == d.uuid && r.name == d.name
    && (0 <= clock - d.joinTime < TWO_TO_64 ==> r.playTime == clock - d.joinTime)
  }

  /** `r` is the record of the dog `d`, written when the clock of `g` showed the time of retirement. */
  predicate IsRecordOf(r: Record, d: DogState, g: GameState) {
    && ShowsPapers(r, d, g.clock)
    && (d.id !in g.history.restored && g.clock - d.joinTime < TWO_TO_64 ==>
          r.playTime as real >= g.retirementTime * MS_IN_SECONDS)
  }

  lemma RecordShowsPapers(d: DogState, d': DogState, clock: int)
    requires d'.uuid == d.uuid && d'.name == d.name && d'.joinTime == d.joinTime
    ensures ShowsPapers(RecordOf(d', clock), d, clock)
  {
  }

  /** The dog of session `m` was there in `g` and has left in `g'`. */
  predicate HasLeft(g: GameState, g': GameState, m: string, d: DogState) {
    m in g.sessions && m in g'.sessions && d in g.sessions[m].dogs && d.id !in DogsIn(g'.sessions[m])
  }

  ghost predicate HasRecord(g: GameState, g': GameState, d: DogState) {
    exists k :: |g.records| <= k < |g'.records| && IsRecordOf(g'.records[k], d, g')
  }

  ghost predicate IsExplained(g: GameState, g': GameState, r: Record) {
    exists m, d :: HasLeft(g, g', m, d) && IsRecordOf(r, d, g')
  }

  /** Between `g` and `g'` the dogs of the sessions in `done` that have left got records, and nobody else. */
  ghost predicate RecordsMatch(g: GameState, g': GameState, done: set<string>) {
    && g.records <= g'.records
    && (forall k :: |g.records| <= k < |g'.records| ==> IsExplained(g, g', g'.records[k]))
    && forall m, d :: m in done && HasLeft(g, g', m, d) ==> HasRecord(g, g', d)
  }

  // ---- one session's part ----

  lemma HarvestKeepsPapers(s: SessionState, nextLoot: nat, dt: real, c: Choice, i: nat)
    requires IsChoice(s, nextLoot, dt, c) && i < |s.dogs|
    ensures InRange(c.events, |c.moved|) && |c.moved| == |s.dogs|
    ensures var (d, d') := (s.dogs[i], Harvested(s, c).dogs[i]);
      d'.id == d.id && d'.uuid == d.uuid && d'.name == d.name && d'.joinTime == d.joinTime
  {
    EventsInRange(s, nextLoot, dt, c);
    ReplayChangesOnlyHauls(Start(s, c), c.events, s.gameMap.bagCapacity);
    assert DogMoved(s.gameMap.roads, dt, s.dogs[i], c.moved[i]);
    assert SameButHaul(c.moved[i], Harvested(s, c).dogs[i]);
  }

  /** The dogs that leave are the retiring ones. */
  lemma LeavingIsRetiring(g: GameState, mapId: string, dt: real, c: Choice, i: nat)
    requires GoodIds(g) && mapId in g.sessions && i < |g.sessions[mapId].dogs|
    requires IsChoice(g.sessions[mapId], g.counters.loot, dt, c)
    ensures InRange(c.events, |c.moved|) && |c.moved| == |g.sessions[mapId].dogs|
    ensures g.sessions[mapId].dogs[i].id !in DogsIn(AfterTick(g, mapId, c).sessions[mapId])
       <==> Harvested(g.sessions[mapId], c).dogs[i].inactivity >= g.retirementTime
  {
    var s := g.sessions[mapId];
    HarvestKeepsIds(s, g.counters.loot, dt, c);
    SameIdsSameSet(s.dogs, Harvested(s, c).dogs);
    StaysById(Harvested(s, c).dogs, g.retirementTime, i);
  }

  lemma NewRecordIsExplained(g: GameState, mapId: string, dt: int, c: Choice, k: nat)
    requires GoodIds(g) && mapId in g.sessions && dt >= 0
    requires AllOnTime(g.sessions[mapId], g.history, g.clock - dt)
    requires IsChoice(g.sessions[mapId], g.counters.loot, dt as real / MS_IN_SECONDS, c)
    ensures InRange(c.events, |c.moved|)
    ensures |g.records| <= k < |AfterTick(g, mapId, c).records| ==>
              exists d :: HasLeft(g, AfterTick(g, mapId, c), mapId, d)
                          && IsRecordOf(AfterTick(g, mapId, c).records[k], d, AfterTick(g, mapId, c))
  {
    TickRecords(g, mapId, dt, c);
    var (s, g') := (g.sessions[mapId], AfterTick(g, mapId, c));
    var dogs := Harvested(s, c).dogs;
    var gone := Retiring(dogs, g.retirementTime);
    if |g.records| <= k < |g'.records| {
      var d' := gone[k - |g.records|];
      assert d' in gone;
      var i :| 0 <= i < |dogs| && dogs[i] == d';
      HarvestKeepsPapers(s, g.counters.loot, dt as real / MS_IN_SECONDS, c, i);
      LeavingIsRetiring(g, mapId, dt as real / MS_IN_SECONDS, c, i);
      RecordShowsPapers(s.dogs[i], d', g.clock);
      assert g'.records[|g.records| + (k - |g.records|)] == RecordOf(d', g.clock);
      assert HasLeft(g, g', mapId, s.dogs[i]) && IsRecordOf(g'.records[k], s.dogs[i], g');
    }
  }

  lemma LeavingDogHasRecord(g: GameState, mapId: string, dt: int, c: Choice, d: DogState)
    requires GoodIds(g) && mapId in g.sessions && dt >= 0
    requires AllOnTime(g.sessions[mapId], g.history, g.clock - dt)
    requires IsChoice(g.sessions[mapId], g.counters.loot, dt as real / MS_IN_SECONDS, c)
    ensures InRange(c.events, |c.moved|)
    ensures HasLeft(g, AfterTick(g, mapId, c), mapId, d) ==> HasRecord(g, AfterTick(g, mapId, c), d)
  {
    TickRecords(g, mapId, dt, c);
    var (s, g') := (g.sessions[mapId], AfterTick(g, mapId, c));
    var gone := Retiring(Harvested(s, c).dogs, g.retirementTime);
    if HasLeft(g, g', mapId, d) {
      var i :| 0 <= i < |s.dogs| && s.dogs[i] == d;
      HarvestKeepsPapers(s, g.counters.loot, dt as real / MS_IN_SECONDS, c, i);
      LeavingIsRetiring(g, mapId, dt as real / MS_IN_SECONDS, c, i);
      assert Harvested(s, c).dogs[i] in gone;
      var k :| 0 <= k < |gone| && gone[k] == Harvested(s, c).dogs[i];
      RecordShowsPapers(d, gone[k], g.clock);
      assert IsRecordOf(g'.records[|g.records| + k], d, g');
    }
  }

  // ---- a whole tick ----

  /** What the records are measured against does not change within a tick. */
  lemma SameMeasure(b: GameState, mapId: string, c: Choice, r: Record, d: DogState)
    requires mapId in b.sessions && InRange(c.events, |c.moved|)
    ensures IsRecordOf(r, d, b) <==> IsRecordOf(r, d, AfterTick(b, mapId, c))
  {
  }

  lemma OldRecordsStayExplained(g: GameState, b: GameState, done: set<string>, mapId: string, c: Choice, r: Record)
    requires PartlyTicked(g, b, done) && mapId in b.sessions && mapId !in done && InRange(c.events, |c.moved|)
    requires IsExplained(g, b, r)
    ensures IsExplained(g, AfterTick(b, mapId, c), r)
  {
    var b' := AfterTick(b, mapId, c);
    var m, d :| HasLeft(g, b, m, d) && IsRecordOf(r, d, b);
    assert b.sessions[mapId] == g.sessions[mapId] && d.id in DogsIn(g.sessions[m]);
    SameMeasure(b, mapId, c, r, d);
    assert HasLeft(g, b', m, d) && IsRecordOf(r, d, b');
  }

  lemma NewRecordsAreExplained(
    g: GameState, b: GameState, done: set<string>, dt: int, mapId: string, c: Choice, k: nat)
    requires PartlyTicked(g, b, done) && MidTick(b, done, dt) && GoodIds(b) && dt >= 0
    requires mapId in b.sessions && mapId !in done
    requires IsChoice(b.sessions[mapId], b.counters.loot, dt as real / MS_IN_SECONDS, c)
    ensures InRange(c.events, |c.moved|)
    ensures |b.records| <= k < |AfterTick(b, mapId, c).records| ==>
              IsExplained(g, AfterTick(b, mapId, c), AfterTick(b, mapId, c).records[k])
  {
    NewRecordIsExplained(b, mapId, dt, c, k);
    var b' := AfterTick(b, mapId, c);
    if |b.records| <= k < |b'.records| {
      var d :| HasLeft(b, b', mapId, d) && IsRecordOf(b'.records[k], d, b');
      assert HasLeft(g, b', mapId, d);
    }
  }

  lemma LeaverHasRecord(
    g: GameState, b: GameState, done: set<string>, dt: int, mapId: string, c: Choice, d: DogState)
    requires PartlyTicked(g, b, done) && MidTick(b, done, dt) && GoodIds(b) && dt >= 0
    requires g.records <= b.records && mapId in b.sessions && mapId !in done
    requires IsChoice(b.sessions[mapId], b.counters.loot, dt as real / MS_IN_SECONDS, c)
    ensures InRange(c.events, |c.moved|)
    ensures HasLeft(g, AfterTick(b, mapId, c), mapId, d) ==> HasRecord(g, AfterTick(b, mapId, c), d)
  {
    LeavingDogHasRecord(b, mapId, dt, c, d);
    var b' := AfterTick(b, mapId, c);
    if HasLeft(g, b', mapId, d) {
      assert HasLeft(b, b', mapId, d);
      var k :| |b.records| <= k < |b'.records| && IsRecordOf(b'.records[k], d, b');
      assert |g.records| <= k;
    }
  }

  lemma EarlierLeaverHasRecord(
    g: GameState, b: GameState, done: set<string>, mapId: string, c: Choice, m: string, d: DogState)
    requires RecordsMatch(g, b, done) && mapId in b.sessions && m in done && m != mapId
    requires InRange(c.events, |c.moved|) && HasLeft(g, AfterTick(b, mapId, c), m, d)
    ensures HasRecord(g, AfterTick(b, mapId, c), d)
  {
    var b' := AfterTick(b, mapId, c);
    assert HasLeft(g, b, m, d);
    var k :| |g.records| <= k < |b.records| && IsRecordOf(b.records[k], d, b);
    SameMeasure(b, mapId, c, b.records[k], d);
    assert b'.records[k] == b.records[k];
  }

  lemma NextRecords(g: GameState, b: GameState, done: set<string>, dt: int, mapId: string, c: Choice)
    requires PartlyTicked(g, b, done) && MidTick(b, done, dt) && GoodIds(b) && dt >= 0
    requires RecordsMatch(g, b, done) && mapId in b.sessions && mapId !in done
    requires IsChoice(b.sessions[mapId], b.counters.loot, dt as real / MS_IN_SECONDS, c)
    ensures InRange(c.events, |c.moved|)
    ensures RecordsMatch(g, AfterTick(b, mapId, c), done + {mapId})
  {
    EventsInRange(b.sessions[mapId], b.counters.loot, dt as real / MS_IN_SECONDS, c);
    var b' := AfterTick(b, mapId, c);
    assert b.records <= b'.records;
    forall k | |g.records| <= k < |b'.records| ensures IsExplained(g, b', b'.records[k]) {
      if k < |b.records| {
        OldRecordsStayExplained(g, b, done, mapId, c, b.records[k]);
      } else {
        NewRecordsAreExplained(g, b, done, dt, mapId, c, k);
      }
    }
    forall m, d | m in done + {mapId} && HasLeft(g, b', m, d) ensures HasRecord(g, b', d) {
      if m == mapId {
        LeaverHasRecord(g, b, done, dt, mapId, c, d);
      } else {
        EarlierLeaverHasRecord(g, b, done, mapId, c, m, d);
      }
    }
  }

  lemma {:induction false} PrefixRecords(g: GameState, dt: int, order: seq<string>, choices: seq<Choice>)
    requires GoodIds(g) && MidTick(g, {}, dt) && dt >= 0
    requires forall i, j :: 0 <= i < j < |order| ==> order[i] != order[j]
    requires AreChoices(g, dt, order, choices)
    ensures RecordsMatch(g, Ticked(g, order, choices), SetOf(order))
    decreases |order|
  {
    if order == [] {
    } else {
      var n := |order| - 1;
      LastTicked(g, dt, order, choices);
      PrefixKeepsIds(g, dt, order[..n], choices[..n]);
      PrefixTicked(g, dt, order[..n], choices[..n]);
      PrefixRecords(g, dt, order[..n], choices[..n]);
      SetOfWithLast(order);
      NextRecords(g, Ticked(g, order[..n], choices[..n]), SetOf(order[..n]), dt, order[n], choices[n]);
    }
  }

  /**
   * A tick from a reachable state writes records for exactly the dogs that it retires, whatever the
   * order of the sessions, each with a play time that covers the retirement time.
   */
  lemma RetiredDogsGetRecords(g: GameState, requests: seq<Request>, dt: int, order: seq<string>, choices: seq<Choice>)
    requires IsInitial(g) && IsRun(g, requests) && Possible(AfterRun(g, requests), Tick(dt, order, choices))
    ensures var (before, after) := (AfterRun(g, requests), Served(AfterRun(g, requests), Tick(dt, order, choices)));
      && before.records <= after.records
      && (forall k :: |before.records| <= k < |after.records| ==> IsExplained(before, after, after.records[k]))
      && forall m, d :: HasLeft(before, after, m, d) ==> HasRecord(before, after, d)
  {
    var (before, r) := (AfterRun(g, requests), Tick(dt, order, choices));
    RunKeepsInv(g, requests);
    AdvancingIsSound(before, dt);
    PrefixRecords(Advanced(before, dt), dt, order, choices);
    RecordsOfTick(before, dt, order, choices);
  }

  lemma RecordsOfTick(before: GameState, dt: int, order: seq<string>, choices: seq<Choice>)
    requires IsOrder(order, before.sessions) && |choices| == |order|
    requires RecordsMatch(Advanced(before, dt), Ticked(Advanced(before, dt), order, choices), SetOf(order))
    ensures var after := Ticked(Advanced(before, dt), order, choices);
      && before.records <= after.records
      && (forall k :: |before.records| <= k < |after.records| ==> IsExplained(before, after, after.records[k]))
      && forall m, d :: HasLeft(before, after, m, d) ==> HasRecord(before, after, d)
  {
    var (a, after) := (Advanced(before, dt), Ticked(Advanced(before, dt), order, choices));
    forall k | |before.records| <= k < |after.records| ensures IsExplained(before, after, after.records[k]) {
      assert IsExplained(a, after, after.records[k]);
      var m, d :| HasLeft(a, after, m, d) && IsRecordOf(after.records[k], d, after);
      assert HasLeft(before, after, m, d);
    }
    forall m, d | HasLeft(before, after, m, d) ensures HasRecord(before, after, d) {
      assert HasLeft(a, after, m, d) && m in SetOf(order);
      assert HasRecord(a, after, d);
    }
  }
}
