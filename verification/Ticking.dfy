/** A tick of the running game, session after session. */
module Ticking {
  import opened Entities
  import opened GameServer
  import opened GameStates
  import opened LootGeneration
  import opened Motion
  import opened PlayerRegistry
  import opened Registry
  import opened Removal
  import opened Replay
  import opened Retirement
  import opened Runs
  import opened Sessions
  import opened Terrain

  /** Two sessions never share a dog object. */
  lemma SessionsShareNoDogs(table: SessionTable, g: GameState, m1: string, m2: string)
    requires ShowsSessions(table, g.sessions) && GoodIds(g) && m1 in table && m2 in table && m1 != m2
    ensures forall d :: d in table[m1].dogs ==> d !in table[m2].dogs
  {
    forall d | d in table[m1].dogs ensures d !in table[m2].dogs {
      DogIsShown(table, g, m1, d);
      if d in table[m2].dogs { DogIsShown(table, g, m2, d); }
    }
  }

  /** Any other session is a different object with different dogs. */
  ghost predicate AreApart(table: SessionTable, m: string)
    requires m in table
    reads table.Values
  {
    forall k :: k in table && k != m ==> table[k] != table[m] && forall d :: d in table[k].dogs ==> d !in table[m].dogs
  }

  lemma OthersAreApart(table: SessionTable, g: GameState, m: string)
    requires ShowsSessions(table, g.sessions) && GoodIds(g) && m in table
    ensures AreApart(table, m)
  {
    forall k | k in table && k != m
      ensures table[k] != table[m] && forall d :: d in table[k].dogs ==> d !in table[m].dogs
    {
      SessionsShareNoDogs(table, g, k, m);
      assert table[k].gameMap.id != table[m].gameMap.id;
    }
  }

  /** What happens to one session's objects does not show in the others. */
  twostate lemma OthersStayShown(table: SessionTable, new states: map<string, SessionState>, new m: string)
    requires m in table && table.Keys == states.Keys
    requires forall k :: k in table && k != m ==> table[k].loot == old(table[k].loot)
    requires forall k :: k in table && k != m ==> table[k].dogs == old(table[k].dogs)
    requires forall d: Dog :: old(allocated(d)) && d !in old(table[m].dogs) ==> d.State() == old(d.State())
    ensures old(ShowsSessions(table, states) && AreApart(table, m))
        ==> forall k :: k in table && k != m ==> ShowsSession(table[k], states[k])
  {
    if old(ShowsSessions(table, states) && AreApart(table, m)) {
      forall k | k in table && k != m ensures ShowsSession(table[k], states[k]) {
        var other := table[k];
        assert old(ShowsSession(other, states[k]));
        forall i | 0 <= i < |other.dogs| ensures other.dogs[i].State() == states[k].dogs[i] {
          assert old(other.dogs[i]) !in old(table[m].dogs);
          assert other.dogs[i].State() == old(other.dogs[i].State());
        }
        SessionIsShown(other, states[k]);
      }
    }
  }

  lemma OneSessionChanged(table: SessionTable, states: map<string, SessionState>, m: string, s: SessionState)
    requires m in table && table.Keys == states.Keys && forall k :: k in table ==> table[k].gameMap.id == k
    requires ShowsSession(table[m], s) && forall k :: k in table && k != m ==> ShowsSession(table[k], states[k])
    ensures ShowsSessions(table, states[m := s])
  {
  }

  lemma DogIsShown(table: SessionTable, g: GameState, m: string, d: Dog)
    requires ShowsSessions(table, g.sessions) && m in table && d in table[m].dogs
    ensures d.State() in g.sessions[m].dogs && d.id in DogsIn(g.sessions[m])
  {
    assert ShowsSession(table[m], g.sessions[m]);
    var i :| 0 <= i < |table[m].dogs| && table[m].dogs[i] == d;
    assert g.sessions[m].dogs[i] == d.State();
  }

  lemma DogsHaveDistinctIds(table: SessionTable, g: GameState, m: string)
    requires ShowsSessions(table, g.sessions) && GoodIds(g) && m in table
    ensures DistinctKeys(table[m].dogs, IdOf) && DistinctObjects(table[m].dogs)
  {
    assert ShowsSession(table[m], g.sessions[m]) && DistinctDogs(g.sessions[m].dogs);
    forall i, j | 0 <= i < j < |table[m].dogs| ensures IdOf(table[m].dogs[i]) != IdOf(table[m].dogs[j]) {
      assert g.sessions[m].dogs[i].id != g.sessions[m].dogs[j].id;
    }
  }

  lemma PlayersHaveDistinctDogs(players: seq<Player>, g: GameState)
    requires Views(players) == g.players && GoodIds(g)
    ensures DistinctKeys(players, DogIdOf)
  {
    forall i, j | 0 <= i < j < |players| ensures DogIdOf(players[i]) != DogIdOf(players[j]) {
      assert g.players[i].dogId != g.players[j].dogId;
    }
  }

  lemma PlayerIsHere(table: SessionTable, g: GameState, m: string, p: Player)
    requires ShowsSessions(table, g.sessions) && IsLinked(table, p)
    requires GoodIds(g) && m in table && p.dog.id in IdSet(table[m].dogs)
    ensures p.session == table[m]
  {
    var k := p.session.gameMap.id;
    DogIsShown(table, g, k, p.dog);
    var d :| d in table[m].dogs && d.id == p.dog.id;
    DogIsShown(table, g, m, d);
  }

  lemma DogHasPlayer(table: SessionTable, players: seq<Player>, g: GameState, m: string, d: Dog)
    requires ShowsSessions(table, g.sessions) && Views(players) == g.players
    requires GoodLinks(g) && m in table && d in table[m].dogs
    ensures exists p :: p in players && p.dog.id == d.id
  {
    DogIsShown(table, g, m, d);
    assert HasOwner(g, g.sessions[m].id, d.id);
    var v :| v in g.players && v.dogId == d.id;
    var i :| 0 <= i < |g.players| && g.players[i] == v;
    assert players[i].dog.id == d.id;
  }

  lemma PlayersFitSession(table: SessionTable, players: seq<Player>, g: GameState, m: string)
    requires ShowsSessions(table, g.sessions) && Views(players) == g.players && AllLinked(table, players)
    requires GoodIds(g) && GoodLinks(g) && m in table
    ensures OwnsItsDogs(players, table[m], table[m].dogs)
  {
    forall p | p in players && p.dog.id in IdSet(table[m].dogs) ensures p.session == table[m] {
      PlayerIsHere(table, g, m, p);
    }
    forall d | d in table[m].dogs ensures exists p :: p in players && p.dog.id == d.id {
      DogHasPlayer(table, players, g, m, d);
    }
  }

  lemma DogsAreCoherent(table: SessionTable, g: GameState, m: string)
    requires ShowsSessions(table, g.sessions) && GoodTerrain(g) && m in table
    ensures forall i :: 0 <= i < |table[m].dogs| ==> Coherent(table[m].dogs[i].direction, table[m].dogs[i].speed)
  {
    forall i | 0 <= i < |table[m].dogs| ensures Coherent(table[m].dogs[i].direction, table[m].dogs[i].speed) {
      DogIsShown(table, g, m, table[m].dogs[i]);
      assert GoodDogs(g.maps[m], g.sessions[m].dogs);
    }
  }

  /** The session after movement, new loot and collisions. */
  ghost function Played(s: SessionState, c: Choice): SessionState
    requires InRange(c.events, |c.moved|)
  {
    s.(dogs := Harvested(s, c).dogs, loot := Harvested(s, c).ground)
  }

  /** What a session's part of the tick draws from the random generators. */
  datatype Draw = Draw(random: real, loot: nat -> LootDraw)

  /** The new loot of a session is what it draws, and as much as the generator yields. */
  ghost predicate FollowsDraw(
    generator: LootGenerator, s: SessionState, c: Choice, draw: Draw, before: int, after: int, dt: int)
  {
    && IsDrawn(s.gameMap, draw.loot, c.spawned)
    && IsYield(generator, |s.loot|, |s.dogs|, c.spawned, before, after, dt, draw.random)
  }

  method PlayApart(session: GameSession, timeDelta: int, generator: LootGenerator, draw: Draw, nextLoot: nat,
                   ghost table: SessionTable, ghost m: string,
                   ghost states: map<string, SessionState>)
    returns (count: nat, ghost c: Choice)
    requires ShowsSessions(table, states) && m in table && table[m] == session && AreApart(table, m)
    requires DistinctObjects(session.dogs) && AreLootDraws(session.gameMap, draw.loot)
    requires forall i :: 0 <= i < |session.dogs| ==> Coherent(session.dogs[i].direction, session.dogs[i].speed)
    requires timeDelta >= 0 && generator.baseInterval > 0
    modifies session`loot, session.dogs, generator`timeWithoutLoot
    ensures IsChoice(states[m], nextLoot, timeDelta as real / MS_IN_SECONDS, c)
    ensures InRange(c.events, |c.moved|) && count == |c.spawned|
    ensures ShowsSessions(table, states[m := Played(states[m], c)])
    ensures FollowsDraw(generator, states[m], c, draw,
                        old(generator.timeWithoutLoot), generator.timeWithoutLoot, timeDelta)
  {
    assert ShowsSession(session, states[m]);
    count, c := PlayTick(session, timeDelta, generator, draw.random, nextLoot, draw.loot, states[m]);
    OthersStayShown(table, states, m);
    OneSessionChanged(table, states, m, Played(states[m], c));
  }

  method PlaySession(session: GameSession, timeDelta: int, generator: LootGenerator, draw: Draw, nextLoot: nat,
                     ghost table: SessionTable, ghost mapId: string, ghost g: GameState)
    returns (count: nat, ghost c: Choice)
    requires ShowsSessions(table, g.sessions) && GoodIds(g) && GoodTerrain(g)
    requires mapId in table && table[mapId] == session && AreLootDraws(session.gameMap, draw.loot)
    requires timeDelta >= 0 && generator.baseInterval > 0
    modifies session`loot, session.dogs, generator`timeWithoutLoot
    ensures IsChoice(g.sessions[mapId], nextLoot, timeDelta as real / MS_IN_SECONDS, c)
    ensures InRange(c.events, |c.moved|) && count == |c.spawned|
    ensures ShowsSessions(table, g.sessions[mapId := Played(g.sessions[mapId], c)])
    ensures FollowsDraw(generator, g.sessions[mapId], c, draw,
                        old(generator.timeWithoutLoot), generator.timeWithoutLoot, timeDelta)
  {
    DogsHaveDistinctIds(table, g, mapId);
    DogsAreCoherent(table, g, mapId);
    OthersAreApart(table, g, mapId);
    count, c := PlayApart(session, timeDelta, generator, draw, nextLoot, table, mapId, g.sessions);
  }

  ghost predicate DogsAreAmong(table: SessionTable, all: set<Dog>)
    reads table.Values
  {
    forall m :: m in table ==> DogSet(table[m].dogs) <= all
  }

  /** Sessions are apart, players are linked, and the session's dogs have players of this session. */
  ghost predicate ReadyToRetire(table: SessionTable, m: string, players: seq<Player>)
    requires m in table
    reads table.Values, set p | p in players :: p.session
  {
    && AreApart(table, m) && AllLinked(table, players)
    && DistinctKeys(table[m].dogs, IdOf) && DistinctKeys(players, DogIdOf)
    && OwnsItsDogs(players, table[m], table[m].dogs)
  }

  lemma SessionIsReady(table: SessionTable, m: string, players: seq<Player>, g: GameState)
    requires ShowsSessions(table, g.sessions) && Views(players) == g.players && AllLinked(table, players)
    requires GoodIds(g) && GoodLinks(g) && m in table
    ensures ReadyToRetire(table, m, players)
  {
    OthersAreApart(table, g, m);
    DogsHaveDistinctIds(table, g, m);
    PlayersHaveDistinctDogs(players, g);
    PlayersFitSession(table, players, g, m);
  }

  /** Readiness is about who is in which list, so nothing that leaves the lists alone affects it. */
  twostate lemma StaysReady(game: Game, new m: string, new all: set<Dog>)
    requires game.sessions == old(game.sessions) && game.registry.players == old(game.registry.players)
    requires m in game.sessions && old(ReadyToRetire(game.sessions, m, game.registry.players))
    requires forall k :: k in game.sessions ==> old(DogSet(game.sessions[k].dogs)) <= all
    requires forall s: GameSession :: old(allocated(s)) ==> s.dogs == old(s.dogs)
    ensures ReadyToRetire(game.sessions, m, game.registry.players) && DogsAreAmong(game.sessions, all)
  {
    forall p | p in game.registry.players ensures IsLinked(game.sessions, p) {
      assert old(IsLinked(game.sessions, p));
    }
    forall k | k in game.sessions ensures DogSet(game.sessions[k].dogs) <= all {
      assert old(DogSet(game.sessions[k].dogs)) <= all;
    }
  }

  /** Players stay linked where their sessions have only lost dogs that are not theirs. */
  twostate lemma RemainingLinks(w: (SessionTable, seq<Player>), new m: string, new gone: set<nat>, new all: set<Dog>)
    requires old(AllLinked(w.0, w.1)) && m in w.0
    requires forall k :: k in w.0 ==> old(DogSet(w.0[k].dogs)) <= all
    requires forall k :: k in w.0 && k != m ==> w.0[k].dogs == old(w.0[k].dogs)
    requires w.0[m].dogs == Without(old(w.0[m].dogs), IdOf, gone)
    ensures AllLinked(w.0, Without(w.1, DogIdOf, gone)) && DogsAreAmong(w.0, all)
  {
    forall p | p in Without(w.1, DogIdOf, gone) ensures IsLinked(w.0, p) {
      assert p in w.1 && old(IsLinked(w.0, p)) && IdOf(p.dog) == DogIdOf(p);
    }
    forall k | k in w.0 ensures DogSet(w.0[k].dogs) <= all {
      assert old(DogSet(w.0[k].dogs)) <= all;
    }
  }

  method RetirePlayers(session: GameSession, registry: Players, limit: real, clock: int,
                       ghost table: SessionTable, ghost m: string, ghost states: seq<DogState>, ghost all: set<Dog>)
    returns (written: seq<Record>, ghost gone: seq<DogState>)
    requires m in table && table[m] == session && ReadyToRetire(table, m, registry.players) && DogsAreAmong(table, all)
    requires states == DogStates(session.dogs)
    modifies session`dogs, registry`players
    ensures gone == Retiring(states, limit) && written == RecordsOf(gone, clock)
    ensures DogStates(session.dogs) == Staying(states, limit)
    ensures Views(registry.players) == PlayersWithout(old(Views(registry.players)), IdsOf(gone))
    ensures AllLinked(table, registry.players) && DogsAreAmong(table, all) && registry.counter == old(registry.counter)
  {
    ghost var players := registry.players;
    ghost var ids;
    written, ids := RemoveInactiveDogs(session, registry, limit, clock, states);
    gone := Retiring(states, limit);
    ViewsWithout(players, ids);
    RemainingLinks((table, players), m, ids, all);
  }

  method RetireSession(session: GameSession, registry: Players, limit: real, clock: int, ghost table: SessionTable,
                       ghost mapId: string, ghost states: map<string, SessionState>, ghost all: set<Dog>)
    returns (written: seq<Record>, ghost gone: seq<DogState>)
    requires ShowsSessions(table, states) && mapId in table && table[mapId] == session
    requires ReadyToRetire(table, mapId, registry.players) && DogsAreAmong(table, all)
    modifies session`dogs, registry`players
    ensures gone == Retiring(states[mapId].dogs, limit) && written == RecordsOf(gone, clock)
    ensures ShowsSessions(table, states[mapId := states[mapId].(dogs := Staying(states[mapId].dogs, limit))])
    ensures Views(registry.players) == PlayersWithout(old(Views(registry.players)), IdsOf(gone))
    ensures AllLinked(table, registry.players) && DogsAreAmong(table, all) && registry.counter == old(registry.counter)
  {
    ghost var s := states[mapId];
    assert ShowsSession(session, s);
    written, gone := RetirePlayers(session, registry, limit, clock, table, mapId, s.dogs, all);
    OthersStayShown(table, states, mapId);
    OneSessionChanged(table, states, mapId, s.(dogs := Staying(s.dogs, limit)));
  }

  lemma TickParts(g: GameState, mapId: string, c: Choice)
    requires mapId in g.sessions && InRange(c.events, |c.moved|)
    ensures var (g', s, played) := (AfterTick(g, mapId, c), g.sessions[mapId], Played(g.sessions[mapId], c));
      var gone := Retiring(played.dogs, g.retirementTime);
      && g'.maps == g.maps && g'.retirementTime == g.retirementTime && g'.clock == g.clock
      && g'.sessions == g.sessions[mapId := played][mapId := played.(dogs := Staying(played.dogs, g.retirementTime))]
      && g'.players == PlayersWithout(g.players, IdsOf(gone))
      && g'.records == g.records + RecordsOf(gone, g.clock)
      && g'.counters == g.counters.(loot := g.counters.loot + |c.spawned|)
  {
  }

  /** Apart from its sessions the game shows the state `g`. */
  ghost predicate ShowsRest(game: Game, g: GameState)
    reads game, game.registry
  {
    && g.maps == game.maps && g.retirementTime == game.retirementTime && g.clock == game.clock
    && g.records == game.records && g.counters == game.Counts() && g.players == Views(game.registry.players)
  }

  /** The first half: movement, new loot, collisions. The lists of dogs and players stay as they are. */
  method PlayReady(game: Game, session: GameSession, timeDelta: int, draw: Draw, ghost mapId: string,
                   ghost all: set<Dog>, ghost g: GameState)
    returns (count: nat, ghost c: Choice)
    requires game.Shows(g) && AllLinked(game.sessions, game.registry.players) && DogsAreAmong(game.sessions, all)
    requires GoodIds(g) && GoodLinks(g) && GoodTerrain(g)
    requires mapId in game.sessions && game.sessions[mapId] == session
    requires AreLootDraws(session.gameMap, draw.loot)
    requires timeDelta >= 0 && game.generator.baseInterval > 0
    modifies game.generator`timeWithoutLoot, session`loot, session.dogs
    ensures IsChoice(g.sessions[mapId], g.counters.loot, timeDelta as real / MS_IN_SECONDS, c)
    ensures InRange(c.events, |c.moved|) && count == |c.spawned|
    ensures ShowsSessions(game.sessions, g.sessions[mapId := Played(g.sessions[mapId], c)])
    ensures ReadyToRetire(game.sessions, mapId, game.registry.players) && DogsAreAmong(game.sessions, all)
    ensures ShowsRest(game, g)
    ensures FollowsDraw(game.generator, g.sessions[mapId], c, draw,
                        old(game.generator.timeWithoutLoot), game.generator.timeWithoutLoot, timeDelta)
  {
    SessionIsReady(game.sessions, mapId, game.registry.players, g);
    count, c := PlaySession(session, timeDelta, game.generator, draw, game.lootCounter, game.sessions, mapId, g);
    StaysReady(game, mapId, all);
  }

  /** Writes the records and advances the loot counter: from what `before` shows to what `g` shows. */
  method Book(game: Game, written: seq<Record>, count: nat, ghost all: set<Dog>, ghost before: GameState,
              ghost g: GameState)
    requires before.maps == game.maps && before.retirementTime == game.retirementTime && before.clock == game.clock
    requires before.records == game.records && before.counters == game.Counts()
    requires g.maps == before.maps && g.retirementTime == before.retirementTime && g.clock == before.clock
    requires g.records == before.records + written
    requires g.counters == before.counters.(loot := before.counters.loot + count)
    requires g.players == Views(game.registry.players) && ShowsSessions(game.sessions, g.sessions)
    requires AllLinked(game.sessions, game.registry.players) && DogsAreAmong(game.sessions, all)
    modifies game`records, game`lootCounter
    ensures game.Shows(g) && AllLinked(game.sessions, game.registry.players) && DogsAreAmong(game.sessions, all)
  {
    game.records, game.lootCounter := game.records + written, game.lootCounter + count;
    UntouchedSessions(game.sessions, g.sessions);
    UntouchedLinks((game.sessions, game.registry.players));
    game.IsShown(g);
  }

  method RetireUnbooked(game: Game, session: GameSession, ghost mapId: string, ghost c: Choice, ghost all: set<Dog>,
                        ghost g: GameState)
    returns (written: seq<Record>, ghost g': GameState)
    requires mapId in g.sessions && InRange(c.events, |c.moved|)
    requires g.retirementTime == game.retirementTime && g.clock == game.clock
    requires g.players == Views(game.registry.players) && mapId in game.sessions && game.sessions[mapId] == session
    requires ShowsSessions(game.sessions, g.sessions[mapId := Played(g.sessions[mapId], c)])
    requires ReadyToRetire(game.sessions, mapId, game.registry.players) && DogsAreAmong(game.sessions, all)
    modifies game.registry`players, session`dogs
    ensures g' == AfterTick(g, mapId, c)
    ensures g'.maps == g.maps && g'.retirementTime == g.retirementTime && g'.clock == g.clock
    ensures g'.records == g.records + written && g'.counters == g.counters.(loot := g.counters.loot + |c.spawned|)
    ensures g'.players == Views(game.registry.players) && ShowsSessions(game.sessions, g'.sessions)
    ensures AllLinked(game.sessions, game.registry.players) && DogsAreAmong(game.sessions, all)
    ensures game.Counts() == old(game.Counts())
  {
    ghost var gone;
    written, gone := RetireSession(session, game.registry, game.retirementTime, game.clock, game.sessions, mapId,
                                   g.sessions[mapId := Played(g.sessions[mapId], c)], all);
    g' := AfterTick(g, mapId, c);
    TickParts(g, mapId, c);
  }

  /** The second half: retirement, records and the loot counter. */
  method RetireAndBook(game: Game, session: GameSession, count: nat, ghost mapId: string, ghost c: Choice,
                       ghost all: set<Dog>, ghost g: GameState)
    returns (ghost g': GameState)
    requires mapId in g.sessions && InRange(c.events, |c.moved|) && count == |c.spawned|
    requires ShowsRest(game, g) && mapId in game.sessions && game.sessions[mapId] == session
    requires ShowsSessions(game.sessions, g.sessions[mapId := Played(g.sessions[mapId], c)])
    requires ReadyToRetire(game.sessions, mapId, game.registry.players) && DogsAreAmong(game.sessions, all)
    modifies game`records, game`lootCounter, game.registry`players, session`dogs
    ensures g' == AfterTick(g, mapId, c)
    ensures game.Shows(g') && AllLinked(game.sessions, game.registry.players) && DogsAreAmong(game.sessions, all)
  {
    var written;
    written, g' := RetireUnbooked(game, session, mapId, c, all, g);
    Book(game, written, count, all, g, g');
  }

  /** The session filed for map `m` has its part of the tick; no new dogs appear. */
  method UpdateSession(game: Game, timeDelta: int, m: string, draw: Draw, ghost all: set<Dog>, ghost g: GameState)
    returns (ghost c: Choice, ghost g': GameState, ghost after: int)
    requires game.Shows(g) && AllLinked(game.sessions, game.registry.players) && DogsAreAmong(game.sessions, all)
    requires GoodIds(g) && GoodLinks(g) && GoodTerrain(g)
    requires m in game.sessions && AreLootDraws(game.sessions[m].gameMap, draw.loot)
    requires timeDelta >= 0 && game.generator.baseInterval > 0
    modifies game`records, game`lootCounter, game.registry`players, game.generator`timeWithoutLoot
    modifies game.sessions.Values, all
    ensures IsChoice(g.sessions[m], g.counters.loot, timeDelta as real / MS_IN_SECONDS, c)
    ensures InRange(c.events, |c.moved|) && g' == AfterTick(g, m, c)
    ensures game.Shows(g') && AllLinked(game.sessions, game.registry.players) && DogsAreAmong(game.sessions, all)
    ensures FollowsDraw(game.generator, g.sessions[m], c, draw, old(game.generator.timeWithoutLoot), after, timeDelta)
    ensures after == game.generator.timeWithoutLoot
  {
    var session := game.sessions[m];
    assert DogSet(session.dogs) <= all;
    var count;
    count, c := PlayReady(game, session, timeDelta, draw, m, all, g);
    after := game.generator.timeWithoutLoot;
    g' := RetireAndBook(game, session, count, m, c, all, g);
  }

  lemma OneMoreChoice(g: GameState, dt: int, order: seq<string>, n: nat, choices: seq<Choice>, c: Choice)
    requires n < |order| && AreChoices(g, dt, order[..n], choices)
    requires |choices| == n && order[n] in Ticked(g, order[..n], choices).sessions
    requires var before := Ticked(g, order[..n], choices);
      && IsChoice(before.sessions[order[n]], before.counters.loot, dt as real / MS_IN_SECONDS, c)
      && InRange(c.events, |c.moved|)
    ensures AreChoices(g, dt, order[..n + 1], choices + [c])
    ensures Ticked(g, order[..n + 1], choices + [c]) == AfterTick(Ticked(g, order[..n], choices), order[n], c)
  {
    assert order[..n + 1][..n] == order[..n] && (choices + [c])[..n] == choices;
  }

  /**
   * The sessions follow their draws one after the other. They share the generator: each session's
   * part moves its clock on, and new loot in one of them sets it back for all.
   */
  ghost predicate FollowDraws(
    generator: LootGenerator, g: GameState, dt: int, order: seq<string>, choices: seq<Choice>,
    draws: string -> Draw, before: int, after: int)
    requires |choices| == |order|
    decreases |order|
  {
    if order == [] then after == before
    else
      var n := |order| - 1;
      var b := Ticked(g, order[..n], choices[..n]);
      && order[n] in b.sessions
      && exists mid: int ::
           && FollowDraws(generator, g, dt, order[..n], choices[..n], draws, before, mid)
           && FollowsDraw(generator, b.sessions[order[n]], choices[n], draws(order[n]), mid, after, dt)
  }

  /** The sessions in `order` have had their parts, and `now` is the state they have led to. */
  ghost predicate AreTurns(
    generator: LootGenerator, g: GameState, dt: int, order: seq<string>, choices: seq<Choice>, now: GameState,
    draws: string -> Draw, before: int, after: int)
  {
    && |choices| == |order| && AreChoices(g, dt, order, choices) && now == Ticked(g, order, choices)
    && FollowDraws(generator, g, dt, order, choices, draws, before, after)
  }

  lemma OneMoreTurn(
    generator: LootGenerator, g: GameState, dt: int, order: seq<string>, n: nat, choices: seq<Choice>, now: GameState,
    c: Choice, draws: string -> Draw, before: int, mid: int, after: int)
    requires n < |order| && AreTurns(generator, g, dt, order[..n], choices, now, draws, before, mid)
    requires order[n] in now.sessions && InRange(c.events, |c.moved|)
    requires IsChoice(now.sessions[order[n]], now.counters.loot, dt as real / MS_IN_SECONDS, c)
    requires FollowsDraw(generator, now.sessions[order[n]], c, draws(order[n]), mid, after, dt)
    ensures AreTurns(generator, g, dt, order[..n + 1], choices + [c], AfterTick(now, order[n], c), draws, before, after)
  {
    OneMoreChoice(g, dt, order, n, choices, c);
    OneMoreDraw(generator, g, dt, order, n, choices, c, draws, before, mid, after);
  }

  lemma OneMoreDraw(
    generator: LootGenerator, g: GameState, dt: int, order: seq<string>, n: nat, choices: seq<Choice>, c: Choice,
    draws: string -> Draw, before: int, mid: int, after: int)
    requires n < |order| && |choices| == n && order[n] in Ticked(g, order[..n], choices).sessions
    requires FollowDraws(generator, g, dt, order[..n], choices, draws, before, mid)
    requires FollowsDraw(generator, Ticked(g, order[..n], choices).sessions[order[n]], c, draws(order[n]),
                         mid, after, dt)
    ensures FollowDraws(generator, g, dt, order[..n + 1], choices + [c], draws, before, after)
  {
    assert order[..n + 1][..n] == order[..n] && (choices + [c])[..n] == choices;
  }

  /** What movement and collisions rely on. */
  ghost predicate Healthy(g: GameState) { GoodIds(g) && GoodLinks(g) && GoodTerrain(g) }

  lemma TickKeepsHealthy(g: GameState, mapId: string, dt: real, c: Choice)
    requires Healthy(g) && mapId in g.sessions && dt >= 0.0
    requires IsChoice(g.sessions[mapId], g.counters.loot, dt, c) && InRange(c.events, |c.moved|)
    ensures Healthy(AfterTick(g, mapId, c)) && AfterTick(g, mapId, c).sessions.Keys == g.sessions.Keys
  {
    TickKeepsIds(g, mapId, dt, c);
    TickKeepsLinks(g, mapId, dt, c);
    TickKeepsTerrain(g, mapId, dt, c);
  }

  lemma LastTickKeepsHealthy(g: GameState, dt: int, order: seq<string>, choices: seq<Choice>, b: GameState)
    requires order != [] && dt >= 0 && AreChoices(g, dt, order, choices)
    requires b == Ticked(g, order[..|order| - 1], choices[..|order| - 1]) && Healthy(b)
    ensures Healthy(Ticked(g, order, choices))
  {
    LastTicked(g, dt, order, choices);
    TickKeepsHealthy(b, order[|order| - 1], dt as real / MS_IN_SECONDS, choices[|order| - 1]);
  }

  lemma {:induction false} PrefixIsHealthy(g: GameState, dt: int, order: seq<string>, choices: seq<Choice>)
    requires Healthy(g) && dt >= 0 && |choices| == |order| && AreChoices(g, dt, order, choices)
    ensures Healthy(Ticked(g, order, choices))
    decreases |order|
  {
    if order == [] {
    } else {
      var n := |order| - 1;
      PrefixIsHealthy(g, dt, order[..n], choices[..n]);
      LastTickKeepsHealthy(g, dt, order, choices, Ticked(g, order[..n], choices[..n]));
    }
  }

  /** The session whose turn it is has its part of the tick. */
  lemma TurnsKeepHealthy(
    generator: LootGenerator, g: GameState, dt: int, order: seq<string>, choices: seq<Choice>, now: GameState,
    draws: string -> Draw, before: int, after: int)
    requires AreTurns(generator, g, dt, order, choices, now, draws, before, after) && Healthy(g) && dt >= 0
    ensures Healthy(now)
  {
    PrefixIsHealthy(g, dt, order, choices);
  }

  lemma NoTurns(
    generator: LootGenerator, g: GameState, dt: int, order: seq<string>, draws: string -> Draw, before: int)
    ensures AreTurns(generator, g, dt, order[..0], [], g, draws, before, before)
  {
  }

  method UpdateTurn(game: Game, timeDelta: int, order: seq<string>, n: nat, draws: string -> Draw,
                    ghost all: set<Dog>, ghost g: GameState, ghost choices: seq<Choice>, ghost now: GameState,
                    ghost before: int)
    returns (ghost choices': seq<Choice>, ghost now': GameState)
    requires n < |order| && timeDelta >= 0 && game.generator.baseInterval > 0
    requires AreTurns(game.generator, g, timeDelta, order[..n], choices, now, draws,
                      before, game.generator.timeWithoutLoot)
    requires Healthy(g) && game.Shows(now)
    requires AllLinked(game.sessions, game.registry.players) && DogsAreAmong(game.sessions, all)
    requires order[n] in game.sessions && AreLootDraws(game.sessions[order[n]].gameMap, draws(order[n]).loot)
    modifies game`records, game`lootCounter, game.registry`players, game.generator`timeWithoutLoot
    modifies game.sessions.Values, all
    ensures AreTurns(game.generator, g, timeDelta, order[..n + 1], choices', now', draws,
                     before, game.generator.timeWithoutLoot)
    ensures game.Shows(now') && AllLinked(game.sessions, game.registry.players) && DogsAreAmong(game.sessions, all)
  {
    ghost var c, after;
    ghost var mid := game.generator.timeWithoutLoot;
    TurnsKeepHealthy(game.generator, g, timeDelta, order[..n], choices, now, draws, before, mid);
    c, now', after := UpdateSession(game, timeDelta, order[n], draws(order[n]), all, now);
    choices' := choices + [c];
    OneMoreTurn(game.generator, g, timeDelta, order, n, choices, now, c, draws, before, mid, after);
  }

  /** The loop over the sessions; `all` are the dogs there are. */
  method UpdateInTurn(game: Game, timeDelta: int, order: seq<string>, draws: string -> Draw,
                      ghost all: set<Dog>, ghost g: GameState)
    returns (ghost choices: seq<Choice>, ghost now: GameState)
    requires game.Shows(g) && AllLinked(game.sessions, game.registry.players) && DogsAreAmong(game.sessions, all)
    requires Healthy(g) && (forall m :: m in order ==> m in game.sessions)
    requires timeDelta >= 0 && game.generator.baseInterval > 0
    requires forall m :: m in game.sessions ==> AreLootDraws(game.sessions[m].gameMap, draws(m).loot)
    modifies game`records, game`lootCounter, game.registry`players, game.generator`timeWithoutLoot
    modifies game.sessions.Values, all
    ensures AreTurns(game.generator, g, timeDelta, order, choices, now, draws,
                     old(game.generator.timeWithoutLoot), game.generator.timeWithoutLoot)
    ensures game.Shows(now) && AllLinked(game.sessions, game.registry.players)
  {
    choices := [];
    now := g;
    ghost var before := game.generator.timeWithoutLoot;
    NoTurns(game.generator, g, timeDelta, order, draws, before);
    for n := 0 to |order|
      invariant AreTurns(game.generator, g, timeDelta, order[..n], choices, now, draws,
                         before, game.generator.timeWithoutLoot)
      invariant game.Shows(now) && AllLinked(game.sessions, game.registry.players) && DogsAreAmong(game.sessions, all)
    {
      choices, now := UpdateTurn(game, timeDelta, order, n, draws, all, g, choices, now, before);
    }
    assert order[..|order|] == order;
  }

  method UpdateAll(game: Game, timeDelta: int, order: seq<string>, draws: string -> Draw, ghost g: GameState)
    returns (ghost choices: seq<Choice>)
    requires game.Shows(g) && AllLinked(game.sessions, game.registry.players) && Healthy(g)
    requires IsOrder(order, g.sessions) && timeDelta >= 0 && game.generator.baseInterval > 0
    requires forall m :: m in game.sessions ==> AreLootDraws(game.sessions[m].gameMap, draws(m).loot)
    modifies game`records, game`lootCounter, game.registry`players, game.generator`timeWithoutLoot
    modifies game.sessions.Values, DogObjects(game.sessions)
    ensures |choices| == |order| && AreChoices(g, timeDelta, order, choices)
    ensures game.Shows(Ticked(g, order, choices)) && AllLinked(game.sessions, game.registry.players)
    ensures FollowDraws(game.generator, g, timeDelta, order, choices, draws,
                        old(game.generator.timeWithoutLoot), game.generator.timeWithoutLoot)
  {
    ghost var now;
    choices, now := UpdateInTurn(game, timeDelta, order, draws, DogObjects(game.sessions), g);
  }
}
