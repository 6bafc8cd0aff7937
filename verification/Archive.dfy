/** Writing the running game to a save file, and building the objects again from one. */
module Archive {
  import opened Crashes
  import opened Entities
  import opened GameServer
  import opened GameStates
  import opened Options
  import opened Persistence
  import opened PlayerRegistry
  import opened Registry
  import opened Sessions
  import opened Terrain

  // ---- writing ----

  method SaveLoots(loot: seq<Loot>, c: Counters) returns (reprs: seq<LootRepr>)
    ensures reprs == SavedLoots(loot, c)
  {
    reprs := [];
    for i := 0 to |loot|
      invariant |reprs| == i && forall j :: 0 <= j < i ==> reprs[j] == SavedLoot(loot[j], c)
    {
      reprs := reprs + [LootRepr(loot[i].kind, loot[i].id, loot[i].value, loot[i].position, loot[i].width, c.loot)];
    }
  }

  method SaveDog(dog: Dog, c: Counters) returns (repr: DogRepr)
    ensures repr == SavedDog(dog.State(), c)
  {
    var bag := SaveLoots(dog.bag, c);
    repr := DogRepr(dog.id, dog.name, dog.position, dog.speed, dog.direction, bag, dog.width, dog.score, c.dogs);
  }

  method SaveSession(session: GameSession, c: Counters) returns (repr: SessionRepr)
    ensures repr == SavedSession(session.State(), c)
  {
    var dogs: seq<DogRepr> := [];
    for i := 0 to |session.dogs|
      invariant |dogs| == i && forall j :: 0 <= j < i ==> dogs[j] == SavedDog(session.dogs[j].State(), c)
    {
      var dog := SaveDog(session.dogs[i], c);
      dogs := dogs + [dog];
    }
    assert dogs == SavedDogs(DogStates(session.dogs), c);
    var loot := SaveLoots(session.loot, c);
    repr := SessionRepr(session.gameMap.id, dogs, loot, session.id, c.sessions);
  }

  method SaveState(game: Game, order: seq<string>, ghost g: GameState) returns (file: SaveFile)
    requires game.Shows(g) && IsOrder(order, g.sessions)
    ensures file == Saved(g, order)
  {
    var sessions: seq<SessionRepr> := [];
    var c := game.Counts();
    for i := 0 to |order|
      invariant |sessions| == i && forall j :: 0 <= j < i ==> sessions[j] == SavedSession(g.sessions[order[j]], c)
    {
      assert ShowsSession(game.sessions[order[i]], g.sessions[order[i]]);
      var session := SaveSession(game.sessions[order[i]], c);
      sessions := sessions + [session];
    }
    var players: seq<PlayerRepr> := [];
    for i := 0 to |game.registry.players|
      invariant |players| == i && forall j :: 0 <= j < i ==> players[j] == SavedPlayer(g.players[j], c)
    {
      var p := game.registry.players[i];
      players := players + [PlayerRepr(p.session.id, p.dog.id, p.token, p.id, c.players)];
    }
    file := SaveFile(sessions, players);
  }

  // ---- reading ----

  method RestoreLoot(game: Game, repr: LootRepr) returns (loot: Loot)
    modifies game`lootCounter
    ensures loot == LoadedLoot(repr) && game.lootCounter == repr.counter
  {
    loot := Loot(repr.kind, game.lootCounter, repr.value, repr.position, LOOT_WIDTH);
    game.lootCounter := game.lootCounter + 1;
    loot := loot.(id := repr.id, width := repr.width);
    game.lootCounter := repr.counter;
  }

  method RestoreLoots(game: Game, reprs: seq<LootRepr>) returns (loot: seq<Loot>)
    modifies game`lootCounter
    ensures loot == LoadedLoots(reprs) && game.Counts() == AfterLoots(old(game.Counts()), reprs)
  {
    loot := [];
    for i := 0 to |reprs|
      invariant |loot| == i && forall j :: 0 <= j < i ==> loot[j] == LoadedLoot(reprs[j])
      invariant game.lootCounter == if i == 0 then old(game.lootCounter) else reprs[i - 1].counter
    {
      var item := RestoreLoot(game, reprs[i]);
      loot := loot + [item];
    }
  }

  method RestoreDog(game: Game, repr: DogRepr, uuid: string, unsetTime: int) returns (dog: Dog)
    modifies game`lootCounter, game`dogCounter
    ensures fresh(dog) && dog.State() == LoadedDog(repr, uuid, unsetTime)
    ensures game.Counts() == AfterDog(old(game.Counts()), repr)
  {
    var d := NewDog(game.dogCounter, repr.name, repr.position, uuid, unsetTime);
    game.dogCounter := game.dogCounter + 1;
    d := d.(id := repr.id, speed := repr.speed, direction := repr.direction);
    var bag := RestoreLoots(game, repr.bag);
    d := d.(bag := bag, width := repr.width, score := repr.score);
    game.dogCounter := repr.counter;
    dog := new Dog.Copy(d);
  }

  lemma NextDog(c: Counters, reprs: seq<DogRepr>, n: nat)
    requires n < |reprs|
    ensures AfterDogs(c, reprs[..n + 1]) == AfterDog(AfterDogs(c, reprs[..n]), reprs[n])
  {
    assert reprs[..n + 1][..n] == reprs[..n];
  }

  method RestoreDogs(game: Game, reprs: seq<DogRepr>, uuids: nat -> string, unsetTimes: nat -> int)
    returns (dogs: seq<Dog>)
    modifies game`lootCounter, game`dogCounter
    ensures forall d :: d in dogs ==> fresh(d)
    ensures DogStates(dogs) == LoadedDogs(reprs, uuids, unsetTimes)
    ensures game.Counts() == AfterDogs(old(game.Counts()), reprs)
  {
    dogs := [];
    ghost var states := LoadedDogs(reprs, uuids, unsetTimes);
    for i := 0 to |reprs|
      invariant |dogs| == i && forall j :: 0 <= j < i ==> fresh(dogs[j])
      invariant forall j :: 0 <= j < i ==> dogs[j].State() == states[j]
      invariant game.Counts() == AfterDogs(old(game.Counts()), reprs[..i])
    {
      NextDog(old(game.Counts()), reprs, i);
      var dog := RestoreDog(game, reprs[i], uuids(reprs[i].id), unsetTimes(reprs[i].id));
      dogs := dogs + [dog];
    }
    MatchingStates(dogs, states);
    assert reprs[..|reprs|] == reprs;
  }

  method RestoreSession(game: Game, repr: SessionRepr, uuids: nat -> string, unsetTimes: nat -> int)
    returns (session: GameSession)
    requires repr.mapId in game.maps
    modifies game`lootCounter, game`dogCounter, game`sessionCounter
    ensures fresh(session) && (forall d :: d in session.dogs ==> fresh(d)) && session.gameMap == game.maps[repr.mapId]
    ensures ShowsSession(session, LoadedSession(repr, game.maps[repr.mapId], uuids, unsetTimes))
    ensures game.Counts() == AfterSession(old(game.Counts()), repr)
  {
    var dogs := RestoreDogs(game, repr.dogs, uuids, unsetTimes);
    var loot := RestoreLoots(game, repr.loot);
    session := new GameSession(game.maps[repr.mapId], repr.sessionId);
    session.dogs, session.loot := dogs, loot;
    game.sessionCounter := repr.counter;
  }

  method RestoreSessions(game: Game, reprs: seq<SessionRepr>, uuids: nat -> string, unsetTimes: nat -> int)
    requires KnownMaps(game.maps, reprs)
    modifies game`sessions, game`lootCounter, game`dogCounter, game`sessionCounter
    ensures ShowsSessions(game.sessions, LoadedSessions(game.maps, reprs, uuids, unsetTimes))
    ensures game.Counts() == AfterSessions(old(game.Counts()), reprs)
  {
    game.sessions := map[];
    for i := 0 to |reprs|
      invariant ShowsSessions(game.sessions, LoadedSessions(game.maps, reprs[..i], uuids, unsetTimes))
      invariant game.Counts() == AfterSessions(old(game.Counts()), reprs[..i])
    {
      assert reprs[..i + 1][..i] == reprs[..i];
      FileSession(game, reprs[i], uuids, unsetTimes, LoadedSessions(game.maps, reprs[..i], uuids, unsetTimes));
    }
    assert reprs[..|reprs|] == reprs;
  }

  method FileSession(game: Game, repr: SessionRepr, uuids: nat -> string, unsetTimes: nat -> int,
                     ghost states: map<string, SessionState>)
    requires repr.mapId in game.maps && game.maps[repr.mapId].id == repr.mapId && ShowsSessions(game.sessions, states)
    modifies game`sessions, game`lootCounter, game`dogCounter, game`sessionCounter
    ensures ShowsSessions(
              game.sessions, states[repr.mapId := LoadedSession(repr, game.maps[repr.mapId], uuids, unsetTimes)])
    ensures game.Counts() == AfterSession(old(game.Counts()), repr)
  {
    var session := RestoreSession(game, repr, uuids, unsetTimes);
    game.sessions := game.sessions[repr.mapId := session];
    UntouchedOthers(old(game.sessions), states, repr.mapId);
    SessionIsFiled(game.sessions, states, repr.mapId, LoadedSession(repr, game.maps[repr.mapId], uuids, unsetTimes));
  }

  method FindSessionById(sessions: SessionTable, id: nat) returns (found: Option<GameSession>)
    ensures found.Some? ==> exists m :: m in sessions && sessions[m] == found.value && found.value.id == id
    ensures found.None? ==> forall m :: m in sessions ==> sessions[m].id != id
  {
    var todo := sessions.Keys;
    while todo != {}
      invariant todo <= sessions.Keys
      invariant forall m :: m in sessions && m !in todo ==> sessions[m].id != id
    {
      var m :| m in todo;
      if sessions[m].id == id { return Some(sessions[m]); }
      todo := todo - {m};
    }
    return None;
  }

  /** Some session has the player's session id, and any that has it has the player's dog. */
  ghost predicate CanLink(states: map<string, SessionState>, r: PlayerRepr) {
    && (exists m :: m in states && states[m].id == r.sessionId)
    && forall m :: m in states && states[m].id == r.sessionId ==> r.dogId in DogsIn(states[m])
  }

  /** Finds the session and the very dog object that a saved player belongs to. */
  method FindOwned(game: Game, r: PlayerRepr, ghost states: map<string, SessionState>)
    returns (session: GameSession, dog: Dog)
    requires ShowsSessions(game.sessions, states) && CanLink(states, r)
    ensures session.id == r.sessionId && dog.id == r.dogId && dog in session.dogs
    ensures session.gameMap.id in game.sessions && game.sessions[session.gameMap.id] == session
  {
    ghost var some :| some in states && states[some].id == r.sessionId;
    assert ShowsSession(game.sessions[some], states[some]);
    var found := FindSessionById(game.sessions, r.sessionId);
    assert found.Some?;
    session := found.value;
    ghost var m :| m in game.sessions && game.sessions[m] == session;
    assert ShowsSession(session, states[m]) && session.State() == states[m];
    var owned := session.GetDogById(r.dogId);
    dog := owned.value;
  }

  method RestorePlayer(game: Game, r: PlayerRepr, ghost states: map<string, SessionState>) returns (player: Player)
    requires ShowsSessions(game.sessions, states) && CanLink(states, r)
    modifies game.registry`counter
    ensures View(player) == LoadedPlayer(r) && game.registry.counter == r.counter
    ensures IsLinked(game.sessions, player)
  {
    var session, dog := FindOwned(game, r, states);
    player := Player(game.registry.counter, "", session, dog);
    game.registry.counter := game.registry.counter + 1;
    player := player.(token := r.token, id := r.id);
    game.registry.counter := r.counter;
  }

  method LoadPlayer(game: Game, r: PlayerRepr, ghost states: map<string, SessionState>)
    requires ShowsSessions(game.sessions, states) && CanLink(states, r)
    requires AllLinked(game.sessions, game.registry.players)
    modifies game.registry
    ensures ShowsSessions(game.sessions, states) && AllLinked(game.sessions, game.registry.players)
    ensures Views(game.registry.players) == old(Views(game.registry.players)) + [LoadedPlayer(r)]
    ensures game.registry.counter == r.counter
  {
    var player := RestorePlayer(game, r, states);
    UntouchedLinks((game.sessions, game.registry.players));
    label adding:
    ViewsWithLast(game.registry.players, player);
    AppendLink(game.sessions, game.registry.players, player);
    game.registry.players := game.registry.players + [player];
    UntouchedSessions(game.sessions, states);
    UntouchedLinks@adding((game.sessions, game.registry.players));
  }

  lemma AppendLink(table: SessionTable, players: seq<Player>, p: Player)
    requires AllLinked(table, players) && IsLinked(table, p)
    ensures AllLinked(table, players + [p])
  {
  }

  method RestorePlayers(game: Game, reprs: seq<PlayerRepr>, ghost states: map<string, SessionState>)
    requires ShowsSessions(game.sessions, states) && forall r :: r in reprs ==> CanLink(states, r)
    requires game.registry.players == []
    modifies game.registry
    ensures Views(game.registry.players) == LoadedPlayers(reprs)
    ensures AllLinked(game.sessions, game.registry.players) && ShowsSessions(game.sessions, states)
    ensures game.registry.counter == if reprs == [] then old(game.registry.counter) else reprs[|reprs| - 1].counter
  {
    for i := 0 to |reprs|
      invariant Views(game.registry.players) == LoadedPlayers(reprs[..i])
      invariant ShowsSessions(game.sessions, states) && AllLinked(game.sessions, game.registry.players)
      invariant game.registry.counter == if i == 0 then old(game.registry.counter) else reprs[i - 1].counter
    {
      LoadPlayer(game, reprs[i], states);
      assert LoadedPlayers(reprs[..i + 1]) == LoadedPlayers(reprs[..i]) + [LoadedPlayer(reprs[i])];
    }
    assert reprs[..|reprs|] == reprs;
  }

  /** At startup: every player is linked to the very dog that its session holds. */
  method LoadState(game: Game, file: SaveFile, uuids: nat -> string, unsetTimes: nat -> int)
    requires KnownMaps(game.maps, file.sessions) && game.registry.players == []
    requires forall r :: r in file.players ==>
               CanLink(LoadedSessions(game.maps, file.sessions, uuids, unsetTimes), r)
    modifies game`sessions, game`lootCounter, game`dogCounter, game`sessionCounter, game.registry
    ensures ShowsSessions(game.sessions, LoadedSessions(game.maps, file.sessions, uuids, unsetTimes))
    ensures Views(game.registry.players) == LoadedPlayers(file.players)
    ensures game.Counts() == AfterPlayers(AfterSessions(old(game.Counts()), file.sessions), file.players)
    ensures AllLinked(game.sessions, game.registry.players)
  {
    RestoreSessions(game, file.sessions, uuids, unsetTimes);
    RestorePlayers(game, file.players, LoadedSessions(game.maps, file.sessions, uuids, unsetTimes));
  }

  /** In a sound game the players of a save file can be linked. */
  lemma SavedPlayersCanLink(g: GameState, uuids: nat -> string, joinTimes: nat -> int)
    requires GoodIds(g) && GoodLinks(g)
    ensures forall r :: r in SavedPlayers(g.players, g.counters) ==> CanLink(Restarted(g, uuids, joinTimes).sessions, r)
  {
    var g' := Restarted(g, uuids, joinTimes);
    RestartKeepsIdentities(g, uuids, joinTimes);
    forall r | r in SavedPlayers(g.players, g.counters) ensures CanLink(g'.sessions, r) {
      var i :| 0 <= i < |g.players| && r == SavedPlayer(g.players[i], g.counters);
      assert HasDog(g', g'.players[i]);
    }
  }

  /**
   * A new server that loads a save file shows the reloaded game. The file may be older than the table
   * of retired players, whose rows are those of `now`.
   */
  method Reload(game: Game, file: SaveFile, uuids: nat -> string, unsetTimes: nat -> int,
                ghost g: GameState, ghost order: seq<string>, ghost now: GameState)
    requires GoodTerrain(g) && GoodIds(g) && GoodLinks(g) && IsOrder(order, g.sessions) && file == Saved(g, order)
    requires game.maps == g.maps && game.retirementTime == g.retirementTime && game.records == now.records
    requires game.registry.players == [] && game.Counts() == Counters(0, 0, 0, 0) && game.clock == 0
    modifies game`sessions, game`lootCounter, game`dogCounter, game`sessionCounter, game.registry
    ensures game.Shows(Reloaded(g, now, uuids, unsetTimes)) && AllLinked(game.sessions, game.registry.players)
  {
    LoadAfterSave(g, order, uuids, unsetTimes);
    SavedPlayersCanLink(g, uuids, unsetTimes);
    ReloadedParts(g, now, uuids, unsetTimes);
    LoadState(game, file, uuids, unsetTimes);
    game.IsShown(Reloaded(g, now, uuids, unsetTimes));
  }
}
