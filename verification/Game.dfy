/** The running game: sessions and dogs as objects, the registry of players, and the id counters. */
module GameServer {
  import opened Entities
  import opened GameStates
  import opened Geometry
  import opened LootGeneration
  import opened PlayerRegistry
  import opened Sessions
  import opened Terrain

  type SessionTable = map<string, GameSession>

  /** The session's objects show the state `s`. */
  ghost predicate ShowsSession(session: GameSession, s: SessionState)
    reads session, session.dogs
  {
    && session.id == s.id && session.gameMap == s.gameMap && session.loot == s.loot
    && DogStates(session.dogs) == s.dogs
  }

  function DogSet(dogs: seq<Dog>): (r: set<Dog>)
    ensures forall d :: d in r ==> d in dogs
    ensures forall d :: d in dogs ==> d in r
  {
    set d | d in dogs
  }

  ghost function DogObjects(table: SessionTable): (dogs: set<Dog>)
    reads table.Values
    ensures forall m :: m in table ==> DogSet(table[m].dogs) <= dogs
  {
    set m, d | m in table && d in DogSet(table[m].dogs) :: d
  }

  ghost predicate ShowsSessions(table: SessionTable, states: map<string, SessionState>)
    reads table.Values, DogObjects(table)
  {
    && table.Keys == states.Keys
    && forall m :: m in table ==> table[m].gameMap.id == m && ShowsSession(table[m], states[m])
  }

  lemma SessionIsShown(session: GameSession, s: SessionState)
    requires session.id == s.id && session.gameMap == s.gameMap && session.loot == s.loot
    requires |session.dogs| == |s.dogs| && forall i :: 0 <= i < |s.dogs| ==> session.dogs[i].State() == s.dogs[i]
    ensures ShowsSession(session, s)
  {
  }

  lemma StatesWithLast(dogs: seq<Dog>, dog: Dog)
    ensures DogStates(dogs + [dog]) == DogStates(dogs) + [dog.State()]
  {
  }

  /** The player's session is the one filed for its map, and its dog is an object of that session's list. */
  ghost predicate IsLinked(table: SessionTable, p: Player)
    reads p.session
  {
    var m := p.session.gameMap.id;
    m in table && table[m] == p.session && p.dog in p.session.dogs
  }

  ghost predicate AllLinked(table: SessionTable, players: seq<Player>)
    reads set p | p in players :: p.session
  {
    forall p :: p in players ==> IsLinked(table, p)
  }

  /** Where no session's lists and no dog change, every session still shows its state. */
  twostate lemma UntouchedSessions(table: SessionTable, new states: map<string, SessionState>)
    requires old(ShowsSessions(table, states))
    requires forall s: GameSession :: old(allocated(s)) ==> s.dogs == old(s.dogs)
    requires forall s: GameSession :: old(allocated(s)) ==> s.loot == old(s.loot)
    requires forall d: Dog :: old(allocated(d)) ==> d.State() == old(d.State())
    ensures ShowsSessions(table, states)
  {
    forall m | m in table ensures table[m].gameMap.id == m && ShowsSession(table[m], states[m]) {
      var s := table[m];
      assert old(ShowsSession(s, states[m]));
      forall i | 0 <= i < |s.dogs| ensures s.dogs[i].State() == states[m].dogs[i] {
        assert s.dogs[i].State() == old(s.dogs[i].State());
      }
      SessionIsShown(s, states[m]);
    }
  }

  /** Where no session's list of dogs changes, linked players stay linked. */
  twostate lemma UntouchedLinks(w: (SessionTable, seq<Player>))
    requires old(AllLinked(w.0, w.1))
    requires forall s: GameSession :: old(allocated(s)) ==> s.dogs == old(s.dogs)
    ensures AllLinked(w.0, w.1)
  {
    forall p | p in w.1 ensures IsLinked(w.0, p) {
      assert old(IsLinked(w.0, p));
    }
  }

  lemma SessionIsFiled(table: SessionTable, states: map<string, SessionState>, m: string, s: SessionState)
    requires m in table && table[m].gameMap.id == m && ShowsSession(table[m], s)
    requires table.Keys == states.Keys + {m}
    requires forall k :: k in table && k != m ==> table[k].gameMap.id == k && ShowsSession(table[k], states[k])
    ensures ShowsSessions(table, states[m := s])
  {
  }

  /** Where only the session of map `m` changes its lists, and no dog changes, the others still show. */
  twostate lemma UntouchedOthers(table: SessionTable, new states: map<string, SessionState>, new m: string)
    requires old(ShowsSessions(table, states))
    requires forall s: GameSession :: old(allocated(s)) && s.gameMap.id != m ==> s.dogs == old(s.dogs)
    requires forall s: GameSession :: old(allocated(s)) && s.gameMap.id != m ==> s.loot == old(s.loot)
    requires forall d: Dog :: old(allocated(d)) ==> d.State() == old(d.State())
    ensures forall k :: k in table && k != m ==> ShowsSession(table[k], states[k])
  {
    forall k | k in table && k != m ensures ShowsSession(table[k], states[k]) {
      var s := table[k];
      assert old(ShowsSession(s, states[k]));
      forall i | 0 <= i < |s.dogs| ensures s.dogs[i].State() == states[k].dogs[i] {
        assert s.dogs[i].State() == old(s.dogs[i].State());
      }
      SessionIsShown(s, states[k]);
    }
  }

  /** The state of a server that has just started. */
  function Started(maps: map<string, GameMap>, retirementTime: real): GameState {
    GameState(maps, map[], [], [], Counters(0, 0, 0, 0), 0, retirementTime, History(0, 0, map[], {}, map[]))
  }

  function WithDog(s: SessionState, d: DogState): SessionState { s.(dogs := s.dogs + [d]) }

  lemma JoinedParts(g: GameState, name: string, mapId: string, spawn: Point, token: string, uuid: string)
    requires mapId in g.maps
    ensures var (g', base) := (Joined(g, name, mapId, spawn, token, uuid), SessionOf(g, mapId));
      && g'.maps == g.maps && g'.records == g.records && g'.clock == g.clock && g'.retirementTime == g.retirementTime
      && g'.sessions == g.sessions[mapId := WithDog(base, NewDog(g.counters.dogs, name, spawn, uuid, g.clock))]
      && g'.players == g.players + [PlayerState(g.counters.players, token, base.id, g.counters.dogs)]
      && g'.counters == g.counters.(
           dogs := g.counters.dogs + 1, players := g.counters.players + 1,
           sessions := if mapId in g.sessions then g.counters.sessions else g.counters.sessions + 1)
  {
  }

  class Game {
    const maps: map<string, GameMap>
    const retirementTime: real
    const randomSpawn: bool
    const generator: LootGenerator
    const registry: Players
    var sessions: SessionTable
    /** The rows that have been written to the table of retired players. */
    var records: seq<Record>
    var clock: int
    var dogCounter: nat
    var sessionCounter: nat
    var lootCounter: nat

    function Counts(): Counters
      reads this, registry
    {
      Counters(dogCounter, registry.counter, sessionCounter, lootCounter)
    }

    /** The objects show the state `g`; `g.history` is not stored. */
    ghost predicate Shows(g: GameState)
      reads this, registry, sessions.Values, DogObjects(sessions)
    {
      && g.maps == maps && g.retirementTime == retirementTime && g.records == records && g.clock == clock
      && g.counters == Counts()
      && g.players == Views(registry.players)
      && ShowsSessions(sessions, g.sessions)
    }

    constructor (maps: map<string, GameMap>, retirementTime: real, randomSpawn: bool, generator: LootGenerator)
      requires forall m :: m in maps ==> maps[m].Playable() && maps[m].id == m
      ensures Shows(Started(maps, retirementTime)) && IsInitial(Started(maps, retirementTime))
      ensures AllLinked(sessions, registry.players) && fresh(registry)
      ensures this.randomSpawn == randomSpawn && this.generator == generator
    {
      this.maps, this.retirementTime, this.randomSpawn, this.generator := maps, retirementTime, randomSpawn, generator;
      registry := new Players();
      sessions, records, clock, dogCounter, sessionCounter, lootCounter := map[], [], 0, 0, 0, 0;
    }

    lemma IsShown(g: GameState)
      requires g.maps == maps && g.retirementTime == retirementTime && g.records == records && g.clock == clock
      requires g.counters == Counts()
      requires g.players == Views(registry.players) && ShowsSessions(sessions, g.sessions)
      ensures Shows(g)
    {
    }

    // ---- joining ----

    /** The session of a map, if there is one. */
    ghost function Existing(mapId: string): set<GameSession>
      reads this
    {
      if mapId in sessions then {sessions[mapId]} else {}
    }

    method CreateDog(name: string, position: Point, uuid: string, unsetTime: int) returns (dog: Dog)
      modifies this`dogCounter
      ensures fresh(dog) && dog.State() == NewDog(old(dogCounter), name, position, uuid, clock)
      ensures dogCounter == old(dogCounter) + 1
    {
      dog := new Dog(dogCounter, name, position, uuid, unsetTime);
      dogCounter := dogCounter + 1;
      dog.joinTime := clock;
    }

    /** Opens a session for the map if there is none. */
    method EnsureSession(mapId: string) returns (session: GameSession)
      requires mapId in maps && maps[mapId].id == mapId
      modifies this`sessions, this`sessionCounter
      ensures sessions == old(sessions)[mapId := session]
      ensures mapId in old(sessions) ==> session == old(sessions)[mapId] && sessionCounter == old(sessionCounter)
      ensures mapId !in old(sessions) ==>
                && fresh(session) && session.dogs == [] && session.loot == []
                && session.gameMap == maps[mapId] && session.id == old(sessionCounter)
                && sessionCounter == old(sessionCounter) + 1
    {
      if mapId !in sessions {
        session := new GameSession(maps[mapId], sessionCounter);
        sessionCounter := sessionCounter + 1;
        sessions := sessions[mapId := session];
      } else {
        session := sessions[mapId];
        assert sessions == sessions[mapId := session];
      }
    }

    /** Finds the session of a map, or opens one, and puts the dog into it. */
    method AddDogToSession(dog: Dog, mapId: string) returns (session: GameSession)
      requires mapId in maps && maps[mapId].id == mapId && AllLinked(sessions, registry.players)
      modifies this`sessions, this`sessionCounter, Existing(mapId)`dogs
      ensures sessions == old(sessions)[mapId := session] && AllLinked(sessions, registry.players)
      ensures mapId in old(sessions) ==>
                && session == old(sessions)[mapId] && sessionCounter == old(sessionCounter)
                && session.dogs == old(sessions[mapId].dogs) + [dog]
      ensures mapId !in old(sessions) ==>
                && fresh(session) && session.dogs == [dog] && session.loot == []
                && session.gameMap == maps[mapId] && session.id == old(sessionCounter)
                && sessionCounter == old(sessionCounter) + 1
    {
      session := EnsureSession(mapId);
      session.AddDog(dog);
      forall p | p in registry.players ensures IsLinked(sessions, p) {
        assert old(IsLinked(sessions, p));
      }
    }

    method PlaceDog(dog: Dog, mapId: string, ghost g: GameState) returns (session: GameSession)
      requires mapId in maps && maps[mapId].id == mapId
      requires g.maps == maps && g.counters.sessions == sessionCounter && ShowsSessions(sessions, g.sessions)
      requires AllLinked(sessions, registry.players)
      modifies this`sessions, this`sessionCounter, Existing(mapId)`dogs
      ensures sessionCounter == if mapId in g.sessions then old(sessionCounter) else old(sessionCounter) + 1
      ensures mapId in sessions && sessions[mapId] == session && session.id == SessionOf(g, mapId).id
      ensures dog in session.dogs
      ensures ShowsSessions(sessions, g.sessions[mapId := WithDog(SessionOf(g, mapId), dog.State())])
      ensures AllLinked(sessions, registry.players)
    {
      session := AddDogToSession(dog, mapId);
      ghost var base := SessionOf(g, mapId);
      StatesWithLast(session.dogs[..|session.dogs| - 1], dog);
      assert ShowsSession(session, WithDog(base, dog.State()));
      UntouchedOthers(old(sessions), g.sessions, mapId);
      SessionIsFiled(sessions, g.sessions, mapId, WithDog(base, dog.State()));
    }

    /** A new dog enters the session of the map. */
    method SpawnDog(name: string, mapId: string, position: Point, uuid: string, unsetTime: int, ghost g: GameState)
      returns (dog: Dog, session: GameSession)
      requires mapId in maps && maps[mapId].id == mapId && g.maps == maps
      requires g.counters == Counts() && g.clock == clock
      requires ShowsSessions(sessions, g.sessions) && AllLinked(sessions, registry.players)
      modifies this`dogCounter, this`sessions, this`sessionCounter, Existing(mapId)`dogs
      ensures dog.id == g.counters.dogs && fresh(dog)
      ensures Counts() == g.counters.(
                dogs := g.counters.dogs + 1,
                sessions := if mapId in g.sessions then g.counters.sessions else g.counters.sessions + 1)
      ensures mapId in sessions && sessions[mapId] == session && session.id == SessionOf(g, mapId).id
      ensures session.gameMap.id == mapId && dog in session.dogs
      ensures ShowsSessions(sessions, g.sessions[mapId := WithDog(
                SessionOf(g, mapId), NewDog(g.counters.dogs, name, position, uuid, g.clock))])
      ensures AllLinked(sessions, registry.players)
    {
      dog := CreateDog(name, position, uuid, unsetTime);
      UntouchedSessions(sessions, g.sessions);
      UntouchedLinks((sessions, registry.players));
      session := PlaceDog(dog, mapId, g);
    }

    method JoinSession(name: string, mapId: string, position: Point, uuid: string, unsetTime: int, ghost g: GameState,
                       ghost token: string)
      returns (dog: Dog, session: GameSession, ghost g': GameState)
      requires mapId in maps && maps[mapId].id == mapId && g.maps == maps
      requires g.counters == Counts() && g.clock == clock && g.records == records
      requires ShowsSessions(sessions, g.sessions) && AllLinked(sessions, registry.players)
      modifies this`dogCounter, this`sessions, this`sessionCounter, Existing(mapId)`dogs
      ensures g' == Joined(g, name, mapId, position, token, uuid)
      ensures g'.maps == maps && g'.retirementTime == g.retirementTime
      ensures g'.records == records && g'.clock == clock
      ensures g'.counters == Counts().(players := g.counters.players + 1)
      ensures Counts().players == g.counters.players
      ensures g'.players == g.players + [PlayerState(g.counters.players, token, session.id, dog.id)]
      ensures ShowsSessions(sessions, g'.sessions) && AllLinked(sessions, registry.players)
      ensures fresh(dog) && session.gameMap.id in sessions && sessions[session.gameMap.id] == session
      ensures dog in session.dogs
    {
      dog, session := SpawnDog(name, mapId, position, uuid, unsetTime, g);
      g' := Joined(g, name, mapId, position, token, uuid);
      JoinedParts(g, name, mapId, position, token, uuid);
    }

    /** The new player of a dog that is already in its session. */
    method Register(dog: Dog, session: GameSession, token: string, ghost g: GameState) returns (player: Player)
      requires session.gameMap.id in sessions && sessions[session.gameMap.id] == session && dog in session.dogs
      requires g.maps == maps && g.retirementTime == retirementTime && g.records == records && g.clock == clock
      requires g.counters == Counts().(players := registry.counter + 1)
      requires g.players == Views(registry.players) + [PlayerState(registry.counter, token, session.id, dog.id)]
      requires ShowsSessions(sessions, g.sessions) && AllLinked(sessions, registry.players)
      modifies registry
      ensures player.dog == dog && player.token == token && registry.players == old(registry.players) + [player]
      ensures Shows(g) && AllLinked(sessions, registry.players)
    {
      player := registry.AddPlayer(session, dog, token);
      ViewsWithLast(old(registry.players), player);
      forall p | p in registry.players ensures IsLinked(sessions, p) {
        if p != player { assert old(IsLinked(sessions, p)); }
      }
      UntouchedSessions(sessions, g.sessions);
      IsShown(g);
    }

    /** The drawn grid point of a road, or the start of the first road. */
    predicate IsSpawnPosition(mapId: string, draw: PointDraw, position: Point)
      requires mapId in maps && maps[mapId].roads != [] && (randomSpawn ==> draw.road < |maps[mapId].roads|)
    {
      var roads := maps[mapId].roads;
      if randomSpawn then
        position == Point(DrawnPoint(roads, draw).x as real, DrawnPoint(roads, draw).y as real)
      else
        position == Point(roads[0].start.x as real, roads[0].start.y as real)
    }

    method SpawnPosition(mapId: string, draw: PointDraw) returns (position: Point)
      requires mapId in maps && maps[mapId].roads != [] && (randomSpawn ==> draw.road < |maps[mapId].roads|)
      ensures IsSpawnPoint(maps[mapId], position) && IsSpawnPosition(mapId, draw, position)
    {
      var p := maps[mapId].roads[0].start;
      if randomSpawn {
        p := GetRandomPointOnRoad(maps[mapId].roads, draw);
      }
      position := Point(p.x as real, p.y as real);
    }

    method JoinAt(name: string, mapId: string, position: Point, token: string, uuid: string, unsetTime: int,
                  ghost g: GameState)
      returns (player: Player, ghost g': GameState)
      requires Shows(g) && AllLinked(sessions, registry.players) && mapId in maps && maps[mapId].id == mapId
      modifies this, registry, Existing(mapId)`dogs
      ensures g' == Joined(g, name, mapId, position, token, uuid)
      ensures Shows(g') && AllLinked(sessions, registry.players)
      ensures registry.players == old(registry.players) + [player] && fresh(player.dog) && player.token == token
    {
      var dog, session;
      dog, session, g' := JoinSession(name, mapId, position, uuid, unsetTime, g, token);
      player := Register(dog, session, token, g');
    }

    method JoinGame(name: string, mapId: string, draw: PointDraw, token: string, uuid: string, unsetTime: int,
                    ghost g: GameState)
      returns (player: Player, ghost spawn: Point, ghost g': GameState)
      requires Shows(g) && AllLinked(sessions, registry.players) && mapId in maps && maps[mapId].id == mapId
      requires maps[mapId].roads != [] && (randomSpawn ==> draw.road < |maps[mapId].roads|)
      modifies this, registry, Existing(mapId)`dogs
      ensures Possible(g, Join(name, mapId, spawn, token, uuid)) && IsSpawnPosition(mapId, draw, spawn)
      ensures g' == Joined(g, name, mapId, spawn, token, uuid)
      ensures Shows(g') && AllLinked(sessions, registry.players)
      ensures registry.players == old(registry.players) + [player] && fresh(player.dog) && player.token == token
    {
      var position := SpawnPosition(mapId, draw);
      spawn := position;
      player, g' := JoinAt(name, mapId, position, token, uuid, unsetTime, g);
    }
  }
}
