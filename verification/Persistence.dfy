/**
 * The save file as a value: what is written, what is read back, and how the id counters fare. Every
 * representation carries the counter of its kind, and reading it overwrites the running counter.
 */
module Persistence {
  import opened Entities
  import opened GameStates
  import opened Geometry
  import opened Terrain

  datatype LootRepr = LootRepr(kind: nat, id: nat, value: uint32, position: Point, width: real, counter: nat)

  datatype DogRepr = DogRepr(
    id: nat, name: string, position: Point, speed: Vec, direction: Direction, bag: seq<LootRepr>, width: real,
    score: uint32, counter: nat)

  datatype SessionRepr = SessionRepr(
    mapId: string, dogs: seq<DogRepr>, loot: seq<LootRepr>, sessionId: nat, counter: nat)

  datatype PlayerRepr = PlayerRepr(sessionId: nat, dogId: nat, token: string, id: nat, counter: nat)

  datatype SaveFile = SaveFile(sessions: seq<SessionRepr>, players: seq<PlayerRepr>)

  // ---- writing ----

  function SavedLoot(l: Loot, c: Counters): LootRepr {
    LootRepr(l.kind, l.id, l.value, l.position, l.width, c.loot)
  }

  function SavedLoots(loot: seq<Loot>, c: Counters): (r: seq<LootRepr>)
    ensures |r| == |loot| && forall i :: 0 <= i < |loot| ==> r[i] == SavedLoot(loot[i], c)
  {
    seq(|loot|, i requires 0 <= i < |loot| => SavedLoot(loot[i], c))
  }

  function SavedDog(d: DogState, c: Counters): DogRepr {
    DogRepr(d.id, d.name, d.position, d.speed, d.direction, SavedLoots(d.bag, c), d.width, d.score, c.dogs)
  }

  function SavedDogs(dogs: seq<DogState>, c: Counters): (r: seq<DogRepr>)
    ensures |r| == |dogs| && forall i :: 0 <= i < |dogs| ==> r[i] == SavedDog(dogs[i], c)
  {
    seq(|dogs|, i requires 0 <= i < |dogs| => SavedDog(dogs[i], c))
  }

  function SavedSession(s: SessionState, c: Counters): SessionRepr {
    SessionRepr(s.gameMap.id, SavedDogs(s.dogs, c), SavedLoots(s.loot, c), s.id, c.sessions)
  }

  function SavedPlayer(p: PlayerState, c: Counters): PlayerRepr {
    PlayerRepr(p.sessionId, p.dogId, p.token, p.id, c.players)
  }

  function SavedPlayers(players: seq<PlayerState>, c: Counters): (r: seq<PlayerRepr>)
    ensures |r| == |players| && forall i :: 0 <= i < |players| ==> r[i] == SavedPlayer(players[i], c)
  {
    seq(|players|, i requires 0 <= i < |players| => SavedPlayer(players[i], c))
  }

  function SavedSessions(g: GameState, order: seq<string>): (r: seq<SessionRepr>)
    requires forall m :: m in order ==> m in g.sessions
    ensures |r| == |order| && forall i :: 0 <= i < |order| ==> r[i] == SavedSession(g.sessions[order[i]], g.counters)
  {
    seq(|order|, i requires 0 <= i < |order| => SavedSession(g.sessions[order[i]], g.counters))
  }

  /** `order` is the order in which the table of sessions is traversed. */
  function Saved(g: GameState, order: seq<string>): SaveFile
    requires forall m :: m in order ==> m in g.sessions
  {
    SaveFile(SavedSessions(g, order), SavedPlayers(g.players, g.counters))
  }

  // ---- reading ----

  function LoadedLoot(r: LootRepr): Loot { Loot(r.kind, r.id, r.value, r.position, r.width) }

  function LoadedLoots(rs: seq<LootRepr>): (loot: seq<Loot>)
    ensures |loot| == |rs| && forall i :: 0 <= i < |rs| ==> loot[i] == LoadedLoot(rs[i])
  {
    seq(|rs|, i requires 0 <= i < |rs| => LoadedLoot(rs[i]))
  }

  function LoadedDog(r: DogRepr, uuid: string, joinTime: int): DogState {
    DogState(r.id, r.name, r.position, r.speed, r.direction, LoadedLoots(r.bag), r.width, r.score,
             joinTime, 0.0, true, uuid)
  }

  function LoadedDogs(rs: seq<DogRepr>, uuids: nat -> string, joinTimes: nat -> int): (dogs: seq<DogState>)
    ensures |dogs| == |rs|
    ensures forall i :: 0 <= i < |rs| ==> dogs[i] == LoadedDog(rs[i], uuids(rs[i].id), joinTimes(rs[i].id))
  {
    seq(|rs|, i requires 0 <= i < |rs| => LoadedDog(rs[i], uuids(rs[i].id), joinTimes(rs[i].id)))
  }

  function LoadedSession(r: SessionRepr, gameMap: GameMap, uuids: nat -> string, joinTimes: nat -> int): SessionState {
    SessionState(r.sessionId, gameMap, LoadedDogs(r.dogs, uuids, joinTimes), LoadedLoots(r.loot))
  }

  predicate KnownMaps(maps: map<string, GameMap>, rs: seq<SessionRepr>) {
    forall i :: 0 <= i < |rs| ==> rs[i].mapId in maps && maps[rs[i].mapId].id == rs[i].mapId
  }

  /** A later session of the same map replaces an earlier one. */
  function LoadedSessions(
    maps: map<string, GameMap>, rs: seq<SessionRepr>, uuids: nat -> string, joinTimes: nat -> int)
    : map<string, SessionState>
    requires KnownMaps(maps, rs)
  {
    if rs == [] then map[]
    else
      var r := rs[|rs| - 1];
      LoadedSessions(maps, rs[..|rs| - 1], uuids, joinTimes)[
        r.mapId := LoadedSession(r, maps[r.mapId], uuids, joinTimes)]
  }

  function LoadedPlayer(r: PlayerRepr): PlayerState { PlayerState(r.id, r.token, r.sessionId, r.dogId) }

  function LoadedPlayers(rs: seq<PlayerRepr>): (players: seq<PlayerState>)
    ensures |players| == |rs| && forall i :: 0 <= i < |rs| ==> players[i] == LoadedPlayer(rs[i])
  {
    seq(|rs|, i requires 0 <= i < |rs| => LoadedPlayer(rs[i]))
  }

  // ---- counters while reading ----

  function AfterLoots(c: Counters, rs: seq<LootRepr>): Counters {
    if rs == [] then c else c.(loot := rs[|rs| - 1].counter)
  }

  function AfterDog(c: Counters, r: DogRepr): Counters { AfterLoots(c, r.bag).(dogs := r.counter) }

  function AfterDogs(c: Counters, rs: seq<DogRepr>): Counters {
    if rs == [] then c else AfterDog(AfterDogs(c, rs[..|rs| - 1]), rs[|rs| - 1])
  }

  function AfterSession(c: Counters, r: SessionRepr): Counters {
    AfterLoots(AfterDogs(c, r.dogs), r.loot).(sessions := r.counter)
  }

  function AfterSessions(c: Counters, rs: seq<SessionRepr>): Counters {
    if rs == [] then c else AfterSession(AfterSessions(c, rs[..|rs| - 1]), rs[|rs| - 1])
  }

  function AfterPlayers(c: Counters, rs: seq<PlayerRepr>): Counters {
    if rs == [] then c else c.(players := rs[|rs| - 1].counter)
  }

  function LoadedCounters(file: SaveFile): Counters {
    AfterPlayers(AfterSessions(Counters(0, 0, 0, 0), file.sessions), file.players)
  }

  // ---- round trips ----

  lemma LootRoundTrip(loot: seq<Loot>, c: Counters)
    ensures LoadedLoots(SavedLoots(loot, c)) == loot
  {
  }

  lemma DogRoundTrip(d: DogState, c: Counters, uuid: string, joinTime: int)
    ensures LoadedDog(SavedDog(d, c), uuid, joinTime) == RestoredDog(d, uuid, joinTime)
  {
    LootRoundTrip(d.bag, c);
  }

  lemma SessionRoundTrip(s: SessionState, c: Counters, uuids: nat -> string, joinTimes: nat -> int)
    ensures LoadedSession(SavedSession(s, c), s.gameMap, uuids, joinTimes) == RestoredSession(s, uuids, joinTimes)
  {
    LootRoundTrip(s.loot, c);
    var dogs := LoadedDogs(SavedDogs(s.dogs, c), uuids, joinTimes);
    var dogs' := RestoredSession(s, uuids, joinTimes).dogs;
    forall i | 0 <= i < |s.dogs| ensures dogs[i] == dogs'[i] {
      DogRoundTrip(s.dogs[i], c, uuids(s.dogs[i].id), joinTimes(s.dogs[i].id));
    }
    assert dogs == dogs';
  }

  lemma SavedMapsAreKnown(g: GameState, order: seq<string>)
    requires GoodTerrain(g) && forall m :: m in order ==> m in g.sessions
    ensures KnownMaps(g.maps, SavedSessions(g, order))
  {
  }

  lemma SavedSessionsFront(g: GameState, order: seq<string>)
    requires order != [] && forall m :: m in order ==> m in g.sessions
    ensures var n := |order| - 1;
      && SavedSessions(g, order)[..n] == SavedSessions(g, order[..n])
      && SavedSessions(g, order)[n] == SavedSession(g.sessions[order[n]], g.counters)
  {
  }

  function RestoredAmong(g: GameState, order: seq<string>, uuids: nat -> string, joinTimes: nat -> int)
    : map<string, SessionState>
  {
    map m | m in order && m in g.sessions :: RestoredSession(g.sessions[m], uuids, joinTimes)
  }

  lemma RestoredAmongFront(g: GameState, order: seq<string>, uuids: nat -> string, joinTimes: nat -> int)
    requires order != [] && order[|order| - 1] in g.sessions
    ensures var m := order[|order| - 1];
      RestoredAmong(g, order, uuids, joinTimes)
        == RestoredAmong(g, order[..|order| - 1], uuids, joinTimes)[
             m := RestoredSession(g.sessions[m], uuids, joinTimes)]
  {
    assert forall m :: m in order <==> m in order[..|order| - 1] || m == order[|order| - 1];
  }

  lemma AllRestored(g: GameState, order: seq<string>, uuids: nat -> string, joinTimes: nat -> int)
    requires IsOrder(order, g.sessions)
    ensures RestoredAmong(g, order, uuids, joinTimes) == Restarted(g, uuids, joinTimes).sessions
  {
  }

  /** The saved sessions, read back, are the restored sessions of the maps written so far. */
  lemma {:induction false} SessionsRoundTrip(
    g: GameState, order: seq<string>, uuids: nat -> string, joinTimes: nat -> int)
    requires GoodTerrain(g) && forall m :: m in order ==> m in g.sessions
    ensures KnownMaps(g.maps, SavedSessions(g, order))
    ensures LoadedSessions(g.maps, SavedSessions(g, order), uuids, joinTimes)
         == RestoredAmong(g, order, uuids, joinTimes)
    decreases |order|
  {
    SavedMapsAreKnown(g, order);
    if order == [] {
    } else {
      var n := |order| - 1;
      SessionsRoundTrip(g, order[..n], uuids, joinTimes);
      SavedSessionsFront(g, order);
      SessionRoundTrip(g.sessions[order[n]], g.counters, uuids, joinTimes);
      RestoredAmongFront(g, order, uuids, joinTimes);
    }
  }

  lemma PlayersRoundTrip(players: seq<PlayerState>, c: Counters)
    ensures LoadedPlayers(SavedPlayers(players, c)) == players
  {
  }

  // ---- counters ----

  lemma {:induction false} CountersAfterDogs(start: Counters, dogs: seq<DogState>, c: Counters)
    ensures AfterDogs(start, SavedDogs(dogs, c))
         == start.(dogs := if dogs == [] then start.dogs else c.dogs,
                   loot := if exists i :: 0 <= i < |dogs| && dogs[i].bag != [] then c.loot else start.loot)
  {
    if dogs == [] {
    } else {
      var n := |dogs| - 1;
      CountersAfterDogs(start, dogs[..n], c);
      assert SavedDogs(dogs, c)[..n] == SavedDogs(dogs[..n], c);
      if dogs[n].bag == [] && exists i :: 0 <= i < |dogs| && dogs[i].bag != [] {
        var i :| 0 <= i < |dogs| && dogs[i].bag != [];
        assert dogs[..n][i].bag != [];
      }
    }
  }

  lemma CountersAfterSession(start: Counters, s: SessionState, c: Counters)
    ensures AfterSession(start, SavedSession(s, c))
         == start.(dogs := if s.dogs == [] then start.dogs else c.dogs, sessions := c.sessions,
                   loot := if HasLoot(s) then c.loot else start.loot)
  {
    CountersAfterDogs(start, s.dogs, c);
  }

  ghost predicate DogAmong(g: GameState, order: seq<string>) {
    exists m :: m in order && m in g.sessions && g.sessions[m].dogs != []
  }

  ghost predicate LootAmong(g: GameState, order: seq<string>) {
    exists m :: m in order && m in g.sessions && HasLoot(g.sessions[m])
  }

  lemma AmongFront(g: GameState, order: seq<string>)
    requires order != [] && order[|order| - 1] in g.sessions
    ensures var (front, last) := (order[..|order| - 1], order[|order| - 1]);
      && (DogAmong(g, order) <==> DogAmong(g, front) || g.sessions[last].dogs != [])
      && (LootAmong(g, order) <==> LootAmong(g, front) || HasLoot(g.sessions[last]))
  {
    assert forall m :: m in order <==> m in order[..|order| - 1] || m == order[|order| - 1];
  }

  lemma {:induction false} CountersAfterSessions(start: Counters, g: GameState, order: seq<string>)
    requires forall m :: m in order ==> m in g.sessions
    ensures AfterSessions(start, SavedSessions(g, order))
         == start.(dogs := if DogAmong(g, order) then g.counters.dogs else start.dogs,
                   sessions := if order != [] then g.counters.sessions else start.sessions,
                   loot := if LootAmong(g, order) then g.counters.loot else start.loot)
    decreases |order|
  {
    if order == [] {
    } else {
      var (n, last) := (|order| - 1, order[|order| - 1]);
      CountersAfterSessions(start, g, order[..n]);
      CountersAfterSession(AfterSessions(start, SavedSessions(g, order[..n])), g.sessions[last], g.counters);
      SavedSessionsFront(g, order);
      AmongFront(g, order);
    }
  }

  lemma CountersRoundTrip(g: GameState, order: seq<string>, uuids: nat -> string, joinTimes: nat -> int)
    requires IsOrder(order, g.sessions)
    ensures LoadedCounters(Saved(g, order)) == Restarted(g, uuids, joinTimes).counters
  {
    CountersAfterSessions(Counters(0, 0, 0, 0), g, order);
    OrderMissesNothing(g, order);
  }

  lemma OrderMissesNothing(g: GameState, order: seq<string>)
    requires IsOrder(order, g.sessions)
    ensures DogAmong(g, order) <==> SomeDog(g)
    ensures LootAmong(g, order) <==> SomeLoot(g)
    ensures order == [] <==> g.sessions == map[]
  {
    if SomeDog(g) {
      var m :| m in g.sessions && g.sessions[m].dogs != [];
      assert m in order;
    }
    if SomeLoot(g) {
      var m :| m in g.sessions && HasLoot(g.sessions[m]);
      assert m in order;
    }
    if order == [] {
      assert forall m :: m in g.sessions ==> m in order;
    } else {
      assert order[0] in g.sessions;
    }
  }

  /**
   * Saving a game and loading the file gives the persisted part of the whole game: sessions with
   * dogs, bags and ground loot in order, players with tokens and ids, and each counter for whose
   * kind some entity was saved.
   */
  lemma LoadAfterSave(g: GameState, order: seq<string>, uuids: nat -> string, joinTimes: nat -> int)
    requires GoodTerrain(g) && IsOrder(order, g.sessions)
    ensures KnownMaps(g.maps, Saved(g, order).sessions)
    ensures var (file, g') := (Saved(g, order), Restarted(g, uuids, joinTimes));
      && LoadedSessions(g.maps, file.sessions, uuids, joinTimes) == g'.sessions
      && LoadedPlayers(file.players) == g'.players
      && LoadedCounters(file) == g'.counters
  {
    SessionsRoundTrip(g, order, uuids, joinTimes);
    AllRestored(g, order, uuids, joinTimes);
    PlayersRoundTrip(g.players, g.counters);
    CountersRoundTrip(g, order, uuids, joinTimes);
  }

  /**
   * Reading a saved game brings a counter back exactly if it was zero or an entity of its kind was
   * saved, in whatever order the sessions were written.
   */
  lemma CountersSurvive(g: GameState, order: seq<string>)
    requires IsOrder(order, g.sessions)
    ensures var c := LoadedCounters(Saved(g, order));
      && (c.dogs == g.counters.dogs <==> g.counters.dogs == 0 || SomeDog(g))
      && (c.players == g.counters.players <==> g.counters.players == 0 || g.players != [])
      && (c.sessions == g.counters.sessions <==> g.counters.sessions == 0 || g.sessions != map[])
      && (c.loot == g.counters.loot <==> g.counters.loot == 0 || SomeLoot(g))
  {
    CountersRoundTrip(g, order, _ => "", _ => 0);
  }
}
