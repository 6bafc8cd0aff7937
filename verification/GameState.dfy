/**
 * The whole game as a value, and what each request does to it: a player joins, a player acts, time
 * advances by a tick, the server is shut down and restarted. Everything the program leaves to chance
 * or to a library (spawn points, new loot, the order of sessions and of simultaneous events, tokens)
 * is part of the request, so the theorems about runs hold for every outcome of those choices.
 */
module GameStates {
  import opened Collision
  import opened Entities
  import opened Geometry
  import opened LootGeneration
  import opened Motion
  import opened Replay
  import opened Roads

  datatype SessionState = SessionState(id: nat, gameMap: GameMap, dogs: seq<DogState>, loot: seq<Loot>)

  datatype PlayerState = PlayerState(id: nat, token: string, sessionId: nat, dogId: nat)

  /** A row of the table of retired players; the play time is an unsigned 64-bit number. */
  datatype Record = Record(uuid: string, name: string, score: uint32, playTime: nat)

  /** The next id of each kind. */
  datatype Counters = Counters(dogs: nat, players: nat, sessions: nat, loot: nat)

  /**
   * What the program does not store but the theorems speak about: the value generated so far, the
   * value in bags of retired dogs, when each dog was last active, which dogs come from a save file,
   * and the largest number of dogs that each session has had.
   */
  datatype History = History(
    generated: nat, forfeited: nat, lastActive: map<nat, int>, restored: set<nat>, peaks: map<string, nat>)

  datatype GameState = GameState(
    maps: map<string, GameMap>, sessions: map<string, SessionState>, players: seq<PlayerState>,
    records: seq<Record>, counters: Counters, clock: int, retirementTime: real, history: History)

  // ---- joining ----

  /** A grid point of some road. */
  ghost predicate IsGridPointOf(roads: seq<Road>, p: Point) {
    exists r, x: int, y: int :: r in roads && IsGridPoint(r, x, y) && p == Point(x as real, y as real)
  }

  predicate IsGridPoint(r: Road, x: int, y: int) {
    r.MinX() <= x as real <= r.MaxX() && r.MinY() <= y as real <= r.MaxY()
  }

  /** Random spawning picks a grid point of a road, fixed spawning the start of the first road. */
  ghost predicate IsSpawnPoint(gameMap: GameMap, p: Point) {
    || IsGridPointOf(gameMap.roads, p)
    || (gameMap.roads != []
        && p == Point(gameMap.roads[0].start.x as real, gameMap.roads[0].start.y as real))
  }

  function NewDog(id: nat, name: string, position: Point, uuid: string, joinTime: int): DogState {
    DogState(id, name, position, Vec(0.0, 0.0), North, [], DOG_WIDTH, 0, joinTime, 0.0, true, uuid)
  }

  /** The session of a map, created empty when nobody has joined that map yet. */
  function SessionOf(g: GameState, mapId: string): SessionState
    requires mapId in g.maps
  {
    if mapId in g.sessions then g.sessions[mapId] else SessionState(g.counters.sessions, g.maps[mapId], [], [])
  }

  function PeakOf(g: GameState, mapId: string): nat {
    if mapId in g.history.peaks then g.history.peaks[mapId] else 0
  }

  function Joined(g: GameState, name: string, mapId: string, spawn: Point, token: string, uuid: string): GameState
    requires mapId in g.maps
  {
    var dog := NewDog(g.counters.dogs, name, spawn, uuid, g.clock);
    var base := SessionOf(g, mapId);
    var session := base.(dogs := base.dogs + [dog]);
    g.(sessions := g.sessions[mapId := session],
       players := g.players + [PlayerState(g.counters.players, token, session.id, dog.id)],
       counters := g.counters.(
         dogs := g.counters.dogs + 1, players := g.counters.players + 1,
         sessions := if mapId in g.sessions then g.counters.sessions else g.counters.sessions + 1),
       history := g.history.(
         lastActive := g.history.lastActive[dog.id := g.clock],
         restored := g.history.restored - {dog.id},
         peaks := g.history.peaks[
           mapId := if PeakOf(g, mapId) < |session.dogs| then |session.dogs| else PeakOf(g, mapId)]))
  }

  // ---- acting ----

  function Commanded(d: DogState, move: string, speed: real): DogState {
    var (v, dir) :=
      if move == "U" then (Vec(0.0, -speed), North)
      else if move == "D" then (Vec(0.0, speed), South)
      else if move == "L" then (Vec(-speed, 0.0), West)
      else if move == "R" then (Vec(speed, 0.0), East)
      else (Vec(0.0, 0.0), NoDirection);
    d.(speed := v, direction := dir, active := true, inactivity := 0.0)
  }

  /** Dog `j` of the session of `mapId` obeys its player. */
  function Acted(g: GameState, mapId: string, j: nat, move: string): GameState
    requires mapId in g.sessions && j < |g.sessions[mapId].dogs|
  {
    var s := g.sessions[mapId];
    var d := Commanded(s.dogs[j], move, s.gameMap.dogSpeed);
    g.(sessions := g.sessions[mapId := s.(dogs := s.dogs[j := d])],
       history := g.history.(lastActive := g.history.lastActive[d.id := g.clock]))
  }

  // ---- one session's part of a tick ----

  const MS_IN_SECONDS: real := 1000.0

  function AfterMove(d: DogState, to: Point, stopped: bool, dt: real): DogState {
    d.(position := to,
       speed := if stopped then Vec(0.0, 0.0) else d.speed,
       active := to != d.position,
       inactivity := if to == d.position then d.inactivity + dt else 0.0)
  }

  ghost predicate DogMoved(roads: seq<Road>, dt: real, d: DogState, d': DogState) {
    exists stopped ::
      && Moves(d.position, d.speed, d.direction, dt, roads, d'.position, stopped)
      && d' == AfterMove(d, d'.position, stopped, dt)
  }

  ghost predicate DogsMoved(roads: seq<Road>, dt: real, dogs: seq<DogState>, dogs': seq<DogState>) {
    |dogs'| == |dogs| && forall i :: 0 <= i < |dogs| ==> DogMoved(roads, dt, dogs[i], dogs'[i])
  }

  ghost predicate IsNewLoot(gameMap: GameMap, l: Loot, id: nat) {
    && l.id == id && l.kind < |gameMap.lootValues| && l.value == gameMap.lootValues[l.kind]
    && l.width == LOOT_WIDTH && IsGridPointOf(gameMap.roads, l.position)
  }

  ghost predicate IsSpawn(gameMap: GameMap, lootCount: nat, dogCount: nat, nextId: nat, spawned: seq<Loot>) {
    && |spawned| <= Shortage(lootCount, dogCount)
    && forall i :: 0 <= i < |spawned| ==> IsNewLoot(gameMap, spawned[i], nextId + i)
  }

  function LootItems(loot: seq<Loot>): seq<Item> {
    seq(|loot|, i requires 0 <= i < |loot| => Item(loot[i].position, loot[i].width, loot[i].id, LootItem))
  }

  function OfficeItems(offices: seq<Office>): seq<Item> {
    seq(|offices|, i requires 0 <= i < |offices| =>
      Item(Point(offices[i].position.x as real, offices[i].position.y as real), OFFICE_WIDTH, offices[i].number,
           OfficeItem))
  }

  function Items(gameMap: GameMap, loot: seq<Loot>): seq<Item> {
    LootItems(loot) + OfficeItems(gameMap.offices)
  }

  function Gatherers(before: seq<DogState>, after: seq<DogState>): seq<Gatherer>
    requires |before| == |after|
  {
    seq(|after|, i requires 0 <= i < |after| =>
      Gatherer(before[i].position, after[i].position, after[i].width, after[i].id))
  }

  /** The outcome of chance in one session's part of a tick. */
  datatype Choice = Choice(moved: seq<DogState>, spawned: seq<Loot>, events: seq<Event>)

  ghost predicate IsChoice(s: SessionState, nextLoot: nat, dt: real, c: Choice) {
    && DogsMoved(s.gameMap.roads, dt, s.dogs, c.moved)
    && IsSpawn(s.gameMap, |s.loot|, |s.dogs|, nextLoot, c.spawned)
    && IsEventLog(Items(s.gameMap, s.loot + c.spawned), Gatherers(s.dogs, c.moved), c.events)
  }

  function Start(s: SessionState, c: Choice): Field { Field(c.moved, s.loot + c.spawned, {}) }

  lemma EventsInRange(s: SessionState, nextLoot: nat, dt: real, c: Choice)
    requires IsChoice(s, nextLoot, dt, c)
    ensures InRange(c.events, |c.moved|)
    ensures LootEventsBelow(c.events, |s.loot| + |c.spawned|)
  {
    forall k | 0 <= k < |c.events|
      ensures c.events[k].gatherer < |c.moved|
      ensures c.events[k].itemType.LootItem? ==> c.events[k].item < |s.loot| + |c.spawned|
    {
      assert multiset(c.events)[c.events[k]] >= 1;
      assert IsEvent(Items(s.gameMap, s.loot + c.spawned), Gatherers(s.dogs, c.moved), c.events[k]);
    }
  }

  /** Dogs, ground loot and bags after the collisions of the tick. */
  function Harvested(s: SessionState, c: Choice): (f: Field)
    requires InRange(c.events, |c.moved|)
    ensures |f.dogs| == |c.moved|
  {
    Replayed(Start(s, c), c.events, s.gameMap.bagCapacity)
  }

  // ---- retirement ----

  function Staying(dogs: seq<DogState>, limit: real): (r: seq<DogState>)
    ensures forall d :: d in r <==> d in dogs && d.inactivity < limit
  {
    if dogs == [] then []
    else
      var n := |dogs| - 1;
      assert forall d :: d in dogs <==> d in dogs[..n] || d == dogs[n];
      if dogs[n].inactivity >= limit then Staying(dogs[..n], limit) else Staying(dogs[..n], limit) + [dogs[n]]
  }

  function Retiring(dogs: seq<DogState>, limit: real): (r: seq<DogState>)
    ensures forall d :: d in r <==> d in dogs && d.inactivity >= limit
  {
    if dogs == [] then []
    else
      var n := |dogs| - 1;
      assert forall d :: d in dogs <==> d in dogs[..n] || d == dogs[n];
      if dogs[n].inactivity >= limit then Retiring(dogs[..n], limit) + [dogs[n]] else Retiring(dogs[..n], limit)
  }

  function IdsOf(dogs: seq<DogState>): set<nat> { set d | d in dogs :: d.id }

  function PlayersWithout(players: seq<PlayerState>, gone: set<nat>): (r: seq<PlayerState>)
    ensures forall p :: p in r <==> p in players && p.dogId !in gone
  {
    if players == [] then []
    else
      var n := |players| - 1;
      assert forall p :: p in players <==> p in players[..n] || p == players[n];
      if players[n].dogId in gone then PlayersWithout(players[..n], gone)
      else PlayersWithout(players[..n], gone) + [players[n]]
  }

  const TWO_TO_64: nat := 0x1_0000_0000_0000_0000

  /** The play time is converted to an unsigned number. */
  function RecordOf(d: DogState, clock: int): Record {
    Record(d.uuid, d.name, d.score, (clock - d.joinTime) % TWO_TO_64)
  }

  function RecordsOf(dogs: seq<DogState>, clock: int): seq<Record> {
    if dogs == [] then [] else RecordsOf(dogs[..|dogs| - 1], clock) + [RecordOf(dogs[|dogs| - 1], clock)]
  }

  /** Value in the dogs' bags. */
  function CarriedValue(dogs: seq<DogState>): nat {
    if dogs == [] then 0 else CarriedValue(dogs[..|dogs| - 1]) + BagValue(dogs[|dogs| - 1].bag)
  }

  /** The dogs that this tick has moved count as active now. */
  function LastActiveAfter(lastActive: map<nat, int>, moved: seq<DogState>, clock: int): map<nat, int> {
    map id | id in lastActive :: if exists i :: 0 <= i < |moved| && moved[i].id == id && moved[i].active then clock
                                 else lastActive[id]
  }

  /** One session's part of a tick: movement, new loot, collisions, retirement. */
  function AfterTick(g: GameState, mapId: string, c: Choice): GameState
    requires mapId in g.sessions && InRange(c.events, |c.moved|)
  {
    var s := g.sessions[mapId];
    var f := Harvested(s, c);
    var gone := Retiring(f.dogs, g.retirementTime);
    g.(sessions := g.sessions[mapId := s.(dogs := Staying(f.dogs, g.retirementTime), loot := f.ground)],
       players := PlayersWithout(g.players, IdsOf(gone)),
       records := g.records + RecordsOf(gone, g.clock),
       counters := g.counters.(loot := g.counters.loot + |c.spawned|),
       history := g.history.(
         generated := g.history.generated + BagValue(c.spawned),
         forfeited := g.history.forfeited + CarriedValue(gone),
         lastActive := LastActiveAfter(g.history.lastActive, c.moved, g.clock)))
  }

  // ---- a tick ----

  /** `order` lists every session once. */
  ghost predicate IsOrder(order: seq<string>, sessions: map<string, SessionState>) {
    && (forall m :: m in order <==> m in sessions)
    && forall i, j :: 0 <= i < j < |order| ==> order[i] != order[j]
  }

  /** The choices fit the sessions as the tick reaches them one after the other. */
  ghost predicate AreChoices(g: GameState, dt: int, order: seq<string>, choices: seq<Choice>)
    decreases |order|
  {
    && |choices| == |order|
    && (order != [] ==>
        var n := |order| - 1;
        && AreChoices(g, dt, order[..n], choices[..n])
        && var before := Ticked(g, order[..n], choices[..n]);
           && order[n] in before.sessions
           && IsChoice(before.sessions[order[n]], before.counters.loot, dt as real / MS_IN_SECONDS, choices[n]))
  }

  /** The state after the first `|order|` sessions have had their part of the tick. */
  ghost function Ticked(g: GameState, order: seq<string>, choices: seq<Choice>): GameState
    requires |choices| == |order|
    decreases |order|
  {
    if order == [] then g
    else
      var n := |order| - 1;
      var before := Ticked(g, order[..n], choices[..n]);
      if order[n] in before.sessions && InRange(choices[n].events, |choices[n].moved|) then
        AfterTick(before, order[n], choices[n])
      else before
  }

  function Advanced(g: GameState, dt: int): GameState { g.(clock := g.clock + dt) }

  // ---- restarting ----

  function RestoredDog(d: DogState, uuid: string, joinTime: int): DogState {
    d.(joinTime := joinTime, inactivity := 0.0, active := true, uuid := uuid)
  }

  function RestoredSession(s: SessionState, uuids: nat -> string, joinTimes: nat -> int): SessionState {
    s.(dogs := seq(|s.dogs|, i requires 0 <= i < |s.dogs| =>
         RestoredDog(s.dogs[i], uuids(s.dogs[i].id), joinTimes(s.dogs[i].id))))
  }

  lemma RestoredDogs(s: SessionState, uuids: nat -> string, joinTimes: nat -> int)
    ensures var s' := RestoredSession(s, uuids, joinTimes);
      && |s'.dogs| == |s.dogs|
      && forall i :: 0 <= i < |s.dogs|
           ==> s'.dogs[i] == RestoredDog(s.dogs[i], uuids(s.dogs[i].id), joinTimes(s.dogs[i].id))
  {
  }

  function DogsIn(s: SessionState): set<nat> { IdsOf(s.dogs) }

  function LiveDogs(g: GameState): set<nat> {
    set m, id | m in g.sessions && id in DogsIn(g.sessions[m]) :: id
  }

  ghost predicate SomeDog(g: GameState) { exists m :: m in g.sessions && g.sessions[m].dogs != [] }

  ghost predicate HasLoot(s: SessionState) {
    s.loot != [] || exists i :: 0 <= i < |s.dogs| && s.dogs[i].bag != []
  }

  ghost predicate SomeLoot(g: GameState) { exists m :: m in g.sessions && HasLoot(g.sessions[m]) }

  /**
   * The game after an orderly shutdown and a restart from the save file. Names, positions, bags,
   * scores, loot, players and ids survive; uuids and join times do not, and the clock starts anew.
   * A counter survives only with an entity of its kind; without one, numbering starts at 0 again.
   */
  ghost function Restarted(g: GameState, uuids: nat -> string, joinTimes: nat -> int): GameState {
    g.(sessions := map m | m in g.sessions :: RestoredSession(g.sessions[m], uuids, joinTimes),
       counters := Counters(
         if SomeDog(g) then g.counters.dogs else 0,
         if g.players != [] then g.counters.players else 0,
         if g.sessions != map[] then g.counters.sessions else 0,
         if SomeLoot(g) then g.counters.loot else 0),
       clock := 0,
       history := g.history.(lastActive := map id | id in LiveDogs(g) :: 0, restored := LiveDogs(g)))
  }

  // ---- runs ----

  datatype Request =
    | Join(name: string, mapId: string, spawn: Point, token: string, uuid: string)
    | Act(player: nat, mapId: string, dog: nat, move: string)
    | Tick(dt: int, order: seq<string>, choices: seq<Choice>)
    | Restart(uuids: nat -> string, joinTimes: nat -> int)

  /** Player `i` owns dog `j` of the session of `mapId`. */
  predicate Owns(g: GameState, i: nat, mapId: string, j: nat) {
    && i < |g.players| && mapId in g.sessions && j < |g.sessions[mapId].dogs|
    && g.players[i].sessionId == g.sessions[mapId].id && g.players[i].dogId == g.sessions[mapId].dogs[j].id
  }

  ghost predicate Possible(g: GameState, r: Request) {
    match r
    case Join(name, mapId, spawn, token, uuid) => mapId in g.maps && IsSpawnPoint(g.maps[mapId], spawn)
    case Act(player, mapId, dog, move) => Owns(g, player, mapId, dog)
    case Tick(dt, order, choices) =>
      dt >= 0 && IsOrder(order, g.sessions) && AreChoices(Advanced(g, dt), dt, order, choices)
    case Restart(uuids, joinTimes) => true
  }

  ghost function Served(g: GameState, r: Request): GameState
    requires Possible(g, r)
  {
    match r
    case Join(name, mapId, spawn, token, uuid) => Joined(g, name, mapId, spawn, token, uuid)
    case Act(player, mapId, dog, move) => Acted(g, mapId, dog, move)
    case Tick(dt, order, choices) => Ticked(Advanced(g, dt), order, choices)
    case Restart(uuids, joinTimes) => Restarted(g, uuids, joinTimes)
  }

  /** A fresh server on playable maps. */
  predicate IsInitial(g: GameState) {
    && (forall m :: m in g.maps ==> g.maps[m].Playable() && g.maps[m].id == m)
    && g.sessions == map[] && g.players == [] && g.records == []
    && g.counters == Counters(0, 0, 0, 0) && g.clock == 0
    && g.history == History(0, 0, map[], {}, map[])
  }

  /** Every request of the sequence is possible when its turn comes. */
  ghost predicate IsRun(g: GameState, requests: seq<Request>)
    decreases |requests|
  {
    requests != [] ==>
      var n := |requests| - 1;
      IsRun(g, requests[..n]) && Possible(AfterRun(g, requests[..n]), requests[n])
  }

  ghost function AfterRun(g: GameState, requests: seq<Request>): GameState
    decreases |requests|
  {
    if requests == [] then g
    else
      var n := |requests| - 1;
      var before := AfterRun(g, requests[..n]);
      if Possible(before, requests[n]) then Served(before, requests[n]) else before
  }
}
