# The dog game server, modelled and verified

This project models the server's tick engine and everything that has to stay consistent around it:
sessions, dogs, loot on the ground and in bags, players, id counters, the clock, the save file and the
pool of database connections. It proves what the code guarantees on every run, and where the code
falls short of what one would expect it proves exactly when.

`dafny verify dfyconfig.toml` checks everything.

## How the model is organised

The same game appears twice.

*As a value.* `GameStates` describes the whole game as a `GameState` and each request as a step from
one state to the next: a player joins, a player acts, a tick passes, the server is shut down and
restarted. Whatever the program leaves to chance, to a library or to an unordered container (spawn
points, new loot, the order of sessions, of roads in the index and of simultaneous events, tokens,
uuids) is part of the request, so a theorem about all runs covers every outcome. `Motion`, `Roads`,
`Collision` and `Replay` hold the rules inside a tick; `Terrain`, `Bookkeeping`, `Registry`,
`LootPlaces`, `Peaks`, `Clocks` and `Wares` hold one invariant family each; `Runs` combines most of them
into the theorems about every reachable state. `SessionTicks` says what a whole tick is for one session;
from there `Steering` follows a command to the dog's way, `Newcomers` a new dog and `Meetings` the dogs
past loot and offices, and `RetirementRecords` adds what a tick writes down. `Progress`
and `Departures` prove that uncommanded dogs leave. `Crashes` extends the runs by saves in between and
by servers that are killed and start from the last save; `Resumption` compares a loaded game with the
original. `MotionLimits`, `MistakenLoot`, `TakenUnmet`, `StrandedLoot` and `PassedInVain` are about what
the code does not promise.

*As objects.* The classes `Dog`, `GameSession`, `Players`, `Game`, `LootGenerator`, `GathererProvider`
and the methods of `Sessions`, `Retirement`, `Ticking`, `Serving` and `Archive` update objects in
place, in the loops and with the branches of the program. `Game.Shows(g)` says that the objects show
the state `g`, and `AllLinked` that every player holds the very session and dog objects that the table
of sessions holds. Each request is proved to lead from objects that show `g` to objects that show the
state that `GameStates` says: `Game.JoinGame`, `Serving.Act`, `Serving.ServeTick`, `Archive.SaveState`
and `Archive.Reload`. A new `Game` shows an initial state, and every state that a run reaches meets
what these methods require (`Serving.ReachableStatesAreHealthy`), so the theorems of `Runs` are about
these objects.

The connection pool is modelled twice as well: `ConnectionPools` has the pool and its wrappers as
objects, one critical section at a time; `PoolProtocol` is a state machine over the single steps of
any number of threads, with an explicit mutex and condition variable, and `PoolRuns` shows a run of it.

`History` (in `GameState`) is bookkeeping that the program does not store: the value generated so
far, the value that retired dogs took away in their bags, when each dog was last active, which dogs
come from a save file, and the largest number of dogs each session has had. Theorems speak about it;
no step of the program depends on it.

## Where the code differs from what one would expect

The model follows the code; these are the places where that is visible in the theorems.

- An event names an item by its position in the provider's list (`src/collision_detector.cpp:88`),
  but the replay looks for a loot with that *id* (`src/model.cpp:1127-1130`, `src/model.cpp:1152`).
  `Replay.TakesPassedLoot`: a dog with room takes the loot it passes if and only if that loot's id is
  its position. `PassedInVain.LootIsPassedInVain`: a dog misses the loot that it meets on a run of four
  requests. `MistakenLoot.ReachableTicksTakeByName`: what leaves the ground is the loot whose *id* is the
  position of an item that a dog with room meets, wherever the loot lies; `TakenUnmet.LootIsTakenUnmet`
  is a run on which a dog gets a loot from the other end of the road.
  `StrandedLoot.RunKeepsStranded`: loot whose id is not below the largest number of dogs its session
  has had stays on the ground, however the run goes on.
- The index box of a road is not padded beyond its ends (`src/model.cpp:72-88`), the road surface is
  (`src/model.cpp:999-1022`). `MotionLimits.FrozenExactly` says when a dog that should move stays put,
  on any network; `Motion.FrozenInEndCap` is an instance. `MotionLimits.IndexAgreesExactly` says when
  the index gives the result of a scan of all roads, for the position and for the stop flag.
- Only the end of a movement is tested (`src/model.cpp:968-977`), so a tick can carry a dog over a gap
  (`Motion.LongTickJumpsGap`). `MotionLimits.TickStaysOnNetworkExactly` says when it does not.
- Milliseconds are handed to the loot generator as seconds (`src/model.cpp:1055-1057`):
  `Sessions.UpdateLoot` ties the new loot and the generator's clock to 1000 times the tick. All sessions
  share the generator, so each session's part of a tick moves its clock on, and loot that appears in one
  session sets it back for all (`Ticking.UpdateAll`).
- A counter is saved inside each entity of its kind, so with no such entity it restarts at 0.
  `Persistence.CountersSurvive` says exactly when each counter comes back from a save file.
- A server that was killed starts from an older save, while the table of retired players keeps its
  rows. `Crashes.CrashOvercounts`: the ledger then exceeds that of the save by the worth of the rows
  written since. Nothing else is affected.
- Scores wrap around. `Replay.ReplayConservesExactly`: value is conserved exactly if and only if no
  dog is worth 2^32 or more when it visits an office.
- Retired dogs take the value of their bags with them; the ledger books it as forfeited.

## Model

| member | source | states |
|---|---|---|
| `Roads.OverlapDecidesMeeting` | src/model.cpp:955-962 | for a movement along an axis, interval overlap decides whether the closed segment meets the closed box, in both directions |
| `Roads.QueryIndex` | src/model.cpp:955-962 | returns exactly the roads whose index box the movement meets or strictly contains the start |
| `Roads.HorizontalRoadSurface` | src/model.cpp:999-1010 | the surface of a horizontal road is exactly what lies within 0.4, in both coordinates, of a point of its middle line |
| `Roads.VerticalRoadSurface` | src/model.cpp:1011-1021 | the same for a vertical road |
| `Roads.BoxIsSurfaceBetweenEnds` | src/model.cpp:72-88 | the index box of a road is exactly the part of its surface between its ends, and its end caps are the part beyond them |
| `Roads.RoadBetweenEndsIsFound` | src/model.cpp:955-962 | a road that holds the dog between its ends is found wherever the dog is going |
| `Roads.IndexLosesOnlyEndCaps` | src/model.cpp:72-88 | a road under either end of the movement that the filter misses is missed only because that end lies past an end of the road, in coordinates |
| `Roads.StopPointIsFarthest` | src/model.cpp:1024-1048 | the stop point is on the road, ahead, not past the target, and at least as far as any such point |
| `Roads.RoadIsConvex` | src/model.cpp:999-1022 | a road surface contains the whole segment between two of its points |
| `Motion.MoveIsDeterministic` | src/model.cpp:979-996 | the order and multiplicity in which the index lists the roads cannot change where the dog goes or whether it is stopped |
| `Motion.OutcomeIsUnique` | src/model.cpp:935-997 | a tick has at most one outcome for a dog on a given road network |
| `Motion.MoveStaysOnRoads` | src/model.cpp:935-997 | a dog on the network ends on the network, straight ahead and not past its target |
| `Motion.SameRoadMovesAreSafe` | src/model.cpp:999-1022 | a road covers every point of a straight movement exactly when it holds both ends |
| `Motion.StopSweepsOneRoad` | src/model.cpp:979-996 | in the stop branch one single road covers every point of the way |
| `Motion.StopIsWithinReach` | src/model.cpp:979-996 | in the stop branch the way follows the heading and is no longer than speed times tick |
| `Motion.StopIsFarthest` | src/model.cpp:979-996 | no point on the way that some found road under the dog holds is farther than the stop, beyond the initial best distance |
| `Motion.IndexRefinesFullScan` | src/model.cpp:955-996 | with the index a dog never goes farther than with a scan of all roads; where no end lies in an end cap the two agree |
| `Motion.FrozenInEndCap` | src/model.cpp:964-966 | the lone road as a witness: at the outer edge of its end cap a dog that turns round stays put, unstopped, iff speed times tick is below the half width |
| `Motion.LongTickJumpsGap` | src/model.cpp:968-977 | a concrete network as a witness: one tick carries a dog across a gap |
| `MotionLimits.FrozenExactly` | src/model.cpp:944-976 | on any network a dog that should move stays put without being stopped iff no road passes the filter, or the tick is too short to move it and a found road holds it; without a found road it stands past an end of every road under it |
| `MotionLimits.FrozenForShorterTicks` | src/model.cpp:955-966 | where a tick finds no road, no shorter tick under the same heading finds one |
| `MotionLimits.IndexAgreesExactly` | src/model.cpp:955-996 | where some road holds the target, the index gives the position of the full scan iff a found road holds it or the dog is there already; where none does, iff every way under the dog is matched by a found road; and exactly when the stop flags agree |
| `MotionLimits.WayIsOnNetworkExactly` | src/model.cpp:968-977 | every point of a straight way is on some road iff its start is and every road that ends on the way is continued by another |
| `MotionLimits.TickStaysOnNetworkExactly` | src/model.cpp:935-997 | the whole way of a tick is on the network iff it does not take the move-to-target branch or no road that ends on the way to the target lacks a continuation |
| `MotionLimits.LongTickLeavesNetwork` | src/model.cpp:968-977 | the way of the gap witness leaves the network |
| `Motion.ReachesTargetDecidesMove` | src/model.cpp:968-977 | the dog moves to its target unstopped exactly in the move-to-target branch (or without moving) |
| `Motion.MergedTickReachesSameTarget` | src/model.cpp:951-977 | ticks that all reach their targets under one heading can be merged into one tick, which reaches its target at the same point |
| `Entities.Dog.ReleaseLoot` | src/model.cpp:311-316 | the bag's value is added to the 32-bit score modulo 2^32 and the bag is emptied |
| `Entities.Dog.CalculateNewPosition` | src/model.cpp:935-997 | the loops of the motion code produce an outcome that the movement rule allows, and the speed is reset exactly when stopped |
| `Entities.AnyRoadHolds` | src/model.cpp:968-973 | true exactly when some listed road holds the point |
| `Entities.FarthestStop` | src/model.cpp:979-996 | the strict-maximum loop ends at a stop as the rule defines it, for any order of the roads |
| `Entities.Dog.Copy` | src/model_serialization.h:89-108 | the dog object shows exactly the restored value |
| `Collision.SquaredDistanceIsCrossProduct` | src/collision_detector.cpp:8-27 | the squared distance times the squared way equals the squared cross product, so it is not negative |
| `Collision.ProjectionIsClosestApproach` | src/collision_detector.cpp:8-27 | the projection ratio is the point of the line closest to the item, and the squared distance is the distance there |
| `Collision.CollectedMeansNearOnTheWay` | src/collision_detector.h:19-23 | an item is collected iff the point of the line closest to it is on the way and within the radius |
| `Collision.CollectsWhatItPasses` | src/collision_detector.cpp:81-87 | a gatherer collects an item iff it moved and its way passes the item within the sum of both widths, at its closest point |
| `Collision.FindGatherEvents` | src/collision_detector.cpp:65-105 | one event for each moved gatherer and collected item, none else, sorted by time |
| `Collision.SortByTime` | src/collision_detector.cpp:98-101 | the result is sorted by time and a permutation of the input |
| `Collision.EventLogIsExact` | src/collision_detector.cpp:74-103 | a gatherer and an item have exactly one event in the log iff the gatherer's way passes the item within the sum of the widths; each event tells where on the way and how closely; earlier passings come first |
| `LootGeneration.LootGenerator.Generate` | src/loot_generator.cpp:9-25 | never more loot than is missing, all of it with random number 1 and no decay, and the accumulated time is reset exactly when loot appears |
| `LootGeneration.AmountAfterIntervals` | src/loot_generator.cpp:14-20 | under the laws of powers: after n base intervals the amount is the missing loot times the random number times the probability that loot did not fail n times in a row, rounded |
| `LootGeneration.LongerWaitNeverYieldsLess` | src/loot_generator.cpp:14-20 | with the same random number a longer time without loot never yields less loot, if powers of numbers from 0 to 1 fall with the exponent |
| `LootGeneration.AmountsUpToShortage` | src/loot_generator.cpp:14-20 | with a random number between 0 and 1 and no decay left, every amount up to the shortage can be drawn, and no other |
| `Terrain.GetRandomPointOnRoad` | src/model.cpp:201-224 | every draw is a grid point of some road and therefore on the network, whichever way the road was entered |
| `Terrain.DrawnPointsAreGridPoints` | src/model.cpp:207-221 | exactly the points with whole coordinates between the ends of the roads can be drawn |
| `Terrain.SpawnPointIsOnRoad` | src/application.cpp:159-166 | both spawn modes put a dog on a road |
| `Terrain.TickKeepsTerrain` | src/model.cpp:631-645 | a session's part of a tick keeps all dogs on roads, heading and velocity in agreement, and bags within capacity |
| `Sessions.GameSession.GetDogById` | src/model.cpp:444-455 | finds a dog with the id iff the session has one |
| `Sessions.GameSession.GatherLoot` | src/model.cpp:469-485 | takes the first loot with the id off the ground, fails exactly when there is none, leaves the rest in order |
| `Sessions.GameSession.RemoveDog` | src/model.cpp:495-507 | erases the first dog with the id, if any |
| `Sessions.MoveDog` | src/model.cpp:906-931 | one dog's position, speed, status and inactivity after its move, and its entry in the provider |
| `Sessions.UpdateDogsPosition` | src/model.cpp:898-933 | every dog has moved by the rule, and gatherer g is dog g with its old and new position |
| `Sessions.UpdateLoot` | src/model.cpp:1050-1078 | for any random numbers, new loot is appended, at most the shortage, with consecutive fresh ids, on roads, with the value of its kind; kinds and places are the drawn ones, and number and generator clock follow 1000 times the tick |
| `Sessions.AddItems` | src/model.cpp:1080-1111 | the provider holds the ground loot in order and then the offices |
| `Sessions.ReplayEvent` | src/model.cpp:1125-1160 | one round of the event loop is one step of the replay, and the lists of collected and existing ids keep matching the ground |
| `Sessions.GatherLoot` | src/model.cpp:1112-1161 | bags, scores and ground after the event loop are those of the replay of a complete sorted event log; no gathering fails |
| `Sessions.CollectingKeepsPresent` | src/model.cpp:1117-1156 | an id seen at the start and not collected is still on the ground, so `GameSession::GatherLoot` cannot throw |
| `Sessions.PlayTick` | src/model.cpp:636-643 | movement, new loot and collisions of one session lead to the harvested state of an allowed choice |
| `Replay.ReplayConservesValue` | src/model.cpp:1125-1160 | for any order of events, ground value, bag value and scores together change only by multiples of 2^32, downwards |
| `Replay.ReplayCreatesNoLoot` | src/model.cpp:1125-1160 | the loot on the ground and in bags together only shrinks, and if every id was in one place it stays so |
| `Replay.ReplayRespectsCapacity` | src/model.cpp:1148-1151 | bags never exceed the capacity of the map |
| `Replay.ReplayChangesOnlyHauls` | src/model.cpp:1125-1160 | the replay touches nothing of a dog but bag and score |
| `Replay.FirstClaimWins` | src/model.cpp:1125-1160 | a loot is taken iff some event has its id and a dog with room at that moment; the first such event moves it, and nothing else, into its dog's bag; without one it stays on the ground |
| `Replay.TakenIsFinal` | src/model.cpp:1138-1147 | an id that has been taken stays taken for the rest of the events, which is what the code's list of collected ids relies on |
| `Replay.BagAndScoreAfterReplay` | src/model.cpp:1144-1155 | the final bag is what was gathered since the last office, after the old bag if there was none; the score grew by everything banked before |
| `Replay.BankedBeforeLastVisit` | src/model.cpp:1144-1145 | what a dog has banked is what it had gathered up to its last office event |
| `Replay.HighIdsAreOutOfReach` | src/model.cpp:1127-1152 | loot whose id is at least the number of loot items can be neither taken nor put into a bag by any events |
| `Replay.TakesPassedLoot` | src/model.cpp:1125-1158 | for a dog with room and a passed loot that still lies there: the event takes that loot, into the dog's bag, iff its id equals its position |
| `Replay.ReplayConservesExactly` | src/model.cpp:311-316 | ground, bags and scores keep their total exactly iff no dog is worth 2^32 or more when it banks |
| `Meetings.ItemsAreLootAndOffices` | src/model.cpp:1080-1111 | the provider lists the ground loot in order and then every office, at its place and 0.5 wide |
| `Meetings.MeetsLootItPasses` | src/model.cpp:1112-1130 | in a session's part of a tick a dog has an event for a loot iff its way passes the place where the loot lies |
| `Meetings.BanksExactlyAtOffices` | src/model.cpp:1096-1145 | in a session's part of a tick a dog banks iff its way passes an office of the map |
| `Meetings.ScoresComeFromOffices` | src/model.cpp:1112-1161 | in a tick from a reachable state: a dog whose way passes an office within 1.1 adds its old bag and loot from the ground to its score modulo 2^32, any other keeps its score and its bag |
| `Meetings.UnmovedDogMeetsNothing` | src/collision_detector.cpp:76-78 | a dog that does not move neither gathers nor banks |
| `Wares.LootIsWare` | src/model.cpp:1066-1077 | in every reachable state all loot, lying or carried, is of a kind of its map, has that kind's value and comes from a grid point of a road |
| `Steering.CommandSetsCourse` | src/application.cpp:23-44 | U, D, L and R send the dog up, down, left and right by speed times tick, any other word stops it; activity and idle time are reset and nothing else changes |
| `Steering.StandsWhenSlow` | src/model.cpp:944-949 | a dog with a heading stands iff it is slower than machine epsilon |
| `Steering.RoadCarriesDog` | src/model.cpp:955-977 | from between the ends of a road a dog reaches every target on that road, under all four headings |
| `Steering.RoadCarriesDogToItsEdge` | src/model.cpp:955-996 | from between the ends of a road a dog gets at least as far as that road goes |
| `Steering.DogObeysCommand` | src/application.cpp:23-44 | in a reachable state, a command and then a tick: the dog goes straight in the direction told, at most at its map's speed, and exactly that far if a road leads it there |
| `Steering.DogIdlesIfUnmoved` | src/model.cpp:922-930 | in a tick from a reachable state a dog's idle time goes on exactly if the tick leaves both of its coordinates as they were, and starts anew otherwise |
| `Steering.RetiredDogHasNotMoved` | src/model.cpp:869-874 | with a positive retirement time a dog that its session's part of a tick retires has not moved in it |
| `Newcomers.JoinBringsNewcomer` | src/application.cpp:151-177 | joining appends one dog, standing, facing north, 0.6 wide, with empty bag and score 0, and one player with the token, who owns it; all others stay as they are |
| `Newcomers.NewcomerWaits` | src/model.cpp:944-949 | in a reachable state, joining and then a tick: the new dog is where it was spawned and has only grown idle |
| `PassedInVain.LootIsPassedInVain` | src/model.cpp:1125-1134 | in a reachable state a dog with room runs over a loot in a possible tick and does not get it; the loot is stranded |
| `MistakenLoot.TakesMetLoot` | src/model.cpp:1125-1152 | the loot that an event takes is the one its dog met iff that loot's id is its list position |
| `MistakenLoot.LeavesGroundExactly` | src/model.cpp:1125-1158 | in a session's part of a tick a loot leaves the ground iff a dog with room meets the item at the list position that equals the loot's id |
| `MistakenLoot.ReachableTicksTakeByName` | src/model.cpp:1125-1158 | the same for every tick from a reachable state, where ground ids are distinct, in whatever order the sessions come |
| `TakenUnmet.LootIsTakenUnmet` | src/model.cpp:1125-1158 | a run on which a dog gets a loot that it does not meet, while the loot that it meets stays on the ground |
| `StrandedLoot.RequestKeepsStranded` | src/model.cpp:1112-1161 | no request takes a ground loot whose id is not below the session's peak |
| `StrandedLoot.RunKeepsStranded` | src/model.cpp:1112-1161 | however a run goes on, ground loot whose id is not below the peak at its end is still on the ground |
| `Peaks.HarvestStaysWithinPeak` | src/model.cpp:1050-1078 | ground loot never exceeds the session's largest number of dogs, nor do ids in bags reach it, and loot with higher ids stays on the ground |
| `Peaks.HighLootIsStranded` | src/model.cpp:1112-1161 | ground loot whose id is not below the session's largest number of dogs is still on the ground after the tick |
| `Bookkeeping.RecordsAccountForDogs` | src/model.cpp:874-882 | the worth of retiring dogs is exactly their records' scores plus the value in their bags |
| `Bookkeeping.RetirementSplitsWorth` | src/model.cpp:888-895 | staying and retiring dogs together are worth what all were worth |
| `Bookkeeping.HarvestConservesValue` | src/model.cpp:636-643 | a session's ground, bags and scores grow by the new loot's value, up to multiples of 2^32 |
| `Bookkeeping.TickKeepsBalance` | src/model.cpp:631-645 | a session's part of a tick keeps the ledger of the whole game balanced |
| `Bookkeeping.BalancedExactlyWhenSmall` | src/model.cpp:311-316 | with less than 2^32 generated a balanced ledger equals the value generated |
| `Registry.PlayersAndDogsCorrespond` | src/application.cpp:151-177 | each player owns exactly one dog of exactly one session, and each dog has exactly one owner |
| `Registry.JoinKeepsIds` | src/model.cpp:581-592 | joining keeps dog, player and session ids distinct and below their counters, and sessions apart |
| `Registry.JoinKeepsLinks` | src/application.cpp:168-177 | joining keeps the correspondence of players and dogs |
| `Registry.TickKeepsLinks` | src/model.cpp:866-896 | retirement keeps the correspondence of players and dogs |
| `Registry.RetirementIsLocal` | src/model.cpp:866-896 | retirement in one session leaves other sessions and their players alone |
| `Registry.RestartKeepsIdentities` | src/model.cpp:762-794 | after a reload all ids are distinct and below the restored counters, and players still correspond to dogs |
| `LootPlaces.LootIsInOnePlace` | src/model.cpp:1112-1161 | two places in the game that hold loot with the same id are the same place with the same loot |
| `LootPlaces.TickKeepsPlaces` | src/model.cpp:1068-1077 | a session's part of a tick keeps every loot id in one place and below the loot counter, across all sessions |
| `LootPlaces.RestartKeepsPlaces` | src/model_serialization.h:37-52 | a reload keeps every loot id in one place and below the restored counter |
| `Clocks.TickKeepsClock` | src/model.cpp:923-931 | after a session's part of a tick the inactivity of its dogs is the time since they last joined, acted or moved |
| `Clocks.TickRetiresOnTime` | src/model.cpp:866-896 | a session's part of a tick leaves exactly the dogs that have been idle for less than the retirement time |
| `Clocks.TickRecords` | src/model.cpp:874-882 | one record per retiring dog, in order, appended; the play time of a dog that was not restored is at least the retirement time |
| `Clocks.ActKeepsClock` | src/application.cpp:42-43 | after an action the inactivity of every dog is still the time since it last joined, acted or moved |
| `Runs.RequestKeepsInv` | src/api_handler.h:709-724 | every request keeps the combined invariant |
| `Runs.RunKeepsInv` | src/model.cpp:631-646 | the combined invariant holds after every run from a fresh server |
| `Runs.DogsStayOnRoads` | src/model.cpp:935-1048 | in every reachable state every dog is on a road of its map, heading and velocity agree, and its bag is within capacity |
| `Runs.BooksBalance` | src/model.cpp:866-896 | in every reachable state ground, bags, scores, records and forfeited bags add up to the value generated, modulo 2^32 and exactly below it |
| `Runs.OwnershipIsOneToOne` | src/application.cpp:82-149 | in every reachable state players and dogs correspond one-to-one and the next ids are fresh |
| `Runs.LootHasOnePlace` | src/model.cpp:1112-1161 | in every reachable state a loot id is in one place only and below the counter |
| `Runs.LootIsBoundedByPeak` | src/model.cpp:1050-1078 | in every reachable state a session's ground loot is at most its largest number of dogs, and ids in bags are below it |
| `RetirementRecords.RetiredDogsGetRecords` | src/model.cpp:866-896 | a tick from a reachable state writes records for exactly the dogs it retires, in whatever order the sessions come, each with the dog's uuid, name and time since it joined, which is at least the retirement time unless the dog was restored |
| `Progress.MoveTakesTime` | src/model.cpp:906-997 | a tick, whichever branch of the motion code it takes, takes its own length off the time that the dog can still stay |
| `Progress.TimeLeftIsBounded` | src/model.cpp:906-997 | a running dog's time is at most its way to the end of the last road, the longest tick, and one retirement time for each road and one more |
| `Departures.UncommandedDogLeaves` | src/model.cpp:866-931 | from every reachable state: a dog that nobody commands has left once ticks have taken longer than its time, whoever joins and whatever the others do |
| `Resumption.LoadedIsSameExactly` | src/model_serialization.h:97-117 | a loaded game is the original, up to what the save file does not keep of dogs, iff every counter in use has an entity of its kind |
| `Resumption.RequestsMatch` | src/api_handler.h:709-724 | joining, acting, restarting, and a tick in which nobody retires do the same to two games that are the same in this sense |
| `Resumption.LoadedGameGoesOn` | src/model.cpp:739-822 | whatever a reachable game can go on to do until somebody retires, the loaded game can do with the same requests and outcomes, and it ends as the same game |
| `Crashes.CrashRunKeepsInv` | src/model.cpp:873-885 | whatever is served, saved and killed in whatever order, also in the middle of a tick when rows have been written, the combined invariant holds of the game and of what the save file would bring back |
| `Crashes.CrashOvercounts` | src/model.cpp:739-822 | after a reload the ledger is that of the saved game plus the worth of the records written since the save |
| `Crashes.OrderlyReload` | src/main.cpp:302-305 | after an orderly shutdown loading the file is the restart of the run model |
| `Runs.DogsRetireOnTime` | src/model.cpp:866-931 | a tick from a reachable state retires exactly the dogs then idle for the retirement time, and none had been idle that long before |
| `Removal.ErasingIsFiltering` | src/application.cpp:138-149 | where keys are distinct, erasing the first match is filtering by the key |
| `Removal.WithoutTwice` | src/model.cpp:873-885 | removing two sets of ids one after the other is removing their union |
| `PlayerRegistry.Players.AddPlayer` | src/application.cpp:82-95 | the new player takes the next id and is appended |
| `PlayerRegistry.Players.RemovePlayerFromGameByDogId` | src/application.cpp:138-149 | the first player with that dog leaves the registry and the dog leaves that player's session; no other session is touched |
| `PlayerRegistry.MakeAction` | src/application.cpp:23-44 | the objects show the commanded dog, whose course `Steering.CommandSetsCourse` states |
| `Retirement.InactiveDogs` | src/model.cpp:869-874 | lists exactly the dogs at or over the limit, in order |
| `Retirement.RetireDog` | src/application.cpp:138-149 | both containers become their old contents filtered by one dog's id |
| `Retirement.RetireInactive` | src/model.cpp:876-887 | one record per inactive dog in order, and both containers are filtered by all their ids |
| `Retirement.RetireAndSweep` | src/model.cpp:866-896 | after the loop no inactive dog is left, so the final erase removes nothing |
| `Retirement.RemoveInactiveDogs` | src/model.cpp:866-896 | sessions' dogs and players are the order-preserving filters of their old contents, with one record per inactive dog |
| `Retirement.StatesWithout` | src/model.cpp:888-895 | filtering dog objects by the ids of inactive dogs is filtering their states by inactivity |
| `GameServer.Game.constructor` | src/main.cpp:196-199 | a new server shows an initial state and has no players |
| `GameServer.Game.CreateDog` | src/application.cpp:168-171 | a new dog with the next id, standing, with the current time as join time |
| `GameServer.Game.AddDogToSession` | src/model.cpp:581-592 | the session of the map is found or opened with the next id, and only its list of dogs grows |
| `GameServer.Game.JoinGame` | src/application.cpp:151-177 | the join request is possible, the spawn point is the drawn one or the start of the first road, the objects show the joined state, and the new player holds the very session and dog objects of the table |
| `Ticking.OthersStayShown` | src/model.cpp:634-646 | what a tick does to one session's objects does not show in any other session |
| `Ticking.PlayersFitSession` | src/application.cpp:138-149 | the player found by a dog id of a session holds this session, and every dog has such a player |
| `Ticking.UpdateSession` | src/model.cpp:634-646 | one round of the loop over sessions takes the objects to the state after that session's part of the tick |
| `Ticking.UpdateAll` | src/model.cpp:631-646 | for any order of the sessions the loop takes the objects to the state after the whole tick, with an allowed choice for each session, whose new loot is the one drawn and as much as the shared generator yields in turn |
| `Serving.Act` | src/application.cpp:23-44 | an action takes the objects to the acted state: only the player's own dog changes |
| `Serving.ServeTick` | src/api_handler.h:709-724 | advancing the clock and updating takes the objects to the state after a possible tick request |
| `Serving.ReachableStatesAreHealthy` | src/model.cpp:631-646 | every reachable state meets what acting, ticking, joining and reloading rely on |
| `Persistence.DogRoundTrip` | src/model_serialization.h:78-113 | a dog read back is the saved dog but for uuid, join time, inactivity and status |
| `Persistence.SessionRoundTrip` | src/model_serialization.h:144-185 | a session read back has its dogs, bags and ground loot in order |
| `Persistence.SessionsRoundTrip` | src/model.cpp:762-775 | the table of sessions read back is that of the saved maps, for any order of saving |
| `Persistence.CountersRoundTrip` | src/model_serialization.h:37-52 | overwriting the counters entity by entity ends with the saved counter of each kind that has an entity and 0 for the others |
| `Persistence.LoadAfterSave` | src/model.cpp:659-822 | loading a saved game gives the persisted part of the whole game: sessions, players, tokens, ids, counters |
| `Persistence.CountersSurvive` | src/model_serialization.h:208-230 | reading a saved game, sessions in any order, brings each counter back iff it was zero or an entity of its kind was saved |
| `Archive.SaveDog` | src/model_serialization.h:78-95 | the loop over the bag writes the whole dog |
| `Archive.SaveSession` | src/model_serialization.h:144-161 | the loops over dogs and loot write the whole session |
| `Archive.SaveState` | src/model.cpp:695-719 | the file written from the objects is the saved form of the state they show |
| `Archive.RestoreLoot` | src/model_serialization.h:46-52 | the loot read back, and the loot counter overwritten |
| `Archive.RestoreDog` | src/model_serialization.h:97-117 | a new dog object with the saved fields, and both counters overwritten |
| `Archive.RestoreSession` | src/model_serialization.h:163-185 | a new session object with new dog objects that shows the saved session, and the counters overwritten in order |
| `Archive.FindSessionById` | src/model.cpp:538-550 | finds a session with the id iff the table has one |
| `Archive.RestorePlayer` | src/model_serialization.h:216-230 | the player read back is linked to the very dog object that its session holds |
| `Archive.LoadState` | src/model.cpp:739-822 | for any file whose maps are known and whose players can be linked: sessions, players and counters are those of the file, and all players are linked |
| `Archive.SavedPlayersCanLink` | src/model.cpp:784-794 | every player of a file saved from a sound game can be linked |
| `Archive.Reload` | src/main.cpp:199-214 | a new server that loads a save file, possibly older than the table of retired players, shows the reloaded game |
| `Pools.TakeMovesOne` | src/database.cpp:14 | taking moves exactly one connection out of the slots and keeps free slots below full ones |
| `Pools.ReturnMovesOne` | src/database.cpp:21 | returning moves exactly one connection back and keeps free slots below full ones |
| `Pools.TakeFits` | src/database.cpp:14 | after taking, every connection is still in exactly one slot or lent out, and the number lent out is the used counter |
| `Pools.ReturnFits` | src/database.cpp:20-21 | a lent connection finds a used slot when it is returned, in whatever order connections come back |
| `ConnectionPools.ConnectionPool.constructor` | src/database.h:62-68 | all slots are full of distinct connections and none is lent out |
| `ConnectionPools.ConnectionPool.GetConnection` | src/database.cpp:14 | the wrapper gets the connection at the used slot and is its only holder |
| `ConnectionPools.ConnectionPool.ReturnConnection` | src/database.cpp:17-22 | the assertion holds, the connection is back in a slot and the wrapper is empty |
| `ConnectionPools.ConnectionWrapper.Move` | src/database.h:40 | the connection has one holder before and after a move |
| `ConnectionPools.ConnectionWrapper.Destroy` | src/database.h:51-55 | a wrapper gives its connection back exactly if it still has one |
| `PoolProtocol.StepKeepsInv` | src/database.cpp:8-24 | every step of every thread keeps mutual exclusion, tidy slots, conservation of connections and the wakeup invariant |
| `PoolProtocol.RunKeepsInv` | src/database.cpp:8-24 | the invariant holds after every interleaving of any number of threads |
| `PoolProtocol.MutualExclusion` | src/database.cpp:9-19 | at most one thread is in a critical section |
| `PoolProtocol.PoolStaysConsistent` | src/database.cpp:14-21 | on every run no assertion fails, slots below the used counter are empty and the rest full, no connection is lost or doubled, and the used counter is the number of holders |
| `PoolProtocol.EachConnectionHasOnePlace` | src/database.h:30-55 | on every run a connection is in exactly one slot or one wrapper |
| `PoolProtocol.NoWakeupIsLost` | src/database.cpp:10-23 | whenever a thread sleeps, free connections are at most the threads about to notify plus the woken threads that have not looked yet, plus the owner of the mutex if it is about to act; with the mutex free that is the first two |
| `PoolProtocol.SleeperHasHope` | src/database.cpp:10-12 | a sleeping thread implies a free connection or a holder that is not waiting |
| `PoolProtocol.SomebodyCanMoveOn` | src/database.cpp:8-24 | in a pool with connections some thread can move on while any thread is not idle |
| `PoolProtocol.InternalStepReducesWork` | src/database.cpp:8-24 | every step that is neither a new request nor a spurious wakeup reduces the work left |
| `PoolProtocol.RunsEnd` | src/database.cpp:8-24 | without new requests and spurious wakeups the threads come to a standstill within a number of steps known beforehand |
| `PoolProtocol.StandstillMeansServed` | src/database.cpp:8-24 | a run is at a standstill iff every thread is idle, so every request has been served |
| `PoolRuns.OvertakenAndServed` | src/database.cpp:8-24 | a run with two threads and one connection: the second sleeps, wakes up spuriously, is notified, overtaken, and served after the next return |
| `PoolProtocol.EmptyPoolStarves` | src/database.h:62-68 | without connections the first thread to ask sleeps for ever |

## Left out

- HTTP requests, JSON, static files, logging and command lines. API actions and ticks are served one
  after the other, and a tick advances the clock before it updates the game (`src/api_handler.h:723-724`).
- SQL. Writing a record appends to a list and does not fail; the upsert on a repeated uuid is not modelled.
- The text of the archive, the temporary file and its renaming. The save file is a value.
- The structure of the R-tree. The index is any list of exactly the roads that pass its filter.
- Random numbers, uuids and tokens are parameters, and so is the power function of the loot generator.
  Nothing in the code makes tokens unique, so nothing is claimed about it.
- Floating point: coordinates, speeds and times are real numbers, without rounding, infinities and NaN.
- 32-bit ids that wrap around after 2^32 entities, and the 32-bit reading of office ids.
- The real-time clock. Game time is the test-mode clock.
- The timer of the periodic save. A run may save at any point between two requests.
- Assigning to a wrapper that still has a connection; the code constructs, moves and destroys only.
- Negative ticks, speeds and generator intervals, maps without roads, and save files that name unknown
  maps or players that cannot be linked: preconditions.
- Buildings, names of maps, the lists that handlers show to clients and the parsing of paging parameters.
- Fairness in the pool: a newcomer may overtake a woken thread, so no single thread is promised a
  connection while new requests keep coming; `PoolProtocol.StandstillMeansServed` covers the rest.
