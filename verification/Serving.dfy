/** The requests as the running game serves them: each takes the objects to the state the model says. */
module Serving {
  import opened Entities
  import opened GameServer
  import opened GameStates
  import opened PlayerRegistry
  import opened Registry
  import opened Runs
  import opened Sessions
  import opened Terrain
  import opened Ticking

  lemma PlayerOwnsDog(table: SessionTable, players: seq<Player>, g: GameState, i: nat, j: nat)
    requires ShowsSessions(table, g.sessions) && Views(players) == g.players && AllLinked(table, players)
    requires i < |players| && j < |players[i].session.dogs| && players[i].session.dogs[j] == players[i].dog
    ensures Owns(g, i, players[i].session.gameMap.id, j)
  {
    var m := players[i].session.gameMap.id;
    assert IsLinked(table, players[i]);
    assert ShowsSession(table[m], g.sessions[m]);
    assert g.players[i] == View(players[i]) && g.sessions[m].dogs[j] == players[i].dog.State();
  }

  /** Only dog `j` of the session has changed. */
  twostate lemma OneDogChanged(session: GameSession, new s: SessionState, new j: nat)
    requires old(ShowsSession(session, s)) && j < |old(session.dogs)| && DistinctObjects(old(session.dogs))
    requires session.dogs == old(session.dogs) && session.loot == old(session.loot)
    requires forall d: Dog :: old(allocated(d)) && d != session.dogs[j] ==> d.State() == old(d.State())
    ensures ShowsSession(session, s.(dogs := s.dogs[j := session.dogs[j].State()]))
  {
    var dogs := s.dogs[j := session.dogs[j].State()];
    forall i | 0 <= i < |dogs| ensures session.dogs[i].State() == dogs[i] {
      if i != j {
        assert session.dogs[i] != session.dogs[j];
        assert session.dogs[i].State() == old(session.dogs[i].State());
      }
    }
    SessionIsShown(session, s.(dogs := dogs));
  }

  method Act(game: Game, i: nat, move: string, ghost g: GameState) returns (ghost m: string, ghost j: nat)
    requires game.Shows(g) && AllLinked(game.sessions, game.registry.players) && GoodIds(g)
    requires i < |game.registry.players|
    modifies game.registry.players[i].dog
    ensures Owns(g, i, m, j) && game.Shows(Acted(g, m, j, move))
    ensures AllLinked(game.sessions, game.registry.players)
  {
    var player := game.registry.players[i];
    var session := player.session;
    m := session.gameMap.id;
    assert IsLinked(game.sessions, player);
    j :| 0 <= j < |session.dogs| && session.dogs[j] == player.dog;
    PlayerOwnsDog(game.sessions, game.registry.players, g, i, j);
    OthersAreApart(game.sessions, g, m);
    DogsHaveDistinctIds(game.sessions, g, m);
    assert ShowsSession(session, g.sessions[m]);
    MakeAction(player, move);
    OneDogChanged(session, g.sessions[m], j);
    OthersStayShown(game.sessions, g.sessions, m);
    UntouchedLinks((game.sessions, game.registry.players));
    OneSessionChanged(game.sessions, g.sessions, m, Acted(g, m, j, move).sessions[m]);
    game.IsShown(Acted(g, m, j, move));
  }

  /** The clock advances first, then the game is updated. */
  method AdvanceClock(game: Game, timeDelta: int, ghost g: GameState)
    requires game.Shows(g) && AllLinked(game.sessions, game.registry.players)
    modifies game`clock
    ensures game.Shows(Advanced(g, timeDelta)) && AllLinked(game.sessions, game.registry.players)
  {
    game.clock := game.clock + timeDelta;
    UntouchedSessions(game.sessions, g.sessions);
    UntouchedLinks((game.sessions, game.registry.players));
    game.IsShown(Advanced(g, timeDelta));
  }

  lemma AdvancingKeepsHealthy(g: GameState, dt: int)
    requires Healthy(g)
    ensures Healthy(Advanced(g, dt))
  {
    AdvancingKeepsIdentities(g, dt);
  }

  method ServeTick(game: Game, timeDelta: int, order: seq<string>, draws: string -> Draw, ghost g: GameState)
    returns (ghost choices: seq<Choice>)
    requires game.Shows(g) && AllLinked(game.sessions, game.registry.players) && Healthy(g)
    requires IsOrder(order, g.sessions) && timeDelta >= 0 && game.generator.baseInterval > 0
    requires forall m :: m in game.sessions ==> AreLootDraws(game.sessions[m].gameMap, draws(m).loot)
    modifies game`clock, game`records, game`lootCounter, game.registry`players, game.generator`timeWithoutLoot
    modifies game.sessions.Values, DogObjects(game.sessions)
    ensures Possible(g, Tick(timeDelta, order, choices))
    ensures game.Shows(Served(g, Tick(timeDelta, order, choices)))
    ensures AllLinked(game.sessions, game.registry.players)
    ensures FollowDraws(game.generator, Advanced(g, timeDelta), timeDelta, order, choices, draws,
                        old(game.generator.timeWithoutLoot), game.generator.timeWithoutLoot)
  {
    AdvanceClock(game, timeDelta, g);
    AdvancingKeepsHealthy(g, timeDelta);
    choices := UpdateAll(game, timeDelta, order, draws, Advanced(g, timeDelta));
  }

  /** Every state that a run reaches is one in which the methods above, joining and reloading can be called. */
  lemma ReachableStatesAreHealthy(g: GameState, requests: seq<Request>)
    requires IsInitial(g) && IsRun(g, requests)
    ensures Healthy(AfterRun(g, requests))
    ensures forall m :: m in AfterRun(g, requests).maps ==>
              AfterRun(g, requests).maps[m].id == m && AfterRun(g, requests).maps[m].roads != []
  {
    RunKeepsInv(g, requests);
  }
}
