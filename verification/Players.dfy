/** The registry of players, and the removal of dogs together with their players. */
module PlayerRegistry {
  import opened Entities
  import opened GameStates
  import opened Geometry
  import opened Removal
  import opened Sessions

  /** A player holds on to its session and its dog. */
  datatype Player = Player(id: nat, token: string, session: GameSession, dog: Dog)

  function View(p: Player): PlayerState { PlayerState(p.id, p.token, p.session.id, p.dog.id) }

  function Views(players: seq<Player>): (states: seq<PlayerState>)
    ensures |states| == |players| && forall i :: 0 <= i < |players| ==> states[i] == View(players[i])
  {
    seq(|players|, i requires 0 <= i < |players| => View(players[i]))
  }

  lemma ViewsWithLast(players: seq<Player>, p: Player)
    ensures Views(players + [p]) == Views(players) + [View(p)]
  {
  }

  function DogIdOf(p: Player): nat { p.dog.id }

  lemma {:induction false} ViewsWithout(players: seq<Player>, gone: set<nat>)
    ensures Views(Without(players, DogIdOf, gone)) == PlayersWithout(Views(players), gone)
  {
    if players == [] {
    } else {
      var front := players[..|players| - 1];
      ViewsWithout(front, gone);
      assert Views(front) == Views(players)[..|players| - 1];
    }
  }

  // ---- the registry ----

  class Players {
    var players: seq<Player>
    var counter: nat

    constructor ()
      ensures players == [] && counter == 0
    {
      players, counter := [], 0;
    }

    method AddPlayer(session: GameSession, dog: Dog, token: string) returns (player: Player)
      modifies this
      ensures player == Player(old(counter), token, session, dog)
      ensures players == old(players) + [player] && counter == old(counter) + 1
    {
      player := Player(counter, token, session, dog);
      counter := counter + 1;
      players := players + [player];
    }

    /** The session of the first player whose dog has this id, if there is one. */
    ghost function Owner(dogId: nat): set<GameSession>
      reads this
    {
      var k := FirstWithKey(players, DogIdOf, dogId);
      if k < |players| then {players[k].session} else {}
    }

    /** The first player whose dog has this id leaves, and the dog leaves that player's session. */
    method RemovePlayerFromGameByDogId(dogId: nat)
      modifies this`players, Owner(dogId)`dogs
      ensures players == RemoveFirst(old(players), DogIdOf, dogId)
      ensures forall s :: s in old(Owner(dogId)) ==> s.dogs == RemoveFirst(old(s.dogs), IdOf, dogId)
    {
      var k := 0;
      while k < |players| && players[k].dog.id != dogId
        invariant 0 <= k <= |players|
        invariant forall j :: 0 <= j < k ==> players[j].dog.id != dogId
      {
        k := k + 1;
      }
      assert k == FirstWithKey(players, DogIdOf, dogId);
      if k < |players| {
        players[k].session.RemoveDog(dogId);
        players := players[..k] + players[k + 1..];
      }
    }
  }

  /** The player's command sets the dog going, or stops it. */
  method MakeAction(player: Player, move: string)
    modifies player.dog
    ensures player.dog.State() == Commanded(old(player.dog.State()), move, player.session.gameMap.dogSpeed)
  {
    var (dog, speed) := (player.dog, player.session.gameMap.dogSpeed);
    if move == "U" {
      dog.speed, dog.direction := Vec(0.0, -speed), North;
    } else if move == "D" {
      dog.speed, dog.direction := Vec(0.0, speed), South;
    } else if move == "L" {
      dog.speed, dog.direction := Vec(-speed, 0.0), West;
    } else if move == "R" {
      dog.speed, dog.direction := Vec(speed, 0.0), East;
    } else {
      dog.speed, dog.direction := Vec(0.0, 0.0), NoDirection;
    }
    dog.active, dog.inactivity := true, 0.0;
  }
}
