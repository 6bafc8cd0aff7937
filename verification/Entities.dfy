/** Loot, maps and dogs. */
module Entities {
  import opened Geometry
  import opened Motion
  import opened Roads

  const TWO_TO_32: nat := 0x1_0000_0000

  type uint32 = n: nat | n < 0x1_0000_0000

  const DOG_WIDTH: real := 0.6
  const LOOT_WIDTH: real := 0.0
  const OFFICE_WIDTH: real := 0.5

  datatype Loot = Loot(kind: nat, id: nat, value: uint32, position: Point, width: real)

  /** `number` is the numeric part of the office's id. */
  datatype Office = Office(number: nat, position: GridPoint)

  datatype GameMap = GameMap(
    id: string, roads: seq<Road>, offices: seq<Office>, dogSpeed: real, bagCapacity: nat, lootValues: seq<uint32>)
  {
    /** What the loader's configuration has to provide for the game to run on this map. */
    predicate Playable() {
      roads != [] && lootValues != [] && dogSpeed >= 0.0
    }
  }

  datatype DogState = DogState(
    id: nat, name: string, position: Point, speed: Vec, direction: Direction, bag: seq<Loot>, width: real,
    score: uint32, joinTime: int, inactivity: real, active: bool, uuid: string)

  function BagValue(bag: seq<Loot>): nat {
    if bag == [] then 0 else BagValue(bag[..|bag| - 1]) + bag[|bag| - 1].value
  }

  lemma {:induction false} BagValueOfConcatenation(a: seq<Loot>, b: seq<Loot>)
    ensures BagValue(a + b) == BagValue(a) + BagValue(b)
  {
    if b == [] {
      assert a + b == a;
    } else {
      BagValueOfConcatenation(a, b[..|b| - 1]);
      assert (a + b)[..|a + b| - 1] == a + b[..|b| - 1];
    }
  }

  lemma BagValueWithout(bag: seq<Loot>, k: nat)
    requires k < |bag|
    ensures BagValue(bag) == BagValue(bag[..k] + bag[k + 1..]) + bag[k].value
  {
    SplitAt(bag, k);
    BagValueWithMiddle(bag[..k], bag[k], bag[k + 1..]);
  }

  lemma SplitAt<T>(s: seq<T>, k: nat)
    requires k < |s|
    ensures s == s[..k] + [s[k]] + s[k + 1..]
  {
  }

  lemma BagValueWithMiddle(before: seq<Loot>, loot: Loot, after: seq<Loot>)
    ensures BagValue(before + [loot] + after) == BagValue(before + after) + loot.value
  {
    BagValueOfConcatenation(before + [loot], after);
    BagValueOfConcatenation(before, after);
    BagValueWithLast(before, loot);
  }

  lemma BagValueWithLast(bag: seq<Loot>, loot: Loot)
    ensures BagValue(bag + [loot]) == BagValue(bag) + loot.value
  {
    assert (bag + [loot])[..|bag|] == bag;
  }

  /** The bag's value is banked; the 32-bit score wraps around. */
  function Released(d: DogState): DogState {
    d.(score := (d.score + BagValue(d.bag)) % TWO_TO_32, bag := [])
  }

  /** What a dog is worth: its score and the value it still carries. */
  function Worth(d: DogState): nat { d.score + BagValue(d.bag) }

  class Dog {
    const id: nat
    const name: string
    const uuid: string
    const width: real
    var position: Point
    var speed: Vec
    var direction: Direction
    var bag: seq<Loot>
    var score: uint32
    var joinTime: int
    var inactivity: real
    var active: bool

    function State(): DogState
      reads this
    {
      DogState(id, name, position, speed, direction, bag, width, score, joinTime, inactivity, active, uuid)
    }

    /** The join time stays unset (`joinTime` is whatever the memory holds) until it is assigned. */
    constructor (id: nat, name: string, position: Point, uuid: string, joinTime: int)
      ensures State() == DogState(id, name, position, Vec(0.0, 0.0), North, [], DOG_WIDTH, 0, joinTime, 0.0, true, uuid)
    {
      this.id, this.name, this.position, this.uuid, this.joinTime := id, name, position, uuid, joinTime;
      speed, direction, bag, width := Vec(0.0, 0.0), North, [], DOG_WIDTH;
      score, inactivity, active := 0, 0.0, true;
    }

    /** A copy of a dog that was put together as a value. */
    constructor Copy(d: DogState)
      ensures State() == d
    {
      id, name, position, uuid, joinTime := d.id, d.name, d.position, d.uuid, d.joinTime;
      speed, direction, bag, width := d.speed, d.direction, d.bag, d.width;
      score, inactivity, active := d.score, d.inactivity, d.active;
    }

    method AddLoot(loot: Loot)
      modifies this`bag
      ensures State() == old(State()).(bag := old(bag) + [loot])
    {
      bag := bag + [loot];
    }

    method ReleaseLoot()
      modifies this`bag, this`score
      ensures State() == Released(old(State()))
    {
      for i := 0 to |bag|
        invariant bag == old(bag)
        invariant score == (old(score) + BagValue(bag[..i])) % TWO_TO_32
      {
        assert bag[..i + 1][..i] == bag[..i];
        score := (score + bag[i].value) % TWO_TO_32;
      }
      assert bag[..|bag|] == bag;
      bag := [];
    }

    /** One tick of movement on the roads that the index query found. */
    method CalculateNewPosition(dt: real, roads: seq<Road>) returns (to: Point)
      requires Coherent(direction, speed) && dt >= 0.0
      modifies this`speed
      ensures exists stopped ::
        && Moves(old(position), old(speed), old(direction), dt, roads, to, stopped)
        && speed == if stopped then Vec(0.0, 0.0) else old(speed)
    {
      var from, v, dir := position, speed, direction;
      TargetIsAhead(from, v, dir, dt);
      var target := Target(from, v, dt);
      var found := QueryIndex(roads, from, target);
      if Stands(dir, v) || found == [] {
        to := from;
        assert IsMove(from, v, dir, dt, found, to, false);
        assert Moves(from, v, dir, dt, roads, to, false);
        return;
      }
      var reachable := AnyRoadHolds(target, found);
      if reachable {
        to := target;
        assert IsMove(from, v, dir, dt, found, to, false);
        assert Moves(from, v, dir, dt, roads, to, false);
        return;
      }
      to := FarthestStop(from, target, dir, found);
      speed := Vec(0.0, 0.0);
      assert IsMove(from, v, dir, dt, found, to, true);
      assert Moves(from, v, dir, dt, roads, to, true);
    }
  }

  method AnyRoadHolds(p: Point, roads: seq<Road>) returns (any: bool)
    ensures any <==> OnSomeRoad(p, roads)
  {
    for i := 0 to |roads|
      invariant forall j :: 0 <= j < i ==> !OnRoad(p, roads[j])
    {
      if OnRoad(p, roads[i]) { return true; }
    }
    return false;
  }

  /** The strict-maximum search of the stop branch. */
  method FarthestStop(from: Point, target: Point, dir: Direction, found: seq<Road>) returns (stop: Point)
    ensures IsStop(from, target, dir, found, stop)
  {
    stop := from;
    var best: real := SMALLEST_NORMAL;
    for i := 0 to |found|
      invariant best == SMALLEST_NORMAL || best > SMALLEST_NORMAL
      invariant AxisParallel(from, stop) && best == Max(SMALLEST_NORMAL, Distance(from, stop))
      invariant stop == from
        || exists r :: r in found && OnRoad(from, r) && stop == FindStopPoint(from, target, r, dir)
                       && Distance(from, stop) > SMALLEST_NORMAL
      invariant forall j :: 0 <= j < i && OnRoad(from, found[j])
                  ==> Distance(from, FindStopPoint(from, target, found[j], dir)) <= best
    {
      if OnRoad(from, found[i]) {
        var candidate := FindStopPoint(from, target, found[i], dir);
        var distance := Distance(from, candidate);
        if distance > best {
          best, stop := distance, candidate;
        }
      }
    }
  }
}
