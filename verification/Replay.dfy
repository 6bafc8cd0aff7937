/**
 * Replaying a tick's collision events against the dogs' bags, their scores and the loot on the
 * ground. The replay is specified for every event list, so everything proved here holds whatever
 * order the detector chooses for simultaneous events.
 */
module Replay {
  import opened Collision
  import opened Entities

  /** `taken` collects the loot ids gathered in this tick. */
  datatype Field = Field(dogs: seq<DogState>, ground: seq<Loot>, taken: set<nat>)

  /** Position of the first loot with this id; the list's length when there is none. */
  function FirstWithId(ground: seq<Loot>, id: nat): (k: nat)
    ensures k <= |ground|
    ensures k < |ground| ==> ground[k].id == id
    ensures forall j :: 0 <= j < k ==> ground[j].id != id
  {
    if ground == [] then 0
    else if ground[0].id == id then 0
    else
      assert forall j :: 1 <= j < |ground| ==> ground[j] == ground[1..][j - 1];
      1 + FirstWithId(ground[1..], id)
  }

  predicate OnGround(ground: seq<Loot>, id: nat) { FirstWithId(ground, id) < |ground| }

  function RemoveAt<T>(s: seq<T>, k: nat): seq<T>
    requires k < |s|
  {
    s[..k] + s[k + 1..]
  }

  /** Some loot with the event's id is available and the event's dog can carry it. */
  predicate CanTake(f: Field, e: Event, capacity: nat)
    requires e.gatherer < |f.dogs|
  {
    && e.itemType.LootItem?
    && e.item !in f.taken && OnGround(f.ground, e.item)
    && |f.dogs[e.gatherer].bag| < capacity
  }

  function WithLoot(d: DogState, loot: Loot): DogState { d.(bag := d.bag + [loot]) }

  function Step(f: Field, e: Event, capacity: nat): (f': Field)
    requires e.gatherer < |f.dogs|
    ensures |f'.dogs| == |f.dogs|
  {
    var d := f.dogs[e.gatherer];
    if e.itemType.OfficeItem? then
      f.(dogs := f.dogs[e.gatherer := Released(d)])
    else if CanTake(f, e, capacity) then
      var k := FirstWithId(f.ground, e.item);
      Field(f.dogs[e.gatherer := WithLoot(d, f.ground[k])], RemoveAt(f.ground, k), f.taken + {e.item})
    else
      f
  }

  ghost predicate InRange(events: seq<Event>, dogCount: nat) {
    forall k :: 0 <= k < |events| ==> events[k].gatherer < dogCount
  }

  function Replayed(f: Field, events: seq<Event>, capacity: nat): (f': Field)
    requires InRange(events, |f.dogs|)
    ensures |f'.dogs| == |f.dogs|
  {
    if events == [] then f
    else Step(Replayed(f, events[..|events| - 1], capacity), events[|events| - 1], capacity)
  }

  /** The replay of a prefix, as used by statements about "the moment of event n". */
  lemma NextReplayed(f: Field, events: seq<Event>, n: nat, capacity: nat)
    requires InRange(events, |f.dogs|) && n < |events|
    ensures Replayed(f, events[..n + 1], capacity) == Step(Replayed(f, events[..n], capacity), events[n], capacity)
  {
    assert events[..n + 1][..n] == events[..n];
  }

  // ---- what a replay leaves alone ----

  /** Bag and score are all that a replay changes of a dog. */
  predicate SameButHaul(d: DogState, d': DogState) {
    d' == d.(bag := d'.bag, score := d'.score)
  }

  lemma {:induction false} ReplayChangesOnlyHauls(f: Field, events: seq<Event>, capacity: nat)
    requires InRange(events, |f.dogs|)
    ensures forall i :: 0 <= i < |f.dogs| ==> SameButHaul(f.dogs[i], Replayed(f, events, capacity).dogs[i])
  {
    if events == [] {
    } else {
      ReplayChangesOnlyHauls(f, events[..|events| - 1], capacity);
    }
  }

  // ---- conservation of value ----

  function TotalWorth(dogs: seq<DogState>): nat {
    if dogs == [] then 0 else TotalWorth(dogs[..|dogs| - 1]) + Worth(dogs[|dogs| - 1])
  }

  lemma {:induction false} TotalWorthOfConcatenation(a: seq<DogState>, b: seq<DogState>)
    ensures TotalWorth(a + b) == TotalWorth(a) + TotalWorth(b)
  {
    if b == [] {
      assert a + b == a;
    } else {
      TotalWorthOfConcatenation(a, b[..|b| - 1]);
      assert (a + b)[..|a + b| - 1] == a + b[..|b| - 1];
    }
  }

  lemma TotalWorthUpdate(dogs: seq<DogState>, i: nat, d: DogState)
    requires i < |dogs|
    ensures TotalWorth(dogs[i := d]) + Worth(dogs[i]) == TotalWorth(dogs) + Worth(d)
  {
    var (before, after) := (dogs[..i], dogs[i + 1..]);
    assert dogs == before + [dogs[i]] + after;
    assert dogs[i := d] == before + [d] + after;
    TotalWorthOfConcatenation(before + [dogs[i]], after);
    TotalWorthOfConcatenation(before + [d], after);
    TotalWorthOfConcatenation(before, [dogs[i]]);
    TotalWorthOfConcatenation(before, [d]);
    assert [d][..0] == [] && [dogs[i]][..0] == [];
  }

  function FieldValue(f: Field): nat { BagValue(f.ground) + TotalWorth(f.dogs) }

  /** Value is conserved up to wrap-around of 32-bit scores, which loses multiples of 2^32. */
  predicate Conserved(before: nat, after: nat) {
    after <= before && (before - after) % TWO_TO_32 == 0
  }

  lemma ConservedExactlyWhenSmall(before: nat, after: nat)
    requires Conserved(before, after) && before < TWO_TO_32
    ensures after == before
  {
  }

  lemma ReleaseConserves(d: DogState)
    ensures Conserved(Worth(d), Worth(Released(d)))
  {
  }

  /** Whatever the events and their order, ground + bags + scores keep their total. */
  lemma {:induction false} ReplayConservesValue(f: Field, events: seq<Event>, capacity: nat)
    requires InRange(events, |f.dogs|)
    ensures Conserved(FieldValue(f), FieldValue(Replayed(f, events, capacity)))
  {
    if events == [] {
    } else {
      var g := Replayed(f, events[..|events| - 1], capacity);
      ReplayConservesValue(f, events[..|events| - 1], capacity);
      StepConservesValue(g, events[|events| - 1], capacity);
    }
  }

  lemma StepConservesValue(f: Field, e: Event, capacity: nat)
    requires e.gatherer < |f.dogs|
    ensures Conserved(FieldValue(f), FieldValue(Step(f, e, capacity)))
  {
    var d := f.dogs[e.gatherer];
    if e.itemType.OfficeItem? {
      ReleaseConserves(d);
      TotalWorthUpdate(f.dogs, e.gatherer, Released(d));
    } else if CanTake(f, e, capacity) {
      var k := FirstWithId(f.ground, e.item);
      BagValueWithout(f.ground, k);
      TotalWorthUpdate(f.dogs, e.gatherer, WithLoot(d, f.ground[k]));
      assert (d.bag + [f.ground[k]])[..|d.bag|] == d.bag;
    }
  }

  /** Banking loses nothing exactly when the score does not wrap around. */
  lemma BankingIsExact(d: DogState)
    ensures Worth(Released(d)) == Worth(d) <==> Worth(d) < TWO_TO_32
  {
  }

  /** No dog is worth 2^32 or more when it visits an office. */
  ghost predicate NothingWraps(f: Field, events: seq<Event>, capacity: nat)
    requires InRange(events, |f.dogs|)
  {
    forall k :: 0 <= k < |events| && events[k].itemType.OfficeItem? ==>
      Worth(Replayed(f, events[..k], capacity).dogs[events[k].gatherer]) < TWO_TO_32
  }

  lemma StepConservesExactly(f: Field, e: Event, capacity: nat)
    requires e.gatherer < |f.dogs|
    ensures FieldValue(Step(f, e, capacity)) == FieldValue(f)
       <==> (e.itemType.OfficeItem? ==> Worth(f.dogs[e.gatherer]) < TWO_TO_32)
  {
    var d := f.dogs[e.gatherer];
    if e.itemType.OfficeItem? {
      BankingIsExact(d);
      TotalWorthUpdate(f.dogs, e.gatherer, Released(d));
    } else if CanTake(f, e, capacity) {
      var k := FirstWithId(f.ground, e.item);
      BagValueWithout(f.ground, k);
      TotalWorthUpdate(f.dogs, e.gatherer, WithLoot(d, f.ground[k]));
      assert (d.bag + [f.ground[k]])[..|d.bag|] == d.bag;
    }
  }

  lemma NothingWrapsFront(f: Field, events: seq<Event>, capacity: nat)
    requires InRange(events, |f.dogs|) && events != []
    ensures var (front, e) := (events[..|events| - 1], events[|events| - 1]);
      NothingWraps(f, events, capacity) <==>
        && NothingWraps(f, front, capacity)
        && (e.itemType.OfficeItem? ==> Worth(Replayed(f, front, capacity).dogs[e.gatherer]) < TWO_TO_32)
  {
    var front := events[..|events| - 1];
    forall k | 0 <= k < |front| ensures front[..k] == events[..k] {
    }
  }

  /** The total of ground, bags and scores is unchanged exactly when no score wraps around. */
  lemma {:induction false} ReplayConservesExactly(f: Field, events: seq<Event>, capacity: nat)
    requires InRange(events, |f.dogs|)
    ensures FieldValue(Replayed(f, events, capacity)) == FieldValue(f) <==> NothingWraps(f, events, capacity)
  {
    if events == [] {
    } else {
      var (front, e) := (events[..|events| - 1], events[|events| - 1]);
      ReplayConservesExactly(f, front, capacity);
      ReplayConservesValue(f, front, capacity);
      StepConservesValue(Replayed(f, front, capacity), e, capacity);
      StepConservesExactly(Replayed(f, front, capacity), e, capacity);
      NothingWrapsFront(f, events, capacity);
    }
  }

  // ---- conservation of loot ----

  function Bags(dogs: seq<DogState>): multiset<Loot> {
    if dogs == [] then multiset{} else Bags(dogs[..|dogs| - 1]) + multiset(dogs[|dogs| - 1].bag)
  }

  lemma {:induction false} BagsOfConcatenation(a: seq<DogState>, b: seq<DogState>)
    ensures Bags(a + b) == Bags(a) + Bags(b)
  {
    if b == [] {
      assert a + b == a;
    } else {
      var (front, last) := (b[..|b| - 1], b[|b| - 1]);
      BagsOfConcatenation(a, front);
      FrontOfConcatenation(a, b);
      MultisetAssociativity(Bags(a), Bags(front), multiset(last.bag));
    }
  }

  lemma FrontOfConcatenation<T>(a: seq<T>, b: seq<T>)
    requires b != []
    ensures (a + b)[..|a + b| - 1] == a + b[..|b| - 1]
    ensures (a + b)[|a + b| - 1] == b[|b| - 1]
  {
  }

  lemma MultisetAssociativity<T>(a: multiset<T>, b: multiset<T>, c: multiset<T>)
    ensures a + b + c == a + (b + c)
  {
  }

  lemma BagsUpdate(dogs: seq<DogState>, i: nat, d: DogState)
    requires i < |dogs|
    ensures Bags(dogs[i := d]) + multiset(dogs[i].bag) == Bags(dogs) + multiset(d.bag)
  {
    var (before, after) := (dogs[..i], dogs[i + 1..]);
    assert dogs == before + [dogs[i]] + after;
    assert dogs[i := d] == before + [d] + after;
    BagsOfConcatenation(before + [dogs[i]], after);
    BagsOfConcatenation(before + [d], after);
    BagsOfConcatenation(before, [dogs[i]]);
    BagsOfConcatenation(before, [d]);
    assert [d][..0] == [] && [dogs[i]][..0] == [];
  }

  /** Every loot of a session that is still in play, with multiplicity. */
  function Held(f: Field): multiset<Loot> { multiset(f.ground) + Bags(f.dogs) }

  /** Each loot is in one place only, and no two loots share an id. */
  ghost predicate OnePlaceEach(held: multiset<Loot>) {
    && (forall l :: l in held ==> held[l] == 1)
    && forall l1, l2 :: l1 in held && l2 in held && l1.id == l2.id ==> l1 == l2
  }

  lemma MultisetWithout<T>(s: seq<T>, k: nat)
    requires k < |s|
    ensures multiset(s) == multiset(RemoveAt(s, k)) + multiset{s[k]}
  {
    assert s == s[..k] + [s[k]] + s[k + 1..];
  }

  /** A replay moves loot from the ground into bags and banks it; it never creates or copies any. */
  lemma {:induction false} ReplayCreatesNoLoot(f: Field, events: seq<Event>, capacity: nat)
    requires InRange(events, |f.dogs|)
    ensures Held(Replayed(f, events, capacity)) <= Held(f)
    ensures OnePlaceEach(Held(f)) ==> OnePlaceEach(Held(Replayed(f, events, capacity)))
  {
    if events == [] {
    } else {
      var g := Replayed(f, events[..|events| - 1], capacity);
      var e := events[|events| - 1];
      ReplayCreatesNoLoot(f, events[..|events| - 1], capacity);
      StepCreatesNoLoot(g, e, capacity);
    }
    SubsetKeepsPlaces(Held(f), Held(Replayed(f, events, capacity)));
  }

  lemma SubsetKeepsPlaces(held: multiset<Loot>, held': multiset<Loot>)
    requires held' <= held
    ensures OnePlaceEach(held) ==> OnePlaceEach(held')
  {
    if OnePlaceEach(held) {
      forall l | l in held' ensures held'[l] == 1 {
        assert held'[l] <= held[l] && l in held;
      }
    }
  }

  lemma MultisetCancellation<T(!new)>(a: multiset<T>, b: multiset<T>, c: multiset<T>)
    requires a + c == b + c
    ensures a == b
  {
    forall x ensures a[x] == b[x] {
      assert (a + c)[x] == a[x] + c[x] && (b + c)[x] == b[x] + c[x];
    }
  }

  lemma StepCreatesNoLoot(f: Field, e: Event, capacity: nat)
    requires e.gatherer < |f.dogs|
    ensures Held(Step(f, e, capacity)) <= Held(f)
  {
    if e.itemType.OfficeItem? {
      ReleaseDropsOneBag(f.dogs, e.gatherer);
    } else if CanTake(f, e, capacity) {
      var k := FirstWithId(f.ground, e.item);
      var loot := f.ground[k];
      MultisetWithout(f.ground, k);
      TakeGrowsOneBag(f.dogs, e.gatherer, loot);
      MovedLoot(multiset(f.ground), multiset(RemoveAt(f.ground, k)), Bags(f.dogs), multiset{loot});
    }
  }

  lemma MovedLoot(ground: multiset<Loot>, ground': multiset<Loot>, bags: multiset<Loot>, loot: multiset<Loot>)
    requires ground == ground' + loot
    ensures ground' + (bags + loot) == ground + bags
  {
  }

  lemma ReleaseDropsOneBag(dogs: seq<DogState>, g: nat)
    requires g < |dogs|
    ensures Bags(dogs[g := Released(dogs[g])]) <= Bags(dogs)
  {
    BagsUpdate(dogs, g, Released(dogs[g]));
    assert multiset(Released(dogs[g]).bag) == multiset{};
    assert Bags(dogs) == Bags(dogs[g := Released(dogs[g])]) + multiset(dogs[g].bag);
  }

  lemma TakeGrowsOneBag(dogs: seq<DogState>, g: nat, loot: Loot)
    requires g < |dogs|
    ensures Bags(dogs[g := WithLoot(dogs[g], loot)]) == Bags(dogs) + multiset{loot}
  {
    var bag := multiset(dogs[g].bag);
    BagsUpdate(dogs, g, WithLoot(dogs[g], loot));
    assert multiset(dogs[g].bag + [loot]) == bag + multiset{loot};
    assert Bags(dogs) + (bag + multiset{loot}) == (Bags(dogs) + multiset{loot}) + bag;
    MultisetCancellation(Bags(dogs[g := WithLoot(dogs[g], loot)]), Bags(dogs) + multiset{loot}, bag);
  }

  // ---- capacity ----

  ghost predicate WithinCapacity(dogs: seq<DogState>, capacity: nat) {
    forall i :: 0 <= i < |dogs| ==> |dogs[i].bag| <= capacity
  }

  lemma {:induction false} ReplayRespectsCapacity(f: Field, events: seq<Event>, capacity: nat)
    requires InRange(events, |f.dogs|) && WithinCapacity(f.dogs, capacity)
    ensures WithinCapacity(Replayed(f, events, capacity).dogs, capacity)
  {
    if events == [] {
    } else {
      ReplayRespectsCapacity(f, events[..|events| - 1], capacity);
    }
  }

  // ---- first come, first served ----

  /** Event `j` is for loot `id`, and its dog has room at that moment. */
  predicate Claims(f: Field, events: seq<Event>, capacity: nat, j: nat, id: nat)
    requires InRange(events, |f.dogs|) && j < |events|
  {
    && events[j].itemType.LootItem? && events[j].item == id
    && |Replayed(f, events[..j], capacity).dogs[events[j].gatherer].bag| < capacity
  }

  ghost predicate NoClaim(f: Field, events: seq<Event>, capacity: nat, n: nat, id: nat)
    requires InRange(events, |f.dogs|) && n <= |events|
  {
    forall j :: 0 <= j < n ==> !Claims(f, events, capacity, j, id)
  }

  lemma RemovingOthersKeepsFirst(ground: seq<Loot>, k: nat, id: nat)
    requires k < |ground| && ground[k].id != id && OnGround(ground, id)
    ensures OnGround(RemoveAt(ground, k), id)
    ensures RemoveAt(ground, k)[FirstWithId(RemoveAt(ground, k), id)] == ground[FirstWithId(ground, id)]
  {
    var rest := RemoveAt(ground, k);
    var i := FirstWithId(ground, id);
    var i' := if i < k then i else i - 1;
    assert rest[i'] == ground[i];
    assert forall j :: 0 <= j < i' ==> rest[j] == ground[if j < k then j else j + 1];
  }

  /** Before anyone claims it, a loot stays where it was. */
  lemma {:induction n} UnclaimedLootStays(f: Field, events: seq<Event>, capacity: nat, n: nat, id: nat)
    requires InRange(events, |f.dogs|) && n <= |events|
    requires id !in f.taken && OnGround(f.ground, id)
    requires NoClaim(f, events, capacity, n, id)
    ensures var g := Replayed(f, events[..n], capacity);
      && id !in g.taken && OnGround(g.ground, id)
      && g.ground[FirstWithId(g.ground, id)] == f.ground[FirstWithId(f.ground, id)]
  {
    if n == 0 {
      assert events[..0] == [];
    } else {
      UnclaimedLootStays(f, events, capacity, n - 1, id);
      NextReplayed(f, events, n - 1, capacity);
      var g := Replayed(f, events[..n - 1], capacity);
      var e := events[n - 1];
      assert !Claims(f, events, capacity, n - 1, id);
      if CanTake(g, e, capacity) {
        RemovingOthersKeepsFirst(g.ground, FirstWithId(g.ground, e.item), id);
      }
    }
  }

  /** Taken ids stay taken for the rest of the tick. */
  lemma {:induction false} TakenIsFinal(f: Field, events: seq<Event>, capacity: nat, n: nat, id: nat)
    requires InRange(events, |f.dogs|) && n <= |events|
    requires id in Replayed(f, events[..n], capacity).taken
    ensures id in Replayed(f, events, capacity).taken
    decreases |events| - n
  {
    if n < |events| {
      NextReplayed(f, events, n, capacity);
      TakenIsFinal(f, events, capacity, n + 1, id);
    } else {
      assert events[..n] == events;
    }
  }

  /** The event moves this loot, and nothing else, from the ground to its dog's bag. */
  predicate Serves(now: Field, next: Field, e: Event, loot: Loot)
    requires e.gatherer < |now.dogs|
  {
    && next.dogs == now.dogs[e.gatherer := WithLoot(now.dogs[e.gatherer], loot)]
    && multiset(now.ground) == multiset(next.ground) + multiset{loot}
  }

  /**
   * The first event that claims a loot gets it: the loot leaves the ground for the claiming dog's
   * bag at that event. Unclaimed loot ends the tick where it was.
   */
  lemma FirstClaimWins(f: Field, events: seq<Event>, capacity: nat, id: nat)
    requires InRange(events, |f.dogs|)
    requires id !in f.taken && OnGround(f.ground, id)
    ensures id in Replayed(f, events, capacity).taken
       <==> exists j :: 0 <= j < |events| && Claims(f, events, capacity, j, id)
    ensures forall j | 0 <= j < |events| && Claims(f, events, capacity, j, id) && NoClaim(f, events, capacity, j, id) ::
              Serves(Replayed(f, events[..j], capacity), Replayed(f, events[..j + 1], capacity), events[j],
                     f.ground[FirstWithId(f.ground, id)])
    ensures NoClaim(f, events, capacity, |events|, id)
      ==> var g := Replayed(f, events, capacity).ground;
          OnGround(g, id) && g[FirstWithId(g, id)] == f.ground[FirstWithId(f.ground, id)]
  {
    assert events[..|events|] == events;
    forall j | 0 <= j < |events| && Claims(f, events, capacity, j, id) && NoClaim(f, events, capacity, j, id)
      ensures Serves(Replayed(f, events[..j], capacity), Replayed(f, events[..j + 1], capacity), events[j],
                     f.ground[FirstWithId(f.ground, id)])
    {
      FirstClaimIsServed(f, events, capacity, j, id);
    }
    if NoClaim(f, events, capacity, |events|, id) {
      UnclaimedLootStays(f, events, capacity, |events|, id);
    } else {
      var j := FirstClaim(f, events, capacity, |events|, id);
      FirstClaimIsServed(f, events, capacity, j, id);
    }
  }

  lemma FirstClaimIsServed(f: Field, events: seq<Event>, capacity: nat, j: nat, id: nat)
    requires InRange(events, |f.dogs|) && j < |events|
    requires id !in f.taken && OnGround(f.ground, id)
    requires Claims(f, events, capacity, j, id) && NoClaim(f, events, capacity, j, id)
    ensures Serves(Replayed(f, events[..j], capacity), Replayed(f, events[..j + 1], capacity), events[j],
                   f.ground[FirstWithId(f.ground, id)])
    ensures id in Replayed(f, events, capacity).taken
  {
    UnclaimedLootStays(f, events, capacity, j, id);
    NextReplayed(f, events, j, capacity);
    var now := Replayed(f, events[..j], capacity);
    MultisetWithout(now.ground, FirstWithId(now.ground, id));
    TakenIsFinal(f, events, capacity, j + 1, id);
  }

  lemma {:induction false} FirstClaim(f: Field, events: seq<Event>, capacity: nat, n: nat, id: nat) returns (j: nat)
    requires InRange(events, |f.dogs|) && n <= |events|
    requires !NoClaim(f, events, capacity, n, id)
    ensures j < n && Claims(f, events, capacity, j, id) && NoClaim(f, events, capacity, j, id)
  {
    if NoClaim(f, events, capacity, n - 1, id) {
      j := n - 1;
    } else {
      j := FirstClaim(f, events, capacity, n - 1, id);
    }
  }

  // ---- a dog's bag and score after the tick ----

  /** What dog `g` picks up during the events, in order. */
  function Gathers(f: Field, events: seq<Event>, capacity: nat, g: nat): seq<Loot>
    requires InRange(events, |f.dogs|)
  {
    if events == [] then []
    else
      var before := events[..|events| - 1];
      var e := events[|events| - 1];
      var now := Replayed(f, before, capacity);
      Gathers(f, before, capacity, g) + Gathered(now, e, capacity, g)
  }

  /** Dog `g` visits an office. */
  predicate Banks(e: Event, g: nat) { e.gatherer == g && e.itemType.OfficeItem? }

  /** Number of events up to and including dog `g`'s last visit to an office; 0 if there is none. */
  function LastBanking(events: seq<Event>, g: nat): (n: nat)
    ensures n <= |events|
    ensures n > 0 ==> Banks(events[n - 1], g)
    ensures forall k :: n <= k < |events| ==> !Banks(events[k], g)
  {
    if events == [] then 0
    else
      var e := events[|events| - 1];
      if Banks(e, g) then |events| else LastBanking(events[..|events| - 1], g)
  }

  /**
   * The account of a dog that started as `first`: of all it picked up, `banked` was picked up before
   * its last visit to an office, if it visited one.
   */
  predicate Accounts(first: DogState, now: DogState, all: seq<Loot>, banked: seq<Loot>, visited: bool) {
    && banked <= all
    && now.bag == (if visited then all[|banked|..] else first.bag + all)
    && now.score == if visited then (first.score + BagValue(first.bag + banked)) % TWO_TO_32 else first.score
  }

  lemma BankingKeepsAccounts(first: DogState, now: DogState, all: seq<Loot>, banked: seq<Loot>, visited: bool)
    requires Accounts(first, now, all, banked, visited)
    ensures Accounts(first, Released(now), all, all, true)
  {
    if visited {
      assert first.bag + all == (first.bag + banked) + all[|banked|..];
      BagValueOfConcatenation(first.bag + banked, all[|banked|..]);
      WrappedSum(first.score + BagValue(first.bag + banked), BagValue(all[|banked|..]));
    }
  }

  lemma WrappedSum(a: nat, b: nat)
    ensures (a % TWO_TO_32 + b) % TWO_TO_32 == (a + b) % TWO_TO_32
  {
  }

  lemma TakingKeepsAccounts(
    first: DogState, now: DogState, all: seq<Loot>, banked: seq<Loot>, visited: bool, loot: Loot)
    requires Accounts(first, now, all, banked, visited)
    ensures Accounts(first, WithLoot(now, loot), all + [loot], banked, visited)
  {
    assert first.bag + (all + [loot]) == first.bag + all + [loot];
    assert (all + [loot])[|banked|..] == all[|banked|..] + [loot];
  }

  /** What dog `g` had picked up when it last visited an office. */
  function Banked(f: Field, events: seq<Event>, capacity: nat, g: nat): seq<Loot>
    requires InRange(events, |f.dogs|)
  {
    if events == [] then []
    else if Banks(events[|events| - 1], g) then Gathers(f, events, capacity, g)
    else Banked(f, events[..|events| - 1], capacity, g)
  }

  lemma {:induction false} BankedBeforeLastVisit(f: Field, events: seq<Event>, capacity: nat, g: nat)
    requires InRange(events, |f.dogs|)
    ensures Banked(f, events, capacity, g) == Gathers(f, events[..LastBanking(events, g)], capacity, g)
  {
    if events == [] {
    } else {
      if Banks(events[|events| - 1], g) {
        assert events[..|events|] == events;
      } else {
        var before := events[..|events| - 1];
        BankedBeforeLastVisit(f, before, capacity, g);
        assert before[..LastBanking(before, g)] == events[..LastBanking(events, g)];
      }
    }
  }

  lemma {:induction false} AccountsAfterReplay(f: Field, events: seq<Event>, capacity: nat, g: nat)
    requires InRange(events, |f.dogs|) && g < |f.dogs|
    ensures Accounts(f.dogs[g], Replayed(f, events, capacity).dogs[g],
                     Gathers(f, events, capacity, g), Banked(f, events, capacity, g), LastBanking(events, g) > 0)
  {
    if events == [] {
      assert f.dogs[g].bag + [] == f.dogs[g].bag;
    } else {
      var (before, e) := (events[..|events| - 1], events[|events| - 1]);
      AccountsAfterReplay(f, before, capacity, g);
      StepKeepsAccounts(f.dogs[g], Replayed(f, before, capacity), e, capacity, g,
                        Gathers(f, before, capacity, g), Banked(f, before, capacity, g), LastBanking(before, g) > 0);
    }
  }

  /**
   * A dog ends the tick with what it picked up since its last visit to an office, after its old bag
   * if it visited none; its score has grown by the value of everything before that visit.
   */
  lemma BagAndScoreAfterReplay(f: Field, events: seq<Event>, capacity: nat, g: nat)
    requires InRange(events, |f.dogs|) && g < |f.dogs|
    ensures var n := LastBanking(events, g);
      Accounts(f.dogs[g], Replayed(f, events, capacity).dogs[g],
               Gathers(f, events, capacity, g), Gathers(f, events[..n], capacity, g), n > 0)
  {
    AccountsAfterReplay(f, events, capacity, g);
    BankedBeforeLastVisit(f, events, capacity, g);
  }

  function Gathered(now: Field, e: Event, capacity: nat, g: nat): seq<Loot>
    requires e.gatherer < |now.dogs|
  {
    if e.gatherer == g && CanTake(now, e, capacity) then [now.ground[FirstWithId(now.ground, e.item)]] else []
  }

  lemma StepKeepsAccounts(
    first: DogState, now: Field, e: Event, capacity: nat, g: nat, all: seq<Loot>, banked: seq<Loot>, visited: bool)
    requires e.gatherer < |now.dogs| && g < |now.dogs| && Accounts(first, now.dogs[g], all, banked, visited)
    ensures var all' := all + Gathered(now, e, capacity, g);
      Accounts(first, Step(now, e, capacity).dogs[g], all',
               if Banks(e, g) then all' else banked, visited || Banks(e, g))
  {
    if Banks(e, g) {
      BankingKeepsAccounts(first, now.dogs[g], all, banked, visited);
      assert all + [] == all;
    } else if e.gatherer == g && CanTake(now, e, capacity) {
      TakingKeepsAccounts(first, now.dogs[g], all, banked, visited, now.ground[FirstWithId(now.ground, e.item)]);
    } else {
      assert all + [] == all;
    }
  }

  // ---- events name positions, loot has ids ----

  /** Loot items come first in the provider's list, so loot events carry small numbers. */
  ghost predicate LootEventsBelow(events: seq<Event>, n: nat) {
    forall k :: 0 <= k < |events| && events[k].itemType.LootItem? ==> events[k].item < n
  }

  /**
   * Events carry the position of an item in the provider's list, but the replay looks for a loot
   * with that id. So a loot whose id is not below the number of loots on the ground is out of reach,
   * however many dogs run over it.
   */
  lemma {:induction false} HighIdsAreOutOfReach(f: Field, events: seq<Event>, capacity: nat, n: nat)
    requires InRange(events, |f.dogs|) && LootEventsBelow(events, n)
    ensures forall id :: id in Replayed(f, events, capacity).taken ==> id in f.taken || id < n
    ensures forall i, l :: 0 <= i < |f.dogs| && l in Replayed(f, events, capacity).dogs[i].bag
              ==> l in f.dogs[i].bag || l.id < n
    ensures forall l :: l in f.ground && l.id >= n ==> l in Replayed(f, events, capacity).ground
  {
    if events == [] {
    } else {
      var before := events[..|events| - 1];
      var e := events[|events| - 1];
      HighIdsAreOutOfReach(f, before, capacity, n);
      var g := Replayed(f, before, capacity);
      if CanTake(g, e, capacity) {
        var k := FirstWithId(g.ground, e.item);
        assert g.ground == g.ground[..k] + [g.ground[k]] + g.ground[k + 1..];
      }
    }
  }

  /**
   * A dog with room passes a loot that still lies on the ground. The event takes that loot off the
   * ground, into the dog's bag, exactly when the loot's id is its position in the provider's list.
   */
  lemma TakesPassedLoot(ground: seq<Loot>, f: Field, e: Event, capacity: nat)
    requires e.itemType.LootItem? && e.item < |ground|
    requires e.gatherer < |f.dogs| && |f.dogs[e.gatherer].bag| < capacity
    requires ground[e.item] in f.ground && ground[e.item].id !in f.taken
    requires forall i, j :: 0 <= i < j < |f.ground| ==> f.ground[i].id != f.ground[j].id
    ensures ground[e.item] !in Step(f, e, capacity).ground <==> ground[e.item].id == e.item
    ensures ground[e.item].id == e.item ==>
              Step(f, e, capacity).dogs[e.gatherer] == WithLoot(f.dogs[e.gatherer], ground[e.item])
  {
    var l := ground[e.item];
    var i :| 0 <= i < |f.ground| && f.ground[i] == l;
    if l.id == e.item {
      assert FirstWithId(f.ground, e.item) == i;
    } else if CanTake(f, e, capacity) {
      var k := FirstWithId(f.ground, e.item);
      assert RemoveAt(f.ground, k)[if i < k then i else i - 1] == l;
    }
  }
}
