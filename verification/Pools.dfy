/**
 * The connection pool as a value. Connections lie in the slots from `used` on; taking one empties
 * the slot at `used`, returning one fills the slot below.
 */
module Pools {
  import opened Options

  datatype Pool<C> = Pool(slots: seq<Option<C>>, used: nat)
  {
    /** Slots below `used` are empty and the rest are full. */
    ghost predicate Neat() {
      && used <= |slots|
      && (forall i :: 0 <= i < used ==> slots[i].None?)
      && forall i :: used <= i < |slots| ==> slots[i].Some?
    }

    predicate HasFree() { used < |slots| }

    /** What is left after the connection in slot `used` has been moved out. */
    function AfterTake(): Pool<C>
      requires HasFree()
    {
      Pool(slots[used := None], used + 1)
    }

    function AfterReturn(conn: C): Pool<C>
      requires 0 < used <= |slots|
    {
      Pool(slots[used - 1 := Some(conn)], used - 1)
    }
  }

  function AsMultiset<C>(o: Option<C>): multiset<C> {
    if o.Some? then multiset{o.value} else multiset{}
  }

  /** Everything that the elements of `s` hold, taken together. */
  function Gathered<T, C>(s: seq<T>, holds: T -> multiset<C>): multiset<C> {
    if s == [] then multiset{} else Gathered(s[..|s| - 1], holds) + holds(s[|s| - 1])
  }

  lemma {:induction false} GatheredUpdate<T, C>(s: seq<T>, holds: T -> multiset<C>, i: nat, x: T)
    requires i < |s|
    ensures Gathered(s[i := x], holds) + holds(s[i]) == Gathered(s, holds) + holds(x)
  {
    var n := |s| - 1;
    if i == n {
      assert s[i := x][..n] == s[..n];
    } else {
      GatheredUpdate(s[..n], holds, i, x);
      assert s[i := x][..n] == s[..n][i := x];
      AddBoth(Gathered(s[..n][i := x], holds), holds(s[i]), Gathered(s[..n], holds), holds(x), holds(s[n]));
    }
  }

  lemma AddBoth<C>(a: multiset<C>, b: multiset<C>, c: multiset<C>, d: multiset<C>, e: multiset<C>)
    requires a + b == c + d
    ensures a + e + b == c + e + d
  {
    assert a + e + b == a + b + e && c + e + d == c + d + e;
  }

  lemma GatheredWithLast<T, C>(s: seq<T>, holds: T -> multiset<C>, x: T)
    ensures Gathered(s + [x], holds) == Gathered(s, holds) + holds(x)
  {
    assert (s + [x])[..|s|] == s;
  }

  /** Replacing an element by one that holds the same changes nothing. */
  lemma {:induction false} GatheredSame<T, C>(s: seq<T>, holds: T -> multiset<C>, i: nat, x: T)
    requires i < |s| && holds(x) == holds(s[i])
    ensures Gathered(s[i := x], holds) == Gathered(s, holds)
  {
    var n := |s| - 1;
    if i == n {
      assert s[i := x][..n] == s[..n];
    } else {
      GatheredSame(s[..n], holds, i, x);
      assert s[i := x][..n] == s[..n][i := x];
    }
  }

  function InSlots<C>(p: Pool<C>): multiset<C> { Gathered(p.slots, AsMultiset) }

  lemma GatheredGains<T, C>(s: seq<T>, holds: T -> multiset<C>, i: nat, x: T)
    requires i < |s| && holds(s[i]) == multiset{}
    ensures Gathered(s[i := x], holds) == Gathered(s, holds) + holds(x)
  {
    GatheredUpdate(s, holds, i, x);
    assert Gathered(s[i := x], holds) + multiset{} == Gathered(s[i := x], holds);
  }

  lemma GatheredGives<T, C>(s: seq<T>, holds: T -> multiset<C>, i: nat, x: T)
    requires i < |s| && holds(x) == multiset{}
    ensures Gathered(s, holds) == Gathered(s[i := x], holds) + holds(s[i])
  {
    GatheredUpdate(s, holds, i, x);
    assert Gathered(s, holds) + multiset{} == Gathered(s, holds);
  }

  /** Taking moves exactly one connection out of the slots, and the pool stays neat. */
  lemma TakeMovesOne<C>(p: Pool<C>)
    requires p.Neat() && p.HasFree()
    ensures p.slots[p.used].Some? && p.AfterTake().Neat()
    ensures InSlots(p) == InSlots(p.AfterTake()) + multiset{p.slots[p.used].value}
  {
    GatheredGives(p.slots, AsMultiset, p.used, None);
  }

  lemma ReturnMovesOne<C>(p: Pool<C>, conn: C)
    requires p.Neat() && p.used > 0
    ensures p.AfterReturn(conn).Neat()
    ensures InSlots(p.AfterReturn(conn)) == InSlots(p) + multiset{conn}
  {
    assert p.slots[p.used - 1] == None;
    GatheredGains(p.slots, AsMultiset, p.used - 1, Some(conn));
  }

  /** Each of the connections `all` is in exactly one slot or lent out. */
  ghost predicate Fits<C>(p: Pool<C>, lent: set<C>, all: set<C>) {
    && p.Neat() && |lent| == p.used && lent <= all
    && (forall i, j :: p.used <= i < j < |p.slots| ==> p.slots[i] != p.slots[j])
    && (forall i :: p.used <= i < |p.slots| ==> p.slots[i].value in all && p.slots[i].value !in lent)
    && forall c :: c in all && c !in lent ==> Some(c) in p.slots
  }

  lemma TakeFits<C>(p: Pool<C>, lent: set<C>, all: set<C>)
    requires Fits(p, lent, all) && p.HasFree()
    ensures p.slots[p.used].Some? && p.slots[p.used].value !in lent
    ensures Fits(p.AfterTake(), lent + {p.slots[p.used].value}, all)
  {
    var (p', conn) := (p.AfterTake(), p.slots[p.used].value);
    forall c | c in all && c !in lent + {conn} ensures Some(c) in p'.slots {
      var i :| 0 <= i < |p.slots| && p.slots[i] == Some(c);
      assert p'.slots[i] == Some(c);
    }
  }

  /** Whoever returns a lent connection finds room for it. */
  lemma ReturnFits<C>(p: Pool<C>, lent: set<C>, all: set<C>, conn: C)
    requires Fits(p, lent, all) && conn in lent
    ensures p.used > 0 && Fits(p.AfterReturn(conn), lent - {conn}, all)
  {
    assert lent == (lent - {conn}) + {conn};
    var p' := p.AfterReturn(conn);
    forall c | c in all && c !in lent - {conn} ensures Some(c) in p'.slots {
      if c == conn {
        assert p'.slots[p'.used] == Some(c);
      } else {
        var i :| 0 <= i < |p.slots| && p.slots[i] == Some(c);
        assert p'.slots[i] == Some(c);
      }
    }
  }
}
