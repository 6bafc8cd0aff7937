/**
 * The connection pool and its wrappers as objects: the critical sections, one at a time. Waiting for
 * a free connection and the interleaving of threads are the subject of module `PoolProtocol`.
 */
module ConnectionPools {
  import opened Options
  import opened Pools

  /** A connection to the database; only its identity matters here. */
  class Connection {
    constructor () {}
  }

  class ConnectionPool {
    const slots: array<Option<Connection>>
    var used: nat
    /** All connections of the pool. */
    ghost const all: set<Connection>
    /** The connections that are lent out, and the wrapper that has each. */
    ghost var holders: map<Connection, ConnectionWrapper>

    function Value(): Pool<Connection>
      reads this, slots
    {
      Pool(slots[..], used)
    }

    /** Each connection is in exactly one slot or in exactly one live wrapper. */
    ghost predicate Valid()
      reads this, slots, holders.Values
    {
      && Fits(Value(), holders.Keys, all)
      && forall c :: c in holders ==> holders[c].pool == this && holders[c].conn == Some(c)
    }

    constructor (capacity: nat)
      ensures Valid() && fresh(slots) && slots.Length == capacity && used == 0 && holders == map[]
    {
      var made := new Option<Connection>[capacity](_ => None);
      ghost var created: seq<Connection> := [];
      for i := 0 to capacity
        invariant fresh(made) && |created| == i
        invariant forall j :: 0 <= j < i ==> made[j] == Some(created[j])
        invariant forall c :: c in created ==> allocated(c)
        invariant forall j, k :: 0 <= j < k < i ==> created[j] != created[k]
      {
        var connection := new Connection();
        made[i] := Some(connection);
        created := created + [connection];
      }
      slots, used := made, 0;
      all, holders := set c | c in created, map[];
      new;
      forall c | c in all ensures Some(c) in Value().slots {
        var i :| 0 <= i < |created| && created[i] == c;
        assert slots[..][i] == Some(c);
      }
    }

    method MoveOut() returns (conn: Option<Connection>)
      requires Value().HasFree()
      modifies this`used, slots
      ensures conn == old(slots[used]) && Value() == old(Value()).AfterTake()
    {
      conn := slots[used];
      slots[used] := None;
      used := used + 1;
    }

    /** What GetConnection does once there is a free connection. */
    method GetConnection() returns (w: ConnectionWrapper)
      requires Valid() && Value().HasFree()
      modifies this, slots
      ensures Valid() && fresh(w) && Value() == old(Value()).AfterTake()
      ensures w.conn == old(slots[used]) && w.pool == this && w.conn.Some?
      ensures holders == old(holders)[w.conn.value := w]
    {
      TakeFits(Value(), holders.Keys, all);
      var conn := MoveOut();
      w := new ConnectionWrapper(conn, this);
      holders := holders[conn.value := w];
      assert holders.Keys == old(holders.Keys) + {conn.value};
      forall c | c in holders ensures holders[c].pool == this && holders[c].conn == Some(c) {
        if c != conn.value {
          assert c in old(holders) && old(holders[c].conn) == Some(c);
        }
      }
    }

    /** The wrapper hands its connection back; the slot below `used` receives it. */
    method ReturnConnection(w: ConnectionWrapper)
      requires Valid() && w.conn.Some? && w.conn.value in holders && holders[w.conn.value] == w
      modifies this, slots, w`conn
      ensures Valid() && Value() == old(Value()).AfterReturn(old(w.conn.value))
      ensures w.conn.None? && holders == old(holders) - {old(w.conn.value)}
    {
      ReturnFits(Value(), holders.Keys, all, w.conn.value);
      assert used != 0;
      used := used - 1;
      slots[used] := w.conn;
      holders := holders - {w.conn.value};
      w.conn := None;
      assert Value() == old(Value()).AfterReturn(old(w.conn.value));
    }
  }

  class ConnectionWrapper {
    const pool: ConnectionPool
    var conn: Option<Connection>

    constructor (conn: Option<Connection>, pool: ConnectionPool)
      ensures this.conn == conn && this.pool == pool
    {
      this.conn, this.pool := conn, pool;
    }

    /** The wrapper that a moved-from wrapper's connection goes to. */
    constructor Move(other: ConnectionWrapper)
      requires other.pool.Valid()
      requires other.conn.Some? ==>
                 other.conn.value in other.pool.holders && other.pool.holders[other.conn.value] == other
      modifies other`conn, other.pool`holders
      ensures pool == other.pool && pool.Valid() && conn == old(other.conn) && other.conn.None?
      ensures conn.Some? ==> pool.holders == old(other.pool.holders)[conn.value := this]
      ensures conn.None? ==> pool.holders == old(other.pool.holders)
      ensures pool.Value() == old(other.pool.Value())
    {
      pool, conn := other.pool, other.conn;
      new;
      other.conn := None;
      if conn.Some? {
        pool.holders := pool.holders[conn.value := this];
        assert pool.holders.Keys == old(other.pool.holders.Keys);
      }
      forall c | c in pool.holders ensures pool.holders[c].pool == pool && pool.holders[c].conn == Some(c) {
        assert old(other.pool.holders[c].conn) == Some(c);
      }
    }

    /** The destructor: a wrapper that still has its connection gives it back. */
    method Destroy()
      requires pool.Valid() && (conn.Some? ==> conn.value in pool.holders && pool.holders[conn.value] == this)
      modifies this`conn, pool, pool.slots
      ensures pool.Valid() && conn.None?
      ensures old(conn.None?) ==> pool.Value() == old(pool.Value()) && pool.holders == old(pool.holders)
      ensures old(conn.Some?) ==>
                && pool.Value() == old(pool.Value()).AfterReturn(old(conn.value))
                && pool.holders == old(pool.holders) - {old(conn.value)}
    {
      if conn.Some? {
        pool.ReturnConnection(this);
      }
    }
  }
}
