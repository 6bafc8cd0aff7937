/**
 * The connection pool under any number of threads, step by step: a mutex, a condition variable,
 * notification after the mutex has been released, and wrappers that give connections back. Steps of
 * different threads interleave freely; a newcomer may overtake a woken thread, and a sleeping thread
 * may wake up without having been notified.
 */
module PoolProtocol {
  import opened Options
  import opened Pools

  /** Where a thread is. */
  datatype Thread<C> =
    | Idle
    | Locking                          // at the start of GetConnection, waiting for the mutex
    | Checking                         // owns the mutex, about to evaluate the condition
    | Waiting                          // asleep on the condition variable
    | Woken                            // awake again, waiting for the mutex
    | Taking                           // owns the mutex, the condition was true
    | Departing(conn: Option<C>)       // owns the mutex, the wrapper is built
    | Holding(conn: Option<C>)         // uses the connection
    | Returning(back: C)               // the wrapper is destroyed, waiting for the mutex
    | Putting(back: C)                 // owns the mutex in ReturnConnection
    | Done                             // owns the mutex, the slot is filled
    | Notifying                        // has released the mutex, about to notify

  /** `failed` is set by the assertion in ReturnConnection and by an access outside the slots. */
  datatype System<C> = System(threads: seq<Thread<C>>, owner: Option<nat>, pool: Pool<C>, failed: bool)

  datatype Step =
    | Spawn
    | Begin(t: nat)
    | Acquire(t: nat)
    | Check(t: nat)
    | Take(t: nat)
    | Unlock(t: nat)
    | Drop(t: nat)
    | Put(t: nat)
    | Notify(t: nat, woken: Option<nat>)
    | WakeUp(t: nat)

  ghost predicate NobodyWaits<C>(threads: seq<Thread<C>>) {
    forall t :: 0 <= t < |threads| ==> !threads[t].Waiting?
  }

  ghost predicate Enabled<C>(s: System<C>, step: Step) {
    match step
    case Spawn => true
    case Begin(t) => t < |s.threads| && s.threads[t].Idle?
    case Acquire(t) =>
      t < |s.threads| && s.owner.None? && (s.threads[t].Locking? || s.threads[t].Woken? || s.threads[t].Returning?)
    case Check(t) => t < |s.threads| && s.threads[t].Checking?
    case Take(t) => t < |s.threads| && s.threads[t].Taking?
    case Unlock(t) => t < |s.threads| && (s.threads[t].Departing? || s.threads[t].Done?)
    case Drop(t) => t < |s.threads| && s.threads[t].Holding?
    case Put(t) => t < |s.threads| && s.threads[t].Putting?
    case Notify(t, woken) =>
      && t < |s.threads| && s.threads[t].Notifying?
      && (woken.None? ==> NobodyWaits(s.threads))
      && (woken.Some? ==> woken.value < |s.threads| && s.threads[woken.value].Waiting?)
    case WakeUp(t) => t < |s.threads| && s.threads[t].Waiting?
  }

  function At<C>(s: System<C>, t: nat, now: Thread<C>): System<C>
    requires t < |s.threads|
  {
    s.(threads := s.threads[t := now])
  }

  function Taken<C>(s: System<C>, t: nat): System<C>
    requires t < |s.threads| && s.pool.HasFree()
  {
    At(s, t, Departing(s.pool.slots[s.pool.used])).(pool := s.pool.AfterTake())
  }

  function PutBack<C>(s: System<C>, t: nat, conn: C): System<C>
    requires t < |s.threads| && 0 < s.pool.used <= |s.pool.slots|
  {
    At(s, t, Done).(pool := s.pool.AfterReturn(conn))
  }

  function Notified<C>(s: System<C>, t: nat, woken: nat): System<C>
    requires t < |s.threads| && woken < |s.threads|
  {
    At(At(s, t, Idle), woken, Woken)
  }

  ghost function Next<C>(s: System<C>, step: Step): System<C>
    requires Enabled(s, step)
  {
    match step
    case Spawn => s.(threads := s.threads + [Idle])
    case Begin(t) => At(s, t, Locking)
    case Acquire(t) =>
      At(s, t, if s.threads[t].Returning? then Putting(s.threads[t].back) else Checking).(owner := Some(t))
    case Check(t) => if s.pool.HasFree() then At(s, t, Taking) else At(s, t, Waiting).(owner := None)
    case Take(t) =>
      if s.pool.HasFree() then Taken(s, t) else s.(failed := true)
    case Unlock(t) =>
      At(s, t, if s.threads[t].Departing? then Holding(s.threads[t].conn) else Notifying).(owner := None)
    case Drop(t) =>
      At(s, t, if s.threads[t].conn.Some? then Returning(s.threads[t].conn.value) else Idle)
    case Put(t) =>
      if 0 < s.pool.used <= |s.pool.slots| then PutBack(s, t, s.threads[t].back) else s.(failed := true)
    case Notify(t, woken) =>
      if woken.Some? then Notified(s, t, woken.value) else At(s, t, Idle)
    case WakeUp(t) => At(s, t, Woken)
  }

  // ---- counting threads ----

  function Sum<T>(s: seq<T>, f: T -> nat): nat {
    if s == [] then 0 else Sum(s[..|s| - 1], f) + f(s[|s| - 1])
  }

  lemma {:induction false} SumUpdate<T>(s: seq<T>, f: T -> nat, i: nat, x: T)
    requires i < |s|
    ensures Sum(s[i := x], f) + f(s[i]) == Sum(s, f) + f(x)
  {
    var n := |s| - 1;
    if i == n {
      assert s[i := x][..n] == s[..n];
    } else {
      SumUpdate(s[..n], f, i, x);
      assert s[i := x][..n] == s[..n][i := x];
    }
  }

  lemma SumWithLast<T>(s: seq<T>, f: T -> nat, x: T)
    ensures Sum(s + [x], f) == Sum(s, f) + f(x)
  {
    assert (s + [x])[..|s|] == s;
  }

  lemma {:induction false} SumPositive<T>(s: seq<T>, f: T -> nat)
    ensures Sum(s, f) > 0 <==> exists i :: 0 <= i < |s| && f(s[i]) > 0
  {
    if s == [] {
    } else {
      var n := |s| - 1;
      SumPositive(s[..n], f);
      if exists i :: 0 <= i < n && f(s[i]) > 0 {
        var i :| 0 <= i < n && f(s[i]) > 0;
        assert f(s[..n][i]) > 0;
      }
    }
  }

  /** The connection that a thread has in its hands. */
  function Carried<C>(th: Thread<C>): Option<C> {
    match th
    case Departing(conn) => conn
    case Holding(conn) => conn
    case Returning(back) => Some(back)
    case Putting(back) => Some(back)
    case _ => None
  }

  function Held<C>(th: Thread<C>): multiset<C> { AsMultiset(Carried(th)) }

  function HoldsOne<C>(th: Thread<C>): nat {
    if th.Departing? || th.Holding? || th.Returning? || th.Putting? then 1 else 0
  }

  function Asleep<C>(th: Thread<C>): nat { if th.Waiting? then 1 else 0 }

  /** Threads that will notify, or that are going to look for a free connection without further ado. */
  function Prospect<C>(th: Thread<C>): nat {
    if th.Done? || th.Notifying? || th.Woken? || th.Checking? || th.Taking? then 1 else 0
  }

  predicate InCritical<C>(th: Thread<C>) {
    th.Checking? || th.Taking? || th.Departing? || th.Putting? || th.Done?
  }

  // ---- the invariant ----

  /** A thread owns the mutex exactly while it is in a critical section. */
  ghost predicate Exclusive<C>(s: System<C>) {
    && (forall t :: 0 <= t < |s.threads| ==> (InCritical(s.threads[t]) <==> s.owner == Some(t)))
    && (s.owner.Some? ==> s.owner.value < |s.threads|)
  }

  /** Wrappers are never empty, and a thread that found the condition true will find a connection. */
  ghost predicate Armed<C>(s: System<C>) {
    forall t :: 0 <= t < |s.threads| ==>
      var th := s.threads[t];
      && (th.Taking? ==> s.pool.HasFree())
      && (th.Departing? || th.Holding? ==> th.conn.Some?)
  }

  /** The connections in slots and wrappers together are always the same ones. */
  ghost predicate NoneLost<C>(s: System<C>, all: multiset<C>) {
    && InSlots(s.pool) + Gathered(s.threads, Held) == all
    && Sum(s.threads, HoldsOne) == s.pool.used
  }

  /** While somebody sleeps, no free connection goes unnoticed. */
  ghost predicate NoLostWakeup<C>(s: System<C>) {
    Sum(s.threads, Asleep) > 0 ==> |s.pool.slots| <= s.pool.used + Sum(s.threads, Prospect)
  }

  ghost predicate Inv<C>(s: System<C>, all: multiset<C>) {
    && !s.failed && s.pool.Neat()
    && Exclusive(s) && Armed(s) && NoneLost(s, all) && NoLostWakeup(s)
  }

  /** A pool full of the connections `all`, and no threads yet. */
  ghost predicate IsFresh<C>(s: System<C>, all: multiset<C>) {
    && s.threads == [] && s.owner.None? && !s.failed
    && s.pool.used == 0 && s.pool.Neat() && InSlots(s.pool) == all
  }

  lemma FreshSystemIsSound<C>(s: System<C>, all: multiset<C>)
    requires IsFresh(s, all)
    ensures Inv(s, all)
  {
  }

  /** How thread `t` moving on to `now` changes the counts. */
  lemma CountsAfterMove<C>(threads: seq<Thread<C>>, t: nat, now: Thread<C>)
    requires t < |threads|
    ensures var (threads', was) := (threads[t := now], threads[t]);
      && Sum(threads', HoldsOne) + HoldsOne(was) == Sum(threads, HoldsOne) + HoldsOne(now)
      && Sum(threads', Asleep) + Asleep(was) == Sum(threads, Asleep) + Asleep(now)
      && Sum(threads', Prospect) + Prospect(was) == Sum(threads, Prospect) + Prospect(now)
  {
    SumUpdate(threads, HoldsOne, t, now);
    SumUpdate(threads, Asleep, t, now);
    SumUpdate(threads, Prospect, t, now);
  }

  lemma NobodyIsAsleep<C>(threads: seq<Thread<C>>)
    ensures NobodyWaits(threads) <==> Sum(threads, Asleep) == 0
  {
    SumPositive(threads, Asleep);
    if !NobodyWaits(threads) {
      var t :| 0 <= t < |threads| && threads[t].Waiting?;
      assert Asleep(threads[t]) > 0;
    }
  }

  lemma SpawnKeepsInv<C>(s: System<C>, all: multiset<C>)
    requires Inv(s, all)
    ensures Inv(Next(s, Spawn), all)
  {
    SumWithLast(s.threads, HoldsOne, Idle);
    SumWithLast(s.threads, Asleep, Idle);
    SumWithLast(s.threads, Prospect, Idle);
    GatheredWithLast(s.threads, Held, Idle);
    SpawnKeepsPlaces(s);
    assert Gathered(s.threads, Held) + multiset{} == Gathered(s.threads, Held);
  }

  lemma SpawnKeepsPlaces<C>(s: System<C>)
    requires Exclusive(s) && Armed(s)
    ensures Exclusive(Next(s, Spawn)) && Armed(Next(s, Spawn))
  {
  }

  /** The mutex goes only to a thread entering a critical section, and only when it is free. */
  ghost predicate IsProperMove<C>(s: System<C>, t: nat, now: Thread<C>, owner: Option<nat>) {
    && (now.Taking? ==> s.pool.HasFree())
    && (now.Departing? || now.Holding? ==> now.conn.Some?)
    && if InCritical(now) then owner == Some(t) && (s.owner == Some(t) || s.owner == None)
       else owner == if s.owner == Some(t) then None else s.owner
  }

  /** Nobody falls asleep with a connection free, and no prospect is lost while somebody sleeps. */
  ghost predicate IsQuietMove<C>(s: System<C>, t: nat, now: Thread<C>)
    requires t < |s.threads|
  {
    || !s.pool.HasFree() || NobodyWaits(s.threads[t := now])
    || (!now.Waiting? && Prospect(now) >= Prospect(s.threads[t]))
  }

  /** A thread that moves on does not hold another thread's mutex or find a taken connection. */
  lemma MoveKeepsPlaces<C>(s: System<C>, t: nat, now: Thread<C>, owner: Option<nat>)
    requires Exclusive(s) && Armed(s) && t < |s.threads|
    requires IsProperMove(s, t, now, owner)
    ensures Exclusive(At(s, t, now).(owner := owner)) && Armed(At(s, t, now).(owner := owner))
  {
  }

  lemma MoveKeepsWakeups<C>(s: System<C>, t: nat, now: Thread<C>, owner: Option<nat>)
    requires NoLostWakeup(s) && t < |s.threads|
    requires IsQuietMove(s, t, now)
    ensures NoLostWakeup(At(s, t, now).(owner := owner))
  {
    CountsAfterMove(s.threads, t, now);
    NobodyIsAsleep(s.threads[t := now]);
  }

  /** A thread moves on without touching the pool. */
  lemma MoveKeepsInv<C>(s: System<C>, all: multiset<C>, t: nat, now: Thread<C>, owner: Option<nat>)
    requires Inv(s, all) && t < |s.threads|
    requires IsProperMove(s, t, now, owner) && IsQuietMove(s, t, now)
    requires Carried(now) == Carried(s.threads[t]) && HoldsOne(now) == HoldsOne(s.threads[t])
    ensures Inv(At(s, t, now).(owner := owner), all)
  {
    MoveKeepsPlaces(s, t, now, owner);
    MoveKeepsWakeups(s, t, now, owner);
    CountsAfterMove(s.threads, t, now);
    GatheredSame(s.threads, Held, t, now);
  }

  lemma TakeKeepsInv<C>(s: System<C>, all: multiset<C>, t: nat)
    requires Inv(s, all) && t < |s.threads| && s.threads[t].Taking?
    ensures s.pool.HasFree() && Inv(Taken(s, t), all)
  {
    TakeLosesNone(s, all, t);
    TakeKeepsPlaces(s, t);
    CountsAfterMove(s.threads, t, Departing(s.pool.slots[s.pool.used]));
  }

  lemma TakeLosesNone<C>(s: System<C>, all: multiset<C>, t: nat)
    requires NoneLost(s, all) && t < |s.threads| && s.threads[t].Taking? && s.pool.Neat() && s.pool.HasFree()
    ensures NoneLost(Taken(s, t), all) && s.pool.AfterTake().Neat() && s.pool.slots[s.pool.used].Some?
  {
    SumUpdate(s.threads, HoldsOne, t, Departing(s.pool.slots[s.pool.used]));
    TakeKeepsAll(s, t);
  }

  lemma TakeGoesToThread<C>(s: System<C>, t: nat)
    requires t < |s.threads| && s.threads[t].Taking? && s.pool.Neat() && s.pool.HasFree()
    ensures s.pool.slots[s.pool.used].Some?
    ensures Gathered(Taken(s, t).threads, Held)
         == Gathered(s.threads, Held) + multiset{s.pool.slots[s.pool.used].value}
  {
    assert Carried(s.threads[t]) == None && Carried(Departing(s.pool.slots[s.pool.used])).Some?;
    GatheredGains(s.threads, Held, t, Departing(s.pool.slots[s.pool.used]));
  }

  lemma TakeKeepsAll<C>(s: System<C>, t: nat)
    requires t < |s.threads| && s.threads[t].Taking? && s.pool.Neat() && s.pool.HasFree()
    ensures s.pool.AfterTake().Neat() && s.pool.slots[s.pool.used].Some?
    ensures InSlots(Taken(s, t).pool) + Gathered(Taken(s, t).threads, Held)
         == InSlots(s.pool) + Gathered(s.threads, Held)
  {
    TakeMovesOne(s.pool);
    TakeGoesToThread(s, t);
    Shift(InSlots(s.pool.AfterTake()), Gathered(s.threads, Held), multiset{s.pool.slots[s.pool.used].value});
  }

  lemma Shift<C>(a: multiset<C>, b: multiset<C>, one: multiset<C>)
    ensures a + (b + one) == (a + one) + b
  {
  }

  lemma TakeKeepsPlaces<C>(s: System<C>, t: nat)
    requires Exclusive(s) && Armed(s) && t < |s.threads| && s.threads[t].Taking? && s.pool.Neat()
    ensures s.pool.HasFree() && Exclusive(Taken(s, t)) && Armed(Taken(s, t))
  {
    assert s.owner == Some(t);
  }

  lemma PutKeepsInv<C>(s: System<C>, all: multiset<C>, t: nat)
    requires Inv(s, all) && t < |s.threads| && s.threads[t].Putting?
    ensures 0 < s.pool.used <= |s.pool.slots| && Inv(PutBack(s, t, s.threads[t].back), all)
  {
    ReturnFindsRoom(s, all, t);
    PutLosesNone(s, all, t);
    PutKeepsPlaces(s, t);
    CountsAfterMove(s.threads, t, Done);
  }

  /** The assertion in ReturnConnection holds: a thread that gives a connection back has one. */
  lemma ReturnFindsRoom<C>(s: System<C>, all: multiset<C>, t: nat)
    requires NoneLost(s, all) && t < |s.threads| && s.threads[t].Putting?
    ensures s.pool.used > 0
  {
    SumPositive(s.threads, HoldsOne);
    assert HoldsOne(s.threads[t]) > 0;
  }

  lemma PutLosesNone<C>(s: System<C>, all: multiset<C>, t: nat)
    requires NoneLost(s, all) && t < |s.threads| && s.threads[t].Putting? && s.pool.Neat() && s.pool.used > 0
    ensures NoneLost(PutBack(s, t, s.threads[t].back), all) && s.pool.AfterReturn(s.threads[t].back).Neat()
  {
    SumUpdate(s.threads, HoldsOne, t, Done);
    PutMovesOne(s, t);
  }

  lemma PutComesFromThread<C>(s: System<C>, t: nat)
    requires t < |s.threads| && s.threads[t].Putting? && 0 < s.pool.used <= |s.pool.slots|
    ensures Gathered(s.threads, Held)
         == Gathered(PutBack(s, t, s.threads[t].back).threads, Held) + multiset{s.threads[t].back}
  {
    assert Carried(s.threads[t]) == Some(s.threads[t].back) && Carried<C>(Done) == None;
    GatheredGives(s.threads, Held, t, Done);
  }

  lemma PutMovesOne<C>(s: System<C>, t: nat)
    requires t < |s.threads| && s.threads[t].Putting? && s.pool.Neat() && s.pool.used > 0
    ensures s.pool.AfterReturn(s.threads[t].back).Neat()
    ensures var s' := PutBack(s, t, s.threads[t].back);
      InSlots(s'.pool) + Gathered(s'.threads, Held) == InSlots(s.pool) + Gathered(s.threads, Held)
  {
    var conn := s.threads[t].back;
    ReturnMovesOne(s.pool, conn);
    PutComesFromThread(s, t);
    Shift(InSlots(s.pool), Gathered(PutBack(s, t, conn).threads, Held), multiset{conn});
  }

  lemma PutKeepsPlaces<C>(s: System<C>, t: nat)
    requires Exclusive(s) && Armed(s) && t < |s.threads| && s.threads[t].Putting? && s.pool.Neat() && s.pool.used > 0
    ensures Exclusive(PutBack(s, t, s.threads[t].back)) && Armed(PutBack(s, t, s.threads[t].back))
  {
    assert s.owner == Some(t);
  }

  lemma NotifyKeepsInv<C>(s: System<C>, all: multiset<C>, t: nat, woken: nat)
    requires Inv(s, all) && t < |s.threads| && woken < |s.threads|
    requires s.threads[t].Notifying? && s.threads[woken].Waiting?
    ensures Inv(Notified(s, t, woken), all)
  {
    NotifyKeepsCounts(s, all, t, woken);
    NotifyKeepsPlaces(s, t, woken);
  }

  lemma NotifyKeepsCounts<C>(s: System<C>, all: multiset<C>, t: nat, woken: nat)
    requires NoneLost(s, all) && NoLostWakeup(s) && t < |s.threads| && woken < |s.threads|
    requires s.threads[t].Notifying? && s.threads[woken].Waiting?
    ensures NoneLost(Notified(s, t, woken), all) && NoLostWakeup(Notified(s, t, woken))
  {
    var threads := s.threads[t := Idle];
    CountsAfterMove(s.threads, t, Idle);
    CountsAfterMove(threads, woken, Woken);
    GatheredSame(s.threads, Held, t, Idle);
    GatheredSame(threads, Held, woken, Woken);
  }

  lemma NotifyKeepsPlaces<C>(s: System<C>, t: nat, woken: nat)
    requires Exclusive(s) && Armed(s) && t < |s.threads| && woken < |s.threads|
    requires s.threads[t].Notifying? && s.threads[woken].Waiting?
    ensures Exclusive(Notified(s, t, woken)) && Armed(Notified(s, t, woken))
  {
  }

  /** Steps that move one thread on and leave the pool alone. */
  ghost predicate IsPlain(step: Step) {
    step.Begin? || step.Acquire? || step.Check? || step.Unlock? || step.Drop? || step.WakeUp?
    || (step.Notify? && step.woken.None?)
  }

  function PlainTarget<C>(s: System<C>, step: Step): (Thread<C>, Option<nat>)
    requires IsPlain(step) && step.t < |s.threads|
  {
    var th := s.threads[step.t];
    match step
    case Begin(t) => (Locking, s.owner)
    case Acquire(t) => (if th.Returning? then Putting(th.back) else Checking, Some(t))
    case Check(t) => if s.pool.HasFree() then (Taking, s.owner) else (Waiting, None)
    case Unlock(t) => (if th.Departing? then Holding(th.conn) else Notifying, None)
    case Drop(t) => (if th.Holding? && th.conn.Some? then Returning(th.conn.value) else Idle, s.owner)
    case Notify(t, woken) => (Idle, s.owner)
    case WakeUp(t) => (Woken, s.owner)
  }

  lemma PlainStep<C>(s: System<C>, step: Step)
    requires IsPlain(step) && Enabled(s, step)
    ensures var (now, owner) := PlainTarget(s, step); Next(s, step) == At(s, step.t, now).(owner := owner)
  {
  }

  lemma PlainStepIsProper<C>(s: System<C>, step: Step)
    requires Exclusive(s) && Armed(s) && IsPlain(step) && Enabled(s, step)
    ensures IsProperMove(s, step.t, PlainTarget(s, step).0, PlainTarget(s, step).1)
  {
    assert InCritical(s.threads[step.t]) <==> s.owner == Some(step.t);
  }

  lemma PlainStepIsQuiet<C>(s: System<C>, step: Step)
    requires Armed(s) && IsPlain(step) && Enabled(s, step)
    ensures IsQuietMove(s, step.t, PlainTarget(s, step).0)
  {
  }

  lemma PlainStepKeepsHold<C>(s: System<C>, step: Step)
    requires Armed(s) && IsPlain(step) && Enabled(s, step)
    ensures var (now, was) := (PlainTarget(s, step).0, s.threads[step.t]);
      Carried(now) == Carried(was) && HoldsOne(now) == HoldsOne(was)
  {
  }

  lemma PlainStepKeepsInv<C>(s: System<C>, all: multiset<C>, step: Step)
    requires Inv(s, all) && Enabled(s, step) && IsPlain(step)
    ensures Inv(Next(s, step), all)
  {
    var (now, owner) := PlainTarget(s, step);
    PlainStep(s, step);
    PlainStepIsProper(s, step);
    PlainStepIsQuiet(s, step);
    PlainStepKeepsHold(s, step);
    MoveKeepsInv(s, all, step.t, now, owner);
  }

  lemma StepKeepsInv<C>(s: System<C>, all: multiset<C>, step: Step)
    requires Inv(s, all) && Enabled(s, step)
    ensures Inv(Next(s, step), all)
  {
    if step.Spawn? {
      SpawnKeepsInv(s, all);
    } else if step.Take? {
      TakeKeepsInv(s, all, step.t);
    } else if step.Put? {
      PutKeepsInv(s, all, step.t);
    } else if step.Notify? && step.woken.Some? {
      NotifyKeepsInv(s, all, step.t, step.woken.value);
    } else {
      PlainStepKeepsInv(s, all, step);
    }
  }

  // ---- runs ----

  ghost predicate IsRun<C>(s: System<C>, steps: seq<Step>)
    decreases |steps|
  {
    steps != [] ==>
      var n := |steps| - 1;
      IsRun(s, steps[..n]) && Enabled(AfterRun(s, steps[..n]), steps[n])
  }

  ghost function AfterRun<C>(s: System<C>, steps: seq<Step>): System<C>
    decreases |steps|
  {
    if steps == [] then s
    else
      var n := |steps| - 1;
      var before := AfterRun(s, steps[..n]);
      if Enabled(before, steps[n]) then Next(before, steps[n]) else before
  }

  lemma {:induction false} RunKeepsInv<C>(s: System<C>, all: multiset<C>, steps: seq<Step>)
    requires Inv(s, all) && IsRun(s, steps)
    ensures Inv(AfterRun(s, steps), all)
    decreases |steps|
  {
    if steps == [] {
    } else {
      var n := |steps| - 1;
      RunKeepsInv(s, all, steps[..n]);
      StepKeepsInv(AfterRun(s, steps[..n]), all, steps[n]);
    }
  }

  // ---- what every run guarantees ----

  /** At most one thread is in a critical section. */
  lemma MutualExclusion<C>(s: System<C>, all: multiset<C>, steps: seq<Step>, t1: nat, t2: nat)
    requires IsFresh(s, all) && IsRun(s, steps)
    requires t1 < |AfterRun(s, steps).threads| && InCritical(AfterRun(s, steps).threads[t1])
    requires t2 < |AfterRun(s, steps).threads| && InCritical(AfterRun(s, steps).threads[t2])
    ensures t1 == t2
  {
    FreshSystemIsSound(s, all);
    RunKeepsInv(s, all, steps);
  }

  /** No assertion fails, slots below `used` are empty and the rest full, and no connection gets lost or doubled. */
  lemma PoolStaysConsistent<C>(s: System<C>, all: multiset<C>, steps: seq<Step>)
    requires IsFresh(s, all) && IsRun(s, steps)
    ensures var s' := AfterRun(s, steps);
      && !s'.failed && s'.pool.Neat()
      && InSlots(s'.pool) + Gathered(s'.threads, Held) == all
      && s'.pool.used == Sum(s'.threads, HoldsOne)
  {
    FreshSystemIsSound(s, all);
    RunKeepsInv(s, all, steps);
  }

  datatype Place = Slot(i: nat) | Wrapper(t: nat)

  predicate IsIn<C(==)>(s: System<C>, c: C, p: Place) {
    match p
    case Slot(i) => i < |s.pool.slots| && s.pool.slots[i] == Some(c)
    case Wrapper(t) => t < |s.threads| && c in Held(s.threads[t])
  }

  lemma {:induction false} GatheredComesFromOne<T, C>(s: seq<T>, holds: T -> multiset<C>, c: C)
    requires c in Gathered(s, holds)
    ensures exists i :: 0 <= i < |s| && c in holds(s[i])
  {
    var n := |s| - 1;
    if c in Gathered(s[..n], holds) {
      GatheredComesFromOne(s[..n], holds, c);
      var i :| 0 <= i < n && c in holds(s[..n][i]);
      assert c in holds(s[i]);
    } else {
      assert c in holds(s[n]);
    }
  }

  lemma {:induction false} GatheredCounts<T, C>(s: seq<T>, holds: T -> multiset<C>, c: C)
    ensures forall i :: 0 <= i < |s| ==> holds(s[i])[c] <= Gathered(s, holds)[c]
    ensures forall i, j :: 0 <= i < j < |s| ==> holds(s[i])[c] + holds(s[j])[c] <= Gathered(s, holds)[c]
  {
    if s == [] {
    } else {
      var n := |s| - 1;
      GatheredCounts(s[..n], holds, c);
      forall i | 0 <= i < n ensures holds(s[i])[c] <= Gathered(s[..n], holds)[c] {
        assert s[..n][i] == s[i];
      }
      forall i, j | 0 <= i < j < n ensures holds(s[i])[c] + holds(s[j])[c] <= Gathered(s, holds)[c] {
        assert s[..n][i] == s[i] && s[..n][j] == s[j];
      }
    }
  }

  /** A connection that the pool was made with once is always in exactly one slot or wrapper. */
  lemma EachConnectionHasOnePlace<C>(s: System<C>, all: multiset<C>, steps: seq<Step>, c: C)
    requires IsFresh(s, all) && IsRun(s, steps) && all[c] == 1
    ensures exists p :: IsIn(AfterRun(s, steps), c, p)
    ensures forall p, q :: IsIn(AfterRun(s, steps), c, p) && IsIn(AfterRun(s, steps), c, q) ==> p == q
  {
    FreshSystemIsSound(s, all);
    RunKeepsInv(s, all, steps);
    var s' := AfterRun(s, steps);
    assert (InSlots(s'.pool) + Gathered(s'.threads, Held))[c] == 1;
    SomePlace(s', c);
    forall p, q | IsIn(s', c, p) && IsIn(s', c, q) ensures p == q {
      SamePlace(s', c, p, q);
    }
  }

  lemma SomePlace<C>(s: System<C>, c: C)
    requires (InSlots(s.pool) + Gathered(s.threads, Held))[c] == 1
    ensures exists p :: IsIn(s, c, p)
  {
    if InSlots(s.pool)[c] > 0 {
      GatheredComesFromOne(s.pool.slots, AsMultiset, c);
      var i :| 0 <= i < |s.pool.slots| && c in AsMultiset(s.pool.slots[i]);
      assert IsIn(s, c, Slot(i));
    } else {
      assert c in Gathered(s.threads, Held);
      GatheredComesFromOne(s.threads, Held, c);
      var t :| 0 <= t < |s.threads| && c in Held(s.threads[t]);
      assert IsIn(s, c, Wrapper(t));
    }
  }

  lemma SamePlace<C>(s: System<C>, c: C, p: Place, q: Place)
    requires (InSlots(s.pool) + Gathered(s.threads, Held))[c] == 1 && IsIn(s, c, p) && IsIn(s, c, q)
    ensures p == q
  {
    GatheredCounts(s.pool.slots, AsMultiset, c);
    GatheredCounts(s.threads, Held, c);
    if p.Slot? { assert AsMultiset(s.pool.slots[p.i])[c] == 1; }
    if q.Slot? { assert AsMultiset(s.pool.slots[q.i])[c] == 1; }
  }

  function AboutToAct<C>(th: Thread<C>): nat { if th.Notifying? || th.Woken? then 1 else 0 }

  /** In a critical section that will notify, or that may take a connection. */
  function ActsInside<C>(th: Thread<C>): nat { if th.Done? || th.Checking? || th.Taking? then 1 else 0 }

  function OwnerActs<C>(s: System<C>): nat {
    if s.owner.Some? && s.owner.value < |s.threads| then ActsInside(s.threads[s.owner.value]) else 0
  }

  /**
   * No wakeup is lost: while a thread sleeps, there are no more free connections than threads about
   * to notify, woken threads about to look again, and, if the mutex is taken, its owner.
   */
  lemma NoWakeupIsLost<C>(s: System<C>, all: multiset<C>, steps: seq<Step>)
    requires IsFresh(s, all) && IsRun(s, steps) && !NobodyWaits(AfterRun(s, steps).threads)
    ensures var s' := AfterRun(s, steps);
      |s'.pool.slots| - s'.pool.used <= Sum(s'.threads, AboutToAct) + OwnerActs(s')
  {
    FreshSystemIsSound(s, all);
    RunKeepsInv(s, all, steps);
    ProspectsOfSystem(AfterRun(s, steps));
    NobodyIsAsleep(AfterRun(s, steps).threads);
  }

  lemma ProspectsOfSystem<C>(s: System<C>)
    requires Exclusive(s)
    ensures Sum(s.threads, Prospect) == Sum(s.threads, AboutToAct) + OwnerActs(s)
  {
    SumOfSums(s.threads, Prospect, AboutToAct, ActsInside);
    if s.owner.Some? {
      OnlyTerm(s.threads, ActsInside, s.owner.value);
    } else {
      NoTerm(s.threads, ActsInside);
    }
  }

  lemma {:induction false} SumOfSums<T>(s: seq<T>, f: T -> nat, g: T -> nat, h: T -> nat)
    requires forall i :: 0 <= i < |s| ==> f(s[i]) == g(s[i]) + h(s[i])
    ensures Sum(s, f) == Sum(s, g) + Sum(s, h)
  {
    if s == [] {
    } else {
      SumOfSums(s[..|s| - 1], f, g, h);
    }
  }

  lemma {:induction false} NoTerm<T>(s: seq<T>, f: T -> nat)
    requires forall i :: 0 <= i < |s| ==> f(s[i]) == 0
    ensures Sum(s, f) == 0
  {
    if s == [] {
    } else {
      NoTerm(s[..|s| - 1], f);
    }
  }

  lemma {:induction false} OnlyTerm<T>(s: seq<T>, f: T -> nat, t: nat)
    requires t < |s| && forall i :: 0 <= i < |s| && i != t ==> f(s[i]) == 0
    ensures Sum(s, f) == f(s[t])
  {
    var n := |s| - 1;
    if t == n {
      NoTerm(s[..n], f);
    } else {
      OnlyTerm(s[..n], f, t);
    }
  }

  /** Whoever sleeps in a pool with connections has a free connection or a busy holder to hope for. */
  lemma SleeperHasHope<C>(s: System<C>, all: multiset<C>, steps: seq<Step>)
    requires IsFresh(s, all) && IsRun(s, steps) && |AfterRun(s, steps).pool.slots| > 0
    ensures var s' := AfterRun(s, steps);
      || s'.pool.HasFree()
      || exists t :: 0 <= t < |s'.threads| && HoldsOne(s'.threads[t]) > 0 && !s'.threads[t].Waiting?
  {
    FreshSystemIsSound(s, all);
    RunKeepsInv(s, all, steps);
    SumPositive(AfterRun(s, steps).threads, HoldsOne);
  }

  // ---- everybody who asks is served ----

  /** How much a thread still has to do; a notification pays for waking somebody up. */
  function Work<C>(th: Thread<C>): nat {
    match th
    case Idle => 0
    case Notifying => 3
    case Done => 4
    case Putting(_) => 5
    case Returning(_) => 6
    case Holding(_) => 7
    case Departing(_) => 8
    case Taking => 9
    case Waiting => 9
    case Checking => 10
    case Locking => 11
    case Woken => 11
  }

  /** Steps that neither ask for a new connection nor wake a thread for no reason. */
  predicate IsInternal(step: Step) { !step.Spawn? && !step.Begin? && !step.WakeUp? }

  lemma WorkAfterMove<C>(threads: seq<Thread<C>>, t: nat, now: Thread<C>)
    requires t < |threads|
    ensures Sum(threads[t := now], Work) + Work(threads[t]) == Sum(threads, Work) + Work(now)
  {
    SumUpdate(threads, Work, t, now);
  }

  lemma TakeReducesWork<C>(s: System<C>, t: nat)
    requires t < |s.threads| && s.threads[t].Taking? && s.pool.HasFree()
    ensures Sum(Taken(s, t).threads, Work) < Sum(s.threads, Work)
  {
    WorkAfterMove(s.threads, t, Departing(s.pool.slots[s.pool.used]));
  }

  lemma PutReducesWork<C>(s: System<C>, t: nat)
    requires t < |s.threads| && s.threads[t].Putting? && 0 < s.pool.used <= |s.pool.slots|
    ensures Sum(PutBack(s, t, s.threads[t].back).threads, Work) < Sum(s.threads, Work)
  {
    WorkAfterMove(s.threads, t, Done);
  }

  lemma NotifyReducesWork<C>(s: System<C>, t: nat, woken: nat)
    requires t < |s.threads| && woken < |s.threads| && s.threads[t].Notifying? && s.threads[woken].Waiting?
    ensures Sum(Notified(s, t, woken).threads, Work) < Sum(s.threads, Work)
  {
    WorkAfterMove(s.threads, t, Idle);
    WorkAfterMove(s.threads[t := Idle], woken, Woken);
  }

  lemma InternalStepReducesWork<C>(s: System<C>, all: multiset<C>, step: Step)
    requires Inv(s, all) && Enabled(s, step) && IsInternal(step)
    ensures Sum(Next(s, step).threads, Work) < Sum(s.threads, Work)
  {
    if step.Take? {
      TakeReducesWork(s, step.t);
    } else if step.Put? {
      ReturnFindsRoom(s, all, step.t);
      PutReducesWork(s, step.t);
    } else if step.Notify? && step.woken.Some? {
      NotifyReducesWork(s, step.t, step.woken.value);
    } else {
      PlainStepReducesWork(s, step);
    }
  }

  lemma PlainStepReducesWork<C>(s: System<C>, step: Step)
    requires IsPlain(step) && Enabled(s, step) && IsInternal(step)
    ensures Sum(Next(s, step).threads, Work) < Sum(s.threads, Work)
  {
    PlainStep(s, step);
    PlainStepIsLessWork(s, step);
    WorkAfterMove(s.threads, step.t, PlainTarget(s, step).0);
  }

  lemma PlainStepIsLessWork<C>(s: System<C>, step: Step)
    requires IsPlain(step) && Enabled(s, step) && IsInternal(step)
    ensures Work(PlainTarget(s, step).0) < Work(s.threads[step.t])
  {
  }

  ghost predicate CanMoveOn<C>(s: System<C>) {
    exists step :: IsInternal(step) && Enabled(s, step)
  }

  /** In a pool with connections, as long as any thread is not idle, some thread can move on. */
  lemma SomebodyCanMoveOn<C>(s: System<C>, all: multiset<C>, t: nat)
    requires Inv(s, all) && |s.pool.slots| > 0 && t < |s.threads| && !s.threads[t].Idle?
    ensures CanMoveOn(s)
  {
    if s.owner.Some? {
      OwnerCanMoveOn(s, s.owner.value);
    } else if s.threads[t].Waiting? {
      ProspectOrHolder(s, all);
      var u :| 0 <= u < |s.threads| && (Prospect(s.threads[u]) > 0 || HoldsOne(s.threads[u]) > 0);
      FreeThreadCanMoveOn(s, u);
    } else {
      FreeThreadCanMoveOn(s, t);
    }
  }

  lemma OwnerCanMoveOn<C>(s: System<C>, t: nat)
    requires t < |s.threads| && InCritical(s.threads[t])
    ensures CanMoveOn(s)
  {
    match s.threads[t]
    case Checking => assert Enabled(s, Check(t)) && IsInternal(Check(t));
    case Taking => assert Enabled(s, Take(t)) && IsInternal(Take(t));
    case Departing(_) => assert Enabled(s, Unlock(t)) && IsInternal(Unlock(t));
    case Putting(_) => assert Enabled(s, Put(t)) && IsInternal(Put(t));
    case Done => assert Enabled(s, Unlock(t)) && IsInternal(Unlock(t));
  }

  lemma FreeThreadCanMoveOn<C>(s: System<C>, t: nat)
    requires Exclusive(s) && s.owner.None? && t < |s.threads| && !s.threads[t].Idle? && !s.threads[t].Waiting?
    ensures CanMoveOn(s)
  {
    if s.threads[t].Holding? {
      assert Enabled(s, Drop(t)) && IsInternal(Drop(t));
    } else if s.threads[t].Notifying? {
      if NobodyWaits(s.threads) {
        assert Enabled(s, Notify(t, None)) && IsInternal(Notify(t, None));
      } else {
        var w: nat :| w < |s.threads| && s.threads[w].Waiting?;
        assert Enabled(s, Notify(t, Some(w))) && IsInternal(Notify(t, Some(w)));
      }
    } else {
      assert Enabled(s, Acquire(t)) && IsInternal(Acquire(t));
    }
  }

  /** This is where the absence of lost wakeups is needed. */
  lemma ProspectOrHolder<C>(s: System<C>, all: multiset<C>)
    requires Inv(s, all) && |s.pool.slots| > 0 && !NobodyWaits(s.threads)
    ensures exists u :: 0 <= u < |s.threads| && (Prospect(s.threads[u]) > 0 || HoldsOne(s.threads[u]) > 0)
  {
    NobodyIsAsleep(s.threads);
    SumPositive(s.threads, Prospect);
    SumPositive(s.threads, HoldsOne);
  }

  /**
   * From a reachable state, without new requests and spurious wakeups, the threads take at most
   * `Sum(threads, Work)` steps.
   */
  lemma {:induction false} RunsEnd<C>(s: System<C>, all: multiset<C>, steps: seq<Step>)
    requires Inv(s, all) && IsRun(s, steps) && forall i :: 0 <= i < |steps| ==> IsInternal(steps[i])
    ensures |steps| + Sum(AfterRun(s, steps).threads, Work) <= Sum(s.threads, Work)
    decreases |steps|
  {
    if steps == [] {
    } else {
      var n := |steps| - 1;
      RunsEnd(s, all, steps[..n]);
      RunKeepsInv(s, all, steps[..n]);
      InternalStepReducesWork(AfterRun(s, steps[..n]), all, steps[n]);
    }
  }

  lemma SlotsStay<C>(s: System<C>, step: Step)
    requires Enabled(s, step)
    ensures |Next(s, step).pool.slots| == |s.pool.slots|
  {
  }

  lemma {:induction false} RunKeepsSlots<C>(s: System<C>, steps: seq<Step>)
    requires IsRun(s, steps)
    ensures |AfterRun(s, steps).pool.slots| == |s.pool.slots|
    decreases |steps|
  {
    if steps == [] {
    } else {
      RunKeepsSlots(s, steps[..|steps| - 1]);
      SlotsStay(AfterRun(s, steps[..|steps| - 1]), steps[|steps| - 1]);
    }
  }

  ghost predicate AllIdle<C>(threads: seq<Thread<C>>) {
    forall t :: 0 <= t < |threads| ==> threads[t].Idle?
  }

  /**
   * Everybody is served: in a pool with connections a run can only come to a standstill when every
   * thread has got its connection, used it, given it back and gone idle.
   */
  lemma StandstillMeansServed<C>(s: System<C>, all: multiset<C>, steps: seq<Step>)
    requires IsFresh(s, all) && IsRun(s, steps) && |s.pool.slots| > 0
    ensures !CanMoveOn(AfterRun(s, steps)) <==> AllIdle(AfterRun(s, steps).threads)
  {
    FreshSystemIsSound(s, all);
    RunKeepsInv(s, all, steps);
    RunKeepsSlots(s, steps);
    StandstillIsIdle(AfterRun(s, steps), all);
  }

  lemma StandstillIsIdle<C>(s: System<C>, all: multiset<C>)
    requires Inv(s, all) && |s.pool.slots| > 0
    ensures !CanMoveOn(s) <==> AllIdle(s.threads)
  {
    if !AllIdle(s.threads) {
      var t :| 0 <= t < |s.threads| && !s.threads[t].Idle?;
      SomebodyCanMoveOn(s, all, t);
    }
  }

  lemma FirstSteps<C>(s: System<C>)
    requires IsFresh(s, multiset{})
    ensures IsRun(s, [Spawn, Begin(0)]) && AfterRun(s, [Spawn, Begin(0)]) == s.(threads := [Locking])
  {
    assert [] + [Spawn] == [Spawn] && [Spawn] + [Begin(0)] == [Spawn, Begin(0)];
    OneStep(s, [], s, Spawn, s.(threads := [Idle]));
    OneStep(s, [Spawn], s.(threads := [Idle]), Begin(0), s.(threads := [Locking]));
  }

  lemma FourSteps<C>(s: System<C>)
    requires IsFresh(s, multiset{}) && s.pool.slots == []
    ensures IsRun(s, [Spawn, Begin(0), Acquire(0), Check(0)])
    ensures AfterRun(s, [Spawn, Begin(0), Acquire(0), Check(0)]) == s.(threads := [Waiting])
  {
    var (r2, r3) := ([Spawn, Begin(0)], [Spawn, Begin(0), Acquire(0)]);
    assert r2 + [Acquire(0)] == r3 && r3 + [Check(0)] == [Spawn, Begin(0), Acquire(0), Check(0)];
    FirstSteps(s);
    var inside := s.(threads := [Checking], owner := Some(0));
    OneStep(s, r2, s.(threads := [Locking]), Acquire(0), inside);
    OneStep(s, r3, inside, Check(0), s.(threads := [Waiting]));
  }

  /** In a pool without connections the first thread to ask for one sleeps for ever. */
  lemma EmptyPoolStarves<C>(s: System<C>) returns (steps: seq<Step>)
    requires IsFresh(s, multiset{}) && s.pool.slots == []
    ensures IsRun(s, steps) && AfterRun(s, steps).threads == [Waiting] && !CanMoveOn(AfterRun(s, steps))
  {
    steps := [Spawn, Begin(0), Acquire(0), Check(0)];
    FourSteps(s);
    LoneSleeperIsStuck(s.(threads := [Waiting]));
  }

  lemma LoneSleeperIsStuck<C>(s: System<C>)
    requires s.threads == [Waiting]
    ensures !CanMoveOn(s)
  {
    assert s.threads[0].Waiting?;
  }

  lemma OneStep<C>(s: System<C>, steps: seq<Step>, now: System<C>, step: Step, next: System<C>)
    requires IsRun(s, steps) && AfterRun(s, steps) == now && Enabled(now, step) && Next(now, step) == next
    ensures IsRun(s, steps + [step]) && AfterRun(s, steps + [step]) == next
  {
    assert (steps + [step])[..|steps|] == steps;
  }
}
