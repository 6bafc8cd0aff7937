/**
 * A run of two threads that share one connection. The second one sleeps, wakes up for nothing, is
 * notified, is overtaken by the first, which comes back at that moment, and is served in the end.
 */
module PoolRuns {
  import opened Options
  import opened PoolProtocol
  import opened Pools

  ghost predicate Reaches<C>(start: System<C>, now: System<C>) {
    exists steps :: IsRun(start, steps) && AfterRun(start, steps) == now
  }

  lemma ReachesItself<C>(start: System<C>)
    ensures Reaches(start, start)
  {
    assert IsRun(start, []) && AfterRun(start, []) == start;
  }

  lemma GoesOn<C>(start: System<C>, now: System<C>, step: Step, next: System<C>)
    requires Reaches(start, now) && Enabled(now, step) && next == Next(now, step)
    ensures Reaches(start, next)
  {
    var steps :| IsRun(start, steps) && AfterRun(start, steps) == now;
    assert (steps + [step])[..|steps|] == steps;
    assert IsRun(start, steps + [step]) && AfterRun(start, steps + [step]) == next;
  }

  /** Two threads, and the connection in the pool. */
  function Full<C>(first: Thread<C>, second: Thread<C>, owner: Option<nat>, c: C): System<C> {
    System([first, second], owner, Pool([Some(c)], 0), false)
  }

  /** Two threads, and the connection lent out. */
  function Empty<C>(first: Thread<C>, second: Thread<C>, owner: Option<nat>): System<C> {
    System([first, second], owner, Pool([None], 1), false)
  }

  function Fresh<C>(c: C): System<C> { System([], None, Pool([Some(c)], 0), false) }

  lemma TwoThreads<C>(c: C)
    ensures IsFresh(Fresh(c), multiset{c}) && Reaches(Fresh(c), Full(Idle, Idle, None, c))
  {
    var s := Fresh(c);
    assert InSlots(s.pool) == Gathered([Some(c)][..0], AsMultiset) + AsMultiset(Some(c)) == multiset{c};
    ReachesItself(s);
    GoesOn(s, s, Spawn, s.(threads := [Idle]));
    GoesOn(s, s.(threads := [Idle]), Spawn, Full(Idle, Idle, None, c));
  }

  lemma FirstFinds<C>(s: System<C>, second: Thread<C>, c: C)
    requires Reaches(s, Full(Idle, second, None, c))
    ensures Reaches(s, Full(Taking, second, Some(0), c))
  {
    GoesOn(s, Full(Idle, second, None, c), Begin(0), Full(Locking, second, None, c));
    GoesOn(s, Full(Locking, second, None, c), Acquire(0), Full(Checking, second, Some(0), c));
    GoesOn(s, Full(Checking, second, Some(0), c), Check(0), Full(Taking, second, Some(0), c));
  }

  /** The first thread takes the connection, whether the second is idle or just awake. */
  lemma FirstTakes<C>(s: System<C>, second: Thread<C>, c: C)
    requires Reaches(s, Full(Idle, second, None, c))
    ensures Reaches(s, Empty(Holding(Some(c)), second, None))
  {
    FirstFinds(s, second, c);
    GoesOn(s, Full(Taking, second, Some(0), c), Take(0), Empty(Departing(Some(c)), second, Some(0)));
    GoesOn(s, Empty(Departing(Some(c)), second, Some(0)), Unlock(0), Empty(Holding(Some(c)), second, None));
  }

  /** The second thread looks at the pool in vain and goes to sleep. */
  lemma SecondSleeps<C>(s: System<C>, first: Thread<C>, second: Thread<C>)
    requires second.Locking? || second.Woken?
    requires Reaches(s, Empty(first, second, None))
    ensures Reaches(s, Empty(first, Waiting, None))
  {
    GoesOn(s, Empty(first, second, None), Acquire(1), Empty(first, Checking, Some(1)));
    GoesOn(s, Empty(first, Checking, Some(1)), Check(1), Empty(first, Waiting, None));
  }

  lemma FirstPutsBack<C>(s: System<C>, c: C)
    requires Reaches(s, Empty(Holding(Some(c)), Waiting, None))
    ensures Reaches(s, Full(Done, Waiting, Some(0), c))
  {
    GoesOn(s, Empty(Holding(Some(c)), Waiting, None), Drop(0), Empty(Returning(c), Waiting, None));
    GoesOn(s, Empty(Returning(c), Waiting, None), Acquire(0), Empty(Putting(c), Waiting, Some(0)));
    GoesOn(s, Empty(Putting(c), Waiting, Some(0)), Put(0), Full(Done, Waiting, Some(0), c));
  }

  /** The first thread gives the connection back and wakes the second. */
  lemma FirstReturns<C>(s: System<C>, c: C)
    requires Reaches(s, Empty(Holding(Some(c)), Waiting, None))
    ensures Reaches(s, Full(Idle, Woken, None, c))
  {
    FirstPutsBack(s, c);
    GoesOn(s, Full(Done, Waiting, Some(0), c), Unlock(0), Full(Notifying, Waiting, None, c));
    GoesOn(s, Full(Notifying, Waiting, None, c), Notify(0, Some(1)), Full(Idle, Woken, None, c));
  }

  lemma SecondTakes<C>(s: System<C>, c: C)
    requires Reaches(s, Full(Idle, Woken, None, c))
    ensures Reaches(s, Empty(Idle, Holding(Some(c)), None))
  {
    GoesOn(s, Full(Idle, Woken, None, c), Acquire(1), Full(Idle, Checking, Some(1), c));
    GoesOn(s, Full(Idle, Checking, Some(1), c), Check(1), Full(Idle, Taking, Some(1), c));
    GoesOn(s, Full(Idle, Taking, Some(1), c), Take(1), Empty(Idle, Departing(Some(c)), Some(1)));
    GoesOn(s, Empty(Idle, Departing(Some(c)), Some(1)), Unlock(1), Empty(Idle, Holding(Some(c)), None));
  }

  /** A sleeping thread may wake up without a notification, and goes back to sleep. */
  lemma SpuriousWakeup<C>(s: System<C>, c: C)
    requires Reaches(s, Empty(Holding(Some(c)), Waiting, None))
    ensures Reaches(s, Empty(Holding(Some(c)), Woken, None))
  {
    GoesOn(s, Empty(Holding(Some(c)), Waiting, None), WakeUp(1), Empty(Holding(Some(c)), Woken, None));
  }

  /**
   * One run of the protocol, station by station: the second thread sleeps; wakes up while the first
   * still holds the connection; is notified with the connection back in the pool; finds it
   * gone and sleeps again. Notified again, it may also be the first to look, and is served.
   */
  lemma OvertakenAndServed<C>(c: C)
    ensures var (asleep, woken) := (Empty(Holding(Some(c)), Waiting, None), Empty(Holding(Some(c)), Woken, None));
      var notified := Full(Idle, Woken, None, c);
      && IsFresh(Fresh(c), multiset{c}) && Reaches(Fresh(c), asleep) && Reaches(asleep, woken)
      && Reaches(woken, notified) && Reaches(notified, asleep)
      && Reaches(notified, Empty(Idle, Holding(Some(c)), None))
  {
    var (asleep, woken) := (Empty(Holding(Some(c)), Waiting, None), Empty(Holding(Some(c)), Woken, None));
    var notified := Full(Idle, Woken, None, c);
    FirstSleep(c);
    ReachesItself(asleep);
    SpuriousWakeup(asleep, c);
    ReachesItself(woken);
    SecondSleeps(woken, Holding(Some(c)), Woken);
    FirstReturns(woken, c);
    ReachesItself(notified);
    FirstTakes(notified, Woken, c);
    SecondSleeps(notified, Holding(Some(c)), Woken);
    SecondTakes(notified, c);
  }

  lemma FirstSleep<C>(c: C)
    ensures IsFresh(Fresh(c), multiset{c}) && Reaches(Fresh(c), Empty(Holding(Some(c)), Waiting, None))
  {
    var s := Fresh(c);
    TwoThreads(c);
    FirstTakes(s, Idle, c);
    GoesOn(s, Empty(Holding(Some(c)), Idle, None), Begin(1), Empty(Holding(Some(c)), Locking, None));
    SecondSleeps(s, Holding(Some(c)), Locking);
  }
}
