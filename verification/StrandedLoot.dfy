/**
 * Loot that nobody can pick up: on every run it stays on the ground for as long as its id is not
 * below the largest number of dogs its session has had.
 */
module StrandedLoot {
  import opened Entities
  import opened GameStates
  import opened Geometry
  import opened Peaks
  import opened Replay
  import opened Runs

  /** The loot lies in session `m`, and its id is not below the session's peak. */
  predicate IsStranded(g: GameState, m: string, l: Loot) {
    m in g.sessions && l in g.sessions[m].loot && l.id >= PeakOf(g, m)
  }

  // ---- one request ----

  lemma SessionTickKeepsStranded(g: GameState, mapId: string, dt: real, c: Choice, m: string, l: Loot)
    requires WithinPeaks(g) && IsStranded(g, m, l) && mapId in g.sessions
    requires IsChoice(g.sessions[mapId], g.counters.loot, dt, c)
    ensures InRange(c.events, |c.moved|)
    ensures IsStranded(AfterTick(g, mapId, c), m, l) && WithinPeaks(AfterTick(g, mapId, c))
  {
    TickKeepsPeaks(g, mapId, dt, c);
    if m == mapId {
      HighLootIsStranded(g, m, dt, c, l);
    }
  }

  lemma {:induction false} PrefixKeepsStranded(
    g: GameState, dt: int, order: seq<string>, choices: seq<Choice>, m: string, l: Loot)
    requires WithinPeaks(g) && AreChoices(g, dt, order, choices) && IsStranded(g, m, l)
    ensures WithinPeaks(Ticked(g, order, choices)) && IsStranded(Ticked(g, order, choices), m, l)
    decreases |order|
  {
    if order == [] {
    } else {
      var n := |order| - 1;
      LastTicked(g, dt, order, choices);
      PrefixKeepsStranded(g, dt, order[..n], choices[..n], m, l);
      SessionTickKeepsStranded(
        Ticked(g, order[..n], choices[..n]), order[n], dt as real / MS_IN_SECONDS, choices[n], m, l);
    }
  }

  lemma RestartKeepsStranded(g: GameState, uuids: nat -> string, joinTimes: nat -> int, m: string, l: Loot)
    requires IsStranded(g, m, l)
    ensures IsStranded(Restarted(g, uuids, joinTimes), m, l)
  {
  }

  lemma JoinKeepsLoot(g: GameState, name: string, mapId: string, spawn: Point, token: string, uuid: string, m: string)
    requires m in g.sessions && mapId in g.maps
    ensures var g' := Joined(g, name, mapId, spawn, token, uuid);
      m in g'.sessions && g'.sessions[m].loot == g.sessions[m].loot
  {
  }

  /** A request that does not raise the peak above the loot's id leaves the loot where it is. */
  lemma RequestKeepsStranded(g: GameState, r: Request, m: string, l: Loot)
    requires WithinPeaks(g) && Possible(g, r) && IsStranded(g, m, l)
    ensures m in Served(g, r).sessions && l in Served(g, r).sessions[m].loot
  {
    match r
    case Join(name, mapId, spawn, token, uuid) => JoinKeepsLoot(g, name, mapId, spawn, token, uuid, m);
    case Act(player, mapId, dog, move) =>
    case Tick(dt, order, choices) => PrefixKeepsStranded(Advanced(g, dt), dt, order, choices, m, l);
    case Restart(uuids, joinTimes) => RestartKeepsStranded(g, uuids, joinTimes, m, l);
  }

  // ---- whole runs ----

  lemma RunFront(g: GameState, requests: seq<Request>)
    requires requests != [] && IsRun(g, requests)
    ensures var (before, r) := (AfterRun(g, requests[..|requests| - 1]), requests[|requests| - 1]);
      && IsRun(g, requests[..|requests| - 1])
      && Possible(before, r) && AfterRun(g, requests) == Served(before, r)
  {
  }

  /**
   * However a run goes on, loot whose id is not below the peak that its session has at the end is
   * still on the ground at the end.
   */
  lemma {:induction false} RunKeepsStranded(
    g: GameState, requests: seq<Request>, more: seq<Request>, m: string, l: Loot)
    requires IsInitial(g) && IsRun(g, requests + more)
    requires IsStranded(AfterRun(g, requests), m, l) && PeakOf(AfterRun(g, requests + more), m) <= l.id
    ensures IsStranded(AfterRun(g, requests + more), m, l)
    decreases |more|
  {
    if more == [] {
      assert requests + more == requests;
    } else {
      var (all, n) := (requests + more, |more| - 1);
      assert all[..|all| - 1] == requests + more[..n];
      RunFront(g, all);
      RunKeepsInv(g, requests + more[..n]);
      PeaksNeverFall(AfterRun(g, requests + more[..n]), all[|all| - 1], m);
      RunKeepsStranded(g, requests, more[..n], m, l);
      RequestKeepsStranded(AfterRun(g, requests + more[..n]), all[|all| - 1], m, l);
    }
  }

  lemma PeaksNeverFall(g: GameState, r: Request, m: string)
    requires Possible(g, r)
    ensures PeakOf(Served(g, r), m) >= PeakOf(g, m)
  {
    match r
    case Join(name, mapId, spawn, token, uuid) =>
    case Act(player, mapId, dog, move) =>
    case Tick(dt, order, choices) => TickKeepsPeakOf(Advanced(g, dt), order, choices);
    case Restart(uuids, joinTimes) =>
  }

  lemma {:induction false} TickKeepsPeakOf(g: GameState, order: seq<string>, choices: seq<Choice>)
    requires |choices| == |order|
    ensures Ticked(g, order, choices).history.peaks == g.history.peaks
    decreases |order|
  {
    if order == [] {
    } else {
      TickKeepsPeakOf(g, order[..|order| - 1], choices[..|order| - 1]);
    }
  }
}
