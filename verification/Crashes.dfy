/**
 * Runs in which the server is also killed. The game is saved every now and then, and a server that
 * was killed starts again from the last save, while the table of retired players keeps the rows
 * written since. All invariants survive; the ledger then counts the worth of those rows twice.
 */
module Crashes {
  import opened Bookkeeping
  import opened Clocks
  import opened GameStates
  import opened LootPlaces
  import opened Peaks
  import opened Registry
  import opened Runs
  import opened Terrain

  /** The running game, and the state in the save file; without a file, the state at the start. */
  datatype Server = Server(now: GameState, saved: GameState)

  /** A server may be killed in the middle of a tick, after `rows` more records have been written. */
  datatype Step =
    | Serve(request: Request)
    | Save
    | Crash(rows: seq<Record>, uuids: nat -> string, joinTimes: nat -> int)

  /** The worth of the records that `now` has beyond those of `saved`. */
  function WorthSince(saved: GameState, now: GameState): nat {
    if |saved.records| <= |now.records| then RecordedWorth(now.records[|saved.records|..]) else 0
  }

  /** What loading the save file makes of the game; the duplicated worth is booked as generated. */
  ghost function Reloaded(saved: GameState, now: GameState, uuids: nat -> string, joinTimes: nat -> int): GameState {
    var g := Restarted(saved, uuids, joinTimes);
    g.(records := now.records, history := g.history.(generated := g.history.generated + WorthSince(saved, now)))
  }

  /** After an orderly shutdown the file holds the game as it was, and loading it is the restart. */
  lemma OrderlyReload(g: GameState, uuids: nat -> string, joinTimes: nat -> int)
    ensures Reloaded(g, g, uuids, joinTimes) == Restarted(g, uuids, joinTimes)
  {
    assert g.records[|g.records|..] == [];
  }

  lemma ReloadedParts(saved: GameState, now: GameState, uuids: nat -> string, joinTimes: nat -> int)
    ensures var (g, g') := (Restarted(saved, uuids, joinTimes), Reloaded(saved, now, uuids, joinTimes));
      && g'.maps == saved.maps && g'.retirementTime == saved.retirementTime && g'.clock == 0
      && g'.sessions == g.sessions && g'.players == g.players && g'.counters == g.counters
      && g'.records == now.records
  {
  }

  ghost predicate CanStep(s: Server, step: Step) {
    step.Serve? ==> Possible(s.now, step.request)
  }

  ghost function After(s: Server, step: Step): Server
    requires CanStep(s, step)
  {
    match step
    case Serve(r) => s.(now := Served(s.now, r))
    case Save => s.(saved := s.now)
    case Crash(rows, uuids, joinTimes) =>
      s.(now := Reloaded(s.saved, s.now.(records := s.now.records + rows), uuids, joinTimes))
  }

  ghost predicate ServerInv(s: Server) {
    Inv(s.now) && Inv(s.saved) && s.saved.records <= s.now.records
  }

  // ---- records are only ever appended ----

  lemma {:induction false} TickAppendsRecords(g: GameState, order: seq<string>, choices: seq<Choice>)
    requires |choices| == |order|
    ensures g.records <= Ticked(g, order, choices).records
    decreases |order|
  {
    if order == [] {
    } else {
      TickAppendsRecords(g, order[..|order| - 1], choices[..|order| - 1]);
    }
  }

  lemma RequestAppendsRecords(g: GameState, r: Request)
    requires Possible(g, r)
    ensures g.records <= Served(g, r).records
  {
    match r
    case Join(name, mapId, spawn, token, uuid) =>
    case Act(player, mapId, dog, move) =>
    case Tick(dt, order, choices) => TickAppendsRecords(Advanced(g, dt), order, choices);
    case Restart(uuids, joinTimes) =>
  }

  // ---- crashes ----

  /** The ledger of the reloaded game is that of the saved one and the worth of the records since. */
  lemma CrashOvercounts(saved: GameState, now: GameState, uuids: nat -> string, joinTimes: nat -> int)
    requires saved.records <= now.records
    ensures Ledger(Reloaded(saved, now, uuids, joinTimes)) == Ledger(saved) + WorthSince(saved, now)
  {
    var n := |saved.records|;
    assert now.records == saved.records + now.records[n..];
    RecordedWorthOfConcatenation(saved.records, now.records[n..]);
    RestartKeepsLedger(saved, uuids, joinTimes);
  }

  lemma CrashKeepsBalance(saved: GameState, now: GameState, uuids: nat -> string, joinTimes: nat -> int)
    requires Balanced(saved) && saved.records <= now.records
    ensures Balanced(Reloaded(saved, now, uuids, joinTimes))
  {
    CrashOvercounts(saved, now, uuids, joinTimes);
  }

  /** The two states differ in records and in the value generated only. */
  ghost predicate SameButRecords(g: GameState, g': GameState) {
    g' == g.(records := g'.records, history := g.history.(generated := g'.history.generated))
  }

  lemma SoundnessIgnoresRecords(g: GameState, g': GameState)
    requires SameButRecords(g, g') && GoodTerrain(g) && WithinPeaks(g) && GoodLoot(g)
    ensures GoodTerrain(g') && WithinPeaks(g') && GoodLoot(g')
  {
    SameLootKeepsPlaces(g, g');
  }

  lemma IdentitiesIgnoreRecords(g: GameState, g': GameState)
    requires SameButRecords(g, g') && GoodIds(g) && GoodLinks(g)
    ensures GoodIds(g') && GoodLinks(g')
  {
    SameIdentitiesKeepLinks(g, g');
  }

  /** Records and the value generated matter to nothing but the ledger. */
  lemma OthersIgnoreRecords(g: GameState, g': GameState)
    requires Inv(g) && Balanced(g') && SameButRecords(g, g')
    ensures Inv(g')
  {
    SoundnessIgnoresRecords(g, g');
    IdentitiesIgnoreRecords(g, g');
    ClockIgnoresRecords(g, g');
  }

  lemma ClockIgnoresRecords(g: GameState, g': GameState)
    requires GoodClock(g) && SameButRecords(g, g')
    ensures GoodClock(g')
  {
    forall m | m in g'.sessions
      ensures AllOnTime(g'.sessions[m], g'.history, g'.clock) && NoneOverdue(g'.sessions[m], g'.retirementTime)
    {
      forall d | d in g'.sessions[m].dogs ensures OnTime(d, g'.history, g'.clock) {
        assert OnTime(d, g.history, g.clock);
      }
    }
  }

  lemma CrashKeepsInv(saved: GameState, now: GameState, uuids: nat -> string, joinTimes: nat -> int)
    requires Inv(saved) && saved.records <= now.records
    ensures Inv(Reloaded(saved, now, uuids, joinTimes))
  {
    RequestKeepsInv(saved, Restart(uuids, joinTimes));
    CrashKeepsBalance(saved, now, uuids, joinTimes);
    OthersIgnoreRecords(Restarted(saved, uuids, joinTimes), Reloaded(saved, now, uuids, joinTimes));
  }

  lemma StepKeepsServerInv(s: Server, step: Step)
    requires ServerInv(s) && CanStep(s, step)
    ensures ServerInv(After(s, step))
  {
    match step
    case Serve(r) =>
      RequestKeepsInv(s.now, r);
      RequestAppendsRecords(s.now, r);
    case Save =>
    case Crash(rows, uuids, joinTimes) =>
      CrashKeepsInv(s.saved, s.now.(records := s.now.records + rows), uuids, joinTimes);
  }

  // ---- runs ----

  ghost predicate IsCrashRun(s: Server, steps: seq<Step>)
    decreases |steps|
  {
    steps != [] ==>
      var n := |steps| - 1;
      IsCrashRun(s, steps[..n]) && CanStep(AfterSteps(s, steps[..n]), steps[n])
  }

  ghost function AfterSteps(s: Server, steps: seq<Step>): Server
    decreases |steps|
  {
    if steps == [] then s
    else
      var n := |steps| - 1;
      var before := AfterSteps(s, steps[..n]);
      if CanStep(before, steps[n]) then After(before, steps[n]) else before
  }

  /**
   * Whatever is served, saved and killed in whatever order, the combined invariant holds of the
   * running game, and of the game that the save file would bring back.
   */
  lemma {:induction false} CrashRunKeepsInv(g: GameState, steps: seq<Step>)
    requires IsInitial(g) && IsCrashRun(Server(g, g), steps)
    ensures ServerInv(AfterSteps(Server(g, g), steps))
    decreases |steps|
  {
    if steps == [] {
      InvAtStart(g);
    } else {
      var n := |steps| - 1;
      CrashRunKeepsInv(g, steps[..n]);
      StepKeepsServerInv(AfterSteps(Server(g, g), steps[..n]), steps[n]);
    }
  }
}
