/** The times that a match publishes, told from what its players and physics did: server/game/game.cpp with
    server/game/race.cpp. */
module MatchTimes {
  import opened Wrappers
  import opened Players
  import opened Races
  import opened RaceTimes
  import opened Matches
  import opened MatchTheorems
  import opened MatchLedger

  // ------------------------------------------------------------------ steps and events

  lemma {:induction false} ElapsedSum(x: seq<RaceStep>, y: seq<RaceStep>)
    ensures Elapsed(x + y) == Elapsed(x) + Elapsed(y)
    decreases |y|
  {
    if y == [] {
      assert x + y == x;
    } else {
      ElapsedSum(x, y[..|y| - 1]);
      assert (x + y)[..|x + y| - 1] == x + y[..|y| - 1];
    }
  }

  lemma {:induction false} NoTimePasses(steps: seq<RaceStep>)
    requires forall i | 0 <= i < |steps| :: !steps[i].Advance?
    ensures Elapsed(steps) == 0
    decreases |steps|
  {
    if steps != [] {
      NoTimePasses(steps[..|steps| - 1]);
    }
  }

  lemma {:induction false} CheatsAreCheats(acts: seq<Action>)
    ensures forall i | 0 <= i < |CheatSteps(acts)| ::
              CheatSteps(acts)[i].CheatWin? && Action.Cheat(CheatSteps(acts)[i].player, CHEAT_WIN_RACE) in acts
    decreases |acts|
  {
    if acts != [] {
      var n := |acts| - 1;
      CheatsAreCheats(acts[..n]);
      assert acts == acts[..n] + [acts[n]];
    }
  }

  /** A tick's steps: cheats, one report of health, crossings, and at the end one tick of time. */
  lemma StepsOfTick(e: Event)
    requires e.Tick?
    ensures var steps := EventSteps(e); var n := |steps| - 1;
            && n >= 0 && steps[n] == Advance(1)
            && (forall i | 0 <= i < n :: !steps[i].Advance? && !steps[i].Leave?)
            && (forall i | 0 <= i < n && steps[i].CheatWin? :: Action.Cheat(steps[i].player, CHEAT_WIN_RACE) in e.actions)
            && (forall i | 0 <= i < n && steps[i].Crossing? ::
                  CheckpointEvent(steps[i].routeId, steps[i].player, steps[i].checkpoint) in e.physics.crossings)
  {
    CheatsAreCheats(e.actions);
    var steps, cheats, crossings := EventSteps(e), CheatSteps(e.actions), e.physics.crossings;
    forall i | 0 <= i < |steps| - 1 && steps[i].Crossing?
      ensures CheckpointEvent(steps[i].routeId, steps[i].player, steps[i].checkpoint) in crossings
    {
      assert steps[i] == Crossings(crossings)[i - |cheats| - 1];
      assert crossings[i - |cheats| - 1] in crossings;
    }
  }

  lemma TimeOfEvent(e: Event, j: nat)
    requires j <= |EventSteps(e)|
    ensures Elapsed(EventSteps(e)[..j]) == if e.Tick? && j == |EventSteps(e)| then 1 else 0
  {
    var steps := EventSteps(e);
    if e.Tick? {
      StepsOfTick(e);
    }
    if e.Tick? && j == |steps| {
      NoTimePasses(steps[..j - 1]);
      assert steps[..j][..j - 1] == steps[..j - 1];
    } else {
      NoTimePasses(steps[..j]);
    }
  }

  lemma {:induction false} TimeIsTicks(es: seq<Event>)
    ensures Elapsed(StepsOf(es)) == Ticks(es)
    decreases |es|
  {
    if es != [] {
      var e := es[|es| - 1];
      TimeIsTicks(Before(es));
      TimeOfEvent(e, |EventSteps(e)|);
      assert EventSteps(e)[..|EventSteps(e)|] == EventSteps(e);
      ElapsedSum(StepsOf(Before(es)), EventSteps(e));
    }
  }

  /** Step `n` of a run of events is step `j` of event `k`. */
  ghost predicate IsStepOf(es: seq<Event>, n: nat, k: nat, j: nat) {
    k < |es| && IsStepAfter(StepsOf(es), n, StepsOf(es[..k]), EventSteps(es[k]), j)
  }

  /** Step `n` is step `j` of those that come after `before`. */
  ghost predicate IsStepAfter(steps: seq<RaceStep>, n: nat, before: seq<RaceStep>, own: seq<RaceStep>, j: nat) {
    n < |steps| && j < |own| && steps[n] == own[j] && steps[..n] == before + own[..j] && steps[..n + 1] == before + own[..j + 1]
  }

  lemma StepOfTheFirst(first: seq<RaceStep>, rest: seq<RaceStep>, n: nat, before: seq<RaceStep>, own: seq<RaceStep>, j: nat)
    requires IsStepAfter(first, n, before, own, j)
    ensures IsStepAfter(first + rest, n, before, own, j)
  {
    assert (first + rest)[..n] == first[..n] && (first + rest)[..n + 1] == first[..n + 1];
  }

  lemma StepOfTheLast(before: seq<RaceStep>, own: seq<RaceStep>, j: nat)
    requires j < |own|
    ensures IsStepAfter(before + own, |before| + j, before, own, j)
  {
    assert (before + own)[..|before| + j] == before + own[..j];
    assert (before + own)[..|before| + j + 1] == before + own[..j + 1];
  }

  lemma {:induction false} Locate(es: seq<Event>, n: nat) returns (k: nat, j: nat)
    requires n < |StepsOf(es)|
    ensures IsStepOf(es, n, k, j)
    decreases |es|
  {
    var first, last := StepsOf(Before(es)), EventSteps(es[|es| - 1]);
    if n < |first| {
      k, j := Locate(Before(es), n);
      StepOfTheFirst(first, last, n, StepsOf(Before(es)[..k]), EventSteps(Before(es)[k]), j);
      assert Before(es)[..k] == es[..k];
    } else {
      k, j := |es| - 1, n - |first|;
      StepOfTheLast(first, last, j);
    }
  }

  lemma TimeAt(es: seq<Event>, n: nat, k: nat, j: nat)
    requires IsStepOf(es, n, k, j)
    ensures Elapsed(StepsOf(es)[..n]) == Ticks(es[..k])
    ensures Elapsed(StepsOf(es)[..n + 1]) == Ticks(es[..k]) + if StepsOf(es)[n].Advance? then 1 else 0
    ensures StepsOf(es)[n].Advance? ==> es[k].Tick? && j + 1 == |EventSteps(es[k])|
  {
    TimeIsTicks(es[..k]);
    ElapsedSum(StepsOf(es[..k]), EventSteps(es[k])[..j]);
    ElapsedSum(StepsOf(es[..k]), EventSteps(es[k])[..j + 1]);
    TimeOfEvent(es[k], j);
    TimeOfEvent(es[k], j + 1);
    if es[k].Tick? {
      StepsOfTick(es[k]);
    }
  }

  // ------------------------------------------------------------------ health

  /** What physics has last reported of the health of `p`'s car, if anything. */
  function LastReport(es: seq<Event>, p: PlayerId): Option<real> {
    if es == [] then None
    else
      var e := es[|es| - 1];
      if e.Tick? && p in e.physics.health then Some(e.physics.health[p]) else LastReport(es[..|es| - 1], p)
  }

  lemma {:induction false} HealthOfSum(x: seq<RaceStep>, y: seq<RaceStep>, p: PlayerId)
    ensures LastHealth(x + y, p) == if LastHealth(y, p).Some? then LastHealth(y, p) else LastHealth(x, p)
    decreases |y|
  {
    if y == [] {
      assert x + y == x;
    } else {
      HealthOfSum(x, y[..|y| - 1], p);
      assert (x + y)[..|x + y| - 1] == x + y[..|y| - 1];
    }
  }

  lemma {:induction false} NoReport(steps: seq<RaceStep>, p: PlayerId)
    requires forall i | 0 <= i < |steps| :: !steps[i].Physics?
    ensures LastHealth(steps, p) == None
    decreases |steps|
  {
    if steps != [] {
      NoReport(steps[..|steps| - 1], p);
    }
  }

  lemma HealthOfTick(e: Event, p: PlayerId)
    requires e.Tick?
    ensures LastHealth(EventSteps(e), p) == if p in e.physics.health then Some(e.physics.health[p]) else None
  {
    var report, rest := [RaceStep.Physics(e.physics.health)], Crossings(e.physics.crossings) + [Advance(1)];
    CheatsAreCheats(e.actions);
    NoReport(CheatSteps(e.actions), p);
    NoReport(rest, p);
    assert report[..0] == [];
    HealthOfSum(report, rest, p);
    HealthOfSum(CheatSteps(e.actions), report + rest, p);
    assert TickSteps(e.physics) == report + rest;
  }

  lemma {:induction false} HealthIsLastReport(es: seq<Event>, p: PlayerId)
    ensures LastHealth(StepsOf(es), p) == LastReport(es, p)
    decreases |es|
  {
    if es != [] {
      var e := es[|es| - 1];
      HealthIsLastReport(Before(es), p);
      HealthOfSum(StepsOf(Before(es)), EventSteps(e), p);
      if e.Tick? {
        HealthOfTick(e, p);
      } else {
        NoReport(EventSteps(e), p);
      }
    }
  }

  // ------------------------------------------------------------------ the results

  /** Event `e` has physics take `p` over the last checkpoint of the route, or is asked to do as much by the cheat. */
  ghost predicate Delivers(e: Event, track: Track, p: PlayerId) {
    e.Tick? &&
    ((exists cp: nat :: cp + 1 == track.checkpointCount && CheckpointEvent(track.routeId, p, cp) in e.physics.crossings)
     || Action.Cheat(p, CHEAT_WIN_RACE) in e.actions)
  }

  /** After the events `p`'s car is out of health, or the race has taken its ten minutes. */
  ghost predicate OutOfTheRace(m: Match, es: seq<Event>, p: PlayerId)
    requires p in m.players
  {
    var last := LastReport(es, p);
    (if last.Some? then last.value else m.players[p].current.life) <= 0.0 || Ticks(es) >= 36000
  }

  /** Event `k` of the race stops `p` with that time. */
  ghost predicate IsTimeOf(m: Match, es: seq<Event>, k: nat, p: PlayerId, time: nat)
    requires p in m.players && m.index < |m.tracks|
  {
    && k < |es| && es[k].Tick?
    && ((time == Ticks(es[..k]) && Delivers(es[k], m.tracks[m.index], p))
        || (time == Ticks(es[..k + 1]) && OutOfTheRace(m, es[..k + 1], p)))
  }

  lemma WinIsDelivered(m: Match, es: seq<Event>, n: nat, k: nat, j: nat, p: PlayerId)
    requires m.index < |m.tracks| && m.race.track == m.tracks[m.index] && IsStepOf(es, n, k, j)
    requires IsActive(RaceAfter(m.race, StepsOf(es)[..n]), p) && Wins(m.race, StepsOf(es), n, p)
    ensures Delivers(es[k], m.tracks[m.index], p)
  {
    StepIsDelivered(es[k], j, m.tracks[m.index], p);
  }

  lemma StepIsDelivered(e: Event, j: nat, track: Track, p: PlayerId)
    requires j < |EventSteps(e)|
    requires var step := EventSteps(e)[j];
             || (step.Crossing? && step.player == p && step.routeId == track.routeId && step.checkpoint + 1 == track.checkpointCount)
             || (step.CheatWin? && step.player == p)
    ensures Delivers(e, track, p)
  {
    var step := EventSteps(e)[j];
    if e.Tick? {
      StepsOfTick(e);
      if step.Crossing? {
        assert CheckpointEvent(step.routeId, step.player, step.checkpoint) in e.physics.crossings;
      }
    }
  }

  lemma LetTimePass(steps: seq<RaceStep>, p: PlayerId)
    requires steps != [] && steps[|steps| - 1].Advance?
    ensures LastHealth(steps, p) == LastHealth(steps[..|steps| - 1], p)
  {
  }

  lemma StepsOfOneMore(es: seq<Event>, k: nat)
    requires k < |es|
    ensures StepsOf(es[..k + 1]) == StepsOf(es[..k]) + EventSteps(es[k])
  {
    assert Before(es[..k + 1]) == es[..k];
  }

  /** Up to the time that a tick lets pass, the steps are those of whole events. */
  lemma StepsToTheEnd(es: seq<Event>, n: nat, k: nat, j: nat)
    requires IsStepOf(es, n, k, j) && StepsOf(es)[n].Advance?
    ensures es[k].Tick? && StepsOf(es)[..n + 1] == StepsOf(es[..k + 1])
  {
    TimeAt(es, n, k, j);
    StepsOfOneMore(es, k);
    assert EventSteps(es[k])[..j + 1] == EventSteps(es[k]);
  }

  lemma OutIsReported(m: Match, es: seq<Event>, n: nat, k: nat, j: nat, p: PlayerId)
    requires p in m.players && m.race.duration == 0 && p in m.race.cars && m.race.cars[p] == m.players[p].current.life
    requires IsStepOf(es, n, k, j) && IsOut(m.race, StepsOf(es), n, p)
    ensures OutOfTheRace(m, es[..k + 1], p) && es[k].Tick?
  {
    var steps := StepsOf(es);
    StepsToTheEnd(es, n, k, j);
    TimeIsTicks(es[..k + 1]);
    HealthIsLastReport(es[..k + 1], p);
    LetTimePass(steps[..n + 1], p);
    assert steps[..n + 1][..n] == steps[..n];
  }

  lemma NewcomerStarts(m: Match, p: PlayerId)
    requires m.index < |m.tracks| && m.race == StartRace(m.tracks[m.index], m.players) && p in m.players
    ensures Consistent(m.race) && p in m.race.parts && m.race.parts[p] == NEWCOMER && m.race.duration == 0
    ensures p in m.race.cars && m.race.cars[p] == m.players[p].current.life && m.race.track == m.tracks[m.index]
  {
  }

  lemma TimeOfSteps(m: Match, es: seq<Event>, p: PlayerId) returns (k: nat)
    requires m.index < |m.tracks| && m.race == StartRace(m.tracks[m.index], m.players) && p in m.players
    requires var race := RaceAfter(m.race, StepsOf(es));
             p in race.parts && (race.parts[p].state.Finished? || race.parts[p].state.Disqualified?)
    ensures p in RaceAfter(m.race, StepsOf(es)).parts
    ensures IsTimeOf(m, es, k, p, RaceAfter(m.race, StepsOf(es)).parts[p].finishTime)
  {
    NewcomerStarts(m, p);
    var n := TimesAreTrue(m.race, StepsOf(es), p);
    var j;
    k, j := Locate(es, n);
    TimeAt(es, n, k, j);
    if RaceAfter(m.race, StepsOf(es)).parts[p].state.Finished? {
      WinIsDelivered(m, es, n, k, j, p);
    } else {
      StepsToTheEnd(es, n, k, j);
      TimeIsTicks(es[..k + 1]);
      OutIsReported(m, es, n, k, j, p);
    }
  }

  lemma {:induction false} WhoStaysHasNotLeft(m: Match, es: seq<Event>, p: PlayerId)
    requires WellFormed(m) && Run(m, es) && p in After(m, es).players
    ensures RaceStep.Leave(p) !in StepsOf(es)
    decreases |es|
  {
    if es != [] {
      var before, e := After(m, Before(es)), es[|es| - 1];
      RunKeepsWellFormed(m, Before(es));
      NextKeepsRoster(before, e);
      WhoStaysHasNotLeft(m, Before(es), p);
      NobodyLeavesOnTheWay(e, p, before);
    }
  }

  lemma NobodyLeavesOnTheWay(e: Event, p: PlayerId, m: Match)
    requires e.Tick? || p in Next(m, e).players
    ensures RaceStep.Leave(p) !in EventSteps(e)
  {
    if e.Tick? {
      StepsOfTick(e);
    }
  }

  /** A match at the start of a race, run until a tick that ends it. */
  ghost predicate EndsThisRace(m: Match, es: seq<Event>, e: Event) {
    && WellFormed(m) && m.phase.Racing? && m.race == StartRace(m.tracks[m.index], m.players) && Run(m, es)
    && After(m, es).phase.Racing? && After(m, es).index == m.index
    && Legal(After(m, es), e) && e.Tick? && EndsRace(ActAll(After(m, es), e.actions), e.physics)
  }

  lemma RaceAtTheEnd(m: Match, es: seq<Event>, e: Event)
    requires EndsThisRace(m, es, e)
    ensures RaceAfter(ActAll(After(m, es), e.actions).race, TickSteps(e.physics)) == RaceAfter(m.race, StepsOf(es + [e]))
  {
    RaceFollowsItsEvents(m, es);
    TickIsRaceSteps(After(m, es), e);
    RaceAfterSum(m.race, StepsOf(es), EventSteps(e));
    assert Before(es + [e]) == es;
  }

  lemma NobodyIsLeftRacing(m: Match, physics: PhysicsReport)
    requires WellFormed(m) && EndsRace(m, physics)
    ensures NoneActive(RaceAfter(m.race, TickSteps(physics)))
    ensures RaceAfter(m.race, TickSteps(physics)).parts.Keys == m.race.parts.Keys
  {
    TickOfRace(m.race, physics);
  }

  lemma NotLeft(m: Match, es: seq<Event>, e: Event, p: PlayerId)
    requires WellFormed(m) && Run(m, es) && e.Tick? && p in After(m, es).players
    ensures RaceStep.Leave(p) !in StepsOf(es + [e])
  {
    WhoStaysHasNotLeft(m, es, p);
    NobodyLeavesOnTheWay(e, p, After(m, es));
    assert Before(es + [e]) == es;
  }

  lemma EndIsInOrder(m: Match, es: seq<Event>, e: Event)
    requires EndsThisRace(m, es, e)
    ensures WellFormed(ActAll(After(m, es), e.actions))
    ensures ActAll(After(m, es), e.actions).players == After(m, es).players
  {
    RunKeepsWellFormed(m, es);
    ActAllKeepsWellFormed(After(m, es), e.actions);
  }

  lemma PlayersAtTheEnd(m: Match, es: seq<Event>, e: Event, p: PlayerId)
    requires EndsThisRace(m, es, e) && p in After(m, es).players
    ensures p in m.players && p in RaceAfter(m.race, StepsOf(es + [e])).parts
    ensures var a := RaceAfter(m.race, StepsOf(es + [e])).parts[p]; a.state.Finished? || a.state.Disqualified?
  {
    RunKeepsRoster(m, es);
    EndIsInOrder(m, es, e);
    NobodyIsLeftRacing(ActAll(After(m, es), e.actions), e.physics);
    RaceAtTheEnd(m, es, e);
    NewcomerStarts(m, p);
    NotLeft(m, es, e, p);
    DisconnectedExactly(m.race, StepsOf(es + [e]), p);
  }

  /** The times that are published at the end of a race are true: each is the number of ticks from the start of the
      race to the tick in which physics took the player over the last checkpoint of the route, or to the tick, that one
      included, after which its car was out of health or the ten minutes were up. */
  lemma PublishedTimesAreTrue(m: Match, es: seq<Event>, e: Event, i: nat) returns (k: nat)
    requires EndsThisRace(m, es, e) && i < |e.current|
    ensures e.current[i].player in m.players
    ensures IsTimeOf(m, es + [e], k, e.current[i].player, e.current[i].base)
  {
    var p := e.current[i].player;
    EndIsInOrder(m, es, e);
    RaceAtTheEnd(m, es, e);
    PlayersAtTheEnd(m, es, e, p);
    k := TimeOfSteps(m, es + [e], p);
  }

  // ------------------------------------------------------------------ the clocks

  lemma RaceClock(m: Match, es: seq<Event>)
    requires WellFormed(m) && m.phase.Racing? && Run(m, es) && After(m, es).phase.Racing? && After(m, es).index == m.index
    ensures After(m, es).race.duration == m.race.duration + Ticks(es)
  {
    RaceFollowsItsEvents(m, es);
    DurationIsClock(m.race, StepsOf(es));
    TimeIsTicks(es);
  }

  lemma {:induction false} MarketClock(m: Match, es: seq<Event>)
    requires WellFormed(m) && m.phase.Marketplace? && Run(m, es)
    requires After(m, es).phase.Marketplace? && After(m, es).index == m.index
    ensures After(m, es).timeRemaining == m.timeRemaining - Ticks(es)
    decreases |es|
  {
    if es != [] {
      var before, e := After(m, Before(es)), es[|es| - 1];
      StagesGrow(m, Before(es));
      RunKeepsWellFormed(m, Before(es));
      StageOnlyGrows(before, e);
      RunKeepsRoster(m, Before(es));
      MarketClock(m, Before(es));
      if e.Tick? {
        TickMoves(before, e);
      }
    }
  }

  lemma LastIsHeartbeat(m: Match, e: Event)
    requires e.Tick? && |Heartbeat(Next(m, e), e.iteration)| == 1
    ensures Sent(m, e) != [] && Sent(m, e)[|Sent(m, e)| - 1] == Heartbeat(Next(m, e), e.iteration)[0]
  {
  }

  /** The clocks that the clients see are right: on every second tick of a race that of the race, in whole seconds left
      of the ten minutes, rounded down, and of a market that of the market, in seconds left of the thirty, rounded up. */
  lemma ClocksAreRight(m: Match, es: seq<Event>, e: Event)
    requires WellFormed(m) && Run(m, es + [e]) && e.Tick? && e.iteration % 2 == 0 && After(m, es + [e]).index == m.index
    ensures m.phase.Racing? && m.race.duration == 0 && After(m, es + [e]).phase.Racing? ==>
              var sent := Sent(After(m, es), e);
              && sent != [] && sent[|sent| - 1].MapInfo?
              && var s := sent[|sent| - 1].seconds; 60 * s <= 36000 - Ticks(es + [e]) < 60 * (s + 1)
    ensures m.phase.Marketplace? && m.timeRemaining == 1800 && After(m, es + [e]).phase.Marketplace? ==>
              var sent := Sent(After(m, es), e);
              && sent != [] && sent[|sent| - 1].MarketTime?
              && var s := sent[|sent| - 1].seconds; 60 * (s - 1) < 1800 - Ticks(es + [e]) <= 60 * s
  {
    var m' := After(m, es + [e]);
    assert Before(es + [e]) == es && m' == Next(After(m, es), e);
    RunKeepsWellFormed(m, es + [e]);
    if m.phase.Racing? && m'.phase.Racing? {
      RaceClock(m, es + [e]);
      LastIsHeartbeat(After(m, es), e);
    }
    if m.phase.Marketplace? && m'.phase.Marketplace? {
      MarketClock(m, es + [e]);
      LastIsHeartbeat(After(m, es), e);
    }
  }
}
