/** What becomes of a game that is started again on the same room: server/game/game.cpp keeps the index of the race,
    the accounts and the cars of the game before. */
module SecondGames {
  import opened Players
  import opened Garages
  import opened Rankings
  import opened Races
  import opened Markets
  import opened Matches
  import opened MatchTheorems
  import opened MatchLedger
  import opened RoomLives

  // ------------------------------------------------------------------ which races are run

  /** A match that is run to its end, which every run of enough ticks reaches by `EveryMatchEnds`. */
  ghost predicate PlayedOut(m: Match, es: seq<Event>) {
    WellFormed(m) && m.phase.Racing? && Run(m, es) && After(m, es).phase.GameOver?
  }

  /** A second start does not go back to the first route.  A match that was played out on n routes goes on at
      route n of the new map, and if the map has fewer, the match stays in the lobby. */
  lemma SecondGameResumes(m: Match, es: seq<Event>, tracks: seq<Track>)
    requires PlayedOut(m, es)
    ensures var m' := StartRoomGame(After(m, es), tracks);
            && m'.index == |m.tracks| - 1 && m'.tracks == tracks && m'.players == After(m, es).players
            && WellFormed(m') && m'.infos == map[]
            && if |m.tracks| <= |tracks|
               then m'.phase.Racing? && m'.race == StartRace(tracks[|m.tracks| - 1], m'.players) && m'.race.duration == 0
               else m'.phase.Lobby?
  {
    RunKeepsWellFormed(m, es);
    RunKeepsRoster(m, es);
    StartKeepsWellFormed(After(m, es), tracks);
  }

  /** No tick ever takes a match out of the lobby, and nothing is heard of it there but that requests for
      improvements are turned away. */
  lemma {:induction false} LobbyForEver(m: Match, es: seq<Event>)
    requires m.phase.Lobby? && Run(m, es)
    ensures After(m, es).phase.Lobby? && After(m, es).index == m.index && Kinds(Trace(m, es)) == []
    decreases |es|
  {
    if es != [] {
      var before, e := After(m, Before(es)), es[|es| - 1];
      LobbyForEver(m, Before(es));
      KindsOfSum(Trace(m, Before(es)), Sent(before, e));
      LobbyIsSilent(before, e);
    }
  }

  lemma LobbyIsSilent(m: Match, e: Event)
    requires m.phase.Lobby?
    ensures Next(m, e).phase.Lobby? && Next(m, e).index == m.index && Kinds(Sent(m, e)) == []
  {
    if e.Tick? {
      LobbyWaits(m, e);
      LobbyIgnoresActions(m, e.actions);
      AcksHaveNoKind(m, e.actions);
      assert Sent(m, e) == AckAll(m, e.actions);
    }
  }

  lemma RoundsOfNone()
    ensures Rounds([], []) == []
  {
  }

  /** A second game on the map of the first one has one race, the last, and no market: it never leaves that route,
      it is over after ten minutes, and all that is broadcast, but for the answers to requests, is how that race
      goes, its results and the final table. */
  lemma SecondGameHasOneRace(m: Match, es: seq<Event>, tracks: seq<Track>, es': seq<Event>) returns (maps: nat)
    requires PlayedOut(m, es) && |tracks| == |m.tracks| && Run(StartRoomGame(After(m, es), tracks), es')
    ensures var m' := StartRoomGame(After(m, es), tracks);
            && After(m', es').index == |tracks| - 1
            && (After(m', es').phase.Racing? || After(m', es').phase.GameOver?)
            && (Ticks(es') >= 36000 ==> After(m', es').phase.GameOver?)
            && Kinds(Trace(m', es')) == Repeat(KMapInfo, maps)
                 + if After(m', es').phase.GameOver? then [KResults, KResultsTotal] else []
  {
    var m' := StartRoomGame(After(m, es), tracks);
    SecondGameResumes(m, es, tracks);
    if Ticks(es') >= 36000 {
      EveryMatchEnds(m', es');
    }
    RunKeepsWellFormed(m', es');
    RunKeepsRoster(m', es');
    var all, times := BroadcastsSpellTheMatch(m', es');
    RoundsOfNone();
    maps := all[0];
    assert times == [] && all[..0] == [];
    assert [] + Repeat(KMapInfo, maps) == Repeat(KMapInfo, maps) == Repeat(KMapInfo, maps) + [];
  }

  // ------------------------------------------------------------------ what the players bring along

  /** After the end players can only leave. */
  lemma {:induction false} TheEndIsFinal(m: Match, es: seq<Event>)
    requires m.phase.GameOver? && Run(m, es)
    ensures var m' := After(m, es);
            && m'.phase.GameOver? && m'.infos == m.infos && m'.index == m.index && m'.tracks == m.tracks
            && forall p | p in m'.players :: p in m.players && m'.players[p] == m.players[p]
    decreases |es|
  {
    if es != [] {
      TheEndIsFinal(m, Before(es));
      if es[|es| - 1].Tick? {
        NothingIsDoneAfterTheEnd(After(m, Before(es)), es[|es| - 1].actions);
      }
    }
  }

  lemma {:induction false} NothingIsDoneAfterTheEnd(m: Match, acts: seq<Action>)
    requires m.phase.GameOver?
    ensures ActAll(m, acts) == m
    decreases |acts|
  {
    if acts != [] {
      NothingIsDoneAfterTheEnd(m, acts[..|acts| - 1]);
    }
  }

  /** The end of the last race leaves everybody in the car of that race. */
  lemma EndLeavesCars(m: Match, e: Event, p: PlayerId)
    requires WellFormed(m) && Driving(m) && m.phase.Racing? && Next(m, e).phase.GameOver? && p in Next(m, e).players
    ensures p in m.players && Next(m, e).players[p].base == m.players[p].base
    ensures Next(m, e).players[p].current == Upgraded(m.players[p].base, Owned(m.infos, p))
  {
    NextKeepsRoster(m, e);
    PurchasesNeedAMarket(m, e.actions);
    ActAllKeepsWellFormed(m, e.actions);
    assert DrivesOwned(m, p);
  }

  ghost predicate EndsWith(m: Match, es: seq<Event>, e: Event, after: seq<Event>) {
    && Run(m, es) && After(m, es).phase.Racing? && Legal(After(m, es), e)
    && Next(After(m, es), e).phase.GameOver? && Run(Next(After(m, es), e), after)
  }

  /** The first car of a second game is not the player's own: it still has the upgrades of the last race of the
      game before, though they are paid for and the accounts are closed; and so exactly for those who bought
      something in the last market. */
  lemma SecondGameKeepsUpgrades(m: Match, es: seq<Event>, e: Event, after: seq<Event>, tracks: seq<Track>, p: PlayerId)
    requires WellFormed(m) && Driving(m) && EndsWith(m, es, e, after)
    requires p in After(Next(After(m, es), e), after).players
    ensures var m' := StartRoomGame(After(Next(After(m, es), e), after), tracks);
            && p in After(m, es).players && p in m'.players && m'.players[p].base == After(m, es).players[p].base
            && m'.players[p].current == Upgraded(m'.players[p].base, Owned(After(m, es).infos, p))
            && Owned(m'.infos, p) == []
            && (DrivesOwned(m', p) <==> Owned(After(m, es).infos, p) == [])
            && (m'.phase.Racing? ==> p in m'.race.cars && m'.race.cars[p] == m'.players[p].current.life)
  {
    RunKeepsWellFormed(m, es);
    RunKeepsDriving(m, es);
    NextKeepsWellFormed(After(m, es), e);
    TheEndIsFinal(Next(After(m, es), e), after);
    EndLeavesCars(After(m, es), e, p);
    UpgradedByNothing(After(m, es).players[p].base);
  }

  /** A start before the end leaves everybody in the car that it should be driving, but for one case: what has been
      bought in the market that the start cuts short is owed and not fitted. */
  lemma StartFitsNoPurchase(m: Match, tracks: seq<Track>, p: PlayerId)
    requires WellFormed(m) && Driving(m) && !m.phase.GameOver? && p in m.players
    ensures var m' := StartRoomGame(m, tracks);
            && p in m'.players && Spent(m'.infos, p) == Spent(m.infos, p)
            && (DrivesOwned(m', p) <==> !(m.phase.Marketplace? && Owned(m.infos, p) != []))
  {
    assert DrivesOwned(m, p);
    UpgradedByNothing(m.players[p].base);
  }

  // ------------------------------------------------------------------ a purchase that is never fitted

  const NO_PHYSICS := PhysicsReport(map[], [], map[])

  /** One player with the first car of the garage, on a map with two routes of one checkpoint. */
  function Alone(): map<PlayerId, Player> { Enter(map[], 0, 0) }

  const TWO_ROUTES := [Track("a", 1), Track("b", 1)]

  ghost function FirstGame(): Match { StartRoomGame(Match(Alone(), [], 0, NO_RACE, GameState.Lobby, map[], 0), TWO_ROUTES) }

  /** It wins the first race by the cheat and buys more health in the market. */
  const WINS := Tick(1, [Action.Cheat(0, CHEAT_WIN_RACE)], NO_PHYSICS, [CurrentResult(0, 0, 0, 0, 1)], [])
  const BUYS := Tick(1, [Improve(0, Health)], NO_PHYSICS, [], [])

  /** The first of two races with player 0 alone in it, at the start. */
  ghost predicate AloneAtTheStart(m: Match) {
    && WellFormed(m) && m.phase.Racing? && m.index == 0 && |m.tracks| == 2 && m.infos == map[]
    && m.players.Keys == {0} && m.players[0].TotalTime() == 0
    && m.race.parts == map[0 := NEWCOMER] && 0 in m.race.cars && m.race.duration == 0 && m.race.track.checkpointCount > 0
  }

  lemma FirstGameBegins()
    ensures AloneAtTheStart(FirstGame()) && FirstGame().tracks == TWO_ROUTES
  {
    EveryCarIsOnOffer(0);
    StartedMatchIsWellFormed(Match(Alone(), [], 0, NO_RACE, GameState.Lobby, map[], 0), TWO_ROUTES);
    assert map[] + Newcomers(Alone()) == map[0 := NEWCOMER];
  }

  lemma CheatFinishes(m: Match)
    requires AloneAtTheStart(m)
    ensures var race := RaceAfter(ActAll(m, WINS.actions).race, TickSteps(NO_PHYSICS));
            && ActAll(m, WINS.actions) == m.(race := WinByCheat(m.race, 0))
            && race.finished && race.parts.Keys == {0} && race.parts[0].finishTime == 0
  {
    var m1 := Act(m, WINS.actions[0]);
    assert WINS.actions[..0] == [];
    assert ActAll(m, WINS.actions) == m1;
    TickOfRace(m1.race, NO_PHYSICS);
    StoppedForGood(m1.race, TickSteps(NO_PHYSICS), 0);
  }

  lemma WinningEndsTheRace(m: Match)
    requires AloneAtTheStart(m)
    ensures Legal(m, WINS)
    ensures var m' := Next(m, WINS);
            && m'.phase.Marketplace? && m'.timeRemaining == MARKET_DURATION && m'.tracks == m.tracks && m'.index == 0
            && m'.players.Keys == {0} && m'.infos == map[] && InBaseCars(m'.players)
  {
    CheatFinishes(m);
    OnlyEntry(Raced(ActAll(m, WINS.actions), NO_PHYSICS));
  }

  lemma OnlyEntry(m: Match)
    requires m.players.Keys == {0} && m.players[0].TotalTime() == 0 && m.infos == map[]
    requires m.race.parts.Keys == {0} && m.race.parts[0].finishTime == 0
    ensures IsCurrent(WINS.current, Registered(m.players, m.race, m.infos), m.race, m.infos)
  {
    assert |m.race.parts| == |m.race.parts.Keys| == 1;
    assert WINS.current[0].player == 0;
  }

  /** And that is how a purchase gets lost: when the creator starts again in the market, the player drives its own
      car, and the penalty for what it bought is still on its account. */
  lemma PurchaseIsLost() returns (es: seq<Event>)
    ensures WellFormed(FirstGame()) && Run(FirstGame(), es)
    ensures var m := StartRoomGame(After(FirstGame(), es), TWO_ROUTES);
            && 0 in m.players && m.phase.Racing? && m.players[0].current == m.players[0].base
            && Owned(m.infos, 0) == [Health] && Spent(m.infos, 0) == 40
  {
    FirstGameBegins();
    WinningEndsTheRace(FirstGame());
    es := [WINS, BUYS];
    assert es[..1] == [WINS] && [WINS][..0] == [];
    assert After(FirstGame(), [WINS]) == Next(FirstGame(), WINS);
    BuyingCharges(Next(FirstGame(), WINS));
    assert After(FirstGame(), es) == Next(Next(FirstGame(), WINS), BUYS);
  }

  lemma BuyingCharges(m: Match)
    requires m.phase.Marketplace? && m.timeRemaining == MARKET_DURATION && 0 in m.players && m.infos == map[]
    ensures Legal(m, BUYS)
    ensures var m' := Next(m, BUYS);
            && m'.phase.Marketplace? && m'.players == m.players && m'.index == m.index
            && Owned(m'.infos, 0) == [Health] && Spent(m'.infos, 0) == 40
  {
    assert BUYS.actions[..0] == [];
    assert ActAll(m, BUYS.actions) == Act(m, BUYS.actions[0]);
  }
}
