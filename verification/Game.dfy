/** The objects that run a match: server/game/result.cpp, game.cpp and gameloop.cpp.  Every method is
    proved against the state machine of module Matches. */
module Games {
  import opened Wrappers
  import opened MapConfigs
  import opened PhysicsWorlds
  import opened Grids
  import opened Players
  import opened Rankings
  import opened Races
  import opened Markets
  import opened Matches
  import opened Cities
  import opened Arenas

  // ------------------------------------------------------------------ results

  /** The entries of the first `k` places of a race result, without the players who left. */
  ghost predicate PackedUpTo(packed: seq<CurrentResult>, k: nat, result: seq<ResultEntry>, players: map<PlayerId, Player>) {
    && k <= |result|
    && (forall i | 0 <= i < |packed| ::
          1 <= packed[i].position <= k && result[packed[i].position - 1].player == packed[i].player)
    && (forall i, j | 0 <= i < j < |packed| :: packed[i].position < packed[j].position)
    && (forall k' | 0 <= k' < k && result[k'].player in players :: Holds(packed, result[k'].player))
  }

  ghost predicate Holds(packed: seq<CurrentResult>, p: PlayerId) {
    exists i :: 0 <= i < |packed| && packed[i].player == p
  }

  lemma PackedAllIsCurrent(packed: seq<CurrentResult>, result: seq<ResultEntry>,
                           players: map<PlayerId, Player>, race: RaceState, infos: Infos)
    requires IsRaceResult(result, race.parts) && PackedUpTo(packed, |result|, result, players)
    requires forall i | 0 <= i < |packed| :: GoodEntry(packed[i], players, race, infos)
    ensures IsCurrent(packed, players, race, infos)
  {
    forall i, j | 0 <= i < j < |packed|
      ensures packed[i].player != packed[j].player && packed[i].base <= packed[j].base
    {
      var a, b := packed[i].position - 1, packed[j].position - 1;
      assert result[a].player == packed[i].player && result[b].player == packed[j].player && a < b;
      assert result[a].finishTime == packed[i].base && result[b].finishTime == packed[j].base;
    }
    forall p | p in players && p in race.parts
      ensures Holds(packed, p)
    {
      var k :| 0 <= k < |result| && result[k].player == p;
    }
  }

  lemma PackedSkips(packed: seq<CurrentResult>, k: nat, result: seq<ResultEntry>, players: map<PlayerId, Player>)
    requires k < |result| && PackedUpTo(packed, k, result, players) && result[k].player !in players
    ensures PackedUpTo(packed, k + 1, result, players)
  {
  }

  lemma PackedAdds(packed: seq<CurrentResult>, e: CurrentResult, k: nat, result: seq<ResultEntry>,
                   players: map<PlayerId, Player>)
    requires k < |result| && PackedUpTo(packed, k, result, players)
    requires e.player == result[k].player && e.position == k + 1
    ensures PackedUpTo(packed + [e], k + 1, result, players)
  {
    var packed' := packed + [e];
    forall k' | 0 <= k' < k + 1 && result[k'].player in players
      ensures Holds(packed', result[k'].player)
    {
      if k' < k {
        var i :| 0 <= i < |packed| && packed[i].player == result[k'].player;
        assert packed'[i].player == result[k'].player;
      } else {
        assert packed'[|packed|].player == result[k'].player;
      }
    }
  }

  /** The tracks of the races, in order. */
  function RaceTracks(races: seq<Race>): (tracks: seq<Track>)
    ensures |tracks| == |races| && forall i | 0 <= i < |races| :: tracks[i] == races[i].track
  {
    seq(|races|, i requires 0 <= i < |races| => races[i].track)
  }

  class Result {
    var lastResultsCurrent: seq<CurrentResult>
    var pendingResults: bool
    var lastResultsTotal: seq<TotalResult>
    var pendingTotalResults: bool

    constructor ()
      ensures !pendingResults && !pendingTotalResults
    {
      lastResultsCurrent, pendingResults, lastResultsTotal, pendingTotalResults := [], false, [], false;
    }

    method BuildPlayerResultCurrent(players: map<PlayerId, Player>, result: seq<ResultEntry>, penalties: map<PlayerId, nat>,
                                    ghost race: RaceState, ghost infos: Infos) returns (packed: seq<CurrentResult>)
      requires IsRaceResult(result, race.parts)
      requires forall p :: (if p in penalties then penalties[p] else 0) == Spent(infos, p)
      ensures IsCurrent(packed, players, race, infos)
    {
      packed := [];
      for k := 0 to |result|
        invariant PackedUpTo(packed, k, result, players)
        invariant forall i | 0 <= i < |packed| :: GoodEntry(packed[i], players, race, infos)
      {
        var entry := result[k];
        if entry.player !in players {
          PackedSkips(packed, k, result, players);
          continue;
        }
        var penalty := if entry.player in penalties then penalties[entry.player] else 0;
        var e := CurrentResult(entry.player, entry.finishTime, penalty, players[entry.player].TotalTime(), entry.position);
        PackedAdds(packed, e, k, result, players);
        packed := packed + [e];
      }
      PackedAllIsCurrent(packed, result, players, race, infos);
    }

    method BuildTotalResults(players: map<PlayerId, Player>) returns (totals: seq<TotalResult>)
      ensures IsTotals(totals, players)
    {
      var times := map p | p in players :: players[p].TotalTime();
      var order := SortByTime(times);
      assert times.Keys == players.Keys;
      assert |times.Keys| == |players.Keys|;
      totals := [];
      for i := 0 to |order|
        invariant |totals| == i
        invariant forall k | 0 <= k < i :: totals[k] == TotalResult(order[k].player, order[k].time, k + 1)
      {
        totals := totals + [TotalResult(order[i].player, order[i].time, i + 1)];
      }
    }

    method SetPendingResults(current: seq<CurrentResult>)
      modifies this
      ensures pendingResults && lastResultsCurrent == current
      ensures pendingTotalResults == old(pendingTotalResults) && lastResultsTotal == old(lastResultsTotal)
    {
      lastResultsCurrent, pendingResults := current, true;
    }

    method SetPendingTotalResults(total: seq<TotalResult>)
      modifies this
      ensures pendingTotalResults && lastResultsTotal == total
      ensures pendingResults == old(pendingResults) && lastResultsCurrent == old(lastResultsCurrent)
    {
      lastResultsTotal, pendingTotalResults := total, true;
    }

    method ConsumePendingResults() returns (any: bool, current: seq<CurrentResult>)
      modifies this
      ensures any == old(pendingResults) && !pendingResults && (any ==> current == old(lastResultsCurrent))
      ensures pendingTotalResults == old(pendingTotalResults) && lastResultsTotal == old(lastResultsTotal)
    {
      any, current := pendingResults, lastResultsCurrent;
      pendingResults := false;
    }

    method ConsumePendingTotalResults() returns (any: bool, total: seq<TotalResult>)
      modifies this
      ensures any == old(pendingTotalResults) && !pendingTotalResults && (any ==> total == old(lastResultsTotal))
      ensures pendingResults == old(pendingResults) && lastResultsCurrent == old(lastResultsCurrent)
    {
      any, total := pendingTotalResults, lastResultsTotal;
      pendingTotalResults := false;
    }
  }

  // ------------------------------------------------------------------ the game

  /** The loop of start_current_race: in the order of their ids the players take the spawn points in turn. */
  method AddEverybody(r: Race, players: map<PlayerId, Player>, city: City)
    requires CanStart(city.View(), r.track.routeId, players)
    modifies r, r.physics
    ensures r.View() == Joined(old(r.View()), players)
    ensures r.physics.View() ==
              PlaceAll(old(r.physics.View()), PlayerSpots(Roster(players.Keys), city.View().Line(r.track.routeId)))
  {
    ghost var ids := Roster(players.Keys);
    ghost var spots := PlayerSpots(ids, city.View().Line(r.track.routeId));
    var todo := players.Keys;
    var spawnIndex := 0;
    while todo != {}
      invariant todo <= players.Keys && spawnIndex <= |ids| && ids[spawnIndex..] == Roster(todo)
      invariant |spots| == |ids| && city.View() == old(city.View())
      invariant r.View() == Joined(old(r.View()), players - todo)
      invariant r.physics.View() == PlaceAll(old(r.physics.View()), spots[..spawnIndex])
    {
      var p := FirstOf(todo);
      NextSpot(old(r.physics.View()), ids, city.View().Line(r.track.routeId), todo, spawnIndex, p);
      JoinOneMore(old(r.View()), players, todo, p);
      var at := city.GetSpawnForIndex(spawnIndex, r.track.routeId);
      r.AddPlayer(p, players[p].current.life, at.value.x, at.value.y);
      spawnIndex, todo := spawnIndex + 1, todo - {p};
    }
    JoinedEverybody(old(r.View()), players, todo);
    PlacedEverybody(old(r.physics.View()), ids, spots, spawnIndex);
  }

  lemma PlacedEverybody(w: World, ids: seq<PlayerId>, spots: seq<Placement>, k: nat)
    requires |spots| == |ids| && k <= |ids| && ids[k..] == Roster({})
    ensures PlaceAll(w, spots[..k]) == PlaceAll(w, spots)
  {
    assert |ids[k..]| == 0;
    assert spots[..k] == spots;
  }

  lemma JoinedEverybody(r: RaceState, players: map<PlayerId, Player>, todo: set<PlayerId>)
    requires todo == {}
    ensures Joined(r, players - todo) == Joined(r, players)
  {
    assert players - todo == players;
  }

  lemma NextSpot(w: World, ids: seq<PlayerId>, line: seq<SpawnPoint>, todo: set<PlayerId>, k: nat, p: PlayerId)
    requires k <= |ids| && ids[k..] == Roster(todo) && IsFirst(p, todo) && line != []
    ensures k < |ids| && ids[k + 1..] == Roster(todo - {p})
    ensures var spots := PlayerSpots(ids, line);
            PlaceAll(w, spots[..k + 1]) == Place(PlaceAll(w, spots[..k]), Spot(p, line[k % |line|].x, line[k % |line|].y))
  {
    RosterOfFirst(todo, p);
    assert ids[k] == ids[k..][0] == p && ids[k + 1..] == ids[k..][1..];
    var spots := PlayerSpots(ids, line);
    assert spots[..k + 1][..k] == spots[..k];
  }

  method FirstOf(keys: set<PlayerId>) returns (p: PlayerId)
    requires keys != {}
    ensures IsFirst(p, keys)
  {
    FirstExists(keys);
    p :| p in keys && forall q | q in keys :: p <= q;
  }

  lemma {:induction false} PlaceBoth(w: World, a: seq<Placement>, b: seq<Placement>)
    ensures PlaceAll(PlaceAll(w, a), b) == PlaceAll(w, a + b)
    decreases |b|
  {
    if b == [] {
      assert a + b == a;
    } else {
      PlaceBoth(w, a, b[..|b| - 1]);
      assert (a + b)[..|a + b| - 1] == a + b[..|b| - 1];
    }
  }

  lemma JoinOneMore(r: RaceState, players: map<PlayerId, Player>, todo: set<PlayerId>, p: PlayerId)
    requires p in todo && p in players
    ensures Joined(r, players - (todo - {p})) == AddParticipant(Joined(r, players - todo), p, players[p].current.life)
  {
    assert players - (todo - {p}) == (players - todo)[p := players[p]];
    JoinNext(r, players - todo, p, players[p]);
  }

  lemma JoinNext(r: RaceState, done: map<PlayerId, Player>, p: PlayerId, x: Player)
    ensures Joined(r, done[p := x]) == AddParticipant(Joined(r, done), p, x.current.life)
  {
    NewcomersNext(done, p, x);
    LivesNext(done, p, x);
    assert r.parts + Newcomers(done)[p := NEWCOMER] == (r.parts + Newcomers(done))[p := NEWCOMER];
    assert r.cars + Lives(done)[p := x.current.life] == (r.cars + Lives(done))[p := x.current.life];
  }

  lemma NewcomersNext(done: map<PlayerId, Player>, p: PlayerId, x: Player)
    ensures Newcomers(done[p := x]) == Newcomers(done)[p := NEWCOMER]
  {
  }

  lemma LivesNext(done: map<PlayerId, Player>, p: PlayerId, x: Player)
    ensures Lives(done[p := x]) == Lives(done)[p := x.current.life]
  {
  }

  method NewRaces(tracks: seq<Track>, physics: PhysicsWorld) returns (races: seq<Race>)
    ensures |races| == |tracks| && fresh(races)
    ensures forall k | 0 <= k < |races| :: races[k].View() == Fresh(tracks[k]) && races[k].track == tracks[k]
    ensures forall k | 0 <= k < |races| :: races[k].physics == physics
    ensures forall j, k | 0 <= j < k < |races| :: races[j] != races[k]
  {
    races := [];
    for i := 0 to |tracks|
      invariant |races| == i && fresh(races)
      invariant forall k | 0 <= k < i :: races[k].View() == Fresh(tracks[k]) && races[k].track == tracks[k]
      invariant forall k | 0 <= k < i :: races[k].physics == physics
      invariant forall j, k | 0 <= j < k < i :: races[j] != races[k]
    {
      var r := new Race(tracks[i], physics);
      races := races + [r];
    }
  }

  /** The current race right after loading. */
  function FirstState(index: nat, tracks: seq<Track>): RaceState {
    if index < |tracks| then Fresh(tracks[index]) else NO_RACE
  }

  /** The next race if there is one, else the end. */
  ghost function MovedOn(m: Match): Match {
    if m.index + 1 < |m.tracks| then
      m.(index := m.index + 1, phase := Racing, race := StartRace(m.tracks[m.index + 1], m.players))
    else m.(phase := GameOver)
  }

  class Game {
    var players: map<PlayerId, Player>
    var races: seq<Race>
    var currentRaceIndex: nat
    var state: GameState
    var pendingRaceStart: bool
    const city: City
    const marketPhase: MarketPhase
    const results: Result

    ghost function View(): Match
      reads this, races, marketPhase, marketPhase.market
    {
      Match(players, RaceTracks(races), currentRaceIndex,
            if currentRaceIndex < |races| then races[currentRaceIndex].View() else NO_RACE,
            state, marketPhase.market.playerMarketInfo, marketPhase.timeRemaining)
    }

    /** The races are different objects on the city's map, and the ones to come have not been touched. */
    ghost predicate Valid()
      reads this, races
    {
      && (forall i | 0 <= i < |races| :: races[i].physics == city.physicsWorld)
      && (forall i, j | 0 <= i < j < |races| :: races[i] != races[j])
      && (forall i | currentRaceIndex < i < |races| :: races[i].View() == Fresh(races[i].track))
    }

    /** Nothing waits to be broadcast. */
    ghost predicate Quiet()
      reads this, marketPhase, results
    {
      !pendingRaceStart && !marketPhase.pendingInit && !results.pendingResults && !results.pendingTotalResults
    }

    constructor ()
      ensures Valid() && Quiet() && fresh(marketPhase) && fresh(marketPhase.market) && fresh(results)
      ensures fresh(city) && fresh(city.physicsWorld) && city.physicsWorld.View() == EMPTY_WORLD
      ensures View() == Match(map[], [], 0, NO_RACE, Lobby, map[], 0)
    {
      players, races, currentRaceIndex, state, pendingRaceStart := map[], [], 0, Lobby, false;
      city := new City();
      marketPhase := new MarketPhase();
      results := new Result();
    }

    method LoadMap(cfg: MapConfig) returns (ghost shapes: seq<Shape>)
      modifies this`races, this`state, city, city.physicsWorld
      ensures Valid() && View() == Matches.LoadMap(old(View()), RaceTracks(races))
      ensures AreTracks(RaceTracks(races), cfg.checkpoints)
      ensures IsTown(city.View(), cfg) && IsGeometry(shapes, cfg)
      ensures city.physicsWorld.View() == LoadGeometry(old(city.physicsWorld.View()), shapes)
      ensures fresh(races)
    {
      shapes := city.LoadMap(cfg);
      BackToLobby();
    }

    method BackToLobby()
      modifies this`races, this`state
      ensures Valid() && fresh(races) && AreTracks(RaceTracks(races), city.checkpointsByRoute)
      ensures View() == Matches.LoadMap(old(View()), RaceTracks(races))
    {
      state := Lobby;
      InitRaces();
    }

    /** The races of before are dropped, and whatever bodies their cars have stay in the world. */
    method InitRaces()
      modifies this`races
      ensures Valid() && fresh(races) && AreTracks(RaceTracks(races), city.checkpointsByRoute)
      ensures View() == old(View()).(tracks := RaceTracks(races), race := FirstState(currentRaceIndex, RaceTracks(races)))
    {
      var tracks := city.InitRaces();
      races := NewRaces(tracks, city.physicsWorld);
      assert RaceTracks(races) == tracks;
    }

    method StartCurrentRace()
      requires Valid()
      requires currentRaceIndex < |races| ==> CanStart(city.View(), races[currentRaceIndex].track.routeId, players)
      modifies this`state, races, city.physicsWorld
      ensures Valid() && View() == Matches.StartCurrentRace(old(View()))
      ensures city.physicsWorld.View() ==
                if old(state).Racing? || currentRaceIndex >= |races| then old(city.physicsWorld.View())
                else PlaceAll(old(city.physicsWorld.View()), city.View().GridFor(races[currentRaceIndex].track.routeId, players))
    {
      if state.Racing? || currentRaceIndex >= |races| { return; }
      var r := races[currentRaceIndex];
      AddEverybody(r, players, city);
      r.InitNpcSpawns(city.npcSpawns);
      PlaceBoth(old(city.physicsWorld.View()), PlayerSpots(Roster(players.Keys), city.View().Line(r.track.routeId)),
                NpcSpots(city.npcSpawns));
      state := Racing;
    }

    /** What a room does with a start request once the map file is read. */
    method StartRoomGame(cfg: MapConfig) returns (ghost shapes: seq<Shape>)
      requires CanStartOn(cfg, currentRaceIndex, players)
      modifies this`races, this`state, city, city.physicsWorld
      ensures Valid() && fresh(races) && AreTracks(RaceTracks(races), cfg.checkpoints)
      ensures IsTown(city.View(), cfg) && IsGeometry(shapes, cfg)
      ensures View() == Matches.StartRoomGame(old(View()), RaceTracks(races))
      ensures city.physicsWorld.View() ==
                StartRoomWorld(city.View(), old(View()), old(city.physicsWorld.View()), RaceTracks(races), shapes)
    {
      ghost var m, w := View(), city.physicsWorld.View();
      shapes := LoadMap(cfg);
      CanStartThere(city.View(), cfg, RaceTracks(races), currentRaceIndex, players);
      StartIsLoadAndPlace(city.View(), m, w, RaceTracks(races), shapes);
      StartCurrentRace();
    }

    method RemovePlayer(p: PlayerId)
      requires Valid() && p in players
      modifies this`players, races, city.physicsWorld
      ensures Valid() && View() == Next(old(View()), Event.Leave(p))
      ensures city.physicsWorld.View() == WorldNext(city.View(), old(View()), old(city.physicsWorld.View()), Event.Leave(p))
    {
      players := players - {p};
      if races != [] && currentRaceIndex < |races| {
        races[currentRaceIndex].RemovePlayer(p);
      }
    }

    method BuyUpgrade(p: PlayerId, id: CarImprovement) returns (r: BuyResult)
      requires Valid() && GoodInfos(marketPhase.market.playerMarketInfo)
      modifies marketPhase.market
      ensures Valid() && View() == Act(old(View()), Improve(p, id))
      ensures r == if !(state.Marketplace? && p in players) then Refused
                   else if !Listed(id) then NotInCatalog
                   else if id in Owned(old(marketPhase.market.playerMarketInfo), p) then Refused else Bought
    {
      if !state.Marketplace? || p !in players { return Refused; }
      r := marketPhase.market.BuyUpgrade(p, id);
    }

    method ApplyCheat(p: PlayerId, code: nat)
      requires Valid()
      modifies races
      ensures Valid() && View() == Act(old(View()), Action.Cheat(p, code))
    {
      if races == [] || currentRaceIndex >= |races| || !state.Racing? { return; }
      if code == CHEAT_WIN_RACE {
        races[currentRaceIndex].ApplyCheatWin(p);
      }
    }

    /** The part of on_race_ended that every race has. */
    method RegisterRace()
      requires Valid() && state.Racing? && currentRaceIndex < |races|
      modifies this`players, marketPhase.market, results
      ensures Valid()
      ensures View() == old(View()).(players := Registered(old(players), old(View()).race, old(View()).infos), infos := map[])
      ensures results.pendingResults && IsCurrent(results.lastResultsCurrent, players, old(View()).race, old(View()).infos)
      ensures results.pendingTotalResults == old(results.pendingTotalResults)
    {
      ghost var race, infos := View().race, View().infos;
      var raceResult := races[currentRaceIndex].BuildRaceResults();
      var penalties := marketPhase.market.ConsumePenaltiesForRace();
      players := ApplyRaceResults(players, raceResult, penalties, race, infos);
      var current := results.BuildPlayerResultCurrent(players, raceResult, penalties, race, infos);
      results.SetPendingResults(current);
    }

    /** The end of the last race. */
    method FinishMatch()
      requires Valid()
      modifies this`state, results
      ensures Valid() && View() == old(View()).(phase := GameOver)
      ensures results.pendingTotalResults && IsTotals(results.lastResultsTotal, players)
      ensures results.pendingResults == old(results.pendingResults)
      ensures results.lastResultsCurrent == old(results.lastResultsCurrent)
    {
      state := GameOver;
      var total := results.BuildTotalResults(players);
      results.SetPendingTotalResults(total);
    }

    method StartMarketPhase()
      requires Valid()
      modifies this`players, this`state, marketPhase
      ensures Valid() && marketPhase.pendingInit
      ensures View() == old(View()).(phase := Marketplace, timeRemaining := MARKET_DURATION, players := Rebased(old(players)))
    {
      players := marketPhase.Begin(players, MARKET_DURATION);
      state := Marketplace;
    }

    method OnRaceEnded()
      requires Valid() && state.Racing? && currentRaceIndex < |races|
      modifies this`players, this`state, marketPhase, marketPhase.market, results
      ensures Valid() && View() == EndRace(old(View()))
      ensures results.pendingResults
      ensures IsCurrent(results.lastResultsCurrent,
                        Registered(old(players), old(View()).race, old(View()).infos), old(View()).race, old(View()).infos)
      ensures state.GameOver? ==> results.pendingTotalResults && IsTotals(results.lastResultsTotal, players)
      ensures !state.GameOver? ==> results.pendingTotalResults == old(results.pendingTotalResults)
      ensures marketPhase.pendingInit == (state.Marketplace? || old(marketPhase.pendingInit))
    {
      RegisterRace();
      if currentRaceIndex + 1 >= |races| {
        FinishMatch();
        return;
      }
      StartMarketPhase();
    }

    /** The part of finish_market_phase that leaves the last race. */
    method LeaveRace()
      requires Valid() && currentRaceIndex + 1 < |races|
      modifies this`currentRaceIndex, races[currentRaceIndex], city.physicsWorld
      ensures Valid()
      ensures View() == old(View()).(index := old(currentRaceIndex) + 1,
                                     race := Fresh(races[old(currentRaceIndex) + 1].track))
      ensures city.physicsWorld.View() == DestroyAll(old(city.physicsWorld.View()), old(races[currentRaceIndex].cars).Keys)
    {
      races[currentRaceIndex].ClearCars();
      currentRaceIndex := currentRaceIndex + 1;
    }

    method AdvanceToNextRace()
      requires Valid() && state.Marketplace? && currentRaceIndex + 1 < |races|
      requires CanStart(city.View(), races[currentRaceIndex + 1].track.routeId, players)
      modifies this`currentRaceIndex, this`state, this`pendingRaceStart, races, city.physicsWorld
      ensures Valid() && pendingRaceStart
      ensures View() == old(View()).(index := old(currentRaceIndex) + 1, phase := Racing,
                                     race := StartRace(races[old(currentRaceIndex) + 1].track, players))
      ensures city.physicsWorld.View() ==
                NextGrid(city.View(), old(city.physicsWorld.View()), old(races[currentRaceIndex].cars).Keys,
                         races[old(currentRaceIndex) + 1].track.routeId, players)
    {
      ghost var m, track := View(), races[currentRaceIndex + 1].track;
      LeaveRace();
      StartCurrentRace();
      pendingRaceStart := true;
      NextRaceStarted(m, track, View());
    }

    method FitUpgrades()
      requires Valid() && GoodInfos(marketPhase.market.playerMarketInfo)
      requires forall p | p in players :: players[p].current.improvements == []
      modifies this`players
      ensures Valid() && View() == old(View()).(players := Fitted(old(players), old(View()).infos))
    {
      players := marketPhase.ApplyUpgradesToAll(players);
    }

    /** The part of finish_market_phase after the upgrades. */
    method MoveOn()
      requires Valid() && state.Marketplace?
      requires forall route :: city.View().Line(route) != []
      modifies this`currentRaceIndex, this`state, this`pendingRaceStart, races, city.physicsWorld
      ensures Valid() && View() == MovedOn(old(View()))
      ensures city.physicsWorld.View() == MarketWorld(city.View(), old(View()), old(city.physicsWorld.View()))
      ensures pendingRaceStart == (state.Racing? || old(pendingRaceStart))
    {
      if currentRaceIndex + 1 < |races| {
        AdvanceToNextRace();
      } else {
        state := GameOver;
      }
    }

    method FinishMarketPhase()
      requires Valid() && state.Marketplace? && GoodInfos(marketPhase.market.playerMarketInfo)
      requires forall p | p in players :: players[p].current.improvements == []
      requires forall route :: city.View().Line(route) != []
      modifies this`players, this`currentRaceIndex, this`state, this`pendingRaceStart, races, city.physicsWorld
      ensures Valid() && View() == EndMarket(old(View()))
      ensures city.physicsWorld.View() == MarketWorld(city.View(), old(View()), old(city.physicsWorld.View()))
      ensures pendingRaceStart == (state.Racing? || old(pendingRaceStart))
    {
      EndMarketFitsFirst(city.View(), View(), city.physicsWorld.View());
      FitUpgrades();
      MoveOn();
    }

    /** update, while the market is open. */
    method UpdateMarket(ghost physics: PhysicsReport)
      requires Valid() && state.Marketplace? && GoodInfos(marketPhase.market.playerMarketInfo)
      requires forall p | p in players :: players[p].current.improvements == []
      requires forall route :: city.View().Line(route) != []
      modifies this`players, this`currentRaceIndex, this`state, this`pendingRaceStart, races, marketPhase, city.physicsWorld
      ensures Valid() && View() == Matches.Update(old(View()), physics) && marketPhase.pendingInit == old(marketPhase.pendingInit)
      ensures city.physicsWorld.View() == WorldUpdate(city.View(), old(View()), old(city.physicsWorld.View()), physics)
      ensures pendingRaceStart == (state.Racing? || old(pendingRaceStart))
    {
      ghost var m, w := View(), city.physicsWorld.View();
      TickClock();
      if marketPhase.timeRemaining <= 0 {
        FinishMarketPhase();
      }
      MarketTicked(city.View(), m, w, physics, View(), city.physicsWorld.View());
    }

    method TickClock()
      requires Valid()
      modifies marketPhase
      ensures Valid() && View() == old(View()).(timeRemaining := old(View()).timeRemaining - 1)
      ensures marketPhase.pendingInit == old(marketPhase.pendingInit)
    {
      marketPhase.Update(1);
    }

    /** update, while a race is on. */
    method UpdateRace(physics: PhysicsReport)
      requires Valid() && state.Racing? && currentRaceIndex < |races|
      modifies this`players, this`state, races, marketPhase, marketPhase.market, results, city.physicsWorld
      ensures Valid() && View() == Matches.Update(old(View()), physics)
      ensures city.physicsWorld.View() == Moved(old(city.physicsWorld.View()), physics.moves)
      ensures !EndsRace(old(View()), physics) ==> state.Racing? && unchanged(results) && unchanged(marketPhase)
      ensures EndsRace(old(View()), physics) ==>
                && results.pendingResults && marketPhase.pendingInit == (state.Marketplace? || old(marketPhase.pendingInit))
                && results.pendingTotalResults == (state.GameOver? || old(results.pendingTotalResults))
                && (var race := RaceAfter(old(View()).race, TickSteps(physics));
                    IsCurrent(results.lastResultsCurrent, Registered(old(players), race, old(View()).infos), race, old(View()).infos))
                && (state.GameOver? ==> IsTotals(results.lastResultsTotal, players))
    {
      city.Step(physics.moves);
      RunTick(races[currentRaceIndex], physics);
      assert View() == Raced(old(View()), physics);
      if races[currentRaceIndex].finished {
        OnRaceEnded();
      }
    }

    /** One tick of the match.  Whatever is announced waits in the pending flags. */
    method Update(physics: PhysicsReport)
      requires Valid() && WellFormed(View()) && Quiet()
      requires forall route :: city.View().Line(route) != []
      modifies this`players, this`currentRaceIndex, this`state, this`pendingRaceStart, races, marketPhase, marketPhase.market, results
      modifies city.physicsWorld
      ensures Valid() && View() == Matches.Update(old(View()), physics)
      ensures city.physicsWorld.View() == WorldUpdate(city.View(), old(View()), old(city.physicsWorld.View()), physics)
      ensures pendingRaceStart == (old(state).Marketplace? && state.Racing?)
      ensures marketPhase.pendingInit == (EndsRace(old(View()), physics) && state.Marketplace?)
      ensures results.pendingResults == EndsRace(old(View()), physics)
      ensures results.pendingTotalResults == (EndsRace(old(View()), physics) && state.GameOver?)
      ensures EndsRace(old(View()), physics) ==>
                && (var race := RaceAfter(old(View()).race, TickSteps(physics));
                    IsCurrent(results.lastResultsCurrent, Registered(old(players), race, old(View()).infos), race, old(View()).infos))
                && (state.GameOver? ==> IsTotals(results.lastResultsTotal, players))
    {
      match state {
        case Lobby =>
        case GameOver =>
        case Marketplace =>
          MarketCarsAreBare(View());
          UpdateMarket(physics);
        case Racing => UpdateRace(physics);
      }
    }
  }

  /** Somebody has to start somewhere, if there is a race at the index. */
  ghost predicate CanStartOn(cfg: MapConfig, index: nat, players: map<PlayerId, Player>) {
    index < |cfg.checkpoints| && players != map[] ==> HasUsableSpawn(cfg)
  }

  lemma CanStartThere(town: Town, cfg: MapConfig, tracks: seq<Track>, index: nat, players: map<PlayerId, Player>)
    requires IsTown(town, cfg) && AreTracks(tracks, cfg.checkpoints) && CanStartOn(cfg, index, players)
    ensures index < |tracks| ==> CanStart(town, tracks[index].routeId, players)
  {
    AsManyRacesAsRoutes(tracks, cfg.checkpoints);
    EveryRouteHasSpots(town, cfg);
  }

  lemma StartIsLoadAndPlace(town: Town, m: Match, w: World, tracks: seq<Track>, shapes: seq<Shape>)
    ensures Matches.StartRoomGame(m, tracks) == Matches.StartCurrentRace(Matches.LoadMap(m, tracks))
    ensures StartRoomWorld(town, m, w, tracks, shapes) ==
              if m.index >= |tracks| then LoadGeometry(w, shapes)
              else PlaceAll(LoadGeometry(w, shapes), town.GridFor(tracks[m.index].routeId, m.players))
  {
  }

  lemma MarketCarsAreBare(m: Match)
    requires WellFormed(m) && m.phase.Marketplace?
    ensures GoodInfos(m.infos) && forall p | p in m.players :: m.players[p].current.improvements == []
  {
  }

  lemma NextRaceStarted(m: Match, track: Track, m': Match)
    requires m.phase.Marketplace? && m.index + 1 < |m.tracks|
    requires m' == Matches.StartCurrentRace(m.(index := m.index + 1, race := Fresh(track)))
    ensures m' == m.(index := m.index + 1, phase := Racing, race := StartRace(track, m.players))
  {
  }

  lemma MarketTicked(town: Town, m: Match, w: World, physics: PhysicsReport, m': Match, w': World)
    requires m.phase.Marketplace?
    requires var m1 := m.(timeRemaining := m.timeRemaining - 1);
             && m' == (if m1.timeRemaining <= 0 then EndMarket(m1) else m1)
             && w' == if m1.timeRemaining <= 0 then MarketWorld(town, m1, w) else w
    ensures m' == Matches.Update(m, physics) && w' == WorldUpdate(town, m, w, physics)
  {
    MarketTick(m, physics);
    MarketTickWorld(town, m, w, physics);
  }

  lemma EndMarketFitsFirst(town: Town, m: Match, w: World)
    ensures var fitted := m.(players := Fitted(m.players, m.infos));
            MovedOn(fitted) == EndMarket(m) && MarketWorld(town, fitted, w) == MarketWorld(town, m, w)
  {
    assert Fitted(m.players, m.infos).Keys == m.players.Keys;
  }

  /** The second start on values, with what the map gave both times. */
  lemma SecondStart(cfg: MapConfig, m: Match, w: World, town: Town, tracks: seq<Track>, shapes: seq<Shape>,
                    m1: Match, w1: World, town': Town, tracks': seq<Track>, shapes': seq<Shape>, m2: Match, w2: World)
    requires Sound(w) && CanStartOn(cfg, m.index, m.players) && IsTown(town, cfg) && IsTown(town', cfg)
    requires AreTracks(tracks, cfg.checkpoints) && AreTracks(tracks', cfg.checkpoints)
    requires m1 == Matches.StartRoomGame(m, tracks) && w1 == StartRoomWorld(town, m, w, tracks, shapes)
    requires m2 == Matches.StartRoomGame(m1, tracks') && w2 == StartRoomWorld(town', m1, w1, tracks', shapes')
    ensures m2 == m1 && (m1.phase.Racing? <==> m1.index < |m1.tracks|)
    ensures AtTheLine(town', m2, w2, shapes') && forall h | w.next <= h < w1.next :: h !in w2.live
  {
    TracksAreUnique(tracks, tracks', cfg.checkpoints);
    CanStartThere(town, cfg, tracks, m.index, m.players);
    CanStartThere(town', cfg, tracks, m.index, m.players);
    StartingTwiceIsStartingOnce(m, w, tracks, town, shapes, town', shapes');
  }

  /** The second of two starts, when the first made `once` and `world` of `m` and `w`. */
  method StartOver(game: Game, cfg: MapConfig, ghost m: Match, ghost w: World, ghost town: Town, ghost tracks: seq<Track>,
                   ghost first: seq<Shape>, ghost once: Match, ghost world: World) returns (ghost shapes: seq<Shape>)
    requires Sound(w) && CanStartOn(cfg, m.index, m.players) && IsTown(town, cfg) && AreTracks(tracks, cfg.checkpoints)
    requires once == Matches.StartRoomGame(m, tracks) && world == StartRoomWorld(town, m, w, tracks, first)
    requires game.View() == once && game.city.physicsWorld.View() == world
    modifies game`races, game`state, game.city, game.city.physicsWorld
    ensures game.Valid() && game.View() == once && once.phase.Racing? == (once.index < |once.tracks|)
    ensures IsGeometry(shapes, cfg)
    ensures AtTheLine(game.city.View(), once, game.city.physicsWorld.View(), shapes)
    ensures forall h | w.next <= h < world.next :: h !in game.city.physicsWorld.View().live
  {
    shapes := game.StartRoomGame(cfg);
    SecondStart(cfg, m, w, town, tracks, first, once, world, game.city.View(), RaceTracks(game.races), shapes,
                game.View(), game.city.physicsWorld.View());
  }

  /** Both of the start requests that the receiving thread makes of one. */
  method StartTwice(game: Game, cfg: MapConfig) returns (ghost once: Match, ghost world: World, ghost shapes: seq<Shape>)
    requires CanStartOn(cfg, game.currentRaceIndex, game.players) && Sound(game.city.physicsWorld.View())
    modifies game`races, game`state, game.city, game.city.physicsWorld
    ensures game.Valid() && game.View() == once && once.phase.Racing? == (once.index < |once.tracks|)
    ensures IsGeometry(shapes, cfg)
    ensures AtTheLine(game.city.View(), game.View(), game.city.physicsWorld.View(), shapes)
    ensures forall h | old(game.city.physicsWorld.next) <= h < world.next :: h !in game.city.physicsWorld.live
  {
    ghost var m, w := game.View(), game.city.physicsWorld.View();
    ghost var first := game.StartRoomGame(cfg);
    once, world := game.View(), game.city.physicsWorld.View();
    shapes := StartOver(game, cfg, m, w, game.city.View(), RaceTracks(game.races), first, once, world);
  }

  method RunTick(r: Race, physics: PhysicsReport)
    modifies r
    ensures r.View() == RaceAfter(old(r.View()), TickSteps(physics))
  {
    ghost var start := r.View();
    r.SetHealth(physics.health);
    ghost var steps := [RaceStep.Physics(physics.health)];
    assert steps[..0] == [];
    for i := 0 to |physics.crossings|
      invariant r.View() == RaceAfter(start, [RaceStep.Physics(physics.health)] + Crossings(physics.crossings[..i]))
    {
      var ev := physics.crossings[i];
      steps := [RaceStep.Physics(physics.health)] + Crossings(physics.crossings[..i + 1]);
      assert steps[..|steps| - 1] == [RaceStep.Physics(physics.health)] + Crossings(physics.crossings[..i]);
      r.OnCarCheckpoint(ev.routeId, ev.player, ev.checkpoint);
    }
    steps := TickSteps(physics);
    assert physics.crossings[..|physics.crossings|] == physics.crossings;
    assert steps[..|steps| - 1] == [RaceStep.Physics(physics.health)] + Crossings(physics.crossings);
    r.AdvanceBy(1);
  }

  ghost function RegisteredUpTo(players: map<PlayerId, Player>, result: seq<ResultEntry>, k: nat, infos: Infos): map<PlayerId, Player>
    requires k <= |result|
  {
    if k == 0 then players
    else
      var before, e := RegisteredUpTo(players, result, k - 1, infos), result[k - 1];
      if e.player !in before then before
      else before[e.player := before[e.player].RegisterRaceResult(e.finishTime, Spent(infos, e.player))]
  }

  lemma RegisteredOneMore(players: map<PlayerId, Player>, result: seq<ResultEntry>, k: nat, infos: Infos)
    requires k < |result|
    ensures var before, e := RegisteredUpTo(players, result, k, infos), result[k];
            RegisteredUpTo(players, result, k + 1, infos)
            == if e.player !in before then before
               else before[e.player := before[e.player].RegisterRaceResult(e.finishTime, Spent(infos, e.player))]
  {
  }

  lemma {:induction false} RegisteredOnce(players: map<PlayerId, Player>, result: seq<ResultEntry>, k: nat, infos: Infos, p: PlayerId)
    requires k <= |result| && p in players
    requires forall i, j | 0 <= i < j < |result| :: result[i].player != result[j].player
    ensures var after := RegisteredUpTo(players, result, k, infos);
            && after.Keys == players.Keys
            && (forall i | 0 <= i < k && result[i].player == p ::
                  after[p] == players[p].RegisterRaceResult(result[i].finishTime, Spent(infos, p)))
            && ((forall i | 0 <= i < k :: result[i].player != p) ==> after[p] == players[p])
    decreases k
  {
    if k > 0 {
      RegisteredOnce(players, result, k - 1, infos, p);
    }
  }

  /** Going through the result list registers everybody's race exactly once. */
  lemma RegisteredAll(players: map<PlayerId, Player>, result: seq<ResultEntry>, race: RaceState, infos: Infos)
    requires IsRaceResult(result, race.parts)
    ensures RegisteredUpTo(players, result, |result|, infos) == Registered(players, race, infos)
  {
    var after := RegisteredUpTo(players, result, |result|, infos);
    forall p | p in players
      ensures after.Keys == players.Keys && after[p] == Registered(players, race, infos)[p]
    {
      RegisteredOnce(players, result, |result|, infos, p);
      if p in race.parts {
        var i :| 0 <= i < |result| && result[i].player == p;
      }
    }
    KeysOfRegistered(players, result, |result|, infos);
  }

  lemma {:induction false} KeysOfRegistered(players: map<PlayerId, Player>, result: seq<ResultEntry>, k: nat, infos: Infos)
    requires k <= |result|
    ensures RegisteredUpTo(players, result, k, infos).Keys == players.Keys
    decreases k
  {
    if k > 0 {
      KeysOfRegistered(players, result, k - 1, infos);
    }
  }

  /** apply_race_results_to_players. */
  method ApplyRaceResults(players: map<PlayerId, Player>, result: seq<ResultEntry>, penalties: map<PlayerId, nat>,
                          ghost race: RaceState, ghost infos: Infos) returns (updated: map<PlayerId, Player>)
    requires IsRaceResult(result, race.parts)
    requires forall p :: (if p in penalties then penalties[p] else 0) == Spent(infos, p)
    ensures updated == Registered(players, race, infos)
  {
    updated := players;
    for k := 0 to |result|
      invariant updated == RegisteredUpTo(players, result, k, infos)
    {
      var entry := result[k];
      RegisteredOneMore(players, result, k, infos);
      if entry.player !in updated { continue; }
      var penalty := if entry.player in penalties then penalties[entry.player] else 0;
      updated := updated[entry.player := updated[entry.player].RegisterRaceResult(entry.finishTime, penalty)];
    }
    RegisteredAll(players, result, race, infos);
  }
}
