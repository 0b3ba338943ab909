/** The match together with the bodies on its map: what server/game/game.cpp and server/game/race.cpp make of
    the physics world while a match is started, run and started again. */
module Arenas {
  import opened MapConfigs
  import opened PhysicsWorlds
  import opened Grids
  import opened Players
  import opened Rankings
  import opened Races
  import opened Markets
  import opened Matches

  // ------------------------------------------------------------------ one event

  /** The bodies for the next race: those of the last race's cars go, and the new grid comes. */
  ghost function NextGrid(town: Town, w: World, cars: set<PlayerId>, route: string, players: map<PlayerId, Player>): World
  {
    PlaceAll(DestroyAll(w, cars), town.GridFor(route, players))
  }

  ghost function MarketWorld(town: Town, m: Match, w: World): World {
    if m.index + 1 < |m.tracks| then NextGrid(town, w, m.race.cars.Keys, m.tracks[m.index + 1].routeId, m.players) else w
  }

  ghost function WorldUpdate(town: Town, m: Match, w: World, physics: PhysicsReport): World {
    match m.phase
    case Racing => Moved(w, physics.moves)
    case Marketplace =>
      var m' := m.(timeRemaining := m.timeRemaining - 1);
      if m'.timeRemaining <= 0 then MarketWorld(town, m', w) else w
    case _ => w
  }

  ghost function WorldNext(town: Town, m: Match, w: World, e: Event): World {
    match e
    case Leave(p) => if m.index < |m.tracks| then Destroy(w, p) else w
    case Tick(_, acts, physics, _, _) => WorldUpdate(town, ActAll(m, acts), w, physics)
  }

  ghost function WorldAfter(town: Town, m: Match, w: World, es: seq<Event>): World {
    if es == [] then w
    else
      var before := es[..|es| - 1];
      WorldNext(town, After(m, before), WorldAfter(town, m, w, before), es[|es| - 1])
  }

  /** Who is put on the map by a start; with no race at the index it throws before that. */
  ghost function StartGrid(town: Town, m: Match, tracks: seq<Track>): seq<Placement> {
    if m.index < |tracks| then town.GridFor(tracks[m.index].routeId, m.players) else []
  }

  ghost function StartRoomWorld(town: Town, m: Match, w: World, tracks: seq<Track>, shapes: seq<Shape>): World {
    StartWorld(w, shapes, StartGrid(town, m, tracks))
  }

  // ------------------------------------------------------------------ every run

  /** The players of the match are those who are connected to its race, and of the race they have a body on the
      map, and nobody else. */
  ghost predicate Embodied(race: RaceState, players: set<PlayerId>, w: World) {
    && players <= race.parts.Keys
    && forall p | p in race.parts ::
         (p in w.bodies <==> p in players) && (race.parts[p].state.Disconnected? <==> p !in players)
  }

  ghost predicate Arena(m: Match, w: World) { Sound(w) && (m.phase.Racing? ==> Embodied(m.race, m.players.Keys, w)) }

  ghost predicate SameAbsentees(r: RaceState, r': RaceState) {
    r'.parts.Keys == r.parts.Keys
    && forall p | p in r.parts :: r'.parts[p].state.Disconnected? == r.parts[p].state.Disconnected?
  }

  lemma StepKeepsAbsentees(r: RaceState, step: RaceStep)
    requires !step.Leave?
    ensures SameAbsentees(r, Do(r, step))
  {
  }

  lemma {:induction false} StepsKeepAbsentees(r: RaceState, steps: seq<RaceStep>)
    requires forall i | 0 <= i < |steps| :: !steps[i].Leave?
    ensures SameAbsentees(r, RaceAfter(r, steps))
    decreases |steps|
  {
    if steps != [] {
      StepsKeepAbsentees(r, steps[..|steps| - 1]);
      StepKeepsAbsentees(RaceAfter(r, steps[..|steps| - 1]), steps[|steps| - 1]);
    }
  }

  lemma {:induction false} ActionsKeepAbsentees(m: Match, acts: seq<Action>)
    ensures SameAbsentees(m.race, ActAll(m, acts).race)
    decreases |acts|
  {
    if acts != [] {
      ActionsKeepAbsentees(m, acts[..|acts| - 1]);
    }
  }

  /** Whoever enters a race gets a body. */
  lemma GridEmbodies(town: Town, route: string, players: map<PlayerId, Player>, w: World, p: PlayerId)
    requires Sound(w) && p in players && town.Line(route) != []
    ensures p in PlaceAll(w, town.GridFor(route, players)).bodies
  {
    var ids, grid := Roster(players.Keys), town.GridFor(route, players);
    RosterIsInOrder(players.Keys);
    GridHasIds(ids, town.Line(route), town.npcs);
    GridMentions(grid, ids, |town.npcs|, p);
    PlaceAllPlaces(w, grid, p);
    var i :| 0 <= i < |grid| && grid[i].id == p;
    var k := LastIndex(grid, p, i);
  }

  lemma LeaveKeepsArena(town: Town, m: Match, w: World, p: PlayerId)
    requires Arena(m, w) && WellFormed(m)
    ensures Arena(RemovePlayer(m, p), WorldNext(town, m, w, Event.Leave(p)))
  {
    DestroyKeepsSound(w, p);
  }

  lemma RaceTickKeepsArena(town: Town, m: Match, w: World, physics: PhysicsReport)
    requires Arena(m, w) && m.phase.Racing?
    ensures Arena(Update(m, physics), WorldUpdate(town, m, w, physics))
  {
    MovedKeepsSound(w, physics.moves);
    StepsKeepAbsentees(m.race, TickSteps(physics));
  }

  lemma NextGridEmbodies(town: Town, w: World, cars: set<PlayerId>, route: string, players: map<PlayerId, Player>)
    requires Sound(w) && town.Line(route) != []
    ensures var w' := NextGrid(town, w, cars, route, players);
            Sound(w') && forall p | p in players :: p in w'.bodies
  {
    DestroyAllKeepsSound(w, cars);
    PlaceAllPlaces(DestroyAll(w, cars), town.GridFor(route, players), 0);
    forall p | p in players
      ensures p in NextGrid(town, w, cars, route, players).bodies
    {
      GridEmbodies(town, route, players, DestroyAll(w, cars), p);
    }
  }

  lemma NewcomersAreEmbodied(race: RaceState, players: map<PlayerId, Player>, infos: Infos, w: World)
    requires race.parts == Newcomers(Fitted(players, infos)) && forall p | p in players :: p in w.bodies
    ensures Embodied(race, players.Keys, w)
  {
  }

  lemma ArenaOfNewcomers(town: Town, m': Match, w: World, cars: set<PlayerId>, route: string,
                         players: map<PlayerId, Player>, infos: Infos)
    requires Sound(w) && town.Line(route) != []
    requires m'.players.Keys == players.Keys
    requires m'.phase.Racing? ==> m'.race.parts == Newcomers(Fitted(players, infos))
    ensures Arena(m', NextGrid(town, w, cars, route, players))
  {
    NextGridEmbodies(town, w, cars, route, players);
    if m'.phase.Racing? {
      NewcomersAreEmbodied(m'.race, players, infos, NextGrid(town, w, cars, route, players));
    }
  }

  lemma NextRaceHasNewcomers(m: Match)
    requires m.index + 1 < |m.tracks|
    ensures EndMarket(m).race.parts == Newcomers(Fitted(m.players, m.infos)) && EndMarket(m).players.Keys == m.players.Keys
  {
    assert map[] + Newcomers(Fitted(m.players, m.infos)) == Newcomers(Fitted(m.players, m.infos));
  }

  lemma EndMarketMakesArena(town: Town, m: Match, w: World)
    requires Sound(w) && m.index + 1 < |m.tracks| && town.Line(m.tracks[m.index + 1].routeId) != []
    ensures Arena(EndMarket(m), NextGrid(town, w, m.race.cars.Keys, m.tracks[m.index + 1].routeId, m.players))
  {
    NextRaceHasNewcomers(m);
    ArenaOfNewcomers(town, EndMarket(m), w, m.race.cars.Keys, m.tracks[m.index + 1].routeId, m.players, m.infos);
  }

  lemma MarketTick(m: Match, physics: PhysicsReport)
    requires m.phase.Marketplace?
    ensures var m' := m.(timeRemaining := m.timeRemaining - 1);
            Update(m, physics) == if m'.timeRemaining <= 0 then EndMarket(m') else m'
  {
  }

  lemma MarketTickWorld(town: Town, m: Match, w: World, physics: PhysicsReport)
    requires m.phase.Marketplace?
    ensures var m' := m.(timeRemaining := m.timeRemaining - 1);
            WorldUpdate(town, m, w, physics) == if m'.timeRemaining <= 0 then MarketWorld(town, m', w) else w
  {
  }

  lemma NextRaceWorld(town: Town, m: Match, w: World, physics: PhysicsReport)
    requires m.phase.Marketplace? && m.timeRemaining <= 1 && m.index + 1 < |m.tracks|
    ensures var m' := m.(timeRemaining := m.timeRemaining - 1);
            WorldUpdate(town, m, w, physics) == NextGrid(town, w, m'.race.cars.Keys, m'.tracks[m'.index + 1].routeId, m'.players)
  {
  }

  lemma NextRaceKeepsArena(town: Town, m: Match, w: World, physics: PhysicsReport)
    requires Sound(w) && m.phase.Marketplace? && m.timeRemaining <= 1
    requires m.index + 1 < |m.tracks| && town.Line(m.tracks[m.index + 1].routeId) != []
    ensures Arena(Update(m, physics), WorldUpdate(town, m, w, physics))
  {
    MarketTick(m, physics);
    NextRaceWorld(town, m, w, physics);
    EndMarketMakesArena(town, m.(timeRemaining := m.timeRemaining - 1), w);
  }

  lemma OtherMarketTickKeepsArena(town: Town, m: Match, w: World, physics: PhysicsReport)
    requires Sound(w) && m.phase.Marketplace? && (m.timeRemaining > 1 || m.index + 1 >= |m.tracks|)
    ensures Arena(Update(m, physics), WorldUpdate(town, m, w, physics))
  {
    MarketTick(m, physics);
  }

  lemma NextKeepsArena(town: Town, m: Match, w: World, e: Event)
    requires Arena(m, w) && WellFormed(m)
    requires forall route :: town.Line(route) != []
    ensures Arena(Next(m, e), WorldNext(town, m, w, e))
  {
    match e
    case Leave(p) => LeaveKeepsArena(town, m, w, p);
    case Tick(_, acts, physics, _, _) =>
      var m1 := ActAll(m, acts);
      ActAllKeepsWellFormed(m, acts);
      ActionsKeepAbsentees(m, acts);
      match m1.phase {
        case Racing => RaceTickKeepsArena(town, m1, w, physics);
        case Marketplace =>
          if m1.timeRemaining <= 1 && m1.index + 1 < |m1.tracks| {
            NextRaceKeepsArena(town, m1, w, physics);
          } else {
            OtherMarketTickKeepsArena(town, m1, w, physics);
          }
        case Lobby =>
        case GameOver =>
      }
  }

  /** Over every run no body is lost or doubled, and during a race exactly the participants who are still
      connected have one, whatever physics does and whoever leaves. */
  lemma {:induction false} BodiesFollowTheRace(town: Town, m: Match, w: World, es: seq<Event>)
    requires Arena(m, w) && WellFormed(m) && Run(m, es)
    requires forall route :: town.Line(route) != []
    ensures Arena(After(m, es), WorldAfter(town, m, w, es))
    decreases |es|
  {
    if es != [] {
      var before := es[..|es| - 1];
      BodiesFollowTheRace(town, m, w, before);
      RunKeepsWellFormed(m, before);
      NextKeepsArena(town, After(m, before), WorldAfter(town, m, w, before), es[|es| - 1]);
    }
  }

  lemma {:induction false} AsManyAsNames(ticks: seq<TickInfo>, names: set<PlayerId>)
    requires forall p :: p in names <==> exists i :: 0 <= i < |ticks| && ticks[i].player == p
    requires forall i, j | 0 <= i < j < |ticks| :: ticks[i].player != ticks[j].player
    ensures |ticks| == |names|
    decreases |ticks|
  {
    if ticks == [] {
      assert names == {};
    } else {
      var n := |ticks| - 1;
      assert ticks[n].player in names;
      forall p
        ensures p in names - {ticks[n].player} <==> exists i :: 0 <= i < n && ticks[..n][i].player == p
      {
        if p in names - {ticks[n].player} {
          var i :| 0 <= i < |ticks| && ticks[i].player == p;
          assert ticks[..n][i].player == p;
        }
        if i :| 0 <= i < n && ticks[..n][i].player == p {
          assert ticks[i].player == p;
        }
      }
      AsManyAsNames(ticks[..n], names - {ticks[n].player});
    }
  }

  lemma SnapshotOfArena(m: Match, w: World, ticks: seq<TickInfo>, distance: PlayerId -> real)
    requires Arena(m, w) && m.phase.Racing? && IsSnapshot(ticks, m.race, w, distance)
    ensures forall p :: p in m.players <==> exists i :: 0 <= i < |ticks| && ticks[i].player == p
  {
    forall p
      ensures p in m.players <==> exists i :: 0 <= i < |ticks| && ticks[i].player == p
    {
      assert p in m.players <==> Shown(m.race, w, p);
    }
  }

  /** So in every state of every run the live ranking of a race places the players of the match, each exactly
      once, and nobody else. */
  lemma LiveRankingIsComplete(town: Town, m: Match, w: World, es: seq<Event>, ticks: seq<TickInfo>,
                              distance: PlayerId -> real)
    requires Arena(m, w) && WellFormed(m) && Run(m, es)
    requires forall route :: town.Line(route) != []
    requires After(m, es).phase.Racing? && IsSnapshot(ticks, After(m, es).race, WorldAfter(town, m, w, es), distance)
    ensures forall p :: p in After(m, es).players <==> exists i :: 0 <= i < |ticks| && ticks[i].player == p
    ensures |ticks| == |After(m, es).players|
  {
    BodiesFollowTheRace(town, m, w, es);
    SnapshotOfArena(After(m, es), WorldAfter(town, m, w, es), ticks, distance);
    AsManyAsNames(ticks, After(m, es).players.Keys);
  }

  // ------------------------------------------------------------------ starting

  ghost predicate AtSpot(w: World, spot: Placement) { IsAt(w, spot.id, spot.x, spot.y) }

  ghost predicate OneBody(w: World, id: BodyId) { id in w.bodies && BodiesFor(w, id) == {w.bodies[id]} }

  /** Everybody has the one body that it should have: each player at its spawn point, unless an NPC takes its
      id, and each NPC at its own, unless one 256 places later takes its number. */
  ghost predicate OnTheGrid(town: Town, ids: seq<PlayerId>, line: seq<SpawnPoint>, w: World) {
    && (forall p | p in ids :: OneBody(w, p))
    && (forall j | 0 <= j < |town.npcs| :: OneBody(w, NpcBody(j)))
    && (forall i | 0 <= i < |ids| && line != [] && !IsNpc(ids[i], |town.npcs|) :: AtSpot(w, PlayerSpot(ids, line, i)))
    && (forall j | 0 <= j < |town.npcs| <= j + 256 :: AtSpot(w, NpcSpot(town.npcs, j)))
  }

  lemma PlacedHasOneBody(grid: seq<Placement>, w: World, w': World, id: BodyId)
    requires Sound(w') && PlacedCar(w, w', grid, id) && Mentions(grid, id)
    ensures OneBody(w', id)
  {
    var i :| 0 <= i < |grid| && grid[i].id == id;
    var k := LastIndex(grid, id, i);
    OneBodyEach(w', id);
  }

  lemma LastIsAtSpot(grid: seq<Placement>, w: World, w': World, i: nat)
    requires i < |grid| && IsLast(grid, grid[i].id, i) && PlacedCar(w, w', grid, grid[i].id)
    ensures AtSpot(w', grid[i])
  {
  }

  lemma PlacedIsOnTheGrid(town: Town, ids: seq<PlayerId>, line: seq<SpawnPoint>, w: World, w': World)
    requires Sound(w') && (line != [] || ids == []) && forall a, b | 0 <= a < b < |ids| :: ids[a] < ids[b]
    requires forall id :: PlacedCar(w, w', Grid(ids, line, town.npcs), id)
    ensures OnTheGrid(town, ids, line, w')
  {
    var grid := Grid(ids, line, town.npcs);
    GridHasIds(ids, line, town.npcs);
    forall p | p in ids || IsNpc(p, |town.npcs|)
      ensures OneBody(w', p)
    {
      GridMentions(grid, ids, |town.npcs|, p);
      PlacedHasOneBody(grid, w, w', p);
    }
    forall i | 0 <= i < |ids| && line != [] && !IsNpc(ids[i], |town.npcs|)
      ensures AtSpot(w', PlayerSpot(ids, line, i))
    {
      PlayersKeepTheirSpot(ids, line, town.npcs, i);
      LastIsAtSpot(grid, w, w', i);
    }
    forall j | 0 <= j < |town.npcs| <= j + 256
      ensures AtSpot(w', NpcSpot(town.npcs, j))
    {
      NpcsKeepTheirSpot(ids, line, town.npcs, j);
      LastIsAtSpot(grid, w, w', |ids| + j);
    }
  }

  lemma NextGridIsOnTheGrid(town: Town, w: World, cars: set<PlayerId>, route: string, players: map<PlayerId, Player>)
    requires Sound(w) && town.Line(route) != []
    ensures OnTheGrid(town, Roster(players.Keys), town.Line(route), NextGrid(town, w, cars, route, players))
  {
    var w0, ids := DestroyAll(w, cars), Roster(players.Keys);
    DestroyAllKeepsSound(w, cars);
    RosterIsInOrder(players.Keys);
    forall id
      ensures PlacedCar(w0, NextGrid(town, w, cars, route, players), Grid(ids, town.Line(route), town.npcs), id)
    {
      PlaceAllPlaces(w0, town.GridFor(route, players), id);
    }
    PlaceAllPlaces(w0, town.GridFor(route, players), 0);
    PlacedIsOnTheGrid(town, ids, town.Line(route), w0, NextGrid(town, w, cars, route, players));
  }

  lemma NextRaceBegins(m: Match, physics: PhysicsReport)
    requires m.phase.Marketplace? && 1 <= m.timeRemaining && m.index + 1 < |m.tracks| && Update(m, physics).phase.Racing?
    ensures var m' := Update(m, physics);
            m.timeRemaining <= 1 && m'.index == m.index + 1 && m'.tracks == m.tracks && m'.players.Keys == m.players.Keys
  {
  }

  lemma WorldOfNextRace(town: Town, m: Match, w: World, physics: PhysicsReport)
    requires m.phase.Marketplace? && m.timeRemaining <= 1 && m.index + 1 < |m.tracks|
    ensures WorldUpdate(town, m, w, physics) == NextGrid(town, w, m.race.cars.Keys, m.tracks[m.index + 1].routeId, m.players)
  {
    NextRaceWorld(town, m, w, physics);
  }

  lemma MarketTickLinesUp(town: Town, m: Match, w: World, physics: PhysicsReport)
    requires Sound(w) && m.phase.Marketplace? && m.timeRemaining <= 1 && m.index + 1 < |m.tracks|
    requires town.Line(m.tracks[m.index + 1].routeId) != []
    ensures OnTheGrid(town, Roster(m.players.Keys), town.Line(m.tracks[m.index + 1].routeId), WorldUpdate(town, m, w, physics))
  {
    WorldOfNextRace(town, m, w, physics);
    NextGridIsOnTheGrid(town, w, m.race.cars.Keys, m.tracks[m.index + 1].routeId, m.players);
  }

  /** Everybody in the current race of `m` is on its grid. */
  ghost predicate LinedUp(town: Town, m: Match, w: World) {
    m.index < |m.tracks| && OnTheGrid(town, Roster(m.players.Keys), town.Line(m.tracks[m.index].routeId), w)
  }

  lemma LinedUpForNext(town: Town, m: Match, m': Match, w: World)
    requires m'.index == m.index + 1 < |m.tracks| && m'.tracks == m.tracks && m'.players.Keys == m.players.Keys
    requires OnTheGrid(town, Roster(m.players.Keys), town.Line(m.tracks[m.index + 1].routeId), w)
    ensures LinedUp(town, m', w)
  {
  }

  /** Not only the first race: whenever a market closes, the players of the match and the NPCs stand on the grid of the
      next route. */
  lemma EveryRaceLinesUp(town: Town, m: Match, w: World, e: Event)
    requires Sound(w) && WellFormed(m) && m.phase.Marketplace? && e.Tick? && Next(m, e).phase.Racing?
    requires forall route :: town.Line(route) != []
    ensures Next(m, e).players.Keys == m.players.Keys && LinedUp(town, Next(m, e), WorldNext(town, m, w, e))
  {
    var m1 := ActAll(m, e.actions);
    ActAllKeepsWellFormed(m, e.actions);
    NextRaceBegins(m1, e.physics);
    MarketTickLinesUp(town, m1, w, e.physics);
    LinedUpForNext(town, m1, Next(m, e), WorldNext(town, m, w, e));
  }

  lemma StartGridIds(town: Town, m: Match, tracks: seq<Track>, id: BodyId)
    requires m.index < |tracks| ==> CanStart(town, tracks[m.index].routeId, m.players)
    ensures Mentions(StartGrid(town, m, tracks), id) <==> m.index < |tracks| && (id in m.players || IsNpc(id, |town.npcs|))
  {
    if m.index < |tracks| {
      var ids, line := Roster(m.players.Keys), town.Line(tracks[m.index].routeId);
      RosterIsInOrder(m.players.Keys);
      GridHasIds(ids, line, town.npcs);
      GridMentions(Grid(ids, line, town.npcs), ids, |town.npcs|, id);
    }
  }

  /** Players need a spawn point. */
  ghost predicate CanStart(town: Town, route: string, players: map<PlayerId, Player>) {
    town.Line(route) != [] || players == map[]
  }

  /** The race of `m` is about to begin on the map: its walls stand, and everybody is on the grid. */
  ghost predicate AtTheLine(town: Town, m: Match, w: World, shapes: seq<Shape>) {
    && Arena(m, w) && ShapesOf(w) == shapes
    && (m.phase.Racing? ==> OnTheGrid(town, Roster(m.players.Keys), town.Line(m.race.track.routeId), w))
  }

  lemma StartedRace(m: Match, tracks: seq<Track>)
    ensures var m' := StartRoomGame(m, tracks);
            && m'.players == m.players && (m'.phase.Racing? <==> m.index < |tracks|)
            && (m'.phase.Racing? ==> m'.race.track == tracks[m.index] && m'.race.parts == Newcomers(m.players))
  {
    assert map[] + Newcomers(m.players) == Newcomers(m.players);
  }

  lemma NewcomersAtTheLine(town: Town, m: Match, w: World, shapes: seq<Shape>, ids: seq<PlayerId>)
    requires Sound(w) && ShapesOf(w) == shapes && ids == Roster(m.players.Keys) && IsRoster(ids, m.players.Keys)
    requires m.phase.Racing? ==>
               m.race.parts == Newcomers(m.players) && OnTheGrid(town, ids, town.Line(m.race.track.routeId), w)
    ensures AtTheLine(town, m, w, shapes)
  {
    if m.phase.Racing? {
      assert forall p | p in m.players :: p in ids && OneBody(w, p);
    }
  }

  /** After a start everybody has the one body that it should have, on the new map. */
  lemma StartLinesUp(town: Town, m: Match, w: World, tracks: seq<Track>, shapes: seq<Shape>)
    requires Sound(w) && (m.index < |tracks| ==> CanStart(town, tracks[m.index].routeId, m.players))
    ensures AtTheLine(town, StartRoomGame(m, tracks), StartRoomWorld(town, m, w, tracks, shapes), shapes)
  {
    var ids, w' := Roster(m.players.Keys), StartRoomWorld(town, m, w, tracks, shapes);
    StartingStarts(w, shapes, StartGrid(town, m, tracks));
    RosterIsInOrder(m.players.Keys);
    StartedRace(m, tracks);
    if m.index < |tracks| {
      PlacedIsOnTheGrid(town, ids, town.Line(tracks[m.index].routeId), w, w');
    }
    NewcomersAtTheLine(town, StartRoomGame(m, tracks), w', shapes, ids);
  }

  lemma StartAgain(m: Match, tracks: seq<Track>, town: Town)
    ensures var m1 := StartRoomGame(m, tracks);
            && StartRoomGame(m1, tracks) == m1 && m1.players == m.players && m1.index == m.index
            && StartGrid(town, m1, tracks) == StartGrid(town, m, tracks)
  {
  }

  lemma StartAgainWorld(m: Match, w: World, tracks: seq<Track>, town: Town, shapes: seq<Shape>,
                        town': Town, shapes': seq<Shape>)
    requires Sound(w) && town.npcs == town'.npcs
    requires m.index < |tracks| ==> CanStart(town, tracks[m.index].routeId, m.players)
    requires m.index < |tracks| ==> CanStart(town', tracks[m.index].routeId, m.players)
    ensures var w1 := StartWorld(w, shapes, StartGrid(town, m, tracks));
            var w2 := StartWorld(w1, shapes', StartGrid(town', m, tracks));
            && (forall h | w.next <= h < w1.next :: h !in w2.live)
            && (forall id | id !in m.players && !IsNpc(id, |town.npcs|) :: KeptCar(w, w2, id))
  {
    forall id
      ensures Mentions(StartGrid(town, m, tracks), id) <==> Mentions(StartGrid(town', m, tracks), id)
      ensures id !in m.players && !IsNpc(id, |town.npcs|) ==> !Mentions(StartGrid(town', m, tracks), id)
    {
      StartGridIds(town, m, tracks, id);
      StartGridIds(town', m, tracks, id);
    }
    StartingTwiceLeavesOneOfEach(w, shapes, StartGrid(town, m, tracks), shapes', StartGrid(town', m, tracks));
  }

  /** The receiving thread queues every start request twice.  The second start loads the map again and puts
      everybody on the grid again.  Whatever the match and the bodies were before, it leaves the match as the
      first one did, and in the world too nothing tells the two apart but the handles: the walls of the map once,
      one body for every player and every NPC at its place, and not one body of the first start. */
  lemma StartingTwiceIsStartingOnce(m: Match, w: World, tracks: seq<Track>, town: Town, shapes: seq<Shape>,
                                    town': Town, shapes': seq<Shape>)
    requires Sound(w) && town.npcs == town'.npcs
    requires m.index < |tracks| ==> CanStart(town, tracks[m.index].routeId, m.players)
    requires m.index < |tracks| ==> CanStart(town', tracks[m.index].routeId, m.players)
    ensures StartRoomGame(StartRoomGame(m, tracks), tracks) == StartRoomGame(m, tracks)
    ensures var m1, w1 := StartRoomGame(m, tracks), StartRoomWorld(town, m, w, tracks, shapes);
            var w2 := StartRoomWorld(town', m1, w1, tracks, shapes');
            && AtTheLine(town, m1, w1, shapes) && AtTheLine(town', m1, w2, shapes')
            && (forall h | w.next <= h < w1.next :: h !in w2.live)
            && (forall id | id !in m.players && !IsNpc(id, |town.npcs|) :: KeptCar(w, w2, id))
  {
    StartAgain(m, tracks, town');
    StartLinesUp(town, m, w, tracks, shapes);
    StartLinesUp(town', StartRoomGame(m, tracks), StartRoomWorld(town, m, w, tracks, shapes), tracks, shapes');
    StartAgainWorld(m, w, tracks, town, shapes, town', shapes');
  }

  /** A car from before a start outlives it exactly when nothing with its id is on the new grid: players who have
      left the room, and the NPCs of an earlier map that had more of them. */
  lemma OldCarsRemain(town: Town, m: Match, w: World, tracks: seq<Track>, shapes: seq<Shape>, id: BodyId)
    requires Sound(w) && id in w.bodies
    requires m.index < |tracks| ==> CanStart(town, tracks[m.index].routeId, m.players)
    ensures w.bodies[id] in StartRoomWorld(town, m, w, tracks, shapes).live
            <==> !(m.index < |tracks| && (id in m.players || IsNpc(id, |town.npcs|)))
  {
    var grid, w' := StartGrid(town, m, tracks), StartRoomWorld(town, m, w, tracks, shapes);
    StartingStarts(w, shapes, grid);
    StartGridIds(town, m, tracks, id);
    assert PlacedCar(w, w', grid, id);
    if w.bodies[id] in w'.live {
      SurvivorsAreOthers(w, w', shapes, grid, w.bodies[id]);
    }
  }

  lemma NpcHasBody(town: Town, ids: seq<PlayerId>, line: seq<SpawnPoint>, w: World, j: nat)
    requires OnTheGrid(town, ids, line, w) && j < |town.npcs|
    ensures OneBody(w, NpcBody(j))
  {
  }

  lemma NoSecondNpc()
    ensures !IsNpc(NpcBody(1), 1)
  {
  }

  /** The second NPC of a map stays on the road when the creator starts again on a map with only one. */
  lemma OldNpcRemains(m: Match, track: Track, town: Town, town': Town, a: NpcSpawn, b: NpcSpawn)
    requires m.index == 0 && NpcBody(1) !in m.players && town.npcs == [a, b] && town'.npcs == [a]
    requires track.routeId in town.spawns && town.spawns[track.routeId] != []
    requires track.routeId in town'.spawns && town'.spawns[track.routeId] != []
    ensures var m1, w1 := StartRoomGame(m, [track]), StartRoomWorld(town, m, EMPTY_WORLD, [track], []);
            var w2 := StartRoomWorld(town', m1, w1, [track], []);
            NpcBody(1) in w1.bodies && w1.bodies[NpcBody(1)] in w2.live
  {
    var m1, w1 := StartRoomGame(m, [track]), StartRoomWorld(town, m, EMPTY_WORLD, [track], []);
    StartLinesUp(town, m, EMPTY_WORLD, [track], []);
    StartedRace(m, [track]);
    NpcHasBody(town, Roster(m.players.Keys), town.Line(track.routeId), w1, 1);
    NoSecondNpc();
    OldCarsRemain(town', m1, w1, [track], [], NpcBody(1));
  }

  /** As many NPCs as asked for, one pixel apart. */
  function Queue(n: nat): seq<NpcSpawn> { seq(n, i => NpcSpawn(i as real, 0.0, 0.0)) }

  /** With 257 NPCs the first and the last have the same body, and it stands where the last should. */
  lemma FirstNpcLosesItsSpot(m: Match, w: World, track: Track, town: Town, shapes: seq<Shape>)
    requires Sound(w) && m.index == 0 && CanStart(town, track.routeId, m.players) && town.npcs == Queue(257)
    ensures var w' := StartRoomWorld(town, m, w, [track], shapes);
            && NpcBody(0) == NpcBody(256) && OneBody(w', NpcBody(0))
            && AtSpot(w', NpcSpot(town.npcs, 256)) && !AtSpot(w', NpcSpot(town.npcs, 0))
  {
    var ids, line, w' := Roster(m.players.Keys), town.Line(track.routeId), StartRoomWorld(town, m, w, [track], shapes);
    StartLinesUp(town, m, w, [track], shapes);
    StartedRace(m, [track]);
    NpcHasBody(town, ids, line, w', 0);
    LastNpcHasItsSpot(town, ids, line, w', 256);
    OnePlaceEach(w', NpcSpot(town.npcs, 256), NpcSpot(town.npcs, 0));
  }

  lemma LastNpcHasItsSpot(town: Town, ids: seq<PlayerId>, line: seq<SpawnPoint>, w: World, j: nat)
    requires OnTheGrid(town, ids, line, w) && j + 1 == |town.npcs|
    ensures AtSpot(w, NpcSpot(town.npcs, j))
  {
  }

  lemma OnePlaceEach(w: World, here: Placement, there: Placement)
    requires AtSpot(w, here) && here.id == there.id && here.x != there.x
    ensures !AtSpot(w, there)
  {
  }

  /** A player with the number of an NPC's body starts where the NPC should, and not at its own spawn point. */
  lemma PlayerLosesItsSpot(m: Match, w: World, track: Track, town: Town, shapes: seq<Shape>, i: nat)
    requires Sound(w) && m.index == 0 && town.Line(track.routeId) != [] && NpcBody(0) in m.players
    requires |town.npcs| == 1 && i < |Roster(m.players.Keys)| && Roster(m.players.Keys)[i] == NpcBody(0)
    requires var line := town.Line(track.routeId); line[i % |line|].x != town.npcs[0].x
    ensures var w' := StartRoomWorld(town, m, w, [track], shapes);
            && OneBody(w', NpcBody(0)) && AtSpot(w', NpcSpot(town.npcs, 0))
            && !AtSpot(w', PlayerSpot(Roster(m.players.Keys), town.Line(track.routeId), i))
  {
    var ids, line, w' := Roster(m.players.Keys), town.Line(track.routeId), StartRoomWorld(town, m, w, [track], shapes);
    StartLinesUp(town, m, w, [track], shapes);
    StartedRace(m, [track]);
    NpcHasBody(town, ids, line, w', 0);
    LastNpcHasItsSpot(town, ids, line, w', 0);
    OnePlaceEach(w', NpcSpot(town.npcs, 0), PlayerSpot(ids, line, i));
  }
}
