/** The life of a room's game: ticks, departures and starts, as many as there are and in whatever order they come.
    What a start leaves of the game before it, server/game/game.cpp with server/room_manager.cpp. */
module RoomLives {
  import opened Wrappers
  import opened MapConfigs
  import opened PhysicsWorlds
  import opened Grids
  import opened Players
  import opened Garages
  import opened Races
  import opened Markets
  import opened Matches
  import opened MatchLedger
  import MatchTheorems
  import opened Arenas

  /** What is read from the file of a map. */
  datatype GameMap = GameMap(town: Town, tracks: seq<Track>, shapes: seq<Shape>)

  /** A room's match on the map that it was started with. */
  datatype Hall = Hall(game: Match, town: Town, world: World)

  /** A start reads the file of a map first, which may fail. */
  datatype Turn = Played(event: Event) | Begun(file: Option<GameMap>)

  ghost predicate HasSpots(town: Town) { forall route :: town.Line(route) != [] }

  /** A start needs a race at the index only to put players on the map. */
  ghost predicate Allowed(h: Hall, t: Turn) {
    match t
    case Played(e) => Legal(h.game, e)
    case Begun(file) => file.Some? && h.game.index < |file.value.tracks| ==> HasSpots(file.value.town)
  }

  ghost function Took(h: Hall, t: Turn): Hall {
    match t
    case Played(e) => Hall(Next(h.game, e), h.town, WorldNext(h.town, h.game, h.world, e))
    case Begun(None) => h
    case Begun(Some(gm)) => Restarted(h, gm)
  }

  ghost function Restarted(h: Hall, gm: GameMap): Hall {
    Hall(StartRoomGame(h.game, gm.tracks), gm.town, StartRoomWorld(gm.town, h.game, h.world, gm.tracks, gm.shapes))
  }

  /** A start tells everybody in the room, even when it failed; the rest is what the game loop broadcasts. */
  ghost function Told(h: Hall, t: Turn): seq<Broadcast> {
    match t
    case Played(e) => Sent(h.game, e)
    case Begun(_) => [RaceStart]
  }

  ghost predicate Life(h: Hall, ts: seq<Turn>) {
    ts == [] || (Life(h, ts[..|ts| - 1]) && Allowed(Reached(h, ts[..|ts| - 1]), ts[|ts| - 1]))
  }

  ghost function Reached(h: Hall, ts: seq<Turn>): Hall {
    if ts == [] then h else Took(Reached(h, ts[..|ts| - 1]), ts[|ts| - 1])
  }

  /** Everything that the room was told. */
  ghost function Heard(h: Hall, ts: seq<Turn>): seq<Broadcast> {
    if ts == [] then []
    else Heard(h, ts[..|ts| - 1]) + Told(Reached(h, ts[..|ts| - 1]), ts[|ts| - 1])
  }

  // ------------------------------------------------------------------ the invariant

  /** The car driven is the player's own with a set of upgrades from the catalogue, each of them once. */
  ghost predicate IsDressed(x: Player) {
    var us := x.current.improvements;
    Distinct(us) && FromCatalog(us) && x.current == Upgraded(x.base, us)
  }

  ghost predicate Dressed(players: map<PlayerId, Player>) { forall p | p in players :: IsDressed(players[p]) }

  ghost predicate InOrder(h: Hall) {
    && WellFormed(h.game) && Arena(h.game, h.world) && Dressed(h.game.players)
    && (h.game.phase.Lobby? || HasSpots(h.town))
  }

  lemma {:induction false} LobbyIgnoresActions(m: Match, acts: seq<Action>)
    requires m.phase.Lobby?
    ensures ActAll(m, acts) == m
    decreases |acts|
  {
    if acts != [] {
      LobbyIgnoresActions(m, acts[..|acts| - 1]);
    }
  }

  lemma LobbyWaits(m: Match, e: Event)
    requires m.phase.Lobby? && e.Tick?
    ensures Next(m, e) == m
  {
    LobbyIgnoresActions(m, e.actions);
  }

  lemma EventKeepsLobby(m: Match, e: Event)
    requires WellFormed(m)
    ensures Next(m, e).phase.Lobby? <==> m.phase.Lobby?
  {
    if e.Tick? {
      if m.phase.Lobby? {
        LobbyWaits(m, e);
      } else {
        MatchTheorems.TickMoves(m, e);
      }
    }
  }

  lemma RebasedIsDressed(players: map<PlayerId, Player>)
    requires Clean(players)
    ensures Dressed(Rebased(players))
  {
    forall p | p in players
      ensures IsDressed(Rebased(players)[p])
    {
      UpgradedByNothing(players[p].base);
    }
  }

  lemma FittedIsDressed(players: map<PlayerId, Player>, infos: Infos)
    requires InBaseCars(players) && GoodInfos(infos)
    ensures Dressed(Fitted(players, infos))
  {
  }

  lemma UpdateKeepsDressed(m: Match, physics: PhysicsReport)
    requires WellFormed(m) && Dressed(m.players)
    ensures Dressed(Update(m, physics).players)
  {
    match m.phase
    case Lobby =>
    case GameOver =>
    case Marketplace => FittedIsDressed(m.players, m.infos);
    case Racing =>
      var m' := Raced(m, physics);
      RebasedIsDressed(Registered(m'.players, m'.race, m'.infos));
      assert Dressed(Registered(m'.players, m'.race, m'.infos));
  }

  lemma EventKeepsDressed(m: Match, e: Event)
    requires WellFormed(m) && Dressed(m.players)
    ensures Dressed(Next(m, e).players)
  {
    if e.Tick? {
      ActAllKeepsWellFormed(m, e.actions);
      UpdateKeepsDressed(ActAll(m, e.actions), e.physics);
    }
  }

  lemma PlayKeepsOrder(h: Hall, e: Event)
    requires InOrder(h) && Legal(h.game, e)
    ensures InOrder(Took(h, Played(e)))
  {
    NextKeepsWellFormed(h.game, e);
    EventKeepsDressed(h.game, e);
    EventKeepsLobby(h.game, e);
    if e.Leave? {
      LeaveKeepsArena(h.town, h.game, h.world, e.player);
    } else if h.game.phase.Lobby? {
      LobbyWaits(h.game, e);
      LobbyIgnoresActions(h.game, e.actions);
    } else {
      NextKeepsArena(h.town, h.game, h.world, e);
    }
  }

  lemma StartKeepsOrder(h: Hall, gm: GameMap)
    requires InOrder(h) && Allowed(h, Begun(Some(gm)))
    ensures InOrder(Restarted(h, gm))
  {
    StartKeepsWellFormed(h.game, gm.tracks);
    StartLinesUp(gm.town, h.game, h.world, gm.tracks, gm.shapes);
  }

  /** Whenever the creator starts again, in the middle of a race, during a market or after the end: the match
      stays well formed, exactly the connected participants of a race have bodies, and nobody drives more than
      its own car with each upgrade at most once. */
  lemma {:induction false} LifeKeepsOrder(h: Hall, ts: seq<Turn>)
    requires InOrder(h) && Life(h, ts)
    ensures InOrder(Reached(h, ts))
    decreases |ts|
  {
    if ts != [] {
      var before, t := Reached(h, ts[..|ts| - 1]), ts[|ts| - 1];
      LifeKeepsOrder(h, ts[..|ts| - 1]);
      match t
      case Played(e) => PlayKeepsOrder(before, e);
      case Begun(None) =>
      case Begun(Some(gm)) => StartKeepsOrder(before, gm);
    }
  }

  function Plays(es: seq<Event>): (ts: seq<Turn>)
    ensures |ts| == |es|
  {
    seq(|es|, i requires 0 <= i < |es| => Played(es[i]))
  }

  /** A run of a match is a life without a start. */
  lemma {:induction false} RunsAreLives(h: Hall, es: seq<Event>)
    ensures Life(h, Plays(es)) <==> Run(h.game, es)
    ensures Reached(h, Plays(es)) == Hall(After(h.game, es), h.town, WorldAfter(h.town, h.game, h.world, es))
    decreases |es|
  {
    if es != [] {
      var n := |es| - 1;
      assert Plays(es)[..n] == Plays(es[..n]);
      RunsAreLives(h, es[..n]);
    }
  }

  // ------------------------------------------------------------------ what goes on from game to game

  lemma EventKeepsIndex(m: Match, e: Event)
    requires WellFormed(m)
    ensures m.index <= Next(m, e).index
  {
    if e.Tick? {
      if m.phase.Lobby? {
        LobbyWaits(m, e);
      } else {
        MatchTheorems.TickMoves(m, e);
      }
    }
  }

  /** However often the room is started, the index of its race never falls: no start takes it back to the first
      route, and a route that was left behind is not raced again. */
  lemma {:induction false} IndexNeverFalls(h: Hall, ts: seq<Turn>)
    requires InOrder(h) && Life(h, ts)
    ensures h.game.index <= Reached(h, ts).game.index
    decreases |ts|
  {
    if ts != [] {
      var before := ts[..|ts| - 1];
      IndexNeverFalls(h, before);
      LifeKeepsOrder(h, before);
      if ts[|ts| - 1].Played? {
        EventKeepsIndex(Reached(h, before).game, ts[|ts| - 1].event);
      }
    }
  }

  lemma TurnIsPosted(h: Hall, t: Turn, p: PlayerId)
    requires InOrder(h) && Allowed(h, t) && p in Took(h, t).game.players
    ensures p in h.game.players && Audit(Books(h.game, p), Told(h, t), p) == Books(Took(h, t).game, p)
  {
    match t
    case Played(e) => EventIsPosted(h.game, e, p);
    case Begun(_) => AuditTwo(Books(h.game, p), RaceStart, RaceStart, p);
  }

  /** The ledger goes on from game to game: over the whole life of a room, with as many starts as there are and
      whenever they come, what was broadcast adds up to the total time that the server holds for each player still
      there.  So a second game does not begin at zero, and a purchase made before a start is still charged after
      it. */
  lemma {:induction false} TotalsGoOn(h: Hall, ts: seq<Turn>, p: PlayerId)
    requires InOrder(h) && Life(h, ts) && p in Reached(h, ts).game.players
    ensures p in h.game.players
    ensures Audit(Books(h.game, p), Heard(h, ts), p) == Books(Reached(h, ts).game, p)
    decreases |ts|
  {
    if ts != [] {
      var before := ts[..|ts| - 1];
      LifeKeepsOrder(h, before);
      TurnIsPosted(Reached(h, before), ts[|ts| - 1], p);
      TotalsGoOn(h, before, p);
      AuditOfSum(Books(h.game, p), Heard(h, before), Told(Reached(h, before), ts[|ts| - 1]), p);
    }
  }

  lemma TurnKeepsBases(h: Hall, t: Turn, p: PlayerId)
    requires InOrder(h) && p in Took(h, t).game.players
    ensures p in h.game.players && Took(h, t).game.players[p].base == h.game.players[p].base
  {
    if t.Played? {
      MatchTheorems.NextKeepsRoster(h.game, t.event);
    }
  }

  lemma {:induction false} LifeKeepsBases(h: Hall, ts: seq<Turn>, p: PlayerId)
    requires InOrder(h) && Life(h, ts) && p in Reached(h, ts).game.players
    ensures p in h.game.players && Reached(h, ts).game.players[p].base == h.game.players[p].base
    decreases |ts|
  {
    if ts != [] {
      var before := ts[..|ts| - 1];
      LifeKeepsOrder(h, before);
      TurnKeepsBases(Reached(h, before), ts[|ts| - 1], p);
      LifeKeepsBases(h, before, p);
    }
  }

  /** Upgrades do not add up from game to game either: over the whole life of a room nobody ever drives anything
      but its own car with each upgrade at most once, so the 8-bit health of the messages stays exact. */
  lemma UpgradesNeverAddUp(h: Hall, ts: seq<Turn>, p: PlayerId)
    requires InOrder(h) && Life(h, ts) && p in Reached(h, ts).game.players && FromGarage(h.game.players)
    ensures p in h.game.players
    ensures var x := Reached(h, ts).game.players[p];
            && x.base == h.game.players[p].base && x.current == Upgraded(x.base, x.current.improvements)
            && Distinct(x.current.improvements) && x.current.life <= 250.0
  {
    LifeKeepsOrder(h, ts);
    LifeKeepsBases(h, ts, p);
    assert IsDressed(Reached(h, ts).game.players[p]);
    var car :| 0 <= car < CARS && CarFor(car) == Some(h.game.players[p].base);
    EveryCarIsOnOffer(car);
  }
}
