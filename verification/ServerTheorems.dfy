/** What holds over every run of the server, from its start on: of the lobby and the games of its rooms at once. */
module ServerTheorems {
  import opened Wrappers
  import opened Players
  import opened Races
  import opened Markets
  import opened MapConfigs
  import opened PhysicsWorlds
  import opened Grids
  import opened Arenas
  import opened MatchLedger
  import opened RoomLives
  import opened Servers
  import M = Matches
  import L = Lobbies
  import LobbyTheorems
  import PlayerNumbers

  lemma NewServerInOrder()
    ensures Inv(NEW_SERVER)
  {
    LobbyTheorems.StartsInOrder();
  }

  lemma {:induction false} RunKeepsInv(s: Server, acts: seq<Act>)
    requires Inv(s) && Runnable(s, acts)
    ensures Inv(Run(s, acts))
    decreases |acts|
  {
    if acts != [] {
      var before, a := Run(s, acts[..|acts| - 1]), acts[|acts| - 1];
      RunKeepsInv(s, acts[..|acts| - 1]);
      match a
      case Ask(e, file) => AskKeepsInv(before, e, file);
      case Tick(r, e) => TickKeepsHall(before.halls[r], e, before.lobby.rooms[r]);
    }
  }

  // ------------------------------------------------------------------ rooms and games

  ghost predicate IsMember(l: L.Lobby, r: L.RoomId, p: PlayerId) {
    exists c :: c in l.bindings && l.bindings[c] == L.Binding(r, p)
  }

  /** In every state of every run each room has one game, whose players are those that the room's members are bound
      to; a room that nobody has started has a game that waits, on an empty map; and everybody drives its own car
      with each upgrade at most once, so with 250 of health at most. */
  lemma EveryRoomHasItsGame(acts: seq<Act>, r: L.RoomId, p: PlayerId)
    requires Runnable(NEW_SERVER, acts)
    ensures var s := Run(NEW_SERVER, acts);
            && (r in s.halls <==> r in s.lobby.rooms)
            && (r in s.halls ==>
                  && (p in s.halls[r].game.players <==> IsMember(s.lobby, r, p))
                  && (!s.lobby.rooms[r].started ==> Waiting(s.halls[r])) && M.WellFormed(s.halls[r].game)
                  && (p in s.halls[r].game.players ==>
                        IsDressed(s.halls[r].game.players[p]) && s.halls[r].game.players[p].current.life <= 250.0))
  {
    var s := Run(NEW_SERVER, acts);
    NewServerInOrder();
    RunKeepsInv(NEW_SERVER, acts);
    if r in s.halls {
      MembersArePlayers(s.lobby, r, p);
      if p in s.halls[r].game.players {
        UpgradesNeverAddUp(s.halls[r], [], p);
      }
    }
  }

  lemma MembersArePlayers(l: L.Lobby, r: L.RoomId, p: PlayerId)
    requires L.Inv(l) && r in l.rooms
    ensures p in l.rooms[r].roster.names <==> IsMember(l, r, p)
  {
    var ms := L.Members(l.bindings, r);
    assert L.RoomOk(l.rooms[r], r, ms);
    if p in l.rooms[r].roster.names {
      var c :| c in ms && ms[c] == p;
      assert l.bindings[c] == L.Binding(r, p);
    }
    if IsMember(l, r, p) {
      var c :| c in l.bindings && l.bindings[c] == L.Binding(r, p);
      assert c in ms;
    }
  }

  lemma StartTakesHall(s: Server, e: L.Event, file: Option<GameMap>, l': L.Lobby, q: L.RoomId)
    requires L.Seated(s.lobby) && e.StartGame? && q in s.halls
    ensures HallAfter(s, e, file, l', q) == if Starts(s.lobby, e, q) then Took(s.halls[q], Begun(file)) else s.halls[q]
  {
    OneTurn(s.halls[q], Begun(file));
  }

  /** What a request for a start makes of the games. */
  ghost predicate StartsOne(s: Server, e: L.Event, file: Option<GameMap>, r: L.RoomId, s': Server) {
    && r in s.halls && s'.halls.Keys == s.halls.Keys && s'.halls[r] == Took(s.halls[r], Begun(file))
    && r in s'.lobby.rooms && s'.lobby.rooms[r].started
    && forall q | q in s.halls && q != r :: s'.halls[q] == s.halls[q]
  }

  lemma AskFields(s: Server, e: L.Event, file: Option<GameMap>)
    requires Legal(s, Ask(e, file))
    ensures var s', l' := Next(s, Ask(e, file)), L.Next(s.lobby, e);
            s'.lobby == l' && s'.halls.Keys == l'.rooms.Keys && forall q | q in l'.rooms :: s'.halls[q] == HallAfter(s, e, file, l', q)
  {
  }

  lemma StartTakesOne(s: Server, e: L.Event, file: Option<GameMap>, r: L.RoomId, s': Server)
    requires L.Seated(s.lobby) && s.halls.Keys == s.lobby.rooms.Keys == s'.lobby.rooms.Keys == s'.halls.Keys
    requires Starts(s.lobby, e, r) && s'.lobby.rooms[r].started
    requires forall q | q in s.halls :: s'.halls[q] == HallAfter(s, e, file, s'.lobby, q)
    ensures StartsOne(s, e, file, r, s')
  {
    forall q | q in s.halls
      ensures s'.halls[q] == if q == r then Took(s.halls[q], Begun(file)) else s.halls[q]
    {
      StartTakesHall(s, e, file, s'.lobby, q);
    }
  }

  lemma StartIsOneTurn(s: Server, e: L.Event, file: Option<GameMap>, r: L.RoomId)
    requires s.halls.Keys == s.lobby.rooms.Keys && Legal(s, Ask(e, file)) && Starts(s.lobby, e, r)
    ensures StartsOne(s, e, file, r, Next(s, Ask(e, file)))
  {
    StartedRooms(s.lobby, e);
    AskFields(s, e, file);
    StartTakesOne(s, e, file, r, Next(s, Ask(e, file)));
  }

  lemma WaitingGameBegins(h: Hall, file: Option<GameMap>)
    requires Waiting(h)
    ensures Took(h, Begun(file)).game.phase.Racing? <==> file.Some? && file.value.tracks != []
  {
    TookStart(h, file);
    if file.Some? {
      StartedRace(h.game, file.value.tracks);
    }
  }

  lemma UnstartedWaits(s: Server, e: L.Event, file: Option<GameMap>, r: L.RoomId)
    requires Inv(s) && Legal(s, Ask(e, file)) && r in L.Next(s.lobby, e).rooms
    requires r in s.lobby.rooms && !s.lobby.rooms[r].started && !Starts(s.lobby, e, r)
    ensures r in Next(s, Ask(e, file)).halls && Waiting(Next(s, Ask(e, file)).halls[r])
  {
    AskKeepsInv(s, e, file);
    RequestChanges(s.lobby, e, r);
    var s' := Next(s, Ask(e, file));
    assert HallOk(s'.halls[r], s'.lobby.rooms[r]);
  }

  lemma GameBeginsExactly(s: Server, a: Act, r: L.RoomId)
    requires Inv(s) && Legal(s, a) && r in s.lobby.rooms && !s.lobby.rooms[r].started && r in Next(s, a).lobby.rooms
    ensures r in Next(s, a).halls
    ensures Next(s, a).halls[r].game.phase.Racing?
            <==> a.Ask? && Starts(s.lobby, a.request, r) && a.file.Some? && a.file.value.tracks != []
  {
    assert HallOk(s.halls[r], s.lobby.rooms[r]);
    match a
    case Ask(e, file) =>
      if Starts(s.lobby, e, r) {
        StartIsOneTurn(s, e, file, r);
        WaitingGameBegins(s.halls[r], file);
      } else {
        UnstartedWaits(s, e, file, r);
      }
    case Tick(q, e) => TickKeepsHall(s.halls[q], e, s.lobby.rooms[q]);
  }

  /** The game of a room begins exactly with a request of its creator, made from inside, for a map that can be read
      and has a route. */
  lemma GamesBeginExactly(acts: seq<Act>, a: Act, r: L.RoomId)
    requires Runnable(NEW_SERVER, acts) && Legal(Run(NEW_SERVER, acts), a)
    requires r in Run(NEW_SERVER, acts).lobby.rooms && !Run(NEW_SERVER, acts).lobby.rooms[r].started
    requires r in Next(Run(NEW_SERVER, acts), a).lobby.rooms
    ensures r in Next(Run(NEW_SERVER, acts), a).halls
    ensures Next(Run(NEW_SERVER, acts), a).halls[r].game.phase.Racing?
            <==> a.Ask? && Starts(Run(NEW_SERVER, acts).lobby, a.request, r) && a.file.Some? && a.file.value.tracks != []
  {
    NewServerInOrder();
    RunKeepsInv(NEW_SERVER, acts);
    GameBeginsExactly(Run(NEW_SERVER, acts), a, r);
  }

  /** When the creator starts the room for the first time, on a map that has routes and spawn points, exactly the
      members of the room are put on the starting line of the first route, nobody with any time on its account;
      the match is one of those that the theorems on matches speak of, and no other room notices. */
  lemma MembersLineUp(acts: seq<Act>, c: L.ConnId, gm: GameMap, r: L.RoomId)
    requires Runnable(NEW_SERVER, acts) && gm.tracks != [] && HasSpots(gm.town)
    requires var s := Run(NEW_SERVER, acts); Starts(s.lobby, L.StartGame(c), r) && !s.lobby.rooms[r].started
    ensures Legal(Run(NEW_SERVER, acts), Ask(L.StartGame(c), Some(gm)))
    ensures var s := Run(NEW_SERVER, acts);
            var s' := Next(s, Ask(L.StartGame(c), Some(gm)));
            && s'.lobby.rooms[r].started && s'.halls.Keys == s.halls.Keys && r in s.halls
            && (forall q | q in s.halls && q != r :: s'.halls[q] == s.halls[q])
            && FirstStart(s'.halls[r], gm)
            && forall p :: p in s'.halls[r].game.players <==> IsMember(s.lobby, r, p)
  {
    var s := Run(NEW_SERVER, acts);
    NewServerInOrder();
    RunKeepsInv(NEW_SERVER, acts);
    L.InvMeansSeated(s.lobby);
    var h := s.halls[r];
    assert HallOk(h, s.lobby.rooms[r]);
    OneRoomOnly(s, L.StartGame(c), r, gm);
    StartIsOneTurn(s, L.StartGame(c), Some(gm), r);
    FirstStartLinesUp(h, gm);
    forall p
      ensures p in h.game.players <==> IsMember(s.lobby, r, p)
    {
      MembersArePlayers(s.lobby, r, p);
    }
  }

  lemma OneRoomOnly(s: Server, e: L.Event, r: L.RoomId, gm: GameMap)
    requires Starts(s.lobby, e, r) && L.Legal(s.lobby, e) && r in s.halls && HasSpots(gm.town)
    ensures Legal(s, Ask(e, Some(gm)))
  {
  }

  ghost predicate FirstStart(h: Hall, gm: GameMap) {
    && M.WellFormed(h.game) && Driving(h.game) && h.game.phase.Racing? && h.game.index == 0 && h.game.tracks == gm.tracks != []
    && h.game.race == M.StartRace(gm.tracks[0], h.game.players)
    && (forall p | p in h.game.players :: h.game.players[p].TotalTime() == 0)
    && AtTheLine(gm.town, h.game, h.world, gm.shapes)
  }

  lemma FirstStartLinesUp(h: Hall, gm: GameMap)
    requires InOrder(h) && Waiting(h) && gm.tracks != [] && HasSpots(gm.town)
    ensures FirstStart(Took(h, Begun(Some(gm))), gm) && Took(h, Begun(Some(gm))).game.players == h.game.players
  {
    TookStart(h, Some(gm));
    StartedMatchIsWellFormed(h.game, gm.tracks);
    StartLinesUp(gm.town, h.game, h.world, gm.tracks, gm.shapes);
    StartedRace(h.game, gm.tracks);
  }

  // ------------------------------------------------------------------ the life of a started room

  /** What an act means for the game of room `r`. */
  ghost function TurnsIn(s: Server, a: Act, r: L.RoomId): seq<Turn> {
    match a
    case Ask(e, file) => TurnsOf(s.lobby, e, file, r)
    case Tick(q, e) => if q == r then [Played(e)] else []
  }

  ghost function TurnsDuring(s: Server, acts: seq<Act>, r: L.RoomId): seq<Turn>
    requires Runnable(s, acts)
    decreases |acts|
  {
    if acts == [] then []
    else
      var before := acts[..|acts| - 1];
      TurnsDuring(s, before, r) + TurnsIn(Run(s, before), acts[|acts| - 1], r)
  }

  ghost predicate IsStarted(s: Server, r: L.RoomId) { r in s.halls && r in s.lobby.rooms && s.lobby.rooms[r].started }

  ghost predicate StartedThroughout(s: Server, acts: seq<Act>, r: L.RoomId)
    requires Runnable(s, acts)
    decreases |acts|
  {
    IsStarted(Run(s, acts), r) && (acts == [] || StartedThroughout(s, acts[..|acts| - 1], r))
  }

  lemma {:induction false} LifeOfSum(h: Hall, x: seq<Turn>, y: seq<Turn>)
    ensures Reached(h, x + y) == Reached(Reached(h, x), y)
    ensures Life(h, x) ==> (Life(h, x + y) <==> Life(Reached(h, x), y))
    decreases |y|
  {
    if y == [] {
      assert x + y == x;
    } else {
      LifeOfSum(h, x, y[..|y| - 1]);
      assert (x + y)[..|x + y| - 1] == x + y[..|y| - 1];
    }
  }

  lemma StartedRoomsTakeNobody(s: Server, e: L.Event, file: Option<GameMap>, l': L.Lobby, r: L.RoomId)
    requires L.Seated(s.lobby) && r in s.halls && r in l'.rooms && l'.rooms[r].started
    requires RoomChanges(s.lobby, e, l', r)
    ensures !Opens(s.lobby, e, r)
    ensures HallAfter(s, e, file, l', r) == Reached(s.halls[r], TurnsOf(s.lobby, e, file, r))
  {
  }

  lemma RequestIsTurns(s: Server, e: L.Event, file: Option<GameMap>, r: L.RoomId)
    requires Inv(s) && Legal(s, Ask(e, file)) && IsStarted(s, r) && IsStarted(Next(s, Ask(e, file)), r)
    ensures Life(s.halls[r], TurnsOf(s.lobby, e, file, r))
    ensures HallAfter(s, e, file, L.Next(s.lobby, e), r) == Reached(s.halls[r], TurnsOf(s.lobby, e, file, r))
  {
    var l' := L.Next(s.lobby, e);
    RequestChanges(s.lobby, e, r);
    LeaversAreIn(s.lobby, e, r);
    StartedRoomsTakeNobody(s, e, file, l', r);
    StayingHallOk(s, e, file, l', r);
  }

  lemma ActIsTurns(s: Server, a: Act, r: L.RoomId)
    requires Inv(s) && Legal(s, a) && IsStarted(s, r) && IsStarted(Next(s, a), r)
    ensures Life(s.halls[r], TurnsIn(s, a, r)) && Next(s, a).halls[r] == Reached(s.halls[r], TurnsIn(s, a, r))
  {
    match a
    case Ask(e, file) => RequestIsTurns(s, e, file, r);
    case Tick(q, e) => OneTurn(s.halls[r], Played(e));
  }

  /** The game of a started room lives a life of its own: over any run during which the room stays started, it goes
      through the ticks of its loop, the departures of its members and the starts of its creator, in that order,
      and nothing else touches it.  So everything that holds over the life of a game holds on the server. */
  lemma {:induction false} StartedRoomsLiveTheirLives(s: Server, acts: seq<Act>, r: L.RoomId)
    requires Inv(s) && Runnable(s, acts) && StartedThroughout(s, acts, r)
    ensures IsStarted(s, r) && Life(s.halls[r], TurnsDuring(s, acts, r))
    ensures Run(s, acts).halls[r] == Reached(s.halls[r], TurnsDuring(s, acts, r))
    decreases |acts|
  {
    if acts != [] {
      var before := acts[..|acts| - 1];
      StartedRoomsLiveTheirLives(s, before, r);
      RunKeepsInv(s, before);
      ActIsTurns(Run(s, before), acts[|acts| - 1], r);
      LifeOfSum(s.halls[r], TurnsDuring(s, before, r), TurnsIn(Run(s, before), acts[|acts| - 1], r));
    }
  }

  /** On the server the ledger of a room goes on over all the games that are started in it, and the index of the
      race never falls. */
  lemma TotalsGoOnInTheServer(s: Server, acts: seq<Act>, r: L.RoomId, p: PlayerId)
    requires Inv(s) && Runnable(s, acts) && StartedThroughout(s, acts, r) && p in Run(s, acts).halls[r].game.players
    ensures IsStarted(s, r) && p in s.halls[r].game.players
    ensures Audit(Books(s.halls[r].game, p), Heard(s.halls[r], TurnsDuring(s, acts, r)), p)
            == Books(Run(s, acts).halls[r].game, p)
    ensures s.halls[r].game.index <= Run(s, acts).halls[r].game.index
  {
    StartedRoomsLiveTheirLives(s, acts, r);
    assert HallOk(s.halls[r], s.lobby.rooms[r]);
    TotalsGoOn(s.halls[r], TurnsDuring(s, acts, r), p);
    IndexNeverFalls(s.halls[r], TurnsDuring(s, acts, r));
  }

  // ------------------------------------------------------------------ a player where an NPC should be

  /** Requests that come without the file of a map. */
  function Asked(es: seq<L.Event>): (acts: seq<Act>)
    ensures |acts| == |es|
  {
    seq(|es|, i requires 0 <= i < |es| => Ask(es[i], None))
  }

  lemma {:induction false} LobbyRunsAreServerRuns(es: seq<L.Event>)
    requires LobbyTheorems.Runnable(L.NEW_LOBBY, es)
    ensures Runnable(NEW_SERVER, Asked(es))
    ensures Run(NEW_SERVER, Asked(es)).lobby == LobbyTheorems.Run(L.NEW_LOBBY, es)
    decreases |es|
  {
    if es != [] {
      var n := |es| - 1;
      LobbyRunsAreServerRuns(es[..n]);
      assert Asked(es)[..n] == Asked(es[..n]);
    }
  }

  /** Player 10001 has the body of NPC 0. */
  const STAND_IN: PlayerId := 10001

  ghost predicate StandsIn(h: Hall, gm: GameMap)
    requires gm.tracks != [] && gm.town.npcs != []
  {
    var ids, line := Roster(h.game.players.Keys), gm.town.Line(gm.tracks[0].routeId);
    && h.game.phase.Racing? && STAND_IN in ids && line != []
    && OneBody(h.world, STAND_IN) && AtSpot(h.world, NpcSpot(gm.town.npcs, 0))
    && forall i | 0 <= i < |ids| && ids[i] == STAND_IN :: !AtSpot(h.world, PlayerSpot(ids, line, i))
  }

  lemma StartMakesAStandIn(h: Hall, gm: GameMap)
    requires Sound(h.world) && h.game.index == 0 && STAND_IN in h.game.players
    requires |gm.tracks| == 1 && HasSpots(gm.town) && |gm.town.npcs| == 1
    requires forall spot | spot in gm.town.Line(gm.tracks[0].routeId) :: spot.x != gm.town.npcs[0].x
    ensures StandsIn(Restarted(h, gm), gm)
  {
    var ids, line, track := Roster(h.game.players.Keys), gm.town.Line(gm.tracks[0].routeId), gm.tracks[0];
    assert gm.tracks == [track] && NpcBody(0) == STAND_IN;
    RosterIsInOrder(h.game.players.Keys);
    StartedRace(h.game, gm.tracks);
    forall i | 0 <= i < |ids| && ids[i] == STAND_IN
      ensures OneBody(Restarted(h, gm).world, STAND_IN) && AtSpot(Restarted(h, gm).world, NpcSpot(gm.town.npcs, 0))
      ensures !AtSpot(Restarted(h, gm).world, PlayerSpot(ids, line, i))
    {
      assert line[i % |line|] in line;
      PlayerLosesItsSpot(h.game, h.world, track, gm.town, gm.shapes, i);
    }
  }

  /** The room that the two clients have opened is ready to be started. */
  lemma PairCanStart(l: L.Lobby, first: L.ConnId, second: L.ConnId)
    requires PlayerNumbers.Pair(l, first, second, 10000)
    ensures Starts(l, L.StartGame(1), 1) && !l.rooms[1].started && IsMember(l, 1, STAND_IN)
  {
    assert l.bindings[second] == L.Binding(1, STAND_IN);
  }

  lemma StandInStarts(s: Server, gm: GameMap)
    requires Inv(s) && Legal(s, Ask(L.StartGame(1), Some(gm)))
    requires Starts(s.lobby, L.StartGame(1), 1) && !s.lobby.rooms[1].started && IsMember(s.lobby, 1, STAND_IN)
    requires |gm.tracks| == 1 && HasSpots(gm.town) && |gm.town.npcs| == 1
    requires forall spot | spot in gm.town.Line(gm.tracks[0].routeId) :: spot.x != gm.town.npcs[0].x
    ensures var s' := Next(s, Ask(L.StartGame(1), Some(gm))); 1 in s'.halls && StandsIn(s'.halls[1], gm)
  {
    assert HallOk(s.halls[1], s.lobby.rooms[1]);
    MembersArePlayers(s.lobby, 1, STAND_IN);
    StartIsOneTurn(s, L.StartGame(1), Some(gm), 1);
    TookStart(s.halls[1], Some(gm));
    StartMakesAStandIn(s.halls[1], gm);
  }

  lemma OneMoreAct(s: Server, acts: seq<Act>, a: Act)
    requires Runnable(s, acts) && Legal(Run(s, acts), a)
    ensures Runnable(s, acts + [a]) && Run(s, acts + [a]) == Next(Run(s, acts), a)
  {
    var all := acts + [a];
    assert all[..|all| - 1] == acts && all[|all| - 1] == a;
  }

  /** It can come to the point where a player has the body of an NPC: two clients who leave their room and come back
      in turn get as far as player 10001, and when their room is then started on a map with an NPC, that player
      stands at the NPC's place and not at its own. */
  lemma PlayerStandsInForAnNpc(gm: GameMap) returns (acts: seq<Act>)
    requires |gm.tracks| == 1 && HasSpots(gm.town) && |gm.town.npcs| == 1
    requires forall spot | spot in gm.town.Line(gm.tracks[0].routeId) :: spot.x != gm.town.npcs[0].x
    ensures Runnable(NEW_SERVER, acts) && 1 in Run(NEW_SERVER, acts).halls && StandsIn(Run(NEW_SERVER, acts).halls[1], gm)
  {
    var es, l, first, second := PlayerNumbers.NumbersGrow(10000);
    LobbyRunsAreServerRuns(es);
    PairCanStart(l, first, second);
    NewServerInOrder();
    RunKeepsInv(NEW_SERVER, Asked(es));
    MembersLineUp(Asked(es), 1, gm, 1);
    StandInStarts(Run(NEW_SERVER, Asked(es)), gm);
    OneMoreAct(NEW_SERVER, Asked(es), Ask(L.StartGame(1), Some(gm)));
    acts := Asked(es) + [Ask(L.StartGame(1), Some(gm))];
  }
}
