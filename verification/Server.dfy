/** The lobby together with the games of its rooms: what the handlers of server/monitor_lobby.cpp and
    server/room_manager.cpp do to the games, and the game loops that run between them. */
module Servers {
  import opened Wrappers
  import opened Players
  import opened Garages
  import opened Markets
  import opened Races
  import opened PhysicsWorlds
  import opened Grids
  import opened Arenas
  import opened MatchLedger
  import opened RoomLives
  import M = Matches
  import L = Lobbies
  import LobbyTheorems
  import MatchTheorems
  import PlayerNumbers

  datatype Server = Server(lobby: L.Lobby, halls: map<L.RoomId, Hall>)

  /** A client's request or the reaper, with what the file of the map holds should the request be a start; or a
      tick of one room's game loop. */
  datatype Act = Ask(request: L.Event, file: Option<GameMap>) | Tick(room: L.RoomId, event: M.Event)

  const NEW_HALL := Hall(M.Match(map[], [], 0, M.NO_RACE, M.Lobby, map[], 0), Town(map[], "", []), EMPTY_WORLD)

  const NEW_SERVER := Server(L.NEW_LOBBY, map[])

  // ------------------------------------------------------------------ what a request does to a room's game

  ghost predicate IsIn(l: L.Lobby, c: L.ConnId, r: L.RoomId) { c in l.bindings && l.bindings[c].room == r }

  /** The request is a start of room `r` that is not turned away. */
  ghost predicate Starts(l: L.Lobby, e: L.Event, r: L.RoomId) {
    e.StartGame? && IsIn(l, e.conn, r) && r in l.rooms && l.rooms[r].creator == e.conn
  }

  ghost predicate Opens(l: L.Lobby, e: L.Event, r: L.RoomId)
    requires L.Seated(l)
  {
    e.CreateRoom? && r == L.NextRoomId(L.Leave(l, e.conn))
  }

  function CarChosen(l: L.Lobby, c: L.ConnId): nat { if c in l.cars then l.cars[c] else 0 }

  /** The player that comes into room `r`, and with which car. */
  ghost function Arrival(l: L.Lobby, e: L.Event, l': L.Lobby, r: L.RoomId): Option<(PlayerId, nat)> {
    if (e.CreateRoom? || (e.JoinRoom? && e.conn !in l.bindings)) && IsIn(l', e.conn, r)
    then Some((l'.bindings[e.conn].player, CarChosen(l, e.conn))) else None
  }

  /** The players of the dead connections, in the order of the client list. */
  ghost function DeadPlayers(clients: seq<L.Handler>, ms: map<L.ConnId, PlayerId>, dead: set<L.ConnId>): seq<PlayerId> {
    if clients == [] then []
    else
      var c := clients[|clients| - 1].id;
      DeadPlayers(clients[..|clients| - 1], ms, dead) + if c in dead && c in ms then [ms[c]] else []
  }

  /** The players that leave room `r`, in order. */
  ghost function Leavers(l: L.Lobby, e: L.Event, r: L.RoomId): seq<PlayerId> {
    if (e.LeaveRoom? || e.CreateRoom?) && IsIn(l, e.conn, r) then [l.bindings[e.conn].player]
    else if e.Reap? && r in l.rooms then DeadPlayers(l.rooms[r].clients, L.Members(l.bindings, r), e.dead)
    else []
  }

  function Departures(ps: seq<PlayerId>): (ts: seq<Turn>)
    ensures |ts| == |ps|
  {
    seq(|ps|, i requires 0 <= i < |ps| => Played(M.Event.Leave(ps[i])))
  }

  ghost function TurnsOf(l: L.Lobby, e: L.Event, file: Option<GameMap>, r: L.RoomId): seq<Turn> {
    if Starts(l, e, r) then [Begun(file)] else Departures(Leavers(l, e, r))
  }

  ghost function WithArrival(h: Hall, arrival: Option<(PlayerId, nat)>): Hall {
    match arrival
    case None => h
    case Some(who) => h.(game := h.game.(players := Enter(h.game.players, who.0, who.1)))
  }

  // ------------------------------------------------------------------ steps

  ghost predicate Legal(s: Server, a: Act) {
    match a
    case Ask(e, file) =>
      L.Legal(s.lobby, e) && forall r | r in s.halls && Starts(s.lobby, e, r) :: Allowed(s.halls[r], Begun(file))
    case Tick(r, e) => r in s.halls && e.Tick? && M.Legal(s.halls[r].game, e)
  }

  ghost function HallAfter(s: Server, e: L.Event, file: Option<GameMap>, l': L.Lobby, r: L.RoomId): Hall
    requires L.Seated(s.lobby)
  {
    WithArrival(if r in s.halls && !Opens(s.lobby, e, r) then Reached(s.halls[r], TurnsOf(s.lobby, e, file, r)) else NEW_HALL,
            Arrival(s.lobby, e, l', r))
  }

  ghost function Next(s: Server, a: Act): Server
    requires Legal(s, a)
  {
    match a
    case Ask(e, file) =>
      var l' := L.Next(s.lobby, e);
      Server(l', map r | r in l'.rooms :: HallAfter(s, e, file, l', r))
    case Tick(r, e) => s.(halls := s.halls[r := Took(s.halls[r], Played(e))])
  }

  ghost predicate Runnable(s: Server, acts: seq<Act>)
    decreases |acts|, 0
  {
    acts == [] || (Runnable(s, acts[..|acts| - 1]) && Legal(Run(s, acts[..|acts| - 1]), acts[|acts| - 1]))
  }

  ghost function Run(s: Server, acts: seq<Act>): Server
    requires Runnable(s, acts)
    decreases |acts|, 1
  {
    if acts == [] then s else Next(Run(s, acts[..|acts| - 1]), acts[|acts| - 1])
  }

  // ------------------------------------------------------------------ the lobby's side of a request

  ghost function Came(arrival: Option<(PlayerId, nat)>): set<PlayerId> {
    if arrival == None then {} else {arrival.value.0}
  }

  ghost function Gone(ps: seq<PlayerId>): set<PlayerId> { set p | p in ps }

  /** How the player table and the mark of a room change with a request. */
  ghost predicate RoomChanges(l: L.Lobby, e: L.Event, l': L.Lobby, r: L.RoomId)
    requires L.Seated(l) && r in l'.rooms
  {
    var room', came := l'.rooms[r], Came(Arrival(l, e, l', r));
    && (came != {} ==> !room'.started && CarChosen(l, e.conn) < L.CARS)
    && if Opens(l, e, r) then !room'.started && room'.roster.names.Keys == came
       else
         && r in l.rooms && room'.started == (l.rooms[r].started || Starts(l, e, r))
         && room'.roster.names.Keys == l.rooms[r].roster.names.Keys - Gone(Leavers(l, e, r)) + came
         && came !! l.rooms[r].roster.names.Keys
  }

  lemma LeaveChanges(l: L.Lobby, c: L.ConnId, r: L.RoomId)
    requires L.Seated(l) && r in L.Leave(l, c).rooms
    ensures r in l.rooms && L.Leave(l, c).rooms[r].started == l.rooms[r].started
    ensures L.Leave(l, c).rooms[r].roster.names.Keys ==
              l.rooms[r].roster.names.Keys - if IsIn(l, c, r) then {l.bindings[c].player} else {}
  {
    if IsIn(l, c, r) {
      PlayerNumbers.LeaveStays(l, c, r, l.bindings[c].player);
    }
  }

  lemma LeaveRoomChanges(l: L.Lobby, c: L.ConnId, r: L.RoomId)
    requires L.Seated(l) && r in L.Leave(l, c).rooms
    ensures RoomChanges(l, L.LeaveRoom(c), L.Leave(l, c), r)
  {
    LeaveChanges(l, c, r);
    assert Gone([]) == {};
    if IsIn(l, c, r) {
      assert Gone([l.bindings[c].player]) == {l.bindings[c].player};
    }
  }

  ghost predicate Admits(l: L.Lobby, c: L.ConnId, q: L.RoomId) { L.CanJoin(l, c, q) && CarChosen(l, c) < L.CARS }

  function NameChosen(l: L.Lobby, c: L.ConnId): string { if c in l.names then l.names[c] else "" }

  lemma JoinAdmits(l: L.Lobby, c: L.ConnId, q: L.RoomId)
    requires Admits(l, c, q)
    ensures var room := L.AddMember(l.rooms[q], c, NameChosen(l, c));
            && L.Join(l, c, q).bindings == l.bindings[c := L.Binding(q, room.roster.idIndex)]
            && L.Join(l, c, q).rooms == l.rooms[q := room]
  {
  }

  lemma JoinRefuses(l: L.Lobby, c: L.ConnId, q: L.RoomId)
    requires !Admits(l, c, q)
    ensures L.Join(l, c, q).bindings == l.bindings && L.Join(l, c, q).rooms == l.rooms
  {
  }

  lemma AddMemberAdds(room: L.Room, c: L.ConnId, name: string)
    ensures var room' := L.AddMember(room, c, name);
            && room'.started == room.started && room'.roster.idIndex !in room.roster.names
            && room'.roster.names.Keys == room.roster.names.Keys + {room'.roster.idIndex}
  {
  }

  /** What a join, taken or not, does to room `r`. */
  ghost predicate JoinDoes(l: L.Lobby, c: L.ConnId, l': L.Lobby, r: L.RoomId)
    requires r in l'.rooms
  {
    && r in l.rooms && l'.rooms[r].started == l.rooms[r].started
    && (IsIn(l', c, r) ==> !l'.rooms[r].started && CarChosen(l, c) < L.CARS)
    && (IsIn(l', c, r) ==> l'.bindings[c].player !in l.rooms[r].roster.names)
    && l'.rooms[r].roster.names.Keys ==
         l.rooms[r].roster.names.Keys + if IsIn(l', c, r) then {l'.bindings[c].player} else {}
  }

  lemma AdmissionDoes(l: L.Lobby, c: L.ConnId, q: L.RoomId, room': L.Room, l': L.Lobby, r: L.RoomId)
    requires Admits(l, c, q) && c !in l.bindings && room'.roster.idIndex !in l.rooms[q].roster.names
    requires l'.bindings == l.bindings[c := L.Binding(q, room'.roster.idIndex)]
    requires l'.rooms == l.rooms[q := room'] && r in l'.rooms && room'.started == l.rooms[q].started
    requires room'.roster.names.Keys == l.rooms[q].roster.names.Keys + {room'.roster.idIndex}
    ensures JoinDoes(l, c, l', r)
  {
  }

  lemma AdmittedDoes(l: L.Lobby, c: L.ConnId, q: L.RoomId, r: L.RoomId)
    requires r in L.Join(l, c, q).rooms && c !in l.bindings && Admits(l, c, q)
    ensures JoinDoes(l, c, L.Join(l, c, q), r)
  {
    JoinAdmits(l, c, q);
    AddMemberAdds(l.rooms[q], c, NameChosen(l, c));
    AdmissionDoes(l, c, q, L.AddMember(l.rooms[q], c, NameChosen(l, c)), L.Join(l, c, q), r);
  }

  lemma JoinChanges(l: L.Lobby, c: L.ConnId, q: L.RoomId, r: L.RoomId)
    requires r in L.Join(l, c, q).rooms && c !in l.bindings
    ensures JoinDoes(l, c, L.Join(l, c, q), r)
  {
    if Admits(l, c, q) {
      AdmittedDoes(l, c, q, r);
    } else {
      JoinRefuses(l, c, q);
    }
  }

  lemma JoinIgnored(l: L.Lobby, c: L.ConnId, q: L.RoomId)
    requires L.Inv(l) && c in l.bindings
    ensures L.Join(l, c, q) == l
  {
  }

  lemma JoinArrival(l: L.Lobby, c: L.ConnId, q: L.RoomId, l': L.Lobby, r: L.RoomId)
    requires c !in l.bindings
    ensures Came(Arrival(l, L.JoinRoom(c, q), l', r)) == if IsIn(l', c, r) then {l'.bindings[c].player} else {}
  {
  }

  /** A room that the request did not open. */
  lemma StayingRoomChanges(l: L.Lobby, e: L.Event, l': L.Lobby, r: L.RoomId, came: set<PlayerId>)
    requires L.Seated(l) && !e.CreateRoom? && !e.StartGame? && r in l.rooms && r in l'.rooms
    requires Came(Arrival(l, e, l', r)) == came && Leavers(l, e, r) == [] && l'.rooms[r].started == l.rooms[r].started
    requires came != {} ==> !l'.rooms[r].started && CarChosen(l, e.conn) < L.CARS
    requires l'.rooms[r].roster.names.Keys == l.rooms[r].roster.names.Keys + came && came !! l.rooms[r].roster.names.Keys
    ensures RoomChanges(l, e, l', r)
  {
    assert Gone([]) == {};
  }

  lemma QuietRooms(l: L.Lobby, e: L.Event, r: L.RoomId)
    requires L.Seated(l) && (e.Connect? || e.SetName? || e.ChooseCar? || e.Send?) && r in L.Next(l, e).rooms
    ensures r in l.rooms && L.Next(l, e).rooms[r].started == l.rooms[r].started
    ensures L.Next(l, e).rooms[r].roster.names.Keys == l.rooms[r].roster.names.Keys
  {
  }

  lemma QuietRoomChanges(l: L.Lobby, e: L.Event, r: L.RoomId)
    requires L.Seated(l) && (e.Connect? || e.SetName? || e.ChooseCar? || e.Send?) && r in L.Next(l, e).rooms
    ensures RoomChanges(l, e, L.Next(l, e), r)
  {
    QuietRooms(l, e, r);
    StayingRoomChanges(l, e, L.Next(l, e), r, {});
  }

  lemma StartedRooms(l: L.Lobby, e: L.Event)
    requires L.Seated(l) && e.StartGame?
    ensures L.Next(l, e).rooms.Keys == l.rooms.Keys
    ensures forall r | r in l.rooms :: L.Next(l, e).rooms[r].roster == l.rooms[r].roster
    ensures forall r | r in l.rooms :: L.Next(l, e).rooms[r].started == (l.rooms[r].started || Starts(l, e, r))
  {
  }

  lemma StartedRoomChanges(l: L.Lobby, e: L.Event, r: L.RoomId)
    requires L.Seated(l) && e.StartGame? && r in L.Next(l, e).rooms
    ensures RoomChanges(l, e, L.Next(l, e), r)
  {
    StartedRooms(l, e);
    assert Gone([]) == {};
  }

  lemma JoinRoomChanges(l: L.Lobby, c: L.ConnId, q: L.RoomId, r: L.RoomId)
    requires L.Seated(l) && c !in l.bindings && r in L.Join(l, c, q).rooms
    ensures RoomChanges(l, L.JoinRoom(c, q), L.Join(l, c, q), r)
  {
    var l' := L.Join(l, c, q);
    JoinChanges(l, c, q, r);
    JoinArrival(l, c, q, l', r);
    StayingRoomChanges(l, L.JoinRoom(c, q), l', r, if IsIn(l', c, r) then {l'.bindings[c].player} else {});
  }

  lemma IdleJoinChanges(l: L.Lobby, c: L.ConnId, q: L.RoomId, r: L.RoomId)
    requires L.Seated(l) && c in l.bindings && r in l.rooms
    ensures RoomChanges(l, L.JoinRoom(c, q), l, r)
  {
    StayingRoomChanges(l, L.JoinRoom(c, q), l, r, {});
  }

  lemma OpenedRoomChanges(l: L.Lobby, c: L.ConnId, l': L.Lobby, r: L.RoomId)
    requires L.Seated(l) && r == L.NextRoomId(L.Leave(l, c)) && r in l'.rooms && !l'.rooms[r].started
    requires IsIn(l', c, r) ==> CarChosen(l, c) < L.CARS
    requires l'.rooms[r].roster.names.Keys == if IsIn(l', c, r) then {l'.bindings[c].player} else {}
    ensures RoomChanges(l, L.CreateRoom(c), l', r)
  {
  }

  lemma OtherRoomChanges(l: L.Lobby, c: L.ConnId, l': L.Lobby, r: L.RoomId)
    requires L.Seated(l) && r != L.NextRoomId(L.Leave(l, c)) && r in l.rooms && r in l'.rooms && !IsIn(l', c, r)
    requires l'.rooms[r].started == l.rooms[r].started
    requires l'.rooms[r].roster.names.Keys ==
               l.rooms[r].roster.names.Keys - if IsIn(l, c, r) then {l.bindings[c].player} else {}
    ensures RoomChanges(l, L.CreateRoom(c), l', r)
  {
    assert Gone([]) == {};
    if IsIn(l, c, r) {
      assert Gone([l.bindings[c].player]) == {l.bindings[c].player};
    }
  }

  lemma NewRoomFields(l: L.Lobby, c: L.ConnId)
    ensures var open, rid := L.NewRoom(l, c), L.NextRoomId(l);
            && open.bindings == l.bindings && open.cars == l.cars && open.rooms.Keys == l.rooms.Keys + {rid}
            && (forall r | r in l.rooms && r != rid :: open.rooms[r] == l.rooms[r])
            && !open.rooms[rid].started && open.rooms[rid].roster.names == map[]
  {
  }

  lemma LeaveUnbinds(l: L.Lobby, c: L.ConnId)
    requires L.Seated(l)
    ensures c !in L.Leave(l, c).bindings && L.Leave(l, c).cars == l.cars
  {
  }

  lemma JoinBindsThere(l: L.Lobby, c: L.ConnId, q: L.RoomId, r: L.RoomId)
    requires c !in l.bindings && r != q
    ensures !IsIn(L.Join(l, c, q), c, r)
  {
    if Admits(l, c, q) {
      JoinAdmits(l, c, q);
    } else {
      JoinRefuses(l, c, q);
    }
  }

  lemma CreateRoomChanges(l: L.Lobby, c: L.ConnId, r: L.RoomId)
    requires L.Seated(l) && r in L.Create(l, c).rooms
    ensures RoomChanges(l, L.CreateRoom(c), L.Create(l, c), r)
  {
    var left := L.Leave(l, c);
    var open, rid, l' := L.NewRoom(left, c), L.NextRoomId(left), L.Create(l, c);
    LeaveUnbinds(l, c);
    NewRoomFields(left, c);
    JoinChanges(open, c, rid, r);
    if r == rid {
      OpenedRoomChanges(l, c, l', r);
    } else {
      JoinBindsThere(open, c, rid, r);
      LeaveChanges(l, c, r);
      OtherRoomChanges(l, c, l', r);
    }
  }

  ghost predicate Apart(ps: seq<PlayerId>) { forall i, j | 0 <= i < j < |ps| :: ps[i] != ps[j] }

  /** The players of those of the connections that are dead. */
  ghost function Dead(cs: set<L.ConnId>, ms: map<L.ConnId, PlayerId>, dead: set<L.ConnId>): set<PlayerId> {
    set c | c in cs && c in ms && c in dead :: ms[c]
  }

  lemma OneMoreDead(cs: set<L.ConnId>, c: L.ConnId, ms: map<L.ConnId, PlayerId>, dead: set<L.ConnId>)
    requires c in cs && c in ms && forall a, b | a in ms && b in ms && a != b :: ms[a] != ms[b]
    ensures Dead(cs, ms, dead) == Dead(cs - {c}, ms, dead) + if c in dead then {ms[c]} else {}
    ensures ms[c] !in Dead(cs - {c}, ms, dead)
  {
  }

  lemma OneMoreGone(ps: seq<PlayerId>, p: PlayerId)
    ensures Gone(ps + [p]) == Gone(ps) + {p}
    ensures Apart(ps) && p !in Gone(ps) ==> Apart(ps + [p])
  {
    if Apart(ps) && p !in Gone(ps) {
      assert forall i | 0 <= i < |ps| :: ps[i] in Gone(ps);
    }
  }

  /** Going through the client list finds the players of the dead, each of them once. */
  lemma {:induction false} TheDeadAreFound(clients: seq<L.Handler>, cs: set<L.ConnId>, ms: map<L.ConnId, PlayerId>,
                                           dead: set<L.ConnId>)
    requires L.ClientsOk(clients, cs) && cs <= ms.Keys
    requires forall c, d | c in ms && d in ms && c != d :: ms[c] != ms[d]
    ensures Gone(DeadPlayers(clients, ms, dead)) == Dead(cs, ms, dead) && Apart(DeadPlayers(clients, ms, dead))
    decreases |clients|
  {
    if clients == [] {
      forall c: L.ConnId
        ensures c in cs <==> L.Handler(c) in clients
      {
        assert L.Handler(c).id == c;
      }
      assert cs == {} && Gone([]) == {};
    } else {
      var n := |clients| - 1;
      var c := clients[n].id;
      assert clients[n] in clients;
      ClientsButLast(clients, cs);
      TheDeadAreFound(clients[..n], cs - {c}, ms, dead);
      OneMoreDead(cs, c, ms, dead);
      OneMoreGone(DeadPlayers(clients[..n], ms, dead), ms[c]);
      assert DeadPlayers(clients[..n], ms, dead) + [] == DeadPlayers(clients[..n], ms, dead);
    }
  }

  lemma ClientsButLast(clients: seq<L.Handler>, cs: set<L.ConnId>)
    requires L.ClientsOk(clients, cs) && clients != []
    ensures L.ClientsOk(clients[..|clients| - 1], cs - {clients[|clients| - 1].id})
  {
    var n := |clients| - 1;
    var last := clients[n];
    assert clients == clients[..n] + [last];
    forall h: L.Handler
      ensures h in clients[..n] <==> h.id in cs - {last.id}
    {
      assert h in clients <==> h == last || h in clients[..n];
    }
  }

  lemma TheDeadOfARoom(room: L.Room, r: L.RoomId, ms: map<L.ConnId, PlayerId>, dead: set<L.ConnId>)
    requires L.RoomOk(room, r, ms)
    ensures Gone(DeadPlayers(room.clients, ms, dead)) == Dead(ms.Keys, ms, dead)
    ensures Apart(DeadPlayers(room.clients, ms, dead))
  {
    TheDeadAreFound(room.clients, ms.Keys, ms, dead);
  }

  lemma RoomAfterReaping(l: L.Lobby, dead: set<L.ConnId>, r: L.RoomId)
    requires r in L.ReapAll(l, dead).rooms
    ensures r in l.rooms && L.ReapAll(l, dead).rooms[r] == L.ReapedRoom(l.rooms[r], L.Members(l.bindings, r), dead)
  {
  }

  lemma LeaversAreTheDead(l: L.Lobby, dead: set<L.ConnId>, r: L.RoomId)
    requires r in l.rooms && L.RoomOk(l.rooms[r], r, L.Members(l.bindings, r))
    ensures Gone(Leavers(l, L.Reap(dead), r)) == Dead(L.Members(l.bindings, r).Keys, L.Members(l.bindings, r), dead)
    ensures Apart(Leavers(l, L.Reap(dead), r))
  {
    TheDeadOfARoom(l.rooms[r], r, L.Members(l.bindings, r), dead);
  }

  lemma ReapedRoomChanges(l: L.Lobby, dead: set<L.ConnId>, l': L.Lobby, r: L.RoomId)
    requires L.Seated(l) && r in l.rooms && r in l'.rooms
    requires l'.rooms[r] == L.ReapedRoom(l.rooms[r], L.Members(l.bindings, r), dead)
    requires Gone(Leavers(l, L.Reap(dead), r)) == Dead(L.Members(l.bindings, r).Keys, L.Members(l.bindings, r), dead)
    ensures RoomChanges(l, L.Reap(dead), l', r)
  {
  }

  lemma ReapChanges(l: L.Lobby, dead: set<L.ConnId>, r: L.RoomId)
    requires L.Seated(l) && r in L.ReapAll(l, dead).rooms && L.RoomsOk(l.rooms, l.bindings)
    ensures RoomChanges(l, L.Reap(dead), L.ReapAll(l, dead), r)
    ensures Apart(Leavers(l, L.Reap(dead), r))
  {
    RoomAfterReaping(l, dead, r);
    LeaversAreTheDead(l, dead, r);
    ReapedRoomChanges(l, dead, L.ReapAll(l, dead), r);
  }

  lemma FewLeavers(l: L.Lobby, e: L.Event, r: L.RoomId)
    requires !e.Reap?
    ensures Apart(Leavers(l, e, r))
  {
  }

  lemma JoinRequestChanges(l: L.Lobby, c: L.ConnId, q: L.RoomId, r: L.RoomId)
    requires L.Inv(l) && L.Seated(l) && r in L.Join(l, c, q).rooms
    ensures RoomChanges(l, L.JoinRoom(c, q), L.Join(l, c, q), r)
  {
    if c in l.bindings {
      JoinIgnored(l, c, q);
      IdleJoinChanges(l, c, q, r);
    } else {
      JoinRoomChanges(l, c, q, r);
    }
  }

  lemma RequestChanges(l: L.Lobby, e: L.Event, r: L.RoomId)
    requires L.Inv(l) && L.Legal(l, e) && r in L.Next(l, e).rooms
    ensures RoomChanges(l, e, L.Next(l, e), r)
    ensures Apart(Leavers(l, e, r))
  {
    if !e.Reap? {
      FewLeavers(l, e, r);
    }
    match e
    case CreateRoom(c) => CreateRoomChanges(l, c, r);
    case JoinRoom(c, q) => JoinRequestChanges(l, c, q, r);
    case LeaveRoom(c) => LeaveRoomChanges(l, c, r);
    case Reap(dead) => ReapChanges(l, dead, r);
    case StartGame(_) => StartedRoomChanges(l, e, r);
    case _ => QuietRoomChanges(l, e, r);
  }

  // ------------------------------------------------------------------ the invariant

  /** A game that has never been started. */
  ghost predicate Waiting(h: Hall) {
    && h.game.phase.Lobby? && h.game.index == 0 && h.game.tracks == [] && h.game.infos == map[]
    && M.InBaseCars(h.game.players) && (forall p | p in h.game.players :: h.game.players[p].TotalTime() == 0)
    && h.world == EMPTY_WORLD
  }

  /** The game of a room has the players of its members, and waits until the room is started. */
  ghost predicate HallOk(h: Hall, room: L.Room) {
    && h.game.players.Keys == room.roster.names.Keys
    && InOrder(h) && FromGarage(h.game.players)
    && (!room.started ==> Waiting(h))
  }

  ghost predicate Inv(s: Server) {
    L.Inv(s.lobby) && s.halls.Keys == s.lobby.rooms.Keys && forall r | r in s.halls :: HallOk(s.halls[r], s.lobby.rooms[r])
  }

  // ------------------------------------------------------------------ the game's side of a request

  /** `h'` is what is left of `h` when players have gone. */
  ghost predicate Remains(h: Hall, h': Hall, gone: set<PlayerId>) {
    && InOrder(h') && FromGarage(h'.game.players) && h'.game.players.Keys == h.game.players.Keys - gone
    && (Waiting(h) ==> Waiting(h'))
  }

  lemma SameBasesFromGarage(players: map<PlayerId, Player>, players': map<PlayerId, Player>)
    requires FromGarage(players) && players'.Keys <= players.Keys
    requires forall p | p in players' :: players'[p].base == players[p].base
    ensures FromGarage(players')
  {
    forall p | p in players'
      ensures exists car :: 0 <= car < CARS && CarFor(car) == Some(players'[p].base)
    {
      var car :| 0 <= car < CARS && CarFor(car) == Some(players[p].base);
    }
  }

  lemma DepartureKeeps(h: Hall, p: PlayerId)
    requires InOrder(h) && FromGarage(h.game.players) && p in h.game.players
    ensures Remains(h, Took(h, Played(M.Event.Leave(p))), {p})
  {
    PlayKeepsOrder(h, M.Event.Leave(p));
    SameBasesFromGarage(h.game.players, h.game.players - {p});
  }

  lemma RemainsAgain(h: Hall, h0: Hall, h': Hall, gone: set<PlayerId>, p: PlayerId)
    requires Remains(h, h0, gone) && Remains(h0, h', {p})
    ensures Remains(h, h', gone + {p})
  {
  }

  lemma OneMoreDeparture(h: Hall, ps: seq<PlayerId>)
    requires ps != []
    ensures var before, e := Departures(ps[..|ps| - 1]), M.Event.Leave(ps[|ps| - 1]);
            && Reached(h, Departures(ps)) == Took(Reached(h, before), Played(e))
            && (Life(h, Departures(ps)) <==> Life(h, before) && M.Legal(Reached(h, before).game, e))
  {
    assert Departures(ps)[..|ps| - 1] == Departures(ps[..|ps| - 1]);
  }

  lemma {:induction false} DeparturesKeep(h: Hall, ps: seq<PlayerId>)
    requires InOrder(h) && FromGarage(h.game.players) && Apart(ps) && Gone(ps) <= h.game.players.Keys
    ensures Life(h, Departures(ps)) && Remains(h, Reached(h, Departures(ps)), Gone(ps))
    decreases |ps|
  {
    if ps != [] {
      var n := |ps| - 1;
      assert ps == ps[..n] + [ps[n]];
      OneMoreGone(ps[..n], ps[n]);
      DeparturesKeep(h, ps[..n]);
      assert ps[n] !in Gone(ps[..n]);
      OneMoreDeparture(h, ps);
      DepartureKeeps(Reached(h, Departures(ps[..n])), ps[n]);
      RemainsAgain(h, Reached(h, Departures(ps[..n])), Reached(h, Departures(ps)), Gone(ps[..n]), ps[n]);
    }
  }

  lemma ArrivalKeeps(h: Hall, p: PlayerId, car: nat)
    requires InOrder(h) && FromGarage(h.game.players) && Waiting(h) && car < L.CARS && p !in h.game.players
    ensures var h' := WithArrival(h, Some((p, car)));
            InOrder(h') && FromGarage(h'.game.players) && Waiting(h') && h'.game.players.Keys == h.game.players.Keys + {p}
  {
    EveryCarIsOnOffer(car);
    EnteringKeepsGarage(h.game.players, p, car);
    UpgradedByNothing(CarFor(car).value);
  }

  lemma StartKeepsPlayers(h: Hall, file: Option<GameMap>)
    ensures Took(h, Begun(file)).game.players == h.game.players
  {
  }

  lemma TookStart(h: Hall, file: Option<GameMap>)
    ensures Took(h, Begun(file)) == if file == None then h else Restarted(h, file.value)
  {
  }

  lemma StartKeeps(h: Hall, file: Option<GameMap>)
    requires InOrder(h) && Allowed(h, Begun(file))
    ensures InOrder(Took(h, Begun(file)))
  {
    TookStart(h, file);
    if file.Some? {
      StartKeepsOrder(h, file.value);
    }
  }

  lemma OneTurn(h: Hall, t: Turn)
    ensures Reached(h, [t]) == Took(h, t) && (Life(h, [t]) <==> Allowed(h, t))
  {
    assert [t][..0] == [];
  }

  /** What the turns of a room make of its game, before anybody comes in. */
  lemma TurnsKeep(l: L.Lobby, e: L.Event, file: Option<GameMap>, r: L.RoomId, h: Hall)
    requires r in l.rooms && HallOk(h, l.rooms[r]) && Apart(Leavers(l, e, r))
    requires Gone(Leavers(l, e, r)) <= l.rooms[r].roster.names.Keys
    requires Starts(l, e, r) ==> Allowed(h, Begun(file))
    ensures Life(h, TurnsOf(l, e, file, r))
    ensures var h' := Reached(h, TurnsOf(l, e, file, r));
            && InOrder(h') && FromGarage(h'.game.players)
            && h'.game.players.Keys == l.rooms[r].roster.names.Keys - Gone(Leavers(l, e, r))
            && (!l.rooms[r].started && !Starts(l, e, r) ==> Waiting(h'))
  {
    if Starts(l, e, r) {
      OneTurn(h, Begun(file));
      StartKeeps(h, file);
      StartKeepsPlayers(h, file);
      assert Gone([]) == {};
    } else {
      DeparturesKeep(h, Leavers(l, e, r));
    }
  }

  lemma LeaversAreIn(l: L.Lobby, e: L.Event, r: L.RoomId)
    requires L.Inv(l) && L.Seated(l) && r in l.rooms
    ensures Gone(Leavers(l, e, r)) <= l.rooms[r].roster.names.Keys
  {
    if e.Reap? {
      LeaversAreTheDead(l, e.dead, r);
    }
  }

  /** A room that is still there after a request. */
  lemma StayingHallOk(s: Server, e: L.Event, file: Option<GameMap>, l': L.Lobby, r: L.RoomId)
    requires L.Seated(s.lobby) && r in s.lobby.rooms && r in l'.rooms && !Opens(s.lobby, e, r)
    requires r in s.halls && HallOk(s.halls[r], s.lobby.rooms[r]) && RoomChanges(s.lobby, e, l', r)
    requires Apart(Leavers(s.lobby, e, r)) && Gone(Leavers(s.lobby, e, r)) <= s.lobby.rooms[r].roster.names.Keys
    requires Starts(s.lobby, e, r) ==> Allowed(s.halls[r], Begun(file))
    ensures Life(s.halls[r], TurnsOf(s.lobby, e, file, r)) && HallOk(HallAfter(s, e, file, l', r), l'.rooms[r])
  {
    TurnsKeep(s.lobby, e, file, r, s.halls[r]);
    var h, arrival := Reached(s.halls[r], TurnsOf(s.lobby, e, file, r)), Arrival(s.lobby, e, l', r);
    if arrival.Some? {
      ArrivalKeeps(h, arrival.value.0, arrival.value.1);
    }
  }

  lemma NewHallInOrder()
    ensures InOrder(NEW_HALL) && FromGarage(NEW_HALL.game.players) && Waiting(NEW_HALL)
  {
  }

  lemma OpenedHallOk(s: Server, e: L.Event, file: Option<GameMap>, l': L.Lobby, r: L.RoomId)
    requires L.Seated(s.lobby) && r in l'.rooms && Opens(s.lobby, e, r) && RoomChanges(s.lobby, e, l', r)
    ensures HallOk(HallAfter(s, e, file, l', r), l'.rooms[r])
  {
    NewHallInOrder();
    var arrival := Arrival(s.lobby, e, l', r);
    if arrival.Some? {
      ArrivalKeeps(NEW_HALL, arrival.value.0, arrival.value.1);
    }
  }

  lemma AskKeepsInv(s: Server, e: L.Event, file: Option<GameMap>)
    requires Inv(s) && Legal(s, Ask(e, file))
    ensures Inv(Next(s, Ask(e, file)))
  {
    var l' := L.Next(s.lobby, e);
    L.NextKeepsInv(s.lobby, e);
    forall r | r in l'.rooms
      ensures HallOk(HallAfter(s, e, file, l', r), l'.rooms[r])
    {
      RequestChanges(s.lobby, e, r);
      if Opens(s.lobby, e, r) {
        OpenedHallOk(s, e, file, l', r);
      } else {
        LeaversAreIn(s.lobby, e, r);
        StayingHallOk(s, e, file, l', r);
      }
    }
  }

  lemma TickKeepsHall(h: Hall, e: M.Event, room: L.Room)
    requires HallOk(h, room) && e.Tick? && M.Legal(h.game, e)
    ensures HallOk(Took(h, Played(e)), room)
  {
    PlayKeepsOrder(h, e);
    MatchTheorems.NextKeepsRoster(h.game, e);
    SameBasesFromGarage(h.game.players, M.Next(h.game, e).players);
    if !room.started {
      LobbyWaits(h.game, e);
      LobbyIgnoresActions(h.game, e.actions);
    }
  }
}
