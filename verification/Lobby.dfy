/** The lobby on values: server/room_manager.cpp, binding_manager.cpp, pending_manager.cpp,
    client_list.cpp and the handlers of server/monitor_lobby.cpp.  Every handler runs under one lock,
    so each is one step.  A client handler is a token that knows its connection. */
module Lobbies {
  import opened Players
  import Garages

  type ConnId = nat
  type RoomId = n: nat | n < 256 witness 0

  const MAX_PLAYERS: nat := 8
  const CARS: nat := Garages.CARS

  datatype Handler = Handler(id: ConnId)

  datatype Binding = Binding(room: RoomId, player: PlayerId)

  /** The player table of a room's game. */
  datatype Roster = Roster(names: map<PlayerId, string>, idIndex: PlayerId)

  /** What players send to the game they are in. */
  datatype GameInput = Move(movement: nat) | Improvement(improvement: nat) | Cheat(code: nat)

  /** In the queue of a room the sender goes by its number in the game. */
  datatype Routed = Routed(player: PlayerId, action: GameInput)

  /** `actions` is everything that was put into the room's queue; what its game loop takes out stays here. */
  datatype Room = Room(id: RoomId, maxPlayers: nat, creator: ConnId, roster: Roster, clients: seq<Handler>, started: bool,
                       actions: seq<Routed>)

  datatype Lobby = Lobby(handlers: map<ConnId, Handler>, names: map<ConnId, string>, cars: map<ConnId, nat>,
                         bindings: map<ConnId, Binding>, rooms: map<RoomId, Room>, nextRoom: RoomId, nextConn: ConnId)

  const NEW_LOBBY := Lobby(map[], map[], map[], map[], map[], 1, 1)

  // ------------------------------------------------------------------ pieces

  /** Who is in room `r`, and as which player. */
  ghost function Members(bindings: map<ConnId, Binding>, r: RoomId): map<ConnId, PlayerId> {
    map c | c in bindings && bindings[c].room == r :: bindings[c].player
  }

  /** The list without its first handler of connection `c`. */
  function Without(clients: seq<Handler>, c: ConnId): seq<Handler> {
    if clients == [] then []
    else if clients[0].id == c then clients[1..]
    else [clients[0]] + Without(clients[1..], c)
  }

  /** The handlers whose threads are alive. */
  function Alive(clients: seq<Handler>, dead: set<ConnId>): seq<Handler> {
    if clients == [] then []
    else Alive(clients[..|clients| - 1], dead)
         + if clients[|clients| - 1].id in dead then [] else [clients[|clients| - 1]]
  }

  /** The player ids in use from `from` on. */
  ghost function UsedFrom(names: map<PlayerId, string>, from: PlayerId): set<PlayerId> {
    set k | k in names && k >= from
  }

  /** The first unused player id from the running index on. */
  function FreePlayer(names: map<PlayerId, string>, from: PlayerId): (p: PlayerId)
    ensures p !in names
    decreases |UsedFrom(names, from)|
  {
    if from !in names then from
    else
      FewerAbove(names, from);
      FreePlayer(names, from + 1)
  }

  lemma FewerAbove(names: map<PlayerId, string>, from: PlayerId)
    requires from in names
    ensures |UsedFrom(names, from + 1)| < |UsedFrom(names, from)|
  {
    assert UsedFrom(names, from) == UsedFrom(names, from + 1) + {from};
  }

  // ------------------------------------------------------------------ the search for a room id

  /** The 8-bit counter of room ids after `k` turns of the loop in create_room. */
  function Turned(from: RoomId, k: nat): RoomId { (from + k) % 256 }

  lemma TurnedOnce(from: RoomId, k: nat)
    ensures (Turned(from, k) + 1) % 256 == Turned(from, k + 1)
  {
  }

  /** The loop leaves after `k` turns: every id before is in use, and this one is not. */
  ghost predicate StopsAt(rooms: set<RoomId>, from: RoomId, k: nat) {
    Turned(from, k) !in rooms && forall j | 0 <= j < k :: Turned(from, j) in rooms
  }

  ghost predicate SearchEnds(rooms: set<RoomId>, from: RoomId) { exists k: nat :: StopsAt(rooms, from, k) }

  /** The turns after which the counter has shown every id. */
  const LAST_TURN: nat := 255

  /** Where the loop is when it leaves, or else after `left` turns. */
  function Search(rooms: set<RoomId>, from: RoomId, left: nat): RoomId
    decreases left
  {
    if from !in rooms || left == 0 then from else Search(rooms, (from + 1) % 256, left - 1)
  }

  /** The id that the loop finds, if it ends. */
  function FoundId(rooms: set<RoomId>, from: RoomId): RoomId { Search(rooms, from, LAST_TURN) }

  lemma StopsOnce(rooms: set<RoomId>, from: RoomId, k: nat)
    requires StopsAt(rooms, from, k)
    ensures FoundId(rooms, from) == Turned(from, k)
  {
    StopsInOneRound(rooms, from, k);
    SearchStops(rooms, from, LAST_TURN, k);
  }

  lemma StopsInOneRound(rooms: set<RoomId>, from: RoomId, k: nat)
    requires StopsAt(rooms, from, k)
    ensures k <= LAST_TURN
  {
    assert k > LAST_TURN ==> Turned(from, k - 256) == Turned(from, k);
  }

  lemma {:induction false} SearchStops(rooms: set<RoomId>, from: RoomId, left: nat, k: nat)
    requires StopsAt(rooms, from, k) && k <= left
    ensures Search(rooms, from, left) == Turned(from, k)
    decreases k
  {
    if k > 0 {
      var next := (from + 1) % 256;
      assert Turned(from, 0) in rooms;
      forall j | 0 <= j <= k - 1
        ensures Turned(next, j) == Turned(from, j + 1)
      {
        TurnedLater(from, j);
      }
      SearchStops(rooms, next, left - 1, k - 1);
    }
  }

  lemma TurnedLater(from: RoomId, j: nat)
    ensures Turned((from + 1) % 256, j) == Turned(from, j + 1)
  {
  }

  /** As soon as some turn would show a free id, the loop leaves at the first such turn. */
  lemma {:induction false} FreeIdStops(rooms: set<RoomId>, from: RoomId, k: nat)
    requires Turned(from, k) !in rooms
    ensures SearchEnds(rooms, from)
  {
    if j: nat :| j < k && Turned(from, j) !in rooms {
      FreeIdStops(rooms, from, j);
    } else {
      assert StopsAt(rooms, from, k);
    }
  }

  ghost function Below(n: nat): (s: set<nat>)
    ensures |s| == n && forall k: nat :: k in s <==> k < n
  {
    if n == 0 then {} else Below(n - 1) + {n - 1}
  }

  /** How many turns take the counter from `from` to `x`. */
  function Distance(from: RoomId, x: RoomId): (k: nat)
    ensures Turned(from, k) == x
  {
    if x >= from then x - from else x + 256 - from
  }

  /** The search for a room id ends if and only if fewer than 256 ids are in use. */
  lemma SearchEndsExactly(rooms: set<RoomId>, from: RoomId)
    ensures SearchEnds(rooms, from) <==> |rooms| < 256
  {
    if SearchEnds(rooms, from) {
      var k: nat :| StopsAt(rooms, from, k);
      OneIdIsFree(rooms, Turned(from, k));
    } else {
      EveryIdIsUsed(rooms, from);
    }
  }

  const ROOM_IDS: nat := 256

  lemma OneIdIsFree(rooms: set<RoomId>, free: RoomId)
    requires free !in rooms
    ensures |rooms| < ROOM_IDS
  {
    var used := set r | r in rooms :: r as nat;
    SameCount(rooms, used);
    Larger(used, Below(ROOM_IDS) - {free});
  }

  lemma EveryIdIsUsed(rooms: set<RoomId>, from: RoomId)
    requires !SearchEnds(rooms, from)
    ensures |rooms| >= ROOM_IDS
  {
    var used := set r | r in rooms :: r as nat;
    SameCount(rooms, used);
    forall x | x in Below(ROOM_IDS)
      ensures x in used
    {
      if x !in rooms {
        FreeIdStops(rooms, from, Distance(from, x));
      }
    }
    Larger(Below(ROOM_IDS), used);
  }

  lemma {:induction false} SameCount(rooms: set<RoomId>, used: set<nat>)
    requires forall x: nat :: x in used <==> x < 256 && x in rooms
    ensures |used| == |rooms|
    decreases |rooms|
  {
    if rooms == {} {
      assert used == {};
    } else {
      var r :| r in rooms;
      SameCount(rooms - {r}, used - {r});
    }
  }

  lemma {:induction false} Larger<T>(a: set<T>, b: set<T>)
    requires a <= b
    ensures |a| <= |b|
    decreases |a|
  {
    if a != {} {
      var x :| x in a;
      Larger(a - {x}, b - {x});
    }
  }

  // ------------------------------------------------------------------ the invariant

  /** The list holds the handler of every one of the connections, once, and nothing else. */
  ghost predicate ClientsOk(clients: seq<Handler>, cs: set<ConnId>) {
    && (forall i, j | 0 <= i < j < |clients| :: clients[i] != clients[j])
    && (forall h :: h in clients <==> h.id in cs)
  }

  /** The game knows exactly the players that the members are, and no two members are the same one. */
  ghost predicate RosterOk(names: map<PlayerId, string>, ms: map<ConnId, PlayerId>) {
    && (forall c | c in ms :: ms[c] in names)
    && (forall p | p in names :: exists c :: c in ms && ms[c] == p)
    && (forall c, d | c in ms && d in ms && c != d :: ms[c] != ms[d])
  }

  /** The client list, the bindings and the game's players of one room correspond one to one. */
  ghost predicate RoomOk(room: Room, r: RoomId, ms: map<ConnId, PlayerId>) {
    room.id == r && |ms| <= room.maxPlayers && ClientsOk(room.clients, ms.Keys) && RosterOk(room.roster.names, ms)
  }

  ghost predicate RoomsOk(rooms: map<RoomId, Room>, bindings: map<ConnId, Binding>) {
    && (forall r | r in rooms :: RoomOk(rooms[r], r, Members(bindings, r)))
    && (forall c | c in bindings :: bindings[c].room in rooms)
  }

  /** Every connection is pending or in a room, never both. */
  ghost predicate Inv(l: Lobby) {
    HandlersOk(l.handlers, l.bindings.Keys, l.nextConn) && RoomsOk(l.rooms, l.bindings)
  }

  ghost predicate HandlersOk(handlers: map<ConnId, Handler>, bound: set<ConnId>, nextConn: ConnId) {
    && (forall c | c in handlers :: handlers[c] == Handler(c) && c !in bound && c < nextConn)
    && (forall c | c in bound :: c < nextConn)
  }

  /** Every binding names a room that exists and a player that its game knows. */
  ghost predicate Seated(l: Lobby) {
    forall c | c in l.bindings :: BoundTo(l.bindings[c], l.rooms)
  }

  predicate BoundTo(b: Binding, rooms: map<RoomId, Room>) {
    b.room in rooms && b.player in rooms[b.room].roster.names
  }

  lemma InvMeansSeated(l: Lobby)
    requires Inv(l)
    ensures Seated(l)
  {
    forall c | c in l.bindings
      ensures BoundTo(l.bindings[c], l.rooms)
    {
      assert c in Members(l.bindings, l.bindings[c].room);
    }
  }

  // ------------------------------------------------------------------ steps

  datatype Event =
    | Connect
    | CreateRoom(conn: ConnId) | JoinRoom(conn: ConnId, room: RoomId) | LeaveRoom(conn: ConnId)
    | SetName(conn: ConnId, name: string) | ChooseCar(conn: ConnId, car: nat)
    | StartGame(conn: ConnId)
    | Send(conn: ConnId, action: GameInput)
    | Reap(dead: set<ConnId>)

  function RemoveMember(room: Room, c: ConnId, p: PlayerId): Room {
    room.(clients := Without(room.clients, c), roster := room.roster.(names := room.roster.names - {p}))
  }

  function AddMember(room: Room, c: ConnId, name: string): Room {
    var p := FreePlayer(room.roster.names, room.roster.idIndex);
    room.(roster := Roster(room.roster.names[p := name], p), clients := room.clients + [Handler(c)])
  }

  /** Takes a connection out of its room; the room goes with its last member.  The player's name is
      kept for the next room, the choice of car is not. */
  ghost function Detach(l: Lobby, c: ConnId): Lobby
    requires Seated(l) && c in l.bindings
  {
    var b := l.bindings[c];
    var room := l.rooms[b.room];
    var name := room.roster.names[b.player];
    l.(names := if name != "" then l.names[c := name] else l.names,
       bindings := l.bindings - {c},
       rooms := if Members(l.bindings, b.room).Keys == {c} then l.rooms - {b.room} else l.rooms[b.room := RemoveMember(room, c, b.player)])
  }

  ghost function Leave(l: Lobby, c: ConnId): Lobby
    requires Seated(l)
  {
    if c in l.bindings then Detach(l, c).(handlers := l.handlers[c := Handler(c)]) else l
  }

  ghost predicate CanJoin(l: Lobby, c: ConnId, r: RoomId) {
    r in l.rooms && !l.rooms[r].started && |Members(l.bindings, r)| < l.rooms[r].maxPlayers && c in l.handlers
  }

  /** A pending connection joins an open room that is not full.  With a car that does not exist the
      attempt fails, and the pending name and car are gone. */
  ghost function Join(l: Lobby, c: ConnId, r: RoomId): Lobby {
    if !CanJoin(l, c, r) then l
    else
      var l' := l.(names := l.names - {c}, cars := l.cars - {c});
      if (if c in l.cars then l.cars[c] else 0) >= CARS then l'
      else
        var room := AddMember(l.rooms[r], c, if c in l.names then l.names[c] else "");
        l'.(handlers := l.handlers - {c}, bindings := l.bindings[c := Binding(r, room.roster.idIndex)],
            rooms := l.rooms[r := room])
  }

  function NextRoomId(l: Lobby): RoomId { FoundId(l.rooms.Keys, l.nextRoom) }

  function NewRoom(l: Lobby, c: ConnId): Lobby {
    var rid := NextRoomId(l);
    l.(rooms := l.rooms[rid := Room(rid, MAX_PLAYERS, c, Roster(map[], 0), [], false, [])], nextRoom := (rid + 1) % 256)
  }

  ghost function Create(l: Lobby, c: ConnId): Lobby
    requires Seated(l)
  {
    var l' := Leave(l, c);
    Join(NewRoom(l', c), c, NextRoomId(l'))
  }

  ghost function ReapedRoom(room: Room, ms: map<ConnId, PlayerId>, dead: set<ConnId>): Room {
    room.(clients := Alive(room.clients, dead),
          roster := room.roster.(names := room.roster.names - set c | c in ms && c in dead :: ms[c]))
  }

  /** All the rooms at once: the dead leave, and the rooms left empty are closed. */
  ghost function ReapAll(l: Lobby, dead: set<ConnId>): Lobby {
    var left := l.bindings - dead;
    l.(bindings := left,
       rooms := map r | r in l.rooms && Members(left, r) != map[] :: ReapedRoom(l.rooms[r], Members(l.bindings, r), dead))
  }

  /** What the lobby can finish: a creation only if the search for an id ends. */
  ghost predicate Legal(l: Lobby, e: Event) {
    Seated(l) && (e.CreateRoom? ==> FindsRoomId(Leave(l, e.conn)))
  }

  ghost predicate FindsRoomId(l: Lobby) { SearchEnds(l.rooms.Keys, l.nextRoom) }

  ghost function Next(l: Lobby, e: Event): Lobby
    requires Legal(l, e)
  {
    match e
    case Connect => l.(handlers := l.handlers[l.nextConn := Handler(l.nextConn)], nextConn := l.nextConn + 1)
    case CreateRoom(c) => Create(l, c)
    case JoinRoom(c, r) => Join(l, c, r)
    case LeaveRoom(c) => Leave(l, c)
    case SetName(c, name) =>
      if c !in l.bindings then l.(names := l.names[c := name])
      else
        var b := l.bindings[c];
        l.(rooms := l.rooms[b.room := Renamed(l.rooms[b.room], b.player, name)])
    case ChooseCar(c, car) => l.(cars := l.cars[c := car])
    case StartGame(c) =>
      if c !in l.bindings || l.rooms[l.bindings[c].room].creator != c then l
      else l.(rooms := l.rooms[l.bindings[c].room := l.rooms[l.bindings[c].room].(started := true)])
    case Send(c, action) =>
      if c !in l.bindings then l
      else
        var b := l.bindings[c];
        l.(rooms := l.rooms[b.room := Queued(l.rooms[b.room], b.player, action)])
    case Reap(dead) => ReapAll(l, dead)
  }

  function Queued(room: Room, p: PlayerId, action: GameInput): Room { room.(actions := room.actions + [Routed(p, action)]) }

  function Renamed(room: Room, p: PlayerId, name: string): Room {
    room.(roster := room.roster.(names := room.roster.names[p := name]))
  }

  // ------------------------------------------------------------------ rooms

  lemma {:induction false} WithoutKeepsOthers(clients: seq<Handler>, cs: set<ConnId>, c: ConnId)
    requires ClientsOk(clients, cs)
    ensures ClientsOk(Without(clients, c), cs - {c})
    decreases |clients|
  {
    if clients != [] {
      assert clients == [clients[0]] + clients[1..];
      assert clients[0] in clients && clients[0] == Handler(clients[0].id);
      forall h
        ensures h in clients[1..] <==> h.id in cs - {clients[0].id}
      {
        assert h in clients <==> h == clients[0] || h in clients[1..];
      }
      WithoutKeepsOthers(clients[1..], cs - {clients[0].id}, c);
      assert clients[0].id != c ==> cs - {clients[0].id} - {c} == cs - {c} - {clients[0].id};
    }
  }

  lemma {:induction false} AliveKeepsOthers(clients: seq<Handler>, cs: set<ConnId>, dead: set<ConnId>)
    requires ClientsOk(clients, cs)
    ensures ClientsOk(Alive(clients, dead), cs - dead)
    decreases |clients|
  {
    if clients != [] {
      var n := |clients| - 1;
      var last := clients[n];
      assert clients == clients[..n] + [last];
      assert last in clients && last == Handler(last.id);
      forall h
        ensures h in clients[..n] <==> h.id in cs - {last.id}
      {
        assert h in clients <==> h == last || h in clients[..n];
      }
      AliveKeepsOthers(clients[..n], cs - {last.id}, dead);
    }
  }

  lemma RosterGains(names: map<PlayerId, string>, ms: map<ConnId, PlayerId>, c: ConnId, p: PlayerId, name: string)
    requires RosterOk(names, ms) && c !in ms && p !in names
    ensures RosterOk(names[p := name], ms[c := p])
  {
    var ms' := ms[c := p];
    forall q | q in names && q != p
      ensures exists d :: d in ms' && ms'[d] == q
    {
      var d :| d in ms && ms[d] == q;
      assert ms'[d] == q;
    }
    assert ms'[c] == p;
  }

  lemma RosterReaps(names: map<PlayerId, string>, ms: map<ConnId, PlayerId>, dead: set<ConnId>, gone: set<PlayerId>)
    requires RosterOk(names, ms)
    requires forall p :: p in gone <==> exists c :: c in dead && c in ms && ms[c] == p
    ensures RosterOk(names - gone, ms - dead)
  {
    var ms' := ms - dead;
    forall q | q in names - gone
      ensures exists d :: d in ms' && ms'[d] == q
    {
      var d :| d in ms && ms[d] == q;
      assert d !in dead && ms'[d] == q;
    }
  }

  lemma RoomGains(room: Room, r: RoomId, ms: map<ConnId, PlayerId>, c: ConnId, name: string)
    requires RoomOk(room, r, ms) && c !in ms && |ms| < room.maxPlayers
    ensures RoomOk(AddMember(room, c, name), r, ms[c := AddMember(room, c, name).roster.idIndex])
  {
    var room' := AddMember(room, c, name);
    var ms' := ms[c := room'.roster.idIndex];
    assert ms'.Keys == ms.Keys + {c};
    assert |ms'.Keys| == |ms.Keys| + 1;
    RosterGains(room.roster.names, ms, c, room'.roster.idIndex, name);
    assert forall i | 0 <= i < |room.clients| :: room.clients[i] in room.clients;
  }

  lemma RoomReaps(room: Room, r: RoomId, ms: map<ConnId, PlayerId>, dead: set<ConnId>)
    requires RoomOk(room, r, ms)
    ensures RoomOk(ReapedRoom(room, ms, dead), r, ms - dead)
  {
    AliveKeepsOthers(room.clients, ms.Keys, dead);
    RosterReaps(room.roster.names, ms, dead, set c | c in ms && c in dead :: ms[c]);
    assert (ms - dead).Keys == ms.Keys - dead;
    Larger((ms - dead).Keys, ms.Keys);
    assert |ms - dead| == |(ms - dead).Keys| && |ms| == |ms.Keys|;
  }

  lemma RoomLoses(room: Room, r: RoomId, ms: map<ConnId, PlayerId>, c: ConnId)
    requires RoomOk(room, r, ms) && c in ms
    ensures RoomOk(RemoveMember(room, c, ms[c]), r, ms - {c})
  {
    WithoutKeepsOthers(room.clients, ms.Keys, c);
    RosterReaps(room.roster.names, ms, {c}, {ms[c]});
    assert (ms - {c}).Keys == ms.Keys - {c};
    Larger((ms - {c}).Keys, ms.Keys);
    assert |ms - {c}| == |(ms - {c}).Keys| && |ms| == |ms.Keys|;
  }

  // ------------------------------------------------------------------ every step keeps the invariant

  lemma MembersAfterLeaving(bindings: map<ConnId, Binding>, dead: set<ConnId>, r: RoomId)
    ensures Members(bindings - dead, r) == Members(bindings, r) - dead
  {
  }

  lemma MembersAfterJoining(bindings: map<ConnId, Binding>, c: ConnId, b: Binding, r: RoomId)
    requires c !in bindings
    ensures Members(bindings[c := b], r) == if r == b.room then Members(bindings, r)[c := b.player] else Members(bindings, r)
  {
  }

  /** A room that is left alone stays in order. */
  lemma SameRoomOk(room: Room, r: RoomId, ms: map<ConnId, PlayerId>, room': Room, ms': map<ConnId, PlayerId>)
    requires RoomOk(room, r, ms) && room' == room && ms' == ms
    ensures RoomOk(room', r, ms')
  {
  }

  /** One room changes with one connection leaving it; the other rooms do not notice. */
  lemma RoomsAfterLeaving(rooms: map<RoomId, Room>, bindings: map<ConnId, Binding>, c: ConnId, room: Room)
    requires RoomsOk(rooms, bindings) && c in bindings
    requires RoomOk(room, bindings[c].room, Members(bindings, bindings[c].room) - {c})
    ensures RoomsOk(rooms[bindings[c].room := room], bindings - {c})
  {
    var rooms', bindings' := rooms[bindings[c].room := room], bindings - {c};
    forall r | r in rooms'
      ensures RoomOk(rooms'[r], r, Members(bindings', r))
    {
      OthersDoNotNotice(bindings, c, r);
      if r == bindings[c].room {
        SameRoomOk(room, r, Members(bindings, r) - {c}, rooms'[r], Members(bindings', r));
      } else {
        SameRoomOk(rooms[r], r, Members(bindings, r), rooms'[r], Members(bindings', r));
      }
    }
  }

  lemma RoomsAfterClosing(rooms: map<RoomId, Room>, bindings: map<ConnId, Binding>, c: ConnId)
    requires RoomsOk(rooms, bindings) && c in bindings && Members(bindings, bindings[c].room).Keys == {c}
    ensures RoomsOk(rooms - {bindings[c].room}, bindings - {c})
  {
    var rooms', bindings' := rooms - {bindings[c].room}, bindings - {c};
    forall r | r in rooms'
      ensures RoomOk(rooms'[r], r, Members(bindings', r))
    {
      OthersDoNotNotice(bindings, c, r);
      SameRoomOk(rooms[r], r, Members(bindings, r), rooms'[r], Members(bindings', r));
    }
    assert forall d | d in bindings && bindings[d].room == bindings[c].room :: d in Members(bindings, bindings[c].room);
  }

  lemma OthersDoNotNotice(bindings: map<ConnId, Binding>, c: ConnId, r: RoomId)
    requires c in bindings
    ensures Members(bindings - {c}, r) == if r == bindings[c].room then Members(bindings, r) - {c} else Members(bindings, r)
  {
    MembersAfterLeaving(bindings, {c}, r);
    assert r != bindings[c].room ==> c !in Members(bindings, r);
  }

  lemma RoomsAfterJoining(rooms: map<RoomId, Room>, bindings: map<ConnId, Binding>, c: ConnId, b: Binding, room: Room)
    requires RoomsOk(rooms, bindings) && c !in bindings
    requires RoomOk(room, b.room, Members(bindings, b.room)[c := b.player])
    ensures RoomsOk(rooms[b.room := room], bindings[c := b])
  {
    var rooms', bindings' := rooms[b.room := room], bindings[c := b];
    forall r | r in rooms'
      ensures RoomOk(rooms'[r], r, Members(bindings', r))
    {
      MembersAfterJoining(bindings, c, b, r);
      if r == b.room {
        SameRoomOk(room, r, Members(bindings, r)[c := b.player], rooms'[r], Members(bindings', r));
      } else {
        SameRoomOk(rooms[r], r, Members(bindings, r), rooms'[r], Members(bindings', r));
      }
    }
  }

  lemma DetachKeepsRooms(rooms: map<RoomId, Room>, bindings: map<ConnId, Binding>, c: ConnId, b: Binding)
    requires RoomsOk(rooms, bindings) && c in bindings && bindings[c] == b
    ensures var rooms' := if Members(bindings, b.room).Keys == {c} then rooms - {b.room}
                          else rooms[b.room := RemoveMember(rooms[b.room], c, b.player)];
            RoomsOk(rooms', bindings - {c})
  {
    var ms := Members(bindings, b.room);
    if ms.Keys == {c} {
      RoomsAfterClosing(rooms, bindings, c);
    } else {
      assert ms[c] == b.player;
      RoomLoses(rooms[b.room], b.room, ms, c);
      RoomsAfterLeaving(rooms, bindings, c, RemoveMember(rooms[b.room], c, b.player));
    }
  }

  lemma LeaveKeepsInv(l: Lobby, c: ConnId)
    requires Inv(l) && Seated(l)
    ensures Inv(Leave(l, c))
  {
    if c in l.bindings {
      LeaveKeepsRooms(l, c);
      LeaveKeepsHandlers(l, c);
    }
  }

  lemma LeaveKeepsRooms(l: Lobby, c: ConnId)
    requires Inv(l) && Seated(l) && c in l.bindings
    ensures RoomsOk(Leave(l, c).rooms, Leave(l, c).bindings)
  {
    DetachKeepsRooms(l.rooms, l.bindings, c, l.bindings[c]);
  }

  lemma LeaveFields(l: Lobby, c: ConnId)
    requires Seated(l) && c in l.bindings
    ensures var l' := Leave(l, c);
            l'.handlers == l.handlers[c := Handler(c)] && l'.bindings == l.bindings - {c} && l'.nextConn == l.nextConn
  {
  }

  lemma LeaveKeepsHandlers(l: Lobby, c: ConnId)
    requires Inv(l) && Seated(l) && c in l.bindings
    ensures HandlersOk(Leave(l, c).handlers, Leave(l, c).bindings.Keys, Leave(l, c).nextConn)
  {
    LeaveFields(l, c);
    HandlersAfterLeaving(l.handlers, l.bindings.Keys, l.nextConn, c);
    assert (l.bindings - {c}).Keys == l.bindings.Keys - {c};
  }

  lemma HandlersAfterLeaving(handlers: map<ConnId, Handler>, bound: set<ConnId>, nextConn: ConnId, c: ConnId)
    requires HandlersOk(handlers, bound, nextConn) && c in bound
    ensures HandlersOk(handlers[c := Handler(c)], bound - {c}, nextConn)
  {
  }

  lemma RoomReplaced(rooms: map<RoomId, Room>, bindings: map<ConnId, Binding>, r: RoomId, room: Room)
    requires RoomsOk(rooms, bindings) && r in rooms && RoomOk(room, r, Members(bindings, r))
    ensures RoomsOk(rooms[r := room], bindings)
  {
  }

  lemma JoinKeepsInv(l: Lobby, c: ConnId, r: RoomId)
    requires Inv(l)
    ensures Inv(Join(l, c, r))
  {
    if CanJoin(l, c, r) {
      var name := if c in l.names then l.names[c] else "";
      var room := AddMember(l.rooms[r], c, name);
      assert c !in Members(l.bindings, r);
      RoomGains(l.rooms[r], r, Members(l.bindings, r), c, name);
      RoomsAfterJoining(l.rooms, l.bindings, c, Binding(r, room.roster.idIndex), room);
    }
  }

  lemma NextRoomIdIsFree(l: Lobby)
    requires FindsRoomId(l)
    ensures NextRoomId(l) !in l.rooms
  {
    var k: nat :| StopsAt(l.rooms.Keys, l.nextRoom, k);
    StopsOnce(l.rooms.Keys, l.nextRoom, k);
  }

  lemma NewRoomKeepsInv(l: Lobby, c: ConnId)
    requires Inv(l) && NextRoomId(l) !in l.rooms
    ensures Inv(NewRoom(l, c))
  {
    var rid := NextRoomId(l);
    assert Members(l.bindings, rid) == map[];
    assert RoomOk(Room(rid, MAX_PLAYERS, c, Roster(map[], 0), [], false, []), rid, map[]);
  }

  lemma ReapKeepsInv(l: Lobby, dead: set<ConnId>)
    requires Inv(l)
    ensures Inv(ReapAll(l, dead))
  {
    var l' := ReapAll(l, dead);
    forall r | r in l'.rooms
      ensures RoomOk(l'.rooms[r], r, Members(l'.bindings, r))
    {
      MembersAfterLeaving(l.bindings, dead, r);
      RoomReaps(l.rooms[r], r, Members(l.bindings, r), dead);
    }
    forall c | c in l'.bindings
      ensures l'.bindings[c].room in l'.rooms
    {
      assert c in Members(l'.bindings, l'.bindings[c].room);
    }
  }

  lemma NextKeepsInv(l: Lobby, e: Event)
    requires Inv(l) && Legal(l, e)
    ensures Inv(Next(l, e))
  {
    match e
    case Connect => ConnectKeepsInv(l);
    case CreateRoom(c) => CreateKeepsInv(l, c);
    case JoinRoom(c, r) => JoinKeepsInv(l, c, r);
    case LeaveRoom(c) => LeaveKeepsInv(l, c);
    case SetName(c, name) => RenameKeepsInv(l, c, name);
    case ChooseCar(_, _) =>
    case StartGame(c) => StartKeepsInv(l, c);
    case Send(c, action) => SendKeepsInv(l, c, action);
    case Reap(dead) => ReapKeepsInv(l, dead);
  }

  lemma SendKeepsInv(l: Lobby, c: ConnId, action: GameInput)
    requires Inv(l) && Seated(l)
    ensures Inv(Next(l, Send(c, action)))
  {
    if c in l.bindings {
      var b := l.bindings[c];
      RoomQueues(l.rooms[b.room], b.room, Members(l.bindings, b.room), b.player, action);
      RoomReplaced(l.rooms, l.bindings, b.room, Queued(l.rooms[b.room], b.player, action));
    }
  }

  lemma RoomQueues(room: Room, r: RoomId, ms: map<ConnId, PlayerId>, p: PlayerId, action: GameInput)
    requires RoomOk(room, r, ms)
    ensures RoomOk(Queued(room, p, action), r, ms)
  {
  }

  lemma ConnectKeepsInv(l: Lobby)
    requires Inv(l) && Seated(l)
    ensures Inv(Next(l, Connect))
  {
  }

  lemma CreateKeepsInv(l: Lobby, c: ConnId)
    requires Inv(l) && Legal(l, CreateRoom(c))
    ensures Inv(Create(l, c))
  {
    LeaveKeepsInv(l, c);
    NextRoomIdIsFree(Leave(l, c));
    NewRoomKeepsInv(Leave(l, c), c);
    JoinKeepsInv(NewRoom(Leave(l, c), c), c, NextRoomId(Leave(l, c)));
  }

  lemma RenameKeepsInv(l: Lobby, c: ConnId, name: string)
    requires Inv(l) && Seated(l)
    ensures Inv(Next(l, SetName(c, name)))
  {
    if c in l.bindings {
      var b := l.bindings[c];
      assert c in Members(l.bindings, b.room);
      RoomRenames(l.rooms[b.room], b.room, Members(l.bindings, b.room), b.player, name);
      RoomReplaced(l.rooms, l.bindings, b.room, Renamed(l.rooms[b.room], b.player, name));
    }
  }

  lemma RoomRenames(room: Room, r: RoomId, ms: map<ConnId, PlayerId>, p: PlayerId, name: string)
    requires RoomOk(room, r, ms) && p in room.roster.names
    ensures RoomOk(Renamed(room, p, name), r, ms)
  {
  }

  lemma StartKeepsInv(l: Lobby, c: ConnId)
    requires Inv(l) && Seated(l)
    ensures Inv(Next(l, StartGame(c)))
  {
    if c in l.bindings {
      var r := l.bindings[c].room;
      RoomReplaced(l.rooms, l.bindings, r, l.rooms[r].(started := true));
    }
  }
}
