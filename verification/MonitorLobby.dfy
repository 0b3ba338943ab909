/** The lobby's tables as objects, and the handlers that update them under the lobby's lock:
    server/pending_manager.cpp, binding_manager.cpp, room_manager.cpp, client_list.cpp and
    monitor_lobby.cpp.  Each handler is proved to take exactly the step of the model on values. */
module MonitorLobbies {
  import opened Wrappers
  import opened Constants
  import opened Players
  import opened Lobbies
  import LobbyTheorems

  /** The state of the lobby, read off its tables. */
  ghost function Snapshot(p: PendingManager, b: BindingManager, r: RoomManager, nextConn: ConnId): Lobby
    reads p, b, r
  {
    Lobby(p.handlers, p.names, p.cars, b.bindings, r.rooms, r.nextRoomId, nextConn)
  }

  // ------------------------------------------------------------------ tables

  class PendingManager {
    var handlers: map<ConnId, Handler>
    var names: map<ConnId, string>
    var cars: map<ConnId, nat>

    constructor ()
      ensures handlers == map[] && names == map[] && cars == map[]
    {
      handlers, names, cars := map[], map[], map[];
    }

    method AddPending(c: ConnId, h: Handler)
      modifies `handlers
      ensures handlers == old(handlers)[c := h]
    {
      handlers := handlers[c := h];
    }

    method TakePending(c: ConnId) returns (h: Option<Handler>)
      modifies `handlers
      ensures h == if c in old(handlers) then Some(old(handlers)[c]) else None
      ensures handlers == old(handlers) - {c}
    {
      if c !in handlers {
        h := None;
      } else {
        h := Some(handlers[c]);
        handlers := handlers - {c};
      }
    }

    method StorePendingName(c: ConnId, name: string)
      modifies `names
      ensures names == old(names)[c := name]
    {
      names := names[c := name];
    }

    method TakePendingName(c: ConnId) returns (name: Option<string>)
      modifies `names
      ensures name == if c in old(names) then Some(old(names)[c]) else None
      ensures names == old(names) - {c}
    {
      if c !in names {
        name := None;
      } else {
        name := Some(names[c]);
        names := names - {c};
      }
    }

    method StorePendingCar(c: ConnId, car: nat)
      modifies `cars
      ensures cars == old(cars)[c := car]
    {
      cars := cars[c := car];
    }

    method TakePendingCar(c: ConnId) returns (car: Option<nat>)
      modifies `cars
      ensures car == if c in old(cars) then Some(old(cars)[c]) else None
      ensures cars == old(cars) - {c}
    {
      if c !in cars {
        car := None;
      } else {
        car := Some(cars[c]);
        cars := cars - {c};
      }
    }
  }

  /** The list names every element of the set once and nothing else. */
  ghost predicate Enumerates<T(!new)>(xs: seq<T>, s: set<T>) {
    && (forall i, j | 0 <= i < j < |xs| :: xs[i] != xs[j])
    && forall x :: x in xs <==> x in s
  }

  class BindingManager {
    var bindings: map<ConnId, Binding>

    constructor ()
      ensures bindings == map[]
    {
      bindings := map[];
    }

    method AddBinding(c: ConnId, r: RoomId, p: PlayerId)
      modifies this
      ensures bindings == old(bindings)[c := Binding(r, p)]
    {
      bindings := bindings[c := Binding(r, p)];
    }

    method RemoveBinding(c: ConnId) returns (b: Option<Binding>)
      modifies this
      ensures b == if c in old(bindings) then Some(old(bindings)[c]) else None
      ensures bindings == old(bindings) - {c}
    {
      if c !in bindings {
        b := None;
      } else {
        b := Some(bindings[c]);
        bindings := bindings - {c};
      }
    }

    method FindBinding(c: ConnId) returns (b: Option<Binding>)
      ensures b == if c in bindings then Some(bindings[c]) else None
    {
      b := if c in bindings then Some(bindings[c]) else None;
    }

    /** In the table's own order, which is any order. */
    method ConnsInRoom(r: RoomId) returns (conns: seq<ConnId>)
      ensures Enumerates(conns, Members(bindings, r).Keys)
    {
      conns := [];
      var left := bindings.Keys;
      ghost var seen := {};
      while left != {}
        invariant left + seen == bindings.Keys && left !! seen
        invariant Enumerates(conns, SeenIn(bindings, seen, r))
        decreases |left|
      {
        var c :| c in left;
        OneMoreSeen(bindings, seen, r, c);
        if bindings[c].room == r {
          EnumeratesOneMore(conns, SeenIn(bindings, seen, r), c, SeenIn(bindings, seen + {c}, r));
          conns := conns + [c];
        }
        left := left - {c};
        seen := seen + {c};
      }
      AllSeen(bindings, r);
      assert seen == bindings.Keys;
    }

    method CountInRoom(r: RoomId) returns (n: nat)
      ensures n == |Members(bindings, r)|
    {
      n := 0;
      var left := bindings.Keys;
      ghost var seen := {};
      while left != {}
        invariant left + seen == bindings.Keys && left !! seen
        invariant n == |SeenIn(bindings, seen, r)|
        decreases |left|
      {
        var c :| c in left;
        OneMoreSeen(bindings, seen, r, c);
        if bindings[c].room == r {
          n := n + 1;
        }
        left := left - {c};
        seen := seen + {c};
      }
      AllSeen(bindings, r);
      assert seen == bindings.Keys;
      assert |Members(bindings, r)| == |Members(bindings, r).Keys|;
    }
  }

  /** Which of the connections looked at so far are in the room. */
  ghost function SeenIn(bindings: map<ConnId, Binding>, seen: set<ConnId>, r: RoomId): set<ConnId> {
    set c | c in seen && c in bindings && bindings[c].room == r
  }

  lemma OneMoreSeen(bindings: map<ConnId, Binding>, seen: set<ConnId>, r: RoomId, c: ConnId)
    requires c in bindings && c !in seen
    ensures SeenIn(bindings, seen + {c}, r) == SeenIn(bindings, seen, r) + if bindings[c].room == r then {c} else {}
    ensures c !in SeenIn(bindings, seen, r)
  {
  }

  lemma AllSeen(bindings: map<ConnId, Binding>, r: RoomId)
    ensures SeenIn(bindings, bindings.Keys, r) == Members(bindings, r).Keys
  {
  }

  lemma EnumeratesOneMore<T(!new)>(xs: seq<T>, s: set<T>, x: T, s': set<T>)
    requires Enumerates(xs, s) && x !in s && s' == s + {x}
    ensures Enumerates(xs + [x], s')
  {
    assert forall i | 0 <= i < |xs| :: xs[i] in xs;
  }

  // ------------------------------------------------------------------ a room's clients and players

  /** Takes the connection's handler out of the list. */
  method RemoverPorConnId(clients: seq<Handler>, c: ConnId) returns (h: Option<Handler>, rest: seq<Handler>)
    ensures rest == Without(clients, c)
    ensures if Handler(c) in clients then h == Some(Handler(c)) else h == None
  {
    var i := 0;
    while i < |clients|
      invariant 0 <= i <= |clients|
      invariant Handler(c) !in clients[..i] && Without(clients, c) == clients[..i] + Without(clients[i..], c)
    {
      if clients[i].id == c {
        assert clients[i..][1..] == clients[i + 1..];
        return Some(clients[i]), clients[..i] + clients[i + 1..];
      }
      assert clients[i..][1..] == clients[i + 1..];
      assert clients[..i + 1] == clients[..i] + [clients[i]];
      i := i + 1;
    }
    assert clients[..i] == clients;
    return None, clients;
  }

  /** Drops the handlers whose threads have ended, and says whose they were. */
  method ReapClients(clients: seq<Handler>, dead: set<ConnId>) returns (rest: seq<Handler>, removed: seq<ConnId>)
    ensures rest == Alive(clients, dead)
    ensures forall c :: c in removed <==> c in dead && Handler(c) in clients
  {
    rest, removed := [], [];
    for i := 0 to |clients|
      invariant rest == Alive(clients[..i], dead)
      invariant forall c :: c in removed <==> c in dead && Handler(c) in clients[..i]
    {
      assert clients[..i + 1] == clients[..i] + [clients[i]] && clients[..i + 1][..i] == clients[..i];
      if clients[i].id in dead {
        removed := removed + [clients[i].id];
      } else {
        rest := rest + [clients[i]];
      }
    }
    assert clients[..|clients|] == clients;
  }

  /** The game takes the first free player id from its running index on; a car that the garage does not
      have is refused. */
  method AddPlayer(roster: Roster, name: string, car: nat) returns (id: Option<PlayerId>, roster': Roster)
    ensures car >= CARS ==> id == None && roster' == roster
    ensures car < CARS ==>
              var p := FreePlayer(roster.names, roster.idIndex);
              id == Some(p) && roster' == Roster(roster.names[p := name], p)
  {
    if car >= CARS {
      return None, roster;
    }
    var p := roster.idIndex;
    while p in roster.names
      invariant FreePlayer(roster.names, p) == FreePlayer(roster.names, roster.idIndex)
      decreases |UsedFrom(roster.names, p)|
    {
      FewerAbove(roster.names, p);
      p := p + 1;
    }
    return Some(p), Roster(roster.names[p := name], p);
  }

  // ------------------------------------------------------------------ rooms

  datatype PlayerInfo = PlayerInfo(player: PlayerId, name: string, admin: bool)

  datatype RoomInfo = RoomInfo(id: RoomId, current: nat, maxPlayers: nat)

  /** What the players' list says of one member. */
  ghost predicate Describes(info: PlayerInfo, room: Room, b: Binding, c: ConnId) {
    && b.room == room.id && b.player in room.roster.names
    && info == PlayerInfo(b.player, room.roster.names[b.player], c == room.creator)
  }

  /** One entry for every member of the room, in some order of their connections. */
  ghost predicate ListsPlayers(players: seq<PlayerInfo>, room: Room, bindings: map<ConnId, Binding>) {
    exists conns: seq<ConnId> :: Enumerates(conns, Members(bindings, room.id).Keys) && DescribeAll(players, conns, room, bindings)
  }

  ghost predicate DescribeAll(players: seq<PlayerInfo>, conns: seq<ConnId>, room: Room, bindings: map<ConnId, Binding>) {
    |players| == |conns| && forall i | 0 <= i < |conns| :: conns[i] in bindings && Describes(players[i], room, bindings[conns[i]], conns[i])
  }

  class RoomManager {
    var rooms: map<RoomId, Room>
    var nextRoomId: RoomId

    constructor ()
      ensures rooms == map[] && nextRoomId == 1
    {
      rooms, nextRoomId := map[], 1;
    }

    /** The 8-bit counter skips the ids in use and wraps around. */
    method SkipUsedIds()
      requires SearchEnds(rooms.Keys, nextRoomId)
      modifies this`nextRoomId
      ensures nextRoomId == FoundId(rooms.Keys, old(nextRoomId)) && nextRoomId !in rooms
    {
      ghost var k: nat :| StopsAt(rooms.Keys, nextRoomId, k);
      ghost var turns: nat := 0;
      while nextRoomId in rooms
        invariant turns <= k && nextRoomId == Turned(old(nextRoomId), turns)
        decreases k - turns
      {
        TurnedOnce(old(nextRoomId), turns);
        nextRoomId := (nextRoomId + 1) % 256;
        turns := turns + 1;
      }
      StopsOnce(rooms.Keys, old(nextRoomId), k);
    }

    method CreateRoom(maxPlayers: nat, creator: ConnId) returns (rid: RoomId)
      requires SearchEnds(rooms.Keys, nextRoomId)
      modifies this
      ensures rid == FoundId(old(rooms).Keys, old(nextRoomId)) && rid !in old(rooms)
      ensures rooms == old(rooms)[rid := Room(rid, maxPlayers, creator, Roster(map[], 0), [], false, [])]
      ensures nextRoomId == (rid + 1) % 256
    {
      SkipUsedIds();
      rid := nextRoomId;
      nextRoomId := (nextRoomId + 1) % 256;
      rooms := rooms[rid := Room(rid, maxPlayers, creator, Roster(map[], 0), [], false, [])];
    }

    /** The open rooms in the order of their ids, each with the number of its members. */
    method ListRoomsWithCounts(bindings: BindingManager) returns (infos: seq<RoomInfo>)
      ensures forall i, j | 0 <= i < j < |infos| :: infos[i].id < infos[j].id
      ensures forall i | 0 <= i < |infos| ::
                && infos[i].id in rooms && !rooms[infos[i].id].started
                && infos[i].current == |Members(bindings.bindings, infos[i].id)|
                && infos[i].maxPlayers == rooms[infos[i].id].maxPlayers
      ensures forall r | r in rooms && !rooms[r].started :: exists i :: 0 <= i < |infos| && infos[i].id == r
    {
      infos := [];
      for r := 0 to 256
        invariant forall i, j | 0 <= i < j < |infos| :: infos[i].id < infos[j].id
        invariant forall i | 0 <= i < |infos| ::
                    && infos[i].id < r && infos[i].id in rooms && !rooms[infos[i].id].started
                    && infos[i].current == |Members(bindings.bindings, infos[i].id)|
                    && infos[i].maxPlayers == rooms[infos[i].id].maxPlayers
        invariant forall q | q in rooms && !rooms[q].started && q < r :: exists i :: 0 <= i < |infos| && infos[i].id == q
      {
        if r in rooms && !rooms[r].started {
          var current := bindings.CountInRoom(r);
          ghost var was := infos;
          infos := infos + [RoomInfo(r, current, rooms[r].maxPlayers)];
          assert infos[|was|].id == r;
          forall q | q in rooms && !rooms[q].started && q < r
            ensures exists i :: 0 <= i < |infos| && infos[i].id == q
          {
            var i :| 0 <= i < |was| && was[i].id == q;
            assert infos[i].id == q;
          }
        }
      }
    }

    /** One entry for every member, in the order of the binding table; only the creator is the admin. */
    method PlayersList(r: RoomId, bindings: BindingManager) returns (players: seq<PlayerInfo>)
      requires r in rooms && rooms[r].id == r && forall c | c in bindings.bindings :: BoundTo(bindings.bindings[c], rooms)
      ensures ListsPlayers(players, rooms[r], bindings.bindings)
    {
      var conns := bindings.ConnsInRoom(r);
      players := [];
      for i := 0 to |conns|
        invariant |players| == i
        invariant forall k | 0 <= k < i :: conns[k] in bindings.bindings && Describes(players[k], rooms[r], bindings.bindings[conns[k]], conns[k])
      {
        assert conns[i] in Members(bindings.bindings, r).Keys;
        var b := bindings.bindings[conns[i]];
        players := players + [PlayerInfo(b.player, rooms[r].roster.names[b.player], conns[i] == rooms[r].creator)];
      }
    }

    method JoinRoomFromPending(c: ConnId, r: RoomId, pending: PendingManager, bindings: BindingManager, ghost n: ConnId)
      returns (ok: bool)
      requires c in pending.handlers ==> pending.handlers[c] == Handler(c)
      modifies this, pending, bindings
      ensures Snapshot(pending, bindings, this, n) == Join(old(Snapshot(pending, bindings, this, n)), c, r)
      ensures ok <==> old(CanJoin(Snapshot(pending, bindings, this, n), c, r) && (c in pending.cars ==> pending.cars[c] < CARS))
    {
      ghost var l := Snapshot(pending, bindings, this, n);
      if r !in rooms || rooms[r].started {
        return false;
      }
      var current := bindings.CountInRoom(r);
      if current >= rooms[r].maxPlayers {
        return false;
      }
      if c !in pending.handlers {
        return false;
      }
      ok := MoveIn(c, r, pending, bindings);
      if ok {
        JoinSucceeds(l, c, r);
      } else {
        JoinRefused(l, c, r);
      }
    }

    /** Takes the handler out of the pending ones, and puts it back when the game refuses the car. */
    method MoveIn(c: ConnId, r: RoomId, pending: PendingManager, bindings: BindingManager) returns (ok: bool)
      requires r in rooms && c in pending.handlers && pending.handlers[c] == Handler(c)
      modifies this`rooms, pending, bindings
      ensures pending.names == old(pending.names) - {c} && pending.cars == old(pending.cars) - {c}
      ensures ok <==> (c in old(pending.cars) ==> old(pending.cars)[c] < CARS)
      ensures !ok ==> rooms == old(rooms) && bindings.bindings == old(bindings.bindings) && pending.handlers == old(pending.handlers)
      ensures ok ==>
                var p := FreePlayer(old(rooms)[r].roster.names, old(rooms)[r].roster.idIndex);
                && pending.handlers == old(pending.handlers) - {c}
                && bindings.bindings == old(bindings.bindings)[c := Binding(r, p)]
                && rooms == old(rooms)[r := Admitted(old(rooms)[r], p, PendingName(old(pending.names), c), Handler(c))]
    {
      ghost var before := pending.handlers;
      var handler := pending.TakePending(c);
      ok := Admit(c, r, handler.value, pending, bindings);
      if !ok {
        pending.AddPending(c, handler.value);
        PutBack(before, c);
      }
    }

    /** Spends the pending name and car on a player, and unless the game refuses the car, lets the
        handler into the room. */
    method Admit(c: ConnId, r: RoomId, handler: Handler, pending: PendingManager, bindings: BindingManager) returns (ok: bool)
      requires r in rooms
      modifies this`rooms, pending`names, pending`cars, bindings
      ensures pending.names == old(pending.names) - {c} && pending.cars == old(pending.cars) - {c}
      ensures ok <==> (c in old(pending.cars) ==> old(pending.cars)[c] < CARS)
      ensures !ok ==> rooms == old(rooms) && bindings.bindings == old(bindings.bindings)
      ensures ok ==>
                var p := FreePlayer(old(rooms)[r].roster.names, old(rooms)[r].roster.idIndex);
                && bindings.bindings == old(bindings.bindings)[c := Binding(r, p)]
                && rooms == old(rooms)[r := Admitted(old(rooms)[r], p, PendingName(old(pending.names), c), handler)]
    {
      var username := "";
      var pn := pending.TakePendingName(c);
      if pn.Some? {
        username := pn.value;
      }
      var car := 0;
      var pc := pending.TakePendingCar(c);
      if pc.Some? {
        car := pc.value;
      }
      var player, roster := AddPlayer(rooms[r].roster, username, car);
      if player == None {
        return false;
      }
      bindings.AddBinding(c, r, player.value);
      rooms := rooms[r := rooms[r].(roster := roster, clients := rooms[r].clients + [handler])];
      return true;
    }

    /** Takes the connection out of its room and gives its handler back. */
    method DetachFromRoom(c: ConnId, pending: PendingManager, bindings: BindingManager, ghost n: ConnId)
      returns (handler: Option<Handler>)
      requires Seated(Snapshot(pending, bindings, this, n)) && Listed(Snapshot(pending, bindings, this, n), c)
      modifies this, pending`names, bindings
      ensures handler == if c in old(bindings.bindings) then Some(Handler(c)) else None
      ensures c !in old(bindings.bindings) ==> Snapshot(pending, bindings, this, n) == old(Snapshot(pending, bindings, this, n))
      ensures c in old(bindings.bindings) ==> Snapshot(pending, bindings, this, n) == Detach(old(Snapshot(pending, bindings, this, n)), c)
    {
      ghost var l := Snapshot(pending, bindings, this, n);
      var found := bindings.FindBinding(c);
      if found == None {
        return None;
      }
      DetachFields(l, c);
      handler := TakeOut(c, found.value, pending, bindings);
    }

    method TakeOut(c: ConnId, b: Binding, pending: PendingManager, bindings: BindingManager) returns (handler: Option<Handler>)
      requires c in bindings.bindings && bindings.bindings[c] == b && BoundTo(b, rooms) && Handler(c) in rooms[b.room].clients
      modifies this`rooms, pending`names, bindings
      ensures handler == Some(Handler(c)) && bindings.bindings == old(bindings.bindings) - {c}
      ensures pending.names == WithName(old(pending.names), c, old(rooms)[b.room].roster.names[b.player])
      ensures rooms == RoomsWithout(old(rooms), b, c, Members(old(bindings.bindings), b.room))
    {
      var room := rooms[b.room];
      var rest;
      handler, rest := RemoverPorConnId(room.clients, c);
      var username := room.roster.names[b.player];
      if username != "" {
        pending.StorePendingName(c, username);
      }
      var _ := bindings.RemoveBinding(c);
      var others := bindings.ConnsInRoom(b.room);
      OthersDoNotNotice(old(bindings.bindings), c, b.room);
      NobodyLeft(others, Members(old(bindings.bindings), b.room), c);
      if |others| == 0 {
        rooms := rooms - {b.room};
      } else {
        rooms := rooms[b.room := room.(clients := rest, roster := room.roster.(names := room.roster.names - {b.player}))];
      }
    }

    /** Visits the rooms in the order of their ids: the members whose threads are dead leave, and a room
        without members is closed. */
    method Reap(bindings: BindingManager, dead: set<ConnId>)
      requires forall r: RoomId ::
                 if r in rooms then ListsMembers(rooms[r].clients, Members(bindings.bindings, r)) else Members(bindings.bindings, r) == map[]
      modifies this`rooms, bindings
      ensures bindings.bindings == BindingsAfter(old(bindings.bindings), dead, 256)
      ensures rooms == RoomsAfter(old(rooms), old(bindings.bindings), dead, 256)
    {
      ghost var b0 := bindings.bindings;
      NothingReaped(rooms, b0, dead);
      for r := 0 to 256
        invariant bindings.bindings == BindingsAfter(b0, dead, r)
        invariant rooms == RoomsAfter(old(rooms), b0, dead, r)
      {
        MembersUntouched(b0, dead, r);
        if r in rooms {
          ReapRoom(r, bindings, dead);
          OneMoreRoom(old(rooms), b0, dead, r);
        } else {
          NoSuchRoom(old(rooms), b0, dead, r);
        }
      }
    }

    method ReapRoom(r: RoomId, bindings: BindingManager, dead: set<ConnId>)
      requires r in rooms && ListsMembers(rooms[r].clients, Members(bindings.bindings, r))
      modifies this`rooms, bindings
      ensures bindings.bindings == old(bindings.bindings) - (dead * Members(old(bindings.bindings), r).Keys)
      ensures rooms == RoomsReaped(old(rooms), r, Members(old(bindings.bindings), r), dead)
    {
      ghost var b0 := bindings.bindings;
      ghost var ms := Members(b0, r);
      var room := rooms[r];
      var rest, removed := ReapClients(room.clients, dead);
      var names := room.roster.names;
      for i := 0 to |removed|
        invariant rooms == old(rooms)
        invariant bindings.bindings == b0 - Elements(removed[..i])
        invariant names == room.roster.names - PlayersOf(ms, Elements(removed[..i]))
      {
        OneMoreElement(removed, i);
        assert removed[i] in removed;
        var b := bindings.FindBinding(removed[i]);
        if b.Some? {
          names := names - {b.value.player};
          var _ := bindings.RemoveBinding(removed[i]);
        }
      }
      assert removed[..|removed|] == removed;
      assert Elements(removed) == dead * ms.Keys;
      SamePlayersGo(ms, dead);
      var others := bindings.ConnsInRoom(r);
      MembersAfterLeaving(b0, dead * ms.Keys, r);
      NobodyStays(others, ms, dead);
      if |others| == 0 {
        rooms := rooms - {r};
      } else {
        rooms := rooms[r := room.(clients := rest, roster := room.roster.(names := names))];
      }
    }

    method IsCreator(c: ConnId, r: RoomId) returns (yes: bool)
      ensures yes <==> r in rooms && rooms[r].creator == c
    {
      yes := r in rooms && rooms[r].creator == c;
    }

    /** Closes the room to newcomers. */
    method StartRoomGame(r: RoomId)
      modifies `rooms
      ensures rooms == if r in old(rooms) then old(rooms)[r := old(rooms)[r].(started := true)] else old(rooms)
    {
      if r in rooms {
        rooms := rooms[r := rooms[r].(started := true)];
      }
    }

    method ApplyPlayerName(r: RoomId, p: PlayerId, name: string)
      requires r in rooms ==> p in rooms[r].roster.names
      modifies `rooms
      ensures rooms == if r in old(rooms) then old(rooms)[r := Renamed(old(rooms)[r], p, name)] else old(rooms)
    {
      if r in rooms {
        var room := rooms[r];
        rooms := rooms[r := room.(roster := room.roster.(names := room.roster.names[p := name]))];
      }
    }

    /** Puts an action into the room's own queue, behind what is there. */
    method PushToRoom(r: RoomId, p: PlayerId, action: GameInput) returns (ok: bool)
      modifies `rooms
      ensures ok <==> r in old(rooms)
      ensures rooms == if r in old(rooms) then old(rooms)[r := Queued(old(rooms)[r], p, action)] else old(rooms)
    {
      if r !in rooms {
        return false;
      }
      rooms := rooms[r := rooms[r].(actions := rooms[r].actions + [Routed(p, action)])];
      return true;
    }
  }

  ghost predicate ListsMembers(clients: seq<Handler>, ms: map<ConnId, PlayerId>) {
    forall c: ConnId :: Handler(c) in clients <==> c in ms
  }

  ghost function Elements<T>(xs: seq<T>): set<T> { set x | x in xs }

  lemma OneMoreElement<T>(xs: seq<T>, i: nat)
    requires i < |xs|
    ensures Elements(xs[..i + 1]) == Elements(xs[..i]) + {xs[i]}
  {
    assert xs[..i + 1] == xs[..i] + [xs[i]];
  }

  ghost function PlayersOf(ms: map<ConnId, PlayerId>, cs: set<ConnId>): set<PlayerId> {
    set c | c in ms && c in cs :: ms[c]
  }

  ghost function RoomsReaped(rooms: map<RoomId, Room>, r: RoomId, ms: map<ConnId, PlayerId>, dead: set<ConnId>): map<RoomId, Room>
    requires r in rooms
  {
    if ms - dead == map[] then rooms - {r} else rooms[r := ReapedRoom(rooms[r], ms, dead)]
  }

  ghost function BindingsAfter(b0: map<ConnId, Binding>, dead: set<ConnId>, k: nat): map<ConnId, Binding> {
    map c | c in b0 && !(c in dead && b0[c].room < k) :: b0[c]
  }

  ghost function RoomsAfter(rooms: map<RoomId, Room>, b0: map<ConnId, Binding>, dead: set<ConnId>, k: nat): map<RoomId, Room> {
    map r | r in rooms && (r < k ==> Members(b0, r) - dead != map[])
      :: if r < k then ReapedRoom(rooms[r], Members(b0, r), dead) else rooms[r]
  }

  lemma SamePlayersGo(ms: map<ConnId, PlayerId>, dead: set<ConnId>)
    ensures PlayersOf(ms, dead * ms.Keys) == set c | c in ms && c in dead :: ms[c]
  {
  }

  lemma NobodyStays(others: seq<ConnId>, ms: map<ConnId, PlayerId>, dead: set<ConnId>)
    requires Enumerates(others, (ms - dead * ms.Keys).Keys)
    ensures |others| == 0 <==> ms - dead == map[]
  {
    assert ms - dead * ms.Keys == ms - dead;
    if |others| > 0 {
      assert others[0] in others;
    } else {
      assert forall d :: d in others <==> d in (ms - dead).Keys;
      assert (ms - dead).Keys == {};
    }
  }

  lemma NothingReaped(rooms: map<RoomId, Room>, b0: map<ConnId, Binding>, dead: set<ConnId>)
    ensures BindingsAfter(b0, dead, 0) == b0 && RoomsAfter(rooms, b0, dead, 0) == rooms
  {
  }

  lemma MembersUntouched(b0: map<ConnId, Binding>, dead: set<ConnId>, r: RoomId)
    ensures Members(BindingsAfter(b0, dead, r), r) == Members(b0, r)
  {
  }

  lemma OneMoreRoom(rooms: map<RoomId, Room>, b0: map<ConnId, Binding>, dead: set<ConnId>, r: RoomId)
    requires r in rooms
    ensures r in RoomsAfter(rooms, b0, dead, r)
    ensures BindingsAfter(b0, dead, r + 1) == BindingsAfter(b0, dead, r) - (dead * Members(b0, r).Keys)
    ensures RoomsAfter(rooms, b0, dead, r + 1) == RoomsReaped(RoomsAfter(rooms, b0, dead, r), r, Members(b0, r), dead)
  {
    OneMoreRoomsBindings(b0, dead, r);
    OneMoreRoomsRooms(rooms, b0, dead, r);
  }

  lemma OneMoreRoomsRooms(rooms: map<RoomId, Room>, b0: map<ConnId, Binding>, dead: set<ConnId>, r: RoomId)
    requires r in rooms
    ensures r in RoomsAfter(rooms, b0, dead, r)
    ensures RoomsAfter(rooms, b0, dead, r + 1) == RoomsReaped(RoomsAfter(rooms, b0, dead, r), r, Members(b0, r), dead)
  {
  }

  lemma OneMoreRoomsBindings(b0: map<ConnId, Binding>, dead: set<ConnId>, r: RoomId)
    ensures BindingsAfter(b0, dead, r + 1) == BindingsAfter(b0, dead, r) - (dead * Members(b0, r).Keys)
  {
  }

  lemma NoSuchRoom(rooms: map<RoomId, Room>, b0: map<ConnId, Binding>, dead: set<ConnId>, r: RoomId)
    requires r !in rooms && Members(b0, r) == map[]
    ensures BindingsAfter(b0, dead, r + 1) == BindingsAfter(b0, dead, r)
    ensures RoomsAfter(rooms, b0, dead, r + 1) == RoomsAfter(rooms, b0, dead, r)
  {
    assert forall c | c in b0 && b0[c].room == r :: c in Members(b0, r);
  }

  ghost function PendingName(names: map<ConnId, string>, c: ConnId): string {
    if c in names then names[c] else ""
  }

  ghost function WithName(names: map<ConnId, string>, c: ConnId, name: string): map<ConnId, string> {
    if name != "" then names[c := name] else names
  }

  ghost function Admitted(room: Room, p: PlayerId, name: string, handler: Handler): Room {
    room.(roster := Roster(room.roster.names[p := name], p), clients := room.clients + [handler])
  }

  ghost function RoomsWithout(rooms: map<RoomId, Room>, b: Binding, c: ConnId, ms: map<ConnId, PlayerId>): map<RoomId, Room>
    requires b.room in rooms
  {
    if ms.Keys == {c} then rooms - {b.room} else rooms[b.room := RemoveMember(rooms[b.room], c, b.player)]
  }

  lemma PutBack<K, V>(m: map<K, V>, k: K)
    requires k in m
    ensures (m - {k})[k := m[k]] == m
  {
  }

  lemma JoinRefused(l: Lobby, c: ConnId, r: RoomId)
    requires CanJoin(l, c, r) && c in l.cars && l.cars[c] >= CARS
    ensures Join(l, c, r) == Lobby(l.handlers, l.names - {c}, l.cars - {c}, l.bindings, l.rooms, l.nextRoom, l.nextConn)
  {
  }

  lemma JoinSucceeds(l: Lobby, c: ConnId, r: RoomId)
    requires CanJoin(l, c, r) && (c in l.cars ==> l.cars[c] < CARS)
    ensures var p := FreePlayer(l.rooms[r].roster.names, l.rooms[r].roster.idIndex);
            Join(l, c, r)
            == Lobby(l.handlers - {c}, l.names - {c}, l.cars - {c}, l.bindings[c := Binding(r, p)],
                     l.rooms[r := Admitted(l.rooms[r], p, PendingName(l.names, c), Handler(c))], l.nextRoom, l.nextConn)
  {
  }

  lemma DetachFields(l: Lobby, c: ConnId)
    requires Seated(l) && c in l.bindings
    ensures var b := l.bindings[c];
            BoundTo(b, l.rooms)
            && Detach(l, c)
            == Lobby(l.handlers, WithName(l.names, c, l.rooms[b.room].roster.names[b.player]), l.cars, l.bindings - {c},
                     RoomsWithout(l.rooms, b, c, Members(l.bindings, b.room)), l.nextRoom, l.nextConn)
  {
  }

  /** A bound connection's handler is in the list of its room. */
  ghost predicate Listed(l: Lobby, c: ConnId) {
    c in l.bindings ==> l.bindings[c].room in l.rooms && Handler(c) in l.rooms[l.bindings[c].room].clients
  }

  lemma HandlersKnowTheirIds(l: Lobby, c: ConnId)
    requires Inv(l)
    ensures c in l.handlers ==> l.handlers[c] == Handler(c)
  {
  }

  lemma MembersAreListed(l: Lobby, c: ConnId)
    requires Inv(l)
    ensures Seated(l) && Listed(l, c)
  {
    InvMeansSeated(l);
    if c in l.bindings {
      LobbyTheorems.EveryHandlerHasOnePlace(l, c, l.bindings[c].room);
    }
  }

  lemma NobodyLeft(others: seq<ConnId>, ms: map<ConnId, PlayerId>, c: ConnId)
    requires Enumerates(others, (ms - {c}).Keys) && c in ms
    ensures |others| == 0 <==> ms.Keys == {c}
  {
    if |others| > 0 {
      assert others[0] in others;
    } else {
      forall d | d in ms
        ensures d == c
      {
        assert d in others || d !in (ms - {c}).Keys;
      }
    }
  }

  // ------------------------------------------------------------------ the lobby

  datatype ClientAction =
    | RoomAction(id: ConnId, cmd: nat, room: RoomId)
    | NameAction(id: ConnId, username: string)
    | ChooseCarAction(id: ConnId, car: nat)
    | StartGameAction(id: ConnId)
    | GameAction(id: ConnId, action: GameInput)
    | Unknown

  /** What an action asks of the lobby; actions for a running match only pass through. */
  function EventsOf(a: ClientAction): seq<Event> {
    match a
    case RoomAction(c, cmd, r) =>
      if cmd == ROOM_CREATE then [CreateRoom(c)]
      else if cmd == ROOM_JOIN then [JoinRoom(c, r)]
      else if cmd == ROOM_LEAVE then [LeaveRoom(c)]
      else []
    case NameAction(c, name) => [SetName(c, name)]
    case ChooseCarAction(c, car) => [ChooseCar(c, car)]
    case StartGameAction(c) => [StartGame(c)]
    case GameAction(c, action) => [Send(c, action)]
    case _ => []
  }

  class MonitorLobby {
    const rooms: RoomManager
    const pending: PendingManager
    const bindings: BindingManager
    var nextConnId: ConnId

    ghost function View(): Lobby
      reads this, rooms, pending, bindings
    {
      Snapshot(pending, bindings, rooms, nextConnId)
    }

    constructor ()
      ensures View() == NEW_LOBBY
      ensures fresh(rooms) && fresh(pending) && fresh(bindings)
    {
      rooms := new RoomManager();
      pending := new PendingManager();
      bindings := new BindingManager();
      nextConnId := 1;
    }

    /** A client that connects gets the next connection id and waits outside the rooms. */
    method Accept() returns (c: ConnId)
      modifies `nextConnId, pending
      ensures Seated(old(View())) ==> View() == Next(old(View()), Connect)
      ensures c == old(nextConnId)
    {
      c := nextConnId;
      nextConnId := nextConnId + 1;
      pending.AddPending(c, Handler(c));
    }

    method HandleCreate(c: ConnId)
      requires Inv(View()) && Legal(View(), CreateRoom(c))
      modifies rooms, pending, bindings
      ensures View() == Next(old(View()), CreateRoom(c))
    {
      ghost var l := View();
      MembersAreListed(l, c);
      LeaveKeepsInv(l, c);
      HandleLeave(c);
      HandlersKnowTheirIds(View(), c);
      OpenRoom(c);
    }

    /** Opens a room and lets its creator in, if it is waiting. */
    method OpenRoom(c: ConnId)
      requires FindsRoomId(View()) && (c in pending.handlers ==> pending.handlers[c] == Handler(c))
      modifies rooms, pending, bindings
      ensures View() == Join(NewRoom(old(View()), c), c, NextRoomId(old(View())))
    {
      var rid := rooms.CreateRoom(MAX_PLAYERS, c);
      assert View() == NewRoom(old(View()), c);
      if c in pending.handlers {
        var _ := rooms.JoinRoomFromPending(c, rid, pending, bindings, nextConnId);
      }
    }

    method HandleJoin(c: ConnId, r: RoomId)
      requires Inv(View())
      modifies rooms, pending, bindings
      ensures View() == Join(old(View()), c, r)
    {
      HandlersKnowTheirIds(View(), c);
      var _ := rooms.JoinRoomFromPending(c, r, pending, bindings, nextConnId);
    }

    method HandleLeave(c: ConnId)
      requires Seated(View()) && Listed(View(), c)
      modifies rooms, pending, bindings
      ensures View() == Leave(old(View()), c)
    {
      var handler := rooms.DetachFromRoom(c, pending, bindings, nextConnId);
      if handler.Some? {
        pending.AddPending(c, handler.value);
      }
    }

    method HandleRoomAction(c: ConnId, cmd: nat, r: RoomId)
      requires Inv(View()) && Seated(View()) && (cmd == ROOM_CREATE ==> Legal(View(), CreateRoom(c)))
      modifies rooms, pending, bindings
      ensures View() == if cmd == ROOM_CREATE then Create(old(View()), c)
                        else if cmd == ROOM_JOIN then Join(old(View()), c, r)
                        else if cmd == ROOM_LEAVE then Leave(old(View()), c)
                        else old(View())
    {
      if cmd == ROOM_CREATE {
        HandleCreate(c);
      } else if cmd == ROOM_JOIN {
        HandleJoin(c, r);
      } else if cmd == ROOM_LEAVE {
        MembersAreListed(View(), c);
        HandleLeave(c);
      }
    }

    method HandleNameAction(c: ConnId, name: string)
      requires Seated(View())
      modifies rooms, pending
      ensures View() == Next(old(View()), SetName(c, name))
    {
      var b := bindings.FindBinding(c);
      if b == None {
        pending.StorePendingName(c, name);
      } else {
        assert BoundTo(b.value, rooms.rooms);
        rooms.ApplyPlayerName(b.value.room, b.value.player, name);
      }
    }

    method HandleStartGame(c: ConnId)
      requires Seated(View())
      modifies rooms
      ensures View() == Next(old(View()), StartGame(c))
    {
      var b := bindings.FindBinding(c);
      if b == None {
        return;
      }
      assert BoundTo(b.value, rooms.rooms);
      var creator := rooms.IsCreator(c, b.value.room);
      if !creator {
        return;
      }
      rooms.StartRoomGame(b.value.room);
    }

    method HandleChooseCar(c: ConnId, car: nat)
      requires Seated(View())
      modifies pending
      ensures View() == Next(old(View()), ChooseCar(c, car))
    {
      pending.StorePendingCar(c, car);
    }

    /** Moves, purchases and cheats go into the queue of the sender's room, under its number there; of a bound
        connection none is ever turned down. */
    method Route(c: ConnId, action: GameInput)
      requires Seated(View())
      modifies rooms
      ensures View() == Next(old(View()), Send(c, action))
    {
      var b := bindings.FindBinding(c);
      if b == None {
        return;
      }
      assert BoundTo(b.value, rooms.rooms);
      var ok := rooms.PushToRoom(b.value.room, b.value.player, action);
    }

    method Reap(dead: set<ConnId>)
      requires Inv(View())
      modifies rooms, bindings
      ensures View() == ReapAll(old(View()), dead)
    {
      RoomsListMembers(View());
      rooms.Reap(bindings, dead);
      AllRoomsReaped(old(View()), dead);
    }

    method Dispatch(a: ClientAction)
      requires Inv(View()) && Seated(View()) && forall e | e in EventsOf(a) :: Legal(View(), e)
      modifies rooms, pending, bindings
      ensures View() == if EventsOf(a) == [] then old(View()) else Next(old(View()), EventsOf(a)[0])
    {
      match a
      case RoomAction(c, cmd, r) =>
        assert cmd == ROOM_CREATE ==> CreateRoom(c) in EventsOf(a);
        HandleRoomAction(c, cmd, r);
      case NameAction(c, name) => HandleNameAction(c, name);
      case ChooseCarAction(c, car) => HandleChooseCar(c, car);
      case StartGameAction(c) => HandleStartGame(c);
      case GameAction(c, action) => Route(c, action);
      case Unknown =>
    }

    /** One turn of the lobby's loop: it drains the queue of actions, then reaps. */
    method Turn(actions: seq<ClientAction>, dead: set<ConnId>)
      requires Inv(View()) && LobbyTheorems.Runnable(View(), AllEvents(actions))
      modifies rooms, pending, bindings
      ensures Inv(View())
      ensures View() == ReapAll(LobbyTheorems.Run(old(View()), AllEvents(actions)), dead)
    {
      ghost var l := View();
      for i := 0 to |actions|
        invariant LobbyTheorems.Runnable(l, AllEvents(actions[..i])) && View() == LobbyTheorems.Run(l, AllEvents(actions[..i]))
      {
        OneMoreAction(l, actions, i);
        Dispatch(actions[i]);
      }
      assert actions[..|actions|] == actions;
      LobbyTheorems.RunKeepsInv(l, AllEvents(actions));
      ReapKeepsInv(View(), dead);
      Reap(dead);
    }
  }

  function AllEvents(actions: seq<ClientAction>): seq<Event> {
    if actions == [] then [] else AllEvents(actions[..|actions| - 1]) + EventsOf(actions[|actions| - 1])
  }

  lemma {:induction false} RunnablePrefix(l: Lobby, es: seq<Event>, more: seq<Event>)
    requires LobbyTheorems.Runnable(l, es + more)
    ensures LobbyTheorems.Runnable(l, es)
    decreases |more|
  {
    if more == [] {
      assert es + more == es;
    } else {
      var all := es + more;
      assert all[..|all| - 1] == es + more[..|more| - 1];
      RunnablePrefix(l, es, more[..|more| - 1]);
    }
  }

  lemma {:induction false} PrefixOfEvents(l: Lobby, actions: seq<ClientAction>, i: nat)
    requires i <= |actions| && LobbyTheorems.Runnable(l, AllEvents(actions))
    ensures LobbyTheorems.Runnable(l, AllEvents(actions[..i]))
    decreases |actions|
  {
    if i == |actions| {
      assert actions[..i] == actions;
    } else {
      var n := |actions| - 1;
      RunnablePrefix(l, AllEvents(actions[..n]), EventsOf(actions[n]));
      PrefixOfEvents(l, actions[..n], i);
      assert actions[..n][..i] == actions[..i];
    }
  }

  lemma OneMoreAction(l: Lobby, actions: seq<ClientAction>, i: nat)
    requires Inv(l) && i < |actions| && LobbyTheorems.Runnable(l, AllEvents(actions))
    ensures LobbyTheorems.Runnable(l, AllEvents(actions[..i])) && LobbyTheorems.Runnable(l, AllEvents(actions[..i + 1]))
    ensures IsOneTurn(LobbyTheorems.Run(l, AllEvents(actions[..i])), EventsOf(actions[i]), LobbyTheorems.Run(l, AllEvents(actions[..i + 1])))
  {
    PrefixOfEvents(l, actions, i);
    PrefixOfEvents(l, actions, i + 1);
    EventsOneMore(actions, i);
    RunOneMore(l, AllEvents(actions[..i]), EventsOf(actions[i]));
  }

  lemma EventsOneMore(actions: seq<ClientAction>, i: nat)
    requires i < |actions|
    ensures AllEvents(actions[..i + 1]) == AllEvents(actions[..i]) + EventsOf(actions[i]) && |EventsOf(actions[i])| <= 1
  {
    assert actions[..i + 1][..i] == actions[..i];
  }

  /** From a lobby in order, the at most one event leads to the other lobby. */
  ghost predicate IsOneTurn(l: Lobby, es: seq<Event>, l': Lobby) {
    && Inv(l) && Seated(l) && (forall e | e in es :: Legal(l, e))
    && l' == if es == [] then l else Next(l, es[0])
  }

  lemma RunOneMore(l: Lobby, es: seq<Event>, more: seq<Event>)
    requires Inv(l) && |more| <= 1 && LobbyTheorems.Runnable(l, es + more) && LobbyTheorems.Runnable(l, es)
    ensures IsOneTurn(LobbyTheorems.Run(l, es), more, LobbyTheorems.Run(l, es + more))
  {
    LobbyTheorems.RunKeepsInv(l, es);
    InvMeansSeated(LobbyTheorems.Run(l, es));
    if more == [] {
      assert es + more == es;
    } else {
      LobbyTheorems.OneMoreEvent(l, es, more[0]);
      assert more == [more[0]];
      var all := es + more;
      assert all[..|all| - 1] == es && all[|all| - 1] == more[0];
    }
  }

  lemma RoomsListMembers(l: Lobby)
    requires RoomsOk(l.rooms, l.bindings)
    ensures forall r: RoomId :: if r in l.rooms then ListsMembers(l.rooms[r].clients, Members(l.bindings, r)) else Members(l.bindings, r) == map[]
  {
    forall r: RoomId
      ensures if r in l.rooms then ListsMembers(l.rooms[r].clients, Members(l.bindings, r)) else Members(l.bindings, r) == map[]
    {
      OneRoomListsMembers(l.rooms, l.bindings, r);
    }
  }

  lemma OneRoomListsMembers(rooms: map<RoomId, Room>, bindings: map<ConnId, Binding>, r: RoomId)
    requires RoomsOk(rooms, bindings)
    ensures if r in rooms then ListsMembers(rooms[r].clients, Members(bindings, r)) else Members(bindings, r) == map[]
  {
    if r in rooms {
      RoomListsMembers(rooms[r], r, Members(bindings, r));
    }
  }

  lemma RoomListsMembers(room: Room, r: RoomId, ms: map<ConnId, PlayerId>)
    requires RoomOk(room, r, ms)
    ensures ListsMembers(room.clients, ms)
  {
    forall c: ConnId
      ensures Handler(c) in room.clients <==> c in ms
    {
      assert Handler(c).id == c;
    }
  }

  lemma AllRoomsReaped(l: Lobby, dead: set<ConnId>)
    ensures BindingsAfter(l.bindings, dead, 256) == l.bindings - dead
    ensures RoomsAfter(l.rooms, l.bindings, dead, 256) == ReapAll(l, dead).rooms
  {
    forall r | r in l.rooms
      ensures Members(l.bindings - dead, r) == Members(l.bindings, r) - dead
    {
      MembersAfterLeaving(l.bindings, dead, r);
    }
  }
}
