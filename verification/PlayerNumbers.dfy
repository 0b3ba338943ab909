/** How the numbers of a room's players grow: the running index of server/game/game.cpp moves on when the number it
    stands on is taken, and leaving gives no number back before it. */
module PlayerNumbers {
  import opened Players
  import opened Lobbies
  import opened LobbyTheorems
  /** Connections 1 and 2 are the members of room 1, as players n and n + 1 in some order; 1 has opened it. */
  ghost predicate Pair(l: Lobby, first: ConnId, second: ConnId, n: PlayerId) {
    && l.bindings == map[first := Binding(1, n), second := Binding(1, n + 1)] && l.cars == map[]
    && l.rooms.Keys == {1} && PairRoom(l.rooms[1], {n, n + 1}, n + 1) && first + second == 3 && 1 <= first <= 2
  }

  ghost predicate PairRoom(room: Room, players: set<PlayerId>, idIndex: PlayerId) {
    && room.creator == 1 && room.maxPlayers == MAX_PLAYERS && !room.started
    && room.roster.names.Keys == players && room.roster.idIndex == idIndex
  }

  lemma FirstLeaves(l: Lobby, first: ConnId, second: ConnId, n: PlayerId)
    requires Seated(l) && l.bindings == map[first := Binding(1, n), second := Binding(1, n + 1)] && first != second
    requires l.cars == map[] && l.rooms.Keys == {1} && PairRoom(l.rooms[1], {n, n + 1}, n + 1)
    ensures var l' := Leave(l, first);
            && l'.bindings == map[second := Binding(1, n + 1)] && l'.cars == map[] && first in l'.handlers
            && l'.rooms.Keys == {1} && PairRoom(l'.rooms[1], {n + 1}, n + 1)
  {
    assert second in Members(l.bindings, 1).Keys;
    LeaveStays(l, first, 1, n);
    assert l.bindings - {first} == map[second := Binding(1, n + 1)];
    assert {n, n + 1} - {n} == {n + 1};
  }

  /** Leaving a room in which somebody else stays. */
  lemma LeaveStays(l: Lobby, c: ConnId, r: RoomId, p: PlayerId)
    requires Seated(l) && c in l.bindings && l.bindings[c] == Binding(r, p) && Members(l.bindings, r).Keys != {c}
    ensures var l' := Leave(l, c);
            && l'.bindings == l.bindings - {c} && l'.cars == l.cars && l'.handlers == l.handlers[c := Handler(c)]
            && l'.rooms == l.rooms[r := RemoveMember(l.rooms[r], c, p)]
  {
  }

  lemma FirstComesBack(l: Lobby, first: ConnId, second: ConnId, n: PlayerId)
    requires l.bindings == map[second := Binding(1, n + 1)] && l.cars == map[] && first in l.handlers && first != second
    requires l.rooms.Keys == {1} && PairRoom(l.rooms[1], {n + 1}, n + 1)
    ensures var l' := Join(l, first, 1);
            && l'.bindings == map[second := Binding(1, n + 1), first := Binding(1, n + 2)] && l'.cars == map[]
            && l'.rooms.Keys == {1} && PairRoom(l'.rooms[1], {n + 1, n + 2}, n + 2)
  {
    assert Members(l.bindings, 1) == map[second := n + 1];
    assert |Members(l.bindings, 1)| == 1;
    assert FreePlayer(l.rooms[1].roster.names, n + 1) == n + 2;
  }

  /** These events lead from the start of the server to this lobby. */
  ghost predicate LeadTo(es: seq<Event>, l: Lobby) { Runnable(NEW_LOBBY, es) && Run(NEW_LOBBY, es) == l }

  lemma OneStepFurther(es: seq<Event>, l: Lobby, e: Event)
    requires LeadTo(es, l) && (e.CreateRoom? ==> Legal(l, e))
    ensures Seated(l) && Legal(l, e) && LeadTo(es + [e], Next(l, e))
  {
    OnlyTheRoomLimitBlocks(es, e);
    OneMoreEvent(NEW_LOBBY, es, e);
    RunOneMore(NEW_LOBBY, es, e);
  }

  lemma LeaveThenJoin(l: Lobby, first: ConnId)
    requires Seated(l)
    ensures Next(l, LeaveRoom(first)) == Leave(l, first)
    ensures Legal(Leave(l, first), JoinRoom(first, 1)) ==> Next(Leave(l, first), JoinRoom(first, 1)) == Join(Leave(l, first), first, 1)
  {
  }

  /** The room of two, when the first has left and come back. */
  lemma TakingTurns(es: seq<Event>, l: Lobby, first: ConnId, second: ConnId, n: PlayerId, next: PlayerId)
    returns (es': seq<Event>, l': Lobby)
    requires LeadTo(es, l) && Pair(l, first, second, n) && next == n + 1
    ensures LeadTo(es', l') && Pair(l', second, first, next)
  {
    OneStepFurther(es, l, LeaveRoom(first));
    LeaveThenJoin(l, first);
    FirstLeaves(l, first, second, n);
    OneStepFurther(es + [LeaveRoom(first)], Leave(l, first), JoinRoom(first, 1));
    FirstComesBack(Leave(l, first), first, second, n);
    es', l' := es + [LeaveRoom(first)] + [JoinRoom(first, 1)], Join(Leave(l, first), first, 1);
  }

  // ------------------------------------------------------------------ the beginning

  const TWO_WAIT := NEW_LOBBY.(handlers := map[1 := Handler(1), 2 := Handler(2)], nextConn := 3)

  lemma TwoArrive()
    ensures LeadTo([] + [Connect] + [Connect], TWO_WAIT)
  {
    OneStepFurther([], NEW_LOBBY, Connect);
    OneStepFurther([] + [Connect], Next(NEW_LOBBY, Connect), Connect);
  }

  lemma FirstOpens(l: Lobby)
    requires l == TWO_WAIT
    ensures Legal(l, CreateRoom(1))
    ensures var l' := Next(l, CreateRoom(1));
            && l'.bindings == map[1 := Binding(1, 0)] && l'.cars == map[] && 2 in l'.handlers
            && l'.rooms.Keys == {1} && PairRoom(l'.rooms[1], {0}, 0)
  {
    assert StopsAt(l.rooms.Keys, l.nextRoom, 0);
    StopsOnce(l.rooms.Keys, l.nextRoom, 0);
    assert Leave(l, 1) == l && NextRoomId(l) == 1;
    assert Members(l.bindings, 1) == map[];
    assert FreePlayer(map[], 0) == 0;
  }

  lemma SecondJoins(l: Lobby)
    requires l.bindings == map[1 := Binding(1, 0)] && l.cars == map[] && 2 in l.handlers
    requires l.rooms.Keys == {1} && PairRoom(l.rooms[1], {0}, 0)
    ensures var l' := Join(l, 2, 1);
            && l'.bindings == map[1 := Binding(1, 0), 2 := Binding(1, 1)] && l'.cars == map[]
            && l'.rooms.Keys == {1} && PairRoom(l'.rooms[1], {0, 1}, 1)
  {
    assert Members(l.bindings, 1) == map[1 := 0];
    assert |Members(l.bindings, 1)| == 1;
    assert FreePlayer(l.rooms[1].roster.names, 0) == 1;
  }

  lemma TwoMeet() returns (es: seq<Event>, l: Lobby)
    ensures LeadTo(es, l) && Pair(l, 1, 2, 0)
  {
    var two := [] + [Connect] + [Connect];
    TwoArrive();
    FirstOpens(TWO_WAIT);
    OneStepFurther(two, TWO_WAIT, CreateRoom(1));
    var open := Next(TWO_WAIT, CreateRoom(1));
    OneStepFurther(two + [CreateRoom(1)], open, JoinRoom(2, 1));
    SecondJoins(open);
    es, l := two + [CreateRoom(1)] + [JoinRoom(2, 1)], Join(open, 2, 1);
  }

  /** There is no greatest player number: for every n some run of two clients, who leave their room and come back in
      turn, ends with players n and n + 1 in a room that its creator, who is one of them, can start. */
  lemma {:induction false} NumbersGrow(n: PlayerId)
    returns (es: seq<Event>, l: Lobby, first: ConnId, second: ConnId)
    ensures Runnable(NEW_LOBBY, es) && Run(NEW_LOBBY, es) == l && Pair(l, first, second, n)
    decreases n
  {
    if n == 0 {
      es, l := TwoMeet();
      first, second := 1, 2;
    } else {
      es, l, second, first := NumbersGrow(n - 1);
      es, l := TakingTurns(es, l, second, first, n - 1, n);
    }
  }
}
