/** The car that a client chooses is the one that its player drives: from server/monitor_lobby.cpp over
    server/pending_manager.cpp and server/room_manager.cpp to server/game/game.cpp. */
module ChosenCars {
  import opened Wrappers
  import opened Players
  import opened Garages
  import opened RoomLives
  import opened Servers
  import ServerTheorems
  import LobbyTheorems
  import L = Lobbies

  // ------------------------------------------------------------------ the choice

  /** The latest choice of a car that `c` has made. */
  function LastChoice(acts: seq<Act>, c: L.ConnId): Option<nat> {
    if acts == [] then None
    else
      var a := acts[|acts| - 1];
      if a.Ask? && a.request.ChooseCar? && a.request.conn == c then Some(a.request.car) else LastChoice(acts[..|acts| - 1], c)
  }

  /** A room takes `c` in, or turns it away for the car that it has chosen. */
  ghost predicate SpendsChoice(s: Server, a: Act, c: L.ConnId) {
    a.Ask? && ((a.request.JoinRoom? && a.request.conn == c && L.CanJoin(s.lobby, c, a.request.room))
               || (a.request.CreateRoom? && a.request.conn == c))
  }

  ghost predicate StaysOutside(s: Server, acts: seq<Act>, c: L.ConnId)
    requires Runnable(s, acts)
    decreases |acts|
  {
    acts == [] || (StaysOutside(s, acts[..|acts| - 1], c) && !SpendsChoice(Run(s, acts[..|acts| - 1]), acts[|acts| - 1], c))
  }

  ghost predicate SameChoice(cars: map<L.ConnId, nat>, cars': map<L.ConnId, nat>, c: L.ConnId) {
    (c in cars <==> c in cars') && (c in cars ==> cars'[c] == cars[c])
  }

  lemma JoinKeepsChoices(l: L.Lobby, d: L.ConnId, r: L.RoomId, c: L.ConnId)
    requires d == c ==> !L.CanJoin(l, d, r)
    ensures SameChoice(l.cars, L.Join(l, d, r).cars, c)
  {
  }

  lemma CreateKeepsChoices(l: L.Lobby, d: L.ConnId, c: L.ConnId)
    requires L.Seated(l) && d != c
    ensures SameChoice(l.cars, L.Create(l, d).cars, c)
  {
    LeaveUnbinds(l, d);
    NewRoomFields(L.Leave(l, d), d);
    JoinKeepsChoices(L.NewRoom(L.Leave(l, d), d), d, L.NextRoomId(L.Leave(l, d)), c);
  }

  lemma LobbyKeepsChoice(l: L.Lobby, e: L.Event, c: L.ConnId)
    requires L.Legal(l, e) && !(e.ChooseCar? && e.conn == c) && !(e.CreateRoom? && e.conn == c)
    requires e.JoinRoom? && e.conn == c ==> !L.CanJoin(l, c, e.room)
    ensures SameChoice(l.cars, L.Next(l, e).cars, c)
  {
    match e
    case CreateRoom(d) => CreateKeepsChoices(l, d, c);
    case JoinRoom(d, r) => JoinKeepsChoices(l, d, r, c);
    case LeaveRoom(d) => LeaveUnbinds(l, d);
    case _ =>
  }

  lemma ChoosingChooses(l: L.Lobby, c: L.ConnId, car: nat)
    requires L.Seated(l)
    ensures c in L.Next(l, L.ChooseCar(c, car)).cars && L.Next(l, L.ChooseCar(c, car)).cars[c] == car
  {
  }

  /** Whatever happens on the server, the last of several choices of a client counts, until a room takes it in or
      turns it away for its car. */
  lemma {:induction false} LastChoiceCounts(s: Server, acts: seq<Act>, c: L.ConnId)
    requires Runnable(s, acts) && StaysOutside(s, acts, c)
    ensures var cars := Run(s, acts).lobby.cars;
            if LastChoice(acts, c) == None then SameChoice(s.lobby.cars, cars, c)
            else c in cars && cars[c] == LastChoice(acts, c).value
    decreases |acts|
  {
    if acts != [] {
      var before, a := Run(s, acts[..|acts| - 1]), acts[|acts| - 1];
      LastChoiceCounts(s, acts[..|acts| - 1], c);
      if a.Ask? {
        if a.request.ChooseCar? && a.request.conn == c {
          ChoosingChooses(before.lobby, c, a.request.car);
        } else {
          LobbyKeepsChoice(before.lobby, a.request, c);
        }
      }
    }
  }

  // ------------------------------------------------------------------ the car

  /** `c` is in room `r` with a player that was not there before and drives that car; nobody else has changed. */
  ghost predicate ComesInWith(s: Server, s': Server, c: L.ConnId, r: L.RoomId, players: map<PlayerId, Player>, car: CarModel) {
    && IsIn(s'.lobby, c, r) && r in s'.halls
    && var p := s'.lobby.bindings[c].player;
       && p !in players && s'.halls[r].game.players.Keys == players.Keys + {p}
       && s'.halls[r].game.players[p] == Player(car, car, 0, 0)
       && forall q | q in players :: s'.halls[r].game.players[q] == players[q]
  }

  /** `c` is nowhere, and room `r` has the players it had. */
  ghost predicate StaysOut(s': Server, c: L.ConnId, r: L.RoomId, players: map<PlayerId, Player>) {
    c !in s'.lobby.bindings && c in s'.lobby.handlers && r in s'.halls && s'.halls[r].game.players == players
  }

  lemma JoinOutcome(l: L.Lobby, c: L.ConnId, r: L.RoomId)
    requires L.CanJoin(l, c, r) && c !in l.bindings
    ensures var l' := L.Join(l, c, r);
            && r in l'.rooms && c !in l'.cars
            && if CarChosen(l, c) < L.CARS then IsIn(l', c, r) && l'.bindings[c].player !in l.rooms[r].roster.names
               else l'.bindings == l.bindings && c in l'.handlers
  {
    if Admits(l, c, r) {
      JoinAdmits(l, c, r);
      AddMemberAdds(l.rooms[r], c, NameChosen(l, c));
    } else {
      JoinRefuses(l, c, r);
    }
  }

  lemma HallOfJoin(s: Server, c: L.ConnId, r: L.RoomId, file: Option<GameMap>, l': L.Lobby)
    requires L.Seated(s.lobby) && r in s.halls && c !in s.lobby.bindings
    ensures HallAfter(s, L.JoinRoom(c, r), file, l', r) ==
              WithArrival(s.halls[r], if IsIn(l', c, r) then Some((l'.bindings[c].player, CarChosen(s.lobby, c))) else None)
  {
  }

  lemma EntersWith(players: map<PlayerId, Player>, p: PlayerId, car: nat)
    requires car < L.CARS && p !in players
    ensures CarFor(car).Some?
    ensures Enter(players, p, car) == players[p := Player(CarFor(car).value, CarFor(car).value, 0, 0)]
  {
    EveryCarIsOnOffer(car);
  }

  /** What a room makes of `c` and its choice. */
  ghost predicate Brings(s: Server, s': Server, c: L.ConnId, r: L.RoomId, players: map<PlayerId, Player>, car: nat) {
    && c !in s'.lobby.cars
    && if car < CARS then CarFor(car).Some? && ComesInWith(s, s', c, r, players, CarFor(car).value)
       else StaysOut(s', c, r, players)
  }

  lemma ArrivalComesIn(s: Server, s': Server, c: L.ConnId, r: L.RoomId, h: Hall, car: nat)
    requires car < CARS && r in s'.halls && IsIn(s'.lobby, c, r) && s'.lobby.bindings[c].player !in h.game.players
    requires s'.halls[r] == WithArrival(h, Some((s'.lobby.bindings[c].player, car)))
    ensures CarFor(car).Some? && ComesInWith(s, s', c, r, h.game.players, CarFor(car).value)
  {
    EntersWith(h.game.players, s'.lobby.bindings[c].player, car);
  }

  lemma JoinHasBrought(s: Server, s': Server, c: L.ConnId, r: L.RoomId, file: Option<GameMap>, car: nat)
    requires L.Seated(s.lobby) && L.CanJoin(s.lobby, c, r) && c !in s.lobby.bindings && CarChosen(s.lobby, c) == car
    requires r in s.halls && s.halls[r].game.players.Keys == s.lobby.rooms[r].roster.names.Keys
    requires s'.lobby == L.Join(s.lobby, c, r) && r in s'.halls
    requires s'.halls[r] == HallAfter(s, L.JoinRoom(c, r), file, s'.lobby, r)
    ensures Brings(s, s', c, r, s.halls[r].game.players, car)
  {
    JoinOutcome(s.lobby, c, r);
    HallOfJoin(s, c, r, file, s'.lobby);
    if car < CARS {
      ArrivalComesIn(s, s', c, r, s.halls[r], car);
    }
  }

  lemma PendingIsNotBound(l: L.Lobby, c: L.ConnId)
    requires L.Inv(l) && c in l.handlers
    ensures c !in l.bindings
  {
  }

  lemma JoinBrings(s: Server, c: L.ConnId, r: L.RoomId, file: Option<GameMap>)
    requires Inv(s) && L.CanJoin(s.lobby, c, r) && Legal(s, Ask(L.JoinRoom(c, r), file))
    ensures r in s.halls
    ensures Brings(s, Next(s, Ask(L.JoinRoom(c, r), file)), c, r, s.halls[r].game.players, CarChosen(s.lobby, c))
  {
    PendingIsNotBound(s.lobby, c);
    assert HallOk(s.halls[r], s.lobby.rooms[r]);
    ServerTheorems.AskFields(s, L.JoinRoom(c, r), file);
    JoinHasBrought(s, Next(s, Ask(L.JoinRoom(c, r), file)), c, r, file, CarChosen(s.lobby, c));
  }

  /** The latest choice, or what had been chosen before, or 0. */
  ghost function ChoiceAfter(s: Server, acts: seq<Act>, c: L.ConnId): nat {
    var choice := LastChoice(acts, c);
    if choice.Some? then choice.value else CarChosen(s.lobby, c)
  }

  /** Whoever has chosen a car, once or several times, and is then taken in by a room drives the car that it chose last;
      and with a car that does not exist it stays outside, and nobody comes in. */
  lemma TheChosenCarIsDriven(s: Server, acts: seq<Act>, c: L.ConnId, r: L.RoomId, file: Option<GameMap>)
    requires Inv(s) && Runnable(s, acts) && StaysOutside(s, acts, c) && L.CanJoin(Run(s, acts).lobby, c, r)
    requires Legal(Run(s, acts), Ask(L.JoinRoom(c, r), file))
    ensures var t := Run(s, acts);
            && r in t.halls
            && Brings(t, Next(t, Ask(L.JoinRoom(c, r), file)), c, r, t.halls[r].game.players, ChoiceAfter(s, acts, c))
  {
    ServerTheorems.RunKeepsInv(s, acts);
    LastChoiceCounts(s, acts, c);
    JoinBrings(Run(s, acts), c, r, file);
  }

  // ------------------------------------------------------------------ the car of a creator

  lemma CreateOutcome(l: L.Lobby, c: L.ConnId)
    requires L.Inv(l) && L.Legal(l, L.CreateRoom(c)) && c in LobbyTheorems.Live(l)
    ensures var l', r := L.Create(l, c), L.NextRoomId(L.Leave(l, c));
            && r in l'.rooms && c !in l'.cars
            && if CarChosen(l, c) < L.CARS then IsIn(l', c, r) else c !in l'.bindings && c in l'.handlers
  {
    var left := L.Leave(l, c);
    var open, r := L.NewRoom(left, c), L.NextRoomId(left);
    LeaveUnbinds(l, c);
    LobbyTheorems.LeaveMakesPending(l, c);
    L.LeaveKeepsInv(l, c);
    L.NextRoomIdIsFree(left);
    LobbyTheorems.NewRoomIsEmpty(left, c);
    NewRoomFields(left, c);
    NewRoomTakesIn(left, c, r);
    JoinOutcome(open, c, r);
  }

  lemma NewRoomTakesIn(l: L.Lobby, c: L.ConnId, r: L.RoomId)
    requires r == L.NextRoomId(l) && c in l.handlers && L.Members(L.NewRoom(l, c).bindings, r) == map[]
    ensures L.CanJoin(L.NewRoom(l, c), c, r)
  {
  }

  lemma HallOfCreation(s: Server, c: L.ConnId, file: Option<GameMap>, l': L.Lobby, r: L.RoomId)
    requires L.Seated(s.lobby) && r == L.NextRoomId(L.Leave(s.lobby, c))
    ensures HallAfter(s, L.CreateRoom(c), file, l', r) ==
              WithArrival(NEW_HALL, if IsIn(l', c, r) then Some((l'.bindings[c].player, CarChosen(s.lobby, c))) else None)
  {
  }

  lemma CreationHasBrought(s: Server, s': Server, c: L.ConnId, r: L.RoomId, file: Option<GameMap>)
    requires L.Inv(s.lobby) && L.Legal(s.lobby, L.CreateRoom(c)) && c in LobbyTheorems.Live(s.lobby)
    requires r == L.NextRoomId(L.Leave(s.lobby, c)) && s'.lobby == L.Create(s.lobby, c) && r in s'.halls
    requires s'.halls[r] == HallAfter(s, L.CreateRoom(c), file, s'.lobby, r)
    ensures Brings(s, s', c, r, map[], CarChosen(s.lobby, c))
  {
    CreateOutcome(s.lobby, c);
    HallOfCreation(s, c, file, s'.lobby, r);
    if CarChosen(s.lobby, c) < CARS {
      ArrivalComesIn(s, s', c, r, NEW_HALL, CarChosen(s.lobby, c));
    }
  }

  /** And so does whoever opens a room, also from inside another one. */
  lemma CreatorsDriveTheirChoice(s: Server, acts: seq<Act>, c: L.ConnId, file: Option<GameMap>)
    requires Inv(s) && Runnable(s, acts) && StaysOutside(s, acts, c) && c in LobbyTheorems.Live(Run(s, acts).lobby)
    requires Legal(Run(s, acts), Ask(L.CreateRoom(c), file))
    ensures var t := Run(s, acts);
            Brings(t, Next(t, Ask(L.CreateRoom(c), file)), c, L.NextRoomId(L.Leave(t.lobby, c)), map[], ChoiceAfter(s, acts, c))
  {
    var t := Run(s, acts);
    ServerTheorems.RunKeepsInv(s, acts);
    LastChoiceCounts(s, acts, c);
    ServerTheorems.AskFields(t, L.CreateRoom(c), file);
    CreateOutcome(t.lobby, c);
    CreationHasBrought(t, Next(t, Ask(L.CreateRoom(c), file)), c, L.NextRoomId(L.Leave(t.lobby, c)), file);
  }
}
