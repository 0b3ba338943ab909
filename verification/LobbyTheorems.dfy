/** What holds of the lobby over whole runs, whatever the clients send and whichever threads die. */
module LobbyTheorems {
  import opened Players
  import opened Lobbies

  /** The lobby can take these events from `l` on: every creation finds a free room id. */
  ghost predicate Runnable(l: Lobby, es: seq<Event>)
    decreases |es|, 0
  {
    es == [] || (Runnable(l, es[..|es| - 1]) && Legal(Run(l, es[..|es| - 1]), es[|es| - 1]))
  }

  ghost function Run(l: Lobby, es: seq<Event>): Lobby
    requires Runnable(l, es)
    decreases |es|, 1
  {
    if es == [] then l else Next(Run(l, es[..|es| - 1]), es[|es| - 1])
  }

  lemma {:induction false} RunKeepsInv(l: Lobby, es: seq<Event>)
    requires Inv(l) && Runnable(l, es)
    ensures Inv(Run(l, es))
    decreases |es|
  {
    if es != [] {
      RunKeepsInv(l, es[..|es| - 1]);
      NextKeepsInv(Run(l, es[..|es| - 1]), es[|es| - 1]);
    }
  }

  lemma StartsInOrder()
    ensures Inv(NEW_LOBBY)
  {
  }

  /** The lobby starts in order and stays so, and the only request it cannot finish is one for a 257th
      room: there the search for a room id goes on for ever. */
  lemma OnlyTheRoomLimitBlocks(es: seq<Event>, e: Event)
    requires Runnable(NEW_LOBBY, es)
    ensures Inv(Run(NEW_LOBBY, es)) && Seated(Run(NEW_LOBBY, es))
    ensures Runnable(NEW_LOBBY, es + [e])
            <==> (e.CreateRoom? ==> |Leave(Run(NEW_LOBBY, es), e.conn).rooms| < 256)
  {
    StartsInOrder();
    RunKeepsInv(NEW_LOBBY, es);
    InvMeansSeated(Run(NEW_LOBBY, es));
    OneMoreEvent(NEW_LOBBY, es, e);
    if e.CreateRoom? {
      var left := Leave(Run(NEW_LOBBY, es), e.conn);
      SearchEndsExactly(left.rooms.Keys, left.nextRoom);
      assert |left.rooms.Keys| == |left.rooms|;
    }
  }

  /** In a lobby with 256 rooms no turn of the loop gets any nearer: after any number of them the counter
      stands on an id in use. */
  lemma FullLobbySearchesForEver(l: Lobby, k: nat)
    requires |l.rooms| == 256
    ensures Turned(l.nextRoom, k) in l.rooms && !FindsRoomId(l)
  {
    assert |l.rooms.Keys| == |l.rooms|;
    SearchEndsExactly(l.rooms.Keys, l.nextRoom);
    if Turned(l.nextRoom, k) !in l.rooms {
      FreeIdStops(l.rooms.Keys, l.nextRoom, k);
    }
  }

  /** Somebody arrives and opens a room, `n` times over. */
  lemma {:induction false} RoomsFillUp(n: nat) returns (es: seq<Event>)
    requires n <= 256
    ensures Runnable(NEW_LOBBY, es)
    ensures var l := Run(NEW_LOBBY, es); |l.rooms| == n && l.nextConn == n + 1 && l.cars == map[]
  {
    if n == 0 {
      es := [];
    } else {
      var before := RoomsFillUp(n - 1);
      OneMoreRoom(before, n);
      es := before + [Connect] + [CreateRoom(n)];
    }
  }

  lemma OneMoreRoom(es: seq<Event>, n: nat)
    requires Runnable(NEW_LOBBY, es) && 0 < n <= 256
    requires var l := Run(NEW_LOBBY, es); |l.rooms| == n - 1 && l.nextConn == n && l.cars == map[]
    ensures Runnable(NEW_LOBBY, es + [Connect] + [CreateRoom(n)])
    ensures var l := Run(NEW_LOBBY, es + [Connect] + [CreateRoom(n)]); |l.rooms| == n && l.nextConn == n + 1 && l.cars == map[]
  {
    var l := Run(NEW_LOBBY, es);
    OnlyTheRoomLimitBlocks(es, Connect);
    RunOneMore(NEW_LOBBY, es, Connect);
    assert n !in l.bindings;
    OnlyTheRoomLimitBlocks(es + [Connect], CreateRoom(n));
    RunOneMore(NEW_LOBBY, es + [Connect], CreateRoom(n));
    CreationAddsOne(Run(NEW_LOBBY, es + [Connect]), n);
  }

  lemma CreationAddsOne(l: Lobby, c: ConnId)
    requires Inv(l) && Legal(l, CreateRoom(c)) && c !in l.bindings && l.cars == map[]
    ensures var l' := Next(l, CreateRoom(c));
            |l'.rooms| == |l.rooms| + 1 && l'.nextConn == l.nextConn && l'.cars == map[]
  {
    var l' := Next(l, CreateRoom(c));
    CreateOpensAFreshRoom(l, c);
    assert |l'.rooms.Keys| == |l.rooms.Keys| + 1;
    assert |l'.rooms| == |l'.rooms.Keys| && |l.rooms| == |l.rooms.Keys|;
  }

  lemma RunOneMore(l: Lobby, es: seq<Event>, e: Event)
    requires Runnable(l, es) && Runnable(l, es + [e])
    ensures Legal(Run(l, es), e) && Run(l, es + [e]) == Next(Run(l, es), e)
  {
    assert (es + [e])[..|es + [e]| - 1] == es;
  }

  /** And it does happen: when 256 people have each opened a room, the next one to ask hangs the lobby. */
  lemma TheLobbyFillsUp() returns (es: seq<Event>, c: ConnId)
    ensures Runnable(NEW_LOBBY, es) && |Run(NEW_LOBBY, es).rooms| == 256 && c in Run(NEW_LOBBY, es).handlers
    ensures !Runnable(NEW_LOBBY, es + [CreateRoom(c)])
  {
    var full := RoomsFillUp(256);
    OnlyTheRoomLimitBlocks(full, Connect);
    RunOneMore(NEW_LOBBY, full, Connect);
    es, c := full + [Connect], Run(NEW_LOBBY, full).nextConn;
    OnlyTheRoomLimitBlocks(es, CreateRoom(c));
  }

  lemma OneMoreEvent(l: Lobby, es: seq<Event>, e: Event)
    requires Runnable(l, es)
    ensures Runnable(l, es + [e]) <==> Legal(Run(l, es), e)
  {
    var all := es + [e];
    assert all[..|all| - 1] == es && all[|all| - 1] == e;
  }

  // ------------------------------------------------------------------ every handler has one place

  /** A handler is in the client list of the room its connection is bound to and in no other, and not
      there while it is pending. */
  lemma EveryHandlerHasOnePlace(l: Lobby, c: ConnId, r: RoomId)
    requires Inv(l) && r in l.rooms
    ensures Handler(c) in l.rooms[r].clients <==> c in l.bindings && l.bindings[c].room == r
    ensures Handler(c) in l.rooms[r].clients ==> c !in l.handlers
    ensures multiset(l.rooms[r].clients)[Handler(c)] <= 1
  {
    assert RoomOk(l.rooms[r], r, Members(l.bindings, r));
    assert c in Members(l.bindings, r).Keys <==> c in l.bindings && l.bindings[c].room == r;
    assert Handler(c) in l.rooms[r].clients <==> Handler(c).id in Members(l.bindings, r).Keys;
    AtMostOnce(l.rooms[r].clients, Handler(c));
  }

  lemma {:induction false} AtMostOnce(clients: seq<Handler>, h: Handler)
    requires forall i, j | 0 <= i < j < |clients| :: clients[i] != clients[j]
    ensures multiset(clients)[h] <= 1
    decreases |clients|
  {
    if clients != [] {
      var n := |clients| - 1;
      assert clients == clients[..n] + [clients[n]];
      AtMostOnce(clients[..n], h);
      assert clients[n] !in clients[..n];
    }
  }

  ghost function Live(l: Lobby): set<ConnId> { l.handlers.Keys + l.bindings.Keys }

  /** The connections in rooms whose threads are dead. */
  ghost function Reapable(l: Lobby, e: Event): set<ConnId> {
    if e.Reap? then e.dead * l.bindings.Keys else {}
  }

  /** Who was reaped: the connections whose threads were dead while they were in a room. */
  ghost function Reaped(l: Lobby, es: seq<Event>): set<ConnId>
    requires Runnable(l, es)
    decreases |es|
  {
    if es == [] then {}
    else
      var before := es[..|es| - 1];
      var e := es[|es| - 1];
      Reaped(l, before) + Reapable(Run(l, before), e)
  }

  ghost function Arrivals(es: seq<Event>): nat {
    if es == [] then 0 else Arrivals(es[..|es| - 1]) + if es[|es| - 1].Connect? then 1 else 0
  }

  lemma LeaveKeepsLive(l: Lobby, c: ConnId)
    requires Seated(l)
    ensures Live(Leave(l, c)) == Live(l) && Leave(l, c).nextConn == l.nextConn
  {
    if c in l.bindings {
      LeaveFields(l, c);
    }
  }

  lemma JoinKeepsLive(l: Lobby, c: ConnId, r: RoomId)
    ensures Live(Join(l, c, r)) == Live(l) && Join(l, c, r).nextConn == l.nextConn
  {
  }

  ghost predicate Conserves(l: Lobby, l': Lobby, e: Event) {
    && Live(l') == Live(l) - Reapable(l, e) + (if e.Connect? then {l.nextConn} else {})
    && l'.nextConn == l.nextConn + if e.Connect? then 1 else 0
  }

  /** Only an arrival adds a connection, and only reaping removes one. */
  lemma StepConserves(l: Lobby, e: Event)
    requires Legal(l, e) && l.handlers.Keys !! l.bindings.Keys
    ensures Conserves(l, Next(l, e), e)
  {
    match e
    case Connect => ArrivalIsLive(l);
    case CreateRoom(c) => CreateConserves(l, c);
    case JoinRoom(c, r) => JoinConserves(l, c, r);
    case LeaveRoom(c) => LeaveConserves(l, c);
    case Reap(dead) => ReapTakesTheDead(l, dead);
    case _ => QuietStepsKeepLive(l, e);
  }

  lemma ArrivalIsLive(l: Lobby)
    requires Seated(l)
    ensures Conserves(l, Next(l, Connect), Connect)
  {
  }

  lemma QuietStepsKeepLive(l: Lobby, e: Event)
    requires Seated(l) && (e.SetName? || e.ChooseCar? || e.StartGame? || e.Send?)
    ensures Conserves(l, Next(l, e), e)
  {
  }

  lemma CreateKeepsLive(l: Lobby, c: ConnId)
    requires Seated(l)
    ensures Live(Create(l, c)) == Live(l) && Create(l, c).nextConn == l.nextConn
  {
    LeaveKeepsLive(l, c);
    JoinKeepsLive(NewRoom(Leave(l, c), c), c, NextRoomId(Leave(l, c)));
  }

  lemma CreateConserves(l: Lobby, c: ConnId)
    requires Seated(l)
    ensures Conserves(l, Create(l, c), CreateRoom(c))
  {
    CreateKeepsLive(l, c);
    SameLiveConserves(l, Create(l, c), CreateRoom(c));
  }

  lemma SameLiveConserves(l: Lobby, l': Lobby, e: Event)
    requires Live(l') == Live(l) && l'.nextConn == l.nextConn && !e.Connect? && !e.Reap?
    ensures Conserves(l, l', e)
  {
  }

  lemma JoinConserves(l: Lobby, c: ConnId, r: RoomId)
    ensures Conserves(l, Join(l, c, r), JoinRoom(c, r))
  {
    JoinKeepsLive(l, c, r);
  }

  lemma LeaveConserves(l: Lobby, c: ConnId)
    requires Seated(l)
    ensures Conserves(l, Leave(l, c), LeaveRoom(c))
  {
    LeaveKeepsLive(l, c);
  }

  lemma ReapTakesTheDead(l: Lobby, dead: set<ConnId>)
    requires l.handlers.Keys !! l.bindings.Keys
    ensures Conserves(l, ReapAll(l, dead), Reap(dead))
  {
    assert (l.bindings - dead).Keys == l.bindings.Keys - dead;
  }

  ghost predicate Conserved(l: Lobby, reaped: set<ConnId>, n: nat) {
    Live(l) !! reaped && (forall c: ConnId :: c in Live(l) + reaped <==> 1 <= c <= n) && l.nextConn == n + 1
  }

  /** Conservation: over every run, the connections that ever arrived are exactly the live ones and the
      reaped ones, and no connection is both. */
  lemma {:induction false} ConnectionsAreConserved(es: seq<Event>)
    requires Runnable(NEW_LOBBY, es)
    ensures Conserved(Run(NEW_LOBBY, es), Reaped(NEW_LOBBY, es), Arrivals(es))
    decreases |es|
  {
    if es != [] {
      var before := es[..|es| - 1];
      ConnectionsAreConserved(before);
      StartsInOrder();
      RunKeepsInv(NEW_LOBBY, before);
      StepKeepsConserved(Run(NEW_LOBBY, before), es[|es| - 1], Reaped(NEW_LOBBY, before), Arrivals(before));
    }
  }

  lemma StepKeepsConserved(l: Lobby, e: Event, reaped: set<ConnId>, n: nat)
    requires Inv(l) && Legal(l, e) && Conserved(l, reaped, n)
    ensures Conserved(Next(l, e), reaped + Reapable(l, e), n + if e.Connect? then 1 else 0)
  {
    NeverPendingAndBound(l);
    StepConserves(l, e);
    SetsAreConserved(Live(l), reaped, Reapable(l, e), n, Live(Next(l, e)), e.Connect?);
  }

  lemma NeverPendingAndBound(l: Lobby)
    requires Inv(l)
    ensures l.handlers.Keys !! l.bindings.Keys
  {
  }

  lemma SetsAreConserved(live: set<ConnId>, reaped: set<ConnId>, dead: set<ConnId>, n: nat, live': set<ConnId>, one: bool)
    requires live !! reaped && (forall c: ConnId :: c in live + reaped <==> 1 <= c <= n) && dead <= live
    requires live' == live - dead + if one then {n + 1} else {}
    requires one ==> dead == {}
    ensures live' !! reaped + dead && forall c: ConnId :: c in live' + (reaped + dead) <==> 1 <= c <= if one then n + 1 else n
  {
    assert n + 1 !in live + reaped;
    forall c: ConnId
      ensures c in live' + (reaped + dead) <==> 1 <= c <= if one then n + 1 else n
    {
      assert c in live + reaped <==> 1 <= c <= n;
    }
  }

  // ------------------------------------------------------------------ rooms over a run

  ghost predicate EightSeats(l: Lobby) { forall r | r in l.rooms :: l.rooms[r].maxPlayers == MAX_PLAYERS }

  lemma StepKeepsSeats(l: Lobby, e: Event)
    requires Legal(l, e) && EightSeats(l)
    ensures EightSeats(Next(l, e))
  {
    match e
    case CreateRoom(c) =>
      LeaveKeepsSeats(l, c);
      JoinKeepsSeats(NewRoom(Leave(l, c), c), c, NextRoomId(Leave(l, c)));
    case JoinRoom(c, r) => JoinKeepsSeats(l, c, r);
    case LeaveRoom(c) => LeaveKeepsSeats(l, c);
    case _ =>
  }

  lemma LeaveKeepsSeats(l: Lobby, c: ConnId)
    requires Seated(l) && EightSeats(l)
    ensures EightSeats(Leave(l, c))
  {
  }

  lemma JoinKeepsSeats(l: Lobby, c: ConnId, r: RoomId)
    requires EightSeats(l)
    ensures EightSeats(Join(l, c, r))
  {
  }

  lemma {:induction false} RunKeepsSeats(es: seq<Event>)
    requires Runnable(NEW_LOBBY, es)
    ensures EightSeats(Run(NEW_LOBBY, es))
    decreases |es|
  {
    if es != [] {
      RunKeepsSeats(es[..|es| - 1]);
      StepKeepsSeats(Run(NEW_LOBBY, es[..|es| - 1]), es[|es| - 1]);
    }
  }

  lemma {:induction false} ListIsAsLongAsTheSet(clients: seq<Handler>, cs: set<ConnId>)
    requires ClientsOk(clients, cs)
    ensures |clients| == |cs|
    decreases |clients|
  {
    if clients == [] {
      forall c: ConnId
        ensures c in cs <==> Handler(c) in clients
      {
        assert Handler(c).id == c;
      }
      assert cs == {};
    } else {
      var h := clients[0];
      assert h in clients;
      assert Without(clients, h.id) == clients[1..];
      WithoutKeepsOthers(clients, cs, h.id);
      ListIsAsLongAsTheSet(clients[1..], cs - {h.id});
    }
  }

  /** Over every run no room holds more than eight clients, each of its clients has its own player, and
      every bound connection's room exists. */
  lemma RoomsNeverOverflow(es: seq<Event>, r: RoomId)
    requires Runnable(NEW_LOBBY, es) && r in Run(NEW_LOBBY, es).rooms
    ensures var room := Run(NEW_LOBBY, es).rooms[r];
            |room.clients| == |room.roster.names| <= MAX_PLAYERS
  {
    RunKeepsInv(NEW_LOBBY, es);
    RunKeepsSeats(es);
    var l := Run(NEW_LOBBY, es);
    var ms := Members(l.bindings, r);
    assert RoomOk(l.rooms[r], r, ms);
    ListIsAsLongAsTheSet(l.rooms[r].clients, ms.Keys);
    SamePlayers(l.rooms[r].roster.names, ms);
  }

  lemma {:induction false} SamePlayers(names: map<PlayerId, string>, ms: map<ConnId, PlayerId>)
    requires RosterOk(names, ms)
    ensures |names| == |ms|
    decreases |ms|
  {
    if ms == map[] {
      assert names.Keys == {};
    } else {
      var c :| c in ms;
      RosterReaps(names, ms, {c}, {ms[c]});
      assert (ms - {c}).Keys == ms.Keys - {c} && (names - {ms[c]}).Keys == names.Keys - {ms[c]};
      SamePlayers(names - {ms[c]}, ms - {c});
    }
  }

  lemma JoinBinds(l: Lobby, c: ConnId, r: RoomId)
    requires c !in l.bindings
    ensures var l' := Join(l, c, r);
            c in l'.bindings && l'.bindings[c].room == r <==> CanJoin(l, c, r) && (c in l.cars ==> l.cars[c] < CARS)
  {
  }

  lemma AsManyClientsAsMembers(l: Lobby, r: RoomId)
    requires Inv(l) && r in l.rooms
    ensures |l.rooms[r].clients| == |Members(l.bindings, r)|
  {
    var ms := Members(l.bindings, r);
    assert RoomOk(l.rooms[r], r, ms);
    ListIsAsLongAsTheSet(l.rooms[r].clients, ms.Keys);
    assert |ms.Keys| == |ms|;
  }

  /** Over every run a request to join is granted exactly to a waiting client that has chosen no car or one of the seven,
      for a room that exists, has not started, and has fewer than eight clients. */
  lemma JoinsExactly(es: seq<Event>, c: ConnId, r: RoomId)
    requires Runnable(NEW_LOBBY, es) && c !in Run(NEW_LOBBY, es).bindings
    ensures var l, l' := Run(NEW_LOBBY, es), Join(Run(NEW_LOBBY, es), c, r);
            c in l'.bindings && l'.bindings[c].room == r
            <==> r in l.rooms && !l.rooms[r].started && |l.rooms[r].clients| < 8 && c in l.handlers
                 && (c in l.cars ==> l.cars[c] < 7)
  {
    var l := Run(NEW_LOBBY, es);
    StartsInOrder();
    RunKeepsInv(NEW_LOBBY, es);
    RunKeepsSeats(es);
    JoinBinds(l, c, r);
    if r in l.rooms {
      AsManyClientsAsMembers(l, r);
    }
  }

  // ------------------------------------------------------------------ a started room only shrinks

  ghost predicate IsStarted(l: Lobby, r: RoomId) { r in l.rooms && l.rooms[r].started }

  ghost predicate Shrinks(l: Lobby, l': Lobby, r: RoomId) {
    var ms, ms' := Members(l.bindings, r), Members(l'.bindings, r);
    forall c | c in ms' :: c in ms && ms[c] == ms'[c]
  }

  lemma LeaveShrinks(l: Lobby, c: ConnId, r: RoomId)
    requires Seated(l)
    ensures Shrinks(l, Leave(l, c), r)
    ensures r in Leave(l, c).rooms ==> r in l.rooms && Leave(l, c).rooms[r].started == l.rooms[r].started
  {
    if c in l.bindings {
      LeaveFields(l, c);
    }
  }

  lemma JoinSpares(l: Lobby, c: ConnId, q: RoomId, r: RoomId)
    requires IsStarted(l, r)
    ensures Shrinks(l, Join(l, c, q), r)
  {
    if CanJoin(l, c, q) {
      assert q != r;
    }
  }

  /** No step lets anybody into a started room, or turns a member into another player. */
  lemma StepSparesStarted(l: Lobby, e: Event, r: RoomId)
    requires Inv(l) && Legal(l, e) && IsStarted(l, r) && IsStarted(Next(l, e), r)
    ensures Shrinks(l, Next(l, e), r)
  {
    match e
    case CreateRoom(c) => CreateSparesStarted(l, c, r);
    case JoinRoom(c, q) => JoinSpares(l, c, q, r);
    case LeaveRoom(c) => LeaveShrinks(l, c, r);
    case Reap(dead) => ReapShrinks(l, dead, r);
    case _ => QuietStepsShrink(l, e, r);
  }

  lemma ReapShrinks(l: Lobby, dead: set<ConnId>, r: RoomId)
    ensures Shrinks(l, ReapAll(l, dead), r)
  {
  }

  lemma QuietStepsShrink(l: Lobby, e: Event, r: RoomId)
    requires Seated(l) && (e.Connect? || e.SetName? || e.ChooseCar? || e.StartGame? || e.Send?)
    ensures Shrinks(l, Next(l, e), r)
  {
  }

  lemma CreateSparesStarted(l: Lobby, c: ConnId, r: RoomId)
    requires Inv(l) && Legal(l, CreateRoom(c)) && IsStarted(l, r) && IsStarted(Create(l, c), r)
    ensures Shrinks(l, Create(l, c), r)
  {
    var left := Leave(l, c);
    var rid := NextRoomId(left);
    LeaveShrinks(l, c, r);
    LeaveKeepsInv(l, c);
    NextRoomIdIsFree(left);
    NewRoomKeepsInv(left, c);
    var widened := NewRoom(left, c);
    if r == rid {
      assert !widened.rooms[r].started;
      JoinDoesNotStart(widened, c, rid, r);
    } else {
      JoinDoesNotStart(widened, c, rid, r);
      assert IsStarted(widened, r);
      JoinSpares(widened, c, rid, r);
    }
  }

  lemma JoinDoesNotStart(l: Lobby, c: ConnId, q: RoomId, r: RoomId)
    ensures IsStarted(Join(l, c, q), r) <==> IsStarted(l, r)
  {
  }

  ghost predicate StartedThroughout(l: Lobby, es: seq<Event>, r: RoomId)
    requires Runnable(l, es)
    decreases |es|
  {
    IsStarted(Run(l, es), r) && (es == [] || StartedThroughout(l, es[..|es| - 1], r))
  }

  /** Over any run during which a room stays started, its membership only shrinks. */
  lemma {:induction false} StartedRoomsOnlyShrink(l: Lobby, es: seq<Event>, r: RoomId)
    requires Inv(l) && Runnable(l, es) && StartedThroughout(l, es, r)
    ensures Shrinks(l, Run(l, es), r)
    decreases |es|
  {
    if es != [] {
      var before := es[..|es| - 1];
      StartedRoomsOnlyShrink(l, before, r);
      RunKeepsInv(l, before);
      StepSparesStarted(Run(l, before), es[|es| - 1], r);
    }
  }

  /** A room that exists already is started by nothing but its creator's request, made from inside. */
  lemma OnlyTheCreatorStarts(l: Lobby, e: Event, r: RoomId)
    requires Inv(l) && Legal(l, e) && r in l.rooms && !IsStarted(l, r)
    ensures IsStarted(Next(l, e), r) <==>
            e.StartGame? && e.conn in l.bindings && l.bindings[e.conn].room == r && l.rooms[r].creator == e.conn
  {
    match e
    case CreateRoom(c) => CreateDoesNotStart(l, c, r);
    case JoinRoom(c, q) => JoinDoesNotStart(l, c, q, r);
    case LeaveRoom(c) => LeaveShrinks(l, c, r);
    case StartGame(c) => StartStartsOne(l, c, r);
    case Reap(dead) => ReapDoesNotStart(l, dead, r);
    case _ => QuietStepsDoNotStart(l, e, r);
  }

  lemma CreateDoesNotStart(l: Lobby, c: ConnId, r: RoomId)
    requires Seated(l) && !IsStarted(l, r)
    ensures !IsStarted(Create(l, c), r)
  {
    LeaveShrinks(l, c, r);
    JoinDoesNotStart(NewRoom(Leave(l, c), c), c, NextRoomId(Leave(l, c)), r);
  }

  lemma StartStartsOne(l: Lobby, c: ConnId, r: RoomId)
    requires Seated(l) && r in l.rooms && !IsStarted(l, r)
    ensures IsStarted(Next(l, StartGame(c)), r) <==> c in l.bindings && l.bindings[c].room == r && l.rooms[r].creator == c
  {
  }

  lemma ReapDoesNotStart(l: Lobby, dead: set<ConnId>, r: RoomId)
    requires !IsStarted(l, r)
    ensures !IsStarted(ReapAll(l, dead), r)
  {
  }

  lemma QuietStepsDoNotStart(l: Lobby, e: Event, r: RoomId)
    requires Seated(l) && (e.Connect? || e.SetName? || e.ChooseCar? || e.Send?)
    ensures IsStarted(Next(l, e), r) <==> IsStarted(l, r)
  {
  }

  // ------------------------------------------------------------------ queues

  /** What one event puts into the queue of room `r`. */
  ghost function Puts(l: Lobby, e: Event, r: RoomId): seq<Routed> {
    if e.Send? && e.conn in l.bindings && l.bindings[e.conn].room == r
    then [Routed(l.bindings[e.conn].player, e.action)] else []
  }

  /** The room is still there after the event, and is not a new one under the same id. */
  ghost predicate Stays(l: Lobby, e: Event, r: RoomId)
    requires Legal(l, e)
  {
    r in l.rooms && r in Next(l, e).rooms && (e.CreateRoom? ==> r in Leave(l, e.conn).rooms)
  }

  /** Nothing gets into a room's queue but what its own members send, and that goes to its end. */
  lemma StepQueues(l: Lobby, e: Event, r: RoomId)
    requires Inv(l) && Legal(l, e) && Stays(l, e, r)
    ensures Next(l, e).rooms[r].actions == l.rooms[r].actions + Puts(l, e, r)
  {
    if e.Send? {
      SendPuts(l, e, r);
    } else {
      OthersLeaveQueues(l, e, r);
      OthersPutNothing(l, e, r, l.rooms[r].actions);
    }
  }

  lemma OthersPutNothing(l: Lobby, e: Event, r: RoomId, actions: seq<Routed>)
    requires !e.Send?
    ensures actions == actions + Puts(l, e, r)
  {
  }

  lemma SendPuts(l: Lobby, e: Event, r: RoomId)
    requires Seated(l) && e.Send? && r in l.rooms
    ensures r in Next(l, e).rooms && Next(l, e).rooms[r].actions == l.rooms[r].actions + Puts(l, e, r)
  {
  }

  lemma OthersLeaveQueues(l: Lobby, e: Event, r: RoomId)
    requires Inv(l) && Legal(l, e) && Stays(l, e, r) && !e.Send?
    ensures Next(l, e).rooms[r].actions == l.rooms[r].actions
  {
    match e
    case CreateRoom(c) => CreateLeavesQueues(l, c, r);
    case JoinRoom(c, q) => JoinLeavesQueues(l, c, q, r);
    case LeaveRoom(c) => LeaveLeavesQueues(l, c, r);
    case Reap(dead) => ReapLeavesQueues(l, dead, r);
    case _ => QuietStepsLeaveQueues(l, e, r);
  }

  lemma ReapLeavesQueues(l: Lobby, dead: set<ConnId>, r: RoomId)
    requires r in l.rooms && r in ReapAll(l, dead).rooms
    ensures ReapAll(l, dead).rooms[r].actions == l.rooms[r].actions
  {
  }

  lemma LeaveLeavesQueues(l: Lobby, c: ConnId, r: RoomId)
    requires Seated(l) && r in l.rooms && r in Leave(l, c).rooms
    ensures Leave(l, c).rooms[r].actions == l.rooms[r].actions
  {
  }

  lemma JoinLeavesQueues(l: Lobby, c: ConnId, q: RoomId, r: RoomId)
    requires r in l.rooms
    ensures r in Join(l, c, q).rooms && Join(l, c, q).rooms[r].actions == l.rooms[r].actions
  {
  }

  lemma CreateLeavesQueues(l: Lobby, c: ConnId, r: RoomId)
    requires Inv(l) && Legal(l, CreateRoom(c)) && r in l.rooms && r in Leave(l, c).rooms
    ensures r in Create(l, c).rooms && Create(l, c).rooms[r].actions == l.rooms[r].actions
  {
    LeaveLeavesQueues(l, c, r);
    NextRoomIdIsFree(Leave(l, c));
    JoinLeavesQueues(NewRoom(Leave(l, c), c), c, NextRoomId(Leave(l, c)), r);
  }

  lemma QuietStepsLeaveQueues(l: Lobby, e: Event, r: RoomId)
    requires Seated(l) && r in l.rooms && (e.Connect? || e.SetName? || e.ChooseCar? || e.StartGame?)
    ensures r in Next(l, e).rooms && Next(l, e).rooms[r].actions == l.rooms[r].actions
  {
  }

  ghost predicate StaysThroughout(l: Lobby, es: seq<Event>, r: RoomId)
    requires Runnable(l, es)
    decreases |es|
  {
    if es == [] then r in l.rooms
    else
      var before := es[..|es| - 1];
      StaysThroughout(l, before, r) && Stays(Run(l, before), es[|es| - 1], r)
  }

  ghost function SentTo(l: Lobby, es: seq<Event>, r: RoomId): seq<Routed>
    requires Runnable(l, es)
    decreases |es|
  {
    if es == [] then []
    else
      var before := es[..|es| - 1];
      SentTo(l, before, r) + Puts(Run(l, before), es[|es| - 1], r)
  }

  /** While a room lasts, its queue gets exactly what was sent by whoever was in it at the time, in the order
      in which it was sent and under the sender's number there. */
  lemma {:induction false} QueueIsWhatMembersSent(l: Lobby, es: seq<Event>, r: RoomId)
    requires Inv(l) && Runnable(l, es) && StaysThroughout(l, es, r)
    ensures r in l.rooms && r in Run(l, es).rooms
    ensures Run(l, es).rooms[r].actions == l.rooms[r].actions + SentTo(l, es, r)
    decreases |es|
  {
    if es != [] {
      var before := es[..|es| - 1];
      QueueIsWhatMembersSent(l, before, r);
      RunKeepsInv(l, before);
      StepQueues(Run(l, before), es[|es| - 1], r);
    }
  }

  // ------------------------------------------------------------------ room ids and names

  ghost predicate FreshRoom(rooms: map<RoomId, Room>, rooms': map<RoomId, Room>, rid: RoomId) {
    && rid !in rooms && rooms'.Keys == rooms.Keys + {rid}
    && forall r | r in rooms :: rooms'[r] == rooms[r]
  }

  /** A creation adds one room under a fresh id and leaves the others, but for the room the creator
      came from, as they were.  The creator is in the new room, unless it has chosen a car that does not
      exist or is not connected. */
  lemma CreateOpensAFreshRoom(l: Lobby, c: ConnId)
    requires Inv(l) && Legal(l, CreateRoom(c))
    ensures var left, l' := Leave(l, c), Next(l, CreateRoom(c));
            && FreshRoom(left.rooms, l'.rooms, NextRoomId(left)) && l'.nextRoom == (NextRoomId(left) + 1) % 256
            && (Handler(c) in l'.rooms[NextRoomId(left)].clients <==> c in Live(l) && (c in l.cars ==> l.cars[c] < CARS))
  {
    LeaveKeepsInv(l, c);
    LeaveMakesPending(l, c);
    OpensAFreshRoom(Leave(l, c), c);
  }

  lemma LeaveMakesPending(l: Lobby, c: ConnId)
    requires Seated(l)
    ensures Leave(l, c).cars == l.cars && (c in Live(l) <==> c in Leave(l, c).handlers)
  {
  }

  lemma OpensAFreshRoom(l: Lobby, c: ConnId)
    requires Inv(l) && FindsRoomId(l)
    ensures var l' := Join(NewRoom(l, c), c, NextRoomId(l));
            && FreshRoom(l.rooms, l'.rooms, NextRoomId(l)) && l'.nextRoom == (NextRoomId(l) + 1) % 256
            && (Handler(c) in l'.rooms[NextRoomId(l)].clients <==> c in l.handlers && (c in l.cars ==> l.cars[c] < CARS))
  {
    NextRoomIdIsFree(l);
    NewRoomIsEmpty(l, c);
    JoinTouchesOneRoom(l, c, NextRoomId(l));
    FirstMember(NewRoom(l, c), c, NextRoomId(l));
  }

  lemma NewRoomIsEmpty(l: Lobby, c: ConnId)
    requires Inv(l) && NextRoomId(l) !in l.rooms
    ensures Members(NewRoom(l, c).bindings, NextRoomId(l)) == map[]
  {
  }

  lemma JoinTouchesOneRoom(l: Lobby, c: ConnId, rid: RoomId)
    requires rid == NextRoomId(l) && rid !in l.rooms
    ensures FreshRoom(l.rooms, Join(NewRoom(l, c), c, rid).rooms, rid)
  {
    NewRoomSparesOthers(l, c);
    JoinSparesOthers(NewRoom(l, c), c, rid);
    OthersSpared(l.rooms, NewRoom(l, c).rooms, Join(NewRoom(l, c), c, rid).rooms, rid);
  }

  lemma NewRoomSparesOthers(l: Lobby, c: ConnId)
    requires NextRoomId(l) !in l.rooms
    ensures FreshRoom(l.rooms, NewRoom(l, c).rooms, NextRoomId(l))
  {
  }

  lemma OthersSpared(rooms: map<RoomId, Room>, rooms1: map<RoomId, Room>, rooms2: map<RoomId, Room>, rid: RoomId)
    requires FreshRoom(rooms, rooms1, rid) && rooms2.Keys == rooms1.Keys
    requires forall q | q in rooms1 && q != rid :: rooms2[q] == rooms1[q]
    ensures FreshRoom(rooms, rooms2, rid)
  {
  }

  lemma JoinSparesOthers(l: Lobby, c: ConnId, r: RoomId)
    requires r in l.rooms
    ensures var rooms := Join(l, c, r).rooms;
            rooms.Keys == l.rooms.Keys && forall q | q in l.rooms && q != r :: rooms[q] == l.rooms[q]
  {
  }

  lemma FirstMember(l: Lobby, c: ConnId, r: RoomId)
    requires r in l.rooms && l.rooms[r] == Room(r, MAX_PLAYERS, c, Roster(map[], 0), [], false, [])
    requires Members(l.bindings, r) == map[]
    ensures var l' := Join(l, c, r);
            r in l'.rooms && (Handler(c) in l'.rooms[r].clients <==> c in l.handlers && (c in l.cars ==> l.cars[c] < CARS))
  {
  }

  lemma LeaveKeepsName(l: Lobby, c: ConnId)
    requires Seated(l) && c in l.bindings
    ensures var name, l' := l.rooms[l.bindings[c].room].roster.names[l.bindings[c].player], Leave(l, c);
            name != "" ==> c in l'.names && l'.names[c] == name
    ensures Leave(l, c).cars == l.cars && c in Leave(l, c).handlers && c !in Leave(l, c).bindings
  {
  }

  lemma JoinUsesName(l: Lobby, c: ConnId, r: RoomId)
    requires CanJoin(l, c, r) && c !in l.bindings && c in l.names
    ensures var l' := Join(l, c, r);
            if c in l.cars ==> l.cars[c] < CARS
            then c in l'.bindings && l'.bindings[c].room == r && l'.bindings[c].player in l'.rooms[r].roster.names
                 && l'.rooms[r].roster.names[l'.bindings[c].player] == l.names[c]
            else c !in l'.bindings && c !in l'.names && c in l'.handlers
  {
  }

  /** A player that moves to another room keeps its name there, exactly when the car it has chosen
      meanwhile exists; otherwise it stays outside, without its name. */
  lemma MovingKeepsTheName(l: Lobby, c: ConnId, r: RoomId)
    requires Inv(l) && Seated(l) && c in l.bindings && CanJoin(Leave(l, c), c, r)
    requires l.rooms[l.bindings[c].room].roster.names[l.bindings[c].player] != ""
    ensures var name := l.rooms[l.bindings[c].room].roster.names[l.bindings[c].player];
            var l' := Join(Leave(l, c), c, r);
            if c in l.cars ==> l.cars[c] < CARS
            then c in l'.bindings && l'.bindings[c].room == r && l'.rooms[r].roster.names[l'.bindings[c].player] == name
            else c !in l'.bindings && c !in l'.names && c in l'.handlers
  {
    LeaveKeepsInv(l, c);
    LeaveKeepsName(l, c);
    JoinUsesName(Leave(l, c), c, r);
  }

  /** The name a waiting connection gives is the name its player gets in the room it joins next. */
  lemma NamesReachTheGame(l: Lobby, c: ConnId, name: string, r: RoomId)
    requires Inv(l) && Seated(l) && CanJoin(l, c, r) && (c in l.cars ==> l.cars[c] < CARS)
    ensures var l' := Join(Next(l, SetName(c, name)), c, r);
            && c in l'.bindings && l'.bindings[c].room == r
            && l'.bindings[c].player in l'.rooms[r].roster.names && l'.rooms[r].roster.names[l'.bindings[c].player] == name
  {
    assert c !in l.bindings;
    NamedLobby(l, c, name);
    JoinUsesName(Next(l, SetName(c, name)), c, r);
  }

  /** And the name that a member of a room gives becomes its player's, and nobody else's changes. */
  lemma RenamingReachesTheGame(l: Lobby, c: ConnId, name: string)
    requires Seated(l) && c in l.bindings
    ensures var l', b := Next(l, SetName(c, name)), l.bindings[c];
            && l'.bindings == l.bindings && l'.rooms.Keys == l.rooms.Keys && b.room in l.rooms
            && (forall r | r in l.rooms && r != b.room :: l'.rooms[r] == l.rooms[r])
            && l'.rooms[b.room].roster.names.Keys == l.rooms[b.room].roster.names.Keys
            && forall p | p in l.rooms[b.room].roster.names ::
                 l'.rooms[b.room].roster.names[p] == if p == b.player then name else l.rooms[b.room].roster.names[p]
  {
  }

  lemma NamedLobby(l: Lobby, c: ConnId, name: string)
    requires Seated(l) && c !in l.bindings
    ensures Next(l, SetName(c, name)) == l.(names := l.names[c := name])
  {
  }
}
