/** server/server_protocol.cpp: the messages are built in a growing buffer and sent, and what arrives is
    parsed field by field off the socket. */
module ServerProtocols {
  import opened Sequences
  import opened Constants
  import opened Bytes
  import opened Sockets
  import opened ServerToClient
  import Downstream
  import C2S = ClientToServer

  // ------------------------------------------------------------------ elements

  method AppendPlayer(buf: seq<byte>, p: PlayerInfo, ghost rest: seq<byte>, ghost all: seq<byte>) returns (grown: seq<byte>)
    requires Needs(buf, PutPlayer(p, rest), all)
    ensures Needs(grown, rest, all)
  {
    grown := Append(buf, U32(p.player), all);
    grown := AppendName(grown, p.name, Put8(Flag(p.ready), Put8(Flag(p.admin), Put8(p.health, Put32(p.raceTime, rest)))), all);
    grown := Append(grown, [Flag(p.ready)], all);
    grown := Append(grown, [Flag(p.admin)], all);
    grown := Append(grown, [p.health], all);
    grown := Append(grown, U32(p.raceTime), all);
  }

  method AppendTotal(buf: seq<byte>, r: TotalResult, ghost rest: seq<byte>, ghost all: seq<byte>) returns (grown: seq<byte>)
    requires Needs(buf, PutTotal(r, rest), all)
    ensures Needs(grown, rest, all)
  {
    grown := AppendName(buf, r.name, Put32(r.totalTime, Put8(r.position, rest)), all);
    grown := Append(grown, U32(r.totalTime), all);
    grown := Append(grown, [r.position], all);
  }

  method AppendCurrent(buf: seq<byte>, r: CurrentResult, ghost rest: seq<byte>, ghost all: seq<byte>) returns (grown: seq<byte>)
    requires Needs(buf, PutCurrent(r, rest), all)
    ensures Needs(grown, rest, all)
  {
    grown := Append(buf, U32(r.player), all);
    grown := AppendName(grown, r.name, Put32(r.raceTime, Put32(r.totalTime, Put8(r.position, rest))), all);
    grown := Append(grown, U32(r.raceTime), all);
    grown := Append(grown, U32(r.totalTime), all);
    grown := Append(grown, [r.position], all);
  }

  method AppendTickGoal(buf: seq<byte>, p: PlayerTick, ghost rest: seq<byte>, ghost all: seq<byte>) returns (grown: seq<byte>)
    requires Needs(buf, PutTickGoal(p, rest), all)
    ensures Needs(grown, rest, all)
  {
    grown := Append(buf, U16(p.xCheckpoint), all);
    grown := Append(grown, U16(p.yCheckpoint), all);
    grown := Append(grown, U32(p.hint), all);
    grown := Append(grown, U16(p.position), all);
    grown := Append(grown, U32(p.distance), all);
    grown := Append(grown, U16(p.remaining), all);
    grown := Append(grown, [Flag(p.meta != 0)], all);
  }

  method AppendTickBody(buf: seq<byte>, p: PlayerTick, ghost rest: seq<byte>, ghost all: seq<byte>) returns (grown: seq<byte>)
    requires Needs(buf, PutTickBody(p, rest), all)
    ensures Needs(grown, rest, all)
  {
    grown := Append(buf, [p.car], all);
    grown := Append(grown, U32(p.player), all);
    grown := Append(grown, U32(Unsigned32(p.x)), all);
    grown := Append(grown, U32(Unsigned32(p.y)), all);
    grown := Append(grown, U32(p.angle), all);
    grown := Append(grown, [p.health], all);
    grown := Append(grown, [p.maxHealth], all);
    grown := Append(grown, U32(p.speed), all);
    grown := AppendTickGoal(grown, p, rest, all);
  }

  method AppendTick(buf: seq<byte>, p: PlayerTick, ghost rest: seq<byte>, ghost all: seq<byte>) returns (grown: seq<byte>)
    requires Needs(buf, PutTick(p, rest), all)
    ensures Needs(grown, rest, all)
  {
    grown := AppendName(buf, p.name, PutTickBody(p, PutList(Countable(p.improvements), Put8, rest)), all);
    grown := AppendTickBody(grown, p, PutList(Countable(p.improvements), Put8, rest), all);
    grown := AppendImprovements(grown, p.improvements, rest, all);
  }

  /** As many of the improvements as one byte can count. */
  method AppendImprovements(buf: seq<byte>, improvements: seq<byte>, ghost rest: seq<byte>, ghost all: seq<byte>) returns (grown: seq<byte>)
    requires Needs(buf, PutList(Countable(improvements), Put8, rest), all)
    ensures Needs(grown, rest, all)
  {
    ghost var sent := Countable(improvements);
    var n := |improvements| % 256;
    grown := Append(buf, [n], all);
    for k := 0 to n
      invariant Needs(grown, PutAll(sent[k..], Put8, rest), all)
    {
      OneMorePut(sent, Put8, rest, k);
      grown := Append(grown, [improvements[k]], all);
    }
  }

  // ------------------------------------------------------------------ messages

  method RoomsBytes(rooms: seq<RoomInfo>) returns (buf: seq<byte>)
    ensures buf == Put(Rooms(rooms), [])
  {
    ghost var all := Put8(S2C_ROOMS, PutList(rooms, PutRoom, []));
    assert all == Put(Rooms(rooms), []);
    NothingMorePut(rooms, PutRoom, []);
    buf := Append([], [S2C_ROOMS], all);
    buf := Append(buf, [|rooms| % 256], all);
    for i := 0 to |rooms|
      invariant Needs(buf, PutAll(rooms[i..], PutRoom, []), all)
    {
      OneMorePut(rooms, PutRoom, [], i);
      buf := Append(buf, [rooms[i].id], all);
      buf := Append(buf, [rooms[i].current], all);
      buf := Append(buf, [rooms[i].maxPlayers], all);
    }
    AllWritten(buf, all);
  }

  method PlayersListBytes(players: seq<PlayerInfo>) returns (buf: seq<byte>)
    ensures buf == Put(PlayersList(players), [])
  {
    ghost var all := Put8(S2C_PLAYERS_LIST, PutList(players, PutPlayer, []));
    assert all == Put(PlayersList(players), []);
    NothingMorePut(players, PutPlayer, []);
    buf := Append([], [S2C_PLAYERS_LIST], all);
    buf := Append(buf, [|players| % 256], all);
    for i := 0 to |players|
      invariant Needs(buf, PutAll(players[i..], PutPlayer, []), all)
    {
      OneMorePut(players, PutPlayer, [], i);
      buf := AppendPlayer(buf, players[i], PutAll(players[i + 1..], PutPlayer, []), all);
    }
    AllWritten(buf, all);
  }

  method CarListBytes(cars: seq<CarInfo>) returns (buf: seq<byte>)
    ensures buf == Put(CarList(cars), [])
  {
    ghost var all := Put8(S2C_CAR_LIST, PutList(cars, PutCar, []));
    assert all == Put(CarList(cars), []);
    NothingMorePut(cars, PutCar, []);
    buf := Append([], [S2C_CAR_LIST], all);
    buf := Append(buf, [|cars| % 256], all);
    for i := 0 to |cars|
      invariant Needs(buf, PutAll(cars[i..], PutCar, []), all)
    {
      OneMorePut(cars, PutCar, [], i);
      buf := Append(buf, [cars[i].id], all);
      buf := Append(buf, [cars[i].speed], all);
      buf := Append(buf, [cars[i].acceleration], all);
      buf := Append(buf, [cars[i].health], all);
      buf := Append(buf, [cars[i].mass], all);
      buf := Append(buf, [cars[i].controllability], all);
    }
    AllWritten(buf, all);
  }

  method RaceStartBytes(mapId: byte, checkpoints: seq<Point>) returns (buf: seq<byte>)
    ensures buf == Put(RaceStart(mapId, checkpoints), [])
  {
    ghost var all := Put8(S2C_RACE_START, Put8(mapId, PutList(checkpoints, PutPoint, [])));
    assert all == Put(RaceStart(mapId, checkpoints), []);
    NothingMorePut(checkpoints, PutPoint, []);
    buf := Append([], [S2C_RACE_START], all);
    buf := Append(buf, [mapId], all);
    buf := Append(buf, [|checkpoints| % 256], all);
    for i := 0 to |checkpoints|
      invariant Needs(buf, PutAll(checkpoints[i..], PutPoint, []), all)
    {
      OneMorePut(checkpoints, PutPoint, [], i);
      buf := Append(buf, U32(Unsigned32(checkpoints[i].x)), all);
      buf := Append(buf, U32(Unsigned32(checkpoints[i].y)), all);
    }
    AllWritten(buf, all);
  }

  method ResultsBytes(current: seq<CurrentResult>) returns (buf: seq<byte>)
    ensures buf == Put(Results(current), [])
  {
    ghost var all := Put8(S2C_RACE_RESULTS_CURRENT, PutList(current, PutCurrent, []));
    assert all == Put(Results(current), []);
    NothingMorePut(current, PutCurrent, []);
    buf := Append([], [S2C_RACE_RESULTS_CURRENT], all);
    buf := Append(buf, [|current| % 256], all);
    for i := 0 to |current|
      invariant Needs(buf, PutAll(current[i..], PutCurrent, []), all)
    {
      OneMorePut(current, PutCurrent, [], i);
      buf := AppendCurrent(buf, current[i], PutAll(current[i + 1..], PutCurrent, []), all);
    }
    AllWritten(buf, all);
  }

  method TotalBytes(total: seq<TotalResult>) returns (buf: seq<byte>)
    ensures buf == Put(ResultsFinal(total), [])
  {
    ghost var all := Put8(S2C_RESULTS, PutList(total, PutTotal, []));
    assert all == Put(ResultsFinal(total), []);
    NothingMorePut(total, PutTotal, []);
    buf := Append([], [S2C_RESULTS], all);
    buf := Append(buf, [|total| % 256], all);
    for i := 0 to |total|
      invariant Needs(buf, PutAll(total[i..], PutTotal, []), all)
    {
      OneMorePut(total, PutTotal, [], i);
      buf := AppendTotal(buf, total[i], PutAll(total[i + 1..], PutTotal, []), all);
    }
    AllWritten(buf, all);
  }

  method AppendTicks(buf: seq<byte>, ticks: seq<PlayerTick>, ghost rest: seq<byte>, ghost all: seq<byte>) returns (grown: seq<byte>)
    requires Needs(buf, PutList(ticks, PutTick, rest), all)
    ensures Needs(grown, rest, all)
  {
    NothingMorePut(ticks, PutTick, rest);
    grown := Append(buf, [|ticks| % 256], all);
    for i := 0 to |ticks|
      invariant Needs(grown, PutAll(ticks[i..], PutTick, rest), all)
    {
      OneMorePut(ticks, PutTick, rest, i);
      grown := AppendTick(grown, ticks[i], PutAll(ticks[i + 1..], PutTick, rest), all);
    }
  }

  method AppendNpcs(buf: seq<byte>, npcs: seq<NpcTick>, ghost rest: seq<byte>, ghost all: seq<byte>) returns (grown: seq<byte>)
    requires Needs(buf, PutList(npcs, PutNpc, rest), all)
    ensures Needs(grown, rest, all)
  {
    NothingMorePut(npcs, PutNpc, rest);
    grown := Append(buf, [|npcs| % 256], all);
    for i := 0 to |npcs|
      invariant Needs(grown, PutAll(npcs[i..], PutNpc, rest), all)
    {
      OneMorePut(npcs, PutNpc, rest, i);
      grown := Append(grown, [npcs[i].id], all);
      grown := Append(grown, U32(Unsigned32(npcs[i].x)), all);
      grown := Append(grown, U32(Unsigned32(npcs[i].y)), all);
      grown := Append(grown, U32(npcs[i].angle), all);
    }
  }

  method AppendEvents(buf: seq<byte>, events: seq<EventTick>, ghost rest: seq<byte>, ghost all: seq<byte>) returns (grown: seq<byte>)
    requires Needs(buf, PutList(events, PutEvent, rest), all)
    ensures Needs(grown, rest, all)
  {
    NothingMorePut(events, PutEvent, rest);
    grown := Append(buf, [|events| % 256], all);
    for i := 0 to |events|
      invariant Needs(grown, PutAll(events[i..], PutEvent, rest), all)
    {
      OneMorePut(events, PutEvent, rest, i);
      grown := Append(grown, [events[i].kind], all);
      grown := Append(grown, U32(events[i].player), all);
    }
  }

  method MapInfoBytes(ticks: seq<PlayerTick>, npcs: seq<NpcTick>, events: seq<EventTick>, time: u32) returns (buf: seq<byte>)
    ensures buf == Put8(S2C_MAP_INFO, PutMapInfo(ticks, npcs, events, time, []))
  {
    ghost var all := Put8(S2C_MAP_INFO, PutMapInfo(ticks, npcs, events, time, []));
    buf := Append([], [S2C_MAP_INFO], all);
    buf := AppendTicks(buf, ticks, Put32(time, PutList(npcs, PutNpc, PutList(events, PutEvent, []))), all);
    buf := Append(buf, U32(time), all);
    buf := AppendNpcs(buf, npcs, PutList(events, PutEvent, []), all);
    buf := AppendEvents(buf, events, [], all);
  }

  method PosBytes(id: u32, x: i16, y: i16, angle: u32) returns (buf: seq<byte>)
    ensures buf == Put(Pos(id, x, y, angle), [])
  {
    ghost var all := Put8(S2C_POS, Put32(id, Put16(Unsigned16(x), Put16(Unsigned16(y), Put32(angle, [])))));
    buf := Append([], [S2C_POS], all);
    buf := Append(buf, U32(id), all);
    buf := Append(buf, U16(Unsigned16(x)), all);
    buf := Append(buf, U16(Unsigned16(y)), all);
    buf := Append(buf, U32(angle), all);
  }

  /** The length and the bytes that it counts. */
  method PlayerNameBytes(id: u32, name: seq<byte>) returns (buf: seq<byte>)
    ensures buf == Put(PlayerName(id, name), [])
  {
    ghost var all := Put8(S2C_PLAYER_NAME, Put32(id, PutCutName(name, [])));
    var len := |name| % 65536;
    buf := Append([], [S2C_PLAYER_NAME], all);
    buf := Append(buf, U32(id), all);
    buf := Append(buf, U16(len), all);
    if len > 0 {
      buf := Append(buf, name[..len], all);
    }
  }

  lemma ImprovementFields(player: u32, improvement: byte, success: bool, penalty: u32, balance: u32)
    ensures Put(ImprovementOk(player, improvement, success, penalty, balance), [])
            == [S2C_IMPROVEMENT] + Put32(player, Put8(improvement, Put8(Flag(success), Put32(penalty, Put32(balance, [])))))
  {
  }

  method ImprovementBytes(player: u32, improvement: byte, success: bool, penalty: u32, balance: u32) returns (buf: seq<byte>)
    ensures buf == Put(ImprovementOk(player, improvement, success, penalty, balance), [])
  {
    ghost var money := Put32(penalty, Put32(balance, []));
    ghost var verdict := Put8(improvement, Put8(Flag(success), money));
    ghost var all := Put(ImprovementOk(player, improvement, success, penalty, balance), []);
    ImprovementFields(player, improvement, success, penalty, balance);
    buf := AppendField([], [S2C_IMPROVEMENT], Put32(player, verdict), all);
    buf := AppendField(buf, U32(player), verdict, all);
    buf := AppendField(buf, [improvement], Put8(Flag(success), money), all);
    buf := AppendField(buf, [Flag(success)], money, all);
    buf := AppendField(buf, U32(penalty), Put32(balance, []), all);
    buf := AppendField(buf, U32(balance), [], all);
  }

  /** The bytes of a message, whatever its kind. */
  method MessageBytes(m: Message) returns (buf: seq<byte>)
    requires !m.Unknown?
    ensures buf == Put(m, [])
  {
    match m
    case Ok => buf := [S2C_OK];
    case Pos(id, x, y, angle) => buf := PosBytes(id, x, y, angle);
    case YourId(id) => buf := [S2C_YOUR_ID] + U32(id);
    case PlayerName(id, name) => buf := PlayerNameBytes(id, name);
    case Rooms(rooms) => buf := RoomsBytes(rooms);
    case RoomCreated(room) => buf := [S2C_ROOM_CREATED, room];
    case PlayersList(players) => buf := PlayersListBytes(players);
    case CarList(cars) => buf := CarListBytes(cars);
    case RaceStart(mapId, checkpoints) => buf := RaceStartBytes(mapId, checkpoints);
    case Results(current) => buf := ResultsBytes(current);
    case ResultsFinal(total) => buf := TotalBytes(total);
    case MapInfo(ticks, npcs, events, time) =>
      Downstream.MapInfoIsPut(ticks, npcs, events, time, []);
      buf := MapInfoBytes(ticks, npcs, events, time);
    case ImprovementOk(player, improvement, success, penalty, balance) =>
      buf := ImprovementBytes(player, improvement, success, penalty, balance);
    case MarketTime(time) => buf := [S2C_MARKET_TIME] + U32(time);
    case GameOver => buf := [S2C_GAME_OVER];
  }

  class ServerProtocol {
    const skt: Socket

    constructor (skt: Socket)
      ensures this.skt == skt
    {
      this.skt := skt;
    }

    /** All of the message goes out behind what went before, unless the client goes away. */
    method Send(m: Message) returns (r: Sent)
      requires !m.Unknown?
      modifies skt`outgoing, skt`sendClosed, skt`sendFailed
      ensures r.AllSent? ==> skt.outgoing == old(skt.outgoing) + Put(m, [])
      ensures old(skt.outgoing) <= skt.outgoing <= old(skt.outgoing) + Put(m, [])
      ensures skt.sendClosed == (old(skt.sendClosed) || r.PeerGone? || r.Broken?)
      ensures skt.sendFailed == (old(skt.sendFailed) || r.Failed?)
    {
      var buf := MessageBytes(m);
      var n;
      r, n := skt.SendAll(buf);
      assert buf == buf[..n] + buf[n..];
    }

    /** The sending thread: message after message as they come out of the queue; a message cut off in the
        middle ends it. */
    method RunSender(ms: seq<Message>)
      requires forall m | m in ms :: !m.Unknown?
      modifies skt`outgoing, skt`sendClosed, skt`sendFailed
      ensures !skt.sendClosed && !skt.sendFailed ==> skt.outgoing == old(skt.outgoing) + Downstream.Stream(ms)
      ensures (old(skt.sendClosed) ==> skt.sendClosed) && (old(skt.sendFailed) ==> skt.sendFailed)
    {
      for i := 0 to |ms|
        invariant !skt.sendClosed && !skt.sendFailed ==> skt.outgoing == old(skt.outgoing) + Downstream.Stream(ms[..i])
        invariant (old(skt.sendClosed) ==> skt.sendClosed) && (old(skt.sendFailed) ==> skt.sendFailed)
      {
        assert ms[..i + 1] == ms[..i] + [ms[i]];
        Downstream.StreamGrows(ms[..i], ms[i]);
        Associative(old(skt.outgoing), Downstream.Stream(ms[..i]), Put(ms[i], []));
        var r := Send(ms[i]);
        if r.Broken? || r.Failed? {
          return;
        }
      }
      assert ms[..|ms|] == ms;
    }

    // ---------------------------------------------------------------- parsers

    method ParseStartGame() returns (m: C2S.ClientMessage)
      requires TakeList(C2S.TakeRace, skt.incoming).Got?
      modifies skt`incoming, skt`recvClosed
      ensures m.StartGame? && TakeList(C2S.TakeRace, old(skt.incoming)) == Got(m.races, skt.incoming)
      ensures skt.recvClosed == old(skt.recvClosed)
    {
      var races := [];
      var qty := skt.Recv8();
      ghost var whole := Completed([], qty, C2S.TakeRace, skt.incoming);
      NoneTaken(qty, C2S.TakeRace, skt.incoming);
      ghost var left: nat := qty;
      for i := 0 to qty
        invariant left == qty - i
        invariant whole.Got? && Completed(races, left, C2S.TakeRace, skt.incoming) == whole
        invariant skt.recvClosed == old(skt.recvClosed)
      {
        OneMoreIsThere(races, left, C2S.TakeRace, skt.incoming);
        ghost var before := skt.incoming;
        var name := skt.RecvName();
        var route := skt.Recv8();
        ghost var fewer := left - 1;
        OneMoreTaken(races, left, fewer, C2S.TakeRace, before, C2S.RaceChoice(name, route), skt.incoming);
        races := races + [C2S.RaceChoice(name, route)];
        left := fewer;
      }
      AllTaken(races, C2S.TakeRace, skt.incoming);
      m := C2S.StartGame(races);
    }

    method ParseRoom() returns (m: C2S.ClientMessage)
      requires C2S.TakeRoom(skt.incoming).Got?
      modifies skt`incoming, skt`recvClosed
      ensures C2S.TakeRoom(old(skt.incoming)) == Got(m, skt.incoming) && skt.recvClosed == old(skt.recvClosed)
    {
      var cmd := skt.Recv8();
      if cmd == ROOM_JOIN {
        var room := skt.Recv8();
        m := C2S.Room(cmd, room);
      } else {
        m := C2S.Room(cmd, 0);
      }
    }

    method ParseBody(code: byte) returns (m: C2S.ClientMessage)
      requires C2S.TakeBody(code, skt.incoming).Got?
      modifies skt`incoming, skt`recvClosed
      ensures C2S.TakeBody(code, old(skt.incoming)) == Got(m, skt.incoming) && skt.recvClosed == old(skt.recvClosed)
    {
      if code == C2S.C2S_NAME {
        var name := skt.RecvName();
        m := C2S.Name(name);
      } else if code == C2S.C2S_MOVE {
        var movement := skt.Recv8();
        m := C2S.Move(movement);
      } else if code == C2S.C2S_ROOM {
        m := ParseRoom();
      } else if code == C2S.C2S_START_GAME {
        m := ParseStartGame();
      } else if code == C2S.C2S_CHOOSE_CAR {
        var car := skt.Recv8();
        m := C2S.ChooseCar(car);
      } else if code == C2S.C2S_IMPROVEMENT {
        var improvement := skt.Recv8();
        m := C2S.Improvement(improvement);
      } else if code == C2S.C2S_CHEAT {
        var cheat := skt.Recv8();
        m := C2S.Cheat(cheat);
      } else if code == C2S.C2S_EXIT {
        m := C2S.Exit;
      } else {
        m := C2S.Unknown;
      }
    }

    /** The next message, or the end of the stream, or the error that ends it. */
    method Receive() returns (m: C2S.ClientMessage, failed: bool)
      requires skt.incoming == [] || C2S.TakeMessage(skt.incoming).Got?
      modifies skt`incoming, skt`recvClosed
      ensures old(skt.incoming) == [] ==>
                && skt.incoming == [] && m == C2S.Unknown && failed == skt.breaks
                && skt.recvClosed == (old(skt.recvClosed) || !failed)
      ensures old(skt.incoming) != [] ==>
                && !failed && C2S.TakeMessage(old(skt.incoming)) == Got(m, skt.incoming)
                && skt.recvClosed == old(skt.recvClosed)
    {
      var r := skt.RecvAll(1);
      failed := r.Failed?;
      if r == EndOfStream || failed {
        return C2S.Unknown, failed;
      }
      m := ParseBody(r.data[0]);
    }

    /** The receiving thread: it pushes the actions of message after message, until the client closes or the
        connection breaks. */
    method RunReceiver() returns (actions: seq<C2S.ClientMessage>)
      requires C2S.ReceiveAll(skt.incoming).Got? && !skt.recvClosed
      modifies skt`incoming, skt`recvClosed
      ensures actions == C2S.PushedFor(C2S.ReceiveAll(old(skt.incoming)).value)
      ensures C2S.AreActionsOf(actions, C2S.ReceiveAll(old(skt.incoming)).value)
      ensures skt.incoming == [] && skt.recvClosed == !skt.breaks
    {
      actions := [];
      C2S.PushedAreTheActions(C2S.ReceiveAll(skt.incoming).value);
      ghost var all := C2S.PushedFor(C2S.ReceiveAll(skt.incoming).value);
      while !skt.recvClosed
        invariant C2S.ReceiveAll(skt.incoming).Got?
        invariant actions + C2S.PushedFor(C2S.ReceiveAll(skt.incoming).value) == all
        invariant skt.recvClosed ==> skt.incoming == [] && !skt.breaks
        decreases !skt.recvClosed, |skt.incoming|
      {
        ghost var before := skt.incoming;
        var m, failed := Receive();
        if failed || skt.recvClosed {
          break;
        }
        OneMoreReceived(before, m, skt.incoming, actions);
        actions := Push(actions, m);
      }
    }
  }

  /** A start of the game is pushed inside the switch and once more behind it. */
  method Push(actions: seq<C2S.ClientMessage>, m: C2S.ClientMessage) returns (grown: seq<C2S.ClientMessage>)
    ensures grown == actions + C2S.Pushed(m)
    ensures grown == actions + if m.StartGame? then [m, m] else if m.Exit? || m.Unknown? then [] else [m]
  {
    grown := actions;
    match m {
      case StartGame(_) => grown := grown + [m];
      case Exit => return;
      case Unknown => return;
      case _ =>
    }
    grown := grown + [m];
  }

  lemma OneMoreReceived(before: seq<byte>, m: C2S.ClientMessage, rest: seq<byte>, actions: seq<C2S.ClientMessage>)
    requires C2S.TakeMessage(before) == Got(m, rest) && C2S.ReceiveAll(before).Got?
    ensures |rest| < |before| && C2S.ReceiveAll(rest).Got?
    ensures actions + C2S.PushedFor(C2S.ReceiveAll(before).value)
            == (actions + C2S.Pushed(m)) + C2S.PushedFor(C2S.ReceiveAll(rest).value)
  {
    C2S.MessageConsumes(before);
    FirstReceived(before, m, rest);
    var later := C2S.ReceiveAll(rest).value;
    C2S.FirstPushed(m, later);
    Associative(actions, C2S.Pushed(m), C2S.PushedFor(later));
  }

  lemma FirstReceived(before: seq<byte>, m: C2S.ClientMessage, rest: seq<byte>)
    requires C2S.TakeMessage(before) == Got(m, rest) && C2S.ReceiveAll(before).Got?
    ensures C2S.ReceiveAll(rest).Got? && C2S.ReceiveAll(before).value == [m] + C2S.ReceiveAll(rest).value
  {
    C2S.MessageConsumes(before);
  }
}

