/** client/client_protocol.cpp: the same messages from the other side. */
module ClientProtocols {
  import opened Sequences
  import opened Constants
  import opened Bytes
  import opened Sockets
  import opened ServerToClient
  import Downstream
  import C2S = ClientToServer

  // ------------------------------------------------------------------ what the client sends

  method NameBytes(username: seq<byte>) returns (buf: seq<byte>)
    ensures buf == C2S.Put(C2S.Name(username), [])
  {
    ghost var all := Put8(C2S.C2S_NAME, PutName(username, []));
    buf := Append([], [C2S.C2S_NAME], all);
    buf := AppendName(buf, username, [], all);
  }

  method StartGameBytes(races: seq<C2S.RaceChoice>) returns (buf: seq<byte>)
    ensures buf == C2S.Put(C2S.StartGame(races), [])
  {
    ghost var all := Put8(C2S.C2S_START_GAME, PutList(races, C2S.PutRace, []));
    NothingMorePut(races, C2S.PutRace, []);
    buf := Append([], [C2S.C2S_START_GAME], all);
    buf := Append(buf, [|races| % 256], all);
    for i := 0 to |races|
      invariant Needs(buf, PutAll(races[i..], C2S.PutRace, []), all)
    {
      OneMorePut(races, C2S.PutRace, [], i);
      buf := AppendName(buf, races[i].mapName, Put8(races[i].route, PutAll(races[i + 1..], C2S.PutRace, [])), all);
      buf := Append(buf, [races[i].route], all);
    }
  }

  /** The bytes of a message, whatever its kind; leaving a room is three bytes long. */
  method MessageBytes(m: C2S.ClientMessage) returns (buf: seq<byte>)
    requires !m.Unknown?
    ensures buf == C2S.Put(m, [])
  {
    match m
    case Name(username) => buf := NameBytes(username);
    case Move(movement) => buf := [C2S.C2S_MOVE, movement];
    case Room(cmd, room) =>
      if cmd == ROOM_CREATE {
        buf := [C2S.C2S_ROOM, ROOM_CREATE];
      } else if cmd == ROOM_LEAVE {
        buf := [C2S.C2S_ROOM, ROOM_LEAVE, 0];
      } else {
        buf := [C2S.C2S_ROOM, cmd, room];
      }
    case StartGame(races) => buf := StartGameBytes(races);
    case ChooseCar(car) => buf := [C2S.C2S_CHOOSE_CAR, car];
    case Improvement(improvement) => buf := [C2S.C2S_IMPROVEMENT, improvement];
    case Cheat(cheat) => buf := [C2S.C2S_CHEAT, cheat];
    case Exit => buf := [C2S.C2S_EXIT];
  }

  class ClientProtocol {
    const skt: Socket

    constructor (skt: Socket)
      ensures this.skt == skt
    {
      this.skt := skt;
    }

    method Send(m: C2S.ClientMessage) returns (r: Sent)
      requires !m.Unknown?
      modifies skt`outgoing, skt`sendClosed, skt`sendFailed
      ensures r.AllSent? ==> skt.outgoing == old(skt.outgoing) + C2S.Put(m, [])
      ensures old(skt.outgoing) <= skt.outgoing <= old(skt.outgoing) + C2S.Put(m, [])
      ensures skt.sendClosed == (old(skt.sendClosed) || r.PeerGone? || r.Broken?)
      ensures skt.sendFailed == (old(skt.sendFailed) || r.Failed?)
    {
      var buf := MessageBytes(m);
      var n;
      r, n := skt.SendAll(buf);
      assert buf == buf[..n] + buf[n..];
    }

    /** The sending thread of the client. */
    method RunSender(ms: seq<C2S.ClientMessage>)
      requires forall m | m in ms :: !m.Unknown?
      modifies skt`outgoing, skt`sendClosed, skt`sendFailed
      ensures !skt.sendClosed && !skt.sendFailed ==> skt.outgoing == old(skt.outgoing) + C2S.Stream(ms)
      ensures (old(skt.sendClosed) ==> skt.sendClosed) && (old(skt.sendFailed) ==> skt.sendFailed)
    {
      for i := 0 to |ms|
        invariant !skt.sendClosed && !skt.sendFailed ==> skt.outgoing == old(skt.outgoing) + C2S.Stream(ms[..i])
        invariant (old(skt.sendClosed) ==> skt.sendClosed) && (old(skt.sendFailed) ==> skt.sendFailed)
      {
        assert ms[..i + 1] == ms[..i] + [ms[i]];
        C2S.StreamGrows(ms[..i], ms[i]);
        Associative(old(skt.outgoing), C2S.Stream(ms[..i]), C2S.Put(ms[i], []));
        var r := Send(ms[i]);
        if r.Broken? || r.Failed? {
          return;
        }
      }
      assert ms[..|ms|] == ms;
    }

    // ---------------------------------------------------------------- what the client receives

    method ParseRooms() returns (rooms: seq<RoomInfo>)
      requires TakeList(TakeRoom, skt.incoming).Got?
      modifies skt`incoming, skt`recvClosed
      ensures TakeList(TakeRoom, old(skt.incoming)) == Got(rooms, skt.incoming) && skt.recvClosed == old(skt.recvClosed)
    {
      rooms := [];
      var count := skt.Recv8();
      ghost var whole := Completed([], count, TakeRoom, skt.incoming);
      NoneTaken(count, TakeRoom, skt.incoming);
      ghost var left: nat := count;
      for i := 0 to count
        invariant left == count - i
        invariant whole.Got? && Completed(rooms, left, TakeRoom, skt.incoming) == whole
        invariant skt.recvClosed == old(skt.recvClosed)
      {
        OneMoreIsThere(rooms, left, TakeRoom, skt.incoming);
        ghost var before := skt.incoming;
        var id := skt.Recv8();
        var current := skt.Recv8();
        var maxPlayers := skt.Recv8();
        ghost var fewer := left - 1;
        OneMoreTaken(rooms, left, fewer, TakeRoom, before, RoomInfo(id, current, maxPlayers), skt.incoming);
        rooms := rooms + [RoomInfo(id, current, maxPlayers)];
        left := fewer;
      }
      AllTaken(rooms, TakeRoom, skt.incoming);
    }

    method ParsePlayer() returns (p: PlayerInfo)
      requires TakePlayer(skt.incoming).Got?
      modifies skt`incoming, skt`recvClosed
      ensures TakePlayer(old(skt.incoming)) == Got(p, skt.incoming) && skt.recvClosed == old(skt.recvClosed)
    {
      var player := skt.Recv32();
      var name := skt.RecvName();
      var ready := skt.Recv8();
      var admin := skt.Recv8();
      var health := skt.Recv8();
      var time := skt.Recv32();
      p := PlayerInfo(player, name, ready != 0, admin != 0, health, time);
    }

    method ParsePlayersList() returns (players: seq<PlayerInfo>)
      requires TakeList(TakePlayer, skt.incoming).Got?
      modifies skt`incoming, skt`recvClosed
      ensures TakeList(TakePlayer, old(skt.incoming)) == Got(players, skt.incoming) && skt.recvClosed == old(skt.recvClosed)
    {
      players := [];
      var count := skt.Recv8();
      ghost var whole := Completed([], count, TakePlayer, skt.incoming);
      NoneTaken(count, TakePlayer, skt.incoming);
      ghost var left: nat := count;
      for i := 0 to count
        invariant left == count - i
        invariant whole.Got? && Completed(players, left, TakePlayer, skt.incoming) == whole
        invariant skt.recvClosed == old(skt.recvClosed)
      {
        OneMoreIsThere(players, left, TakePlayer, skt.incoming);
        ghost var before := skt.incoming;
        var p := ParsePlayer();
        ghost var fewer := left - 1;
        OneMoreTaken(players, left, fewer, TakePlayer, before, p, skt.incoming);
        players := players + [p];
        left := fewer;
      }
      AllTaken(players, TakePlayer, skt.incoming);
    }

    /** Reads past the cars of the list. */
    method ParseCarList() returns (ghost seen: seq<()>)
      requires TakeList(TakeCar, skt.incoming).Got?
      modifies skt`incoming, skt`recvClosed
      ensures TakeList(TakeCar, old(skt.incoming)) == Got(seen, skt.incoming) && skt.recvClosed == old(skt.recvClosed)
    {
      var count := skt.Recv8();
      seen := [];
      ghost var whole := Completed([], count, TakeCar, skt.incoming);
      NoneTaken(count, TakeCar, skt.incoming);
      ghost var left: nat := count;
      for i := 0 to count
        invariant left == count - i
        invariant whole.Got? && Completed(seen, left, TakeCar, skt.incoming) == whole
        invariant skt.recvClosed == old(skt.recvClosed)
      {
        OneMoreIsThere(seen, left, TakeCar, skt.incoming);
        ghost var before := skt.incoming;
        var _ := skt.RecvAll(6);
        ghost var fewer := left - 1;
        OneMoreTaken(seen, left, fewer, TakeCar, before, (), skt.incoming);
        seen := seen + [()];
        left := fewer;
      }
      AllTaken(seen, TakeCar, skt.incoming);
    }

    /** Reads past the checkpoints of a race start. */
    method ParseRaceStart() returns (m: Message)
      requires TakeRaceStart(skt.incoming).Got?
      modifies skt`incoming, skt`recvClosed
      ensures TakeRaceStart(old(skt.incoming)) == Got(m, skt.incoming) && skt.recvClosed == old(skt.recvClosed)
    {
      var mapId := skt.Recv8();
      var amount := skt.Recv8();
      ghost var done := [];
      ghost var whole := Completed([], amount, TakePoint, skt.incoming);
      NoneTaken(amount, TakePoint, skt.incoming);
      ghost var left: nat := amount;
      for i := 0 to amount
        invariant left == amount - i
        invariant whole.Got? && Completed(done, left, TakePoint, skt.incoming) == whole
        invariant skt.recvClosed == old(skt.recvClosed)
      {
        OneMoreIsThere(done, left, TakePoint, skt.incoming);
        ghost var before := skt.incoming;
        var _ := skt.Recv32();
        var _ := skt.Recv32();
        ghost var fewer := left - 1;
        OneMoreTaken(done, left, fewer, TakePoint, before, (), skt.incoming);
        done := done + [()];
        left := fewer;
      }
      AllTaken(done, TakePoint, skt.incoming);
      m := RaceStart(mapId, []);
    }

    method ParseResults() returns (total: seq<TotalResult>)
      requires TakeList(TakeTotal, skt.incoming).Got?
      modifies skt`incoming, skt`recvClosed
      ensures TakeList(TakeTotal, old(skt.incoming)) == Got(total, skt.incoming) && skt.recvClosed == old(skt.recvClosed)
    {
      total := [];
      var n := skt.Recv8();
      ghost var whole := Completed([], n, TakeTotal, skt.incoming);
      NoneTaken(n, TakeTotal, skt.incoming);
      ghost var left: nat := n;
      for i := 0 to n
        invariant left == n - i
        invariant whole.Got? && Completed(total, left, TakeTotal, skt.incoming) == whole
        invariant skt.recvClosed == old(skt.recvClosed)
      {
        OneMoreIsThere(total, left, TakeTotal, skt.incoming);
        ghost var before := skt.incoming;
        var name := skt.RecvName();
        var time := skt.Recv32();
        var position := skt.Recv8();
        ghost var fewer := left - 1;
        OneMoreTaken(total, left, fewer, TakeTotal, before, TotalResult(name, time, position), skt.incoming);
        total := total + [TotalResult(name, time, position)];
        left := fewer;
      }
      AllTaken(total, TakeTotal, skt.incoming);
    }

    method ParseResultRaceCurrent() returns (current: seq<CurrentResult>)
      requires TakeList(TakeCurrent, skt.incoming).Got?
      modifies skt`incoming, skt`recvClosed
      ensures TakeList(TakeCurrent, old(skt.incoming)) == Got(current, skt.incoming) && skt.recvClosed == old(skt.recvClosed)
    {
      current := [];
      var n := skt.Recv8();
      ghost var whole := Completed([], n, TakeCurrent, skt.incoming);
      NoneTaken(n, TakeCurrent, skt.incoming);
      ghost var left: nat := n;
      for i := 0 to n
        invariant left == n - i
        invariant whole.Got? && Completed(current, left, TakeCurrent, skt.incoming) == whole
        invariant skt.recvClosed == old(skt.recvClosed)
      {
        OneMoreIsThere(current, left, TakeCurrent, skt.incoming);
        ghost var before := skt.incoming;
        var player := skt.Recv32();
        var name := skt.RecvName();
        var race := skt.Recv32();
        var total := skt.Recv32();
        var position := skt.Recv8();
        ghost var fewer := left - 1;
        OneMoreTaken(current, left, fewer, TakeCurrent, before, CurrentResult(player, name, race, total, position), skt.incoming);
        current := current + [CurrentResult(player, name, race, total, position)];
        left := fewer;
      }
      AllTaken(current, TakeCurrent, skt.incoming);
    }

    method ParseImprovement() returns (m: Message)
      requires TakeImprovement(skt.incoming).Got?
      modifies skt`incoming, skt`recvClosed
      ensures TakeImprovement(old(skt.incoming)) == Got(m, skt.incoming) && skt.recvClosed == old(skt.recvClosed)
    {
      var player := skt.Recv32();
      var improvement := skt.Recv8();
      var success := skt.Recv8();
      var penalty := skt.Recv32();
      var balance := skt.Recv32();
      m := ImprovementOk(player, improvement, success != 0, penalty, balance);
    }

    method ParsePos() returns (m: Message)
      requires TakePos(skt.incoming).Got?
      modifies skt`incoming, skt`recvClosed
      ensures TakePos(old(skt.incoming)) == Got(m, skt.incoming) && skt.recvClosed == old(skt.recvClosed)
    {
      var id := skt.Recv32();
      var x := skt.Recv16();
      var y := skt.Recv16();
      var angle := skt.Recv32();
      m := Pos(id, Signed16(x), Signed16(y), angle);
    }

    method ParsePlayerName() returns (m: Message)
      requires TakePlayerName(skt.incoming).Got?
      modifies skt`incoming, skt`recvClosed
      ensures TakePlayerName(old(skt.incoming)) == Got(m, skt.incoming) && skt.recvClosed == old(skt.recvClosed)
    {
      var id := skt.Recv32();
      var name := skt.RecvName();
      m := PlayerName(id, name);
    }

    // ---------------------------------------------------------------- a snapshot of the race

    method ParseTickGoal(tick: PlayerTick) returns (t: PlayerTick)
      requires TakeTickGoal(tick, skt.incoming).Got?
      modifies skt`incoming, skt`recvClosed
      ensures TakeTickGoal(tick, old(skt.incoming)) == Got(t, skt.incoming) && skt.recvClosed == old(skt.recvClosed)
    {
      var xCheckpoint := skt.Recv16();
      var yCheckpoint := skt.Recv16();
      var hint := skt.Recv32();
      var position := skt.Recv16();
      var distance := skt.Recv32();
      var remaining := skt.Recv16();
      var meta := skt.Recv8();
      t := tick.(xCheckpoint := xCheckpoint, yCheckpoint := yCheckpoint, hint := hint, position := position, distance := distance,
                 remaining := remaining, meta := Flag(meta != 0));
    }

    method ParseTickBody(name: seq<byte>) returns (t: PlayerTick)
      requires TakeTickBody(name, skt.incoming).Got?
      modifies skt`incoming, skt`recvClosed
      ensures TakeTickBody(name, old(skt.incoming)) == Got(t, skt.incoming) && skt.recvClosed == old(skt.recvClosed)
    {
      var car := skt.Recv8();
      var player := skt.Recv32();
      var x := skt.Recv32();
      var y := skt.Recv32();
      var angle := skt.Recv32();
      var health := skt.Recv8();
      var maxHealth := skt.Recv8();
      var speed := skt.Recv32();
      t := ParseTickGoal(PlayerTick(name, car, player, Signed32(x), Signed32(y), angle, health, maxHealth, speed, 0, 0, 0, 0, 0, 0, 0, []));
    }

    method ParseImprovements() returns (improvements: seq<byte>)
      requires TakeByteList(skt.incoming).Got?
      modifies skt`incoming, skt`recvClosed
      ensures TakeByteList(old(skt.incoming)) == Got(improvements, skt.incoming) && skt.recvClosed == old(skt.recvClosed)
    {
      improvements := [];
      var n := skt.Recv8();
      ghost var whole := Completed([], n, Take8, skt.incoming);
      NoneTaken(n, Take8, skt.incoming);
      ghost var left: nat := n;
      for k := 0 to n
        invariant left == n - k
        invariant whole.Got? && Completed(improvements, left, Take8, skt.incoming) == whole
        invariant skt.recvClosed == old(skt.recvClosed)
      {
        OneMoreIsThere(improvements, left, Take8, skt.incoming);
        ghost var before := skt.incoming;
        var improvement := skt.Recv8();
        ghost var fewer := left - 1;
        OneMoreTaken(improvements, left, fewer, Take8, before, improvement, skt.incoming);
        improvements := improvements + [improvement];
        left := fewer;
      }
      AllTaken(improvements, Take8, skt.incoming);
    }

    method ParseTick() returns (t: PlayerTick)
      requires TakeTick(skt.incoming).Got?
      modifies skt`incoming, skt`recvClosed
      ensures TakeTick(old(skt.incoming)) == Got(t, skt.incoming) && skt.recvClosed == old(skt.recvClosed)
    {
      var name := skt.RecvName();
      t := ParseTickBody(name);
      var improvements := ParseImprovements();
      t := t.(improvements := improvements);
    }

    method ParseTicks() returns (ticks: seq<PlayerTick>)
      requires TakeList(TakeTick, skt.incoming).Got?
      modifies skt`incoming, skt`recvClosed
      ensures TakeList(TakeTick, old(skt.incoming)) == Got(ticks, skt.incoming) && skt.recvClosed == old(skt.recvClosed)
    {
      ticks := [];
      var np := skt.Recv8();
      ghost var whole := Completed([], np, TakeTick, skt.incoming);
      NoneTaken(np, TakeTick, skt.incoming);
      ghost var left: nat := np;
      for i := 0 to np
        invariant left == np - i
        invariant whole.Got? && Completed(ticks, left, TakeTick, skt.incoming) == whole
        invariant skt.recvClosed == old(skt.recvClosed)
      {
        OneMoreIsThere(ticks, left, TakeTick, skt.incoming);
        ghost var before := skt.incoming;
        var t := ParseTick();
        ghost var fewer := left - 1;
        OneMoreTaken(ticks, left, fewer, TakeTick, before, t, skt.incoming);
        ticks := ticks + [t];
        left := fewer;
      }
      AllTaken(ticks, TakeTick, skt.incoming);
    }

    method ParseNpcs() returns (npcs: seq<NpcTick>)
      requires TakeList(TakeNpc, skt.incoming).Got?
      modifies skt`incoming, skt`recvClosed
      ensures TakeList(TakeNpc, old(skt.incoming)) == Got(npcs, skt.incoming) && skt.recvClosed == old(skt.recvClosed)
    {
      npcs := [];
      var nn := skt.Recv8();
      ghost var whole := Completed([], nn, TakeNpc, skt.incoming);
      NoneTaken(nn, TakeNpc, skt.incoming);
      ghost var left: nat := nn;
      for i := 0 to nn
        invariant left == nn - i
        invariant whole.Got? && Completed(npcs, left, TakeNpc, skt.incoming) == whole
        invariant skt.recvClosed == old(skt.recvClosed)
      {
        OneMoreIsThere(npcs, left, TakeNpc, skt.incoming);
        ghost var before := skt.incoming;
        var id := skt.Recv8();
        var x := skt.Recv32();
        var y := skt.Recv32();
        var angle := skt.Recv32();
        ghost var fewer := left - 1;
        OneMoreTaken(npcs, left, fewer, TakeNpc, before, NpcTick(id, Signed32(x), Signed32(y), angle), skt.incoming);
        npcs := npcs + [NpcTick(id, Signed32(x), Signed32(y), angle)];
        left := fewer;
      }
      AllTaken(npcs, TakeNpc, skt.incoming);
    }

    method ParseEvents() returns (events: seq<EventTick>)
      requires TakeList(TakeEvent, skt.incoming).Got?
      modifies skt`incoming, skt`recvClosed
      ensures TakeList(TakeEvent, old(skt.incoming)) == Got(events, skt.incoming) && skt.recvClosed == old(skt.recvClosed)
    {
      events := [];
      var ne := skt.Recv8();
      ghost var whole := Completed([], ne, TakeEvent, skt.incoming);
      NoneTaken(ne, TakeEvent, skt.incoming);
      ghost var left: nat := ne;
      for i := 0 to ne
        invariant left == ne - i
        invariant whole.Got? && Completed(events, left, TakeEvent, skt.incoming) == whole
        invariant skt.recvClosed == old(skt.recvClosed)
      {
        OneMoreIsThere(events, left, TakeEvent, skt.incoming);
        ghost var before := skt.incoming;
        var kind := skt.Recv8();
        var player := skt.Recv32();
        ghost var fewer := left - 1;
        OneMoreTaken(events, left, fewer, TakeEvent, before, EventTick(kind, player), skt.incoming);
        events := events + [EventTick(kind, player)];
        left := fewer;
      }
      AllTaken(events, TakeEvent, skt.incoming);
    }

    method ParseMapInfo() returns (m: Message)
      requires TakeMapInfo(skt.incoming).Got?
      modifies skt`incoming, skt`recvClosed
      ensures TakeMapInfo(old(skt.incoming)) == Got(m, skt.incoming) && skt.recvClosed == old(skt.recvClosed)
    {
      var ticks := ParseTicks();
      var time := skt.Recv32();
      var npcs := ParseNpcs();
      var events := ParseEvents();
      m := MapInfo(ticks, npcs, events, time);
    }

    // ---------------------------------------------------------------- dispatch

    method ParseBody(code: byte) returns (m: Message)
      requires TakeBody(code, skt.incoming).Got?
      modifies skt`incoming, skt`recvClosed
      ensures TakeBody(code, old(skt.incoming)) == Got(m, skt.incoming) && skt.recvClosed == old(skt.recvClosed)
    {
      if code == S2C_OK {
        m := Ok;
      } else if code == S2C_POS {
        m := ParsePos();
      } else if code == S2C_ROOMS {
        var rooms := ParseRooms();
        m := Rooms(rooms);
      } else if code == S2C_PLAYER_NAME {
        m := ParsePlayerName();
      } else if code == S2C_YOUR_ID {
        var id := skt.Recv32();
        m := YourId(id);
      } else if code == S2C_ROOM_CREATED {
        var room := skt.Recv8();
        m := RoomCreated(room);
      } else if code == S2C_PLAYERS_LIST {
        var players := ParsePlayersList();
        m := PlayersList(players);
      } else if code == S2C_GAME_OVER {
        m := GameOver;
      } else if code == S2C_CAR_LIST {
        ghost var _ := ParseCarList();
        m := Unknown;
      } else if code == S2C_RACE_START {
        m := ParseRaceStart();
      } else if code == S2C_RESULTS {
        var total := ParseResults();
        m := ResultsFinal(total);
      } else if code == S2C_RACE_RESULTS_CURRENT {
        var current := ParseResultRaceCurrent();
        m := Results(current);
      } else if code == S2C_IMPROVEMENT {
        m := ParseImprovement();
      } else if code == S2C_MAP_INFO {
        m := ParseMapInfo();
      } else if code == S2C_MARKET_TIME {
        var time := skt.Recv32();
        m := MarketTime(time);
      } else {
        m := Unknown;
      }
    }

    /** The next message, or the end of the stream, or the error that ends it. */
    method Receive() returns (m: Message, failed: bool)
      requires skt.incoming == [] || TakeMessage(skt.incoming).Got?
      modifies skt`incoming, skt`recvClosed
      ensures old(skt.incoming) == [] ==>
                && skt.incoming == [] && m == Unknown && failed == skt.breaks
                && skt.recvClosed == (old(skt.recvClosed) || !failed)
      ensures old(skt.incoming) != [] ==>
                && !failed && TakeMessage(old(skt.incoming)) == Got(m, skt.incoming)
                && skt.recvClosed == old(skt.recvClosed)
    {
      var r := skt.RecvAll(1);
      failed := r.Failed?;
      if r == EndOfStream || failed {
        return Unknown, failed;
      }
      m := ParseBody(r.data[0]);
    }

    /** Message after message, until the server closes or the connection breaks. */
    method ReceiveToTheEnd() returns (ms: seq<Message>)
      requires Downstream.ReceiveAll(skt.incoming).Got? && !skt.recvClosed
      modifies skt`incoming, skt`recvClosed
      ensures Downstream.ReceiveAll(old(skt.incoming)).value == ms && skt.incoming == [] && skt.recvClosed == !skt.breaks
    {
      ms := [];
      ghost var all := Downstream.ReceiveAll(skt.incoming).value;
      while !skt.recvClosed
        invariant Downstream.ReceiveAll(skt.incoming).Got?
        invariant ms + Downstream.ReceiveAll(skt.incoming).value == all
        invariant skt.recvClosed ==> skt.incoming == [] && !skt.breaks
        decreases !skt.recvClosed, |skt.incoming|
      {
        ghost var before := skt.incoming;
        var m, failed := Receive();
        if failed || skt.recvClosed {
          break;
        }
        OneMoreReceived(before, m, skt.incoming, ms);
        ms := ms + [m];
      }
    }
  }

  lemma OneMoreReceived(before: seq<byte>, m: Message, rest: seq<byte>, ms: seq<Message>)
    requires TakeMessage(before) == Got(m, rest) && Downstream.ReceiveAll(before).Got?
    ensures |rest| < |before| && Downstream.ReceiveAll(rest).Got?
    ensures ms + Downstream.ReceiveAll(before).value == (ms + [m]) + Downstream.ReceiveAll(rest).value
  {
    Downstream.MessageConsumes(before);
    FirstReceived(before, m, rest);
    Associative(ms, [m], Downstream.ReceiveAll(rest).value);
  }

  lemma FirstReceived(before: seq<byte>, m: Message, rest: seq<byte>)
    requires TakeMessage(before) == Got(m, rest) && Downstream.ReceiveAll(before).Got?
    ensures Downstream.ReceiveAll(rest).Got? && Downstream.ReceiveAll(before).value == [m] + Downstream.ReceiveAll(rest).value
  {
    Downstream.MessageConsumes(before);
  }
}
