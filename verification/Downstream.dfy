/** Whatever the server sends reaches the client unchanged, message after message. */
module Downstream {
  import opened Sequences
  import opened Bytes
  import opened ServerToClient

  /** What can be sent without cutting anything off: names of fewer than 65536 bytes and lists of fewer
      than 256 elements. */
  predicate Fits(m: Message) {
    match m
    case Unknown => false
    case PlayerName(_, name) => |name| < 65536
    case Rooms(rooms) => |rooms| < 256
    case PlayersList(players) => |players| < 256 && forall p | p in players :: |p.name| < 65536
    case CarList(cars) => |cars| < 256
    case RaceStart(_, checkpoints) => |checkpoints| < 256
    case Results(current) => |current| < 256 && forall r | r in current :: |r.name| < 65536
    case ResultsFinal(total) => |total| < 256 && forall r | r in total :: |r.name| < 65536
    case MapInfo(ticks, npcs, events, _) => |ticks| < 256 && |npcs| < 256 && |events| < 256 && forall t | t in ticks :: TickFits(t)
    case _ => true
  }

  predicate TickFits(t: PlayerTick) { |t.name| < 65536 && |t.improvements| < 256 }

  /** What the client is left with: the list of cars and the checkpoints of a race start are dropped, and
      `meta` is only a flag. */
  function See(m: Message): Message {
    match m
    case CarList(_) => Unknown
    case RaceStart(mapId, _) => RaceStart(mapId, [])
    case MapInfo(ticks, npcs, events, time) => MapInfo(Map(ticks, SeeTick), npcs, events, time)
    case _ => m
  }

  function SeeTick(t: PlayerTick): PlayerTick { t.(meta := Flag(t.meta != 0)) }

  // ------------------------------------------------------------------ elements

  lemma RoomSurvives(r: RoomInfo)
    ensures Survives(r, PutRoom, TakeRoom, r)
  {
  }

  lemma PlayerSurvives(p: PlayerInfo)
    requires |p.name| < 65536
    ensures Survives(p, PutPlayer, TakePlayer, p)
  {
    forall rest
      ensures TakePlayer(PutPlayer(p, rest)) == Got(p, rest)
    {
      TakesName(p.name, Put8(Flag(p.ready), Put8(Flag(p.admin), Put8(p.health, Put32(p.raceTime, rest)))));
    }
  }

  lemma CarIsSkipped(c: CarInfo)
    ensures Survives(c, PutCar, TakeCar, ())
  {
    forall rest
      ensures TakeCar(PutCar(c, rest)) == Got((), rest)
    {
      assert PutCar(c, rest)[6..] == rest;
    }
  }

  lemma PointIsSkipped(p: Point)
    ensures Survives(p, PutPoint, TakePoint, ())
  {
  }

  lemma TotalSurvives(r: TotalResult)
    requires |r.name| < 65536
    ensures Survives(r, PutTotal, TakeTotal, r)
  {
    forall rest
      ensures TakeTotal(PutTotal(r, rest)) == Got(r, rest)
    {
      TakesName(r.name, Put32(r.totalTime, Put8(r.position, rest)));
    }
  }

  lemma CurrentSurvives(r: CurrentResult)
    requires |r.name| < 65536
    ensures Survives(r, PutCurrent, TakeCurrent, r)
  {
    forall rest
      ensures TakeCurrent(PutCurrent(r, rest)) == Got(r, rest)
    {
      TakesName(r.name, Put32(r.raceTime, Put32(r.totalTime, Put8(r.position, rest))));
    }
  }

  lemma NpcSurvives(n: NpcTick)
    ensures Survives(n, PutNpc, TakeNpc, n)
  {
  }

  lemma EventSurvives(e: EventTick)
    ensures Survives(e, PutEvent, TakeEvent, e)
  {
  }

  lemma GoalSurvives(t: PlayerTick, p: PlayerTick, rest: seq<byte>)
    ensures TakeTickGoal(t, PutTickGoal(p, rest))
            == Got(t.(xCheckpoint := p.xCheckpoint, yCheckpoint := p.yCheckpoint, hint := p.hint, position := p.position,
                      distance := p.distance, remaining := p.remaining, meta := Flag(p.meta != 0)), rest)
  {
  }

  lemma BodySurvives(p: PlayerTick, rest: seq<byte>)
    ensures TakeTickBody(p.name, PutTickBody(p, rest)) == Got(SeeTick(p).(improvements := []), rest)
  {
    GoalSurvives(PlayerTick(p.name, p.car, p.player, p.x, p.y, p.angle, p.health, p.maxHealth, p.speed, 0, 0, 0, 0, 0, 0, 0, []), p, rest);
  }

  lemma BytesSurvive(bytes: seq<byte>, rest: seq<byte>)
    requires |bytes| < 256
    ensures TakeByteList(PutList(bytes, Put8, rest)) == Got(bytes, rest)
  {
    forall b: byte
      ensures Survives(b, Put8, Take8, b)
    {
    }
    TakesSameList(bytes, Put8, Take8, rest);
  }

  lemma TickSurvives(p: PlayerTick)
    requires TickFits(p)
    ensures Survives(p, PutTick, TakeTick, SeeTick(p))
  {
    forall rest
      ensures TakeTick(PutTick(p, rest)) == Got(SeeTick(p), rest)
    {
      BytesSurvive(p.improvements, rest);
      TickIsTaken(p, PutList(p.improvements, Put8, rest), rest);
    }
  }

  lemma TickIsTaken(p: PlayerTick, improvements: seq<byte>, rest: seq<byte>)
    requires TickFits(p) && TakeByteList(improvements) == Got(p.improvements, rest)
    ensures TakeTick(PutName(p.name, PutTickBody(p, improvements))) == Got(SeeTick(p), rest)
  {
    TakesName(p.name, PutTickBody(p, improvements));
    BodySurvives(p, improvements);
  }

  // ------------------------------------------------------------------ messages

  /** A message is taken off the stream exactly, and nothing of what follows it: the lists whose elements
      the client forgets are skipped to their last byte. */
  lemma MessageSurvives(m: Message, rest: seq<byte>)
    requires Fits(m)
    ensures TakeMessage(Put(m, rest)) == Got(See(m), rest)
  {
    match m
    case Rooms(rooms) => RoomsSurvive(rooms, rest);
    case PlayersList(players) => PlayersSurvive(players, rest);
    case CarList(_) => CarsAreSkipped(m, rest);
    case RaceStart(_, _) => RaceStartSurvives(m, rest);
    case Results(current) => ResultsSurvive(current, rest);
    case ResultsFinal(total) => TotalsSurvive(total, rest);
    case MapInfo(ticks, npcs, events, time) => MapInfoSurvives(ticks, npcs, events, time, rest);
    case PlayerName(_, _) => PlayerNameSurvives(m, rest);
    case Pos(id, x, y, angle) => PosSurvives(id, x, y, angle, rest);
    case ImprovementOk(player, improvement, success, penalty, balance) =>
      ImprovementSurvives(player, improvement, success, penalty, balance, rest);
    case _ => PlainSurvives(m, rest);
  }

  lemma PlainSurvives(m: Message, rest: seq<byte>)
    requires m.Ok? || m.YourId? || m.RoomCreated? || m.MarketTime? || m.GameOver?
    ensures TakeMessage(Put(m, rest)) == Got(m, rest)
  {
    match m
    case Ok => CodeFirst(S2C_OK, rest);
    case YourId(id) => IdSurvives(id, rest);
    case RoomCreated(room) => CodeFirst(S2C_ROOM_CREATED, Put8(room, rest));
    case MarketTime(time) => TimeSurvives(time, rest);
    case GameOver => CodeFirst(S2C_GAME_OVER, rest);
  }

  lemma IdSurvives(id: u32, rest: seq<byte>)
    ensures TakeMessage(Put(YourId(id), rest)) == Got(YourId(id), rest)
  {
    CodeFirst(S2C_YOUR_ID, Put32(id, rest));
  }

  lemma TimeSurvives(time: u32, rest: seq<byte>)
    ensures TakeMessage(Put(MarketTime(time), rest)) == Got(MarketTime(time), rest)
  {
    CodeFirst(S2C_MARKET_TIME, Put32(time, rest));
  }

  lemma PosSurvives(id: u32, x: i16, y: i16, angle: u32, rest: seq<byte>)
    ensures TakeMessage(Put(Pos(id, x, y, angle), rest)) == Got(Pos(id, x, y, angle), rest)
  {
    CodeFirst(S2C_POS, Put32(id, Put16(Unsigned16(x), Put16(Unsigned16(y), Put32(angle, rest)))));
  }

  lemma ImprovementSurvives(player: u32, improvement: byte, success: bool, penalty: u32, balance: u32, rest: seq<byte>)
    ensures TakeMessage(Put(ImprovementOk(player, improvement, success, penalty, balance), rest))
            == Got(ImprovementOk(player, improvement, success, penalty, balance), rest)
  {
    CodeFirst(S2C_IMPROVEMENT, Put32(player, Put8(improvement, Put8(Flag(success), Put32(penalty, Put32(balance, rest))))));
  }

  lemma PlayerNameSurvives(m: Message, rest: seq<byte>)
    requires m.PlayerName? && |m.name| < 65536
    ensures TakeMessage(Put(m, rest)) == Got(m, rest)
  {
    assert m.name[..|m.name|] == m.name;
    assert Take16(PutCutName(m.name, rest)) == Got(|m.name|, m.name + rest);
  }

  lemma RoomsSurvive(rooms: seq<RoomInfo>, rest: seq<byte>)
    requires Fits(Rooms(rooms))
    ensures TakeMessage(Put(Rooms(rooms), rest)) == Got(Rooms(rooms), rest)
  {
    RoomsArePut(rooms, rest);
    RoomListSurvives(rooms, rest);
    RoomsCode(PutList(rooms, PutRoom, rest));
  }

  lemma RoomsArePut(rooms: seq<RoomInfo>, rest: seq<byte>)
    ensures Put(Rooms(rooms), rest) == Put8(S2C_ROOMS, PutList(rooms, PutRoom, rest))
  {
  }

  lemma RoomsCode(body: seq<byte>)
    requires TakeList(TakeRoom, body).Got?
    ensures TakeMessage(Put8(S2C_ROOMS, body)) == Got(Rooms(TakeList(TakeRoom, body).value), TakeList(TakeRoom, body).rest)
  {
    CodeFirst(S2C_ROOMS, body);
  }

  lemma RoomListSurvives(rooms: seq<RoomInfo>, rest: seq<byte>)
    requires |rooms| < 256
    ensures TakeList(TakeRoom, PutList(rooms, PutRoom, rest)) == Got(rooms, rest)
  {
    forall x | x in rooms
      ensures Survives(x, PutRoom, TakeRoom, x)
    {
      RoomSurvives(x);
    }
    TakesSameList(rooms, PutRoom, TakeRoom, rest);
  }

  lemma CodeFirst(code: byte, body: seq<byte>)
    ensures TakeMessage(Put8(code, body)) == TakeBody(code, body)
  {
    TakesPut(code, 0, 0, body);
  }

  lemma PlayersSurvive(players: seq<PlayerInfo>, rest: seq<byte>)
    requires Fits(PlayersList(players))
    ensures TakeMessage(Put(PlayersList(players), rest)) == Got(PlayersList(players), rest)
  {
    PlayersArePut(players, rest);
    PlayerListSurvives(players, rest);
    PlayersCode(PutList(players, PutPlayer, rest));
  }

  lemma PlayersArePut(players: seq<PlayerInfo>, rest: seq<byte>)
    ensures Put(PlayersList(players), rest) == Put8(S2C_PLAYERS_LIST, PutList(players, PutPlayer, rest))
  {
  }

  lemma PlayersCode(body: seq<byte>)
    requires TakeList(TakePlayer, body).Got?
    ensures TakeMessage(Put8(S2C_PLAYERS_LIST, body)) == Got(PlayersList(TakeList(TakePlayer, body).value), TakeList(TakePlayer, body).rest)
  {
    CodeFirst(S2C_PLAYERS_LIST, body);
  }

  lemma PlayerListSurvives(players: seq<PlayerInfo>, rest: seq<byte>)
    requires |players| < 256 && forall p | p in players :: |p.name| < 65536
    ensures TakeList(TakePlayer, PutList(players, PutPlayer, rest)) == Got(players, rest)
  {
    forall x | x in players
      ensures Survives(x, PutPlayer, TakePlayer, x)
    {
      PlayerSurvives(x);
    }
    TakesSameList(players, PutPlayer, TakePlayer, rest);
  }

  lemma CarsAreSkipped(m: Message, rest: seq<byte>)
    requires m.CarList? && Fits(m)
    ensures TakeMessage(Put(m, rest)) == Got(Unknown, rest)
  {
    var skip := (c: CarInfo) => ();
    forall c | c in m.cars
      ensures Survives(c, PutCar, TakeCar, skip(c))
    {
      CarIsSkipped(c);
    }
    TakesList(m.cars, PutCar, TakeCar, skip, rest);
  }

  lemma PointsAreSkipped(points: seq<Point>, rest: seq<byte>)
    requires |points| < 256
    ensures TakeList(TakePoint, PutList(points, PutPoint, rest)).Got?
    ensures TakeList(TakePoint, PutList(points, PutPoint, rest)).rest == rest
  {
    var skip := (p: Point) => ();
    forall p | p in points
      ensures Survives(p, PutPoint, TakePoint, skip(p))
    {
      PointIsSkipped(p);
    }
    TakesList(points, PutPoint, TakePoint, skip, rest);
  }

  lemma RaceStartIsTaken(mapId: byte, points: seq<byte>, rest: seq<byte>)
    requires TakeList(TakePoint, points).Got? && TakeList(TakePoint, points).rest == rest
    ensures TakeMessage(Put8(S2C_RACE_START, Put8(mapId, points))) == Got(RaceStart(mapId, []), rest)
  {
    TakesPut(S2C_RACE_START, 0, 0, Put8(mapId, points));
    TakesPut(mapId, 0, 0, points);
  }

  lemma RaceStartSurvives(m: Message, rest: seq<byte>)
    requires m.RaceStart? && Fits(m)
    ensures TakeMessage(Put(m, rest)) == Got(See(m), rest)
  {
    PointsAreSkipped(m.checkpoints, rest);
    RaceStartIsTaken(m.mapId, PutList(m.checkpoints, PutPoint, rest), rest);
  }

  lemma ResultsSurvive(current: seq<CurrentResult>, rest: seq<byte>)
    requires Fits(Results(current))
    ensures TakeMessage(Put(Results(current), rest)) == Got(Results(current), rest)
  {
    ResultsArePut(current, rest);
    ResultListSurvives(current, rest);
    ResultsCode(PutList(current, PutCurrent, rest));
  }

  lemma ResultsArePut(current: seq<CurrentResult>, rest: seq<byte>)
    ensures Put(Results(current), rest) == Put8(S2C_RACE_RESULTS_CURRENT, PutList(current, PutCurrent, rest))
  {
  }

  lemma ResultsCode(body: seq<byte>)
    requires TakeList(TakeCurrent, body).Got?
    ensures TakeMessage(Put8(S2C_RACE_RESULTS_CURRENT, body)) == Got(Results(TakeList(TakeCurrent, body).value), TakeList(TakeCurrent, body).rest)
  {
    CodeFirst(S2C_RACE_RESULTS_CURRENT, body);
  }

  lemma ResultListSurvives(current: seq<CurrentResult>, rest: seq<byte>)
    requires |current| < 256 && forall r | r in current :: |r.name| < 65536
    ensures TakeList(TakeCurrent, PutList(current, PutCurrent, rest)) == Got(current, rest)
  {
    forall x | x in current
      ensures Survives(x, PutCurrent, TakeCurrent, x)
    {
      CurrentSurvives(x);
    }
    TakesSameList(current, PutCurrent, TakeCurrent, rest);
  }

  lemma TotalsSurvive(total: seq<TotalResult>, rest: seq<byte>)
    requires Fits(ResultsFinal(total))
    ensures TakeMessage(Put(ResultsFinal(total), rest)) == Got(ResultsFinal(total), rest)
  {
    TotalsArePut(total, rest);
    TotalListSurvives(total, rest);
    TotalsCode(PutList(total, PutTotal, rest));
  }

  lemma TotalsArePut(total: seq<TotalResult>, rest: seq<byte>)
    ensures Put(ResultsFinal(total), rest) == Put8(S2C_RESULTS, PutList(total, PutTotal, rest))
  {
  }

  lemma TotalsCode(body: seq<byte>)
    requires TakeList(TakeTotal, body).Got?
    ensures TakeMessage(Put8(S2C_RESULTS, body)) == Got(ResultsFinal(TakeList(TakeTotal, body).value), TakeList(TakeTotal, body).rest)
  {
    CodeFirst(S2C_RESULTS, body);
  }

  lemma TotalListSurvives(total: seq<TotalResult>, rest: seq<byte>)
    requires |total| < 256 && forall r | r in total :: |r.name| < 65536
    ensures TakeList(TakeTotal, PutList(total, PutTotal, rest)) == Got(total, rest)
  {
    forall x | x in total
      ensures Survives(x, PutTotal, TakeTotal, x)
    {
      TotalSurvives(x);
    }
    TakesSameList(total, PutTotal, TakeTotal, rest);
  }

  lemma MapInfoSurvives(ticks: seq<PlayerTick>, npcs: seq<NpcTick>, events: seq<EventTick>, time: u32, rest: seq<byte>)
    requires |ticks| < 256 && (forall t | t in ticks :: TickFits(t)) && |npcs| < 256 && |events| < 256
    ensures TakeMessage(Put(MapInfo(ticks, npcs, events, time), rest)) == Got(MapInfo(Map(ticks, SeeTick), npcs, events, time), rest)
  {
    MapInfoIsPut(ticks, npcs, events, time, rest);
    MapInfoBodySurvives(ticks, npcs, events, time, rest);
    MapInfoCode(PutMapInfo(ticks, npcs, events, time, rest));
  }

  lemma MapInfoIsPut(ticks: seq<PlayerTick>, npcs: seq<NpcTick>, events: seq<EventTick>, time: u32, rest: seq<byte>)
    ensures Put(MapInfo(ticks, npcs, events, time), rest) == Put8(S2C_MAP_INFO, PutMapInfo(ticks, npcs, events, time, rest))
  {
  }

  lemma MapInfoCode(body: seq<byte>)
    ensures TakeMessage(Put8(S2C_MAP_INFO, body)) == TakeMapInfo(body)
  {
    CodeFirst(S2C_MAP_INFO, body);
    BodyOfMapInfo(body);
  }

  lemma BodyOfMapInfo(body: seq<byte>)
    ensures TakeBody(S2C_MAP_INFO, body) == TakeMapInfo(body)
  {
  }

  lemma MapInfoBodySurvives(ticks: seq<PlayerTick>, npcs: seq<NpcTick>, events: seq<EventTick>, time: u32, rest: seq<byte>)
    requires |ticks| < 256 && (forall t | t in ticks :: TickFits(t)) && |npcs| < 256 && |events| < 256
    ensures TakeMapInfo(PutMapInfo(ticks, npcs, events, time, rest)) == Got(MapInfo(Map(ticks, SeeTick), npcs, events, time), rest)
  {
    var tail := PutList(events, PutEvent, rest);
    var body := PutList(npcs, PutNpc, tail);
    EventsSurvive(events, rest);
    NpcsSurvive(npcs, tail);
    TakesPut(0, 0, time, body);
    TicksSurvive(ticks, Put32(time, body));
  }

  lemma TicksSurvive(ticks: seq<PlayerTick>, rest: seq<byte>)
    requires |ticks| < 256 && forall t | t in ticks :: TickFits(t)
    ensures TakeList(TakeTick, PutList(ticks, PutTick, rest)) == Got(Map(ticks, SeeTick), rest)
  {
    forall t | t in ticks
      ensures Survives(t, PutTick, TakeTick, SeeTick(t))
    {
      TickSurvives(t);
    }
    TakesList(ticks, PutTick, TakeTick, SeeTick, rest);
  }

  lemma NpcsSurvive(npcs: seq<NpcTick>, rest: seq<byte>)
    requires |npcs| < 256
    ensures TakeList(TakeNpc, PutList(npcs, PutNpc, rest)) == Got(npcs, rest)
  {
    forall n | n in npcs
      ensures Survives(n, PutNpc, TakeNpc, n)
    {
      NpcSurvives(n);
    }
    TakesSameList(npcs, PutNpc, TakeNpc, rest);
  }

  lemma EventsSurvive(events: seq<EventTick>, rest: seq<byte>)
    requires |events| < 256
    ensures TakeList(TakeEvent, PutList(events, PutEvent, rest)) == Got(events, rest)
  {
    forall e | e in events
      ensures Survives(e, PutEvent, TakeEvent, e)
    {
      EventSurvives(e);
    }
    TakesSameList(events, PutEvent, TakeEvent, rest);
  }

  // ------------------------------------------------------------------ streams

  lemma MessageConsumes(s: seq<byte>)
    ensures TakeMessage(s).Got? ==> |TakeMessage(s).rest| < |s|
  {
    if Take8(s).Got? {
      BodyShrinks(Take8(s).value, Take8(s).rest);
    }
  }

  lemma BodyShrinks(code: byte, s: seq<byte>)
    ensures TakeBody(code, s).Got? ==> |TakeBody(code, s).rest| <= |s|
  {
    if code == S2C_ROOMS {
      ListShrinks(TakeRoom, s);
    } else if code == S2C_PLAYERS_LIST {
      ListShrinks(TakePlayer, s);
    } else if code == S2C_CAR_LIST {
      ListShrinks(TakeCar, s);
    } else if code == S2C_RACE_START {
      RaceStartShrinks(s);
    } else if code == S2C_RESULTS {
      ListShrinks(TakeTotal, s);
    } else if code == S2C_RACE_RESULTS_CURRENT {
      ListShrinks(TakeCurrent, s);
    } else if code == S2C_MAP_INFO {
      MapInfoShrinks(s);
    } else {
      PlainShrinks(code, s);
    }
  }

  lemma PlainShrinks(code: byte, s: seq<byte>)
    requires code !in {S2C_ROOMS, S2C_PLAYERS_LIST, S2C_CAR_LIST, S2C_RACE_START, S2C_RESULTS, S2C_RACE_RESULTS_CURRENT, S2C_MAP_INFO}
    ensures TakeBody(code, s).Got? ==> |TakeBody(code, s).rest| <= |s|
  {
  }

  lemma RaceStartShrinks(s: seq<byte>)
    ensures TakeRaceStart(s).Got? ==> |TakeRaceStart(s).rest| <= |s|
  {
    if Take8(s).Got? {
      ListShrinks(TakePoint, Take8(s).rest);
    }
  }

  lemma MapInfoShrinks(s: seq<byte>)
    ensures TakeMapInfo(s).Got? ==> |TakeMapInfo(s).rest| <= |s|
  {
    ListShrinks(TakeTick, s);
    if TakeList(TakeTick, s).Got? {
      var s1 := TakeList(TakeTick, s).rest;
      if Take32(s1).Got? {
        var s2 := Take32(s1).rest;
        ListShrinks(TakeNpc, s2);
        if TakeList(TakeNpc, s2).Got? {
          ListShrinks(TakeEvent, TakeList(TakeNpc, s2).rest);
        }
      }
    }
  }

  /** What the client receives from a stream, to its end. */
  function ReceiveAll(s: seq<byte>): Parsed<seq<Message>>
    decreases |s|
  {
    if s == [] then Got([], [])
    else
      MessageConsumes(s);
      var (m, s) :- TakeMessage(s);
      var (ms, s) :- ReceiveAll(s);
      Got([m] + ms, s)
  }

  /** The messages one behind the other. */
  function Stream(ms: seq<Message>): seq<byte>
    requires forall m | m in ms :: !m.Unknown?
  {
    if ms == [] then [] else Put(ms[0], Stream(ms[1..]))
  }

  /** The client receives exactly the messages sent, in order, with no byte left over. */
  lemma {:induction false} StreamRoundTrip(ms: seq<Message>)
    requires forall m | m in ms :: Fits(m)
    ensures forall m | m in ms :: !m.Unknown?
    ensures ReceiveAll(Stream(ms)) == Got(Map(ms, See), [])
  {
    assert forall m | m in ms :: Fits(m) && !m.Unknown?;
    if ms != [] {
      assert Fits(ms[0]);
      StreamRoundTrip(ms[1..]);
      MessageSurvives(ms[0], Stream(ms[1..]));
      MessageConsumes(Stream(ms));
    }
  }

  /** Nothing of the message is lost on the way: it is no list of cars, no race start with checkpoints, and `meta` is
      only used as a flag. */
  predicate Whole(m: Message) {
    && Fits(m) && !m.CarList? && (m.RaceStart? ==> m.checkpoints == [])
    && (m.MapInfo? ==> forall t | t in m.ticks :: t.meta <= 1)
  }

  /** Of such messages the client receives every one as it was sent. */
  lemma ArrivesAsSent(ms: seq<Message>)
    requires forall m | m in ms :: Whole(m)
    ensures forall m | m in ms :: !m.Unknown?
    ensures ReceiveAll(Stream(ms)) == Got(ms, [])
  {
    StreamRoundTrip(ms);
    forall i | 0 <= i < |ms|
      ensures See(ms[i]) == ms[i]
    {
      assert ms[i] in ms;
      WholeIsSeen(ms[i]);
    }
    assert Map(ms, See) == ms;
  }

  lemma WholeIsSeen(m: Message)
    requires Whole(m)
    ensures See(m) == m
  {
    if m.MapInfo? {
      forall i | 0 <= i < |m.ticks|
        ensures SeeTick(m.ticks[i]) == m.ticks[i]
      {
        assert m.ticks[i] in m.ticks;
      }
      assert Map(m.ticks, SeeTick) == m.ticks;
    }
  }

  // ------------------------------------------------------------------ message by message

  lemma RoomsGrow()
    ensures Grows(PutRoom)
  {
    forall r: RoomInfo, a: seq<byte>, b: seq<byte>
      ensures PutRoom(r, a + b) == PutRoom(r, a) + b
    {
    }
  }

  lemma PlayersGrow()
    ensures Grows(PutPlayer)
  {
    FieldsGrow();
  }

  lemma CarsGrow()
    ensures Grows(PutCar)
  {
    FieldsGrow();
  }

  lemma PointsGrow()
    ensures Grows(PutPoint)
  {
    FieldsGrow();
  }

  lemma TotalsGrow()
    ensures Grows(PutTotal)
  {
    FieldsGrow();
  }

  lemma CurrentGrow()
    ensures Grows(PutCurrent)
  {
    FieldsGrow();
  }

  lemma NpcsGrow()
    ensures Grows(PutNpc)
  {
    FieldsGrow();
  }

  lemma EventsGrow()
    ensures Grows(PutEvent)
  {
    FieldsGrow();
  }

  lemma GoalGrows(p: PlayerTick, a: seq<byte>, b: seq<byte>)
    ensures PutTickGoal(p, a + b) == PutTickGoal(p, a) + b
  {
    FieldsGrow();
  }

  lemma BodyGrows(p: PlayerTick, a: seq<byte>, b: seq<byte>)
    ensures PutTickBody(p, a + b) == PutTickBody(p, a) + b
  {
    FieldsGrow();
    GoalGrows(p, a, b);
  }

  lemma TicksGrow()
    ensures Grows(PutTick)
  {
    FieldsGrow();
    forall p: PlayerTick, a: seq<byte>, b: seq<byte>
      ensures PutTick(p, a + b) == PutTick(p, a) + b
    {
      ListGrows(Countable(p.improvements), Put8, a, b);
      BodyGrows(p, PutList(Countable(p.improvements), Put8, a), b);
    }
  }

  lemma MapInfoGrows(ticks: seq<PlayerTick>, npcs: seq<NpcTick>, events: seq<EventTick>, time: u32, a: seq<byte>, b: seq<byte>)
    ensures PutMapInfo(ticks, npcs, events, time, a + b) == PutMapInfo(ticks, npcs, events, time, a) + b
  {
    EventsGrow();
    ListGrows(events, PutEvent, a, b);
    NpcsGrow();
    ListGrows(npcs, PutNpc, PutList(events, PutEvent, a), b);
    Associative(U32(time), PutList(npcs, PutNpc, PutList(events, PutEvent, a)), b);
    TicksGrow();
    ListGrows(ticks, PutTick, Put32(time, PutList(npcs, PutNpc, PutList(events, PutEvent, a))), b);
  }

  lemma CutNameGrows(name: seq<byte>, a: seq<byte>, b: seq<byte>)
    ensures PutCutName(name, a + b) == PutCutName(name, a) + b
  {
    var len := |name| % 65536;
    Associative(name[..len], a, b);
    Associative(U16(len), name[..len] + a, b);
  }

  lemma RoomsMessageGrows(rooms: seq<RoomInfo>, a: seq<byte>, b: seq<byte>)
    ensures Put(Rooms(rooms), a + b) == Put(Rooms(rooms), a) + b
  {
    RoomsGrow();
    ListGrows(rooms, PutRoom, a, b);
    Associative([S2C_ROOMS], PutList(rooms, PutRoom, a), b);
  }

  lemma PlayersMessageGrows(players: seq<PlayerInfo>, a: seq<byte>, b: seq<byte>)
    ensures Put(PlayersList(players), a + b) == Put(PlayersList(players), a) + b
  {
    PlayersGrow();
    ListGrows(players, PutPlayer, a, b);
    Associative([S2C_PLAYERS_LIST], PutList(players, PutPlayer, a), b);
  }

  lemma CarsMessageGrows(cars: seq<CarInfo>, a: seq<byte>, b: seq<byte>)
    ensures Put(CarList(cars), a + b) == Put(CarList(cars), a) + b
  {
    CarsGrow();
    ListGrows(cars, PutCar, a, b);
    Associative([S2C_CAR_LIST], PutList(cars, PutCar, a), b);
  }

  lemma ResultsMessageGrows(current: seq<CurrentResult>, a: seq<byte>, b: seq<byte>)
    ensures Put(Results(current), a + b) == Put(Results(current), a) + b
  {
    CurrentGrow();
    ListGrows(current, PutCurrent, a, b);
    Associative([S2C_RACE_RESULTS_CURRENT], PutList(current, PutCurrent, a), b);
  }

  lemma TotalsMessageGrows(total: seq<TotalResult>, a: seq<byte>, b: seq<byte>)
    ensures Put(ResultsFinal(total), a + b) == Put(ResultsFinal(total), a) + b
  {
    TotalsGrow();
    ListGrows(total, PutTotal, a, b);
    Associative([S2C_RESULTS], PutList(total, PutTotal, a), b);
  }

  lemma RaceStartGrows(mapId: byte, checkpoints: seq<Point>, a: seq<byte>, b: seq<byte>)
    ensures Put(RaceStart(mapId, checkpoints), a + b) == Put(RaceStart(mapId, checkpoints), a) + b
  {
    PointsGrow();
    ListGrows(checkpoints, PutPoint, a, b);
    RaceStartIsPut(mapId, checkpoints, a + b);
    RaceStartIsPut(mapId, checkpoints, a);
    Behind(S2C_RACE_START, mapId, PutList(checkpoints, PutPoint, a), b);
  }

  lemma RaceStartIsPut(mapId: byte, checkpoints: seq<Point>, rest: seq<byte>)
    ensures Put(RaceStart(mapId, checkpoints), rest) == Put8(S2C_RACE_START, Put8(mapId, PutList(checkpoints, PutPoint, rest)))
  {
  }

  lemma Behind(x: byte, y: byte, a: seq<byte>, b: seq<byte>)
    ensures Put8(x, Put8(y, a + b)) == Put8(x, Put8(y, a)) + b
  {
  }

  lemma FieldMessageGrows(m: Message, a: seq<byte>, b: seq<byte>)
    requires m.Ok? || m.Pos? || m.YourId? || m.RoomCreated? || m.ImprovementOk? || m.MarketTime? || m.GameOver?
    ensures Put(m, a + b) == Put(m, a) + b
  {
    FieldsGrow();
  }

  lemma MessageGrows(m: Message, a: seq<byte>, b: seq<byte>)
    requires !m.Unknown?
    ensures Put(m, a + b) == Put(m, a) + b
  {
    match m
    case PlayerName(id, name) => PlayerNameGrows(id, name, a, b);
    case RaceStart(mapId, checkpoints) => RaceStartGrows(mapId, checkpoints, a, b);
    case MapInfo(ticks, npcs, events, time) => MapInfoMessageGrows(ticks, npcs, events, time, a, b);
    case Rooms(rooms) => RoomsMessageGrows(rooms, a, b);
    case PlayersList(players) => PlayersMessageGrows(players, a, b);
    case CarList(cars) => CarsMessageGrows(cars, a, b);
    case Results(current) => ResultsMessageGrows(current, a, b);
    case ResultsFinal(total) => TotalsMessageGrows(total, a, b);
    case _ => FieldMessageGrows(m, a, b);
  }

  lemma PlayerNameGrows(id: u32, name: seq<byte>, a: seq<byte>, b: seq<byte>)
    ensures Put(PlayerName(id, name), a + b) == Put(PlayerName(id, name), a) + b
  {
    CutNameGrows(name, a, b);
    Associative(U32(id), PutCutName(name, a), b);
    Associative([S2C_PLAYER_NAME], Put32(id, PutCutName(name, a)), b);
  }

  lemma MapInfoMessageGrows(ticks: seq<PlayerTick>, npcs: seq<NpcTick>, events: seq<EventTick>, time: u32, a: seq<byte>, b: seq<byte>)
    ensures Put(MapInfo(ticks, npcs, events, time), a + b) == Put(MapInfo(ticks, npcs, events, time), a) + b
  {
    MapInfoGrows(ticks, npcs, events, time, a, b);
    MapInfoIsPut(ticks, npcs, events, time, a + b);
    MapInfoIsPut(ticks, npcs, events, time, a);
    Associative([S2C_MAP_INFO], PutMapInfo(ticks, npcs, events, time, a), b);
  }

  /** Sending one more message, on its own, extends the stream by it. */
  lemma {:induction false} StreamGrows(ms: seq<Message>, m: Message)
    requires (forall x | x in ms :: !x.Unknown?) && !m.Unknown?
    ensures Stream(ms + [m]) == Stream(ms) + Put(m, [])
  {
    if ms == [] {
      assert Stream([m]) == Put(m, Stream([m][1..]));
    } else {
      assert (ms + [m])[1..] == ms[1..] + [m];
      StreamGrows(ms[1..], m);
      MessageGrows(ms[0], Stream(ms[1..]), Put(m, []));
    }
  }
}
