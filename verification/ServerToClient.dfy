/** What the server sends (server/server_protocol.cpp) and what the client makes of it
    (client/client_protocol.cpp), as functions on bytes.  Names are bytes, floats are their 32 bits. */
module ServerToClient {
  import opened Bytes

  datatype RoomInfo = RoomInfo(id: byte, current: byte, maxPlayers: byte)

  datatype PlayerInfo = PlayerInfo(player: u32, name: seq<byte>, ready: bool, admin: bool, health: byte, raceTime: u32)

  datatype CarInfo = CarInfo(id: byte, speed: byte, acceleration: byte, health: byte, mass: byte, controllability: byte)

  datatype Point = Point(x: i32, y: i32)

  datatype TotalResult = TotalResult(name: seq<byte>, totalTime: u32, position: byte)

  datatype CurrentResult = CurrentResult(player: u32, name: seq<byte>, raceTime: u32, totalTime: u32, position: byte)

  datatype PlayerTick = PlayerTick(name: seq<byte>, car: byte, player: u32, x: i32, y: i32, angle: u32, health: byte, maxHealth: byte,
                                   speed: u32, xCheckpoint: u16, yCheckpoint: u16, hint: u32, position: u16, distance: u32,
                                   remaining: u16, meta: byte, improvements: seq<byte>)

  datatype NpcTick = NpcTick(id: byte, x: i32, y: i32, angle: u32)

  datatype EventTick = EventTick(kind: byte, player: u32)

  datatype Message =
    | Unknown
    | Ok
    | Pos(id: u32, x: i16, y: i16, angle: u32)
    | YourId(id: u32)
    | PlayerName(id: u32, name: seq<byte>)
    | Rooms(rooms: seq<RoomInfo>)
    | RoomCreated(room: byte)
    | PlayersList(players: seq<PlayerInfo>)
    | CarList(cars: seq<CarInfo>)
    | RaceStart(mapId: byte, checkpoints: seq<Point>)
    | Results(current: seq<CurrentResult>)
    | ResultsFinal(total: seq<TotalResult>)
    | MapInfo(ticks: seq<PlayerTick>, npcs: seq<NpcTick>, events: seq<EventTick>, time: u32)
    | ImprovementOk(player: u32, improvement: byte, success: bool, penalty: u32, balance: u32)
    | MarketTime(time: u32)
    | GameOver

  const S2C_OK: byte := 0x30
  const S2C_POS: byte := 0x31
  const S2C_YOUR_ID: byte := 0x32
  const S2C_ROOMS: byte := 0x21
  const S2C_PLAYER_NAME: byte := 0x33
  const S2C_ROOM_CREATED: byte := 0x34
  const S2C_PLAYERS_LIST: byte := 0x35
  const S2C_CAR_LIST: byte := 0x22
  const S2C_RACE_START: byte := 0x23
  const S2C_RESULTS: byte := 0x24
  const S2C_MAP_INFO: byte := 0x25
  const S2C_GAME_OVER: byte := 0x26
  const S2C_RACE_RESULTS_CURRENT: byte := 0x27
  const S2C_IMPROVEMENT: byte := 0x28
  const S2C_MARKET_TIME: byte := 0x29

  // ------------------------------------------------------------------ what the server writes

  function PutRoom(r: RoomInfo, rest: seq<byte>): seq<byte> {
    Put8(r.id, Put8(r.current, Put8(r.maxPlayers, rest)))
  }

  function PutPlayer(p: PlayerInfo, rest: seq<byte>): seq<byte> {
    Put32(p.player, PutName(p.name, Put8(Flag(p.ready), Put8(Flag(p.admin), Put8(p.health, Put32(p.raceTime, rest))))))
  }

  function PutCar(c: CarInfo, rest: seq<byte>): seq<byte> {
    Put8(c.id, Put8(c.speed, Put8(c.acceleration, Put8(c.health, Put8(c.mass, Put8(c.controllability, rest))))))
  }

  function PutPoint(p: Point, rest: seq<byte>): seq<byte> {
    Put32(Unsigned32(p.x), Put32(Unsigned32(p.y), rest))
  }

  function PutTotal(r: TotalResult, rest: seq<byte>): seq<byte> {
    PutName(r.name, Put32(r.totalTime, Put8(r.position, rest)))
  }

  function PutCurrent(r: CurrentResult, rest: seq<byte>): seq<byte> {
    Put32(r.player, PutName(r.name, Put32(r.raceTime, Put32(r.totalTime, Put8(r.position, rest)))))
  }

  /** The improvements beyond what one byte counts are not sent. */
  function PutTick(p: PlayerTick, rest: seq<byte>): seq<byte> {
    PutName(p.name, PutTickBody(p, PutList(Countable(p.improvements), Put8, rest)))
  }

  function Countable<T>(xs: seq<T>): (ys: seq<T>)
    ensures |ys| == |xs| % 256 && (|xs| < 256 ==> ys == xs)
  {
    xs[..|xs| % 256]
  }

  function PutTickBody(p: PlayerTick, rest: seq<byte>): seq<byte> {
    Put8(p.car, Put32(p.player, Put32(Unsigned32(p.x), Put32(Unsigned32(p.y), Put32(p.angle, Put8(p.health, Put8(p.maxHealth,
      Put32(p.speed, PutTickGoal(p, rest)))))))))
  }

  function PutTickGoal(p: PlayerTick, rest: seq<byte>): seq<byte> {
    Put16(p.xCheckpoint, Put16(p.yCheckpoint, Put32(p.hint, Put16(p.position, Put32(p.distance, Put16(p.remaining,
      Put8(Flag(p.meta != 0), rest)))))))
  }

  function PutNpc(n: NpcTick, rest: seq<byte>): seq<byte> {
    Put8(n.id, Put32(Unsigned32(n.x), Put32(Unsigned32(n.y), Put32(n.angle, rest))))
  }

  function PutEvent(e: EventTick, rest: seq<byte>): seq<byte> { Put8(e.kind, Put32(e.player, rest)) }

  /** A name cut off where its 16-bit length says. */
  function PutCutName(name: seq<byte>, rest: seq<byte>): seq<byte> {
    Put16(|name| % 65536, name[..|name| % 65536] + rest)
  }

  function PutMapInfo(ticks: seq<PlayerTick>, npcs: seq<NpcTick>, events: seq<EventTick>, time: u32, rest: seq<byte>): seq<byte> {
    PutList(ticks, PutTick, Put32(time, PutList(npcs, PutNpc, PutList(events, PutEvent, rest))))
  }

  /** One message, and then the rest. */
  function Put(m: Message, rest: seq<byte>): seq<byte>
    requires !m.Unknown?
  {
    match m
    case Ok => Put8(S2C_OK, rest)
    case Pos(id, x, y, angle) => Put8(S2C_POS, Put32(id, Put16(Unsigned16(x), Put16(Unsigned16(y), Put32(angle, rest)))))
    case YourId(id) => Put8(S2C_YOUR_ID, Put32(id, rest))
    case PlayerName(id, name) => Put8(S2C_PLAYER_NAME, Put32(id, PutCutName(name, rest)))
    case Rooms(rooms) => Put8(S2C_ROOMS, PutList(rooms, PutRoom, rest))
    case RoomCreated(room) => Put8(S2C_ROOM_CREATED, Put8(room, rest))
    case PlayersList(players) => Put8(S2C_PLAYERS_LIST, PutList(players, PutPlayer, rest))
    case CarList(cars) => Put8(S2C_CAR_LIST, PutList(cars, PutCar, rest))
    case RaceStart(mapId, checkpoints) => Put8(S2C_RACE_START, Put8(mapId, PutList(checkpoints, PutPoint, rest)))
    case Results(current) => Put8(S2C_RACE_RESULTS_CURRENT, PutList(current, PutCurrent, rest))
    case ResultsFinal(total) => Put8(S2C_RESULTS, PutList(total, PutTotal, rest))
    case MapInfo(ticks, npcs, events, time) =>
      Put8(S2C_MAP_INFO, PutMapInfo(ticks, npcs, events, time, rest))
    case ImprovementOk(player, improvement, success, penalty, balance) =>
      Put8(S2C_IMPROVEMENT, Put32(player, Put8(improvement, Put8(Flag(success), Put32(penalty, Put32(balance, rest))))))
    case MarketTime(time) => Put8(S2C_MARKET_TIME, Put32(time, rest))
    case GameOver => Put8(S2C_GAME_OVER, rest)
  }

  // ------------------------------------------------------------------ what the client reads

  function TakeRoom(s: seq<byte>): (p: Parsed<RoomInfo>)
    ensures p.Got? ==> |p.rest| <= |s|
  {
    var (id, s) :- Take8(s);
    var (current, s) :- Take8(s);
    var (maxPlayers, s) :- Take8(s);
    Got(RoomInfo(id, current, maxPlayers), s)
  }

  function TakePlayer(s: seq<byte>): (p: Parsed<PlayerInfo>)
    ensures p.Got? ==> |p.rest| <= |s|
  {
    var (player, s) :- Take32(s);
    var (name, s) :- TakeName(s);
    var (ready, s) :- Take8(s);
    var (admin, s) :- Take8(s);
    var (health, s) :- Take8(s);
    var (time, s) :- Take32(s);
    Got(PlayerInfo(player, name, ready != 0, admin != 0, health, time), s)
  }

  /** The cars of the list are read and forgotten. */
  function TakeCar(s: seq<byte>): (p: Parsed<()>)
    ensures p.Got? ==> |p.rest| <= |s|
  {
    var (_, s) :- Take(6, s);
    Got((), s)
  }

  /** And so are the checkpoints of a race start. */
  function TakePoint(s: seq<byte>): (p: Parsed<()>)
    ensures p.Got? ==> |p.rest| <= |s|
  {
    var (_, s) :- Take32(s);
    var (_, s) :- Take32(s);
    Got((), s)
  }

  function TakeTotal(s: seq<byte>): (p: Parsed<TotalResult>)
    ensures p.Got? ==> |p.rest| <= |s|
  {
    var (name, s) :- TakeName(s);
    var (time, s) :- Take32(s);
    var (position, s) :- Take8(s);
    Got(TotalResult(name, time, position), s)
  }

  function TakeCurrent(s: seq<byte>): (p: Parsed<CurrentResult>)
    ensures p.Got? ==> |p.rest| <= |s|
  {
    var (player, s) :- Take32(s);
    var (name, s) :- TakeName(s);
    var (race, s) :- Take32(s);
    var (total, s) :- Take32(s);
    var (position, s) :- Take8(s);
    Got(CurrentResult(player, name, race, total, position), s)
  }

  function TakeTick(s: seq<byte>): (p: Parsed<PlayerTick>)
    ensures p.Got? ==> |p.rest| <= |s|
  {
    var (name, s) :- TakeName(s);
    var (tick, s) :- TakeTickBody(name, s);
    var (improvements, s) :- TakeByteList(s);
    Got(tick.(improvements := improvements), s)
  }

  function TakeByteList(s: seq<byte>): (p: Parsed<seq<byte>>)
    ensures p.Got? ==> |p.rest| <= |s|
  {
    ListShrinks(Take8, s);
    TakeList(Take8, s)
  }

  function TakeTickBody(name: seq<byte>, s: seq<byte>): (p: Parsed<PlayerTick>)
    ensures p.Got? ==> |p.rest| <= |s|
  {
    var (car, s) :- Take8(s);
    var (player, s) :- Take32(s);
    var (x, s) :- Take32(s);
    var (y, s) :- Take32(s);
    var (angle, s) :- Take32(s);
    var (health, s) :- Take8(s);
    var (maxHealth, s) :- Take8(s);
    var (speed, s) :- Take32(s);
    TakeTickGoal(PlayerTick(name, car, player, Signed32(x), Signed32(y), angle, health, maxHealth, speed, 0, 0, 0, 0, 0, 0, 0, []), s)
  }

  function TakeTickGoal(tick: PlayerTick, s: seq<byte>): (p: Parsed<PlayerTick>)
    ensures p.Got? ==> |p.rest| <= |s|
  {
    var (xCheckpoint, s) :- Take16(s);
    var (yCheckpoint, s) :- Take16(s);
    var (hint, s) :- Take32(s);
    var (position, s) :- Take16(s);
    var (distance, s) :- Take32(s);
    var (remaining, s) :- Take16(s);
    var (meta, s) :- Take8(s);
    Got(tick.(xCheckpoint := xCheckpoint, yCheckpoint := yCheckpoint, hint := hint, position := position, distance := distance,
              remaining := remaining, meta := Flag(meta != 0)), s)
  }

  function TakeNpc(s: seq<byte>): (p: Parsed<NpcTick>)
    ensures p.Got? ==> |p.rest| <= |s|
  {
    var (id, s) :- Take8(s);
    var (x, s) :- Take32(s);
    var (y, s) :- Take32(s);
    var (angle, s) :- Take32(s);
    Got(NpcTick(id, Signed32(x), Signed32(y), angle), s)
  }

  function TakeEvent(s: seq<byte>): (p: Parsed<EventTick>)
    ensures p.Got? ==> |p.rest| <= |s|
  {
    var (kind, s) :- Take8(s);
    var (player, s) :- Take32(s);
    Got(EventTick(kind, player), s)
  }

  function TakePos(s: seq<byte>): (p: Parsed<Message>)
    ensures p.Got? ==> |p.rest| <= |s|
  {
    var (id, s) :- Take32(s);
    var (x, s) :- Take16(s);
    var (y, s) :- Take16(s);
    var (angle, s) :- Take32(s);
    Got(Pos(id, Signed16(x), Signed16(y), angle), s)
  }

  function TakePlayerName(s: seq<byte>): (p: Parsed<Message>)
    ensures p.Got? ==> |p.rest| <= |s|
  {
    var (id, s) :- Take32(s);
    var (name, s) :- TakeName(s);
    Got(PlayerName(id, name), s)
  }

  function TakeRaceStart(s: seq<byte>): Parsed<Message> {
    var (mapId, s) :- Take8(s);
    var (_, s) :- TakeList(TakePoint, s);
    Got(RaceStart(mapId, []), s)
  }

  function TakeImprovement(s: seq<byte>): (p: Parsed<Message>)
    ensures p.Got? ==> |p.rest| <= |s|
  {
    var (player, s) :- Take32(s);
    var (improvement, s) :- Take8(s);
    var (success, s) :- Take8(s);
    var (penalty, s) :- Take32(s);
    var (balance, s) :- Take32(s);
    Got(ImprovementOk(player, improvement, success != 0, penalty, balance), s)
  }

  function TakeMapInfo(s: seq<byte>): Parsed<Message> {
    var (ticks, s) :- TakeList(TakeTick, s);
    var (time, s) :- Take32(s);
    var (npcs, s) :- TakeList(TakeNpc, s);
    var (events, s) :- TakeList(TakeEvent, s);
    Got(MapInfo(ticks, npcs, events, time), s)
  }

  /** What follows the code of a message; a code that is in no dispatch entry has nothing after it. */
  function TakeBody(code: byte, s: seq<byte>): Parsed<Message> {
    if code == S2C_OK then Got(Ok, s)
    else if code == S2C_POS then TakePos(s)
    else if code == S2C_ROOMS then
      var (rooms, s) :- TakeList(TakeRoom, s);
      Got(Rooms(rooms), s)
    else if code == S2C_PLAYER_NAME then TakePlayerName(s)
    else if code == S2C_YOUR_ID then
      var (id, s) :- Take32(s);
      Got(YourId(id), s)
    else if code == S2C_ROOM_CREATED then
      var (room, s) :- Take8(s);
      Got(RoomCreated(room), s)
    else if code == S2C_PLAYERS_LIST then
      var (players, s) :- TakeList(TakePlayer, s);
      Got(PlayersList(players), s)
    else if code == S2C_GAME_OVER then Got(GameOver, s)
    else if code == S2C_CAR_LIST then
      var (_, s) :- TakeList(TakeCar, s);
      Got(Unknown, s)
    else if code == S2C_RACE_START then TakeRaceStart(s)
    else if code == S2C_RESULTS then
      var (total, s) :- TakeList(TakeTotal, s);
      Got(ResultsFinal(total), s)
    else if code == S2C_RACE_RESULTS_CURRENT then
      var (current, s) :- TakeList(TakeCurrent, s);
      Got(Results(current), s)
    else if code == S2C_IMPROVEMENT then TakeImprovement(s)
    else if code == S2C_MAP_INFO then TakeMapInfo(s)
    else if code == S2C_MARKET_TIME then
      var (time, s) :- Take32(s);
      Got(MarketTime(time), s)
    else Got(Unknown, s)
  }

  function TakeMessage(s: seq<byte>): Parsed<Message> {
    var (code, s) :- Take8(s);
    TakeBody(code, s)
  }
}
