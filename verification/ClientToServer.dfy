/** What the client sends (client/client_protocol.cpp), what the server makes of it
    (server/server_protocol.cpp), and which actions come of it (server/client_thread_recv.cpp). */
module ClientToServer {
  import opened Sequences
  import opened Constants
  import opened Bytes

  const C2S_NAME: byte := 0x01
  const C2S_MOVE: byte := 0x02
  const C2S_ROOM: byte := 0x03
  const C2S_EXIT: byte := 0x09
  const C2S_START_GAME: byte := 0x0A
  const C2S_CHOOSE_CAR: byte := 0x0B
  const C2S_IMPROVEMENT: byte := 0x0C
  const C2S_CHEAT: byte := 0x0D

  datatype RaceChoice = RaceChoice(mapName: seq<byte>, route: byte)

  datatype ClientMessage =
    | Unknown
    | Name(username: seq<byte>)
    | Move(movement: byte)
    | Room(cmd: byte, room: byte)
    | StartGame(races: seq<RaceChoice>)
    | ChooseCar(car: byte)
    | Improvement(improvement: byte)
    | Cheat(cheat: byte)
    | Exit

  /** The messages that the client has a way to send, and that it can send whole. */
  predicate Fits(m: ClientMessage) {
    match m
    case Unknown => false
    case Name(username) => |username| < 65536
    case Room(cmd, room) => cmd == ROOM_JOIN || (room == 0 && (cmd == ROOM_CREATE || cmd == ROOM_LEAVE))
    case StartGame(races) => |races| < 256 && forall r | r in races :: |r.mapName| < 65536
    case _ => true
  }

  // ------------------------------------------------------------------ what the client writes

  function PutRace(r: RaceChoice, rest: seq<byte>): seq<byte> { PutName(r.mapName, Put8(r.route, rest)) }

  /** Leaving a room comes with a third byte, which nobody looks at. */
  function PutRoomBody(cmd: byte, room: byte, rest: seq<byte>): seq<byte> {
    Put8(cmd, if cmd == ROOM_CREATE then rest else Put8(if cmd == ROOM_LEAVE then 0 else room, rest))
  }

  function Put(m: ClientMessage, rest: seq<byte>): seq<byte>
    requires !m.Unknown?
  {
    match m
    case Name(username) => Put8(C2S_NAME, PutName(username, rest))
    case Move(movement) => Put8(C2S_MOVE, Put8(movement, rest))
    case Room(cmd, room) => Put8(C2S_ROOM, PutRoomBody(cmd, room, rest))
    case StartGame(races) => Put8(C2S_START_GAME, PutList(races, PutRace, rest))
    case ChooseCar(car) => Put8(C2S_CHOOSE_CAR, Put8(car, rest))
    case Improvement(improvement) => Put8(C2S_IMPROVEMENT, Put8(improvement, rest))
    case Cheat(cheat) => Put8(C2S_CHEAT, Put8(cheat, rest))
    case Exit => Put8(C2S_EXIT, rest)
  }

  // ------------------------------------------------------------------ what the server reads

  function TakeRace(s: seq<byte>): (p: Parsed<RaceChoice>)
    ensures p.Got? ==> |p.rest| <= |s|
  {
    var (name, s) :- TakeName(s);
    var (route, s) :- Take8(s);
    Got(RaceChoice(name, route), s)
  }

  /** Only a join has a room behind the command. */
  function TakeRoom(s: seq<byte>): (p: Parsed<ClientMessage>)
    ensures p.Got? ==> |p.rest| <= |s|
  {
    var (cmd, s) :- Take8(s);
    if cmd == ROOM_JOIN then
      var (room, s) :- Take8(s);
      Got(Room(cmd, room), s)
    else Got(Room(cmd, 0), s)
  }

  function TakeBody(code: byte, s: seq<byte>): Parsed<ClientMessage> {
    if code == C2S_NAME then
      var (username, s) :- TakeName(s);
      Got(Name(username), s)
    else if code == C2S_MOVE then
      var (movement, s) :- Take8(s);
      Got(Move(movement), s)
    else if code == C2S_ROOM then TakeRoom(s)
    else if code == C2S_START_GAME then
      var (races, s) :- TakeList(TakeRace, s);
      Got(StartGame(races), s)
    else if code == C2S_CHOOSE_CAR then
      var (car, s) :- Take8(s);
      Got(ChooseCar(car), s)
    else if code == C2S_IMPROVEMENT then
      var (improvement, s) :- Take8(s);
      Got(Improvement(improvement), s)
    else if code == C2S_CHEAT then
      var (cheat, s) :- Take8(s);
      Got(Cheat(cheat), s)
    else if code == C2S_EXIT then Got(Exit, s)
    else Got(Unknown, s)
  }

  function TakeMessage(s: seq<byte>): Parsed<ClientMessage> {
    var (code, s) :- Take8(s);
    TakeBody(code, s)
  }

  lemma MessageConsumes(s: seq<byte>)
    ensures TakeMessage(s).Got? ==> |TakeMessage(s).rest| < |s|
  {
    if Take8(s).Got? {
      BodyShrinks(Take8(s).value, Take8(s).rest);
    }
  }

  lemma BodyShrinks(code: byte, s: seq<byte>)
    ensures TakeBody(code, s).Got? ==> |TakeBody(code, s).rest| <= |s|
  {
    if code == C2S_START_GAME {
      ListShrinks(TakeRace, s);
    }
  }

  /** What the server receives from a stream, to its end. */
  function ReceiveAll(s: seq<byte>): Parsed<seq<ClientMessage>>
    decreases |s|
  {
    if s == [] then Got([], [])
    else
      MessageConsumes(s);
      var (m, s) :- TakeMessage(s);
      var (ms, s) :- ReceiveAll(s);
      Got([m] + ms, s)
  }

  /** The actions that the receiving thread pushes for one message: a start of the game twice, and for an
      exit or an unknown code none. */
  function Pushed(m: ClientMessage): seq<ClientMessage> {
    match m
    case Unknown => []
    case Exit => []
    case StartGame(_) => [m, m]
    case _ => [m]
  }

  function PushedFor(ms: seq<ClientMessage>): seq<ClientMessage> {
    if ms == [] then [] else Pushed(ms[0]) + PushedFor(ms[1..])
  }

  // ------------------------------------------------------------------ what the actions say of the messages

  /** The actions without the second of each pair of equal starts that follow each other. */
  function Undoubled(actions: seq<ClientMessage>): seq<ClientMessage> {
    if actions == [] then []
    else if |actions| > 1 && actions[0].StartGame? && actions[1] == actions[0] then [actions[0]] + Undoubled(actions[2..])
    else [actions[0]] + Undoubled(actions[1..])
  }

  /** The messages that ask for something. */
  function Requests(ms: seq<ClientMessage>): seq<ClientMessage> {
    if ms == [] then []
    else (if ms[0].Exit? || ms[0].Unknown? then [] else [ms[0]]) + Requests(ms[1..])
  }

  /** A start stands among the actions twice as often as it was sent, an exit or an unknown message not at all, and
      every other message as often as it was sent. */
  ghost predicate AsOften(actions: seq<ClientMessage>, ms: seq<ClientMessage>, m: ClientMessage) {
    multiset(actions)[m] == if m.StartGame? then 2 * multiset(ms)[m] else if m.Exit? || m.Unknown? then 0 else multiset(ms)[m]
  }

  /** The actions are the requests in order, each of them once but a start twice, and nothing else. */
  ghost predicate AreActionsOf(actions: seq<ClientMessage>, ms: seq<ClientMessage>) {
    Undoubled(actions) == Requests(ms) && forall m :: AsOften(actions, ms, m)
  }

  lemma PushedAreTheActions(ms: seq<ClientMessage>)
    ensures AreActionsOf(PushedFor(ms), ms)
  {
    PushedInOrder(ms);
    forall x
      ensures AsOften(PushedFor(ms), ms, x)
    {
      PushedAsOften(ms, x);
    }
  }

  lemma {:induction false} PushedInOrder(ms: seq<ClientMessage>)
    ensures Undoubled(PushedFor(ms)) == Requests(ms)
  {
    if ms != [] {
      PushedInOrder(ms[1..]);
      UndoubledFirst(ms[0], PushedFor(ms[1..]));
    }
  }

  lemma {:induction false} PushedAsOften(ms: seq<ClientMessage>, x: ClientMessage)
    ensures AsOften(PushedFor(ms), ms, x)
  {
    if ms != [] {
      PushedAsOften(ms[1..], x);
      OneMoreAsOften(ms[0], PushedFor(ms[1..]), ms[1..], x);
      assert [ms[0]] + ms[1..] == ms;
    }
  }

  lemma OneMoreAsOften(m: ClientMessage, later: seq<ClientMessage>, ms: seq<ClientMessage>, x: ClientMessage)
    requires AsOften(later, ms, x)
    ensures AsOften(Pushed(m) + later, [m] + ms, x)
  {
  }

  lemma UndoubledFirst(m: ClientMessage, later: seq<ClientMessage>)
    ensures Undoubled(Pushed(m) + later) == (if m.Exit? || m.Unknown? then [] else [m]) + Undoubled(later)
  {
    if m.StartGame? {
      assert ([m, m] + later)[2..] == later;
    } else if Pushed(m) != [] {
      assert ([m] + later)[1..] == later;
    } else {
      assert [] + later == later;
    }
  }

  // ------------------------------------------------------------------ round trip

  function Stream(ms: seq<ClientMessage>): seq<byte>
    requires forall m | m in ms :: !m.Unknown?
  {
    if ms == [] then [] else Put(ms[0], Stream(ms[1..]))
  }

  predicate IsLeave(m: ClientMessage) { m.Room? && m.cmd == ROOM_LEAVE }

  /** A message is taken off exactly, but for the third byte of a departure, which stays behind. */
  lemma MessageSurvives(m: ClientMessage, rest: seq<byte>)
    requires Fits(m)
    ensures TakeMessage(Put(m, rest)) == Got(m, if IsLeave(m) then [0] + rest else rest)
  {
    match m
    case Name(username) => TakesName(username, rest);
    case StartGame(races) => StartGameSurvives(races, rest);
    case _ =>
  }

  lemma RacesSurvive(races: seq<RaceChoice>, rest: seq<byte>)
    requires |races| < 256 && forall r | r in races :: |r.mapName| < 65536
    ensures TakeList(TakeRace, PutList(races, PutRace, rest)) == Got(races, rest)
  {
    forall r | r in races
      ensures Survives(r, PutRace, TakeRace, r)
    {
      forall rest
        ensures TakeRace(PutRace(r, rest)) == Got(r, rest)
      {
        TakesName(r.mapName, Put8(r.route, rest));
      }
    }
    TakesSameList(races, PutRace, TakeRace, rest);
  }

  lemma StartGameSurvives(races: seq<RaceChoice>, rest: seq<byte>)
    requires |races| < 256 && forall r | r in races :: |r.mapName| < 65536
    ensures TakeMessage(Put(StartGame(races), rest)) == Got(StartGame(races), rest)
  {
    RacesSurvive(races, rest);
    StartGameIsTaken(PutList(races, PutRace, rest), races, rest);
  }

  lemma StartGameIsTaken(body: seq<byte>, races: seq<RaceChoice>, rest: seq<byte>)
    requires TakeList(TakeRace, body) == Got(races, rest)
    ensures TakeMessage(Put8(C2S_START_GAME, body)) == Got(StartGame(races), rest)
  {
    TakesPut(C2S_START_GAME, 0, 0, body);
  }

  /** The byte left behind is read as a message of its own, of no known kind. */
  lemma StrayByte(rest: seq<byte>)
    ensures TakeMessage([0] + rest) == Got(Unknown, rest)
  {
    TakesPut(0, 0, 0, rest);
  }

  /** What the server receives for one message. */
  function Received(m: ClientMessage): seq<ClientMessage> { if IsLeave(m) then [m, Unknown] else [m] }

  function ReceivedFor(ms: seq<ClientMessage>): seq<ClientMessage> {
    if ms == [] then [] else Received(ms[0]) + ReceivedFor(ms[1..])
  }

  /** The server receives exactly the messages sent, in order, with an unknown one after each departure
      and no byte left over. */
  lemma {:induction false} StreamRoundTrip(ms: seq<ClientMessage>)
    requires forall m | m in ms :: Fits(m)
    ensures forall m | m in ms :: !m.Unknown?
    ensures ReceiveAll(Stream(ms)) == Got(ReceivedFor(ms), [])
  {
    assert forall m | m in ms :: Fits(m) && !m.Unknown?;
    if ms != [] {
      assert Fits(ms[0]);
      StreamRoundTrip(ms[1..]);
      FirstIsReceived(ms[0], Stream(ms[1..]), ReceivedFor(ms[1..]));
    }
  }

  lemma FirstIsReceived(m: ClientMessage, rest: seq<byte>, later: seq<ClientMessage>)
    requires Fits(m) && ReceiveAll(rest) == Got(later, [])
    ensures ReceiveAll(Put(m, rest)) == Got(Received(m) + later, [])
  {
    MessageSurvives(m, rest);
    if IsLeave(m) {
      DepartureIsReceived(Put(m, rest), m, rest, later);
    } else {
      OneReceived(Put(m, rest), m, rest);
    }
  }

  lemma DepartureIsReceived(s: seq<byte>, m: ClientMessage, rest: seq<byte>, later: seq<ClientMessage>)
    requires TakeMessage(s) == Got(m, [0] + rest) && ReceiveAll(rest) == Got(later, [])
    ensures ReceiveAll(s) == Got([m, Unknown] + later, [])
  {
    StrayByte(rest);
    OneReceived([0] + rest, Unknown, rest);
    OneReceived(s, m, [0] + rest);
    assert [m] + ([Unknown] + later) == [m, Unknown] + later;
  }

  lemma OneReceived(s: seq<byte>, m: ClientMessage, rest: seq<byte>)
    requires TakeMessage(s) == Got(m, rest) && ReceiveAll(rest).Got?
    ensures ReceiveAll(s) == Got([m] + ReceiveAll(rest).value, ReceiveAll(rest).rest)
  {
    MessageConsumes(s);
  }

  lemma FirstPushed(m: ClientMessage, later: seq<ClientMessage>)
    ensures PushedFor([m] + later) == Pushed(m) + PushedFor(later)
  {
    assert ([m] + later)[1..] == later;
  }

  lemma {:induction false} StrayMessagesPushNothing(ms: seq<ClientMessage>)
    ensures PushedFor(ReceivedFor(ms)) == PushedFor(ms)
  {
    if ms != [] {
      StrayMessagesPushNothing(ms[1..]);
      var more := ReceivedFor(ms[1..]);
      if IsLeave(ms[0]) {
        assert ([ms[0], Unknown] + more)[1..] == [Unknown] + more && ([Unknown] + more)[1..] == more;
        assert PushedFor([Unknown] + more) == PushedFor(more);
      } else {
        assert ([ms[0]] + more)[1..] == more;
      }
    }
  }

  /** Every message gives rise to its actions and to no other, in order: the third byte of a departure
      is never mistaken for anything. */
  lemma ActionsAreRecovered(ms: seq<ClientMessage>)
    requires forall m | m in ms :: Fits(m)
    ensures forall m | m in ms :: !m.Unknown?
    ensures ReceiveAll(Stream(ms)).Got? && PushedFor(ReceiveAll(Stream(ms)).value) == PushedFor(ms)
    ensures AreActionsOf(PushedFor(ReceiveAll(Stream(ms)).value), ms)
  {
    StreamRoundTrip(ms);
    StrayMessagesPushNothing(ms);
    PushedAreTheActions(ms);
  }

  // ------------------------------------------------------------------ message by message

  lemma RacesGrow()
    ensures Grows(PutRace)
  {
    FieldsGrow();
    forall r: RaceChoice, a: seq<byte>, b: seq<byte>
      ensures PutRace(r, a + b) == PutRace(r, a) + b
    {
      assert Put8(r.route, a + b) == Put8(r.route, a) + b;
      assert PutName(r.mapName, Put8(r.route, a) + b) == PutName(r.mapName, Put8(r.route, a)) + b;
    }
  }

  lemma MessageGrows(m: ClientMessage, a: seq<byte>, b: seq<byte>)
    requires !m.Unknown?
    ensures Put(m, a + b) == Put(m, a) + b
  {
    match m
    case StartGame(races) => StartGameGrows(races, a, b);
    case Name(username) => NameGrows(username, a, b);
    case Room(cmd, room) => RoomGrows(cmd, room, a, b);
    case _ => ShortMessageGrows(m, a, b);
  }

  lemma ShortMessageGrows(m: ClientMessage, a: seq<byte>, b: seq<byte>)
    requires m.Move? || m.ChooseCar? || m.Improvement? || m.Cheat? || m.Exit?
    ensures Put(m, a + b) == Put(m, a) + b
  {
  }

  lemma RoomGrows(cmd: byte, room: byte, a: seq<byte>, b: seq<byte>)
    ensures Put(Room(cmd, room), a + b) == Put(Room(cmd, room), a) + b
  {
  }

  lemma NameGrows(username: seq<byte>, a: seq<byte>, b: seq<byte>)
    ensures Put(Name(username), a + b) == Put(Name(username), a) + b
  {
    FieldsGrow();
    assert PutName(username, a + b) == PutName(username, a) + b;
    Associative([C2S_NAME], PutName(username, a), b);
  }

  lemma StartGameGrows(races: seq<RaceChoice>, a: seq<byte>, b: seq<byte>)
    ensures Put(StartGame(races), a + b) == Put(StartGame(races), a) + b
  {
    RacesGrow();
    ListGrows(races, PutRace, a, b);
    Associative([C2S_START_GAME], PutList(races, PutRace, a), b);
  }

  /** Sending one more message, on its own, extends the stream by it. */
  lemma {:induction false} StreamGrows(ms: seq<ClientMessage>, m: ClientMessage)
    requires (forall x | x in ms :: !x.Unknown?) && !m.Unknown?
    ensures Stream(ms + [m]) == Stream(ms) + Put(m, [])
  {
    if ms == [] {
      assert Stream([m]) == Put(m, Stream([m][1..]));
    } else {
      assert (ms + [m])[1..] == ms[1..] + [m];
      StreamGrows(ms[1..], m);
      MessageGrows(ms[0], Stream(ms[1..]), Put(m, []));
    }
  }
}
