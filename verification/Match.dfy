/** A whole match as a state machine on values: what one tick of server/game/gameloop.cpp and
    server/game/game.cpp does to the match and what it broadcasts. */
module Matches {
  import PhysicsWorlds
  import opened Players
  import opened Rankings
  import opened Races
  import opened Markets

  datatype GameState = Lobby | Racing | Marketplace | GameOver

  /** `race` is the current race; the later ones are untouched and are given by their tracks. */
  datatype Match = Match(players: map<PlayerId, Player>, tracks: seq<Track>, index: nat, race: RaceState,
                         phase: GameState, infos: Infos, timeRemaining: int)

  datatype CheckpointEvent = CheckpointEvent(routeId: string, player: PlayerId, checkpoint: nat)

  /** What the physics engine reports for one tick: anything at all. */
  datatype PhysicsReport = PhysicsReport(health: map<PlayerId, real>, crossings: seq<CheckpointEvent>,
                                         moves: map<PhysicsWorlds.Handle, (real, real)>)

  datatype Action = Improve(player: PlayerId, id: CarImprovement) | Cheat(player: PlayerId, code: nat)

  const CHEAT_WIN_RACE: nat := 3

  /** race_time_seconds of the message is base + penalty, kept apart here. */
  datatype CurrentResult = CurrentResult(player: PlayerId, base: nat, penalty: nat, total: nat, position: nat) {
    function RaceTime(): nat { base + TICKS_PER_SECOND * penalty }
  }

  datatype TotalResult = TotalResult(player: PlayerId, total: nat, position: nat)

  datatype Broadcast =
    | ImprovementAck(player: PlayerId, id: CarImprovement, ok: bool, cost: nat, balance: int)
    | RaceStart
    | Results(current: seq<CurrentResult>)
    | MarketInit(balances: map<PlayerId, int>)
    | ResultsTotal(total: seq<TotalResult>)
    | MapInfo(seconds: nat)
    | MarketTime(seconds: nat)

  /** Between ticks players may leave.  `current` and `total` are the orders that std::sort happened
      to choose, should the tick broadcast results. */
  datatype Event =
    | Leave(player: PlayerId)
    | Tick(iteration: nat, actions: seq<Action>, physics: PhysicsReport,
           current: seq<CurrentResult>, total: seq<TotalResult>)

  // ------------------------------------------------------------------ actions

  ghost function Act(m: Match, a: Action): Match {
    match a
    case Improve(p, id) =>
      if m.phase.Marketplace? && p in m.players then m.(infos := Buy(m.infos, p, id)) else m
    case Cheat(p, code) =>
      if m.phase.Racing? && code == CHEAT_WIN_RACE then m.(race := WinByCheat(m.race, p)) else m
  }

  /** Every improvement request is acknowledged, except one for an upgrade that is not in the
      catalogue, whose exception the game loop swallows. */
  ghost function Ack(m: Match, a: Action): seq<Broadcast> {
    match a
    case Improve(p, id) =>
      var open := m.phase.Marketplace? && p in m.players;
      if open && !Listed(id) then []
      else
        var ok := open && id !in Owned(m.infos, p);
        [ImprovementAck(p, id, ok, if ok then Cost(id) else 0, InfoOf(Act(m, a).infos, p).balance)]
    case Cheat(_, _) => []
  }

  ghost function ActAll(m: Match, acts: seq<Action>): Match {
    if acts == [] then m else Act(ActAll(m, acts[..|acts| - 1]), acts[|acts| - 1])
  }

  ghost function AckAll(m: Match, acts: seq<Action>): seq<Broadcast> {
    if acts == [] then []
    else AckAll(m, acts[..|acts| - 1]) + Ack(ActAll(m, acts[..|acts| - 1]), acts[|acts| - 1])
  }

  // ------------------------------------------------------------------ phases

  function Crossings(es: seq<CheckpointEvent>): seq<RaceStep> {
    seq(|es|, i requires 0 <= i < |es| => Crossing(es[i].routeId, es[i].player, es[i].checkpoint))
  }

  /** What one tick of a running race consists of. */
  function TickSteps(physics: PhysicsReport): seq<RaceStep> {
    [RaceStep.Physics(physics.health)] + Crossings(physics.crossings) + [Advance(1)]
  }

  ghost function StartRace(track: Track, players: map<PlayerId, Player>): RaceState { Joined(Fresh(track), players) }

  ghost function Registered(players: map<PlayerId, Player>, race: RaceState, infos: Infos): map<PlayerId, Player> {
    map p | p in players ::
      if p in race.parts then players[p].RegisterRaceResult(race.parts[p].finishTime, Spent(infos, p)) else players[p]
  }

  ghost function EndRace(m: Match): Match {
    var m' := m.(players := Registered(m.players, m.race, m.infos), infos := map[]);
    if m.index + 1 >= |m.tracks| then m'.(phase := GameOver)
    else m'.(phase := Marketplace, timeRemaining := MARKET_DURATION, players := Rebased(m'.players))
  }

  ghost function EndMarket(m: Match): Match {
    var players := Fitted(m.players, m.infos);
    if m.index + 1 < |m.tracks| then
      m.(players := players, index := m.index + 1, race := StartRace(m.tracks[m.index + 1], players), phase := Racing)
    else m.(players := players, phase := GameOver)
  }

  ghost function Raced(m: Match, physics: PhysicsReport): Match { m.(race := RaceAfter(m.race, TickSteps(physics))) }

  ghost function Update(m: Match, physics: PhysicsReport): Match {
    match m.phase
    case Lobby => m
    case GameOver => m
    case Marketplace =>
      var m' := m.(timeRemaining := m.timeRemaining - 1);
      if m'.timeRemaining <= 0 then EndMarket(m') else m'
    case Racing =>
      var m' := Raced(m, physics);
      if m'.race.finished then EndRace(m') else m'
  }

  ghost function RemovePlayer(m: Match, p: PlayerId): Match {
    m.(players := m.players - {p}, race := if m.index < |m.tracks| then RemoveParticipant(m.race, p) else m.race)
  }

  ghost function Next(m: Match, e: Event): Match {
    match e
    case Leave(p) => RemovePlayer(m, p)
    case Tick(_, acts, physics, _, _) => Update(ActAll(m, acts), physics)
  }

  // ------------------------------------------------------------------ broadcasts

  ghost predicate GoodEntry(e: CurrentResult, players: map<PlayerId, Player>, race: RaceState, infos: Infos) {
    && e.player in players && e.player in race.parts
    && e.base == race.parts[e.player].finishTime
    && e.penalty == Spent(infos, e.player)
    && e.total == players[e.player].TotalTime()
  }

  /** One entry per player of the race still in the match, in order of finish time, with what the
      race cost it; positions are those of the full race order, so they may skip players who left. */
  ghost predicate IsCurrent(es: seq<CurrentResult>, players: map<PlayerId, Player>, race: RaceState, infos: Infos) {
    && (forall i | 0 <= i < |es| :: GoodEntry(es[i], players, race, infos) && 1 <= es[i].position <= |race.parts|)
    && (forall i, j | 0 <= i < j < |es| ::
          es[i].player != es[j].player && es[i].position < es[j].position && es[i].base <= es[j].base)
    && (forall p | p in players && p in race.parts :: exists i :: 0 <= i < |es| && es[i].player == p)
  }

  /** Every player once, best total first, numbered 1..n. */
  ghost predicate IsTotals(ts: seq<TotalResult>, players: map<PlayerId, Player>) {
    && |ts| == |players|
    && (forall i | 0 <= i < |ts| ::
          ts[i].player in players && ts[i].total == players[ts[i].player].TotalTime() && ts[i].position == i + 1)
    && (forall i, j | 0 <= i < j < |ts| :: ts[i].player != ts[j].player && ts[i].total <= ts[j].total)
  }

  /** The tick that ends a race, with the actions already applied. */
  ghost predicate EndsRace(m: Match, physics: PhysicsReport) {
    m.phase.Racing? && RaceAfter(m.race, TickSteps(physics)).finished
  }

  ghost predicate Legal(m: Match, e: Event) {
    match e
    case Leave(p) => p in m.players
    case Tick(_, acts, physics, current, total) =>
      var m1 := ActAll(m, acts);
      EndsRace(m1, physics) ==>
        var race := RaceAfter(m1.race, TickSteps(physics));
        && IsCurrent(current, Registered(m1.players, race, m1.infos), race, m1.infos)
        && (Next(m, e).phase.GameOver? ==> IsTotals(total, Next(m, e).players))
  }

  /** The whole seconds left of a race, rounded down. */
  function RaceSeconds(duration: nat): (s: nat)
    ensures duration <= MAX_DURATION ==> s * TICKS_PER_SECOND <= MAX_DURATION - duration < (s + 1) * TICKS_PER_SECOND
    ensures duration > MAX_DURATION ==> s == 0
  {
    if duration > MAX_DURATION then 0 else (MAX_DURATION - duration) / TICKS_PER_SECOND
  }

  /** The whole seconds left of a market, rounded up. */
  function MarketSeconds(remaining: int): (s: nat)
    ensures remaining >= 0 ==> (s - 1) * TICKS_PER_SECOND < remaining <= s * TICKS_PER_SECOND
    ensures remaining < 0 ==> s == 0
  {
    if remaining < 0 then 0 else (remaining + TICKS_PER_SECOND - 1) / TICKS_PER_SECOND
  }

  ghost function Balances(m: Match): map<PlayerId, int> { map p | p in m.players :: InfoOf(m.infos, p).balance }

  /** Every second tick the clients hear how the phase is going. */
  ghost function Heartbeat(m: Match, iteration: nat): seq<Broadcast> {
    if iteration % 2 != 0 then []
    else match m.phase
         case Racing => [MapInfo(RaceSeconds(m.race.duration))]
         case Marketplace => [MarketTime(MarketSeconds(m.timeRemaining))]
         case _ => []
  }

  /** What is announced when a tick changes the phase, in the order the game loop asks for it. */
  ghost function Announced(m: Match, m': Match, current: seq<CurrentResult>, total: seq<TotalResult>): seq<Broadcast> {
    if m.phase.Marketplace? && m'.phase.Racing? then [RaceStart]
    else if m.phase.Racing? && m'.phase.Marketplace? then [Results(current), MarketInit(Balances(m'))]
    else if m.phase.Racing? && m'.phase.GameOver? then [Results(current), ResultsTotal(total)]
    else []
  }

  ghost function Sent(m: Match, e: Event): seq<Broadcast> {
    match e
    case Leave(_) => []
    case Tick(iteration, acts, physics, current, total) =>
      var m1 := ActAll(m, acts);
      var m' := Update(m1, physics);
      AckAll(m, acts) + Announced(m1, m', current, total) + Heartbeat(m', iteration)
  }

  // ------------------------------------------------------------------ runs

  ghost predicate Run(m: Match, es: seq<Event>) {
    es == [] || (Run(m, es[..|es| - 1]) && Legal(After(m, es[..|es| - 1]), es[|es| - 1]))
  }

  ghost function After(m: Match, es: seq<Event>): Match {
    if es == [] then m else Next(After(m, es[..|es| - 1]), es[|es| - 1])
  }

  /** Everything broadcast over a run. */
  ghost function Trace(m: Match, es: seq<Event>): seq<Broadcast> {
    if es == [] then []
    else Trace(m, es[..|es| - 1]) + Sent(After(m, es[..|es| - 1]), es[|es| - 1])
  }

  // ------------------------------------------------------------------ starting

  /** load_map: new races, state Lobby; the index of the current race is not reset. */
  ghost function LoadMap(m: Match, tracks: seq<Track>): Match {
    m.(tracks := tracks, phase := Lobby,
       race := if m.index < |tracks| then Fresh(tracks[m.index]) else NO_RACE)
  }

  /** Stands for the current race when there is none. */
  const NO_RACE := Fresh(Track("", 0))

  /** start_current_race; with no race at the index it throws and changes nothing. */
  ghost function StartCurrentRace(m: Match): Match {
    if m.phase.Racing? || m.index >= |m.tracks| then m
    else m.(race := Joined(m.race, m.players), phase := Racing)
  }

  /** Everybody of the match enters the race, on the starting line. */
  ghost function Joined(r: RaceState, players: map<PlayerId, Player>): RaceState {
    r.(parts := r.parts + Newcomers(players), cars := r.cars + Lives(players))
  }

  ghost function Newcomers(players: map<PlayerId, Player>): map<PlayerId, Participant> {
    map p | p in players :: NEWCOMER
  }

  ghost function Lives(players: map<PlayerId, Player>): map<PlayerId, real> {
    map p | p in players :: players[p].current.life
  }

  ghost function StartRoomGame(m: Match, tracks: seq<Track>): Match { StartCurrentRace(LoadMap(m, tracks)) }

  // ------------------------------------------------------------------ the invariant

  /** What every match looks like, however often it has been started. */
  ghost predicate WellFormed(m: Match) {
    && GoodInfos(m.infos) && Clean(m.players)
    && (m.phase.Racing? ==>
          && m.index < |m.tracks| && m.race.track == m.tracks[m.index]
          && Consistent(m.race) && !m.race.finished
          && m.players.Keys <= m.race.parts.Keys)
    && (m.phase.Marketplace? ==>
          m.index + 1 < |m.tracks| && 1 <= m.timeRemaining <= MARKET_DURATION && InBaseCars(m.players))
    && (m.phase.GameOver? ==> m.index + 1 == |m.tracks| && m.infos == map[])
  }

  ghost predicate InBaseCars(players: map<PlayerId, Player>) {
    forall p | p in players :: players[p].current == players[p].base
  }

  lemma ActKeepsWellFormed(m: Match, a: Action)
    requires WellFormed(m)
    ensures WellFormed(Act(m, a)) && Act(m, a).phase == m.phase && Act(m, a).players == m.players
    ensures Act(m, a) == m.(infos := Act(m, a).infos, race := Act(m, a).race)
  {
    match a
    case Improve(p, id) => BuyKeepsGoodInfos(m.infos, p, id);
    case Cheat(_, _) =>
  }

  lemma {:induction false} ActAllKeepsWellFormed(m: Match, acts: seq<Action>)
    requires WellFormed(m)
    ensures var m' := ActAll(m, acts); WellFormed(m') && m' == m.(infos := m'.infos, race := m'.race)
    decreases |acts|
  {
    if acts != [] {
      ActAllKeepsWellFormed(m, acts[..|acts| - 1]);
      ActKeepsWellFormed(ActAll(m, acts[..|acts| - 1]), acts[|acts| - 1]);
    }
  }

  /** A start gives a well-formed match whatever the match was at: waiting, racing, trading or over. */
  lemma StartKeepsWellFormed(m: Match, tracks: seq<Track>)
    requires WellFormed(m)
    ensures WellFormed(StartRoomGame(m, tracks))
  {
  }

  lemma {:induction false} OnlyAdvanceTakesTime(r: RaceState, steps: seq<RaceStep>)
    requires forall i | 0 <= i < |steps| :: !steps[i].Advance?
    ensures RaceAfter(r, steps).duration == r.duration && RaceAfter(r, steps).finished == r.finished
    decreases |steps|
  {
    if steps != [] {
      OnlyAdvanceTakesTime(r, steps[..|steps| - 1]);
    }
  }

  /** One tick of a running race takes one tick of its time and ends it exactly when nobody is
      active any more. */
  lemma TickOfRace(r: RaceState, physics: PhysicsReport)
    requires Consistent(r) && !r.finished
    ensures var r' := RaceAfter(r, TickSteps(physics));
            && Consistent(r') && r'.track == r.track && r'.parts.Keys == r.parts.Keys
            && r'.duration == r.duration + 1
            && (r'.finished <==> NoneActive(r'))
  {
    var steps := TickSteps(physics);
    var n := |steps| - 1;
    RaceKeepsParts(r, steps[..n]);
    OnlyAdvanceTakesTime(r, steps[..n]);
    RaceEndIsExact(RaceAfter(r, steps[..n]), 1);
    assert RaceAfter(r, steps) == AdvanceTime(RaceAfter(r, steps[..n]), 1);
  }

  lemma EndRaceKeepsWellFormed(m: Match)
    requires GoodInfos(m.infos) && Clean(m.players) && m.phase.Racing? && m.index < |m.tracks|
    ensures WellFormed(EndRace(m)) && (EndRace(m).phase.Marketplace? || EndRace(m).phase.GameOver?)
  {
  }

  lemma EndMarketKeepsWellFormed(m: Match)
    requires GoodInfos(m.infos) && Clean(m.players) && m.phase.Marketplace? && m.index + 1 < |m.tracks|
    ensures WellFormed(EndMarket(m)) && EndMarket(m).phase.Racing?
  {
  }

  lemma NextKeepsWellFormed(m: Match, e: Event)
    requires WellFormed(m)
    ensures WellFormed(Next(m, e))
  {
    match e
    case Leave(p) =>
    case Tick(_, acts, physics, _, _) =>
      ActAllKeepsWellFormed(m, acts);
      UpdateKeepsWellFormed(ActAll(m, acts), physics);
  }

  lemma UpdateKeepsWellFormed(m: Match, physics: PhysicsReport)
    requires WellFormed(m)
    ensures WellFormed(Update(m, physics))
  {
    match m.phase
    case Lobby =>
    case GameOver =>
    case Marketplace =>
      if m.timeRemaining <= 1 {
        EndMarketKeepsWellFormed(m.(timeRemaining := m.timeRemaining - 1));
      }
    case Racing => RaceUpdateKeepsWellFormed(m, physics);
  }

  lemma RaceUpdateKeepsWellFormed(m: Match, physics: PhysicsReport)
    requires WellFormed(m) && m.phase.Racing?
    ensures WellFormed(Update(m, physics))
  {
    TickOfRace(m.race, physics);
    var m' := Raced(m, physics);
    if m'.race.finished {
      EndRaceKeepsWellFormed(m');
    }
  }

  lemma {:induction false} RunKeepsWellFormed(m: Match, es: seq<Event>)
    requires WellFormed(m) && Run(m, es)
    ensures WellFormed(After(m, es))
    decreases |es|
  {
    if es != [] {
      RunKeepsWellFormed(m, es[..|es| - 1]);
      NextKeepsWellFormed(After(m, es[..|es| - 1]), es[|es| - 1]);
    }
  }
}
