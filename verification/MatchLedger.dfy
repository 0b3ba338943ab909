/** Time, penalties and cars over every run of a match. */
module MatchLedger {
  import opened Wrappers
  import opened Players
  import opened Garages
  import opened Rankings
  import opened Races
  import opened Markets
  import opened Matches
  import opened MatchTheorems

  // ------------------------------------------------------------------ the auditor

  /** What a client can work out about player `p` from the broadcasts alone: what it has spent since
      the last results, its total time, and whether every message so far agreed with the sums. */
  datatype Account = Account(owed: nat, total: nat, sound: bool)

  ghost predicate HasEntry(es: seq<CurrentResult>, p: PlayerId) { exists i :: 0 <= i < |es| && es[i].player == p }

  ghost function EntryOf(es: seq<CurrentResult>, p: PlayerId): (e: CurrentResult)
    requires HasEntry(es, p)
    ensures e in es && e.player == p
  {
    var i :| 0 <= i < |es| && es[i].player == p; es[i]
  }

  /** A race result must charge exactly what was bought since the previous one, the finish time must
      lie within the race, and the running total must grow by the time of the race and by a second, that is sixty
      ticks, for each second of penalty.  A market must open with everybody at
      the full balance and nothing owed.  The final table must agree with the running total. */
  ghost function Post(a: Account, b: Broadcast, p: PlayerId): Account {
    match b
    case ImprovementAck(q, _, ok, cost, _) => if q == p && ok then a.(owed := a.owed + cost) else a
    case Results(es) =>
      if !HasEntry(es, p) then a.(sound := false)
      else
        var e := EntryOf(es, p);
        Account(0, a.total + e.base + 60 * e.penalty,
                a.sound && e.penalty == a.owed && e.base <= 36000 && e.total == a.total + e.base + 60 * e.penalty)
    case MarketInit(balances) =>
      a.(sound := a.sound && a.owed == 0 && p in balances && forall q | q in balances :: balances[q] == 150)
    case ResultsTotal(ts) =>
      a.(sound := a.sound && a.owed == 0 && exists i :: 0 <= i < |ts| && ts[i].player == p && ts[i].total == a.total)
    case _ => a
  }

  ghost function Audit(a: Account, bs: seq<Broadcast>, p: PlayerId): Account {
    if bs == [] then a else Post(Audit(a, bs[..|bs| - 1], p), bs[|bs| - 1], p)
  }

  lemma {:induction false} AuditOfSum(a: Account, x: seq<Broadcast>, y: seq<Broadcast>, p: PlayerId)
    ensures Audit(a, x + y, p) == Audit(Audit(a, x, p), y, p)
    decreases |y|
  {
    if y == [] {
      assert x + y == x;
    } else {
      AuditOfSum(a, x, y[..|y| - 1], p);
      assert (x + y)[..|x + y| - 1] == x + y[..|y| - 1];
    }
  }

  /** The account of `p` as the match itself keeps it. */
  ghost function Books(m: Match, p: PlayerId): Account
    requires p in m.players
  {
    Account(Spent(m.infos, p), m.players[p].TotalTime(), true)
  }

  lemma AckIsPosted(m: Match, a: Action, p: PlayerId)
    requires p in m.players
    ensures Act(m, a).players == m.players && Audit(Books(m, p), Ack(m, a), p) == Books(Act(m, a), p)
  {
    var bs := Ack(m, a);
    assert |bs| == 1 ==> bs[..0] == [];
  }

  lemma {:induction false} AcksArePosted(m: Match, acts: seq<Action>, p: PlayerId)
    requires p in m.players
    ensures ActAll(m, acts).players == m.players
    ensures Audit(Books(m, p), AckAll(m, acts), p) == Books(ActAll(m, acts), p)
    decreases |acts|
  {
    if acts != [] {
      var n := |acts| - 1;
      AcksArePosted(m, acts[..n], p);
      var m' := ActAll(m, acts[..n]);
      AckIsPosted(m', acts[n], p);
      AuditOfSum(Books(m, p), AckAll(m, acts[..n]), Ack(m', acts[n]), p);
    }
  }

  lemma HeartbeatIsNeutral(a: Account, m: Match, iteration: nat, p: PlayerId)
    ensures Audit(a, Heartbeat(m, iteration), p) == a
  {
    var h := Heartbeat(m, iteration);
    assert |h| == 1 ==> h[..0] == [];
  }

  /** The entry of the auditor is the entry of the race for this player, whatever the order. */
  lemma ResultsArePosted(m: Match, current: seq<CurrentResult>, p: PlayerId)
    requires p in m.players && p in m.race.parts && m.race.parts[p].finishTime <= MAX_DURATION
    requires IsCurrent(current, Registered(m.players, m.race, m.infos), m.race, m.infos)
    ensures Post(Books(m, p), Results(current), p) ==
              Account(0, Registered(m.players, m.race, m.infos)[p].TotalTime(), true)
  {
    var players := Registered(m.players, m.race, m.infos);
    assert p in players && HasEntry(current, p);
    var e := EntryOf(current, p);
    var i :| 0 <= i < |current| && current[i] == e;
    assert e.base == m.race.parts[p].finishTime && e.penalty == Spent(m.infos, p);
    assert players[p].TotalTime() == m.players[p].TotalTime() + e.RaceTime();
  }

  lemma AuditTwo(a: Account, b: Broadcast, c: Broadcast, p: PlayerId)
    ensures Audit(a, [b], p) == Post(a, b, p) && Audit(a, [b, c], p) == Post(Post(a, b, p), c, p)
  {
    assert [b, c][..1] == [b] && [b][..0] == [];
  }

  /** The end of a race is announced with results, and then with the opening of a market or the
      final table, that all agree with the books. */
  lemma EndOfRaceIsPosted(m: Match, current: seq<CurrentResult>, total: seq<TotalResult>, p: PlayerId)
    requires p in m.players && p in m.race.parts && m.race.parts[p].finishTime <= MAX_DURATION
    requires IsCurrent(current, Registered(m.players, m.race, m.infos), m.race, m.infos)
    requires EndRace(m).phase.GameOver? ==> IsTotals(total, EndRace(m).players)
    ensures p in EndRace(m).players
    ensures Audit(Books(m, p), if EndRace(m).phase.Marketplace? then [Results(current), MarketInit(Balances(EndRace(m)))]
                               else [Results(current), ResultsTotal(total)], p) == Books(EndRace(m), p)
  {
    var m' := EndRace(m);
    ResultsArePosted(m, current, p);
    AuditTwo(Books(m, p), Results(current), MarketInit(Balances(m')), p);
    AuditTwo(Books(m, p), Results(current), ResultsTotal(total), p);
    if m'.phase.GameOver? {
      TotalsNameEverybody(total, m'.players, p);
    }
  }

  lemma TotalsNameEverybody(ts: seq<TotalResult>, players: map<PlayerId, Player>, p: PlayerId)
    requires IsTotals(ts, players) && p in players
    ensures exists i :: 0 <= i < |ts| && ts[i].player == p && ts[i].total == players[p].TotalTime()
  {
    NamesEverybody(ts, players.Keys, p);
    var i :| 0 <= i < |ts| && ts[i].player == p;
  }

  /** As many distinct names as there are players name every player. */
  lemma {:induction false} NamesEverybody(ts: seq<TotalResult>, ps: set<PlayerId>, p: PlayerId)
    requires |ts| == |ps| && p in ps
    requires forall i | 0 <= i < |ts| :: ts[i].player in ps
    requires forall i, j | 0 <= i < j < |ts| :: ts[i].player != ts[j].player
    ensures exists i :: 0 <= i < |ts| && ts[i].player == p
    decreases |ts|
  {
    var n := |ts| - 1;
    if ts[n].player != p {
      NamesEverybody(ts[..n], ps - {ts[n].player}, p);
      var i :| 0 <= i < n && ts[..n][i].player == p;
      assert ts[i].player == p;
    }
  }

  lemma RaceUpdateIsPosted(m: Match, physics: PhysicsReport, current: seq<CurrentResult>, total: seq<TotalResult>, p: PlayerId)
    requires WellFormed(m) && p in m.players && m.phase.Racing?
    requires EndsRace(m, physics) ==>
               var race := RaceAfter(m.race, TickSteps(physics));
               && IsCurrent(current, Registered(m.players, race, m.infos), race, m.infos)
               && (Update(m, physics).phase.GameOver? ==> IsTotals(total, Update(m, physics).players))
    ensures p in Update(m, physics).players
    ensures Audit(Books(m, p), Announced(m, Update(m, physics), current, total), p) == Books(Update(m, physics), p)
  {
    TickOfRace(m.race, physics);
    if Raced(m, physics).race.finished {
      EndOfRaceIsPosted(Raced(m, physics), current, total, p);
    }
  }

  lemma OtherUpdateIsPosted(m: Match, physics: PhysicsReport, current: seq<CurrentResult>, total: seq<TotalResult>, p: PlayerId)
    requires p in m.players && !m.phase.Racing?
    ensures p in Update(m, physics).players
    ensures Audit(Books(m, p), Announced(m, Update(m, physics), current, total), p) == Books(Update(m, physics), p)
  {
    AuditTwo(Books(m, p), RaceStart, RaceStart, p);
  }

  lemma UpdateIsPosted(m: Match, physics: PhysicsReport, current: seq<CurrentResult>, total: seq<TotalResult>, p: PlayerId)
    requires WellFormed(m) && p in m.players
    requires EndsRace(m, physics) ==>
               var race := RaceAfter(m.race, TickSteps(physics));
               && IsCurrent(current, Registered(m.players, race, m.infos), race, m.infos)
               && (Update(m, physics).phase.GameOver? ==> IsTotals(total, Update(m, physics).players))
    ensures p in Update(m, physics).players
    ensures Audit(Books(m, p), Announced(m, Update(m, physics), current, total), p) == Books(Update(m, physics), p)
  {
    if m.phase.Racing? {
      RaceUpdateIsPosted(m, physics, current, total, p);
    } else {
      OtherUpdateIsPosted(m, physics, current, total, p);
    }
  }

  lemma EventIsPosted(m: Match, e: Event, p: PlayerId)
    requires WellFormed(m) && Legal(m, e) && p in Next(m, e).players
    ensures p in m.players && Audit(Books(m, p), Sent(m, e), p) == Books(Next(m, e), p)
  {
    NextKeepsRoster(m, e);
    if e.Tick? {
      ActAllKeepsWellFormed(m, e.actions);
      AcksArePosted(m, e.actions, p);
      var m1 := ActAll(m, e.actions);
      var m' := Next(m, e);
      UpdateIsPosted(m1, e.physics, e.current, e.total, p);
      var a, b, c := AckAll(m, e.actions), Announced(m1, m', e.current, e.total), Heartbeat(m', e.iteration);
      AuditOfSum(Books(m, p), a + b, c, p);
      AuditOfSum(Books(m, p), a, b, p);
      HeartbeatIsNeutral(Books(m', p), m', e.iteration, p);
    }
  }

  /** The ledger balances: in every state of every run, for every player still in the match, adding
      up what was broadcast gives exactly the total time that the server holds for it and the
      penalty still to be charged, and no message ever contradicts the sums.  So each purchase is
      charged once, with the race after the market where it was made. */
  lemma {:induction false} LedgerBalances(m: Match, es: seq<Event>, p: PlayerId)
    requires WellFormed(m) && Run(m, es) && p in After(m, es).players
    ensures p in m.players
    ensures Audit(Books(m, p), Trace(m, es), p) == Books(After(m, es), p)
    decreases |es|
  {
    if es != [] {
      var before, e := After(m, Before(es)), es[|es| - 1];
      RunKeepsWellFormed(m, Before(es));
      EventIsPosted(before, e, p);
      LedgerBalances(m, Before(es), p);
      AuditOfSum(Books(m, p), Trace(m, Before(es)), Sent(before, e), p);
    }
  }

  /** When a match is over nobody owes anything. */
  lemma NothingOutstandingAtTheEnd(m: Match, es: seq<Event>, p: PlayerId)
    requires WellFormed(m) && Run(m, es) && p in After(m, es).players && After(m, es).phase.GameOver?
    ensures p in m.players
    ensures Audit(Books(m, p), Trace(m, es), p) == Account(0, After(m, es).players[p].TotalTime(), true)
  {
    LedgerBalances(m, es, p);
    RunKeepsWellFormed(m, es);
  }

  // ------------------------------------------------------------------ cars

  /** The car that `p` should be driving. */
  ghost predicate DrivesOwned(m: Match, p: PlayerId)
    requires p in m.players
  {
    m.players[p].current == Upgraded(m.players[p].base, if m.phase.Marketplace? then [] else Owned(m.infos, p))
  }

  /** Everybody drives what it should, until the match is over. */
  ghost predicate Driving(m: Match) {
    && (!m.phase.GameOver? ==> forall p | p in m.players :: DrivesOwned(m, p))
    && (m.phase.Lobby? ==> m.infos == map[])
  }

  lemma UpgradedByNothing(base: CarModel)
    requires base.improvements == []
    ensures Upgraded(base, []) == base
  {
  }

  lemma {:induction false} PurchasesNeedAMarket(m: Match, acts: seq<Action>)
    requires !m.phase.Marketplace?
    ensures ActAll(m, acts).infos == m.infos && ActAll(m, acts).phase == m.phase
    decreases |acts|
  {
    if acts != [] {
      PurchasesNeedAMarket(m, acts[..|acts| - 1]);
    }
  }

  lemma EndRaceKeepsDriving(m: Match)
    requires Clean(m.players)
    ensures Driving(EndRace(m)) || EndRace(m).phase.GameOver?
  {
    var m' := EndRace(m);
    forall p | p in m'.players && m'.phase.Marketplace?
      ensures DrivesOwned(m', p)
    {
      UpgradedByNothing(m.players[p].base);
    }
  }

  lemma EndMarketKeepsDriving(m: Match)
    requires InBaseCars(m.players) && m.index + 1 < |m.tracks|
    ensures Driving(EndMarket(m))
  {
  }

  lemma UpdateKeepsDriving(m: Match, physics: PhysicsReport)
    requires WellFormed(m) && Driving(m)
    ensures Driving(Update(m, physics))
  {
    match m.phase
    case Lobby =>
    case GameOver =>
    case Marketplace =>
      var m' := m.(timeRemaining := m.timeRemaining - 1);
      if m.timeRemaining <= 1 {
        EndMarketKeepsDriving(m');
      } else {
        assert forall p | p in m'.players :: DrivesOwned(m, p) ==> DrivesOwned(m', p);
      }
    case Racing =>
      var m' := Raced(m, physics);
      assert forall p | p in m'.players :: DrivesOwned(m, p) ==> DrivesOwned(m', p);
      if m'.race.finished {
        EndRaceKeepsDriving(m');
      }
  }

  lemma NextKeepsDriving(m: Match, e: Event)
    requires WellFormed(m) && Driving(m)
    ensures Driving(Next(m, e))
  {
    match e
    case Leave(p) =>
      assert forall q | q in m.players - {p} :: DrivesOwned(m, q) ==> DrivesOwned(Next(m, e), q);
    case Tick(_, acts, physics, _, _) =>
      var m1 := ActAll(m, acts);
      ActAllKeepsWellFormed(m, acts);
      if !m.phase.Marketplace? {
        PurchasesNeedAMarket(m, acts);
      }
      assert forall p | p in m1.players :: DrivesOwned(m, p) ==> DrivesOwned(m1, p);
      UpdateKeepsDriving(m1, physics);
  }

  lemma {:induction false} RunKeepsDriving(m: Match, es: seq<Event>)
    requires WellFormed(m) && Driving(m) && Run(m, es)
    ensures Driving(After(m, es))
    decreases |es|
  {
    if es != [] {
      RunKeepsDriving(m, Before(es));
      RunKeepsWellFormed(m, Before(es));
      NextKeepsDriving(After(m, Before(es)), es[|es| - 1]);
    }
  }

  /** Starting the first race of a match that waits with everybody in its own car. */
  lemma StartedMatchIsWellFormed(m: Match, tracks: seq<Track>)
    requires m.phase.Lobby? && m.index == 0 < |tracks| && m.infos == map[] && Clean(m.players) && InBaseCars(m.players)
    ensures var m' := StartRoomGame(m, tracks);
            && WellFormed(m') && Driving(m') && m'.phase.Racing? && m'.index == 0 && m'.race.duration == 0
            && m'.race == StartRace(tracks[0], m.players) && m'.tracks == tracks
  {
    forall p | p in m.players
      ensures DrivesOwned(StartRoomGame(m, tracks), p)
    {
      UpgradedByNothing(m.players[p].base);
    }
  }

  /** Upgrades never accumulate: over any number of races a player drives its car from the garage with what it
      bought in the latest market and nothing else, so the 8-bit health of the messages is exact. */
  lemma CarsDoNotAccumulate(m: Match, es: seq<Event>, p: PlayerId)
    requires WellFormed(m) && Driving(m) && Run(m, es) && p in After(m, es).players && !After(m, es).phase.GameOver?
    requires FromGarage(m.players)
    ensures var m' := After(m, es);
            && p in m.players && m'.players[p].base == m.players[p].base
            && (m'.phase.Racing? ==> m'.players[p].current == Upgraded(m.players[p].base, Owned(m'.infos, p)))
            && (!m'.phase.Racing? ==> m'.players[p].current == m.players[p].base)
            && m'.players[p].current.life <= 250.0
  {
    RunKeepsWellFormed(m, es);
    RunKeepsDriving(m, es);
    RunKeepsRoster(m, es);
    assert DrivesOwned(After(m, es), p);
    UpgradedByNothing(m.players[p].base);
    var car :| 0 <= car < CARS && CarFor(car) == Some(m.players[p].base);
    EveryCarIsOnOffer(car);
  }

  /** In every reachable market a listed upgrade is refused only to a player who has it already. */
  lemma MarketNeverRunsOutOfMoney(m: Match, es: seq<Event>, p: PlayerId, id: CarImprovement)
    requires WellFormed(m) && Run(m, es)
    ensures var info := InfoOf(After(m, es).infos, p);
            && info.balance + info.penalty == BASE_BALANCE
            && info.penalty == TotalCost(info.upgrades) && Distinct(info.upgrades)
            && (Listed(id) && id !in info.upgrades ==> info.balance >= Cost(id))
  {
    RunKeepsWellFormed(m, es);
    BuyKeepsGoodInfos(After(m, es).infos, p, id);
  }

  // ------------------------------------------------------------------ progress within the match

  /** What the events of a run do to the race that is being run. */
  ghost function StepsOf(es: seq<Event>): seq<RaceStep> {
    if es == [] then [] else StepsOf(Before(es)) + EventSteps(es[|es| - 1])
  }

  function EventSteps(e: Event): seq<RaceStep> {
    match e
    case Leave(p) => [RaceStep.Leave(p)]
    case Tick(_, acts, physics, _, _) => CheatSteps(acts) + TickSteps(physics)
  }

  /** The cheats that win a race. */
  function CheatSteps(acts: seq<Action>): seq<RaceStep> {
    if acts == [] then []
    else
      var last := acts[|acts| - 1];
      CheatSteps(acts[..|acts| - 1])
      + if last.Cheat? && last.code == CHEAT_WIN_RACE then [CheatWin(last.player)] else []
  }

  ghost predicate Honest(es: seq<Event>) {
    forall i | 0 <= i < |es| && es[i].Tick? :: forall k | 0 <= k < |es[i].actions| :: es[i].actions[k].Improve?
  }

  lemma {:induction false} RaceAfterSum(r: RaceState, x: seq<RaceStep>, y: seq<RaceStep>)
    ensures RaceAfter(r, x + y) == RaceAfter(RaceAfter(r, x), y)
    decreases |y|
  {
    if y == [] {
      assert x + y == x;
    } else {
      RaceAfterSum(r, x, y[..|y| - 1]);
      assert (x + y)[..|x + y| - 1] == x + y[..|y| - 1];
    }
  }

  lemma {:induction false} ActionsAreCheats(m: Match, acts: seq<Action>)
    requires m.phase.Racing?
    ensures ActAll(m, acts).race == RaceAfter(m.race, CheatSteps(acts)) && ActAll(m, acts).phase.Racing?
    decreases |acts|
  {
    if acts != [] {
      var n := |acts| - 1;
      ActionsAreCheats(m, acts[..n]);
      var cheats := CheatSteps(acts[..n]);
      assert cheats + [] == cheats;
      assert (cheats + [CheatWin(acts[n].player)])[..|cheats|] == cheats;
    }
  }

  /** What a tick makes of the race before anything is done about its end. */
  lemma TickIsRaceSteps(m: Match, e: Event)
    requires m.phase.Racing? && e.Tick?
    ensures RaceAfter(ActAll(m, e.actions).race, TickSteps(e.physics)) == RaceAfter(m.race, EventSteps(e))
  {
    ActionsAreCheats(m, e.actions);
    RaceAfterSum(m.race, CheatSteps(e.actions), TickSteps(e.physics));
  }

  ghost function Stage(m: Match): int {
    match m.phase
    case Lobby => -1
    case Racing => 2 * m.index
    case Marketplace => 2 * m.index + 1
    case GameOver => 2 * |m.tracks|
  }

  lemma StageOnlyGrows(m: Match, e: Event)
    requires WellFormed(m) && !m.phase.Lobby?
    ensures Stage(m) <= Stage(Next(m, e)) && !Next(m, e).phase.Lobby?
  {
    if e.Tick? {
      TickMoves(m, e);
    }
  }

  lemma EventIsRaceSteps(m: Match, e: Event)
    requires WellFormed(m) && m.phase.Racing? && Next(m, e).phase.Racing?
    ensures Next(m, e).race == RaceAfter(m.race, EventSteps(e)) && Next(m, e).index == m.index
  {
    match e
    case Leave(p) =>
      assert [RaceStep.Leave(p)][..0] == [];
    case Tick(_, acts, physics, _, _) =>
      TickIsRaceSteps(m, e);
      TickMoves(m, e);
  }

  /** While race k is being run, its state is what the events of its ticks make of it. */
  lemma {:induction false} RaceFollowsItsEvents(m: Match, es: seq<Event>)
    requires WellFormed(m) && m.phase.Racing? && Run(m, es)
    requires After(m, es).phase.Racing? && After(m, es).index == m.index
    ensures After(m, es).race == RaceAfter(m.race, StepsOf(es))
    decreases |es|
  {
    if es != [] {
      var before, e := After(m, Before(es)), es[|es| - 1];
      RunKeepsWellFormed(m, Before(es));
      StillInTheRace(m, es);
      RaceFollowsItsEvents(m, Before(es));
      EventIsRaceSteps(before, e);
      RaceAfterSum(m.race, StepsOf(Before(es)), EventSteps(e));
    }
  }

  lemma {:induction false} StagesGrow(m: Match, es: seq<Event>)
    requires WellFormed(m) && !m.phase.Lobby? && Run(m, es)
    ensures Stage(m) <= Stage(After(m, es)) && !After(m, es).phase.Lobby?
    decreases |es|
  {
    if es != [] {
      StagesGrow(m, Before(es));
      RunKeepsWellFormed(m, Before(es));
      StageOnlyGrows(After(m, Before(es)), es[|es| - 1]);
    }
  }

  lemma StillInTheRace(m: Match, es: seq<Event>)
    requires WellFormed(m) && m.phase.Racing? && Run(m, es) && es != []
    requires After(m, es).phase.Racing? && After(m, es).index == m.index
    ensures After(m, Before(es)).phase.Racing? && After(m, Before(es)).index == m.index
  {
    StagesGrow(m, Before(es));
    RunKeepsWellFormed(m, Before(es));
    RunKeepsRoster(m, Before(es));
    StageOnlyGrows(After(m, Before(es)), es[|es| - 1]);
  }

  lemma {:induction false} StepsAreHonest(es: seq<Event>)
    requires Honest(es)
    ensures NoCheat(StepsOf(es))
    decreases |es|
  {
    if es != [] {
      StepsAreHonest(Before(es));
      var e := es[|es| - 1];
      if e.Tick? {
        NoCheatsAmongImprovements(e.actions);
      }
      assert NoCheat(EventSteps(e));
    }
  }

  lemma {:induction false} NoCheatsAmongImprovements(acts: seq<Action>)
    requires forall k | 0 <= k < |acts| :: acts[k].Improve?
    ensures CheatSteps(acts) == []
    decreases |acts|
  {
    if acts != [] {
      NoCheatsAmongImprovements(acts[..|acts| - 1]);
    }
  }

  /** In a match without cheats, at any moment of race k every participant's next checkpoint is the
      longest 0, 1, 2, ... found in what physics reported of it since the race started. */
  lemma ProgressDuringTheMatch(m: Match, es: seq<Event>, p: PlayerId)
    requires WellFormed(m) && m.phase.Racing? && m.race == StartRace(m.tracks[m.index], m.players)
    requires m.race.track.checkpointCount > 0 && Run(m, es) && Honest(es) && p in m.players
    requires After(m, es).phase.Racing? && After(m, es).index == m.index
    ensures var r := After(m, es).race;
            && p in r.parts
            && LongestMatch(r.parts[p].next, Delivered(m.race, StepsOf(es), p))
            && (r.parts[p].state.Finished? ==> r.parts[p].next == m.race.track.checkpointCount)
            && (r.parts[p].state.Active? ==> r.parts[p].next < m.race.track.checkpointCount)
  {
    RaceFollowsItsEvents(m, es);
    StepsAreHonest(es);
    ProgressIsLongestMatch(m.race, StepsOf(es), p);
  }
}
