/** What the players of a match have bought, told from the broadcasts alone, and what they drive for it:
    server/game/market.cpp with server/game/gameloop.cpp. */
module Purchases {
  import opened Wrappers
  import opened Players
  import opened Races
  import opened Markets
  import opened Matches
  import opened MatchTheorems
  import opened MatchLedger

  /** The upgrades that `p` has been told it got since the last results. */
  ghost function Bought(us: seq<CarImprovement>, bs: seq<Broadcast>, p: PlayerId): seq<CarImprovement> {
    if bs == [] then us
    else
      var before, b := Bought(us, bs[..|bs| - 1], p), bs[|bs| - 1];
      if b.Results? then [] else if b.ImprovementAck? && b.player == p && b.ok then before + [b.id] else before
  }

  lemma {:induction false} BoughtInSum(us: seq<CarImprovement>, x: seq<Broadcast>, y: seq<Broadcast>, p: PlayerId)
    ensures Bought(us, x + y, p) == Bought(Bought(us, x, p), y, p)
    decreases |y|
  {
    if y == [] {
      assert x + y == x;
    } else {
      BoughtInSum(us, x, y[..|y| - 1], p);
      assert (x + y)[..|x + y| - 1] == x + y[..|y| - 1];
    }
  }

  lemma BoughtInOneOrTwo(us: seq<CarImprovement>, b: Broadcast, c: Broadcast, p: PlayerId)
    ensures Bought(us, [b], p) ==
              if b.Results? then [] else if b.ImprovementAck? && b.player == p && b.ok then us + [b.id] else us
    ensures !c.ImprovementAck? && !c.Results? ==> Bought(us, [b, c], p) == Bought(us, [b], p)
  {
    assert [b, c][..1] == [b] && [b][..0] == [];
  }

  lemma AckTellsPurchase(m: Match, a: Action, p: PlayerId)
    ensures Bought(Owned(m.infos, p), Ack(m, a), p) == Owned(Act(m, a).infos, p)
  {
    var bs := Ack(m, a);
    assert |bs| == 1 ==> bs[..0] == [];
  }

  lemma {:induction false} AcksTellPurchases(m: Match, acts: seq<Action>, p: PlayerId)
    ensures Bought(Owned(m.infos, p), AckAll(m, acts), p) == Owned(ActAll(m, acts).infos, p)
    decreases |acts|
  {
    if acts != [] {
      var n := |acts| - 1;
      AcksTellPurchases(m, acts[..n], p);
      AckTellsPurchase(ActAll(m, acts[..n]), acts[n], p);
      BoughtInSum(Owned(m.infos, p), AckAll(m, acts[..n]), Ack(ActAll(m, acts[..n]), acts[n]), p);
    }
  }

  lemma UpdateTellsPurchases(m: Match, physics: PhysicsReport, current: seq<CurrentResult>, total: seq<TotalResult>,
                             p: PlayerId)
    requires WellFormed(m)
    ensures var m' := Update(m, physics);
            Bought(Owned(m.infos, p), Announced(m, m', current, total), p) == Owned(m'.infos, p)
  {
    var us, m' := Owned(m.infos, p), Update(m, physics);
    BoughtInOneOrTwo(us, Results(current), MarketInit(Balances(m')), p);
    BoughtInOneOrTwo(us, Results(current), ResultsTotal(total), p);
    BoughtInOneOrTwo(us, RaceStart, RaceStart, p);
    if m.phase.Racing? {
      TickOfRace(m.race, physics);
    }
  }

  lemma HeartbeatSellsNothing(us: seq<CarImprovement>, m: Match, iteration: nat, p: PlayerId)
    ensures Bought(us, Heartbeat(m, iteration), p) == us
  {
    var h := Heartbeat(m, iteration);
    assert |h| == 1 ==> h[..0] == [];
  }

  lemma EventTellsPurchases(m: Match, e: Event, p: PlayerId)
    requires WellFormed(m)
    ensures Bought(Owned(m.infos, p), Sent(m, e), p) == Owned(Next(m, e).infos, p)
  {
    if e.Tick? {
      ActAllKeepsWellFormed(m, e.actions);
      AcksTellPurchases(m, e.actions, p);
      var us, m1, m' := Owned(m.infos, p), ActAll(m, e.actions), Next(m, e);
      UpdateTellsPurchases(m1, e.physics, e.current, e.total, p);
      var a, b, c := AckAll(m, e.actions), Announced(m1, m', e.current, e.total), Heartbeat(m', e.iteration);
      BoughtInSum(us, a + b, c, p);
      BoughtInSum(us, a, b, p);
      HeartbeatSellsNothing(Owned(m'.infos, p), m', e.iteration, p);
    }
  }

  /** In every state of every run the accounts hold exactly the upgrades that the player was told it got since the last
      results, in that order. */
  lemma {:induction false} PurchasesAreTold(m: Match, es: seq<Event>, p: PlayerId)
    requires WellFormed(m) && Run(m, es)
    ensures Bought(Owned(m.infos, p), Trace(m, es), p) == Owned(After(m, es).infos, p)
    decreases |es|
  {
    if es != [] {
      var before, e := After(m, Before(es)), es[|es| - 1];
      RunKeepsWellFormed(m, Before(es));
      EventTellsPurchases(before, e, p);
      PurchasesAreTold(m, Before(es), p);
      BoughtInSum(Owned(m.infos, p), Trace(m, Before(es)), Sent(before, e), p);
    }
  }

  /** So in every race everybody drives its own car with what it was told it got in the market before: half a unit more
      top speed exactly if it got that upgrade, and so on for each figure. */
  lemma CarsAreWhatWasBought(m: Match, es: seq<Event>, p: PlayerId)
    requires WellFormed(m) && Driving(m) && Run(m, es) && p in After(m, es).players && !After(m, es).phase.GameOver?
    ensures p in m.players
    ensures IsImproved(After(m, es).players[p].current, m.players[p].base,
                       if After(m, es).phase.Racing? then Bought(Owned(m.infos, p), Trace(m, es), p) else [])
  {
    RunKeepsWellFormed(m, es);
    RunKeepsDriving(m, es);
    RunKeepsRoster(m, es);
    PurchasesAreTold(m, es, p);
    assert DrivesOwned(After(m, es), p);
    UpgradedIsImproved(m.players[p].base, Owned(After(m, es).infos, p));
    UpgradedIsImproved(m.players[p].base, []);
  }

  /** What a player that was told it got `us` hears of a request: it is granted exactly in an open market, for an
      upgrade of the catalogue that the player has not got; the balance is what the opening balance leaves of everything
      granted; and only for something that is not in the catalogue there is no answer, in a market. */
  ghost function Answer(open: bool, p: PlayerId, id: CarImprovement, us: seq<CarImprovement>): seq<Broadcast> {
    if open && !Listed(id) then []
    else if open && id !in us then [ImprovementAck(p, id, true, Cost(id), BASE_BALANCE - TotalCost(us) - Cost(id))]
    else [ImprovementAck(p, id, false, 0, BASE_BALANCE - TotalCost(us))]
  }

  lemma RequestIsAnswered(m: Match, p: PlayerId, id: CarImprovement)
    requires GoodInfos(m.infos) && p in m.players
    ensures Ack(m, Improve(p, id)) == Answer(m.phase.Marketplace?, p, id, Owned(m.infos, p))
  {
    var info := InfoOf(m.infos, p);
    assert GoodInfo(info) && info.upgrades == Owned(m.infos, p);
    assert info.balance == BASE_BALANCE - TotalCost(info.upgrades);
  }

  lemma AckOfOneMore(m: Match, acts: seq<Action>, k: nat)
    requires k < |acts|
    ensures AckAll(m, acts[..k + 1]) == AckAll(m, acts[..k]) + Ack(ActAll(m, acts[..k]), acts[k])
  {
    assert acts[..k + 1][..k] == acts[..k];
  }

  lemma ToldSoFar(m: Match, es: seq<Event>, acts: seq<Action>, p: PlayerId)
    requires WellFormed(m) && Run(m, es)
    ensures var m1 := After(m, es);
            && GoodInfos(ActAll(m1, acts).infos) && ActAll(m1, acts).players == m1.players && ActAll(m1, acts).phase == m1.phase
            && Bought(Owned(m.infos, p), Trace(m, es) + AckAll(m1, acts), p) == Owned(ActAll(m1, acts).infos, p)
  {
    RunKeepsWellFormed(m, es);
    ActAllKeepsWellFormed(After(m, es), acts);
    PurchasesAreTold(m, es, p);
    AcksTellPurchases(After(m, es), acts, p);
    BoughtInSum(Owned(m.infos, p), Trace(m, es), AckAll(After(m, es), acts), p);
  }

  /** Every request of a player of the match is answered so, at whatever moment of whatever run. */
  lemma RequestsAreAnswered(m: Match, es: seq<Event>, acts: seq<Action>, k: nat, p: PlayerId, id: CarImprovement)
    requires WellFormed(m) && Run(m, es) && k < |acts| && acts[k] == Improve(p, id) && p in After(m, es).players
    ensures var m1 := After(m, es);
            AckAll(m1, acts[..k + 1]) == AckAll(m1, acts[..k])
              + Answer(m1.phase.Marketplace?, p, id, Bought(Owned(m.infos, p), Trace(m, es) + AckAll(m1, acts[..k]), p))
  {
    ToldSoFar(m, es, acts[..k], p);
    AckOfOneMore(After(m, es), acts, k);
    RequestIsAnswered(ActAll(After(m, es), acts[..k]), p, id);
  }
}
