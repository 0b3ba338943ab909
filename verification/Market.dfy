/** The upgrade market between races: server/game/market.cpp and market_phase.cpp. */
module Markets {
  import opened Players

  const BASE_BALANCE: nat := 150
  const MARKET_DURATION: nat := 30 * TICKS_PER_SECOND

  datatype UpgradeInfo = UpgradeInfo(timePenalty: nat, value: real)

  /** The catalogue: five upgrades, and nothing for Nitro, Init or any other code. */
  predicate Listed(id: CarImprovement) {
    id.Health? || id.Acceleration? || id.Speed? || id.Controllability? || id.Mass?
  }

  function FindInfo(id: CarImprovement): UpgradeInfo
    requires Listed(id)
  {
    match id
    case Health => UpgradeInfo(40, 50.0)
    case Acceleration => UpgradeInfo(50, 4.0)
    case Speed => UpgradeInfo(30, 0.5)
    case Controllability => UpgradeInfo(10, 2.0)
    case Mass => UpgradeInfo(20, 50.0)
  }

  datatype PlayerMarketInfo = PlayerMarketInfo(penalty: nat, balance: int, initialized: bool, upgrades: seq<CarImprovement>)

  const NOTHING_BOUGHT := PlayerMarketInfo(0, BASE_BALANCE, true, [])

  type Infos = map<PlayerId, PlayerMarketInfo>

  /** `NotInCatalog` is the out_of_range exception of the catalogue lookup. */
  datatype BuyResult = Bought | Refused | NotInCatalog

  function Cost(id: CarImprovement): nat { if Listed(id) then FindInfo(id).timePenalty else 0 }

  function TotalCost(us: seq<CarImprovement>): nat {
    if us == [] then 0 else TotalCost(us[..|us| - 1]) + Cost(us[|us| - 1])
  }

  ghost predicate Distinct(us: seq<CarImprovement>) { forall i, j | 0 <= i < j < |us| :: us[i] != us[j] }

  ghost predicate FromCatalog(us: seq<CarImprovement>) { forall i | 0 <= i < |us| :: Listed(us[i]) }

  /** What every entry of the market table looks like. */
  ghost predicate GoodInfo(info: PlayerMarketInfo) {
    && info.initialized
    && Distinct(info.upgrades) && FromCatalog(info.upgrades)
    && info.penalty == TotalCost(info.upgrades)
    && info.balance + info.penalty == BASE_BALANCE
  }

  ghost predicate GoodInfos(infos: Infos) { forall p | p in infos :: GoodInfo(infos[p]) }

  function Spent(infos: Infos, p: PlayerId): nat { if p in infos then infos[p].penalty else 0 }

  function Owned(infos: Infos, p: PlayerId): seq<CarImprovement> { if p in infos then infos[p].upgrades else [] }

  function InfoOf(infos: Infos, p: PlayerId): PlayerMarketInfo {
    if p in infos then infos[p] else NOTHING_BOUGHT
  }

  /** A purchase succeeds exactly when the upgrade is listed and not owned yet: no test of the
      balance is needed. */
  ghost function Buy(infos: Infos, p: PlayerId, id: CarImprovement): Infos {
    if Listed(id) && id !in Owned(infos, p) then infos[p := Charge(InfoOf(infos, p), id)] else infos
  }

  function Once(b: bool, cost: nat): nat { if b then cost else 0 }

  lemma {:induction false} CostByMembership(us: seq<CarImprovement>)
    requires Distinct(us) && FromCatalog(us)
    ensures TotalCost(us) == Once(Health in us, 40) + Once(Acceleration in us, 50) + Once(Speed in us, 30)
                             + Once(Controllability in us, 10) + Once(Mass in us, 20)
    decreases |us|
  {
    if us != [] {
      var n := |us| - 1;
      CostByMembership(us[..n]);
      assert us == us[..n] + [us[n]] && us[n] !in us[..n];
      OnceMore(us[..n], us[n], Health);
      OnceMore(us[..n], us[n], Acceleration);
      OnceMore(us[..n], us[n], Speed);
      OnceMore(us[..n], us[n], Controllability);
      OnceMore(us[..n], us[n], Mass);
    }
  }

  lemma OnceMore(us: seq<CarImprovement>, u: CarImprovement, x: CarImprovement)
    ensures x in us + [u] <==> x in us || x == u
  {
  }

  /** The whole catalogue costs exactly the opening balance, so whatever a player owns, everything
      it does not own yet is affordable. */
  lemma AlwaysAffordable(info: PlayerMarketInfo, id: CarImprovement)
    requires GoodInfo(info) && Listed(id) && id !in info.upgrades
    ensures info.balance >= Cost(id)
  {
    CostByMembership(info.upgrades);
  }

  lemma NeverOverdrawn(infos: Infos, p: PlayerId)
    ensures GoodInfos(infos) && p in infos ==> infos[p].balance >= 0
  {
    if GoodInfos(infos) && p in infos {
      CostByMembership(infos[p].upgrades);
    }
  }

  function Charge(info: PlayerMarketInfo, id: CarImprovement): PlayerMarketInfo {
    PlayerMarketInfo(info.penalty + Cost(id), info.balance - Cost(id), true, info.upgrades + [id])
  }

  lemma ChargeKeepsGoodInfo(info: PlayerMarketInfo, id: CarImprovement)
    requires GoodInfo(info) && Listed(id) && id !in info.upgrades
    ensures GoodInfo(Charge(info, id))
  {
    var us := info.upgrades + [id];
    assert us[..|us| - 1] == info.upgrades;
  }

  lemma BuyKeepsGoodInfos(infos: Infos, p: PlayerId, id: CarImprovement)
    requires GoodInfos(infos)
    ensures GoodInfos(Buy(infos, p, id))
    ensures Listed(id) && id !in Owned(infos, p) ==> InfoOf(infos, p).balance >= Cost(id)
  {
    assert GoodInfo(InfoOf(infos, p));
    if Listed(id) && id !in Owned(infos, p) {
      AlwaysAffordable(InfoOf(infos, p), id);
      ChargeKeepsGoodInfo(InfoOf(infos, p), id);
    }
  }

  // ------------------------------------------------------------------ upgraded cars

  function Plus(b: bool, x: real): real { if b then x else 0.0 }

  /** A car with a set of upgrades.  Only the list of badges remembers the order of purchase. */
  function Upgraded(base: CarModel, us: seq<CarImprovement>): CarModel {
    CarModel(base.life + Plus(Health in us, 50.0),
             if Mass in us then Max(0.0, base.mass - 50.0) else base.mass,
             base.force + Plus(Acceleration in us, 4.0),
             base.torque + Plus(Controllability in us, 2.0),
             base.topSpeed + Plus(Speed in us, 0.5),
             us)
  }

  function Max(a: real, b: real): real { if a < b then b else a }

  /** One turn of the switch that fits an upgrade to a car. */
  function WithUpgrade(m: CarModel, id: CarImprovement, value: real): CarModel {
    match id
    case Health => m.(life := m.life + value)
    case Acceleration => m.(force := m.force + value)
    case Speed => m.(topSpeed := m.topSpeed + value)
    case Controllability => m.(torque := m.torque + value)
    case Mass => m.(mass := Max(0.0, m.mass - value))
    case _ => m
  }

  lemma OneMoreUpgrade(base: CarModel, us: seq<CarImprovement>, i: nat)
    requires i < |us| && Distinct(us) && FromCatalog(us)
    ensures WithUpgrade(Upgraded(base, us[..i]).(improvements := []), us[i], FindInfo(us[i]).value)
            == Upgraded(base, us[..i + 1]).(improvements := [])
  {
    assert us[..i + 1] == us[..i] + [us[i]] && us[i] !in us[..i];
  }

  /** The order of purchase makes no difference to how the car drives. */
  lemma UpgradeOrderIsFree(base: CarModel, us: seq<CarImprovement>, vs: seq<CarImprovement>)
    requires multiset(us) == multiset(vs)
    ensures Upgraded(base, us).(improvements := []) == Upgraded(base, vs).(improvements := [])
  {
    forall u: CarImprovement
      ensures u in us <==> u in vs
    {
      assert u in us <==> u in multiset(us);
      assert u in vs <==> u in multiset(vs);
    }
  }

  /** What a car is worth with a set of upgrades: each raises one figure by its own amount, mass falls but not below
      zero, and nothing else moves. */
  ghost predicate IsImproved(car: CarModel, base: CarModel, us: seq<CarImprovement>) {
    && car.topSpeed == base.topSpeed + (if Speed in us then 0.5 else 0.0)
    && car.force == base.force + (if Acceleration in us then 4.0 else 0.0)
    && car.torque == base.torque + (if Controllability in us then 2.0 else 0.0)
    && car.life == base.life + (if Health in us then 50.0 else 0.0)
    && car.mass == (if Mass !in us then base.mass else if base.mass > 50.0 then base.mass - 50.0 else 0.0)
    && car.improvements == us
  }

  lemma UpgradedIsImproved(base: CarModel, us: seq<CarImprovement>)
    ensures IsImproved(Upgraded(base, us), base, us)
  {
  }

  ghost predicate Clean(players: map<PlayerId, Player>) {
    forall p | p in players :: players[p].base.improvements == []
  }

  ghost function Rebased(players: map<PlayerId, Player>): map<PlayerId, Player> {
    map p | p in players :: players[p].(current := players[p].base)
  }

  ghost function Fitted(players: map<PlayerId, Player>, infos: Infos): map<PlayerId, Player> {
    map p | p in players :: players[p].(current := Upgraded(players[p].current, Owned(infos, p)))
  }

  // ------------------------------------------------------------------ the classes

  class Market {
    var playerMarketInfo: Infos

    constructor ()
      ensures playerMarketInfo == map[]
    {
      playerMarketInfo := map[];
    }

    method BuyUpgrade(p: PlayerId, id: CarImprovement) returns (r: BuyResult)
      requires GoodInfos(playerMarketInfo)
      modifies this
      ensures playerMarketInfo == Buy(old(playerMarketInfo), p, id)
      ensures r == if !Listed(id) then NotInCatalog
                   else if id in Owned(old(playerMarketInfo), p) then Refused else Bought
    {
      BuyKeepsGoodInfos(playerMarketInfo, p, id);
      if !Listed(id) { return NotInCatalog; }
      var info := if p in playerMarketInfo then playerMarketInfo[p] else PlayerMarketInfo(0, 0, false, []);
      if !info.initialized {
        info := info.(balance := BASE_BALANCE, penalty := 0, upgrades := [], initialized := true);
      }
      assert info == InfoOf(playerMarketInfo, p);
      if id in info.upgrades {
        return Refused;
      }
      if info.balance < FindInfo(id).timePenalty {
        return Refused;
      }
      playerMarketInfo := playerMarketInfo[p := Charge(info, id)];
      r := Bought;
    }

    method ApplyUpgradesToModel(p: PlayerId, base: CarModel) returns (result: CarModel)
      requires GoodInfos(playerMarketInfo)
      requires base.improvements == []
      ensures result == Upgraded(base, Owned(playerMarketInfo, p))
      ensures IsImproved(result, base, if p in playerMarketInfo then playerMarketInfo[p].upgrades else [])
    {
      result := base;
      if p !in playerMarketInfo { return; }
      var us := playerMarketInfo[p].upgrades;
      for i := 0 to |us|
        invariant result == Upgraded(base, us[..i]).(improvements := [])
      {
        OneMoreUpgrade(base, us, i);
        result := WithUpgrade(result, us[i], FindInfo(us[i]).value);
      }
      assert us[..|us|] == us;
      result := result.(improvements := us);
    }

    /** Hands out what each player owes and closes the accounts. */
    method ConsumePenaltiesForRace() returns (penalties: map<PlayerId, nat>)
      modifies this
      ensures playerMarketInfo == map[]
      ensures forall p :: (if p in penalties then penalties[p] else 0) == Spent(old(playerMarketInfo), p)
    {
      penalties := map[];
      var todo := playerMarketInfo.Keys;
      while todo != {}
        invariant todo <= playerMarketInfo.Keys && playerMarketInfo == old(playerMarketInfo)
        invariant forall p :: (if p in penalties then penalties[p] else 0)
                              == if p in todo then 0 else Spent(playerMarketInfo, p)
      {
        var p :| p in todo;
        todo := todo - {p};
        if playerMarketInfo[p].penalty > 0 {
          penalties := penalties[p := playerMarketInfo[p].penalty];
        }
      }
      playerMarketInfo := map[];
    }

    /** What a player has left is what it has not spent, and it is never overdrawn. */
    function GetTotalPlayerInfo(p: PlayerId): (info: PlayerMarketInfo)
      reads this
      ensures GoodInfos(playerMarketInfo) ==> 0 <= info.balance == BASE_BALANCE - TotalCost(info.upgrades)
    {
      NeverOverdrawn(playerMarketInfo, p);
      if p in playerMarketInfo then playerMarketInfo[p] else NOTHING_BOUGHT.(initialized := false)
    }
  }

  class MarketPhase {
    const market: Market
    var timeRemaining: int
    var pendingInit: bool

    constructor ()
      ensures fresh(market) && market.playerMarketInfo == map[] && timeRemaining == 0 && !pendingInit
    {
      market := new Market();
      timeRemaining, pendingInit := 0, false;
    }

    method Begin(players: map<PlayerId, Player>, duration: nat) returns (updated: map<PlayerId, Player>)
      modifies this
      ensures timeRemaining == duration && pendingInit && updated == Rebased(players)
    {
      timeRemaining, pendingInit := duration, true;
      updated := players;
      var todo := players.Keys;
      while todo != {}
        invariant todo <= players.Keys && timeRemaining == duration && pendingInit
        invariant updated == map p | p in players ::
                    if p in todo then players[p] else players[p].(current := players[p].base)
      {
        var p :| p in todo;
        todo := todo - {p};
        updated := updated[p := updated[p].(current := updated[p].base)];
      }
    }

    method Update(dt: nat)
      modifies this
      ensures timeRemaining == old(timeRemaining) - dt && pendingInit == old(pendingInit)
    {
      timeRemaining := timeRemaining - dt;
    }

    /** The opening of the market: one balance per player.  The server sends each of them in an improvement
        message of its own, in the order of the ids, and so none at all when nobody is left; here they make one
        announcement. */
    method ConsumePendingMarketInit(players: map<PlayerId, Player>)
      returns (any: bool, balances: map<PlayerId, int>)
      modifies this`pendingInit
      ensures any == old(pendingInit) && !pendingInit
      ensures any ==> balances == map p | p in players :: market.GetTotalPlayerInfo(p).balance
    {
      balances := map[];
      if !pendingInit { return false, balances; }
      pendingInit := false;
      any := true;
      var todo := players.Keys;
      while todo != {}
        invariant todo <= players.Keys && !pendingInit
        invariant balances == map p | p in players && p !in todo :: market.GetTotalPlayerInfo(p).balance
      {
        var p :| p in todo;
        todo := todo - {p};
        balances := balances[p := market.GetTotalPlayerInfo(p).balance];
      }
    }

    method ApplyUpgradesToAll(players: map<PlayerId, Player>) returns (updated: map<PlayerId, Player>)
      requires GoodInfos(market.playerMarketInfo)
      requires forall p | p in players :: players[p].current.improvements == []
      ensures updated == Fitted(players, market.playerMarketInfo)
      ensures forall p | p in players :: p in updated && updated[p].base == players[p].base
                && IsImproved(updated[p].current, players[p].current, Owned(market.playerMarketInfo, p))
    {
      updated := players;
      var todo := players.Keys;
      while todo != {}
        invariant todo <= players.Keys
        invariant updated == map p | p in players ::
                    if p in todo then players[p]
                    else players[p].(current := Upgraded(players[p].current, Owned(market.playerMarketInfo, p)))
      {
        var p :| p in todo;
        todo := todo - {p};
        var model := market.ApplyUpgradesToModel(p, players[p].current);
        updated := updated[p := updated[p].(current := model)];
      }
    }
  }
}
