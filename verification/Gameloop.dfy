/** The loop of server/game/gameloop.cpp: it drains the actions, updates the game and broadcasts what
    the game has pending. */
module Gameloops {
  import opened Sequences
  import opened PhysicsWorlds
  import opened Grids
  import opened Players
  import opened Races
  import opened Markets
  import opened Matches
  import opened Games
  import opened MatchTheorems
  import opened MatchLedger
  import opened Arenas

  const TICKS_PER_BROADCAST: nat := 2

  datatype TickInput = TickInput(iteration: nat, actions: seq<Action>, physics: PhysicsReport)

  class Gameloop {
    const game: Game

    constructor (game: Game)
      ensures this.game == game
    {
      this.game := game;
    }

    ghost predicate Ready()
      reads game, game.races, game.marketPhase, game.marketPhase.market, game.results
    {
      game.Valid() && game.Quiet() && WellFormed(game.View())
    }

    /** Every race of the map has somewhere to start. */
    ghost predicate HasSpots()
      reads game.city
    {
      forall route :: game.city.View().Line(route) != []
    }

    method ProcesarActiones(actions: seq<Action>) returns (out: seq<Broadcast>)
      requires Ready()
      modifies game.races, game.marketPhase.market
      ensures Ready() && game.View() == ActAll(old(game.View()), actions)
      ensures out == AckAll(old(game.View()), actions)
    {
      out := [];
      for k := 0 to |actions|
        invariant Ready() && game.View() == ActAll(old(game.View()), actions[..k])
        invariant out == AckAll(old(game.View()), actions[..k])
      {
        assert actions[..k + 1][..k] == actions[..k];
        ActKeepsWellFormed(game.View(), actions[k]);
        var acks := Procesar(actions[k]);
        out := out + acks;
      }
      assert actions[..|actions|] == actions;
    }

    /** One action.  An exception ends it with nothing sent. */
    method Procesar(action: Action) returns (acks: seq<Broadcast>)
      requires Ready()
      modifies game.races, game.marketPhase.market
      ensures game.Valid() && game.Quiet() && game.View() == Act(old(game.View()), action)
      ensures acks == Ack(old(game.View()), action)
    {
      acks := [];
      match action {
        case Improve(p, id) =>
          var ok := game.BuyUpgrade(p, id);
          if ok.NotInCatalog? { return; }
          var info := game.marketPhase.market.GetTotalPlayerInfo(p);
          var cost := if ok.Bought? then Cost(id) else 0;
          acks := [ImprovementAck(p, id, ok.Bought?, cost, info.balance)];
        case Cheat(p, code) =>
          game.ApplyCheat(p, code);
      }
    }

    /** What the game has pending after a tick in state `m`. */
    ghost predicate Pending(m: Match)
      reads game, game.marketPhase, game.results
    {
      && game.pendingRaceStart == (m.phase.Marketplace? && game.state.Racing?)
      && game.marketPhase.pendingInit == (m.phase.Racing? && game.state.Marketplace?)
      && game.results.pendingTotalResults == (m.phase.Racing? && game.state.GameOver?)
      && game.results.pendingResults == (game.marketPhase.pendingInit || game.results.pendingTotalResults)
    }

    /** Broadcasts and clears whatever the game has pending since it was in state `m`. */
    method Announce(ghost m: Match) returns (out: seq<Broadcast>)
      requires game.Valid() && WellFormed(game.View()) && Pending(m)
      modifies game`pendingRaceStart, game.marketPhase`pendingInit, game.results
      ensures Ready() && game.View() == old(game.View())
      ensures out == Announced(m, game.View(), old(game.results.lastResultsCurrent), old(game.results.lastResultsTotal))
    {
      out := [];
      ghost var m' := game.View();
      var starts := game.pendingRaceStart;
      if starts {
        game.pendingRaceStart := false;
        out := [RaceStart];
      }
      var any, current := game.results.ConsumePendingResults();
      if any {
        out := out + [Results(current)];
      }
      var opens, balances := game.marketPhase.ConsumePendingMarketInit(game.players);
      if opens {
        out := out + [MarketInit(balances)];
      }
      var ends, total := game.results.ConsumePendingTotalResults();
      if ends {
        out := out + [ResultsTotal(total)];
      }
      assert opens ==> balances == Balances(m');
      PhaseIsAnnounced(m, m', starts, any, opens, ends, old(game.results.lastResultsCurrent), old(game.results.lastResultsTotal), out);
    }

    method Clock(iteration: nat) returns (out: seq<Broadcast>)
      requires game.Valid() && WellFormed(game.View())
      ensures out == Heartbeat(game.View(), iteration)
    {
      out := [];
      if iteration % TICKS_PER_BROADCAST == 0 {
        if game.state.Racing? {
          out := [MapInfo(RaceSeconds(game.races[game.currentRaceIndex].duration))];
        } else if game.state.Marketplace? {
          out := [MarketTime(MarketSeconds(game.marketPhase.timeRemaining))];
        }
      }
    }

    method UpdateGame(physics: PhysicsReport)
      requires Ready() && HasSpots()
      modifies game, game.races, game.marketPhase, game.marketPhase.market, game.results, game.city.physicsWorld
      ensures game.Valid() && WellFormed(game.View()) && Pending(old(game.View()))
      ensures game.races == old(game.races) && game.View() == Update(old(game.View()), physics)
      ensures game.city.physicsWorld.View() ==
                WorldUpdate(game.city.View(), old(game.View()), old(game.city.physicsWorld.View()), physics)
      ensures AnnouncesTruly(old(game.View()), physics, game.results.lastResultsCurrent, game.results.lastResultsTotal)
    {
      UpdateKeepsWellFormed(game.View(), physics);
      RacingEnds(game.View(), physics);
      game.Update(physics);
    }

    /** The part of a tick after the actions, with the orders in which results were announced. */
    method UpdateAndBroadcast(iteration: nat, physics: PhysicsReport)
      returns (out: seq<Broadcast>, ghost current: seq<CurrentResult>, ghost total: seq<TotalResult>)
      requires Ready() && HasSpots()
      modifies game, game.races, game.marketPhase, game.marketPhase.market, game.results, game.city.physicsWorld
      ensures Ready() && game.races == old(game.races) && game.View() == Update(old(game.View()), physics)
      ensures game.city.physicsWorld.View() ==
                WorldUpdate(game.city.View(), old(game.View()), old(game.city.physicsWorld.View()), physics)
      ensures AnnouncesTruly(old(game.View()), physics, current, total)
      ensures out == Announced(old(game.View()), game.View(), current, total) + Heartbeat(game.View(), iteration)
    {
      ghost var m := game.View();
      UpdateGame(physics);
      current, total := game.results.lastResultsCurrent, game.results.lastResultsTotal;
      var announced := Announce(m);
      var beat := Clock(iteration);
      out := announced + beat;
    }

    /** One tick: `e` names what happened, and the match, the bodies and the broadcasts are what the state
        machine says for it. */
    method FuncTick(iteration: nat, actions: seq<Action>, physics: PhysicsReport) returns (out: seq<Broadcast>, ghost e: Event)
      requires Ready() && HasSpots()
      modifies game, game.races, game.marketPhase, game.marketPhase.market, game.results, game.city.physicsWorld
      ensures Ready() && game.races == old(game.races)
      ensures e.Tick? && e.iteration == iteration && e.actions == actions && e.physics == physics
      ensures Legal(old(game.View()), e) && game.View() == Next(old(game.View()), e) && out == Sent(old(game.View()), e)
      ensures game.city.physicsWorld.View() ==
                WorldNext(game.city.View(), old(game.View()), old(game.city.physicsWorld.View()), e)
    {
      ghost var m := game.View();
      var acks := ProcesarActiones(actions);
      var rest, current, total := UpdateAndBroadcast(iteration, physics);
      e := Tick(iteration, actions, physics, current, total);
      TickIsLegal(m, e);
      TickIsSent(m, e);
      out := acks + rest;
    }

    /** The loop itself, for as many ticks as there are inputs.  A match that begins with its first
        race is over when the inputs outnumber its budget of ticks. */
    method Run(inputs: seq<TickInput>) returns (out: seq<Broadcast>, ghost es: seq<Event>)
      requires Ready() && HasSpots()
      modifies game, game.races, game.marketPhase, game.marketPhase.market, game.results, game.city.physicsWorld
      ensures Ready() && Matches.Run(old(game.View()), es) && Ticks(es) == |es| == |inputs|
      ensures game.View() == After(old(game.View()), es) && out == Trace(old(game.View()), es)
      ensures old(Arena(game.View(), game.city.physicsWorld.View())) ==> Arena(game.View(), game.city.physicsWorld.View())
      ensures AtFirstLine(old(game.View())) && |inputs| >= |game.races| * 36000 + (|game.races| - 1) * 1800 ==>
                game.state.GameOver?
    {
      ghost var m, w := game.View(), game.city.physicsWorld.View();
      out, es := [], [];
      for k := 0 to |inputs|
        invariant Ready() && HasSpots() && game.races == old(game.races) && |es| == k == Ticks(es)
        invariant Matches.Run(m, es) && game.View() == After(m, es) && out == Trace(m, es)
        invariant game.city.View() == old(game.city.View())
        invariant game.city.physicsWorld.View() == WorldAfter(game.city.View(), m, w, es)
      {
        var sent, e := FuncTick(inputs[k].iteration, inputs[k].actions, inputs[k].physics);
        assert (es + [e])[..|es|] == es;
        es, out := es + [e], out + sent;
      }
      if Arena(m, w) {
        BodiesFollowTheRace(game.city.View(), m, w, es);
      }
      if AtFirstLine(m) && |inputs| >= |game.races| * 36000 + (|game.races| - 1) * 1800 {
        EveryMatchEnds(m, es);
      }
    }
  }

  lemma PhaseIsAnnounced(m: Match, m': Match, starts: bool, any: bool, opens: bool, ends: bool,
                         current: seq<CurrentResult>, total: seq<TotalResult>, out: seq<Broadcast>)
    requires starts == (m.phase.Marketplace? && m'.phase.Racing?) && any == (opens || ends)
    requires opens == (m.phase.Racing? && m'.phase.Marketplace?) && ends == (m.phase.Racing? && m'.phase.GameOver?)
    requires out == (if starts then [RaceStart] else []) + (if any then [Results(current)] else [])
                    + (if opens then [MarketInit(Balances(m'))] else []) + if ends then [ResultsTotal(total)] else []
    ensures out == Announced(m, m', current, total)
  {
  }

  /** What a tick that ends a race announces are its results. */
  ghost predicate AnnouncesTruly(m: Match, physics: PhysicsReport, current: seq<CurrentResult>, total: seq<TotalResult>) {
    EndsRace(m, physics) ==>
      var race := RaceAfter(m.race, TickSteps(physics));
      && IsCurrent(current, Registered(m.players, race, m.infos), race, m.infos)
      && (Update(m, physics).phase.GameOver? ==> IsTotals(total, Update(m, physics).players))
  }

  lemma TickIsLegal(m: Match, e: Event)
    requires e.Tick? && AnnouncesTruly(ActAll(m, e.actions), e.physics, e.current, e.total)
    ensures Legal(m, e) && Next(m, e) == Update(ActAll(m, e.actions), e.physics)
  {
  }

  lemma TickIsSent(m: Match, e: Event)
    requires e.Tick?
    ensures var m1 := ActAll(m, e.actions);
            var m' := Update(m1, e.physics);
            Sent(m, e) == AckAll(m, e.actions) + (Announced(m1, m', e.current, e.total) + Heartbeat(m', e.iteration))
  {
    var m1 := ActAll(m, e.actions);
    var m' := Update(m1, e.physics);
    Associative(AckAll(m, e.actions), Announced(m1, m', e.current, e.total), Heartbeat(m', e.iteration));
  }

  ghost predicate AtFirstLine(m: Match) { m.phase.Racing? && m.index == 0 && m.race.duration == 0 }

  lemma RacingEnds(m: Match, physics: PhysicsReport)
    requires WellFormed(m)
    ensures EndsRace(m, physics) <==> m.phase.Racing? && (Update(m, physics).phase.Marketplace? || Update(m, physics).phase.GameOver?)
  {
  }
}
