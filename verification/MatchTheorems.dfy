/** What holds over every run of a match, whatever the players and the physics engine do. */
module MatchTheorems {
  import opened Sequences
  import opened Players
  import opened Rankings
  import opened Races
  import opened Markets
  import opened Matches

  ghost function Before(es: seq<Event>): seq<Event>
    requires es != []
  {
    es[..|es| - 1]
  }

  lemma NextKeepsRoster(m: Match, e: Event)
    requires WellFormed(m)
    ensures Next(m, e).tracks == m.tracks && Next(m, e).players.Keys <= m.players.Keys
    ensures e.Tick? ==> Next(m, e).players.Keys == m.players.Keys
    ensures forall p | p in Next(m, e).players :: Next(m, e).players[p].base == m.players[p].base
  {
    if e.Tick? {
      ActAllKeepsWellFormed(m, e.actions);
    }
  }

  // ------------------------------------------------------------------ the phase diagram

  /** How a tick may move a match from phase to phase.  From the market there is always a next race:
      the branch of finish_market_phase for a match with no race left is never taken. */
  ghost predicate Moves(m: Match, m': Match) {
    && m'.tracks == m.tracks
    && match m.phase
       case Lobby => false
       case GameOver => m'.phase.GameOver? && m'.index == m.index
       case Racing =>
         && m'.index == m.index < |m.tracks|
         && (m'.phase.Racing? ==> m'.race.duration == m.race.duration + 1 < MAX_DURATION)
         && (m'.phase.Marketplace? ==> m.index + 1 < |m.tracks| && m'.timeRemaining == MARKET_DURATION)
         && (m'.phase.GameOver? ==> m.index + 1 == |m.tracks|)
         && !m'.phase.Lobby?
       case Marketplace =>
         && m.index + 1 < |m.tracks|
         && if m.timeRemaining > 1
            then m'.phase.Marketplace? && m'.index == m.index && m'.timeRemaining == m.timeRemaining - 1
            else m'.phase.Racing? && m'.index == m.index + 1 && m'.race.duration == 0
  }

  lemma UpdateMoves(m: Match, physics: PhysicsReport)
    requires WellFormed(m) && !m.phase.Lobby?
    ensures Moves(m, Update(m, physics))
    ensures m.phase.Racing? ==> (EndsRace(m, physics) <==> !Update(m, physics).phase.Racing?)
  {
    if m.phase.Racing? {
      TickOfRace(m.race, physics);
    }
  }

  lemma TickMoves(m: Match, e: Event)
    requires WellFormed(m) && !m.phase.Lobby? && e.Tick?
    ensures Moves(m, Next(m, e))
    ensures m.phase.Racing? ==> (EndsRace(ActAll(m, e.actions), e.physics) <==> !Next(m, e).phase.Racing?)
  {
    ActAllKeepsWellFormed(m, e.actions);
    ActAllTakesNoTime(m, e.actions);
    UpdateMoves(ActAll(m, e.actions), e.physics);
  }

  lemma {:induction false} ActAllTakesNoTime(m: Match, acts: seq<Action>)
    ensures ActAll(m, acts).race.duration == m.race.duration
    decreases |acts|
  {
    if acts != [] {
      ActAllTakesNoTime(m, acts[..|acts| - 1]);
    }
  }

  // ------------------------------------------------------------------ termination

  /** Ticks that the match may still take: what is left of the current phase, and all of the later ones. */
  ghost function Budget(m: Match): int {
    match m.phase
    case Racing => MAX_DURATION - m.race.duration + (|m.tracks| - 1 - m.index) * (MAX_DURATION + MARKET_DURATION)
    case Marketplace => m.timeRemaining + MAX_DURATION + (|m.tracks| - 2 - m.index) * (MAX_DURATION + MARKET_DURATION)
    case _ => 0
  }

  /** The budget is used up exactly when the match is over. */
  ghost predicate BudgetIsLeft(m: Match) {
    !m.phase.Lobby? && Budget(m) >= 0 && (Budget(m) == 0 <==> m.phase.GameOver?)
  }

  function Ticks(es: seq<Event>): nat {
    if es == [] then 0 else Ticks(es[..|es| - 1]) + if es[|es| - 1].Tick? then 1 else 0
  }

  /** Every move spends at least one tick of the budget, and exactly one unless it ends a race early. */
  lemma MoveSpends(m: Match, m': Match)
    requires Moves(m, m') && BudgetIsLeft(m) && !m.phase.GameOver?
    requires m.phase.Racing? ==> m.race.duration < MAX_DURATION
    requires m.phase.Marketplace? ==> m.timeRemaining >= 1
    ensures BudgetIsLeft(m') && Budget(m') <= Budget(m) - 1
    ensures (m.phase.Racing? && !m'.phase.Racing? ==> m.race.duration + 1 == MAX_DURATION) ==> Budget(m') == Budget(m) - 1
  {
  }

  /** No run can outlast its budget. */
  lemma {:induction false} BudgetRunsOut(m: Match, es: seq<Event>)
    requires WellFormed(m) && BudgetIsLeft(m) && Run(m, es)
    ensures BudgetIsLeft(After(m, es))
    ensures After(m, es).phase.GameOver? || Budget(After(m, es)) + Ticks(es) <= Budget(m)
    decreases |es|
  {
    if es != [] {
      BudgetRunsOut(m, Before(es));
      RunKeepsWellFormed(m, Before(es));
      EventSpends(After(m, Before(es)), es[|es| - 1]);
    }
  }

  lemma EventSpends(m: Match, e: Event)
    requires WellFormed(m) && BudgetIsLeft(m)
    ensures BudgetIsLeft(Next(m, e))
    ensures Budget(Next(m, e)) <= Budget(m) - if e.Tick? && !m.phase.GameOver? then 1 else 0
  {
    if e.Tick? {
      TickMoves(m, e);
      if !m.phase.GameOver? {
        MoveSpends(m, Next(m, e));
      }
    }
  }

  /** How long a match can take from the start of its race `index` on, in ticks: ten minutes for each race left
      and thirty seconds for each market between them. */
  function Longest(tracks: nat, index: nat): (n: nat)
    requires index < tracks
    ensures index == 0 ==> n == tracks * 36000 + (tracks - 1) * 1800
  {
    (tracks - index) * 36000 + (tracks - index - 1) * 1800
  }

  /** A match at the start of any of its races is over after as many ticks at the latest, and stands at its last
      race then. */
  lemma EveryMatchEnds(m: Match, es: seq<Event>)
    requires WellFormed(m) && m.phase.Racing? && m.race.duration == 0 && Run(m, es)
    requires Ticks(es) >= Longest(|m.tracks|, m.index)
    ensures After(m, es).phase.GameOver? && After(m, es).index == |m.tracks| - 1 && After(m, es).tracks == m.tracks
  {
    FullBudget(m);
    BudgetRunsOut(m, es);
    RunKeepsWellFormed(m, es);
    RunKeepsRoster(m, es);
  }

  lemma FullBudget(m: Match)
    requires m.phase.Racing? && m.index < |m.tracks| && m.race.duration == 0
    ensures BudgetIsLeft(m) && Budget(m) == Longest(|m.tracks|, m.index)
  {
  }

  // ------------------------------------------------------------------ the language of broadcasts

  datatype Kind = KMapInfo | KResults | KMarketInit | KMarketTime | KRaceStart | KResultsTotal

  /** The broadcasts by kind, without the acknowledgements of improvement requests. */
  ghost function Kinds(bs: seq<Broadcast>): seq<Kind> {
    if bs == [] then [] else Kinds(bs[..|bs| - 1]) + KindOf(bs[|bs| - 1])
  }

  function KindOf(b: Broadcast): seq<Kind> {
    match b
    case ImprovementAck(_, _, _, _, _) => []
    case RaceStart => [KRaceStart]
    case Results(_) => [KResults]
    case MarketInit(_) => [KMarketInit]
    case ResultsTotal(_) => [KResultsTotal]
    case MapInfo(_) => [KMapInfo]
    case MarketTime(_) => [KMarketTime]
  }

  lemma KindsOfOneOrTwo(a: Broadcast, b: Broadcast)
    ensures Kinds([a]) == KindOf(a) && Kinds([a, b]) == KindOf(a) + KindOf(b)
  {
    assert [a, b][..1] == [a] && [a][..0] == [];
  }

  lemma {:induction false} KindsOfSum(a: seq<Broadcast>, b: seq<Broadcast>)
    ensures Kinds(a + b) == Kinds(a) + Kinds(b)
    decreases |b|
  {
    if b == [] {
      assert a + b == a;
    } else {
      KindsOfSum(a, b[..|b| - 1]);
      assert b == b[..|b| - 1] + [b[|b| - 1]];
      Associative(a, b[..|b| - 1], [b[|b| - 1]]);
      KindsOfOneMore(a + b[..|b| - 1], b[|b| - 1]);
      Associative(Kinds(a), Kinds(b[..|b| - 1]), KindOf(b[|b| - 1]));
    }
  }

  lemma KindsOfOneMore(bs: seq<Broadcast>, b: Broadcast)
    ensures Kinds(bs + [b]) == Kinds(bs) + KindOf(b)
  {
    assert (bs + [b])[..|bs|] == bs;
  }

  lemma {:induction false} AcksHaveNoKind(m: Match, acts: seq<Action>)
    ensures Kinds(AckAll(m, acts)) == []
    decreases |acts|
  {
    if acts != [] {
      var n := |acts| - 1;
      AcksHaveNoKind(m, acts[..n]);
      var last := Ack(ActAll(m, acts[..n]), acts[n]);
      KindsOfSum(AckAll(m, acts[..n]), last);
      assert |last| == 1 ==> last[..0] == [];
    }
  }

  function Repeat(k: Kind, n: nat): (r: seq<Kind>)
    ensures |r| == n && forall i | 0 <= i < n :: r[i] == k
  {
    seq(n, _ => k)
  }

  /** What is heard of the first races and the markets after them, with maps[i] map messages in race
      i and times[i] clock messages in market i. */
  ghost function Rounds(maps: seq<nat>, times: seq<nat>): seq<Kind>
    requires |maps| == |times|
  {
    if maps == [] then []
    else
      var n := |maps| - 1;
      Rounds(maps[..n], times[..n]) + Repeat(KMapInfo, maps[n]) + [KResults, KMarketInit]
      + Repeat(KMarketTime, times[n]) + [KRaceStart]
  }

  /** `w` is the word that a match begun at race `first` and now in state `m` must have sent, for some number of
      messages a phase. */
  ghost predicate Spells(w: seq<Kind>, m: Match, first: nat, maps: seq<nat>, times: seq<nat>) {
    match m.phase
    case Lobby => false
    case Racing =>
      && |maps| + first == m.index + 1 && |times| + 1 == |maps|
      && w == Rounds(maps[..|times|], times) + Repeat(KMapInfo, maps[|times|])
    case Marketplace =>
      && |maps| + first == m.index + 1 && |times| == |maps| > 0
      && w == Rounds(maps[..|maps| - 1], times[..|maps| - 1]) + Repeat(KMapInfo, maps[|maps| - 1])
              + [KResults, KMarketInit] + Repeat(KMarketTime, times[|maps| - 1])
    case GameOver =>
      && |maps| + first == |m.tracks| && |times| + 1 == |maps|
      && w == Rounds(maps[..|times|], times) + Repeat(KMapInfo, maps[|times|]) + [KResults, KResultsTotal]
  }

  /** The broadcasts of every run spell MapInfo* (Results MarketInit MarketTime* RaceStart MapInfo*)^k,
      cut off in the middle of the current phase, and a finished match of n races has spelt exactly
      MapInfo* (Results MarketInit MarketTime* RaceStart MapInfo*)^(n-1) Results ResultsTotal. */
  lemma {:induction false} BroadcastsSpellTheMatch(m: Match, es: seq<Event>) returns (maps: seq<nat>, times: seq<nat>)
    requires WellFormed(m) && m.phase.Racing? && Run(m, es)
    ensures Spells(Kinds(Trace(m, es)), After(m, es), m.index, maps, times)
    ensures After(m, es).phase.GameOver? ==> |maps| == |m.tracks| - m.index
    decreases |es|
  {
    if es == [] {
      maps, times := [0], [];
    } else {
      maps, times := BroadcastsSpellTheMatch(m, Before(es));
      RunKeepsWellFormed(m, Before(es));
      RunKeepsRoster(m, es);
      var e := es[|es| - 1];
      var before, w := After(m, Before(es)), Kinds(Trace(m, Before(es)));
      KindsOfSum(Trace(m, Before(es)), Sent(before, e));
      maps, times := EventSpells(before, m.index, e, w, maps, times);
    }
  }

  lemma {:induction false} RunKeepsRoster(m: Match, es: seq<Event>)
    requires WellFormed(m) && Run(m, es)
    ensures After(m, es).tracks == m.tracks && After(m, es).players.Keys <= m.players.Keys
    ensures forall p | p in After(m, es).players :: After(m, es).players[p].base == m.players[p].base
    decreases |es|
  {
    if es != [] {
      RunKeepsRoster(m, Before(es));
      RunKeepsWellFormed(m, Before(es));
      NextKeepsRoster(After(m, Before(es)), es[|es| - 1]);
    }
  }

  /** What is announced when the phase changes, and the clock message of a phase. */
  function News(from: GameState, to: GameState): seq<Kind> {
    if from.Marketplace? && to.Racing? then [KRaceStart]
    else if from.Racing? && to.Marketplace? then [KResults, KMarketInit]
    else if from.Racing? && to.GameOver? then [KResults, KResultsTotal]
    else []
  }

  function Beat(phase: GameState, n: nat): seq<Kind> {
    if phase.Racing? then Repeat(KMapInfo, n) else if phase.Marketplace? then Repeat(KMarketTime, n) else []
  }

  lemma KindsOfTick(m: Match, e: Event)
    requires WellFormed(m) && e.Tick?
    ensures Kinds(Sent(m, e)) == News(m.phase, Next(m, e).phase) + Beat(Next(m, e).phase, if e.iteration % 2 == 0 then 1 else 0)
  {
    ActAllKeepsWellFormed(m, e.actions);
    var m1 := ActAll(m, e.actions);
    var m' := Next(m, e);
    var a, b, c := AckAll(m, e.actions), Announced(m1, m', e.current, e.total), Heartbeat(m', e.iteration);
    KindsOfSum(a + b, c);
    KindsOfSum(a, b);
    AcksHaveNoKind(m, e.actions);
    KindsOfAnnounced(m1, m', e.current, e.total);
    KindsOfHeartbeat(m', e.iteration);
    assert [] + Kinds(b) == Kinds(b);
  }

  lemma KindsOfAnnounced(m: Match, m': Match, current: seq<CurrentResult>, total: seq<TotalResult>)
    ensures Kinds(Announced(m, m', current, total)) == News(m.phase, m'.phase)
  {
    KindsOfOneOrTwo(Results(current), MarketInit(Balances(m')));
    KindsOfOneOrTwo(Results(current), ResultsTotal(total));
    KindsOfOneOrTwo(RaceStart, RaceStart);
  }

  lemma KindsOfHeartbeat(m: Match, iteration: nat)
    ensures Kinds(Heartbeat(m, iteration)) == Beat(m.phase, if iteration % 2 == 0 then 1 else 0)
  {
    KindsOfOneOrTwo(MapInfo(RaceSeconds(m.race.duration)), MarketTime(MarketSeconds(m.timeRemaining)));
    KindsOfOneOrTwo(MarketTime(MarketSeconds(m.timeRemaining)), RaceStart);
  }

  lemma RepeatMore(k: Kind, n: nat, beat: nat)
    ensures Repeat(k, n + beat) == Repeat(k, n) + Repeat(k, beat)
  {
  }

  /** Adds what one move sends to the word spelt so far. */
  lemma MoveSpells(m: Match, m': Match, first: nat, w: seq<Kind>, maps: seq<nat>, times: seq<nat>, beat: nat)
    returns (maps': seq<nat>, times': seq<nat>)
    requires Moves(m, m') && Spells(w, m, first, maps, times)
    ensures Spells(w + (News(m.phase, m'.phase) + Beat(m'.phase, beat)), m', first, maps', times')
  {
    maps', times' := maps, times;
    var n := |maps| - 1;
    assert w + (News(m.phase, m'.phase) + Beat(m'.phase, beat)) == w + News(m.phase, m'.phase) + Beat(m'.phase, beat);
    if m.phase.Racing? && m'.phase.Racing? {
      maps' := maps[n := maps[n] + beat];
      assert maps'[..n] == maps[..n];
      RepeatMore(KMapInfo, maps[n], beat);
    } else if m.phase.Racing? && m'.phase.Marketplace? {
      times' := times + [beat];
      assert times'[..n] == times;
    } else if m.phase.Marketplace? && m'.phase.Racing? {
      maps' := maps + [beat];
      assert maps'[..|times|] == maps;
    } else if m.phase.Marketplace? {
      times' := times[n := times[n] + beat];
      assert times'[..n] == times[..n];
      RepeatMore(KMarketTime, times[n], beat);
    }
  }

  lemma EventSpells(m: Match, first: nat, e: Event, w: seq<Kind>, maps: seq<nat>, times: seq<nat>)
    returns (maps': seq<nat>, times': seq<nat>)
    requires WellFormed(m) && Spells(w, m, first, maps, times)
    ensures Spells(w + Kinds(Sent(m, e)), Next(m, e), first, maps', times')
  {
    if e.Tick? {
      var beat := if e.iteration % 2 == 0 then 1 else 0;
      TickMoves(m, e);
      KindsOfTick(m, e);
      maps', times' := MoveSpells(m, Next(m, e), first, w, maps, times, beat);
    } else {
      maps', times' := maps, times;
      assert w + [] == w;
    }
  }
}
