/** Orders and positions: the sorts of server/game/race.cpp and server/game/result.cpp. */
module Rankings {
  import opened Players
  import opened Sorting

  // ------------------------------------------------------------------ by time

  datatype Timed = Timed(player: PlayerId, time: nat)

  predicate Sooner(a: Timed, b: Timed) { a.time < b.time }

  /** One entry per player, in any order. */
  ghost predicate Lists(es: seq<Timed>, times: map<PlayerId, nat>) {
    && |es| == |times|
    && (forall i | 0 <= i < |es| :: es[i].player in times && es[i].time == times[es[i].player])
    && (forall i, j | 0 <= i < j < |es| :: es[i].player != es[j].player)
    && (forall p | p in times :: exists i :: 0 <= i < |es| && es[i].player == p)
  }

  /** One entry per player, earliest first, ties in any order. */
  ghost predicate ByTime(es: seq<Timed>, times: map<PlayerId, nat>) {
    Lists(es, times) && forall i, j | 0 <= i < j < |es| :: es[i].time <= es[j].time
  }

  lemma ListsOneMore(es: seq<Timed>, times: map<PlayerId, nat>, todo: set<PlayerId>, p: PlayerId)
    requires p in todo && p in times && Lists(es, times - todo)
    ensures Lists(es + [Timed(p, times[p])], times - (todo - {p}))
  {
    assert times - (todo - {p}) == (times - todo)[p := times[p]];
    ListsAdds(es, times - todo, p, times[p]);
  }

  lemma ListsAdds(es: seq<Timed>, times: map<PlayerId, nat>, p: PlayerId, time: nat)
    requires p !in times && Lists(es, times)
    ensures Lists(es + [Timed(p, time)], times[p := time])
  {
    var es', times' := es + [Timed(p, time)], times[p := time];
    OneKeyMore(times, p, time);
    assert es'[|es|].player == p;
    forall q | q in times
      ensures exists i :: 0 <= i < |es'| && es'[i].player == q
    {
      var i :| 0 <= i < |es| && es[i].player == q;
      assert es'[i].player == q;
    }
  }

  lemma OneKeyMore<K, V>(m: map<K, V>, k: K, v: V)
    requires k !in m
    ensures |m[k := v]| == |m| + 1
  {
    assert m[k := v].Keys == m.Keys + {k};
    assert |m[k := v].Keys| == |m.Keys| + 1;
  }

  lemma SortedLists(es: seq<Timed>, sorted: seq<Timed>, times: map<PlayerId, nat>)
    requires Lists(es, times) && multiset(sorted) == multiset(es) && Ordered(sorted, Sooner)
    ensures ByTime(sorted, times)
  {
    PermutationKeeps(es, sorted);
    forall i | 0 <= i < |sorted|
      ensures sorted[i] in es
    {
      assert sorted[i] in sorted;
    }
    forall i, j | 0 <= i < j < |sorted|
      ensures sorted[i].player != sorted[j].player && sorted[i].time <= sorted[j].time
    {
      assert sorted[i] in es && sorted[j] in es && sorted[i] != sorted[j];
      assert !Sooner(sorted[j], sorted[i]);
    }
    forall p | p in times
      ensures exists i :: 0 <= i < |sorted| && sorted[i].player == p
    {
      var k :| 0 <= k < |es| && es[k].player == p;
      assert es[k] in sorted;
      var i :| 0 <= i < |sorted| && sorted[i] == es[k];
      assert sorted[i].player == p;
    }
  }

  method CollectTimes(times: map<PlayerId, nat>) returns (es: seq<Timed>)
    ensures Lists(es, times)
  {
    es := [];
    var todo := times.Keys;
    while todo != {}
      invariant todo <= times.Keys
      invariant Lists(es, times - todo)
    {
      var p :| p in todo;
      ListsOneMore(es, times, todo, p);
      todo := todo - {p};
      es := es + [Timed(p, times[p])];
    }
    assert times - todo == times;
  }

  method SortByTime(times: map<PlayerId, nat>) returns (order: seq<Timed>)
    ensures ByTime(order, times)
  {
    var es := CollectTimes(times);
    order := Sort(es, Sooner);
    SortedLists(es, order, times);
  }

  // ------------------------------------------------------------------ live positions

  datatype RankInfo = RankInfo(player: PlayerId, checkpointsDone: nat, distance: real)

  /** The position with which a disqualified player enters the ranking. */
  const NO_POSITION: nat := 65535

  /** What a tick message says of a player's position. */
  datatype TickInfo = TickInfo(player: PlayerId, position: nat)

  predicate CompareRank(a: RankInfo, b: RankInfo) {
    if a.checkpointsDone != b.checkpointsDone then a.checkpointsDone > b.checkpointsDone
    else a.distance < b.distance
  }

  /** More checkpoints passed, or as many and nearer to the next. */
  ghost predicate Leads(a: RankInfo, b: RankInfo) {
    || a.checkpointsDone > b.checkpointsDone
    || (a.checkpointsDone == b.checkpointsDone && a.distance < b.distance)
  }

  lemma CompareRankIsStrictWeakOrder()
    ensures StrictWeakOrder(CompareRank)
  {
  }

  ghost predicate SamePlayers(ticks: seq<TickInfo>, ranking: seq<RankInfo>) {
    && |ticks| == |ranking|
    && (forall i | 0 <= i < |ticks| :: ticks[i].player == ranking[i].player)
    && (forall i, j | 0 <= i < j < |ranking| :: ranking[i].player != ranking[j].player)
  }

  /** The first `k` of `sorted` have been given the positions 1..k. */
  ghost predicate Placed(ticks: seq<TickInfo>, sorted: seq<RankInfo>, k: nat) {
    forall i, j {:trigger sorted[i], ticks[j]} | 0 <= i < |sorted| && i < k && 0 <= j < |ticks| && sorted[i].player == ticks[j].player ::
      ticks[j].position == i + 1
  }

  /** Writes `position` on the first tick of `player`, if there is one. */
  method SetPosition(ticks: seq<TickInfo>, player: PlayerId, position: nat) returns (placed: seq<TickInfo>)
    requires forall i, j | 0 <= i < j < |ticks| :: ticks[i].player != ticks[j].player
    ensures |placed| == |ticks|
    ensures forall i | 0 <= i < |ticks| ::
              placed[i] == if ticks[i].player == player then TickInfo(player, position) else ticks[i]
  {
    placed := ticks;
    for j := 0 to |ticks|
      invariant placed == ticks && forall k | 0 <= k < j :: ticks[k].player != player
    {
      if placed[j].player == player {
        placed := placed[j := placed[j].(position := position)];
        break;
      }
    }
  }

  /** Positions are 1..n, each taken once; who has passed more checkpoints has the smaller one, and with as many
      passed, who is nearer to the next.
      A disqualified player's 65535 does not survive: it is placed like everybody else. */
  method CalculateRankingPositions(ticks: seq<TickInfo>, ranking: seq<RankInfo>) returns (placed: seq<TickInfo>)
    requires SamePlayers(ticks, ranking)
    ensures |placed| == |ticks| && forall i | 0 <= i < |ticks| :: placed[i].player == ticks[i].player
    ensures forall i | 0 <= i < |placed| :: 1 <= placed[i].position <= |placed|
    ensures forall i, j | 0 <= i < j < |placed| :: placed[i].position != placed[j].position
    ensures forall i, j | 0 <= i < |placed| && 0 <= j < |placed| && Leads(ranking[i], ranking[j]) ::
              placed[i].position < placed[j].position
  {
    CompareRankIsStrictWeakOrder();
    var sorted := Sort(ranking, CompareRank);
    SortedKeepsPlayers(ranking, sorted);
    placed := ticks;
    for i := 0 to |sorted|
      invariant |placed| == |ticks| && forall j | 0 <= j < |ticks| :: placed[j].player == ticks[j].player
      invariant Placed(placed, sorted, i)
    {
      placed := SetPosition(placed, sorted[i].player, i + 1);
    }
    PlacedInOrder(ranking, sorted, placed);
  }

  lemma SortedKeepsPlayers(ranking: seq<RankInfo>, sorted: seq<RankInfo>)
    requires multiset(sorted) == multiset(ranking)
    requires forall i, j | 0 <= i < j < |ranking| :: ranking[i].player != ranking[j].player
    ensures |sorted| == |ranking| && forall x :: x in ranking <==> x in sorted
    ensures forall i, j | 0 <= i < j < |sorted| :: sorted[i].player != sorted[j].player
  {
    PermutationKeeps(ranking, sorted);
    forall i, j | 0 <= i < j < |sorted|
      ensures sorted[i].player != sorted[j].player
    {
      assert sorted[i] in ranking && sorted[j] in ranking && sorted[i] != sorted[j];
    }
  }

  lemma PlacedInOrder(ranking: seq<RankInfo>, sorted: seq<RankInfo>, placed: seq<TickInfo>)
    requires |placed| == |ranking| == |sorted| && Ordered(sorted, CompareRank)
    requires forall i | 0 <= i < |placed| :: placed[i].player == ranking[i].player
    requires forall i, j | 0 <= i < j < |ranking| :: ranking[i].player != ranking[j].player
    requires forall x :: x in ranking <==> x in sorted
    requires Placed(placed, sorted, |sorted|)
    ensures forall i | 0 <= i < |placed| :: 1 <= placed[i].position <= |placed| && sorted[placed[i].position - 1] == ranking[i]
    ensures forall i, j | 0 <= i < j < |placed| :: placed[i].position != placed[j].position
    ensures forall i, j | 0 <= i < |placed| && 0 <= j < |placed| && CompareRank(ranking[i], ranking[j]) ::
              placed[i].position < placed[j].position
  {
    forall i | 0 <= i < |placed|
      ensures 1 <= placed[i].position <= |placed| && sorted[placed[i].position - 1] == ranking[i]
    {
      assert ranking[i] in sorted;
      var k :| 0 <= k < |sorted| && sorted[k] == ranking[i];
      assert sorted[k].player == placed[i].player;
    }
    forall i, j | 0 <= i < |placed| && 0 <= j < |placed| && CompareRank(ranking[i], ranking[j])
      ensures placed[i].position < placed[j].position
    {
      var a, b := placed[i].position - 1, placed[j].position - 1;
      assert sorted[a] == ranking[i] && sorted[b] == ranking[j];
    }
  }
}
