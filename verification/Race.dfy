/** One race: server/game/race.cpp.  Time is counted in ticks of 1/60 s, the server's step. */
module Races {
  import opened Wrappers
  import opened Players
  import opened Rankings
  import opened MapConfigs
  import opened PhysicsWorlds
  import opened Grids

  const MAX_DURATION: nat := 600 * TICKS_PER_SECOND

  datatype ParticipantState = Active | Disconnected | Disqualified | Finished

  datatype Participant = Participant(state: ParticipantState, current: nat, next: nat, finishTime: nat)

  datatype Track = Track(routeId: string, checkpointCount: nat)

  /** `cars` gives the remaining health of every car that exists. */
  datatype RaceState = RaceState(track: Track, duration: nat, finished: bool,
                                 parts: map<PlayerId, Participant>, cars: map<PlayerId, real>)

  /** What can happen to a race.  Physics is free: it may set any health and report any crossing. */
  datatype RaceStep =
    | Physics(health: map<PlayerId, real>)
    | Crossing(routeId: string, player: PlayerId, checkpoint: nat)
    | Advance(dt: nat)
    | Leave(player: PlayerId)
    | CheatWin(player: PlayerId)

  const NEWCOMER := Participant(Active, 0, 0, 0)

  function Fresh(track: Track): RaceState { RaceState(track, 0, false, map[], map[]) }

  ghost predicate NoneActive(r: RaceState) { forall p | p in r.parts :: !r.parts[p].state.Active? }

  function AddParticipant(r: RaceState, p: PlayerId, life: real): RaceState {
    r.(parts := r.parts[p := NEWCOMER], cars := r.cars[p := life])
  }

  /** The outcome of advance_time for one participant, given whether it is out of health and
      whether the race is out of time. */
  function Settle(a: Participant, out: bool, now: nat): Participant {
    if a.state.Active? && out then a.(state := Disqualified, finishTime := now) else a
  }

  predicate Wrecked(r: RaceState, p: PlayerId) {
    p in r.parts && r.parts[p].state.Active? && p in r.cars && r.cars[p] <= 0.0
  }

  /** Everybody's outcome of one advance_time, decided from the state before it alone. */
  ghost function PartsAfter(r: RaceState, dt: nat): map<PlayerId, Participant> {
    map p | p in r.parts :: Settle(r.parts[p], TimeUp(r, dt) || Wrecked(r, p), r.duration + dt)
  }

  predicate TimeUp(r: RaceState, dt: nat) { !r.finished && r.duration + dt >= MAX_DURATION }

  ghost function AdvanceTime(r: RaceState, dt: nat): RaceState {
    var parts := PartsAfter(r, dt);
    RaceState(r.track, r.duration + dt, r.finished || forall p | p in parts :: !parts[p].state.Active?,
              parts, map p | p in r.cars :: if Wrecked(r, p) then 0.0 else r.cars[p])
  }

  /** The three checks that the program runs one after the other. */
  ghost function HealthChecked(r: RaceState): RaceState {
    r.(parts := map p | p in r.parts :: Settle(r.parts[p], Wrecked(r, p), r.duration),
       cars := map p | p in r.cars :: if Wrecked(r, p) then 0.0 else r.cars[p])
  }

  ghost function CheckedBut(r: RaceState, todo: set<PlayerId>): RaceState {
    r.(parts := map p | p in r.parts :: Settle(r.parts[p], p !in todo && Wrecked(r, p), r.duration),
       cars := map p | p in r.cars :: if p !in todo && Wrecked(r, p) then 0.0 else r.cars[p])
  }

  lemma CheckOneMore(r: RaceState, todo: set<PlayerId>, p: PlayerId)
    requires p in todo && p in r.parts
    ensures var c := CheckedBut(r, todo);
            && c.parts[p] == r.parts[p] && (p in r.cars ==> c.cars[p] == r.cars[p]) && c.cars.Keys == r.cars.Keys
            && CheckedBut(r, todo - {p}) ==
                 if Wrecked(r, p)
                 then c.(parts := c.parts[p := c.parts[p].(state := Disqualified, finishTime := r.duration)],
                         cars := c.cars[p := 0.0])
                 else c
  {
    var c, c' := CheckedBut(r, todo), CheckedBut(r, todo - {p});
    if Wrecked(r, p) {
      assert c'.parts == c.parts[p := c.parts[p].(state := Disqualified, finishTime := r.duration)];
      assert c'.cars == c.cars[p := 0.0];
    } else {
      assert c'.parts == c.parts && c'.cars == c.cars;
    }
  }

  /** One turn of the loop over the participants. */
  lemma CheckTurn(r: RaceState, todo: set<PlayerId>, p: PlayerId, c: RaceState, c': RaceState)
    requires p in todo && p in r.parts && c == CheckedBut(r, todo)
    requires c' == if c.parts[p].state.Active? && p in c.cars && c.cars[p] <= 0.0
                   then c.(parts := c.parts[p := c.parts[p].(state := Disqualified, finishTime := c.duration)],
                           cars := c.cars[p := 0.0])
                   else c
    ensures c' == CheckedBut(r, todo - {p}) && c'.parts.Keys == r.parts.Keys
  {
    CheckOneMore(r, todo, p);
  }

  ghost function LimitChecked(r: RaceState): RaceState {
    if r.finished || r.duration < MAX_DURATION then r
    else r.(parts := map p | p in r.parts :: Settle(r.parts[p], true, r.duration), finished := true)
  }

  ghost function Evaluated(r: RaceState): RaceState { r.(finished := r.finished || NoneActive(r)) }

  lemma StagesMakeAdvance(r: RaceState, dt: nat, later: RaceState, checked: RaceState, limited: RaceState, r': RaceState)
    requires later == r.(duration := r.duration + dt)
    requires checked == HealthChecked(later) && limited == LimitChecked(checked) && r' == Evaluated(limited)
    ensures r' == Do(r, Advance(dt))
  {
    StagesAgreeOnParts(r, dt);
    assert checked.cars == AdvanceTime(r, dt).cars;
  }

  lemma StagesAgreeOnParts(r: RaceState, dt: nat)
    ensures LimitChecked(HealthChecked(r.(duration := r.duration + dt))).parts == PartsAfter(r, dt)
  {
    var r0 := r.(duration := r.duration + dt);
    assert forall p | p in r.parts :: Wrecked(r, p) == Wrecked(r0, p);
  }

  function Cross(r: RaceState, routeId: string, p: PlayerId, cp: nat): RaceState {
    if routeId != r.track.routeId || p !in r.parts || !r.parts[p].state.Active? || cp != r.parts[p].next then r
    else
      var a := r.parts[p].(current := cp, next := cp + 1);
      r.(parts := r.parts[p := if cp + 1 == r.track.checkpointCount
                               then a.(state := Finished, finishTime := r.duration) else a])
  }

  function RemoveParticipant(r: RaceState, p: PlayerId): RaceState {
    r.(parts := if p in r.parts then r.parts[p := r.parts[p].(state := Disconnected)] else r.parts,
       cars := r.cars - {p})
  }

  function WinByCheat(r: RaceState, p: PlayerId): RaceState {
    var n := r.track.checkpointCount;
    if p !in r.cars || p !in r.parts || !r.parts[p].state.Active? || n == 0 then r
    else r.(parts := r.parts[p := Participant(Finished, n - 1, n, r.duration)])
  }

  ghost function Do(r: RaceState, step: RaceStep): RaceState {
    match step
    case Physics(h) => r.(cars := map p | p in r.cars :: if p in h then h[p] else r.cars[p])
    case Crossing(id, p, cp) => Cross(r, id, p, cp)
    case Advance(dt) => AdvanceTime(r, dt)
    case Leave(p) => RemoveParticipant(r, p)
    case CheatWin(p) => WinByCheat(r, p)
  }

  ghost function RaceAfter(r: RaceState, steps: seq<RaceStep>): RaceState {
    if steps == [] then r else Do(RaceAfter(r, steps[..|steps| - 1]), steps[|steps| - 1])
  }

  // ------------------------------------------------------------------ the end of a race

  ghost predicate Consistent(r: RaceState) {
    && (r.finished ==> NoneActive(r))
    && (!r.finished ==> r.duration < MAX_DURATION)
    && (forall p | p in r.parts :: r.parts[p].finishTime <= r.duration)
  }

  /** After every advance_time the race is over if and only if nobody is active any more, and it is
      over at the latest when the time limit is reached. */
  lemma RaceEndIsExact(r: RaceState, dt: nat)
    requires Consistent(r)
    ensures var r' := AdvanceTime(r, dt);
            && Consistent(r')
            && (r'.finished <==> NoneActive(r'))
            && (r.duration + dt >= MAX_DURATION ==> r'.finished)
            && (forall p | p in r.parts && r.parts[p].state.Active? :: r'.parts[p].state ==
                  if Wrecked(r, p) || (!r.finished && r.duration + dt >= MAX_DURATION) then Disqualified else Active)
  {
  }

  lemma {:induction false} RaceKeepsParts(r: RaceState, steps: seq<RaceStep>)
    requires Consistent(r)
    ensures var r' := RaceAfter(r, steps); Consistent(r') && r'.track == r.track && r'.parts.Keys == r.parts.Keys
    decreases |steps|
  {
    if steps != [] {
      var before, last := RaceAfter(r, steps[..|steps| - 1]), steps[|steps| - 1];
      RaceKeepsParts(r, steps[..|steps| - 1]);
      if last.Advance? {
        RaceEndIsExact(before, last.dt);
      }
    }
  }

  /** Over any run nobody who stopped racing races again, and nobody's finish time moves once set. */
  lemma {:induction false} StoppedForGood(r: RaceState, steps: seq<RaceStep>, p: PlayerId)
    requires Consistent(r) && p in r.parts
    ensures Consistent(RaceAfter(r, steps)) && RaceAfter(r, steps).parts.Keys == r.parts.Keys
    ensures !r.parts[p].state.Active? ==>
              && !RaceAfter(r, steps).parts[p].state.Active?
              && RaceAfter(r, steps).parts[p].finishTime == r.parts[p].finishTime
    decreases |steps|
  {
    if steps != [] {
      var n := |steps| - 1;
      StoppedForGood(r, steps[..n], p);
      StepKeepsStopped(RaceAfter(r, steps[..n]), steps[n], p);
    }
  }

  lemma StepKeepsStopped(r: RaceState, step: RaceStep, p: PlayerId)
    requires Consistent(r) && p in r.parts
    ensures Consistent(Do(r, step)) && Do(r, step).parts.Keys == r.parts.Keys
    ensures !r.parts[p].state.Active? ==>
              && !Do(r, step).parts[p].state.Active?
              && Do(r, step).parts[p].finishTime == r.parts[p].finishTime
  {
    match step
    case Physics(_) =>
    case Crossing(_, _, _) =>
    case Advance(dt) => RaceEndIsExact(r, dt);
    case Leave(_) =>
    case CheatWin(_) =>
  }

  // ------------------------------------------------------------------ checkpoint progress

  /** The checkpoints of the race's own route that reach `p` while it is active, in order. */
  ghost function Delivered(r: RaceState, steps: seq<RaceStep>, p: PlayerId): seq<nat> {
    if steps == [] then []
    else
      var n := |steps| - 1;
      var before, last := RaceAfter(r, steps[..n]), steps[n];
      Delivered(r, steps[..n], p) +
      if last.Crossing? && last.player == p && last.routeId == r.track.routeId
         && p in before.parts && before.parts[p].state.Active?
      then [last.checkpoint] else []
  }

  /** 0, 1, ..., k - 1 is a subsequence of `d`: `at` says where each one is found. */
  ghost predicate Embeds(k: nat, d: seq<nat>, at: seq<int>) {
    && |at| == k
    && (forall i | 0 <= i < k :: 0 <= at[i] < |d| && d[at[i]] == i)
    && (forall i, j | 0 <= i < j < k :: at[i] < at[j])
  }

  /** `k` is the longest 0, 1, ..., k - 1 that is a subsequence of `d`. */
  ghost predicate LongestMatch(k: nat, d: seq<nat>) {
    (exists at :: Embeds(k, d, at)) && forall j: nat, at | Embeds(j, d, at) :: j <= k
  }

  lemma FirstNeedsRoom(k: nat, d: seq<nat>, at: seq<int>)
    requires Embeds(k, d, at)
    ensures k > 0 ==> |d| > 0
  {
    if k > 0 {
      assert at[0] < |d|;
    }
  }

  lemma MatchGrows(k: nat, d: seq<nat>, x: nat)
    requires LongestMatch(k, d)
    ensures LongestMatch(if x == k then k + 1 else k, d + [x])
  {
    var at :| Embeds(k, d, at);
    if x == k {
      assert Embeds(k + 1, d + [x], at + [|d|]);
    } else {
      assert Embeds(k, d + [x], at);
    }
    forall j: nat, f | Embeds(j, d + [x], f)
      ensures j <= if x == k then k + 1 else k
    {
      if j > 0 && f[j - 1] == |d| {
        assert Embeds(j - 1, d, f[..j - 1]);
      } else {
        assert Embeds(j, d, f);
      }
    }
  }

  ghost predicate NoCheat(steps: seq<RaceStep>) { forall i | 0 <= i < |steps| :: !steps[i].CheatWin? }

  /** Whatever physics reports, a participant's next checkpoint is the greedy, that is the longest,
      match of 0, 1, 2, ... in what was delivered to it while active; it finishes exactly when that
      match reaches the last checkpoint, and then nothing more is delivered. */
  lemma {:induction false} ProgressIsLongestMatch(r: RaceState, steps: seq<RaceStep>, p: PlayerId)
    requires p in r.parts && r.parts[p] == NEWCOMER && r.track.checkpointCount > 0 && NoCheat(steps)
    ensures var r' := RaceAfter(r, steps);
            && r'.track == r.track && p in r'.parts
            && LongestMatch(r'.parts[p].next, Delivered(r, steps, p))
            && r'.parts[p].next <= r.track.checkpointCount
            && (r'.parts[p].state.Finished? ==> r'.parts[p].next == r.track.checkpointCount)
            && (r'.parts[p].next == r.track.checkpointCount ==>
                  r'.parts[p].state.Finished? || r'.parts[p].state.Disconnected?)
    decreases |steps|
  {
    if steps == [] {
      assert Embeds(0, [], []);
      forall j: nat, at | Embeds(j, [], at)
        ensures j <= 0
      {
        FirstNeedsRoom(j, [], at);
      }
    } else {
      var n := |steps| - 1;
      ProgressIsLongestMatch(r, steps[..n], p);
      var d := Delivered(r, steps[..n], p);
      var last, before := steps[n], RaceAfter(r, steps[..n]);
      if Delivered(r, steps, p) != d + [] {
        MatchGrows(before.parts[p].next, d, last.checkpoint);
      }
      assert d + [] == d;
    }
  }

  /** A route with no checkpoints can never be finished by driving: delivering 0 moves past the end. */
  lemma {:induction false} EmptyRouteIsNeverFinished(r: RaceState, steps: seq<RaceStep>, p: PlayerId)
    requires p in r.parts && r.parts[p] == NEWCOMER && r.track.checkpointCount == 0 && NoCheat(steps)
    ensures var r' := RaceAfter(r, steps);
            r'.track == r.track && p in r'.parts && !r'.parts[p].state.Finished?
    decreases |steps|
  {
    if steps != [] {
      EmptyRouteIsNeverFinished(r, steps[..|steps| - 1], p);
    }
  }

  // ------------------------------------------------------------------ results

  datatype ResultEntry = ResultEntry(player: PlayerId, state: ParticipantState, finishTime: nat, position: nat)

  /** One entry per participant, numbered 1..n by finish time, ties in any order.  The state plays no
      part: a car wrecked early is placed ahead of one that finishes later. */
  ghost predicate IsRaceResult(es: seq<ResultEntry>, parts: map<PlayerId, Participant>) {
    && |es| == |parts|
    && (forall i | 0 <= i < |es| ::
          && es[i].player in parts
          && es[i].state == parts[es[i].player].state
          && es[i].finishTime == parts[es[i].player].finishTime
          && es[i].position == i + 1)
    && (forall i, j | 0 <= i < j < |es| :: es[i].player != es[j].player && es[i].finishTime <= es[j].finishTime)
    && (forall p | p in parts :: exists i :: 0 <= i < |es| && es[i].player == p)
  }

  lemma NumberedIsResult(order: seq<Timed>, es: seq<ResultEntry>, parts: map<PlayerId, Participant>, times: map<PlayerId, nat>)
    requires times.Keys == parts.Keys && forall p | p in parts :: times[p] == parts[p].finishTime
    requires ByTime(order, times) && |es| == |order|
    requires forall i | 0 <= i < |es| ::
               es[i] == ResultEntry(order[i].player, parts[order[i].player].state, order[i].time, i + 1)
    ensures IsRaceResult(es, parts)
  {
    assert |times.Keys| == |parts.Keys|;
    forall p | p in parts
      ensures exists i :: 0 <= i < |es| && es[i].player == p
    {
      var i :| 0 <= i < |order| && order[i].player == p;
      assert es[i].player == p;
    }
  }

  /** What a finished race publishes: nobody in it is still racing, and nobody took longer than the race
      did. */
  lemma ResultsAreSettled(r: RaceState, es: seq<ResultEntry>)
    requires Consistent(r) && r.finished && IsRaceResult(es, r.parts)
    ensures forall i | 0 <= i < |es| :: !es[i].state.Active? && es[i].finishTime <= r.duration
  {
    forall i | 0 <= i < |es|
      ensures !es[i].state.Active? && es[i].finishTime <= r.duration
    {
      assert es[i].player in r.parts;
    }
  }

  // ------------------------------------------------------------------ the live ranking

  /** A tick message shows whoever is still connected and has a body; the disqualified are among them. */
  ghost predicate Shown(r: RaceState, w: World, p: PlayerId) {
    p in r.parts && !r.parts[p].state.Disconnected? && p in w.bodies
  }

  /** Checkpoints passed, and the distance to the next one if there is one. */
  function RankOf(r: RaceState, distance: PlayerId -> real, p: PlayerId): RankInfo
    requires p in r.parts
  {
    var next := r.parts[p].next;
    RankInfo(p, next, if next < r.track.checkpointCount then distance(p) else 0.0)
  }

  /** The entries of those shown among `done`, once each, in the order of the ranking list. */
  ghost predicate Entries(ticks: seq<TickInfo>, ranking: seq<RankInfo>, r: RaceState, w: World, distance: PlayerId -> real,
                        done: set<PlayerId>) {
    && SamePlayers(ticks, ranking)
    && (forall i | 0 <= i < |ranking| ::
          ranking[i].player in done && Shown(r, w, ranking[i].player) && ranking[i] == RankOf(r, distance, ranking[i].player))
    && (forall p | p in done && Shown(r, w, p) :: exists i :: 0 <= i < |ranking| && ranking[i].player == p)
  }

  lemma ListsOneShown(ticks: seq<TickInfo>, ranking: seq<RankInfo>, r: RaceState, w: World, distance: PlayerId -> real,
                     done: set<PlayerId>, p: PlayerId, position: nat)
    requires Entries(ticks, ranking, r, w, distance, done) && p !in done && Shown(r, w, p)
    ensures Entries(ticks + [TickInfo(p, position)], ranking + [RankOf(r, distance, p)], r, w, distance, done + {p})
  {
    var ranking' := ranking + [RankOf(r, distance, p)];
    forall q | q in done + {p} && Shown(r, w, q)
      ensures exists i :: 0 <= i < |ranking'| && ranking'[i].player == q
    {
      if q in done {
        var i :| 0 <= i < |ranking| && ranking[i].player == q;
        assert ranking'[i].player == q;
      } else {
        assert ranking'[|ranking|].player == q;
      }
    }
  }

  lemma ListsOneHidden(ticks: seq<TickInfo>, ranking: seq<RankInfo>, r: RaceState, w: World, distance: PlayerId -> real,
                     done: set<PlayerId>, p: PlayerId)
    requires Entries(ticks, ranking, r, w, distance, done) && !Shown(r, w, p)
    ensures Entries(ticks, ranking, r, w, distance, done + {p})
  {
  }

  /** `p` has passed more checkpoints than `q`, or as many with one left, and is nearer to it. */
  ghost predicate Ahead(r: RaceState, distance: PlayerId -> real, p: PlayerId, q: PlayerId)
    requires p in r.parts && q in r.parts
  {
    || r.parts[p].next > r.parts[q].next
    || (r.parts[p].next == r.parts[q].next < r.track.checkpointCount && distance(p) < distance(q))
  }

  /** Everybody shown has one entry; the positions are 1..n, each given once; and who is ahead is placed ahead. */
  ghost predicate IsSnapshot(ticks: seq<TickInfo>, r: RaceState, w: World, distance: PlayerId -> real) {
    && (forall i | 0 <= i < |ticks| :: Shown(r, w, ticks[i].player) && 1 <= ticks[i].position <= |ticks|)
    && (forall p | Shown(r, w, p) :: exists i :: 0 <= i < |ticks| && ticks[i].player == p)
    && (forall i, j | 0 <= i < j < |ticks| ::
          ticks[i].player != ticks[j].player && ticks[i].position != ticks[j].position)
    && (forall i, j | 0 <= i < |ticks| && 0 <= j < |ticks| && Ahead(r, distance, ticks[i].player, ticks[j].player) ::
          ticks[i].position < ticks[j].position)
  }

  lemma PlacedIsSnapshot(placed: seq<TickInfo>, ranking: seq<RankInfo>, r: RaceState, w: World, distance: PlayerId -> real,
                         done: set<PlayerId>)
    requires Entries(placed, ranking, r, w, distance, done) && done == r.parts.Keys
    requires forall i | 0 <= i < |placed| :: 1 <= placed[i].position <= |placed|
    requires forall i, j | 0 <= i < j < |placed| :: placed[i].position != placed[j].position
    requires forall i, j | 0 <= i < |placed| && 0 <= j < |placed| && Leads(ranking[i], ranking[j]) ::
               placed[i].position < placed[j].position
    ensures IsSnapshot(placed, r, w, distance)
  {
    forall i, j | 0 <= i < |placed| && 0 <= j < |placed|
      ensures placed[i].player in r.parts && placed[j].player in r.parts
      ensures Ahead(r, distance, placed[i].player, placed[j].player) ==> Leads(ranking[i], ranking[j])
    {
      assert ranking[i] == RankOf(r, distance, placed[i].player) && ranking[j] == RankOf(r, distance, placed[j].player);
    }
    forall p | Shown(r, w, p)
      ensures exists i :: 0 <= i < |placed| && placed[i].player == p
    {
      var i :| 0 <= i < |ranking| && ranking[i].player == p;
      assert placed[i].player == p;
    }
  }

  // ------------------------------------------------------------------ the class

  class Race {
    var duration: nat
    var finished: bool
    var parts: map<PlayerId, Participant>
    var cars: map<PlayerId, real>
    const track: Track
    const physics: PhysicsWorld

    ghost function View(): RaceState
      reads this
    {
      RaceState(track, duration, finished, parts, cars)
    }

    constructor (track: Track, physics: PhysicsWorld)
      ensures View() == Fresh(track) && this.physics == physics
    {
      this.track, this.physics := track, physics;
      duration, finished, parts, cars := 0, false, map[], map[];
    }

    /** A car for `p`, in pixels, and a body for the car. */
    method AddPlayer(p: PlayerId, life: real, x: real, y: real)
      modifies this, physics
      ensures View() == AddParticipant(old(View()), p, life)
      ensures physics.View() == Place(old(physics.View()), Spot(p, x, y))
    {
      parts := parts[p := NEWCOMER];
      physics.CreateCarBody(p, x / PIXELS_PER_METER, y / PIXELS_PER_METER);
      cars := cars[p := life];
    }

    method RemovePlayer(p: PlayerId)
      modifies this, physics
      ensures View() == Do(old(View()), Leave(p))
      ensures physics.View() == Destroy(old(physics.View()), p)
    {
      if p in parts {
        parts := parts[p := parts[p].(state := Disconnected)];
      }
      cars := cars - {p};
      physics.DestroyBody(p);
    }

    /** The NPCs get the bodies from 10000 on, by the byte that numbers them. */
    method InitNpcSpawns(npcs: seq<NpcSpawn>)
      modifies physics
      ensures physics.View() == PlaceAll(old(physics.View()), NpcSpots(npcs))
    {
      for i := 0 to |npcs|
        invariant physics.View() == PlaceAll(old(physics.View()), NpcSpots(npcs)[..i])
      {
        assert NpcSpots(npcs)[..i + 1][..i] == NpcSpots(npcs)[..i];
        AddNpc((i + 1) % 256, npcs[i].x / PIXELS_PER_METER, npcs[i].y / PIXELS_PER_METER);
      }
      assert NpcSpots(npcs)[..|npcs|] == NpcSpots(npcs);
    }

    method AddNpc(npc: nat, x: real, y: real)
      modifies physics
      ensures physics.View() == Place(old(physics.View()), Placement(NPC_BODIES + npc, x, y))
    {
      physics.CreateCarBody(NPC_BODIES + npc, x, y);
    }

    method SetHealth(health: map<PlayerId, real>)
      modifies this
      ensures View() == Do(old(View()), Physics(health))
    {
      cars := map p | p in cars :: if p in health then health[p] else cars[p];
    }

    method OnCarCheckpoint(routeId: string, p: PlayerId, cp: nat)
      modifies this
      ensures View() == Do(old(View()), Crossing(routeId, p, cp))
    {
      if routeId != track.routeId { return; }
      if p !in parts { return; }
      var a := parts[p];
      if !a.state.Active? { return; }
      if cp == a.next {
        a := a.(current := cp, next := a.next + 1);
        if a.next == track.checkpointCount {
          a := a.(state := Finished, finishTime := duration);
        }
        parts := parts[p := a];
      }
    }

    method ApplyCheatWin(p: PlayerId)
      modifies this
      ensures View() == Do(old(View()), CheatWin(p))
    {
      if p !in cars || p !in parts { return; }
      if !parts[p].state.Active? { return; }
      if track.checkpointCount == 0 { return; }
      parts := parts[p := Participant(Finished, track.checkpointCount - 1, track.checkpointCount, duration)];
    }

    method CheckHealthStates()
      modifies this
      ensures View() == HealthChecked(old(View()))
    {
      ghost var r := View();
      var todo := parts.Keys;
      while todo != {}
        invariant todo <= parts.Keys && View() == CheckedBut(r, todo)
      {
        var p :| p in todo;
        ghost var before := View();
        if parts[p].state.Active? && p in cars && cars[p] <= 0.0 {
          parts := parts[p := parts[p].(state := Disqualified, finishTime := duration)];
          cars := cars[p := 0.0];
        }
        CheckTurn(r, todo, p, before, View());
        todo := todo - {p};
      }
      assert CheckedBut(r, {}) == HealthChecked(r);
    }

    method CheckTimeLimit()
      modifies this
      ensures View() == LimitChecked(old(View()))
    {
      if finished || duration < MAX_DURATION { return; }
      ghost var r := View();
      var todo := parts.Keys;
      while todo != {}
        invariant todo <= parts.Keys && View() == r.(parts := parts)
        invariant parts == map p | p in r.parts :: Settle(r.parts[p], p !in todo, duration)
      {
        var p :| p in todo;
        todo := todo - {p};
        if parts[p].state.Active? {
          parts := parts[p := parts[p].(state := Disqualified, finishTime := duration)];
        }
      }
      finished := true;
    }

    method EvaluateFinish()
      modifies this
      ensures View() == Evaluated(old(View()))
    {
      if finished { return; }
      var anyActive := false;
      var todo := parts.Keys;
      while todo != {}
        invariant todo <= parts.Keys && View() == old(View())
        invariant !anyActive && forall p | p in parts && p !in todo :: !parts[p].state.Active?
      {
        var p :| p in todo;
        todo := todo - {p};
        if parts[p].state.Active? {
          anyActive := true;
          break;
        }
      }
      if !anyActive {
        finished := true;
      }
    }

    method AdvanceBy(dt: nat)
      modifies this
      ensures View() == Do(old(View()), Advance(dt))
    {
      duration := duration + dt;
      ghost var later := View();
      CheckHealthStates();
      ghost var checked := View();
      CheckTimeLimit();
      ghost var limited := View();
      EvaluateFinish();
      StagesMakeAdvance(old(View()), dt, later, checked, limited, View());
    }

    method BuildRaceResults() returns (result: seq<ResultEntry>)
      ensures IsRaceResult(result, parts)
    {
      var times := map p | p in parts :: parts[p].finishTime;
      var order := SortByTime(times);
      assert times.Keys == parts.Keys;
      result := [];
      for i := 0 to |order|
        invariant |result| == i
        invariant forall k | 0 <= k < i :: result[k] ==
                    ResultEntry(order[k].player, parts[order[k].player].state, order[k].time, k + 1)
      {
        var p := order[i].player;
        result := result + [ResultEntry(p, parts[p].state, order[i].time, i + 1)];
      }
      NumberedIsResult(order, result, parts, times);
    }

    /** The distance to the next checkpoint is left open, as is the order of the hash table. */
    method SnapshotTicks(distance: PlayerId -> real) returns (ticks: seq<TickInfo>)
      ensures IsSnapshot(ticks, View(), physics.View(), distance)
    {
      var out, ranking := [], [];
      var todo := parts.Keys;
      while todo != {}
        invariant todo <= parts.Keys
        invariant Entries(out, ranking, View(), physics.View(), distance, parts.Keys - todo)
      {
        var p :| p in todo;
        ghost var done := parts.Keys - todo;
        todo := todo - {p};
        assert parts.Keys - todo == done + {p};
        if parts[p].state.Disconnected? {
          ListsOneHidden(out, ranking, View(), physics.View(), distance, done, p);
          continue;
        }
        var body := physics.GetBody(p);
        if body == None {
          ListsOneHidden(out, ranking, View(), physics.View(), distance, done, p);
          continue;
        }
        var position := if parts[p].state.Disqualified? then NO_POSITION else 0;
        ListsOneShown(out, ranking, View(), physics.View(), distance, done, p, position);
        var next := parts[p].next;
        ranking := ranking + [RankInfo(p, next, if next < track.checkpointCount then distance(p) else 0.0)];
        out := out + [TickInfo(p, position)];
      }
      ticks := CalculateRankingPositions(out, ranking);
      PlacedIsSnapshot(ticks, ranking, View(), physics.View(), distance, parts.Keys - todo);
    }

    /** The bodies of the cars go; those of NPCs, and of nobody's car, stay. */
    method ClearCars()
      modifies this, physics
      ensures View() == old(View()).(parts := map[], cars := map[])
      ensures physics.View() == DestroyAll(old(physics.View()), old(cars).Keys)
    {
      var todo := cars.Keys;
      while todo != {}
        invariant todo <= cars.Keys && View() == old(View())
        invariant physics.View() == DestroyAll(old(physics.View()), cars.Keys - todo)
      {
        var p :| p in todo;
        DestroyOneMore(old(physics.View()), cars.Keys - todo, p);
        assert cars.Keys - (todo - {p}) == cars.Keys - todo + {p};
        todo := todo - {p};
        physics.DestroyBody(p);
      }
      cars, parts := map[], map[];
    }
  }

  lemma DestroyOneMore(w: World, ids: set<BodyId>, p: BodyId)
    ensures DestroyAll(w, ids + {p}) == Destroy(DestroyAll(w, ids), p)
  {
  }
}
