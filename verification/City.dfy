/** server/game/city.cpp: the spawn points and routes of a map, and the races that
    server/game/game.cpp makes of them. */
module Cities {
  import opened Wrappers
  import opened Sorting
  import opened MapConfigs
  import opened PhysicsWorlds
  import opened Grids
  import opened Players
  import Races

  predicate InRect(s: SpawnPoint, r: Rect) { r.x <= s.x <= r.x + r.w && r.y <= s.y <= r.y + r.h }

  /** A spawn point is usable outside every collision rectangle, whose rotation is ignored. */
  predicate IsValidSpawn(s: SpawnPoint, rects: seq<Rect>) { forall i | 0 <= i < |rects| :: !InRect(s, rects[i]) }

  predicate ByCar(a: SpawnPoint, b: SpawnPoint) { a.carId < b.carId }

  /** The order of std::string. */
  predicate StringLess(a: string, b: string) {
    if b == [] then false
    else if a == [] then true
    else a[0] < b[0] || (a[0] == b[0] && StringLess(a[1..], b[1..]))
  }

  // ------------------------------------------------------------------ the order of route ids

  lemma {:induction false} Irreflexive(a: string)
    ensures !StringLess(a, a)
  {
    if a != [] {
      Irreflexive(a[1..]);
    }
  }

  lemma {:induction false} Transitive(a: string, b: string, c: string)
    requires StringLess(a, b) && StringLess(b, c)
    ensures StringLess(a, c)
    decreases |a|
  {
    if a != [] && a[0] == b[0] == c[0] {
      Transitive(a[1..], b[1..], c[1..]);
    }
  }

  lemma {:induction false} Total(a: string, b: string)
    ensures a == b || StringLess(a, b) || StringLess(b, a)
    decreases |a|
  {
    if a != [] && b != [] && a[0] == b[0] {
      Total(a[1..], b[1..]);
      assert a == [a[0]] + a[1..] && b == [b[0]] + b[1..];
    }
  }

  lemma StringLessIsStrictWeakOrder()
    ensures StrictWeakOrder(StringLess)
  {
    forall x: string
      ensures !StringLess(x, x)
    {
      Irreflexive(x);
    }
    forall x: string, y: string, z: string | StringLess(x, y) && StringLess(y, z)
      ensures StringLess(x, z)
    {
      Transitive(x, y, z);
    }
    forall x: string, y: string, z: string | StringLess(x, y)
      ensures StringLess(x, z) || StringLess(z, y)
    {
      Total(x, z);
    }
  }

  // ------------------------------------------------------------------ the city

  /** The usable spawn points of a route, as the map lists them. */
  function ValidSpawns(list: seq<SpawnPoint>, rects: seq<Rect>, id: string): seq<SpawnPoint> {
    if list == [] then []
    else
      var last := list[|list| - 1];
      ValidSpawns(list[..|list| - 1], rects, id) + if last.raceId == id && IsValidSpawn(last, rects) then [last] else []
  }

  /** The lists of the routes that have a usable spawn point. */
  ghost predicate AreGroups(groups: map<string, seq<SpawnPoint>>, list: seq<SpawnPoint>, rects: seq<Rect>) {
    forall id :: (id in groups <==> ValidSpawns(list, rects, id) != [])
                 && (id in groups ==> groups[id] == ValidSpawns(list, rects, id))
  }

  /** Every route's usable spawn points, each as often as the map lists it, sorted by car. */
  ghost predicate AreSpawns(spawns: map<string, seq<SpawnPoint>>, cfg: MapConfig) {
    forall id :: (id in spawns <==> ValidSpawns(cfg.spawns, cfg.rects, id) != [])
                 && (id in spawns ==> IsSorted(spawns[id], ValidSpawns(cfg.spawns, cfg.rects, id)))
  }

  ghost predicate IsSorted(sorted: seq<SpawnPoint>, list: seq<SpawnPoint>) {
    multiset(sorted) == multiset(list) && Ordered(sorted, ByCar)
  }

  /** The route ids of the map, each once, in order. */
  ghost predicate AreRouteIds(ids: seq<string>, checkpoints: map<string, seq<Checkpoint>>) {
    && (forall id :: id in ids <==> id in checkpoints)
    && Increasing(ids, StringLess)
  }

  class City {
    const physicsWorld: PhysicsWorld
    var checkpointsByRoute: map<string, seq<Checkpoint>>
    var spawnsByRoute: map<string, seq<SpawnPoint>>
    var npcSpawns: seq<NpcSpawn>

    /** The route at which the hash table of the spawn points begins, if it holds any. */
    var firstRoute: string

    ghost function View(): Town
      reads this
    {
      Town(spawnsByRoute, firstRoute, npcSpawns)
    }

    constructor ()
      ensures fresh(physicsWorld) && physicsWorld.View() == EMPTY_WORLD
      ensures checkpointsByRoute == map[] && View() == Town(map[], "", [])
    {
      physicsWorld := new PhysicsWorld();
      checkpointsByRoute, spawnsByRoute, npcSpawns, firstRoute := map[], map[], [], "";
    }

    method LoadMap(cfg: MapConfig) returns (ghost shapes: seq<Shape>)
      modifies this, physicsWorld
      ensures checkpointsByRoute == cfg.checkpoints && IsTown(View(), cfg)
      ensures IsGeometry(shapes, cfg) && physicsWorld.View() == LoadGeometry(old(physicsWorld.View()), shapes)
    {
      shapes := physicsWorld.LoadStaticGeometry(cfg);
      var groups := GroupSpawns(cfg);
      spawnsByRoute := SortSpawns(groups, cfg);
      if spawnsByRoute != map[] {
        assert spawnsByRoute.Keys != {};
        var first :| first in spawnsByRoute;
        firstRoute := first;
      }
      checkpointsByRoute, npcSpawns := cfg.checkpoints, cfg.npcSpawns;
      IsTownOf(spawnsByRoute, firstRoute, npcSpawns, cfg, View());
    }

    method Step(moves: map<Handle, (real, real)>)
      modifies physicsWorld
      ensures physicsWorld.View() == Moved(old(physicsWorld.View()), moves)
    {
      physicsWorld.Step(moves);
    }

    method BuildTrack(id: string) returns (t: Races.Track)
      ensures t.routeId == id
      ensures t.checkpointCount == if id in checkpointsByRoute then |checkpointsByRoute[id]| else 0
    {
      t := Races.Track(id, if id in checkpointsByRoute then |checkpointsByRoute[id]| else 0);
    }

    method GetRouteIds() returns (ids: seq<string>)
      ensures AreRouteIds(ids, checkpointsByRoute)
    {
      var found := [];
      var left := checkpointsByRoute.Keys;
      while left != {}
        invariant left <= checkpointsByRoute.Keys
        invariant forall id :: id in found <==> id in checkpointsByRoute && id !in left
        invariant forall i, j | 0 <= i < j < |found| :: found[i] != found[j]
        decreases |left|
      {
        var id :| id in left;
        left := left - {id};
        assert id !in found;
        found := found + [id];
      }
      StringLessIsStrictWeakOrder();
      ids := Sort(found, StringLess);
      SortedIds(found, ids);
    }

    /** The spawn points are used in turn; a route without any borrows those of another one.  None stands for
        the null pointer of a map without any usable spawn point. */
    method GetSpawnForIndex(index: nat, id: string) returns (s: Option<SpawnPoint>)
      ensures s == if View().Line(id) == [] then None else Some(View().Line(id)[index % |View().Line(id)|])
    {
      var at := if id in spawnsByRoute && spawnsByRoute[id] != [] then id else firstRoute;
      if at !in spawnsByRoute || spawnsByRoute[at] == [] { return None; }
      s := Some(spawnsByRoute[at][index % |spawnsByRoute[at]|]);
    }

    /** init_races: one race for every route, in the order of the route ids. */
    method InitRaces() returns (tracks: seq<Races.Track>)
      ensures AreTracks(tracks, checkpointsByRoute)
    {
      var ids := GetRouteIds();
      tracks := [];
      for i := 0 to |ids|
        invariant |tracks| == i && forall k | 0 <= k < i :: tracks[k] == TrackOf(ids[k], checkpointsByRoute)
      {
        var t := BuildTrack(ids[i]);
        tracks := tracks + [t];
      }
      TheseAreTracks(tracks, ids, checkpointsByRoute);
    }
  }

  /** What the city offers after loading a map. */
  ghost predicate IsTown(town: Town, cfg: MapConfig) {
    AreSpawns(town.spawns, cfg) && (town.spawns != map[] ==> town.lender in town.spawns) && town.npcs == cfg.npcSpawns
  }

  lemma IsTownOf(spawns: map<string, seq<SpawnPoint>>, first: string, npcs: seq<NpcSpawn>, cfg: MapConfig, town: Town)
    requires AreSpawns(spawns, cfg) && (spawns != map[] ==> first in spawns) && npcs == cfg.npcSpawns
    requires town == Town(spawns, first, npcs)
    ensures IsTown(town, cfg)
  {
  }

  /** As many checkpoints as the route has, and none for an unknown one. */
  function TrackOf(id: string, checkpoints: map<string, seq<Checkpoint>>): Races.Track {
    Races.Track(id, if id in checkpoints then |checkpoints[id]| else 0)
  }

  ghost predicate TracksOf(tracks: seq<Races.Track>, ids: seq<string>, checkpoints: map<string, seq<Checkpoint>>) {
    |tracks| == |ids| && forall i | 0 <= i < |ids| :: tracks[i] == TrackOf(ids[i], checkpoints)
  }

  ghost predicate AreTracks(tracks: seq<Races.Track>, checkpoints: map<string, seq<Checkpoint>>) {
    exists ids :: AreRouteIds(ids, checkpoints) && TracksOf(tracks, ids, checkpoints)
  }

  lemma TheseAreTracks(tracks: seq<Races.Track>, ids: seq<string>, checkpoints: map<string, seq<Checkpoint>>)
    requires AreRouteIds(ids, checkpoints) && TracksOf(tracks, ids, checkpoints)
    ensures AreTracks(tracks, checkpoints)
  {
  }

  lemma SortedIds(found: seq<string>, ids: seq<string>)
    requires forall i, j | 0 <= i < j < |found| :: found[i] != found[j]
    requires multiset(ids) == multiset(found) && Ordered(ids, StringLess)
    ensures Increasing(ids, StringLess) && forall id :: id in ids <==> id in found
  {
    PermutationKeeps(found, ids);
    forall i, j | 0 <= i < j < |ids|
      ensures StringLess(ids[i], ids[j])
    {
      Total(ids[i], ids[j]);
    }
  }

  /** The route ids of a map have only one order. */
  lemma RouteIdsAreUnique(ids: seq<string>, others: seq<string>, checkpoints: map<string, seq<Checkpoint>>)
    requires AreRouteIds(ids, checkpoints) && AreRouteIds(others, checkpoints)
    ensures ids == others
  {
    DistinctWhenIncreasing(ids);
    DistinctWhenIncreasing(others);
    SameElements(ids, others);
    IncreasingIsOrdered(others);
    OnlyOneOrder(ids, others, StringLess);
  }

  lemma TracksAreUnique(tracks: seq<Races.Track>, others: seq<Races.Track>, checkpoints: map<string, seq<Checkpoint>>)
    requires AreTracks(tracks, checkpoints) && AreTracks(others, checkpoints)
    ensures tracks == others
  {
    var ids :| AreRouteIds(ids, checkpoints) && TracksOf(tracks, ids, checkpoints);
    var ids' :| AreRouteIds(ids', checkpoints) && TracksOf(others, ids', checkpoints);
    RouteIdsAreUnique(ids, ids', checkpoints);
  }

  lemma {:induction false} AsManyAsKeys(ids: seq<string>, keys: set<string>)
    requires (forall id :: id in ids <==> id in keys) && forall i, j | 0 <= i < j < |ids| :: ids[i] != ids[j]
    ensures |ids| == |keys|
    decreases |ids|
  {
    if ids == [] {
      assert keys == {};
    } else {
      var n := |ids| - 1;
      assert ids == ids[..n] + [ids[n]];
      AsManyAsKeys(ids[..n], keys - {ids[n]});
    }
  }

  /** One race for every route of the map. */
  lemma AsManyRacesAsRoutes(tracks: seq<Races.Track>, checkpoints: map<string, seq<Checkpoint>>)
    requires AreTracks(tracks, checkpoints)
    ensures |tracks| == |checkpoints|
  {
    var ids :| AreRouteIds(ids, checkpoints) && TracksOf(tracks, ids, checkpoints);
    DistinctWhenIncreasing(ids);
    AsManyAsKeys(ids, checkpoints.Keys);
  }

  lemma IncreasingIsOrdered(ids: seq<string>)
    requires Increasing(ids, StringLess)
    ensures Ordered(ids, StringLess)
  {
    forall i, j | 0 <= i < j < |ids|
      ensures !StringLess(ids[j], ids[i])
    {
      if StringLess(ids[j], ids[i]) {
        Transitive(ids[i], ids[j], ids[i]);
        Irreflexive(ids[i]);
      }
    }
  }

  lemma DistinctWhenIncreasing(ids: seq<string>)
    requires Increasing(ids, StringLess)
    ensures forall i, j | 0 <= i < j < |ids| :: ids[i] != ids[j]
  {
    forall i, j | 0 <= i < j < |ids|
      ensures ids[i] != ids[j]
    {
      Irreflexive(ids[i]);
    }
  }

  lemma {:induction false} SameElements<T>(a: seq<T>, b: seq<T>)
    requires forall i, j | 0 <= i < j < |a| :: a[i] != a[j]
    requires forall i, j | 0 <= i < j < |b| :: b[i] != b[j]
    requires forall x :: x in a <==> x in b
    ensures multiset(a) == multiset(b)
  {
    forall x
      ensures multiset(a)[x] == multiset(b)[x]
    {
      CountOnce(a, x);
      CountOnce(b, x);
      assert x in a <==> x in multiset(a);
      assert x in b <==> x in multiset(b);
    }
  }

  // ------------------------------------------------------------------ spawn points

  method GroupSpawns(cfg: MapConfig) returns (groups: map<string, seq<SpawnPoint>>)
    ensures AreGroups(groups, cfg.spawns, cfg.rects)
  {
    groups := map[];
    for i := 0 to |cfg.spawns|
      invariant AreGroups(groups, cfg.spawns[..i], cfg.rects)
    {
      var s := cfg.spawns[i];
      assert cfg.spawns[..i + 1][..i] == cfg.spawns[..i];
      if IsValidSpawn(s, cfg.rects) {
        groups := groups[s.raceId := (if s.raceId in groups then groups[s.raceId] else []) + [s]];
      }
    }
    assert cfg.spawns[..|cfg.spawns|] == cfg.spawns;
  }

  lemma ByCarIsStrictWeakOrder()
    ensures StrictWeakOrder(ByCar)
  {
  }

  method SortSpawns(groups: map<string, seq<SpawnPoint>>, cfg: MapConfig) returns (spawns: map<string, seq<SpawnPoint>>)
    requires AreGroups(groups, cfg.spawns, cfg.rects)
    ensures AreSpawns(spawns, cfg)
  {
    ByCarIsStrictWeakOrder();
    spawns := groups;
    var left := groups.Keys;
    while left != {}
      invariant left <= groups.Keys == spawns.Keys
      invariant forall id | id in left :: spawns[id] == groups[id]
      invariant forall id | id in groups.Keys - left :: IsSorted(spawns[id], groups[id])
      decreases |left|
    {
      var id :| id in left;
      var sorted := Sort(spawns[id], ByCar);
      spawns := spawns[id := sorted];
      left := left - {id};
    }
    SortedAreSpawns(groups, spawns, cfg);
  }

  lemma SortedAreSpawns(groups: map<string, seq<SpawnPoint>>, spawns: map<string, seq<SpawnPoint>>, cfg: MapConfig)
    requires AreGroups(groups, cfg.spawns, cfg.rects) && spawns.Keys == groups.Keys
    requires forall id | id in groups :: IsSorted(spawns[id], groups[id])
    ensures AreSpawns(spawns, cfg)
  {
  }

  /** Some spawn point lies outside every rectangle. */
  ghost predicate HasUsableSpawn(cfg: MapConfig) {
    exists i :: 0 <= i < |cfg.spawns| && IsValidSpawn(cfg.spawns[i], cfg.rects)
  }

  lemma {:induction false} ValidSpawnsKeeps(list: seq<SpawnPoint>, rects: seq<Rect>, i: nat)
    requires i < |list| && IsValidSpawn(list[i], rects)
    ensures ValidSpawns(list, rects, list[i].raceId) != []
    decreases |list|
  {
    if i < |list| - 1 {
      ValidSpawnsKeeps(list[..|list| - 1], rects, i);
    }
  }

  /** A map with a usable spawn point anywhere has a place to start for every route, and one without has none. */
  lemma EveryRouteHasSpots(town: Town, cfg: MapConfig)
    requires IsTown(town, cfg)
    ensures HasUsableSpawn(cfg) ==> forall route :: town.Line(route) != []
    ensures !HasUsableSpawn(cfg) ==> forall route :: town.Line(route) == []
  {
    forall id | id in town.spawns
      ensures town.spawns[id] != []
    {
      PermutationKeeps(ValidSpawns(cfg.spawns, cfg.rects, id), town.spawns[id]);
    }
    if HasUsableSpawn(cfg) {
      var i :| 0 <= i < |cfg.spawns| && IsValidSpawn(cfg.spawns[i], cfg.rects);
      ValidSpawnsKeeps(cfg.spawns, cfg.rects, i);
      assert cfg.spawns[i].raceId in town.spawns;
    } else {
      forall id
        ensures id !in town.spawns
      {
        NoValidSpawns(cfg.spawns, cfg.rects, id);
      }
    }
  }

  lemma {:induction false} NoValidSpawns(list: seq<SpawnPoint>, rects: seq<Rect>, id: string)
    requires forall i | 0 <= i < |list| :: !IsValidSpawn(list[i], rects)
    ensures ValidSpawns(list, rects, id) == []
    decreases |list|
  {
    if list != [] {
      NoValidSpawns(list[..|list| - 1], rects, id);
    }
  }

  ghost predicate Apart(list: seq<SpawnPoint>) {
    forall i, j | 0 <= i < j < |list| :: list[i].x != list[j].x || list[i].y != list[j].y
  }

  lemma {:induction false} ValidOnesAreApart(list: seq<SpawnPoint>, rects: seq<Rect>, id: string)
    requires Apart(list)
    ensures Apart(ValidSpawns(list, rects, id))
    ensures forall s | s in ValidSpawns(list, rects, id) :: s in list && IsValidSpawn(s, rects)
    decreases |list|
  {
    if list != [] {
      var before, last := list[..|list| - 1], list[|list| - 1];
      ValidOnesAreApart(before, rects, id);
      forall s | s in ValidSpawns(before, rects, id)
        ensures s.x != last.x || s.y != last.y
      {
        var i :| 0 <= i < |before| && before[i] == s;
        assert list[i] == s;
      }
    }
  }

  lemma PermutationIsApart(list: seq<SpawnPoint>, sorted: seq<SpawnPoint>)
    requires Apart(list) && multiset(sorted) == multiset(list)
    ensures Apart(sorted)
  {
    PermutationKeeps(list, sorted);
    forall i, j | 0 <= i < j < |sorted|
      ensures sorted[i].x != sorted[j].x || sorted[i].y != sorted[j].y
    {
      assert sorted[i] in list && sorted[j] in list && sorted[i] != sorted[j];
      var a :| 0 <= a < |list| && list[a] == sorted[i];
      var b :| 0 <= b < |list| && list[b] == sorted[j];
    }
  }

  lemma SpotsDiffer(ids: seq<PlayerId>, line: seq<SpawnPoint>, i: nat, j: nat)
    requires Apart(line) && i < j < |ids| <= |line|
    ensures var a, b := PlayerSpot(ids, line, i), PlayerSpot(ids, line, j); a.x != b.x || a.y != b.y
  {
    assert i % |line| == i && j % |line| == j;
    if line[i].x != line[j].x {
      MetersDiffer(line[i].x, line[j].x);
    } else {
      MetersDiffer(line[i].y, line[j].y);
    }
  }

  lemma MetersDiffer(a: real, b: real)
    requires a != b
    ensures a / PIXELS_PER_METER != b / PIXELS_PER_METER
  {
  }

  lemma {:induction false} ValidSpawnsCount(list: seq<SpawnPoint>, rects: seq<Rect>, id: string, s: SpawnPoint)
    ensures multiset(ValidSpawns(list, rects, id))[s] == if s.raceId == id && IsValidSpawn(s, rects) then multiset(list)[s] else 0
    decreases |list|
  {
    if list != [] {
      var n := |list| - 1;
      ValidSpawnsCount(list[..n], rects, id, s);
      assert list == list[..n] + [list[n]];
    }
  }

  ghost predicate StrictlyOutside(s: SpawnPoint, rects: seq<Rect>) {
    forall i | 0 <= i < |rects| ::
      s.x < rects[i].x || s.x > rects[i].x + rects[i].w || s.y < rects[i].y || s.y > rects[i].y + rects[i].h
  }

  lemma ValidIsOutside(s: SpawnPoint, rects: seq<Rect>)
    ensures IsValidSpawn(s, rects) <==> StrictlyOutside(s, rects)
  {
  }

  lemma SortedByCar(sorted: seq<SpawnPoint>, list: seq<SpawnPoint>)
    requires IsSorted(sorted, list)
    ensures forall i, j | 0 <= i < j < |sorted| :: sorted[i].carId <= sorted[j].carId
  {
  }

  /** A route has exactly the map's spawn points of its own that lie strictly outside every rectangle, each as often as
      the map lists it, in the order of the cars. */
  lemma SpawnsOfARoute(town: Town, cfg: MapConfig, id: string, s: SpawnPoint)
    requires IsTown(town, cfg)
    ensures var spawns := if id in town.spawns then town.spawns[id] else [];
            && multiset(spawns)[s] ==
                 (if s.raceId == id && StrictlyOutside(s, cfg.rects) then multiset(cfg.spawns)[s] else 0)
            && forall i, j | 0 <= i < j < |spawns| :: spawns[i].carId <= spawns[j].carId
  {
    ValidIsOutside(s, cfg.rects);
    ValidSpawnsCount(cfg.spawns, cfg.rects, id, s);
    SpawnsAreSorted(town.spawns, cfg, id);
  }

  lemma SpawnsAreSorted(spawns: map<string, seq<SpawnPoint>>, cfg: MapConfig, id: string)
    requires AreSpawns(spawns, cfg)
    ensures var mine := if id in spawns then spawns[id] else [];
            && multiset(mine) == multiset(ValidSpawns(cfg.spawns, cfg.rects, id))
            && forall i, j | 0 <= i < j < |mine| :: mine[i].carId <= mine[j].carId
  {
    if id in spawns {
      SortedByCar(spawns[id], ValidSpawns(cfg.spawns, cfg.rects, id));
    }
  }

  /** On a map whose spawn points are different places, nobody starts inside a collision rectangle, and as long
      as there are no more players than spawn points, no two of them start at the same place. */
  lemma StartsDiffer(town: Town, cfg: MapConfig, route: string, ids: seq<PlayerId>, i: nat, j: nat)
    requires IsTown(town, cfg) && Apart(cfg.spawns) && town.Line(route) != [] && i < j < |ids|
    ensures var line := town.Line(route);
            && (forall s | s in line :: IsValidSpawn(s, cfg.rects))
            && (|ids| <= |line| ==>
                  var a, b := PlayerSpot(ids, line, i), PlayerSpot(ids, line, j);
                  a.x != b.x || a.y != b.y)
  {
    var line := town.Line(route);
    var at := if route in town.spawns && town.spawns[route] != [] then route else town.lender;
    ValidOnesAreApart(cfg.spawns, cfg.rects, at);
    PermutationIsApart(ValidSpawns(cfg.spawns, cfg.rects, at), line);
    PermutationKeeps(ValidSpawns(cfg.spawns, cfg.rects, at), line);
    if |ids| <= |line| {
      SpotsDiffer(ids, line, i, j);
    }
  }
}
