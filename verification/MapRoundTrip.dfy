/** From the editor to the race: what is drawn is what is loaded (editor/editor_menu.cpp and
    server/map/map_config_loader.cpp), and every loaded route can be driven to its end
    (server/game/city.cpp, build_track). */
module MapRoundTrips {
  import opened Wrappers
  import opened Sequences
  import opened Yamls
  import opened Sorting
  import opened EditorMenus
  import opened MapConfigs
  import opened MapConfigLoaders
  import Cities
  import Players
  import R = Races

  /** The checkpoint of point `i` of `n`. */
  function Drawn(raceId: string, i: nat, n: nat, p: Point): Checkpoint {
    Checkpoint(p.x as real, p.y as real, 0.0, 0.0, 0.0, i, KindOf(i, n), raceId)
  }

  function DrawnAt(raceId: string, points: seq<Point>, i: nat): Checkpoint
    requires i < |points|
  {
    Drawn(raceId, i, |points|, points[i])
  }

  function Route(raceId: string, points: seq<Point>, upTo: nat): (cps: seq<Checkpoint>)
    requires upTo <= |points|
    ensures |cps| == upTo && forall i | 0 <= i < upTo :: cps[i] == DrawnAt(raceId, points, i)
  {
    if upTo == 0 then [] else Route(raceId, points, upTo - 1) + [DrawnAt(raceId, points, upTo - 1)]
  }

  function Letters(n: nat): (ids: seq<string>)
    requires n <= MAX_ROUTES
    ensures |ids| == n && forall r | 0 <= r < n :: ids[r] == RaceId(r)
  {
    if n == 0 then [] else Letters(n - 1) + [RaceId(n - 1)]
  }

  function RouteOf(routes: seq<seq<Point>>, r: nat): seq<Checkpoint>
    requires r < |routes| <= MAX_ROUTES
  {
    Route(RaceId(r), routes[r], |routes[r]|)
  }

  function AllRoutes(routes: seq<seq<Point>>, n: nat): (found: seq<seq<Checkpoint>>)
    requires n <= |routes| <= MAX_ROUTES
    ensures |found| == n && forall r | 0 <= r < n :: found[r] == RouteOf(routes, r)
  {
    if n == 0 then [] else AllRoutes(routes, n - 1) + [RouteOf(routes, n - 1)]
  }

  function Concat(found: seq<seq<Checkpoint>>): seq<Checkpoint> {
    if found == [] then [] else Concat(found[..|found| - 1]) + found[|found| - 1]
  }

  // ------------------------------------------------------------------ reading back what was written

  lemma PropertiesAreRead(cp: Checkpoint, i: nat, n: nat, raceId: string)
    ensures ReadProperties(cp, Properties(i, n, raceId)) == Some(cp.(index := i, raceId := raceId, kind := KindOf(i, n)))
  {
    var p0, p1, p2 := Property("index", "int", Int(i)), Property("race_id", "string", Text(raceId)),
                      Property("type", "string", Text(KindOf(i, n)));
    assert [p0, p1, p2][1..] == [p1, p2] && [p1, p2][1..] == [p2] && [p2][1..] == [];
    var cp1 := cp.(index := i);
    var cp2 := cp1.(raceId := raceId);
    assert ReadProperty(cp, p0) == Some(cp1);
    assert ReadProperty(cp1, p1) == Some(cp2);
    assert ReadProperty(cp2, p2) == Some(cp2.(kind := KindOf(i, n)));
    assert ReadProperties(cp2, [p2]) == Some(cp2.(kind := KindOf(i, n)));
    assert ReadProperties(cp1, [p1, p2]) == ReadProperties(cp2, [p2]);
  }

  lemma OneMoreObject(objects: seq<Yaml>, last: Yaml, name: string, before: seq<Checkpoint>, cp: Checkpoint)
    requires IsCheckpointLayer(name) && ReadObjects(objects, name) == Some(before) && ReadCheckpoint(last, RaceOfLayer(name)) == Some(cp)
    ensures ReadObjects(objects + [last], name) == Some(before + [cp])
  {
    assert (objects + [last])[..|objects|] == objects;
  }

  /** What the loader looks at in the node of a point. */
  lemma NodeFields(id: int, raceId: string, points: seq<Point>, i: nat)
    requires i < |points|
    ensures var node := NodeOf(id, raceId, points, i);
            && AsReal(Get(node, XKey)) == Some(points[i].x as real) && AsReal(Get(node, YKey)) == Some(points[i].y as real)
            && RealOr(node, WidthKey, 0.0) == Some(0.0) && RealOr(node, HeightKey, 0.0) == Some(0.0)
            && RealOr(node, RotationKey, 0.0) == Some(0.0)
            && Items(Get(node, PropertiesKey)) == Properties(i, |points|, raceId)
  {
  }

  lemma CheckpointOfFields(node: Yaml, layerRace: string, x: real, y: real, props: seq<Yaml>)
    requires AsReal(Get(node, XKey)) == Some(x) && AsReal(Get(node, YKey)) == Some(y)
    requires RealOr(node, WidthKey, 0.0) == Some(0.0) && RealOr(node, HeightKey, 0.0) == Some(0.0)
    requires RealOr(node, RotationKey, 0.0) == Some(0.0) && Items(Get(node, PropertiesKey)) == props
    ensures ReadCheckpoint(node, layerRace) == ReadProperties(Checkpoint(x, y, 0.0, 0.0, 0.0, 0, "normal", layerRace), props)
  {
  }

  lemma NodeIsRead(id: int, raceId: string, points: seq<Point>, i: nat, layerRace: string)
    requires i < |points|
    ensures ReadCheckpoint(NodeOf(id, raceId, points, i), layerRace) == Some(DrawnAt(raceId, points, i))
  {
    var x, y := points[i].x as real, points[i].y as real;
    NodeFields(id, raceId, points, i);
    CheckpointOfFields(NodeOf(id, raceId, points, i), layerRace, x, y, Properties(i, |points|, raceId));
    PropertiesAreRead(Checkpoint(x, y, 0.0, 0.0, 0.0, 0, "normal", layerRace), i, |points|, raceId);
  }

  lemma {:induction false} ObjectsAreRead(objects: seq<Yaml>, name: string, cps: seq<Checkpoint>)
    requires IsCheckpointLayer(name) && |objects| == |cps|
    requires forall k | 0 <= k < |objects| :: ReadCheckpoint(objects[k], RaceOfLayer(name)) == Some(cps[k])
    ensures ReadObjects(objects, name) == Some(cps)
    decreases |objects|
  {
    if objects != [] {
      var n := |objects| - 1;
      ObjectsAreRead(objects[..n], name, cps[..n]);
      OneMoreObject(objects[..n], objects[n], name, cps[..n], cps[n]);
      assert objects == objects[..n] + [objects[n]] && cps == cps[..n] + [cps[n]];
    }
  }

  lemma PointsAreRead(id: int, raceId: string, points: seq<Point>, name: string)
    requires IsCheckpointLayer(name)
    ensures ReadObjects(PointNodes(id, raceId, points, |points|), name) == Some(Route(raceId, points, |points|))
  {
    var nodes, cps := PointNodes(id, raceId, points, |points|), Route(raceId, points, |points|);
    forall k | 0 <= k < |points|
      ensures ReadCheckpoint(nodes[k], RaceOfLayer(name)) == Some(cps[k])
    {
      NodeIsRead(id, raceId, points, k, RaceOfLayer(name));
    }
    ObjectsAreRead(nodes, name, cps);
  }

  /** What the loader looks at in the layer of a route. */
  lemma RouteLayerFields(id: int, firstObject: int, raceId: string, points: seq<Point>)
    ensures var layer := RouteLayer(id, firstObject, raceId, points);
            && TextOr(layer, TypeKey, "") == Some("objectgroup") && TextOr(layer, NameKey, "") == Some("Checkpoint_" + raceId)
            && Has(layer, ObjectsKey) && Items(Get(layer, ObjectsKey)) == PointNodes(firstObject, raceId, points, |points|)
  {
  }

  lemma LayerIsRead(id: int, firstObject: int, raceId: string, points: seq<Point>)
    ensures ReadLayer(RouteLayer(id, firstObject, raceId, points)) == Some(Route(raceId, points, |points|))
  {
    RouteLayerFields(id, firstObject, raceId, points);
    PointsAreRead(firstObject, raceId, points, "Checkpoint_" + raceId);
    ObjectsOfLayer(RouteLayer(id, firstObject, raceId, points), "Checkpoint_" + raceId, PointNodes(firstObject, raceId, points, |points|));
  }

  lemma ObjectsOfLayer(layer: Yaml, name: string, objects: seq<Yaml>)
    requires TextOr(layer, TypeKey, "") == Some("objectgroup") && TextOr(layer, NameKey, "") == Some(name)
    requires Has(layer, ObjectsKey) && Items(Get(layer, ObjectsKey)) == objects
    ensures ReadLayer(layer) == ReadObjects(objects, name)
  {
  }

  lemma {:induction false} LayersAreRead(base: seq<Yaml>, layers: seq<Yaml>, found: seq<seq<Checkpoint>>)
    requires ReadLayers(base) == Some([]) && AllRead(layers, found)
    ensures ReadLayers(base + layers) == Some(Concat(found))
    decreases |layers|
  {
    if layers == [] {
      assert base + [] == base;
    } else {
      AllButLastRead(layers, found);
      LayersAreRead(base, layers[..|layers| - 1], found[..|found| - 1]);
      Associative(base, layers[..|layers| - 1], [layers[|layers| - 1]]);
      OneMoreLayer(base + layers[..|layers| - 1], layers[|layers| - 1]);
    }
  }

  lemma AllButLastRead(layers: seq<Yaml>, found: seq<seq<Checkpoint>>)
    requires layers != [] && AllRead(layers, found)
    ensures AllRead(layers[..|layers| - 1], found[..|found| - 1]) && ReadLayer(layers[|layers| - 1]) == Some(found[|found| - 1])
    ensures layers == layers[..|layers| - 1] + [layers[|layers| - 1]]
  {
  }

  lemma OneMoreLayer(layers: seq<Yaml>, last: Yaml)
    requires ReadLayers(layers).Some? && ReadLayer(last).Some?
    ensures ReadLayers(layers + [last]) == Some(ReadLayers(layers).value + ReadLayer(last).value)
  {
    assert (layers + [last])[..|layers|] == layers;
  }

  // ------------------------------------------------------------------ grouping and sorting

  lemma {:induction false} NewGroup(cps: seq<Checkpoint>, more: seq<Checkpoint>, id: string)
    requires id !in Grouped(cps) && more != [] && forall c | c in more :: c.raceId == id
    ensures Grouped(cps + more) == Grouped(cps)[id := more]
    decreases |more|
  {
    var n := |more| - 1;
    var last := more[n];
    assert last in more && more == more[..n] + [last];
    Associative(cps, more[..n], [last]);
    OneMoreGrouped(cps + more[..n], last);
    if n == 0 {
      assert cps + more[..n] == cps;
    } else {
      NewGroup(cps, more[..n], id);
    }
  }

  /** One group for each id. */
  ghost predicate AreGroups(groups: map<string, seq<Checkpoint>>, ids: seq<string>, found: seq<seq<Checkpoint>>)
    requires |ids| == |found|
  {
    && (forall id :: id in groups <==> id in ids)
    && (forall r | 0 <= r < |ids| :: groups[ids[r]] == found[r])
  }

  lemma {:induction false} RoutesAreGrouped(ids: seq<string>, found: seq<seq<Checkpoint>>)
    requires |ids| == |found| && forall i, j | 0 <= i < j < |ids| :: ids[i] != ids[j]
    requires forall r | 0 <= r < |found| :: found[r] != [] && forall c | c in found[r] :: c.raceId == ids[r]
    ensures AreGroups(Grouped(Concat(found)), ids, found)
    decreases |ids|
  {
    if ids != [] {
      var n := |ids| - 1;
      RoutesAreGrouped(ids[..n], found[..n]);
      assert ids == ids[..n] + [ids[n]];
      assert ids[n] !in ids[..n];
      NewGroup(Concat(found[..n]), found[n], ids[n]);
      OneMoreGroup(Grouped(Concat(found[..n])), ids, found);
    }
  }

  lemma OneMoreGroup(groups: map<string, seq<Checkpoint>>, ids: seq<string>, found: seq<seq<Checkpoint>>)
    requires |ids| == |found| > 0 && AreGroups(groups, ids[..|ids| - 1], found[..|ids| - 1])
    requires ids[|ids| - 1] !in ids[..|ids| - 1]
    ensures AreGroups(groups[ids[|ids| - 1] := found[|ids| - 1]], ids, found)
  {
    var n := |ids| - 1;
    assert ids == ids[..n] + [ids[n]];
    forall r | 0 <= r < n
      ensures ids[r] != ids[n] && groups[ids[r]] == found[r]
    {
      assert ids[..n][r] == ids[r] && found[..n][r] == found[r];
    }
  }

  lemma LettersDiffer(n: nat)
    requires n <= MAX_ROUTES
    ensures forall i, j | 0 <= i < j < n :: Letters(n)[i] != Letters(n)[j]
  {
    forall i, j | 0 <= i < j < n
      ensures Letters(n)[i] != Letters(n)[j]
    {
      assert RaceId(i)[0] != RaceId(j)[0];
    }
  }

  // ------------------------------------------------------------------ there and back

  /** Loading what was exported gives back every route under its letter: its points in order, indexed from
      0, the first a start, the last a finish, the others normal; and nothing else. */
  lemma EditorAndLoaderUndoEachOther(routes: seq<seq<Point>>, base: Yaml, cfg: Option<map<string, seq<Checkpoint>>>)
    requires |routes| <= MAX_ROUTES && LongEnough(routes) && Usable(base)
    requires ReadLayers(base.fields[LayersKey].items) == Some([])
    requires Loads(Export(routes, base).value, cfg)
    ensures cfg.Some? && AreGroups(cfg.value, Letters(|routes|), AllRoutes(routes, |routes|))
  {
    var n := |routes|;
    ExportedLayers(routes, base);
    LettersDiffer(n);
    RoutesBelong(routes);
    RoutesAreGrouped(Letters(n), AllRoutes(routes, n));
    SortedGroups(Grouped(Concat(AllRoutes(routes, n))), cfg.value, Letters(n), AllRoutes(routes, n));
  }

  /** Letter by letter and point by point: the first route is A, the second B, and so on; every point is where it was
      drawn, numbered from 0, a start at the beginning, a finish at the end, and normal in between. */
  lemma WhatIsLoaded(routes: seq<seq<Point>>, base: Yaml, cfg: Option<map<string, seq<Checkpoint>>>, r: nat, i: nat)
    requires |routes| <= MAX_ROUTES && LongEnough(routes) && Usable(base)
    requires ReadLayers(base.fields[LayersKey].items) == Some([]) && Loads(Export(routes, base).value, cfg)
    requires r < |routes| && i < |routes[r]|
    ensures cfg.Some? && |cfg.value| == |routes|
    ensures var letter, n := ["A", "B", "C", "D", "E", "F"][r], |routes[r]|;
            && letter in cfg.value && |cfg.value[letter]| == n
            && cfg.value[letter][i] ==
                 Checkpoint(routes[r][i].x as real, routes[r][i].y as real, 0.0, 0.0, 0.0, i,
                            if i == 0 then "start" else if i == n - 1 then "finish" else "normal", letter)
  {
    EditorAndLoaderUndoEachOther(routes, base, cfg);
    LetterOf(r);
    AsManyAsLetters(cfg.value, |routes|);
    assert Letters(|routes|)[r] == RaceId(r) && AllRoutes(routes, |routes|)[r] == RouteOf(routes, r);
  }

  lemma LetterOf(r: nat)
    requires r < MAX_ROUTES
    ensures RaceId(r) == ["A", "B", "C", "D", "E", "F"][r]
  {
  }

  lemma AsManyAsLetters(cfg: map<string, seq<Checkpoint>>, n: nat)
    requires n <= MAX_ROUTES && forall id :: id in Letters(n) <==> id in cfg
    ensures |cfg| == n
  {
    LettersDiffer(n);
    Cities.AsManyAsKeys(Letters(n), cfg.Keys);
  }

  lemma RoutesBelong(routes: seq<seq<Point>>)
    requires |routes| <= MAX_ROUTES && LongEnough(routes)
    ensures var found := AllRoutes(routes, |routes|);
            forall r | 0 <= r < |routes| ::
              found[r] != [] && Increasing(found[r], ByIndex) && forall c | c in found[r] :: c.raceId == Letters(|routes|)[r]
  {
  }

  lemma ExportedLayers(routes: seq<seq<Point>>, base: Yaml)
    requires |routes| <= MAX_ROUTES && LongEnough(routes) && Usable(base)
    requires ReadLayers(base.fields[LayersKey].items) == Some([])
    ensures ReadLayers(Items(Get(Export(routes, base).value, LayersKey))) == Some(Concat(AllRoutes(routes, |routes|)))
  {
    ExportAddsLayers(routes, base);
    RouteLayersAreRead(base.fields[LayersKey].items, base.fields[NextLayerIdKey].int_, base.fields[NextObjectIdKey].int_, routes, |routes|);
  }

  lemma RouteLayersAreRead(base: seq<Yaml>, layerId: int, objectId: int, routes: seq<seq<Point>>, n: nat)
    requires n == |routes| <= MAX_ROUTES && ReadLayers(base) == Some([])
    ensures ReadLayers(base + RouteLayers(layerId, objectId, routes, n)) == Some(Concat(AllRoutes(routes, n)))
  {
    AllLayersAreRead(layerId, objectId, routes, n);
    LayersAreRead(base, RouteLayers(layerId, objectId, routes, n), AllRoutes(routes, n));
  }

  ghost predicate AllRead(layers: seq<Yaml>, found: seq<seq<Checkpoint>>) {
    |layers| == |found| && forall r | 0 <= r < |layers| :: ReadLayer(layers[r]) == Some(found[r])
  }

  lemma OneMoreRead(layers: seq<Yaml>, found: seq<seq<Checkpoint>>, layer: Yaml, cps: seq<Checkpoint>)
    requires AllRead(layers, found) && ReadLayer(layer) == Some(cps)
    ensures AllRead(layers + [layer], found + [cps])
  {
  }

  lemma {:induction false} AllLayersAreRead(layerId: int, objectId: int, routes: seq<seq<Point>>, n: nat)
    requires n <= |routes| <= MAX_ROUTES
    ensures AllRead(RouteLayers(layerId, objectId, routes, n), AllRoutes(routes, n))
  {
    if n > 0 {
      AllLayersAreRead(layerId, objectId, routes, n - 1);
      OneMoreRouteIsRead(layerId, objectId, routes, n);
    }
  }

  lemma OneMoreRouteIsRead(layerId: int, objectId: int, routes: seq<seq<Point>>, n: nat)
    requires 0 < n <= |routes| <= MAX_ROUTES
    requires AllRead(RouteLayers(layerId, objectId, routes, n - 1), AllRoutes(routes, n - 1))
    ensures AllRead(RouteLayers(layerId, objectId, routes, n), AllRoutes(routes, n))
  {
    RouteLayerIsRead(layerId, objectId, routes, n - 1);
    OneMoreRead(RouteLayers(layerId, objectId, routes, n - 1), AllRoutes(routes, n - 1),
                LayerOf(layerId, objectId, routes, n - 1), RouteOf(routes, n - 1));
  }

  lemma RouteLayerIsRead(layerId: int, objectId: int, routes: seq<seq<Point>>, r: nat)
    requires r < |routes| <= MAX_ROUTES
    ensures ReadLayer(LayerOf(layerId, objectId, routes, r)) == Some(RouteOf(routes, r))
  {
    LayerIsRead(layerId + r, FirstObject(objectId, routes, r), RaceId(r), routes[r]);
  }

  lemma ExportAddsLayers(routes: seq<seq<Point>>, base: Yaml)
    requires |routes| <= MAX_ROUTES && LongEnough(routes) && Usable(base)
    ensures Items(Get(Export(routes, base).value, LayersKey))
            == base.fields[LayersKey].items
               + RouteLayers(base.fields[NextLayerIdKey].int_, base.fields[NextObjectIdKey].int_, routes, |routes|)
  {
  }

  lemma SortedGroups(groups: map<string, seq<Checkpoint>>, cfg: map<string, seq<Checkpoint>>, ids: seq<string>, found: seq<seq<Checkpoint>>)
    requires |ids| == |found| && AreGroups(groups, ids, found) && SortedFrom(cfg, groups)
    requires forall r | 0 <= r < |found| :: Increasing(found[r], ByIndex)
    ensures AreGroups(cfg, ids, found)
  {
    assert forall id :: id in cfg.Keys <==> id in groups.Keys;
    forall r | 0 <= r < |ids|
      ensures cfg[ids[r]] == found[r]
    {
      OnlyOneOrder(found[r], cfg[ids[r]], ByIndex);
    }
  }

  // ------------------------------------------------------------------ driving a loaded route

  /** The match that is loaded from a drawn map has one race for every route, in the order in which they
      were drawn, each as long as its route. */
  lemma RacesFollowTheDrawing(routes: seq<seq<Point>>, cfg: map<string, seq<Checkpoint>>, tracks: seq<R.Track>)
    requires |routes| <= MAX_ROUTES && AreGroups(cfg, Letters(|routes|), AllRoutes(routes, |routes|))
    requires Cities.AreTracks(tracks, cfg)
    ensures |tracks| == |routes| && forall r | 0 <= r < |routes| :: tracks[r] == R.Track(RaceId(r), |routes[r]|)
  {
    var ids :| Cities.AreRouteIds(ids, cfg) && Cities.TracksOf(tracks, ids, cfg);
    LettersIncrease(|routes|);
    Cities.RouteIdsAreUnique(Letters(|routes|), ids, cfg);
  }

  lemma LettersIncrease(n: nat)
    requires n <= MAX_ROUTES
    ensures Increasing(Letters(n), Cities.StringLess)
  {
    forall i, j | 0 <= i < j < n
      ensures Cities.StringLess(RaceId(i), RaceId(j))
    {
      assert RaceId(i)[0] < RaceId(j)[0];
    }
  }

  /** The first `k` checkpoints of the route, crossed in the order in which they were loaded. */
  ghost function Drive(id: string, cps: seq<Checkpoint>, p: Players.PlayerId, k: nat): seq<R.RaceStep>
    requires k <= |cps| && forall i | 0 <= i < |cps| :: cps[i].index >= 0
  {
    if k == 0 then [] else Drive(id, cps, p, k - 1) + [R.Crossing(id, p, cps[k - 1].index)]
  }

  /** A newcomer that crosses the checkpoints of a loaded route in order finishes, and not before the
      last one. */
  lemma {:induction false} LoadedRoutesCanBeFinished(cfg: map<string, seq<Checkpoint>>, raceId: string, points: seq<Point>,
                                                     r: R.RaceState, p: Players.PlayerId, k: nat)
    requires raceId in cfg && cfg[raceId] == Route(raceId, points, |points|)
    requires r.track == R.Track(raceId, |points|) && p in r.parts && r.parts[p] == R.NEWCOMER && k <= |points|
    ensures var r' := R.RaceAfter(r, Drive(raceId, cfg[raceId], p, k));
            && r'.track == r.track && p in r'.parts && r'.parts[p].next == k
            && (r'.parts[p].state.Finished? <==> k == |points| && k > 0)
            && (!r'.parts[p].state.Finished? ==> r'.parts[p].state.Active?)
  {
    if k > 0 {
      LoadedRoutesCanBeFinished(cfg, raceId, points, r, p, k - 1);
      var steps := Drive(raceId, cfg[raceId], p, k);
      assert steps[..|steps| - 1] == Drive(raceId, cfg[raceId], p, k - 1);
      assert cfg[raceId][k - 1].index == k - 1;
    }
  }
}
