/** editor/editor_menu.cpp, onSummit: the drawn routes become layers at the end of a base map. */
module EditorMenus {
  import opened Wrappers
  import opened Yamls

  datatype Point = Point(x: int, y: int)

  /** Routes are lettered from 'A' on; the editor offers at most six. */
  const MAX_ROUTES: nat := 6

  function RaceId(r: nat): string
    requires r < MAX_ROUTES
  {
    [('A' as int + r) as char]
  }

  function KindOf(i: nat, n: nat): string {
    if i == 0 then "start" else if i + 1 == n then "finish" else "normal"
  }

  function Title(i: nat, n: nat): string {
    if i == 0 then "Start" else if i + 1 == n then "Finish" else "Normal"
  }

  function Property(name: string, kind: string, value: Yaml): Yaml {
    Record(map[NameKey := Text(name), TypeKey := Text(kind), ValueKey := value])
  }

  /** The node of point `i` of `n`. */
  function PointNode(id: int, i: nat, n: nat, raceId: string, p: Point): Yaml {
    Record(map[IdKey := Int(id), NameKey := Text(Title(i, n)), TypeKey := Text(""),
               XKey := Int(p.x), YKey := Int(p.y), WidthKey := Int(0), HeightKey := Int(0), RotationKey := Int(0),
               VisibleKey := Flag(true), PointKey := Flag(true),
               PropertiesKey := List(Properties(i, n, raceId))])
  }

  function Properties(i: nat, n: nat, raceId: string): seq<Yaml> {
    [Property("index", "int", Int(i)), Property("race_id", "string", Text(raceId)), Property("type", "string", Text(KindOf(i, n)))]
  }

  function PointNodes(id: int, raceId: string, points: seq<Point>, upTo: nat): (nodes: seq<Yaml>)
    requires upTo <= |points|
    ensures |nodes| == upTo && forall i | 0 <= i < upTo :: nodes[i] == NodeOf(id, raceId, points, i)
  {
    if upTo == 0 then []
    else PointNodes(id, raceId, points, upTo - 1) + [NodeOf(id, raceId, points, upTo - 1)]
  }

  function NodeOf(id: int, raceId: string, points: seq<Point>, i: nat): Yaml
    requires i < |points|
  {
    PointNode(id + i, i, |points|, raceId, points[i])
  }

  function RouteLayer(id: int, firstObject: int, raceId: string, points: seq<Point>): Yaml {
    Record(map[IdKey := Int(id), NameKey := Text("Checkpoint_" + raceId), TypeKey := Text("objectgroup"),
               VisibleKey := Flag(true), OpacityKey := Int(1), DrawOrderKey := Text("topdown"),
               ObjectsKey := List(PointNodes(firstObject, raceId, points, |points|))])
  }

  /** The object id that the first point of route `r` gets. */
  function FirstObject(objectId: int, routes: seq<seq<Point>>, r: nat): int
    requires r <= |routes|
  {
    if r == 0 then objectId else FirstObject(objectId, routes, r - 1) + |routes[r - 1]|
  }

  function LayerOf(layerId: int, objectId: int, routes: seq<seq<Point>>, r: nat): Yaml
    requires r < |routes| <= MAX_ROUTES
  {
    RouteLayer(layerId + r, FirstObject(objectId, routes, r), RaceId(r), routes[r])
  }

  /** The layers of the first `upTo` routes. */
  function RouteLayers(layerId: int, objectId: int, routes: seq<seq<Point>>, upTo: nat): (layers: seq<Yaml>)
    requires upTo <= |routes| <= MAX_ROUTES
    ensures |layers| == upTo
  {
    if upTo == 0 then []
    else RouteLayers(layerId, objectId, routes, upTo - 1) + [LayerOf(layerId, objectId, routes, upTo - 1)]
  }

  predicate LongEnough(routes: seq<seq<Point>>) { forall r | 0 <= r < |routes| :: |routes[r]| >= 2 }

  predicate Usable(base: Yaml) {
    && base.Record? && Has(base, LayersKey) && base.fields[LayersKey].List?
    && AsInt(Get(base, NextLayerIdKey)).Some? && AsInt(Get(base, NextObjectIdKey)).Some?
  }

  /** The exported tree; nothing is exported with a route of fewer than two points or an unusable base
      map. */
  function Export(routes: seq<seq<Point>>, base: Yaml): Option<Yaml>
    requires |routes| <= MAX_ROUTES
  {
    if !LongEnough(routes) || !Usable(base) then None
    else
      var layerId, objectId := base.fields[NextLayerIdKey].int_, base.fields[NextObjectIdKey].int_;
      var layers := base.fields[LayersKey].items + RouteLayers(layerId, objectId, routes, |routes|);
      Some(Updated(base, layers, layerId + |routes|, FirstObject(objectId, routes, |routes|)))
  }

  function Updated(base: Yaml, layers: seq<Yaml>, nextLayerId: int, nextObjectId: int): Yaml
    requires base.Record?
  {
    Record(base.fields[LayersKey := List(layers)][NextLayerIdKey := Int(nextLayerId)][NextObjectIdKey := Int(nextObjectId)])
  }

  method OnSummit(routes: seq<seq<Point>>, base: Yaml) returns (out: Option<Yaml>)
    requires |routes| <= MAX_ROUTES
    ensures out == Export(routes, base)
    ensures out == None <==> (exists r :: 0 <= r < |routes| && |routes[r]| < 2) || !Usable(base)
  {
    for r := 0 to |routes|
      invariant forall k | 0 <= k < r :: |routes[k]| >= 2
    {
      if |routes[r]| < 2 {
        return None;
      }
    }
    if !Usable(base) {
      return None;
    }
    var layers, nextLayerId, nextObjectId := AddLayers(routes, base.fields[NextLayerIdKey].int_, base.fields[NextObjectIdKey].int_);
    return Some(Updated(base, base.fields[LayersKey].items + layers, nextLayerId, nextObjectId));
  }

  method AddLayers(routes: seq<seq<Point>>, layerId: int, objectId: int)
    returns (layers: seq<Yaml>, nextLayerId: int, nextObjectId: int)
    requires |routes| <= MAX_ROUTES
    ensures layers == RouteLayers(layerId, objectId, routes, |routes|)
    ensures nextLayerId == layerId + |routes| && nextObjectId == FirstObject(objectId, routes, |routes|)
  {
    layers, nextLayerId, nextObjectId := [], layerId, objectId;
    for r := 0 to |routes|
      invariant nextLayerId == layerId + r && nextObjectId == FirstObject(objectId, routes, r)
      invariant layers == RouteLayers(layerId, objectId, routes, r)
    {
      var layer;
      SameLayer(nextLayerId, nextObjectId, layerId, objectId, routes, r);
      layer, nextObjectId := AddLayer(nextLayerId, nextObjectId, RaceId(r), routes[r]);
      nextLayerId := nextLayerId + 1;
      layers := layers + [layer];
    }
  }

  lemma SameLayer(nextLayerId: int, nextObjectId: int, layerId: int, objectId: int, routes: seq<seq<Point>>, r: nat)
    requires r < |routes| <= MAX_ROUTES && nextLayerId == layerId + r && nextObjectId == FirstObject(objectId, routes, r)
    ensures RouteLayer(nextLayerId, nextObjectId, RaceId(r), routes[r]) == LayerOf(layerId, objectId, routes, r)
  {
  }

  method AddLayer(layerId: int, firstObject: int, raceId: string, points: seq<Point>) returns (layer: Yaml, nextObjectId: int)
    ensures layer == RouteLayer(layerId, firstObject, raceId, points) && nextObjectId == firstObject + |points|
  {
    nextObjectId := firstObject;
    var objects := [];
    for i := 0 to |points|
      invariant nextObjectId == firstObject + i
      invariant objects == PointNodes(firstObject, raceId, points, i)
    {
      objects := objects + [PointNode(nextObjectId, i, |points|, raceId, points[i])];
      nextObjectId := nextObjectId + 1;
    }
    layer := Record(map[IdKey := Int(layerId), NameKey := Text("Checkpoint_" + raceId), TypeKey := Text("objectgroup"),
                        VisibleKey := Flag(true), OpacityKey := Int(1), DrawOrderKey := Text("topdown"),
                        ObjectsKey := List(objects)]);
  }
}
