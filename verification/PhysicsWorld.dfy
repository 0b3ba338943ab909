/** The bodies of server/physics/physics_world.cpp: which exist, which of them the table of cars names, and
    which belong to the geometry of the map.  Where bodies move is left to the physics engine. */
module PhysicsWorlds {
  import opened Wrappers
  import opened MapConfigs

  type BodyId = nat

  /** What a pointer to a body is here; a new body never gets an old one's. */
  type Handle = nat

  datatype Shape = Building(rect: Rect) | Border(line: Polyline) | Gate(checkpoint: Checkpoint)

  datatype Body = Car(id: BodyId, x: real, y: real) | Static(shape: Shape)

  datatype World = World(live: map<Handle, Body>, bodies: map<BodyId, Handle>, statics: seq<Handle>, next: Handle)

  /** A car to be put on the map, in meters. */
  datatype Placement = Placement(id: BodyId, x: real, y: real)

  const EMPTY_WORLD := World(map[], map[], [], 0)

  // ------------------------------------------------------------------ operations

  function Destroy(w: World, id: BodyId): World {
    if id in w.bodies then w.(live := w.live - {w.bodies[id]}, bodies := w.bodies - {id}) else w
  }

  function Create(w: World, p: Placement): World {
    w.(live := w.live[w.next := Car(p.id, p.x, p.y)], bodies := w.bodies[p.id := w.next], next := w.next + 1)
  }

  /** A car replaces the one of the same id, if there is one. */
  function Place(w: World, p: Placement): World { Create(Destroy(w, p.id), p) }

  function PlaceAll(w: World, ps: seq<Placement>): World {
    if ps == [] then w else Place(PlaceAll(w, ps[..|ps| - 1]), ps[|ps| - 1])
  }

  /** The cars of `ids` go, those that have a body. */
  function DestroyAll(w: World, ids: set<BodyId>): World {
    w.(live := w.live - (set id | id in ids && id in w.bodies :: w.bodies[id]), bodies := w.bodies - ids)
  }

  function ClearStatics(w: World): World {
    w.(live := w.live - (set i | 0 <= i < |w.statics| :: w.statics[i]), statics := [])
  }

  function AddShape(w: World, s: Shape): World {
    w.(live := w.live[w.next := Static(s)], statics := w.statics + [w.next], next := w.next + 1)
  }

  function AddShapes(w: World, shapes: seq<Shape>): World {
    if shapes == [] then w else AddShape(AddShapes(w, shapes[..|shapes| - 1]), shapes[|shapes| - 1])
  }

  function LoadGeometry(w: World, shapes: seq<Shape>): World { AddShapes(ClearStatics(w), shapes) }

  /** Bodies move; none comes or goes. */
  function Moved(w: World, moves: map<Handle, (real, real)>): World {
    w.(live := map h | h in w.live ::
                 if h in moves && w.live[h].Car? then Car(w.live[h].id, moves[h].0, moves[h].1) else w.live[h])
  }

  // ------------------------------------------------------------------ the invariant

  /** Every live body is the one that the table names for its car, or one of the walls; so no car has two
      bodies, and no body is out of reach. */
  ghost predicate Sound(w: World) { CarsOk(w.live, w.bodies) && WallsOk(w.live, w.statics) && Younger(w.live, w.next) }

  ghost predicate CarsOk(live: map<Handle, Body>, bodies: map<BodyId, Handle>) {
    && (forall id | id in bodies :: bodies[id] in live && live[bodies[id]].Car? && live[bodies[id]].id == id)
    && (forall h | h in live && live[h].Car? :: live[h].id in bodies && bodies[live[h].id] == h)
  }

  ghost predicate WallsOk(live: map<Handle, Body>, statics: seq<Handle>) {
    && (forall i | 0 <= i < |statics| :: statics[i] in live && live[statics[i]].Static?)
    && (forall i, j | 0 <= i < j < |statics| :: statics[i] != statics[j])
    && (forall h | h in live && live[h].Static? :: h in statics)
  }

  ghost predicate Younger(live: map<Handle, Body>, next: Handle) { forall h | h in live :: h < next }

  lemma DestroyKeepsSound(w: World, id: BodyId)
    requires Sound(w)
    ensures Sound(Destroy(w, id)) && Destroy(w, id).bodies == w.bodies - {id}
  {
  }

  lemma CreateKeepsSound(w: World, p: Placement)
    requires Sound(w) && p.id !in w.bodies
    ensures Sound(Create(w, p))
  {
  }

  lemma PlaceKeepsSound(w: World, p: Placement)
    requires Sound(w)
    ensures Sound(Place(w, p))
  {
    DestroyKeepsSound(w, p.id);
    CreateKeepsSound(Destroy(w, p.id), p);
  }

  lemma DestroyAllKeepsSound(w: World, ids: set<BodyId>)
    requires Sound(w)
    ensures Sound(DestroyAll(w, ids))
  {
  }

  /** Of the cars of `ids` no body is left, and the others are as they were. */
  lemma DestroyAllDestroys(w: World, ids: set<BodyId>, id: BodyId)
    requires Sound(w)
    ensures id in ids ==> id !in DestroyAll(w, ids).bodies && BodiesFor(DestroyAll(w, ids), id) == {}
    ensures id !in ids ==> KeptCar(w, DestroyAll(w, ids), id)
    ensures SameWalls(w, DestroyAll(w, ids))
  {
  }

  lemma ClearKeepsSound(w: World)
    requires Sound(w)
    ensures Sound(ClearStatics(w))
  {
  }

  lemma AddShapeKeepsSound(w: World, s: Shape)
    requires Sound(w)
    ensures Sound(AddShape(w, s))
  {
  }

  lemma MovedKeepsSound(w: World, moves: map<Handle, (real, real)>)
    requires Sound(w)
    ensures Sound(Moved(w, moves))
  {
  }

  // ------------------------------------------------------------------ putting many cars on the map

  /** The last placement of a car, which is the one that counts. */
  ghost predicate IsLast(ps: seq<Placement>, id: BodyId, i: nat) {
    i < |ps| && ps[i].id == id && forall j | i < j < |ps| :: ps[j].id != id
  }

  ghost predicate Mentions(ps: seq<Placement>, id: BodyId) { exists i :: 0 <= i < |ps| && ps[i].id == id }

  ghost predicate IsAt(w: World, id: BodyId, x: real, y: real) {
    id in w.bodies && w.bodies[id] in w.live && w.live[w.bodies[id]] == Car(id, x, y)
  }

  ghost predicate SameBody(w: World, w': World, h: Handle) { h in w.live && h in w'.live && w'.live[h] == w.live[h] }

  /** A car that is placed gets a new body at its last place; the others keep theirs, if they have one. */
  ghost predicate PlacedCar(w: World, w': World, ps: seq<Placement>, id: BodyId) {
    && (forall i: nat | IsLast(ps, id, i) :: IsAt(w', id, ps[i].x, ps[i].y) && w'.bodies[id] >= w.next)
    && (!Mentions(ps, id) ==> KeptCar(w, w', id))
  }

  ghost predicate KeptCar(w: World, w': World, id: BodyId) {
    && (id in w'.bodies <==> id in w.bodies)
    && (id in w.bodies ==> w'.bodies[id] == w.bodies[id] && SameBody(w, w', w.bodies[id]))
  }

  ghost predicate SameWalls(w: World, w': World) {
    w'.statics == w.statics && forall i | 0 <= i < |w.statics| :: SameBody(w, w', w.statics[i])
  }

  lemma PlacePlaces(w: World, p: Placement, id: BodyId)
    requires Sound(w)
    ensures var w' := Place(w, p);
            && IsAt(w', p.id, p.x, p.y) && w'.bodies[p.id] == w.next
            && (id != p.id ==> KeptCar(w, w', id))
            && SameWalls(w, w') && w'.next == w.next + 1
  {
  }

  lemma {:induction false} PlaceAllPlaces(w: World, ps: seq<Placement>, id: BodyId)
    requires Sound(w)
    ensures var w' := PlaceAll(w, ps);
            Sound(w') && PlacedCar(w, w', ps, id) && SameWalls(w, w') && w'.next == w.next + |ps|
    decreases |ps|
  {
    if ps != [] {
      var before, last := ps[..|ps| - 1], ps[|ps| - 1];
      PlaceAllPlaces(w, before, id);
      PlaceKeepsSound(PlaceAll(w, before), last);
      PlacePlaces(PlaceAll(w, before), last, id);
      OneMorePlaced(w, PlaceAll(w, before), PlaceAll(w, ps), ps, id);
    }
  }

  lemma OneMorePlaced(w: World, w0: World, w': World, ps: seq<Placement>, id: BodyId)
    requires ps != [] && PlacedCar(w, w0, ps[..|ps| - 1], id) && w0.next >= w.next
    requires var p := ps[|ps| - 1];
             && IsAt(w', p.id, p.x, p.y) && w'.bodies[p.id] == w0.next
             && (id != p.id ==> KeptCar(w0, w', id))
    ensures PlacedCar(w, w', ps, id)
  {
    var before, n := ps[..|ps| - 1], |ps| - 1;
    forall i: nat | IsLast(ps, id, i)
      ensures IsAt(w', id, ps[i].x, ps[i].y) && w'.bodies[id] >= w.next
    {
      if i < n {
        assert before[i] == ps[i] && ps[n].id != id;
        assert IsLast(before, id, i);
      }
    }
    if !Mentions(ps, id) {
      assert ps[n].id != id;
      assert !Mentions(before, id);
    }
  }

  lemma {:induction false} LastIndex(ps: seq<Placement>, id: BodyId, i: nat) returns (k: nat)
    requires i < |ps| && ps[i].id == id
    ensures IsLast(ps, id, k)
    decreases |ps| - i
  {
    if j :| i < j < |ps| && ps[j].id == id {
      k := LastIndex(ps, id, j);
    } else {
      k := i;
    }
  }

  // ------------------------------------------------------------------ loading the geometry again

  ghost function ShapesOf(w: World): seq<Shape>
    requires WallsOk(w.live, w.statics)
  {
    seq(|w.statics|, i requires 0 <= i < |w.statics| => w.live[w.statics[i]].shape)
  }

  /** What is added to a world without walls is all its walls, in that order; the cars stay. */
  lemma {:induction false} AddShapesAdds(w: World, shapes: seq<Shape>)
    requires Sound(w) && w.statics == []
    ensures var w' := AddShapes(w, shapes);
            && Sound(w') && w'.bodies == w.bodies && w'.next == w.next + |shapes| && ShapesOf(w') == shapes
            && (forall h | h in w.live :: SameBody(w, w', h))
            && (forall i | 0 <= i < |w'.statics| :: w'.statics[i] >= w.next)
    decreases |shapes|
  {
    if shapes != [] {
      var before := shapes[..|shapes| - 1];
      AddShapesAdds(w, before);
      AddShapeKeepsSound(AddShapes(w, before), shapes[|before|]);
      assert shapes == before + [shapes[|before|]];
    }
  }

  /** Loading a map puts exactly its walls up, all new, and leaves the cars where they are. */
  lemma LoadingReplacesWalls(w: World, shapes: seq<Shape>)
    requires Sound(w)
    ensures var w' := LoadGeometry(w, shapes);
            && Sound(w') && w'.bodies == w.bodies && w'.next == w.next + |shapes| && ShapesOf(w') == shapes
            && (forall id | id in w.bodies :: SameBody(w, w', w.bodies[id]))
            && (forall i | 0 <= i < |w'.statics| :: w'.statics[i] >= w.next)
  {
    ClearKeepsSound(w);
    AddShapesAdds(ClearStatics(w), shapes);
  }

  // ------------------------------------------------------------------ starting

  /** What starting a room's game does to the world. */
  function StartWorld(w: World, shapes: seq<Shape>, ps: seq<Placement>): World { PlaceAll(LoadGeometry(w, shapes), ps) }

  /** After a start the walls are those of the map, every car of the grid has a body at its last place, all
      of them made by this start, and the cars of other ids are as they were. */
  ghost predicate Started(w: World, w': World, shapes: seq<Shape>, ps: seq<Placement>) {
    && Sound(w') && ShapesOf(w') == shapes
    && (forall i | 0 <= i < |w'.statics| :: w'.statics[i] >= w.next)
    && forall id :: PlacedCar(w, w', ps, id)
  }

  lemma PlacedSinceBefore(w: World, loaded: World, w': World, ps: seq<Placement>, id: BodyId)
    requires PlacedCar(loaded, w', ps, id) && loaded.bodies == w.bodies && loaded.next >= w.next
    requires id in w.bodies ==> SameBody(w, loaded, w.bodies[id])
    ensures PlacedCar(w, w', ps, id)
  {
  }

  lemma StartingStarts(w: World, shapes: seq<Shape>, ps: seq<Placement>)
    requires Sound(w)
    ensures Started(w, StartWorld(w, shapes, ps), shapes, ps)
  {
    var loaded, w' := LoadGeometry(w, shapes), StartWorld(w, shapes, ps);
    LoadingReplacesWalls(w, shapes);
    PlaceAllPlaces(loaded, ps, 0);
    forall id
      ensures PlacedCar(w, w', ps, id)
    {
      PlaceAllPlaces(loaded, ps, id);
      PlacedSinceBefore(w, loaded, w', ps, id);
    }
  }

  /** All the bodies of a car. */
  ghost function BodiesFor(w: World, id: BodyId): set<Handle> {
    set h | h in w.live && w.live[h].Car? && w.live[h].id == id
  }

  lemma OneBodyEach(w: World, id: BodyId)
    requires Sound(w) && id in w.bodies
    ensures BodiesFor(w, id) == {w.bodies[id]}
  {
  }

  lemma TableNamesAllBodies(w: World, id: BodyId)
    ensures Sound(w) ==> BodiesFor(w, id) == if id in w.bodies then {w.bodies[id]} else {}
  {
    if Sound(w) && id in w.bodies {
      OneBodyEach(w, id);
    }
  }

  /** Of what there was before a start, only cars that are not on its grid survive it. */
  lemma SurvivorsAreOthers(w: World, w': World, shapes: seq<Shape>, ps: seq<Placement>, h: Handle)
    requires Sound(w) && Started(w, w', shapes, ps) && h in w'.live && h < w.next
    ensures h in w.live && w.live[h].Car? && w'.live[h] == w.live[h]
    ensures w.bodies[w.live[h].id] == h && !Mentions(ps, w.live[h].id)
  {
    assert w'.live[h].Car?;
    var id := w'.live[h].id;
    assert PlacedCar(w, w', ps, id);
    if Mentions(ps, id) {
      var i :| 0 <= i < |ps| && ps[i].id == id;
      var k := LastIndex(ps, id, i);
    }
  }

  lemma KeptIsOld(w: World, w': World, ps: seq<Placement>, id: BodyId)
    requires Sound(w) && PlacedCar(w, w', ps, id)
    ensures !Mentions(ps, id) && id in w'.bodies ==> w'.bodies[id] < w.next
  {
  }

  /** Starting twice, from any sound world and with the same cars on both grids: the walls are those of
      the second map, every car of the grid has exactly one body, at its last place on the second grid, and
      nothing that the first start made is left. */
  lemma StartingTwiceLeavesOneOfEach(w: World, s1: seq<Shape>, g1: seq<Placement>, s2: seq<Shape>, g2: seq<Placement>)
    requires Sound(w) && forall id :: Mentions(g1, id) <==> Mentions(g2, id)
    ensures var w1 := StartWorld(w, s1, g1);
            var w2 := StartWorld(w1, s2, g2);
            && Sound(w2) && ShapesOf(w2) == s2
            && (forall id | Mentions(g2, id) :: id in w2.bodies && BodiesFor(w2, id) == {w2.bodies[id]})
            && (forall i: nat, id | IsLast(g2, id, i) :: IsAt(w2, id, g2[i].x, g2[i].y))
            && (forall h | w.next <= h < w1.next :: h !in w2.live)
            && (forall id | !Mentions(g2, id) :: KeptCar(w, w2, id))
  {
    var w1 := StartWorld(w, s1, g1);
    var w2 := StartWorld(w1, s2, g2);
    StartingStarts(w, s1, g1);
    StartingStarts(w1, s2, g2);
    forall id | Mentions(g2, id)
      ensures id in w2.bodies && BodiesFor(w2, id) == {w2.bodies[id]}
    {
      var i :| 0 <= i < |g2| && g2[i].id == id;
      var k := LastIndex(g2, id, i);
      assert PlacedCar(w1, w2, g2, id);
      OneBodyEach(w2, id);
    }
    forall i: nat, id | IsLast(g2, id, i)
      ensures IsAt(w2, id, g2[i].x, g2[i].y)
    {
      assert PlacedCar(w1, w2, g2, id);
    }
    forall h | w.next <= h < w1.next
      ensures h !in w2.live
    {
      if h in w2.live {
        SurvivorsAreOthers(w1, w2, s2, g2, h);
        KeptIsOld(w, w1, g1, w1.live[h].id);
      }
    }
    forall id | !Mentions(g2, id)
      ensures KeptCar(w, w2, id)
    {
      assert PlacedCar(w, w1, g1, id) && PlacedCar(w1, w2, g2, id);
    }
  }

  // ------------------------------------------------------------------ the geometry of a map

  function Buildings(rects: seq<Rect>): seq<Shape> { seq(|rects|, i requires 0 <= i < |rects| => Building(rects[i])) }

  /** A line of fewer than two points is no wall. */
  function Borders(lines: seq<Polyline>): seq<Shape> {
    if lines == [] then []
    else
      var last := lines[|lines| - 1];
      Borders(lines[..|lines| - 1]) + if |last.points| < 2 then [] else [Border(last)]
  }

  /** Every line of the map that has two points or more is a border, as often as the map lists it, and nothing else. */
  lemma {:induction false} BordersAreLines(lines: seq<Polyline>, s: Shape)
    ensures multiset(Borders(lines))[s] == if s.Border? && |s.line.points| >= 2 then multiset(lines)[s.line] else 0
    decreases |lines|
  {
    if lines != [] {
      var n := |lines| - 1;
      BordersAreLines(lines[..n], s);
      assert lines == lines[..n] + [lines[n]];
    }
  }

  function Gates(checkpoints: seq<Checkpoint>): seq<Shape> {
    seq(|checkpoints|, i requires 0 <= i < |checkpoints| => Gate(checkpoints[i]))
  }

  /** The gates of some routes, route by route. */
  function GatesOf(ids: seq<string>, routes: map<string, seq<Checkpoint>>): seq<Shape>
    requires forall id | id in ids :: id in routes
  {
    if ids == [] then [] else GatesOf(ids[..|ids| - 1], routes) + Gates(routes[ids[|ids| - 1]])
  }

  ghost predicate RouteOrder(ids: seq<string>, keys: set<string>) {
    (forall id :: id in ids <==> id in keys) && forall i, j | 0 <= i < j < |ids| :: ids[i] != ids[j]
  }

  /** One body for each building, border and checkpoint, the routes in the order of the hash table. */
  ghost predicate IsGeometry(shapes: seq<Shape>, cfg: MapConfig) {
    exists ids :: RouteOrder(ids, cfg.checkpoints.Keys)
                  && shapes == Buildings(cfg.rects) + Borders(cfg.polylines) + GatesOf(ids, cfg.checkpoints)
  }

  class PhysicsWorld {
    var live: map<Handle, Body>
    var bodies: map<BodyId, Handle>
    var statics: seq<Handle>
    var next: Handle

    ghost function View(): World
      reads this
    {
      World(live, bodies, statics, next)
    }

    constructor ()
      ensures View() == EMPTY_WORLD
    {
      live, bodies, statics, next := map[], map[], [], 0;
    }

    method NewBody(body: Body) returns (h: Handle)
      modifies this`live, this`next
      ensures h == old(next) && View() == old(View()).(live := old(live)[h := body], next := h + 1)
    {
      h := next;
      live, next := live[h := body], next + 1;
    }

    method CreateCarBody(id: BodyId, x: real, y: real)
      modifies this
      ensures View() == Place(old(View()), Placement(id, x, y))
    {
      DestroyBody(id);
      var h := NewBody(Car(id, x, y));
      bodies := bodies[id := h];
    }

    /** The one body that the car has, or none if it has no body. */
    method GetBody(id: BodyId) returns (h: Option<Handle>)
      ensures h == if id in bodies then Some(bodies[id]) else None
      ensures Sound(View()) ==> BodiesFor(View(), id) == if h.Some? then {h.value} else {}
    {
      TableNamesAllBodies(View(), id);
      h := if id in bodies then Some(bodies[id]) else None;
    }

    method DestroyBody(id: BodyId)
      modifies this
      ensures View() == Destroy(old(View()), id)
    {
      if id in bodies {
        live := live - {bodies[id]};
        bodies := bodies - {id};
      }
    }

    method Step(moves: map<Handle, (real, real)>)
      modifies this`live
      ensures View() == Moved(old(View()), moves)
    {
      live := map h | h in live ::
        if h in moves && live[h].Car? then Car(live[h].id, moves[h].0, moves[h].1) else live[h];
    }

    method ClearStaticGeometry()
      modifies this
      ensures View() == ClearStatics(old(View()))
    {
      for i := 0 to |statics|
        invariant statics == old(statics)
        invariant View() == old(View()).(live := old(live) - set k | 0 <= k < i :: statics[k])
      {
        live := live - {statics[i]};
      }
      statics := [];
    }

    method AddStaticBody(s: Shape)
      modifies this
      ensures View() == AddShape(old(View()), s)
    {
      var h := NewBody(Static(s));
      statics := statics + [h];
    }

    method LoadStaticGeometry(cfg: MapConfig) returns (ghost shapes: seq<Shape>)
      modifies this
      ensures IsGeometry(shapes, cfg) && View() == LoadGeometry(old(View()), shapes)
    {
      ClearStaticGeometry();
      ghost var w := View();
      AddBuildings(cfg.rects, w);
      AddBorders(cfg.polylines, w, Buildings(cfg.rects));
      ghost var ids := AddGates(cfg.checkpoints, w, Buildings(cfg.rects) + Borders(cfg.polylines));
      shapes := Buildings(cfg.rects) + Borders(cfg.polylines) + GatesOf(ids, cfg.checkpoints);
    }

    method AddBuildings(rects: seq<Rect>, ghost w: World)
      requires View() == w
      modifies this
      ensures View() == AddShapes(w, Buildings(rects))
    {
      for i := 0 to |rects|
        invariant View() == AddShapes(w, Buildings(rects[..i]))
      {
        AddStaticBody(Building(rects[i]));
        OneMoreShape(w, Buildings(rects[..i]), Building(rects[i]));
        assert Buildings(rects[..i + 1]) == Buildings(rects[..i]) + [Building(rects[i])];
      }
      assert rects[..|rects|] == rects;
    }

    method AddBorders(lines: seq<Polyline>, ghost w: World, ghost before: seq<Shape>)
      requires View() == AddShapes(w, before)
      modifies this
      ensures View() == AddShapes(w, before + Borders(lines))
    {
      assert before + Borders(lines[..0]) == before;
      for i := 0 to |lines|
        invariant View() == AddShapes(w, before + Borders(lines[..i]))
      {
        assert lines[..i + 1][..i] == lines[..i];
        ghost var done := before + Borders(lines[..i]);
        if |lines[i].points| < 2 {
          assert before + Borders(lines[..i + 1]) == done;
          continue;
        }
        AddStaticBody(Border(lines[i]));
        OneMoreShape(w, done, Border(lines[i]));
        assert before + Borders(lines[..i + 1]) == done + [Border(lines[i])];
      }
      assert lines[..|lines|] == lines;
    }

    method AddGates(routes: map<string, seq<Checkpoint>>, ghost w: World, ghost before: seq<Shape>)
      returns (ghost ids: seq<string>)
      requires View() == AddShapes(w, before)
      modifies this
      ensures RouteOrder(ids, routes.Keys) && View() == AddShapes(w, before + GatesOf(ids, routes))
    {
      ids := [];
      assert before + GatesOf([], routes) == before;
      var todo := routes.Keys;
      while todo != {}
        invariant todo <= routes.Keys && RouteOrder(ids, routes.Keys - todo)
        invariant View() == AddShapes(w, before + GatesOf(ids, routes))
      {
        var id :| id in todo;
        todo := todo - {id};
        AddRoute(routes[id], w, before + GatesOf(ids, routes));
        assert (ids + [id])[..|ids|] == ids;
        assert before + GatesOf(ids + [id], routes) == before + GatesOf(ids, routes) + Gates(routes[id]);
        ids := ids + [id];
      }
    }

    method AddRoute(checkpoints: seq<Checkpoint>, ghost w: World, ghost before: seq<Shape>)
      requires View() == AddShapes(w, before)
      modifies this
      ensures View() == AddShapes(w, before + Gates(checkpoints))
    {
      assert before + Gates(checkpoints[..0]) == before;
      for i := 0 to |checkpoints|
        invariant View() == AddShapes(w, before + Gates(checkpoints[..i]))
      {
        ghost var done := before + Gates(checkpoints[..i]);
        AddStaticBody(Gate(checkpoints[i]));
        OneMoreShape(w, done, Gate(checkpoints[i]));
        assert before + Gates(checkpoints[..i + 1]) == done + [Gate(checkpoints[i])];
      }
      assert checkpoints[..|checkpoints|] == checkpoints;
    }
  }

  lemma OneMoreShape(w: World, shapes: seq<Shape>, s: Shape)
    ensures AddShapes(w, shapes + [s]) == AddShape(AddShapes(w, shapes), s)
  {
    assert (shapes + [s])[..|shapes|] == shapes;
  }
}
