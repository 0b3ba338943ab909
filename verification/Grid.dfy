/** Who starts where: the placements that server/game/game.cpp makes when a race starts, with the bodies of
    the NPCs from server/game/race.cpp. */
module Grids {
  import opened Players
  import opened MapConfigs
  import opened PhysicsWorlds

  const PIXELS_PER_METER: real := 32.0

  /** The bodies of NPCs have the ids from here on; the number of an NPC is a byte. */
  const NPC_BODIES: nat := 10000

  function NpcBody(i: nat): BodyId { NPC_BODIES + (i + 1) % 256 }

  function Spot(id: BodyId, x: real, y: real): Placement { Placement(id, x / PIXELS_PER_METER, y / PIXELS_PER_METER) }

  /** The players of a race take the spawn points of its route in turn. */
  function PlayerSpot(ids: seq<PlayerId>, line: seq<SpawnPoint>, i: nat): Placement
    requires i < |ids| && line != []
  {
    Spot(ids[i], line[i % |line|].x, line[i % |line|].y)
  }

  function PlayerSpots(ids: seq<PlayerId>, line: seq<SpawnPoint>): seq<Placement> {
    if line == [] then [] else seq(|ids|, i requires 0 <= i < |ids| => PlayerSpot(ids, line, i))
  }

  function NpcSpot(npcs: seq<NpcSpawn>, i: nat): Placement
    requires i < |npcs|
  {
    Spot(NpcBody(i), npcs[i].x, npcs[i].y)
  }

  function NpcSpots(npcs: seq<NpcSpawn>): seq<Placement> { seq(|npcs|, i requires 0 <= i < |npcs| => NpcSpot(npcs, i)) }

  function Grid(ids: seq<PlayerId>, line: seq<SpawnPoint>, npcs: seq<NpcSpawn>): seq<Placement> {
    PlayerSpots(ids, line) + NpcSpots(npcs)
  }

  /** The body of one of that many NPCs. */
  ghost predicate IsNpc(id: BodyId, npcs: nat) { exists j :: 0 <= j < npcs && NpcBody(j) == id }

  // ------------------------------------------------------------------ the order of the players

  /** The order in which a std::map is gone through. */
  ghost predicate IsRoster(ids: seq<PlayerId>, keys: set<PlayerId>) {
    && (forall p :: p in ids <==> p in keys)
    && (forall i, j | 0 <= i < j < |ids| :: ids[i] < ids[j])
  }

  ghost predicate IsFirst(p: PlayerId, keys: set<PlayerId>) { p in keys && forall q | q in keys :: p <= q }

  lemma {:induction false} FirstExists(keys: set<PlayerId>)
    requires keys != {}
    ensures exists p :: IsFirst(p, keys)
    decreases |keys|
  {
    var p :| p in keys;
    if keys == {p} {
      assert IsFirst(p, keys);
    } else {
      FirstExists(keys - {p});
      var q :| IsFirst(q, keys - {p});
      var least := if p < q then p else q;
      forall r | r in keys
        ensures least <= r
      {
        assert r != p ==> r in keys - {p};
      }
      assert IsFirst(least, keys);
    }
  }

  ghost function First(keys: set<PlayerId>): (p: PlayerId)
    requires keys != {}
    ensures IsFirst(p, keys)
  {
    FirstExists(keys);
    var p :| IsFirst(p, keys); p
  }

  ghost function Roster(keys: set<PlayerId>): seq<PlayerId>
    decreases |keys|
  {
    if keys == {} then [] else [First(keys)] + Roster(keys - {First(keys)})
  }

  lemma {:induction false} RosterIsInOrder(keys: set<PlayerId>)
    ensures IsRoster(Roster(keys), keys)
    decreases |keys|
  {
    if keys != {} {
      var rest := Roster(keys - {First(keys)});
      RosterIsInOrder(keys - {First(keys)});
      forall j | 0 <= j < |rest|
        ensures First(keys) < rest[j]
      {
        assert rest[j] in rest;
      }
    }
  }

  lemma RosterOfFirst(keys: set<PlayerId>, p: PlayerId)
    requires IsFirst(p, keys)
    ensures Roster(keys) == [p] + Roster(keys - {p})
  {
    assert First(keys) == p;
  }

  // ------------------------------------------------------------------ what a city offers

  /** The spawn points by route, the route that lends its own to the routes without any, and the NPCs. */
  datatype Town = Town(spawns: map<string, seq<SpawnPoint>>, lender: string, npcs: seq<NpcSpawn>) {
    function Line(route: string): seq<SpawnPoint> {
      if route in spawns && spawns[route] != [] then spawns[route] else if lender in spawns then spawns[lender] else []
    }

    ghost function GridFor(route: string, players: map<PlayerId, Player>): seq<Placement> {
      Grid(Roster(players.Keys), Line(route), npcs)
    }
  }

  // ------------------------------------------------------------------ who keeps its place

  /** The ids of a grid: those of the players, then those of the NPCs. */
  ghost predicate HasIds(grid: seq<Placement>, ids: seq<PlayerId>, npcs: nat) {
    && |grid| == |ids| + npcs
    && (forall k | 0 <= k < |ids| :: grid[k].id == ids[k])
    && (forall k | |ids| <= k < |grid| :: grid[k].id == NpcBody(k - |ids|))
  }

  lemma GridHasIds(ids: seq<PlayerId>, line: seq<SpawnPoint>, npcs: seq<NpcSpawn>)
    requires line != [] || ids == []
    ensures HasIds(Grid(ids, line, npcs), ids, |npcs|)
  {
  }

  lemma PlayerIsLast(grid: seq<Placement>, ids: seq<PlayerId>, npcs: nat, i: nat)
    requires HasIds(grid, ids, npcs) && i < |ids| && forall a, b | 0 <= a < b < |ids| :: ids[a] < ids[b]
    ensures IsLast(grid, ids[i], i) <==> !IsNpc(ids[i], npcs)
  {
    if IsNpc(ids[i], npcs) {
      var j :| 0 <= j < npcs && NpcBody(j) == ids[i];
      assert grid[|ids| + j].id == ids[i];
    } else {
      forall k | i < k < |grid|
        ensures grid[k].id != ids[i]
      {
        if k >= |ids| {
          assert grid[k].id == NpcBody(k - |ids|);
        }
      }
    }
  }

  lemma NpcIsLast(grid: seq<Placement>, ids: seq<PlayerId>, npcs: nat, j: nat)
    requires HasIds(grid, ids, npcs) && j < npcs
    ensures IsLast(grid, NpcBody(j), |ids| + j) <==> npcs <= j + 256
  {
    if j + 256 < npcs {
      assert grid[|ids| + (j + 256)].id == NpcBody(j + 256);
    } else {
      forall k | |ids| + j < k < |grid|
        ensures grid[k].id != NpcBody(j)
      {
        assert grid[k].id == NpcBody(k - |ids|);
      }
    }
  }

  /** A player starts at its own spawn point if and only if its id is not the body of an NPC too. */
  lemma PlayersKeepTheirSpot(ids: seq<PlayerId>, line: seq<SpawnPoint>, npcs: seq<NpcSpawn>, i: nat)
    requires line != [] && i < |ids| && forall a, b | 0 <= a < b < |ids| :: ids[a] < ids[b]
    ensures Grid(ids, line, npcs)[i] == PlayerSpot(ids, line, i)
                                     == Placement(ids[i], line[i % |line|].x / 32.0, line[i % |line|].y / 32.0)
    ensures IsLast(Grid(ids, line, npcs), ids[i], i) <==> !IsNpc(ids[i], |npcs|)
  {
    GridHasIds(ids, line, npcs);
    PlayerIsLast(Grid(ids, line, npcs), ids, |npcs|, i);
  }

  /** An NPC keeps its spot if and only if no other comes 256 after it, whatever the ids of the players. */
  lemma NpcsKeepTheirSpot(ids: seq<PlayerId>, line: seq<SpawnPoint>, npcs: seq<NpcSpawn>, j: nat)
    requires j < |npcs| && (line != [] || ids == [])
    ensures Grid(ids, line, npcs)[|ids| + j] == NpcSpot(npcs, j)
                                             == Placement(10000 + (j + 1) % 256, npcs[j].x / 32.0, npcs[j].y / 32.0)
    ensures IsLast(Grid(ids, line, npcs), NpcBody(j), |ids| + j) <==> |npcs| <= j + 256
  {
    GridHasIds(ids, line, npcs);
    NpcIsLast(Grid(ids, line, npcs), ids, |npcs|, j);
  }

  lemma GridMentions(grid: seq<Placement>, ids: seq<PlayerId>, npcs: nat, id: BodyId)
    requires HasIds(grid, ids, npcs)
    ensures Mentions(grid, id) <==> id in ids || IsNpc(id, npcs)
  {
    if Mentions(grid, id) {
      var k :| 0 <= k < |grid| && grid[k].id == id;
      if k >= |ids| {
        assert NpcBody(k - |ids|) == id;
      }
    }
    if IsNpc(id, npcs) {
      var j :| 0 <= j < npcs && NpcBody(j) == id;
      assert grid[|ids| + j].id == id;
    }
  }
}
