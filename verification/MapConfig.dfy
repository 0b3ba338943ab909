/** What the server knows of a map: common/dto/map_config.h. */
module MapConfigs {

  datatype Rect = Rect(x: real, y: real, w: real, h: real)

  datatype Polyline = Polyline(points: seq<(real, real)>)

  datatype SpawnPoint = SpawnPoint(x: real, y: real, angle: real, carId: int, raceId: string)

  datatype NpcSpawn = NpcSpawn(x: real, y: real, angle: real)

  datatype Checkpoint = Checkpoint(x: real, y: real, w: real, h: real, rotation: real, index: int, kind: string, raceId: string)

  datatype MapConfig = MapConfig(rects: seq<Rect>, polylines: seq<Polyline>, spawns: seq<SpawnPoint>,
                                 checkpoints: map<string, seq<Checkpoint>>, npcSpawns: seq<NpcSpawn>)
}
