/** server/map/map_config_loader.cpp, the checkpoints: they are collected from the layers whose name
    begins with "Checkpoint_", put together by race and sorted by index. */
module MapConfigLoaders {
  import opened Wrappers
  import opened Yamls
  import opened Sorting
  import opened MapConfigs

  const CHECKPOINTS: string := "Checkpoint_"

  predicate ByIndex(a: Checkpoint, b: Checkpoint) { a.index < b.index }

  /** The properties in their order, the last one of a name counting. */
  function ReadProperties(cp: Checkpoint, props: seq<Yaml>): Option<Checkpoint>
    decreases |props|
  {
    if props == [] then Some(cp)
    else
      var cp :- ReadProperty(cp, props[0]);
      ReadProperties(cp, props[1..])
  }

  function ReadProperty(cp: Checkpoint, prop: Yaml): Option<Checkpoint> {
    var name :- AsText(Get(prop, NameKey));
    if name == "index" then
      var index :- AsInt(Get(prop, ValueKey));
      Some(cp.(index := index))
    else if name == "type" then
      var kind :- AsText(Get(prop, ValueKey));
      Some(cp.(kind := kind))
    else if name == "race_id" then
      var raceId :- AsText(Get(prop, ValueKey));
      Some(cp.(raceId := raceId))
    else Some(cp)
  }

  /** A checkpoint needs a place; the rest has defaults. */
  function ReadCheckpoint(obj: Yaml, raceId: string): Option<Checkpoint> {
    var x :- AsReal(Get(obj, XKey));
    var y :- AsReal(Get(obj, YKey));
    var w :- RealOr(obj, WidthKey, 0.0);
    var h :- RealOr(obj, HeightKey, 0.0);
    var rotation :- RealOr(obj, RotationKey, 0.0);
    ReadProperties(Checkpoint(x, y, w, h, rotation, 0, "normal", raceId), Items(Get(obj, PropertiesKey)))
  }

  predicate IsCheckpointLayer(name: string) { CHECKPOINTS <= name }

  /** The race is named by the end of the layer's name. */
  function RaceOfLayer(name: string): string
    requires IsCheckpointLayer(name)
  {
    if name == CHECKPOINTS then "A" else name[|CHECKPOINTS|..]
  }

  /** What the objects of one layer add; objects of other layers only need a place. */
  function ReadObjects(objects: seq<Yaml>, name: string): Option<seq<Checkpoint>> {
    if objects == [] then Some([])
    else
      var before :- ReadObjects(objects[..|objects| - 1], name);
      var last := objects[|objects| - 1];
      if IsCheckpointLayer(name) then
        var cp :- ReadCheckpoint(last, RaceOfLayer(name));
        Some(before + [cp])
      else
        var _ :- AsReal(Get(last, XKey));
        var _ :- AsReal(Get(last, YKey));
        Some(before)
  }

  function ReadLayer(layer: Yaml): Option<seq<Checkpoint>> {
    var kind :- TextOr(layer, TypeKey, "");
    var name :- TextOr(layer, NameKey, "");
    if kind != "objectgroup" || !Has(layer, ObjectsKey) then Some([])
    else ReadObjects(Items(Get(layer, ObjectsKey)), name)
  }

  function ReadLayers(layers: seq<Yaml>): Option<seq<Checkpoint>> {
    if layers == [] then Some([])
    else
      var before :- ReadLayers(layers[..|layers| - 1]);
      var last :- ReadLayer(layers[|layers| - 1]);
      Some(before + last)
  }

  /** The checkpoints by race, in the order in which they were read. */
  function Grouped(cps: seq<Checkpoint>): map<string, seq<Checkpoint>> {
    if cps == [] then map[]
    else
      var before := Grouped(cps[..|cps| - 1]);
      var last := cps[|cps| - 1];
      before[last.raceId := (if last.raceId in before then before[last.raceId] else []) + [last]]
  }

  /** Every race's checkpoints sorted by index; sorting may put equal indices in any order. */
  ghost predicate SortedFrom(cfg: map<string, seq<Checkpoint>>, groups: map<string, seq<Checkpoint>>) {
    && cfg.Keys == groups.Keys
    && forall id | id in cfg :: multiset(cfg[id]) == multiset(groups[id]) && Ordered(cfg[id], ByIndex)
  }

  /** What may be loaded: nothing from a tree whose values cannot be read. */
  ghost predicate Loads(root: Yaml, cfg: Option<map<string, seq<Checkpoint>>>) {
    var cps := ReadLayers(Items(Get(root, LayersKey)));
    if cps.Some? then cfg.Some? && SortedFrom(cfg.value, Grouped(cps.value)) else cfg == None
  }

  method LoadFromYaml(root: Yaml) returns (cfg: Option<map<string, seq<Checkpoint>>>)
    ensures Loads(root, cfg)
  {
    var layers := Items(Get(root, LayersKey));
    var checkpoints: map<string, seq<Checkpoint>> := map[];
    ghost var read := [];
    for l := 0 to |layers|
      invariant ReadLayers(layers[..l]) == Some(read) && checkpoints == Grouped(read)
    {
      assert layers[..l + 1][..l] == layers[..l];
      var found := LoadLayer(layers[l]);
      if found == None {
        NothingFromBadLayer(layers, l);
        return None;
      }
      checkpoints := AddAll(checkpoints, found.value, read);
      read := read + found.value;
    }
    assert layers[..|layers|] == layers;
    var sorted := SortAll(checkpoints);
    return Some(sorted);
  }

  lemma OneMoreGrouped(cps: seq<Checkpoint>, last: Checkpoint)
    ensures var before := Grouped(cps);
            Grouped(cps + [last]) == before[last.raceId := (if last.raceId in before then before[last.raceId] else []) + [last]]
  {
    assert (cps + [last])[..|cps|] == cps;
  }

  method AddAll(groups: map<string, seq<Checkpoint>>, found: seq<Checkpoint>, ghost read: seq<Checkpoint>)
    returns (checkpoints: map<string, seq<Checkpoint>>)
    requires groups == Grouped(read)
    ensures checkpoints == Grouped(read + found)
  {
    checkpoints := groups;
    assert read + found[..0] == read;
    for k := 0 to |found|
      invariant checkpoints == Grouped(read + found[..k])
    {
      var cp := found[k];
      assert read + found[..k + 1] == read + found[..k] + [cp];
      OneMoreGrouped(read + found[..k], cp);
      checkpoints := checkpoints[cp.raceId := (if cp.raceId in checkpoints then checkpoints[cp.raceId] else []) + [cp]];
    }
    assert found[..|found|] == found;
  }

  method SortAll(groups: map<string, seq<Checkpoint>>) returns (cfg: map<string, seq<Checkpoint>>)
    ensures SortedFrom(cfg, groups)
  {
    cfg := groups;
    var left := cfg.Keys;
    while left != {}
      invariant left <= cfg.Keys == groups.Keys
      invariant forall id | id in left :: cfg[id] == groups[id]
      invariant forall id | id in cfg.Keys - left :: multiset(cfg[id]) == multiset(groups[id]) && Ordered(cfg[id], ByIndex)
      decreases |left|
    {
      var id :| id in left;
      var sorted := Sort(cfg[id], ByIndex);
      cfg := cfg[id := sorted];
      left := left - {id};
    }
  }

  method LoadLayer(layer: Yaml) returns (cps: Option<seq<Checkpoint>>)
    ensures cps == ReadLayer(layer)
  {
    var kind := TextOr(layer, TypeKey, "");
    var name := TextOr(layer, NameKey, "");
    if kind == None || name == None {
      return None;
    }
    if kind.value != "objectgroup" || !Has(layer, ObjectsKey) {
      return Some([]);
    }
    var objects := Items(Get(layer, ObjectsKey));
    var found := [];
    for i := 0 to |objects|
      invariant ReadObjects(objects[..i], name.value) == Some(found)
    {
      assert objects[..i + 1][..i] == objects[..i];
      var x, y := AsReal(Get(objects[i], XKey)), AsReal(Get(objects[i], YKey));
      if x == None || y == None {
        NothingFromBadObject(objects, name.value, i);
        return None;
      }
      if IsCheckpointLayer(name.value) {
        var cp := ReadCheckpoint(objects[i], RaceOfLayer(name.value));
        if cp == None {
          NothingFromBadObject(objects, name.value, i);
          return None;
        }
        found := found + [cp.value];
      }
    }
    assert objects[..|objects|] == objects;
    return Some(found);
  }

  lemma {:induction false} NothingFromBadObject(objects: seq<Yaml>, name: string, i: nat)
    requires i < |objects| && ReadObjects(objects[..i + 1], name) == None
    ensures ReadObjects(objects, name) == None
    decreases |objects|
  {
    if i + 1 == |objects| {
      assert objects[..i + 1] == objects;
    } else {
      assert objects[..|objects| - 1][..i + 1] == objects[..i + 1];
      NothingFromBadObject(objects[..|objects| - 1], name, i);
    }
  }

  lemma {:induction false} NothingFromBadLayer(layers: seq<Yaml>, i: nat)
    requires i < |layers| && ReadLayers(layers[..i + 1]) == None
    ensures ReadLayers(layers) == None
    decreases |layers|
  {
    if i + 1 == |layers| {
      assert layers[..i + 1] == layers;
    } else {
      assert layers[..|layers| - 1][..i + 1] == layers[..i + 1];
      NothingFromBadLayer(layers[..|layers| - 1], i);
    }
  }
}
