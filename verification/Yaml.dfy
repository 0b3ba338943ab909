/** A map file as a tree, and how its values are read. */
module Yamls {
  import opened Wrappers

  /** The keys that the editor and the loader know, and any other. */
  datatype Key =
    | IdKey | NameKey | TypeKey | XKey | YKey | WidthKey | HeightKey | RotationKey | VisibleKey | PointKey | PropertiesKey
    | ValueKey | ObjectsKey | OpacityKey | DrawOrderKey | LayersKey | NextLayerIdKey | NextObjectIdKey | OtherKey(key: string)

  datatype Yaml =
    | Text(text: string)
    | Int(int_: int)
    | Real(real_: real)
    | Flag(flag: bool)
    | List(items: seq<Yaml>)
    | Record(fields: map<Key, Yaml>)

  function Get(y: Yaml, key: Key): Option<Yaml> {
    if y.Record? && key in y.fields then Some(y.fields[key]) else None
  }

  predicate Has(y: Yaml, key: Key) { y.Record? && key in y.fields }

  function AsText(y: Option<Yaml>): Option<string> {
    if y.Some? && y.value.Text? then Some(y.value.text) else None
  }

  function AsInt(y: Option<Yaml>): Option<int> {
    if y.Some? && y.value.Int? then Some(y.value.int_) else None
  }

  function AsReal(y: Option<Yaml>): Option<real> {
    if y.None? then None
    else if y.value.Int? then Some(y.value.int_ as real)
    else if y.value.Real? then Some(y.value.real_)
    else None
  }

  /** A value that may be absent but must be readable when it is there. */
  function RealOr(y: Yaml, key: Key, default: real): Option<real> {
    if Has(y, key) then AsReal(Get(y, key)) else Some(default)
  }

  function TextOr(y: Yaml, key: Key, default: string): Option<string> {
    if Has(y, key) then AsText(Get(y, key)) else Some(default)
  }

  /** What a loop over the node visits. */
  function Items(y: Option<Yaml>): seq<Yaml> { if y.Some? && y.value.List? then y.value.items else [] }
}
