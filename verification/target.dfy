/**
  The records declared by the generated code.  Definitions are flattened into the
  project root and every missing `relPath` has become a string.  The field-instance
  value type `V` is a parameter: in the generated source text each value is still a
  string literal (`V = string`), and once the constant is built it is a parsed JSON
  value (`V = JsonValue`).  Field names are the generated snake_case names spelled
  in camelCase (`layer_type` is `layerType`, `tileset_def_uid` is `tilesetDefUid`,
  `rel_path` is `relPath`, `tile_rect` is `tileRect` and so on); `cwid` and `chei`
  are lower-case there and stay so.
 */
module Target {
  import opened Basics

  datatype GridTile = GridTile(px: seq<u32>, src: seq<u32>, f: u32, t: u32, d: seq<u32>, a: u32)

  datatype FieldInstance<V> = FieldInstance(identifier: string, fieldType: string, value: V)

  datatype EntityInstance<V> = EntityInstance(identifier: string, px: seq<u32>, fieldInstances: seq<FieldInstance<V>>)

  datatype LayerInstance<V> = LayerInstance(
    identifier: string,
    layerType: string,
    gridSize: u32,
    cwid: u32,
    chei: u32,
    tilesetDefUid: Option<u32>,
    gridTiles: seq<GridTile>,
    entityInstances: seq<EntityInstance<V>>)

  datatype Level<V> = Level(identifier: string, width: u32, height: u32, layerInstances: seq<LayerInstance<V>>)

  datatype Tileset = Tileset(uid: u32, relPath: string, width: u32, height: u32, tileGridSize: u32)

  datatype EntityDef = EntityDef(identifier: string, uid: u32, width: u32, height: u32)

  datatype TileRect = TileRect(tilesetUid: u32, x: u32, y: u32, w: u32, h: u32)

  datatype EnumValueDef = EnumValueDef(id: string, tileRect: TileRect)

  datatype EnumDef = EnumDef(identifier: string, uid: u32, values: seq<EnumValueDef>)

  datatype Project<V> = Project(levels: seq<Level<V>>, tilesets: seq<Tileset>, entities: seq<EntityDef>, enums: seq<EnumDef>)
}
