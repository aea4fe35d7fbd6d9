/**
  The records of the level-editor export as the build script deserialises them.
  Field names follow the export's JSON keys; the editor-internal keys written with
  a leading double underscore (`__identifier`, `__gridSize`, `__cWid`, `__cHei`,
  `__tilesetDefUid`, `__value`) are spelled without it.  `__type` is renamed, as
  `type` is a keyword: it is `layerType` on a layer and `fieldType` on a field
  instance.
 */
module Source {
  import opened Basics
  import opened Json

  datatype Project = Project(defs: Defs, levels: seq<Level>)

  datatype Defs = Defs(tilesets: seq<Tileset>, entities: seq<EntityDef>, enums: seq<EnumDef>)

  /** `relPath` may be missing from the export. */
  datatype Tileset = Tileset(uid: u32, relPath: Option<string>, pxWid: u32, pxHei: u32, tileGridSize: u32)

  datatype EntityDef = EntityDef(identifier: string, uid: u32, width: u32, height: u32)

  datatype EnumDef = EnumDef(identifier: string, uid: u32, values: seq<EnumValueDef>)

  datatype EnumValueDef = EnumValueDef(id: string, tileRect: TileRect)

  datatype TileRect = TileRect(tilesetUid: u32, x: u32, y: u32, w: u32, h: u32)

  datatype Level = Level(identifier: string, pxWid: u32, pxHei: u32, layerInstances: seq<LayerInstance>)

  /** `tilesetDefUid` (`__tilesetDefUid`) may be missing from the export. */
  datatype LayerInstance = LayerInstance(
    identifier: string,
    layerType: string,
    gridSize: u32,
    cWid: u32,
    cHei: u32,
    tilesetDefUid: Option<u32>,
    gridTiles: seq<GridTile>,
    entityInstances: seq<EntityInstance>)

  /** `px` and `src` are vectors of any length: no arity is checked when decoding. */
  datatype GridTile = GridTile(px: seq<u32>, src: seq<u32>, f: u32, t: u32, d: seq<u32>, a: u32)

  datatype EntityInstance = EntityInstance(identifier: string, px: seq<u32>, fieldInstances: seq<FieldInstance>)

  datatype FieldInstance = FieldInstance(identifier: string, fieldType: string, value: JsonValue)
}
