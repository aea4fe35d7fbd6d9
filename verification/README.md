# LDtk level data: build-time compiler and render plan

This project models two parts of a small game that draws levels made in the LDtk
level editor.

- **The build-time data compiler (`build.rs`).** It reads the editor's JSON
  export. It turns every level, layer, grid tile, entity instance, field instance,
  tileset, entity definition and enum into Rust source code for a static
  `PROJECT` constant. That code is built lazily the first time the game reads it.
- **The drawing logic of the game (`src/main.rs`).** For every level,
  `draw_level` spawns one sprite per grid tile of each "Tiles" layer whose tileset
  resolves. The depth goes up by one for each "Tiles" layer, resolved or not. It
  then spawns one sprite per entity instance of each "Entities" layer that has a
  definition, at the number of "Tiles" layers plus one, above every tile.

## The Dafny files

- **`basics.dfy`** (module `Basics`): `u32`, `Option`, a string-prefix test and
  `FindFirst`, the first-match lookup that both `find` calls of `draw_level` use.
- **`json.dfy`** (module `Json`): JSON values, the compact printer
  (`Value::to_string`) and the parser (`serde_json::from_str`), written out in
  Dafny. The round trip is proved: `ParseDocument(Print(v)) == Some(v)`.
- **`source.dfy`** (module `Source`): the records of the editor export. Field
  names are kept, apart from the leading double underscores. Two fields are
  renamed because `type` is a Dafny keyword: the layer's `__type` is `layerType`,
  and the field instance's `__type` is `fieldType`.
- **`target.dfy`** (module `Target`): the records declared in the generated
  code. Records that hold field values take the value type as a parameter:
  `Project<string>` is the generated code, with each JSON value as its printed
  text, and `Project<JsonValue>` is the built constant.
- **`compiler.dfy`** (module `Compiler`): the compiler as three stages, then
  `Compile`, their composition.
  - `Lower` covers the mapping closures.
  - `Emit` is code generation. Field values become text there.
  - `Materialize` is the initialiser of the constant. It parses every text back
    and unwraps the result.

  The ghost predicates `*Matches` state the correspondence between source and
  target records field by field.
- **`decompile.dfy`** (module `Decompile`): `Lift`, the inverse of `Lower`, and
  `Normalize`. Together they describe exactly what the compiler forgets.
- **`render.dfy`** (module `Render`): the pure plan `PlanLevel`, a sequence of
  sprite descriptions in spawn order. It also has the drawing loops with their
  running depth counter (`DrawLevel`, `DrawProject`) and lemmas about the plan.

Grid tile `px` and `src` are declared `Vec<u32>` (build.rs:86-87), as is the
entity position `px` (build.rs:97), and no length is checked, so the compiler copies vectors of any length
(`Compiler.Compile`). The render plan states what `draw_level` indexes as a
precondition (`LayerDrawable`).

## Model

| member | source | states |
|---|---|---|
| Compiler.Compile | build.rs:122-369 | The constant is always built (no `unwrap` panics). It has one level per source level, in order. Each level's identifier, width and height are the source `identifier`, `pxWid` and `pxHei`. Layers, grid tiles, entity instances and field instances keep their count and order. Each layer's identifier, type, grid size, `cwid`, `chei` and tileset reference are the source `__identifier`, `__type`, `__gridSize`, `__cWid`, `__cHei` and `__tilesetDefUid`, so an absent reference stays `None`. Grid tiles are copied unchanged at any `px`/`src` length. Field instances keep identifier, type and value. Tilesets, entity definitions and enums are the element-wise images of `defs`, in order, and a missing `relPath` becomes `""`. |
| Compiler.CompileIsLower | build.rs:150-152 | Printing each field value and parsing it back in the constant's initialiser changes nothing: the constant is exactly the lowered project. |
| Compiler.MaterializeEmit | build.rs:364-369 | Building the constant from the generated code gives back the value the code was generated from, for every project. |
| Compiler.Collect | build.rs:152 | Collecting the unwrapped results succeeds exactly when every element is present. The result then has the same length and, at each index, the value that was present there. |
| Json.ParsePrintDocument | build.rs:150-152 | For every JSON value, parsing the compact printed text gives back that same value. |
| Json.PrintNat | build.rs:150 | Printing a natural number gives a nonempty run of decimal digits with no leading zero unless it is the single digit 0, which is what the parser accepts. |
| Decompile.LowerLift | build.rs:122-369 | Every target project is the compiled image of some export: lifting it back and compiling again gives the same project. |
| Decompile.LiftLower | build.rs:190-192 | Lifting a compiled project back gives the source unchanged, except that a `relPath` of `Some("")` comes back as absent. |
| Decompile.CompileIdentifies | build.rs:132-192 | Two exports compile to the same constant exactly when they are equal after an empty `relPath` is treated as absent. Nothing else is lost or merged. |
| Decompile.CompileLosslessWithoutEmptyPaths | build.rs:122-267 | When no tileset has an empty `relPath`, the export can be recovered exactly from the constant. |
| Basics.FindFirst | src/main.rs:45 | A lookup by key, as `iter().find` does it, returns an index in range whose key equals the one looked for. |
| Basics.FindFirstIsFirst | src/main.rs:101-104 | The lookup returns the first match: no earlier key equals the one looked for. It returns none exactly when no key equals it. |
| Render.UnmatchedReference | src/main.rs:44-45 | A layer with no tileset reference, or with a reference that no tileset uid equals, resolves to no tileset. |
| Render.TrimParentPrefix | src/main.rs:46-50 | The path is the result with one `"../"` put back in front, when the path started with one, and the result itself otherwise. |
| Render.TrimOnlyOnce | src/main.rs:48-49 | Only one prefix is removed: for every rest, `"../"` followed by it becomes exactly that rest, so `"../../a"` becomes `"../a"`. A `"../"` that is not at the start is kept. |
| Render.TileSpritesPlace | src/main.rs:56-83 | Sprite k is grid tile k. Its texture is the trimmed path and it carries the tile's `t`. Its source rect goes from `(src[0], src[1])` to that point plus the grid size in both axes. Its position is `(px[0], -px[1])` at the layer's depth. |
| Render.ResolvedTilesLayer | src/main.rs:43-83 | A "Tiles" layer whose reference first matches tileset k gives exactly one sprite per grid tile, in grid order, cut from tileset k's image at its grid size. |
| Render.UnresolvedTilesLayer | src/main.rs:44-45 | A "Tiles" layer with no reference, or a reference no tileset has, adds no sprite. It still advances the depth counter by one. |
| Render.TileLayerAtDepth | src/main.rs:39-88 | Layer i's tile sprites sit in the tile pass right after those of the earlier layers, at a depth equal to the number of earlier "Tiles" layers. |
| Render.CountTilesIsTileLayers | src/main.rs:42-43 | The depth counter after the tile loop is the number of layers whose type is "Tiles". No other layer type moves it. |
| Render.TilePassStep | src/main.rs:42-89 | One more layer appends that layer's sprites, drawn at the current depth, and advances the counter only for a "Tiles" layer. |
| Render.TilePassPrefix | src/main.rs:42-90 | Drawing the first i layers spawns a prefix of what drawing all layers spawns. |
| Render.TilePassDepths | src/main.rs:39-88 | Every sprite of the tile pass is a tile sprite with depth from 0 up to, but not including, the number of "Tiles" layers. |
| Render.EntityPassDepths | src/main.rs:93-100 | Every sprite of the entity pass is an entity sprite at the depth the pass is given. |
| Render.EntitiesAboveTiles | src/main.rs:39-100 | In a level's plan all tile sprites come before all entity sprites. Tile depths are below the number of "Tiles" layers, and every entity sprite is at that number plus one, strictly above every tile. |
| Render.NoEntityLayersNoEntities | src/main.rs:93-94 | Entity sprites come only from "Entities" layers: a level without one spawns none. |
| Render.EntitySpriteOf | src/main.rs:95-100 | An entity sprite is placed at `(px[0], -px[1])` at the entity depth. |
| Render.EntitySpriteTag | src/main.rs:101-118 | An instance gives a sprite exactly when some definition has its identifier. The sprite is tagged with the uid of the first such definition. |
| Render.EntitySpritesAllResolved | src/main.rs:95-119 | When every instance has a definition, there is one entity sprite per instance, in instance order. |
| Render.EntitySpritesResolvedOnly | src/main.rs:95-120 | Instances without a definition add nothing: the entity sprites are exactly those of the instances that have one, kept in instance order, and each kept instance has a definition. |
| Render.EntitySpritesCount | src/main.rs:95-120 | The number of entity sprites is the number of instances that have a definition. |
| Render.EntityPassOnlyEntityLayers | src/main.rs:92-94 | Entity sprites come only from "Entities" layers: dropping every other layer from a level leaves its entity pass unchanged. |
| Render.DrawLevel | src/main.rs:32-123 | The two loops, with a running depth that starts at 0 and goes up by one for each "Tiles" layer, spawn exactly the level's plan. |
| Render.DrawTilePass | src/main.rs:39-90 | The tile loop spawns the tile pass and leaves the counter at the number of "Tiles" layers. |
| Render.DrawTileLayer | src/main.rs:44-85 | The inner loop over grid tiles spawns the layer's sprites in grid order. |
| Render.DrawEntityPass | src/main.rs:92-122 | The entity loop spawns the entity pass at the depth it is given. |
| Render.DrawEntities | src/main.rs:95-120 | The inner loop over instances spawns one sprite per instance that has a definition, in order. |
| Render.DrawProject | src/main.rs:128-136 | `setup` draws the levels in order, passing every level the project's tilesets and entity definitions. |
| Render.PlanLevelsAppend | src/main.rs:128 | The project's plan is the level plans concatenated in level order. |

## Left out

- **File input and output:** reading the export file and `OUT_DIR`, and writing `generated_code.rs` (build.rs:108-120, 372-373). The model's input is the already-decoded export.
- **JSON decoding of the export** by serde into the source records. Fields the records do not declare are ignored by serde and are not modelled.
- **Token-stream text:** `quote!` output is represented by the target value it rebuilds (`Target.Project<string>`), not by Rust syntax.
- **The `once_cell::sync::Lazy` static (build.rs:364):** lazy, thread-safe, one-time initialisation is concurrency. `Materialize` is the initialiser's result, and `None` stands for its panic.
- **JSON values outside what the printer/parser pair covers:** floating-point numbers, the 64-bit range of integers, whitespace, surrogate-pair escapes, and the sorted, unique keys of serde_json's map. Objects are modelled as member sequences, kept in their given order.
- **Engine side effects** (src/main.rs:1-30, 54, 66-82, 105-117, 126, 138): the Bevy app, the asset server loading the texture, the entity sprite's colour and fixed 20×20 size, the camera, and `println!`. A sprite description records what would be spawned.
- **`f32` arithmetic:** positions, rect corners and depths are integers. The rect maximum `src + tile_grid_size` is computed in `f32` in the code, so it cannot overflow `u32`, and the model matches this by computing it in integers. The `f32` rounding of values above 2^24 is not modelled.
- **Panics of `draw_level` on grid tiles or entity positions with fewer than two coordinates:** these are preconditions (`LayerDrawable`), not modelled behaviour. An entity instance must have two coordinates even without a matching definition, because its position is computed first.
- **Uniqueness of uids and identifiers, and references between records:** neither program checks them, so the model neither assumes nor enforces them. Lookups take the first match.
