/**
  The render plan of the consuming program: which sprites are spawned for one
  level, in spawn order, at which depth.  Engine calls are replaced by the
  description of the sprite they would spawn; coordinates and depths are integers.
 */
module Render {
  import opened Basics
  import opened Json
  import T = Target

  type Level = T.Level<JsonValue>
  type Layer = T.LayerInstance<JsonValue>
  type Entity = T.EntityInstance<JsonValue>

  const TilesLayer: string := "Tiles"
  const EntitiesLayer: string := "Entities"
  const ParentPrefix: string := "../"

  /** A sprite to spawn: its placement `(x, y, z)` and the tag component inserted on it. */
  datatype SpriteDesc =
    | TileSprite(texture: string, rectMin: (int, int), rectMax: (int, int), size: int, x: int, y: int, z: int, tileId: u32)
    | EntitySprite(x: int, y: int, z: int, defUid: u32)

  // ---------------------------------------------------------------------------
  // Lookups
  // ---------------------------------------------------------------------------

  function TilesetUids(tilesets: seq<T.Tileset>): seq<u32> {
    seq(|tilesets|, i requires 0 <= i < |tilesets| => tilesets[i].uid)
  }

  function DefIdentifiers(defs: seq<T.EntityDef>): seq<string> {
    seq(|defs|, i requires 0 <= i < |defs| => defs[i].identifier)
  }

  /** Index of the first tileset with the given uid. */
  function TilesetIndex(tilesets: seq<T.Tileset>, uid: u32): Option<nat> {
    FindFirst(TilesetUids(tilesets), uid)
  }

  /** Index of the first entity definition with the given identifier. */
  function EntityDefIndex(defs: seq<T.EntityDef>, identifier: string): Option<nat> {
    FindFirst(DefIdentifiers(defs), identifier)
  }

  /** The tileset a layer draws from, if it names one and one with that uid exists. */
  function ResolveTileset(layer: Layer, tilesets: seq<T.Tileset>): Option<T.Tileset>
  {
    match layer.tilesetDefUid
    case None => None
    case Some(uid) =>
      match TilesetIndex(tilesets, uid)
      case None => None
      case Some(k) => Some(tilesets[k])
  }

  /** The asset path with one leading `"../"` removed. */
  function TrimParentPrefix(path: string): (r: string)
    ensures path == (if StartsWith(path, ParentPrefix) then ParentPrefix else "") + r
  {
    if StartsWith(path, ParentPrefix) then path[|ParentPrefix|..] else path
  }

  // ---------------------------------------------------------------------------
  // What the drawing code indexes without checking
  // ---------------------------------------------------------------------------

  predicate TileDrawable(g: T.GridTile) {
    |g.px| >= 2 && |g.src| >= 2
  }

  /**
    The grid tiles of a resolved tile layer and every entity instance of an
    entity layer are read at indices 0 and 1; any shorter vector would panic.
    Entity positions are read before the definition lookup, so even an
    instance without a definition must have two coordinates.
   */
  predicate LayerDrawable(layer: Layer, tilesets: seq<T.Tileset>) {
    && (layer.layerType == TilesLayer && ResolveTileset(layer, tilesets).Some? ==>
          forall j :: 0 <= j < |layer.gridTiles| ==> TileDrawable(layer.gridTiles[j]))
    && (layer.layerType == EntitiesLayer ==>
          forall j :: 0 <= j < |layer.entityInstances| ==> |layer.entityInstances[j].px| >= 2)
  }

  predicate LayersDrawable(layers: seq<Layer>, tilesets: seq<T.Tileset>) {
    forall i :: 0 <= i < |layers| ==> LayerDrawable(layers[i], tilesets)
  }

  // ---------------------------------------------------------------------------
  // The plan
  // ---------------------------------------------------------------------------

  /** Number of "Tiles" layers in `layers`, whatever their tileset reference. */
  function CountTiles(layers: seq<Layer>): nat
  {
    if |layers| == 0 then 0
    else CountTiles(layers[..|layers| - 1]) + (if layers[|layers| - 1].layerType == TilesLayer then 1 else 0)
  }

  function PlaceTile(g: T.GridTile, texture: string, size: u32, z: int): SpriteDesc
    requires TileDrawable(g)
  {
    TileSprite(texture, (g.src[0], g.src[1]), (g.src[0] as int + size, g.src[1] as int + size), size, g.px[0], -(g.px[1] as int), z, g.t)
  }

  /** One sprite per grid tile, in grid order. */
  function TileSprites(tiles: seq<T.GridTile>, texture: string, size: u32, z: int): (r: seq<SpriteDesc>)
    requires forall j :: 0 <= j < |tiles| ==> TileDrawable(tiles[j])
    ensures |r| == |tiles|
  {
    if |tiles| == 0 then []
    else
      var n := |tiles| - 1;
      TileSprites(tiles[..n], texture, size, z) + [PlaceTile(tiles[n], texture, size, z)]
  }

  /**
    The k-th sprite of a tile layer is the k-th grid tile: its texture, the
    source rectangle of `size` pixels from `src`, and the position `px` with
    the vertical axis flipped.
   */
  lemma {:induction false} TileSpritesPlace(tiles: seq<T.GridTile>, texture: string, size: u32, z: int)
    requires forall j :: 0 <= j < |tiles| ==> TileDrawable(tiles[j])
    ensures var r := TileSprites(tiles, texture, size, z);
            forall k :: 0 <= k < |tiles| ==>
              && r[k].TileSprite?
              && r[k].texture == texture
              && r[k].tileId == tiles[k].t
              && r[k].rectMin == (tiles[k].src[0], tiles[k].src[1])
              && r[k].rectMax == (tiles[k].src[0] as int + size, tiles[k].src[1] as int + size)
              && r[k].size == size
              && (r[k].x, r[k].y, r[k].z) == (tiles[k].px[0], -(tiles[k].px[1] as int), z)
  {
    if |tiles| > 0 {
      var n := |tiles| - 1;
      var prefix := tiles[..n];
      assert forall j :: 0 <= j < |prefix| ==> prefix[j] == tiles[j];
      TileSpritesPlace(prefix, texture, size, z);
      var r := TileSprites(tiles, texture, size, z);
      var before := TileSprites(prefix, texture, size, z);
      assert r == before + [PlaceTile(tiles[n], texture, size, z)];
      forall k | 0 <= k < |tiles|
        ensures TileDrawable(tiles[k]) && r[k].TileSprite? && r[k].texture == texture && r[k].tileId == tiles[k].t
        ensures r[k].rectMin == (tiles[k].src[0], tiles[k].src[1])
        ensures r[k].rectMax == (tiles[k].src[0] as int + size, tiles[k].src[1] as int + size)
        ensures r[k].size == size && (r[k].x, r[k].y, r[k].z) == (tiles[k].px[0], -(tiles[k].px[1] as int), z)
      {
        assert TileDrawable(tiles[k]);
        if k < n {
          assert r[k] == before[k] && prefix[k] == tiles[k];
        }
      }
    }
  }

  /** The sprites of one layer in the tile pass, drawn at depth `z`. */
  function TileLayerSprites(layer: Layer, tilesets: seq<T.Tileset>, z: int): seq<SpriteDesc>
    requires LayerDrawable(layer, tilesets)
  {
    if layer.layerType != TilesLayer then []
    else
      match ResolveTileset(layer, tilesets)
      case None => []
      case Some(tileset) =>
        TileSprites(layer.gridTiles, TrimParentPrefix(tileset.relPath), tileset.tileGridSize, z)
  }

  /** The tile pass: each layer at the depth given by the "Tiles" layers before it. */
  function TilePass(layers: seq<Layer>, tilesets: seq<T.Tileset>): seq<SpriteDesc>
    requires LayersDrawable(layers, tilesets)
  {
    if |layers| == 0 then []
    else
      var n := |layers| - 1;
      TilePass(layers[..n], tilesets) + TileLayerSprites(layers[n], tilesets, CountTiles(layers[..n]))
  }

  /** The sprite of one entity instance, if a definition with its identifier exists. */
  function EntitySpriteOf(e: Entity, defs: seq<T.EntityDef>, z: int): (r: Option<SpriteDesc>)
    requires |e.px| >= 2
    ensures r.Some? ==>
              && r.value.EntitySprite?
              && (r.value.x, r.value.y, r.value.z) == (e.px[0] as int, -(e.px[1] as int), z)
  {
    match EntityDefIndex(defs, e.identifier)
    case None => None
    case Some(k) => Some(EntitySprite(e.px[0], -(e.px[1] as int), z, defs[k].uid))
  }

  /**
    An instance yields a sprite exactly when some definition has its
    identifier, and the sprite is tagged with the uid of the first such one.
   */
  lemma EntitySpriteTag(e: Entity, defs: seq<T.EntityDef>, z: int)
    requires |e.px| >= 2
    ensures var r := EntitySpriteOf(e, defs, z);
            r.Some? <==> exists k :: 0 <= k < |defs| && defs[k].identifier == e.identifier
    ensures var r := EntitySpriteOf(e, defs, z);
            r.Some? ==>
              exists k :: 0 <= k < |defs| && defs[k].identifier == e.identifier && r.value.defUid == defs[k].uid
                          && forall j :: 0 <= j < k ==> defs[j].identifier != e.identifier
  {
    FindFirstIsFirst(DefIdentifiers(defs), e.identifier);
    assert forall j :: 0 <= j < |defs| ==> DefIdentifiers(defs)[j] == defs[j].identifier;
  }

  function EntitySprites(instances: seq<Entity>, defs: seq<T.EntityDef>, z: int): seq<SpriteDesc>
    requires forall j :: 0 <= j < |instances| ==> |instances[j].px| >= 2
  {
    if |instances| == 0 then []
    else
      var n := |instances| - 1;
      EntitySprites(instances[..n], defs, z)
        + match EntitySpriteOf(instances[n], defs, z) case None => [] case Some(s) => [s]
  }

  /** The entity pass: the instances of every "Entities" layer, all at depth `z`. */
  function EntityPass(layers: seq<Layer>, tilesets: seq<T.Tileset>, defs: seq<T.EntityDef>, z: int): seq<SpriteDesc>
    requires LayersDrawable(layers, tilesets)
  {
    if |layers| == 0 then []
    else
      var n := |layers| - 1;
      EntityPass(layers[..n], tilesets, defs, z)
        + if layers[n].layerType == EntitiesLayer then EntitySprites(layers[n].entityInstances, defs, z) else []
  }

  /** Everything one level spawns, in spawn order: the tile pass, then the entity pass above it. */
  function PlanLevel(level: Level, tilesets: seq<T.Tileset>, defs: seq<T.EntityDef>): seq<SpriteDesc>
    requires LayersDrawable(level.layerInstances, tilesets)
  {
    var layers := level.layerInstances;
    TilePass(layers, tilesets) + EntityPass(layers, tilesets, defs, CountTiles(layers) + 1)
  }

  predicate LevelsDrawable(levels: seq<Level>, tilesets: seq<T.Tileset>) {
    forall i :: 0 <= i < |levels| ==> LayersDrawable(levels[i].layerInstances, tilesets)
  }

  /** Every level of the project, in order, each with the project's tilesets and entity definitions. */
  function PlanProject(project: T.Project<JsonValue>): seq<SpriteDesc>
    requires LevelsDrawable(project.levels, project.tilesets)
  {
    PlanLevels(project.levels, project.tilesets, project.entities)
  }

  function PlanLevels(levels: seq<Level>, tilesets: seq<T.Tileset>, defs: seq<T.EntityDef>): seq<SpriteDesc>
    requires LevelsDrawable(levels, tilesets)
  {
    if |levels| == 0 then []
    else
      var n := |levels| - 1;
      PlanLevels(levels[..n], tilesets, defs) + PlanLevel(levels[n], tilesets, defs)
  }

  // ---------------------------------------------------------------------------
  // The drawing loops, as written, with a running depth counter
  // ---------------------------------------------------------------------------

  /**
    The two passes over the layers with a mutable depth that every "Tiles"
    layer advances, whether or not its tileset resolves; entity sprites go one
    above the last tile depth.  They spawn exactly the plan.
   */
  method DrawLevel(level: Level, tilesets: seq<T.Tileset>, defs: seq<T.EntityDef>) returns (sprites: seq<SpriteDesc>)
    requires LayersDrawable(level.layerInstances, tilesets)
    ensures sprites == PlanLevel(level, tilesets, defs)
  {
    var tiles, z := DrawTilePass(level.layerInstances, tilesets);
    var entities := DrawEntityPass(level.layerInstances, tilesets, defs, z + 1);
    sprites := tiles + entities;
  }

  /** The first loop: the depth counter starts at 0 and every "Tiles" layer advances it. */
  method DrawTilePass(layers: seq<Layer>, tilesets: seq<T.Tileset>) returns (sprites: seq<SpriteDesc>, z: int)
    requires LayersDrawable(layers, tilesets)
    ensures sprites == TilePass(layers, tilesets)
    ensures z == CountTiles(layers)
  {
    z := 0;
    sprites := [];
    var i := 0;
    while i < |layers|
      invariant 0 <= i <= |layers|
      invariant z == CountTiles(layers[..i])
      invariant sprites == TilePass(layers[..i], tilesets)
    {
      TilePassStep(layers, tilesets, i);
      if layers[i].layerType == TilesLayer {
        var layerSprites := DrawTileLayer(layers[i], tilesets, z);
        sprites := sprites + layerSprites;
        z := z + 1;
      }
      i := i + 1;
    }
    assert layers[..i] == layers;
  }

  method DrawTileLayer(layer: Layer, tilesets: seq<T.Tileset>, z: int) returns (sprites: seq<SpriteDesc>)
    requires LayerDrawable(layer, tilesets)
    requires layer.layerType == TilesLayer
    ensures sprites == TileLayerSprites(layer, tilesets, z)
  {
    sprites := [];
    var found := ResolveTileset(layer, tilesets);
    if found.Some? {
      var tileset := found.value;
      var texture := TrimParentPrefix(tileset.relPath);
      var tiles := layer.gridTiles;
      var j := 0;
      while j < |tiles|
        invariant 0 <= j <= |tiles|
        invariant sprites == TileSprites(tiles[..j], texture, tileset.tileGridSize, z)
      {
        assert tiles[..j + 1][..j] == tiles[..j];
        sprites := sprites + [PlaceTile(tiles[j], texture, tileset.tileGridSize, z)];
        j := j + 1;
      }
      assert tiles[..j] == tiles;
    }
  }

  /** The second loop: the instances of every "Entities" layer at depth `z`. */
  method DrawEntityPass(layers: seq<Layer>, tilesets: seq<T.Tileset>, defs: seq<T.EntityDef>, z: int)
    returns (sprites: seq<SpriteDesc>)
    requires LayersDrawable(layers, tilesets)
    ensures sprites == EntityPass(layers, tilesets, defs, z)
  {
    sprites := [];
    var i := 0;
    while i < |layers|
      invariant 0 <= i <= |layers|
      invariant sprites == EntityPass(layers[..i], tilesets, defs, z)
    {
      assert layers[..i + 1][..i] == layers[..i];
      assert LayerDrawable(layers[i], tilesets);
      if layers[i].layerType == EntitiesLayer {
        var layerSprites := DrawEntities(layers[i].entityInstances, defs, z);
        sprites := sprites + layerSprites;
      }
      i := i + 1;
    }
    assert layers[..i] == layers;
  }

  method DrawEntities(instances: seq<Entity>, defs: seq<T.EntityDef>, z: int) returns (sprites: seq<SpriteDesc>)
    requires forall j :: 0 <= j < |instances| ==> |instances[j].px| >= 2
    ensures sprites == EntitySprites(instances, defs, z)
  {
    sprites := [];
    var j := 0;
    while j < |instances|
      invariant 0 <= j <= |instances|
      invariant sprites == EntitySprites(instances[..j], defs, z)
    {
      assert instances[..j + 1][..j] == instances[..j];
      var e := instances[j];
      var k := EntityDefIndex(defs, e.identifier);
      if k.Some? {
        sprites := sprites + [EntitySprite(e.px[0], -(e.px[1] as int), z, defs[k.value].uid)];
      }
      j := j + 1;
    }
    assert instances[..j] == instances;
  }

  /** The start-up system: every level of the project in order, with the same definitions. */
  method DrawProject(project: T.Project<JsonValue>) returns (sprites: seq<SpriteDesc>)
    requires LevelsDrawable(project.levels, project.tilesets)
    ensures sprites == PlanProject(project)
  {
    sprites := [];
    var i := 0;
    while i < |project.levels|
      invariant 0 <= i <= |project.levels|
      invariant sprites == PlanLevels(project.levels[..i], project.tilesets, project.entities)
    {
      assert project.levels[..i + 1][..i] == project.levels[..i];
      var levelSprites := DrawLevel(project.levels[i], project.tilesets, project.entities);
      sprites := sprites + levelSprites;
      i := i + 1;
    }
    assert project.levels[..i] == project.levels;
  }

  // ---------------------------------------------------------------------------
  // Properties of the plan
  // ---------------------------------------------------------------------------

  /** Only one parent prefix is removed, whatever follows it. */
  lemma TrimOnlyOnce(rest: string)
    ensures TrimParentPrefix(ParentPrefix + rest) == rest
    ensures TrimParentPrefix("../../a") == "../a"
    ensures TrimParentPrefix("a/../b") == "a/../b"
  {
    assert (ParentPrefix + rest)[..|ParentPrefix|] == ParentPrefix;
    assert StartsWith("../../a", ParentPrefix);
    assert "a/../b"[..3][0] == 'a';
    assert !StartsWith("a/../b", ParentPrefix);
  }

  /** Every sprite of the tile pass is a tile sprite strictly below the number of "Tiles" layers. */
  lemma {:induction false} TilePassDepths(layers: seq<Layer>, tilesets: seq<T.Tileset>)
    requires LayersDrawable(layers, tilesets)
    ensures forall s :: s in TilePass(layers, tilesets) ==> s.TileSprite? && 0 <= s.z < CountTiles(layers)
  {
    if |layers| > 0 {
      var n := |layers| - 1;
      var prefix := layers[..n];
      assert LayersDrawable(prefix, tilesets) by {
        forall i | 0 <= i < |prefix| ensures LayerDrawable(prefix[i], tilesets) {
          assert prefix[i] == layers[i];
        }
      }
      TilePassDepths(prefix, tilesets);
      var depth := CountTiles(prefix);
      assert depth < CountTiles(layers) || layers[n].layerType != TilesLayer;
      assert LayerDrawable(layers[n], tilesets);
      if layers[n].layerType == TilesLayer && ResolveTileset(layers[n], tilesets).Some? {
        var tileset := ResolveTileset(layers[n], tilesets).value;
        TileSpritesDepth(layers[n].gridTiles, TrimParentPrefix(tileset.relPath), tileset.tileGridSize, depth);
      }
    }
  }

  lemma {:induction false} TileSpritesDepth(tiles: seq<T.GridTile>, texture: string, size: u32, z: int)
    requires forall j :: 0 <= j < |tiles| ==> TileDrawable(tiles[j])
    ensures forall s :: s in TileSprites(tiles, texture, size, z) ==> s.TileSprite? && s.z == z
  {
    if |tiles| > 0 {
      var n := |tiles| - 1;
      assert forall j :: 0 <= j < n ==> tiles[..n][j] == tiles[j];
      TileSpritesDepth(tiles[..n], texture, size, z);
    }
  }

  /** Every sprite of the entity pass is an entity sprite at the depth the pass is given. */
  lemma {:induction false} EntityPassDepths(layers: seq<Layer>, tilesets: seq<T.Tileset>, defs: seq<T.EntityDef>, z: int)
    requires LayersDrawable(layers, tilesets)
    ensures forall s :: s in EntityPass(layers, tilesets, defs, z) ==> s.EntitySprite? && s.z == z
  {
    if |layers| > 0 {
      var n := |layers| - 1;
      var prefix := layers[..n];
      assert LayersDrawable(prefix, tilesets) by {
        forall i | 0 <= i < |prefix| ensures LayerDrawable(prefix[i], tilesets) {
          assert prefix[i] == layers[i];
        }
      }
      EntityPassDepths(prefix, tilesets, defs, z);
      assert LayerDrawable(layers[n], tilesets);
      if layers[n].layerType == EntitiesLayer {
        EntitySpritesDepths(layers[n].entityInstances, defs, z);
      }
    }
  }

  lemma {:induction false} EntitySpritesDepths(instances: seq<Entity>, defs: seq<T.EntityDef>, z: int)
    requires forall j :: 0 <= j < |instances| ==> |instances[j].px| >= 2
    ensures forall s :: s in EntitySprites(instances, defs, z) ==> s.EntitySprite? && s.z == z
  {
    if |instances| > 0 {
      EntitySpritesDepths(instances[..|instances| - 1], defs, z);
    }
  }

  /**
    In a level's plan the tile sprites come first, each at a depth below the
    number of "Tiles" layers, and every entity sprite follows at one more than
    that number: strictly above every tile.
   */
  lemma EntitiesAboveTiles(level: Level, tilesets: seq<T.Tileset>, defs: seq<T.EntityDef>)
    requires LayersDrawable(level.layerInstances, tilesets)
    ensures var plan := PlanLevel(level, tilesets, defs);
            forall i :: 0 <= i < |plan| && plan[i].TileSprite? ==> 0 <= plan[i].z < CountTiles(level.layerInstances)
    ensures var plan := PlanLevel(level, tilesets, defs);
            forall i :: 0 <= i < |plan| && !plan[i].TileSprite? ==> plan[i].z == CountTiles(level.layerInstances) + 1
    ensures var plan := PlanLevel(level, tilesets, defs);
            forall i, j :: 0 <= i < j < |plan| && plan[i].EntitySprite? ==> plan[j].EntitySprite?
  {
    var layers := level.layerInstances;
    var top := CountTiles(layers);
    var tiles := TilePass(layers, tilesets);
    var entities := EntityPass(layers, tilesets, defs, top + 1);
    TilePassDepths(layers, tilesets);
    EntityPassDepths(layers, tilesets, defs, top + 1);
    TilesThenEntities(tiles, entities, top);
    assert PlanLevel(level, tilesets, defs) == tiles + entities;
  }

  lemma TilesThenEntities(tiles: seq<SpriteDesc>, entities: seq<SpriteDesc>, top: int)
    requires forall s :: s in tiles ==> s.TileSprite? && 0 <= s.z < top
    requires forall s :: s in entities ==> s.EntitySprite? && s.z == top + 1
    ensures var plan := tiles + entities;
            forall i :: 0 <= i < |plan| ==>
              && (plan[i].TileSprite? <==> i < |tiles|)
              && (plan[i].TileSprite? ==> 0 <= plan[i].z < top)
              && (!plan[i].TileSprite? ==> plan[i].EntitySprite? && plan[i].z == top + 1)
    ensures var plan := tiles + entities;
            forall i, j :: 0 <= i < j < |plan| && plan[i].EntitySprite? ==> plan[j].EntitySprite?
  {
    var plan := tiles + entities;
    forall i | 0 <= i < |plan|
      ensures plan[i].TileSprite? <==> i < |tiles|
      ensures plan[i].TileSprite? ==> 0 <= plan[i].z < top
      ensures !plan[i].TileSprite? ==> plan[i].EntitySprite? && plan[i].z == top + 1
    {
      if i < |tiles| {
        assert plan[i] == tiles[i];
        assert tiles[i] in tiles;
      } else {
        assert plan[i] == entities[i - |tiles|];
        assert entities[i - |tiles|] in entities;
      }
    }
    forall i, j | 0 <= i < j < |plan| && plan[i].EntitySprite?
      ensures plan[j].EntitySprite?
    {
      assert !plan[i].TileSprite? && !plan[j].TileSprite?;
    }
  }

  /**
    A "Tiles" layer without a tileset reference, or whose reference matches no
    tileset, spawns nothing but still advances the depth counter.
   */
  lemma UnresolvedTilesLayer(layers: seq<Layer>, tilesets: seq<T.Tileset>, i: nat)
    requires LayersDrawable(layers, tilesets)
    requires i < |layers|
    requires layers[i].layerType == TilesLayer
    requires layers[i].tilesetDefUid.None? || forall k :: 0 <= k < |tilesets| ==> tilesets[k].uid != layers[i].tilesetDefUid.value
    ensures LayersDrawable(layers[..i], tilesets) && LayersDrawable(layers[..i + 1], tilesets)
    ensures TilePass(layers[..i + 1], tilesets) == TilePass(layers[..i], tilesets)
    ensures CountTiles(layers[..i + 1]) == CountTiles(layers[..i]) + 1
  {
    UnmatchedReference(layers[i], tilesets);
    TilePassStep(layers, tilesets, i);
    assert TileLayerSprites(layers[i], tilesets, CountTiles(layers[..i])) == [];
  }

  /** A reference that no tileset's uid equals resolves to nothing. */
  lemma UnmatchedReference(layer: Layer, tilesets: seq<T.Tileset>)
    requires layer.tilesetDefUid.None? || forall k :: 0 <= k < |tilesets| ==> tilesets[k].uid != layer.tilesetDefUid.value
    ensures ResolveTileset(layer, tilesets).None?
  {
    if layer.tilesetDefUid.Some? {
      FindFirstIsFirst(TilesetUids(tilesets), layer.tilesetDefUid.value);
      assert forall j :: 0 <= j < |tilesets| ==> TilesetUids(tilesets)[j] == tilesets[j].uid;
    }
  }

  /**
    A "Tiles" layer whose reference first matches tileset `k` spawns one sprite
    per grid tile, in grid order, textured with that tileset's trimmed path,
    cut at its grid size and tagged with the tile's `t`.
   */
  lemma ResolvedTilesLayer(layer: Layer, tilesets: seq<T.Tileset>, z: int, k: nat)
    requires LayerDrawable(layer, tilesets)
    requires layer.layerType == TilesLayer
    requires k < |tilesets| && layer.tilesetDefUid == Some(tilesets[k].uid)
    requires forall j :: 0 <= j < k ==> tilesets[j].uid != tilesets[k].uid
    ensures var r := TileLayerSprites(layer, tilesets, z);
            var tiles := layer.gridTiles;
            |r| == |tiles| &&
            forall n :: 0 <= n < |tiles| ==>
              && r[n].TileSprite?
              && r[n].texture == TrimParentPrefix(tilesets[k].relPath)
              && r[n].size == tilesets[k].tileGridSize
              && r[n].tileId == tiles[n].t
              && |tiles[n].px| >= 2 && |tiles[n].src| >= 2
              && r[n].rectMin == (tiles[n].src[0], tiles[n].src[1])
              && r[n].rectMax == (tiles[n].src[0] as int + tilesets[k].tileGridSize, tiles[n].src[1] as int + tilesets[k].tileGridSize)
              && (r[n].x, r[n].y, r[n].z) == (tiles[n].px[0], -(tiles[n].px[1] as int), z)
  {
    var uid := tilesets[k].uid;
    FindFirstIsFirst(TilesetUids(tilesets), uid);
    assert forall j :: 0 <= j < |tilesets| ==> TilesetUids(tilesets)[j] == tilesets[j].uid;
    var found := TilesetIndex(tilesets, uid);
    assert found == Some(k);
    assert ResolveTileset(layer, tilesets) == Some(tilesets[k]);
    var texture := TrimParentPrefix(tilesets[k].relPath);
    TileSpritesPlace(layer.gridTiles, texture, tilesets[k].tileGridSize, z);
  }

  /** When every instance has a definition, the k-th entity sprite is the k-th instance's. */
  lemma {:induction false} EntitySpritesAllResolved(instances: seq<Entity>, defs: seq<T.EntityDef>, z: int)
    requires forall j :: 0 <= j < |instances| ==> |instances[j].px| >= 2
    requires forall j :: 0 <= j < |instances| ==> EntityDefIndex(defs, instances[j].identifier).Some?
    ensures var r := EntitySprites(instances, defs, z);
            |r| == |instances| && forall k :: 0 <= k < |instances| ==> Some(r[k]) == EntitySpriteOf(instances[k], defs, z)
  {
    if |instances| > 0 {
      var n := |instances| - 1;
      var prefix := instances[..n];
      assert forall j :: 0 <= j < |prefix| ==> prefix[j] == instances[j];
      EntitySpritesAllResolved(prefix, defs, z);
      var before := EntitySprites(prefix, defs, z);
      var last := EntitySpriteOf(instances[n], defs, z);
      assert last.Some?;
      assert EntitySprites(instances, defs, z) == before + [last.value];
    }
  }

  /** Whether some entity definition carries the instance's identifier. */
  predicate Resolves(e: Entity, defs: seq<T.EntityDef>) {
    EntityDefIndex(defs, e.identifier).Some?
  }

  /** The instances that have a definition, in instance order. */
  function ResolvedInstances(instances: seq<Entity>, defs: seq<T.EntityDef>): seq<Entity>
  {
    if |instances| == 0 then []
    else
      var n := |instances| - 1;
      ResolvedInstances(instances[..n], defs) + if Resolves(instances[n], defs) then [instances[n]] else []
  }

  /** Indices of the instances that have a definition. */
  function ResolvedIndices(instances: seq<Entity>, defs: seq<T.EntityDef>): set<nat>
  {
    set k: nat | k < |instances| && Resolves(instances[k], defs)
  }

  /**
    Instances without a definition contribute nothing: the entity sprites are
    those of the resolved instances alone, one per instance in instance order
    (by `EntitySpritesAllResolved`, whose requirements the filtered instances meet).
   */
  lemma {:induction false} EntitySpritesResolvedOnly(instances: seq<Entity>, defs: seq<T.EntityDef>, z: int)
    requires forall j :: 0 <= j < |instances| ==> |instances[j].px| >= 2
    ensures var kept := ResolvedInstances(instances, defs);
            forall j :: 0 <= j < |kept| ==> |kept[j].px| >= 2 && Resolves(kept[j], defs)
    ensures EntitySprites(instances, defs, z) == EntitySprites(ResolvedInstances(instances, defs), defs, z)
  {
    ResolvedInstancesResolve(instances, defs);
    if |instances| > 0 {
      var n := |instances| - 1;
      var prefix := instances[..n];
      EntitySpritesStep(instances, defs, z);
      EntitySpritesResolvedOnly(prefix, defs, z);
      var before := ResolvedInstances(prefix, defs);
      var sprites := EntitySprites(before, defs, z);
      if Resolves(instances[n], defs) {
        var kept := before + [instances[n]];
        assert ResolvedInstances(instances, defs) == kept;
        EntitySpritesStep(kept, defs, z);
        assert kept[..|before|] == before && kept[|before|] == instances[n];
        assert EntitySprites(kept, defs, z) == sprites + [EntitySpriteOf(instances[n], defs, z).value];
      } else {
        assert ResolvedInstances(instances, defs) == before;
      }
    }
  }

  /** Every kept instance has two coordinates and a definition. */
  lemma {:induction false} ResolvedInstancesResolve(instances: seq<Entity>, defs: seq<T.EntityDef>)
    requires forall j :: 0 <= j < |instances| ==> |instances[j].px| >= 2
    ensures forall e :: e in ResolvedInstances(instances, defs) ==> |e.px| >= 2 && Resolves(e, defs)
  {
    if |instances| > 0 {
      var n := |instances| - 1;
      var prefix := instances[..n];
      assert forall j :: 0 <= j < n ==> prefix[j] == instances[j];
      ResolvedInstancesResolve(prefix, defs);
      var before := ResolvedInstances(prefix, defs);
      if Resolves(instances[n], defs) {
        assert ResolvedInstances(instances, defs) == before + [instances[n]];
      } else {
        assert ResolvedInstances(instances, defs) == before;
      }
    }
  }

  /** One more instance appends its sprite exactly when it has a definition. */
  lemma EntitySpritesStep(instances: seq<Entity>, defs: seq<T.EntityDef>, z: int)
    requires |instances| > 0
    requires forall j :: 0 <= j < |instances| ==> |instances[j].px| >= 2
    ensures var n := |instances| - 1;
            && (forall j :: 0 <= j < n ==> |instances[..n][j].px| >= 2)
            && EntitySprites(instances, defs, z)
                 == EntitySprites(instances[..n], defs, z)
                    + if Resolves(instances[n], defs) then [EntitySpriteOf(instances[n], defs, z).value] else []
  {
    var n := |instances| - 1;
    assert forall j :: 0 <= j < n ==> instances[..n][j] == instances[j];
  }

  /** One more instance adds its own index exactly when it has a definition. */
  lemma ResolvedIndicesStep(instances: seq<Entity>, defs: seq<T.EntityDef>)
    requires |instances| > 0
    ensures var n := |instances| - 1;
            |ResolvedIndices(instances, defs)|
              == |ResolvedIndices(instances[..n], defs)| + if Resolves(instances[n], defs) then 1 else 0
  {
    var n := |instances| - 1;
    var before := ResolvedIndices(instances[..n], defs);
    assert forall j :: 0 <= j < n ==> instances[..n][j] == instances[j];
    assert n !in before;
    if Resolves(instances[n], defs) {
      assert ResolvedIndices(instances, defs) == before + {n};
    } else {
      assert ResolvedIndices(instances, defs) == before;
    }
  }

  /** There is exactly one entity sprite per instance that has a definition. */
  lemma {:induction false} EntitySpritesCount(instances: seq<Entity>, defs: seq<T.EntityDef>, z: int)
    requires forall j :: 0 <= j < |instances| ==> |instances[j].px| >= 2
    ensures |EntitySprites(instances, defs, z)| == |ResolvedIndices(instances, defs)|
  {
    if |instances| > 0 {
      var n := |instances| - 1;
      var prefix := instances[..n];
      assert forall j :: 0 <= j < |prefix| ==> prefix[j] == instances[j];
      EntitySpritesCount(prefix, defs, z);
      EntitySpritesStep(instances, defs, z);
      ResolvedIndicesStep(instances, defs);
    }
  }

  /** The "Entities" layers, in layer order. */
  function EntityLayers(layers: seq<Layer>): seq<Layer>
  {
    if |layers| == 0 then []
    else
      var n := |layers| - 1;
      EntityLayers(layers[..n]) + if layers[n].layerType == EntitiesLayer then [layers[n]] else []
  }

  /** Entity sprites come only from "Entities" layers: dropping every other layer leaves the entity pass unchanged. */
  lemma {:induction false} EntityPassOnlyEntityLayers(layers: seq<Layer>, tilesets: seq<T.Tileset>, defs: seq<T.EntityDef>, z: int)
    requires LayersDrawable(layers, tilesets)
    ensures LayersDrawable(EntityLayers(layers), tilesets)
    ensures EntityPass(layers, tilesets, defs, z) == EntityPass(EntityLayers(layers), tilesets, defs, z)
  {
    if |layers| > 0 {
      var n := |layers| - 1;
      LayersDrawablePrefix(layers, tilesets, n);
      EntityPassOnlyEntityLayers(layers[..n], tilesets, defs, z);
      var before := EntityLayers(layers[..n]);
      if layers[n].layerType == EntitiesLayer {
        var kept := before + [layers[n]];
        assert kept[..|before|] == before;
        assert LayersDrawable(kept, tilesets) by {
          forall i | 0 <= i < |kept| ensures LayerDrawable(kept[i], tilesets) {
            if i < |before| {
              assert kept[i] == before[i];
            } else {
              assert kept[i] == layers[n];
            }
          }
        }
        var own := EntitySprites(layers[n].entityInstances, defs, z);
        assert EntityLayers(layers) == kept;
        assert kept[|before|] == layers[n];
        assert EntityPass(kept, tilesets, defs, z) == EntityPass(before, tilesets, defs, z) + own;
        assert EntityPass(layers, tilesets, defs, z) == EntityPass(layers[..n], tilesets, defs, z) + own;
      } else {
        assert EntityLayers(layers) == before;
        assert EntityPass(layers, tilesets, defs, z) == EntityPass(layers[..n], tilesets, defs, z);
      }
    }
  }

  /** Indices of the "Tiles" layers. */
  function TileLayerIndices(layers: seq<Layer>): set<nat>
  {
    set i: nat | i < |layers| && layers[i].layerType == TilesLayer
  }

  /** The depth counter after a pass is the number of "Tiles" layers, and no other layer type counts. */
  lemma {:induction false} CountTilesIsTileLayers(layers: seq<Layer>)
    ensures CountTiles(layers) == |TileLayerIndices(layers)|
  {
    if |layers| > 0 {
      var n := |layers| - 1;
      CountTilesIsTileLayers(layers[..n]);
      var before := TileLayerIndices(layers[..n]);
      assert forall i :: 0 <= i < n ==> layers[..n][i] == layers[i];
      if layers[n].layerType == TilesLayer {
        assert TileLayerIndices(layers) == before + {n};
      } else {
        assert TileLayerIndices(layers) == before;
      }
    }
  }

  lemma LayersDrawablePrefix(layers: seq<Layer>, tilesets: seq<T.Tileset>, i: nat)
    requires LayersDrawable(layers, tilesets)
    requires i <= |layers|
    ensures LayersDrawable(layers[..i], tilesets)
  {
    assert forall j :: 0 <= j < i ==> layers[..i][j] == layers[j];
  }

  /** One more layer extends the tile pass by that layer's sprites, at the depth counted so far. */
  lemma TilePassStep(layers: seq<Layer>, tilesets: seq<T.Tileset>, i: nat)
    requires LayersDrawable(layers, tilesets)
    requires i < |layers|
    ensures LayersDrawable(layers[..i], tilesets) && LayersDrawable(layers[..i + 1], tilesets)
    ensures LayerDrawable(layers[i], tilesets)
    ensures TilePass(layers[..i + 1], tilesets)
              == TilePass(layers[..i], tilesets) + TileLayerSprites(layers[i], tilesets, CountTiles(layers[..i]))
    ensures CountTiles(layers[..i + 1]) == CountTiles(layers[..i]) + (if layers[i].layerType == TilesLayer then 1 else 0)
  {
    var upto := layers[..i + 1];
    assert upto[..i] == layers[..i];
    assert upto[i] == layers[i];
    LayersDrawablePrefix(layers, tilesets, i);
    LayersDrawablePrefix(layers, tilesets, i + 1);
  }

  /** Planning a prefix of the layers yields a prefix of the tile pass. */
  lemma {:induction false} TilePassPrefix(layers: seq<Layer>, tilesets: seq<T.Tileset>, i: nat)
    requires LayersDrawable(layers, tilesets)
    requires i <= |layers|
    ensures LayersDrawable(layers[..i], tilesets)
    ensures TilePass(layers[..i], tilesets) <= TilePass(layers, tilesets)
    decreases |layers| - i
  {
    if i < |layers| {
      TilePassPrefix(layers, tilesets, i + 1);
      TilePassStep(layers, tilesets, i);
    } else {
      assert layers[..i] == layers;
    }
  }

  /**
    The sprites of the i-th layer sit in the tile pass right after those of
    the layers before it, at a depth equal to the number of earlier "Tiles"
    layers.
   */
  lemma TileLayerAtDepth(layers: seq<Layer>, tilesets: seq<T.Tileset>, i: nat)
    requires LayersDrawable(layers, tilesets)
    requires i < |layers|
    ensures LayersDrawable(layers[..i], tilesets) && LayerDrawable(layers[i], tilesets)
    ensures var start := |TilePass(layers[..i], tilesets)|;
            var own := TileLayerSprites(layers[i], tilesets, |TileLayerIndices(layers[..i])|);
            start + |own| <= |TilePass(layers, tilesets)| &&
            TilePass(layers, tilesets)[start..start + |own|] == own
  {
    TilePassPrefix(layers, tilesets, i + 1);
    TilePassStep(layers, tilesets, i);
    var depth := CountTiles(layers[..i]);
    CountTilesIsTileLayers(layers[..i]);
    var own := TileLayerSprites(layers[i], tilesets, depth);
    assert own == TileLayerSprites(layers[i], tilesets, |TileLayerIndices(layers[..i])|);
    var before := TilePass(layers[..i], tilesets);
    var whole := TilePass(layers, tilesets);
    assert before + own <= whole;
    PrefixSlice(before, own, whole);
  }

  lemma PrefixSlice<X>(a: seq<X>, b: seq<X>, c: seq<X>)
    requires a + b <= c
    ensures |a| + |b| <= |c| && c[|a|..|a| + |b|] == b
  {
    assert forall k :: |a| <= k < |a| + |b| ==> c[k] == (a + b)[k];
  }

  /** A level without an "Entities" layer has an empty entity pass. */
  lemma {:induction false} NoEntityLayersNoEntities(layers: seq<Layer>, tilesets: seq<T.Tileset>, defs: seq<T.EntityDef>, z: int)
    requires LayersDrawable(layers, tilesets)
    requires forall i :: 0 <= i < |layers| ==> layers[i].layerType != EntitiesLayer
    ensures EntityPass(layers, tilesets, defs, z) == []
  {
    if |layers| > 0 {
      var n := |layers| - 1;
      LayersDrawablePrefix(layers, tilesets, n);
      assert forall i :: 0 <= i < n ==> layers[..n][i] == layers[i];
      NoEntityLayersNoEntities(layers[..n], tilesets, defs, z);
    }
  }

  /** The project plan is the level plans concatenated in level order. */
  lemma {:induction false} PlanLevelsAppend(a: seq<Level>, b: seq<Level>, tilesets: seq<T.Tileset>, defs: seq<T.EntityDef>)
    requires LevelsDrawable(a, tilesets) && LevelsDrawable(b, tilesets)
    ensures LevelsDrawable(a + b, tilesets)
    ensures PlanLevels(a + b, tilesets, defs) == PlanLevels(a, tilesets, defs) + PlanLevels(b, tilesets, defs)
    decreases |b|
  {
    LevelsDrawableConcat(a, b, tilesets);
    var ab := a + b;
    if |b| == 0 {
      assert ab == a;
    } else {
      var n := |b| - 1;
      var front := b[..n];
      LevelsDrawablePrefix(b, tilesets, n);
      DropLastConcat(a, b);
      PlanLevelsAppend(a, front, tilesets, defs);
      var last := PlanLevel(b[n], tilesets, defs);
      assert PlanLevels(ab, tilesets, defs) == PlanLevels(a + front, tilesets, defs) + last;
      assert PlanLevels(b, tilesets, defs) == PlanLevels(front, tilesets, defs) + last;
      ConcatAssoc(PlanLevels(a, tilesets, defs), PlanLevels(front, tilesets, defs), last);
    }
  }

  lemma LevelsDrawableConcat(a: seq<Level>, b: seq<Level>, tilesets: seq<T.Tileset>)
    requires LevelsDrawable(a, tilesets) && LevelsDrawable(b, tilesets)
    ensures LevelsDrawable(a + b, tilesets)
  {
    forall i | 0 <= i < |a + b|
      ensures LayersDrawable((a + b)[i].layerInstances, tilesets)
    {
      if i < |a| {
        assert (a + b)[i] == a[i];
      } else {
        assert (a + b)[i] == b[i - |a|];
      }
    }
  }

  lemma LevelsDrawablePrefix(levels: seq<Level>, tilesets: seq<T.Tileset>, n: nat)
    requires LevelsDrawable(levels, tilesets) && n <= |levels|
    ensures LevelsDrawable(levels[..n], tilesets)
  {
    forall i | 0 <= i < n
      ensures LayersDrawable(levels[..n][i].layerInstances, tilesets)
    {
      assert levels[..n][i] == levels[i];
    }
  }

  lemma DropLastConcat<X>(a: seq<X>, b: seq<X>)
    requires |b| > 0
    ensures (a + b)[..|a + b| - 1] == a + b[..|b| - 1]
    ensures (a + b)[|a + b| - 1] == b[|b| - 1]
  {
    var ab, front := a + b, a + b[..|b| - 1];
    assert forall i :: 0 <= i < |front| ==> ab[..|ab| - 1][i] == front[i];
  }

  lemma ConcatAssoc<X>(x: seq<X>, y: seq<X>, z: seq<X>)
    ensures x + y + z == x + (y + z)
  {
  }
}
