/**
  The build-time data compiler.  Three stages, run once per build:

  - `Lower`: the mapping closures, which rename fields, flatten the definitions
    into the project root and default a missing `relPath` to the empty string;
  - `Emit`: the code generation, which turns every record into a literal except
    the JSON value of a field instance, embedded as its printed text;
  - `Materialize`: the initialiser of the generated constant, which parses each
    embedded text back and unwraps the result (a failure there is a panic,
    modelled as `None`).

  `Compile` is the composition; the emitted token streams are represented by the
  target value they rebuild.
 */
module Compiler {
  import opened Basics
  import opened Json
  import S = Source
  import T = Target

  // ---------------------------------------------------------------------------
  // Field-by-field correspondence between a source record and its target record
  // ---------------------------------------------------------------------------

  ghost predicate GridTileMatches(s: S.GridTile, t: T.GridTile) {
    t.px == s.px && t.src == s.src && t.f == s.f && t.t == s.t && t.d == s.d && t.a == s.a
  }

  ghost predicate FieldMatches(s: S.FieldInstance, t: T.FieldInstance<JsonValue>) {
    t.identifier == s.identifier && t.fieldType == s.fieldType && t.value == s.value
  }

  ghost predicate EntityMatches(s: S.EntityInstance, t: T.EntityInstance<JsonValue>) {
    && t.identifier == s.identifier
    && t.px == s.px
    && |t.fieldInstances| == |s.fieldInstances|
    && forall i :: 0 <= i < |s.fieldInstances| ==> FieldMatches(s.fieldInstances[i], t.fieldInstances[i])
  }

  ghost predicate LayerMatches(s: S.LayerInstance, t: T.LayerInstance<JsonValue>) {
    && t.identifier == s.identifier
    && t.layerType == s.layerType
    && t.gridSize == s.gridSize
    && t.cwid == s.cWid
    && t.chei == s.cHei
    && t.tilesetDefUid == s.tilesetDefUid
    && |t.gridTiles| == |s.gridTiles|
    && (forall i :: 0 <= i < |s.gridTiles| ==> GridTileMatches(s.gridTiles[i], t.gridTiles[i]))
    && |t.entityInstances| == |s.entityInstances|
    && forall i :: 0 <= i < |s.entityInstances| ==> EntityMatches(s.entityInstances[i], t.entityInstances[i])
  }

  ghost predicate LevelMatches(s: S.Level, t: T.Level<JsonValue>) {
    && t.identifier == s.identifier
    && t.width == s.pxWid
    && t.height == s.pxHei
    && |t.layerInstances| == |s.layerInstances|
    && forall i :: 0 <= i < |s.layerInstances| ==> LayerMatches(s.layerInstances[i], t.layerInstances[i])
  }

  ghost predicate TilesetMatches(s: S.Tileset, t: T.Tileset) {
    && t.uid == s.uid
    && t.relPath == (if s.relPath.Some? then s.relPath.value else "")
    && t.width == s.pxWid
    && t.height == s.pxHei
    && t.tileGridSize == s.tileGridSize
  }

  ghost predicate EntityDefMatches(s: S.EntityDef, t: T.EntityDef) {
    t.identifier == s.identifier && t.uid == s.uid && t.width == s.width && t.height == s.height
  }

  ghost predicate EnumValueMatches(s: S.EnumValueDef, t: T.EnumValueDef) {
    && t.id == s.id
    && t.tileRect.tilesetUid == s.tileRect.tilesetUid
    && t.tileRect.x == s.tileRect.x
    && t.tileRect.y == s.tileRect.y
    && t.tileRect.w == s.tileRect.w
    && t.tileRect.h == s.tileRect.h
  }

  ghost predicate EnumMatches(s: S.EnumDef, t: T.EnumDef) {
    && t.identifier == s.identifier
    && t.uid == s.uid
    && |t.values| == |s.values|
    && forall i :: 0 <= i < |s.values| ==> EnumValueMatches(s.values[i], t.values[i])
  }

  ghost predicate ProjectMatches(s: S.Project, t: T.Project<JsonValue>) {
    && |t.levels| == |s.levels|
    && (forall i :: 0 <= i < |s.levels| ==> LevelMatches(s.levels[i], t.levels[i]))
    && |t.tilesets| == |s.defs.tilesets|
    && (forall i :: 0 <= i < |s.defs.tilesets| ==> TilesetMatches(s.defs.tilesets[i], t.tilesets[i]))
    && |t.entities| == |s.defs.entities|
    && (forall i :: 0 <= i < |s.defs.entities| ==> EntityDefMatches(s.defs.entities[i], t.entities[i]))
    && |t.enums| == |s.defs.enums|
    && forall i :: 0 <= i < |s.defs.enums| ==> EnumMatches(s.defs.enums[i], t.enums[i])
  }

  // ---------------------------------------------------------------------------
  // Lowering: the mapping closures
  // ---------------------------------------------------------------------------

  function LowerGridTile(g: S.GridTile): T.GridTile {
    T.GridTile(g.px, g.src, g.f, g.t, g.d, g.a)
  }

  function LowerField(f: S.FieldInstance): T.FieldInstance<JsonValue> {
    T.FieldInstance(f.identifier, f.fieldType, f.value)
  }

  function LowerEntity(e: S.EntityInstance): T.EntityInstance<JsonValue> {
    T.EntityInstance(e.identifier, e.px,
      seq(|e.fieldInstances|, i requires 0 <= i < |e.fieldInstances| => LowerField(e.fieldInstances[i])))
  }

  function LowerLayer(l: S.LayerInstance): T.LayerInstance<JsonValue> {
    T.LayerInstance(l.identifier, l.layerType, l.gridSize, l.cWid, l.cHei, l.tilesetDefUid,
      seq(|l.gridTiles|, i requires 0 <= i < |l.gridTiles| => LowerGridTile(l.gridTiles[i])),
      seq(|l.entityInstances|, i requires 0 <= i < |l.entityInstances| => LowerEntity(l.entityInstances[i])))
  }

  function LowerLevel(l: S.Level): T.Level<JsonValue> {
    T.Level(l.identifier, l.pxWid, l.pxHei,
      seq(|l.layerInstances|, i requires 0 <= i < |l.layerInstances| => LowerLayer(l.layerInstances[i])))
  }

  /** A missing `relPath` becomes the empty string. */
  function LowerTileset(t: S.Tileset): T.Tileset {
    T.Tileset(t.uid, if t.relPath.Some? then t.relPath.value else "", t.pxWid, t.pxHei, t.tileGridSize)
  }

  function LowerEntityDef(e: S.EntityDef): T.EntityDef {
    T.EntityDef(e.identifier, e.uid, e.width, e.height)
  }

  function LowerEnumValue(v: S.EnumValueDef): T.EnumValueDef {
    T.EnumValueDef(v.id, T.TileRect(v.tileRect.tilesetUid, v.tileRect.x, v.tileRect.y, v.tileRect.w, v.tileRect.h))
  }

  function LowerEnum(e: S.EnumDef): T.EnumDef {
    T.EnumDef(e.identifier, e.uid,
      seq(|e.values|, i requires 0 <= i < |e.values| => LowerEnumValue(e.values[i])))
  }

  function Lower(p: S.Project): T.Project<JsonValue> {
    T.Project(
      seq(|p.levels|, i requires 0 <= i < |p.levels| => LowerLevel(p.levels[i])),
      seq(|p.defs.tilesets|, i requires 0 <= i < |p.defs.tilesets| => LowerTileset(p.defs.tilesets[i])),
      seq(|p.defs.entities|, i requires 0 <= i < |p.defs.entities| => LowerEntityDef(p.defs.entities[i])),
      seq(|p.defs.enums|, i requires 0 <= i < |p.defs.enums| => LowerEnum(p.defs.enums[i])))
  }

  lemma LowerEntityMatches(e: S.EntityInstance)
    ensures EntityMatches(e, LowerEntity(e))
  {
  }

  lemma LowerLayerMatches(l: S.LayerInstance)
    ensures LayerMatches(l, LowerLayer(l))
  {
    var t := LowerLayer(l);
    forall i | 0 <= i < |l.entityInstances|
      ensures EntityMatches(l.entityInstances[i], t.entityInstances[i])
    {
      LowerEntityMatches(l.entityInstances[i]);
    }
  }

  lemma LowerLevelMatches(l: S.Level)
    ensures LevelMatches(l, LowerLevel(l))
  {
    var t := LowerLevel(l);
    forall i | 0 <= i < |l.layerInstances|
      ensures LayerMatches(l.layerInstances[i], t.layerInstances[i])
    {
      LowerLayerMatches(l.layerInstances[i]);
    }
  }

  lemma LowerMatches(p: S.Project)
    ensures ProjectMatches(p, Lower(p))
  {
    var t := Lower(p);
    forall i | 0 <= i < |p.levels|
      ensures LevelMatches(p.levels[i], t.levels[i])
    {
      LowerLevelMatches(p.levels[i]);
    }
  }

  // ---------------------------------------------------------------------------
  // Emission: field values become their printed text
  // ---------------------------------------------------------------------------

  function EmitField(f: T.FieldInstance<JsonValue>): T.FieldInstance<string> {
    T.FieldInstance(f.identifier, f.fieldType, Print(f.value))
  }

  function EmitEntity(e: T.EntityInstance<JsonValue>): T.EntityInstance<string> {
    T.EntityInstance(e.identifier, e.px,
      seq(|e.fieldInstances|, i requires 0 <= i < |e.fieldInstances| => EmitField(e.fieldInstances[i])))
  }

  function EmitLayer(l: T.LayerInstance<JsonValue>): T.LayerInstance<string> {
    T.LayerInstance(l.identifier, l.layerType, l.gridSize, l.cwid, l.chei, l.tilesetDefUid, l.gridTiles,
      seq(|l.entityInstances|, i requires 0 <= i < |l.entityInstances| => EmitEntity(l.entityInstances[i])))
  }

  function EmitLevel(l: T.Level<JsonValue>): T.Level<string> {
    T.Level(l.identifier, l.width, l.height,
      seq(|l.layerInstances|, i requires 0 <= i < |l.layerInstances| => EmitLayer(l.layerInstances[i])))
  }

  function Emit(p: T.Project<JsonValue>): T.Project<string> {
    T.Project(seq(|p.levels|, i requires 0 <= i < |p.levels| => EmitLevel(p.levels[i])),
      p.tilesets, p.entities, p.enums)
  }

  // ---------------------------------------------------------------------------
  // Materialisation: building the generated constant
  // ---------------------------------------------------------------------------

  /** All the values if every element is present, and `None` as soon as one is missing. */
  function Collect<X>(xs: seq<Option<X>>): (r: Option<seq<X>>)
    ensures r.Some? <==> forall i :: 0 <= i < |xs| ==> xs[i].Some?
    ensures r.Some? ==> |r.value| == |xs| && forall i :: 0 <= i < |xs| ==> xs[i] == Some(r.value[i])
  {
    if |xs| == 0 then Some([])
    else
      match (xs[0], Collect(xs[1..]))
      case (Some(x), Some(rest)) => Some([x] + rest)
      case _ => None
  }

  /** Parsing the embedded text and unwrapping the result; `None` is the panic of `unwrap`. */
  function MaterializeField(f: T.FieldInstance<string>): Option<T.FieldInstance<JsonValue>> {
    match ParseDocument(f.value)
    case None => None
    case Some(v) => Some(T.FieldInstance(f.identifier, f.fieldType, v))
  }

  function MaterializeEntity(e: T.EntityInstance<string>): Option<T.EntityInstance<JsonValue>> {
    match Collect(seq(|e.fieldInstances|, i requires 0 <= i < |e.fieldInstances| => MaterializeField(e.fieldInstances[i])))
    case None => None
    case Some(fields) => Some(T.EntityInstance(e.identifier, e.px, fields))
  }

  function MaterializeLayer(l: T.LayerInstance<string>): Option<T.LayerInstance<JsonValue>> {
    match Collect(seq(|l.entityInstances|, i requires 0 <= i < |l.entityInstances| => MaterializeEntity(l.entityInstances[i])))
    case None => None
    case Some(entities) =>
      Some(T.LayerInstance(l.identifier, l.layerType, l.gridSize, l.cwid, l.chei, l.tilesetDefUid, l.gridTiles, entities))
  }

  function MaterializeLevel(l: T.Level<string>): Option<T.Level<JsonValue>> {
    match Collect(seq(|l.layerInstances|, i requires 0 <= i < |l.layerInstances| => MaterializeLayer(l.layerInstances[i])))
    case None => None
    case Some(layers) => Some(T.Level(l.identifier, l.width, l.height, layers))
  }

  function Materialize(p: T.Project<string>): Option<T.Project<JsonValue>> {
    match Collect(seq(|p.levels|, i requires 0 <= i < |p.levels| => MaterializeLevel(p.levels[i])))
    case None => None
    case Some(levels) => Some(T.Project(levels, p.tilesets, p.entities, p.enums))
  }

  lemma CollectAllSome<X>(xs: seq<Option<X>>, ys: seq<X>)
    requires |xs| == |ys|
    requires forall i :: 0 <= i < |xs| ==> xs[i] == Some(ys[i])
    ensures Collect(xs) == Some(ys)
  {
    var r := Collect(xs);
    assert r.Some?;
    assert r.value == ys;
  }

  lemma MaterializeEmitEntity(e: T.EntityInstance<JsonValue>)
    ensures MaterializeEntity(EmitEntity(e)) == Some(e)
  {
    var emitted := EmitEntity(e);
    var xs := seq(|emitted.fieldInstances|, i requires 0 <= i < |emitted.fieldInstances| => MaterializeField(emitted.fieldInstances[i]));
    forall i | 0 <= i < |xs|
      ensures xs[i] == Some(e.fieldInstances[i])
    {
      ParsePrintDocument(e.fieldInstances[i].value);
    }
    CollectAllSome(xs, e.fieldInstances);
  }

  lemma MaterializeEmitLayer(l: T.LayerInstance<JsonValue>)
    ensures MaterializeLayer(EmitLayer(l)) == Some(l)
  {
    var emitted := EmitLayer(l);
    var xs := seq(|emitted.entityInstances|, i requires 0 <= i < |emitted.entityInstances| => MaterializeEntity(emitted.entityInstances[i]));
    forall i | 0 <= i < |xs|
      ensures xs[i] == Some(l.entityInstances[i])
    {
      MaterializeEmitEntity(l.entityInstances[i]);
    }
    CollectAllSome(xs, l.entityInstances);
  }

  lemma MaterializeEmitLevel(l: T.Level<JsonValue>)
    ensures MaterializeLevel(EmitLevel(l)) == Some(l)
  {
    var emitted := EmitLevel(l);
    var xs := seq(|emitted.layerInstances|, i requires 0 <= i < |emitted.layerInstances| => MaterializeLayer(emitted.layerInstances[i]));
    forall i | 0 <= i < |xs|
      ensures xs[i] == Some(l.layerInstances[i])
    {
      MaterializeEmitLayer(l.layerInstances[i]);
    }
    CollectAllSome(xs, l.layerInstances);
  }

  /** Building the constant from the generated code rebuilds exactly the project it was generated from. */
  lemma MaterializeEmit(p: T.Project<JsonValue>)
    ensures Materialize(Emit(p)) == Some(p)
  {
    var emitted := Emit(p);
    var xs := seq(|emitted.levels|, i requires 0 <= i < |emitted.levels| => MaterializeLevel(emitted.levels[i]));
    forall i | 0 <= i < |xs|
      ensures xs[i] == Some(p.levels[i])
    {
      MaterializeEmitLevel(p.levels[i]);
    }
    CollectAllSome(xs, p.levels);
  }

  // ---------------------------------------------------------------------------
  // The whole compiler
  // ---------------------------------------------------------------------------

  /**
    The project the generated constant holds once built: never a panic, and the
    field-by-field image of the source, with every field value equal to the
    source value after its trip through text.
   */
  function Compile(src: S.Project): (r: Option<T.Project<JsonValue>>)
    ensures r.Some? && ProjectMatches(src, r.value)
  {
    MaterializeEmit(Lower(src));
    LowerMatches(src);
    Materialize(Emit(Lower(src)))
  }

  /** The constant holds exactly the lowered project: the trip of field values through text is invisible. */
  lemma CompileIsLower(src: S.Project)
    ensures Compile(src) == Some(Lower(src))
  {
    MaterializeEmit(Lower(src));
  }
}
