/**
  The inverse of the compiler's mapping closures.  Lifting a generated project
  back to export records shows how much the compiler forgets: exactly the
  difference between a tileset whose `relPath` is missing and one whose `relPath`
  is the empty string.
 */
module Decompile {
  import opened Basics
  import opened Json
  import S = Source
  import T = Target
  import opened Compiler

  function LiftGridTile(g: T.GridTile): S.GridTile {
    S.GridTile(g.px, g.src, g.f, g.t, g.d, g.a)
  }

  function LiftField(f: T.FieldInstance<JsonValue>): S.FieldInstance {
    S.FieldInstance(f.identifier, f.fieldType, f.value)
  }

  function LiftEntity(e: T.EntityInstance<JsonValue>): S.EntityInstance {
    S.EntityInstance(e.identifier, e.px,
      seq(|e.fieldInstances|, i requires 0 <= i < |e.fieldInstances| => LiftField(e.fieldInstances[i])))
  }

  function LiftLayer(l: T.LayerInstance<JsonValue>): S.LayerInstance {
    S.LayerInstance(l.identifier, l.layerType, l.gridSize, l.cwid, l.chei, l.tilesetDefUid,
      seq(|l.gridTiles|, i requires 0 <= i < |l.gridTiles| => LiftGridTile(l.gridTiles[i])),
      seq(|l.entityInstances|, i requires 0 <= i < |l.entityInstances| => LiftEntity(l.entityInstances[i])))
  }

  function LiftLevel(l: T.Level<JsonValue>): S.Level {
    S.Level(l.identifier, l.width, l.height,
      seq(|l.layerInstances|, i requires 0 <= i < |l.layerInstances| => LiftLayer(l.layerInstances[i])))
  }

  /** An empty path is read back as a missing one. */
  function LiftTileset(t: T.Tileset): S.Tileset {
    S.Tileset(t.uid, if t.relPath == "" then None else Some(t.relPath), t.width, t.height, t.tileGridSize)
  }

  function LiftEntityDef(e: T.EntityDef): S.EntityDef {
    S.EntityDef(e.identifier, e.uid, e.width, e.height)
  }

  function LiftEnumValue(v: T.EnumValueDef): S.EnumValueDef {
    S.EnumValueDef(v.id, S.TileRect(v.tileRect.tilesetUid, v.tileRect.x, v.tileRect.y, v.tileRect.w, v.tileRect.h))
  }

  function LiftEnum(e: T.EnumDef): S.EnumDef {
    S.EnumDef(e.identifier, e.uid, seq(|e.values|, i requires 0 <= i < |e.values| => LiftEnumValue(e.values[i])))
  }

  function Lift(p: T.Project<JsonValue>): S.Project {
    S.Project(
      S.Defs(
        seq(|p.tilesets|, i requires 0 <= i < |p.tilesets| => LiftTileset(p.tilesets[i])),
        seq(|p.entities|, i requires 0 <= i < |p.entities| => LiftEntityDef(p.entities[i])),
        seq(|p.enums|, i requires 0 <= i < |p.enums| => LiftEnum(p.enums[i]))),
      seq(|p.levels|, i requires 0 <= i < |p.levels| => LiftLevel(p.levels[i])))
  }

  /** The export with every empty `relPath` replaced by a missing one. */
  function NormalizeTileset(t: S.Tileset): S.Tileset {
    if t.relPath == Some("") then t.(relPath := None) else t
  }

  function Normalize(p: S.Project): S.Project {
    p.(defs := p.defs.(tilesets :=
      seq(|p.defs.tilesets|, i requires 0 <= i < |p.defs.tilesets| => NormalizeTileset(p.defs.tilesets[i]))))
  }

  // ---------------------------------------------------------------------------
  // Lowering after lifting
  // ---------------------------------------------------------------------------

  lemma LowerLiftEntity(e: T.EntityInstance<JsonValue>)
    ensures LowerEntity(LiftEntity(e)) == e
  {
    assert LowerEntity(LiftEntity(e)).fieldInstances == e.fieldInstances;
  }

  lemma LowerLiftLayer(l: T.LayerInstance<JsonValue>)
    ensures LowerLayer(LiftLayer(l)) == l
  {
    var r := LowerLayer(LiftLayer(l));
    forall i | 0 <= i < |l.entityInstances|
      ensures r.entityInstances[i] == l.entityInstances[i]
    {
      LowerLiftEntity(l.entityInstances[i]);
    }
    assert r.gridTiles == l.gridTiles;
    assert r.entityInstances == l.entityInstances;
  }

  lemma LowerLiftLevel(l: T.Level<JsonValue>)
    ensures LowerLevel(LiftLevel(l)) == l
  {
    var r := LowerLevel(LiftLevel(l));
    forall i | 0 <= i < |l.layerInstances|
      ensures r.layerInstances[i] == l.layerInstances[i]
    {
      LowerLiftLayer(l.layerInstances[i]);
    }
    assert r.layerInstances == l.layerInstances;
  }

  lemma LowerLiftEnum(e: T.EnumDef)
    ensures LowerEnum(LiftEnum(e)) == e
  {
    assert LowerEnum(LiftEnum(e)).values == e.values;
  }

  /** Every project the generated code can hold is the image of some export. */
  lemma LowerLift(p: T.Project<JsonValue>)
    ensures Lower(Lift(p)) == p
  {
    var r := Lower(Lift(p));
    forall i | 0 <= i < |p.levels|
      ensures r.levels[i] == p.levels[i]
    {
      LowerLiftLevel(p.levels[i]);
    }
    forall i | 0 <= i < |p.enums|
      ensures r.enums[i] == p.enums[i]
    {
      LowerLiftEnum(p.enums[i]);
    }
    assert r.levels == p.levels;
    assert r.tilesets == p.tilesets;
    assert r.entities == p.entities;
    assert r.enums == p.enums;
  }

  // ---------------------------------------------------------------------------
  // Lifting after lowering
  // ---------------------------------------------------------------------------

  lemma LiftLowerEntity(e: S.EntityInstance)
    ensures LiftEntity(LowerEntity(e)) == e
  {
    assert LiftEntity(LowerEntity(e)).fieldInstances == e.fieldInstances;
  }

  lemma LiftLowerLayer(l: S.LayerInstance)
    ensures LiftLayer(LowerLayer(l)) == l
  {
    var r := LiftLayer(LowerLayer(l));
    forall i | 0 <= i < |l.entityInstances|
      ensures r.entityInstances[i] == l.entityInstances[i]
    {
      LiftLowerEntity(l.entityInstances[i]);
    }
    assert r.gridTiles == l.gridTiles;
    assert r.entityInstances == l.entityInstances;
  }

  lemma LiftLowerLevel(l: S.Level)
    ensures LiftLevel(LowerLevel(l)) == l
  {
    var r := LiftLevel(LowerLevel(l));
    forall i | 0 <= i < |l.layerInstances|
      ensures r.layerInstances[i] == l.layerInstances[i]
    {
      LiftLowerLayer(l.layerInstances[i]);
    }
    assert r.layerInstances == l.layerInstances;
  }

  lemma LiftLowerEnum(e: S.EnumDef)
    ensures LiftEnum(LowerEnum(e)) == e
  {
    assert LiftEnum(LowerEnum(e)).values == e.values;
  }

  /** Lifting the lowered export gives back the export, up to the empty-path normalisation. */
  lemma LiftLower(p: S.Project)
    ensures Lift(Lower(p)) == Normalize(p)
  {
    var r := Lift(Lower(p));
    var n := Normalize(p);
    forall i | 0 <= i < |p.levels|
      ensures r.levels[i] == p.levels[i]
    {
      LiftLowerLevel(p.levels[i]);
    }
    forall i | 0 <= i < |p.defs.enums|
      ensures r.defs.enums[i] == p.defs.enums[i]
    {
      LiftLowerEnum(p.defs.enums[i]);
    }
    assert r.levels == n.levels;
    assert r.defs.tilesets == n.defs.tilesets;
    assert r.defs.entities == n.defs.entities;
    assert r.defs.enums == n.defs.enums;
  }

  /** Normalising the export does not change what the compiler makes of it. */
  lemma LowerNormalize(p: S.Project)
    ensures Lower(Normalize(p)) == Lower(p)
  {
    assert Lower(Normalize(p)).tilesets == Lower(p).tilesets;
  }

  /**
    Two exports compile to the same constant exactly when they agree on everything
    but the distinction between a missing and an empty `relPath`.  In particular a
    missing `__tilesetDefUid` stays distinguishable from every present one.
   */
  lemma CompileIdentifies(a: S.Project, b: S.Project)
    ensures Compile(a) == Compile(b) <==> Normalize(a) == Normalize(b)
  {
    CompileIsLower(a);
    CompileIsLower(b);
    LiftLower(a);
    LiftLower(b);
    if Normalize(a) == Normalize(b) {
      LowerNormalize(a);
      LowerNormalize(b);
    }
  }

  /** With no empty `relPath` in the export, nothing at all is lost. */
  lemma CompileLosslessWithoutEmptyPaths(p: S.Project)
    requires forall i :: 0 <= i < |p.defs.tilesets| ==> p.defs.tilesets[i].relPath != Some("")
    ensures Compile(p).Some? && Lift(Compile(p).value) == p
  {
    CompileIsLower(p);
    LiftLower(p);
    assert Normalize(p).defs.tilesets == p.defs.tilesets;
  }
}
