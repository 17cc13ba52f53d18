/**
 * core/commands/src/commands/advanced_edit.rs: fillet, chamfer, mirror and
 * pattern, each an `EditOp` that rewrites the whole entity list, and the
 * `EntitiesDelta` that snapshots the list before and after the first apply.
 * The geometry moves of the pattern (`translate_geom`, `rotate_geom`) are the
 * edit_ops ones without their guards, so `EditOps.TranslateGeom` and
 * `EditOps.RotateGeom` model them.
 */
module AdvancedEdit {
  import opened Wrappers
  import opened Json
  import opened Serialize
  import opened Model
  import opened Seqs
  import opened Deltas
  import EditOps
  import opened Passes

  /** `f64::to_radians` factor: the double nearest pi, over 180. */
  const DEG_TO_RAD: real := 3.141592653589793 / 180.0

  /** The quarter-turn end angle of the fallback fillet arc. */
  const FALLBACK_END_ANGLE: real := 1.57

  // ----- commands -----

  /** Fillet and chamfer take two entity ids and a positive finite size. */
  class TwoPickCommand {
    /** True for the fillet command, false for the chamfer command. */
    const fillet: bool
    var preview: Option<(Uuid, Uuid, real)>

    constructor (fillet: bool)
      ensures this.fillet == fillet && preview == None
    {
      this.fillet := fillet;
      preview := None;
    }

    method Begin()
      modifies this
      ensures preview == None
    {
      preview := None;
    }

    /** A radius or distance that is not finite or not positive is refused. */
    method Update(e1: Uuid, e2: Uuid, size: Num) returns (r: Result<(), ReasonCode>)
      modifies this
      ensures r.Ok? <==> size.Finite? && size.v > 0.0
      ensures r.Err? ==> r.error == DrawInvalidNumeric && preview == old(preview)
      ensures r.Ok? ==> preview == Some((e1, e2, size.v))
    {
      if !size.Finite? || size.v <= 0.0 {
        return Err(DrawInvalidNumeric);
      }
      preview := Some((e1, e2, size.v));
      r := Ok(());
    }

    method Commit() returns (r: Result<Delta, ReasonCode>)
      ensures preview.None? ==> r == Err(DrawInsufficientInput)
      ensures preview.Some? && fillet ==>
        r == Ok(Entities(Fillet(preview.value.0, preview.value.1, preview.value.2), None, None))
      ensures preview.Some? && !fillet ==>
        r == Ok(Entities(Chamfer(preview.value.0, preview.value.1, preview.value.2), None, None))
    {
      if preview.None? {
        return Err(DrawInsufficientInput);
      }
      var (e1, e2, size) := preview.value;
      var op := if fillet then Fillet(e1, e2, size) else Chamfer(e1, e2, size);
      r := Ok(Entities(op, None, None));
    }

    method Cancel()
      modifies this
      ensures preview == None
    {
      preview := None;
    }
  }

  class MirrorCommand {
    var preview: Option<(seq<Uuid>, Vec2, Vec2)>

    constructor ()
      ensures preview == None
    {
      preview := None;
    }

    method Begin()
      modifies this
      ensures preview == None
    {
      preview := None;
    }

    /** Any selection and axis are accepted; the kernel judges the axis on apply. */
    method Update(ids: seq<Uuid>, axisA: Vec2, axisB: Vec2)
      modifies this
      ensures preview == Some((ids, axisA, axisB))
    {
      preview := Some((ids, axisA, axisB));
    }

    method Commit() returns (r: Result<Delta, ReasonCode>)
      ensures preview.None? ==> r == Err(DrawInsufficientInput)
      ensures preview.Some? ==>
        r == Ok(Entities(Mirror(preview.value.0, preview.value.1, preview.value.2), None, None))
    {
      if preview.None? {
        return Err(DrawInsufficientInput);
      }
      r := Ok(Entities(Mirror(preview.value.0, preview.value.1, preview.value.2), None, None));
    }

    method Cancel()
      modifies this
      ensures preview == None
    {
      preview := None;
    }
  }

  function Count(p: PatternParams): nat
  {
    match p
    case Linear(_, _, c) => c
    case Circular(_, _, _, c) => c
  }

  class PatternCommand {
    var preview: Option<(seq<Uuid>, PatternParams)>

    constructor ()
      ensures preview == None
    {
      preview := None;
    }

    method Begin()
      modifies this
      ensures preview == None
    {
      preview := None;
    }

    /** A pattern needs at least two instances, the original and one copy. */
    method Update(ids: seq<Uuid>, params: PatternParams) returns (r: Result<(), ReasonCode>)
      modifies this
      ensures r.Ok? <==> Count(params) >= 2
      ensures r.Err? ==> r.error == EditPatternInvalidParams && preview == old(preview)
      ensures r.Ok? ==> preview == Some((ids, params))
    {
      if Count(params) < 2 {
        return Err(EditPatternInvalidParams);
      }
      preview := Some((ids, params));
      r := Ok(());
    }

    method Commit() returns (r: Result<Delta, ReasonCode>)
      ensures preview.None? ==> r == Err(DrawInsufficientInput)
      ensures preview.Some? ==> r == Ok(Entities(Pattern(preview.value.0, preview.value.1), None, None))
    {
      if preview.None? {
        return Err(DrawInsufficientInput);
      }
      r := Ok(Entities(Pattern(preview.value.0, preview.value.1), None, None));
    }

    method Cancel()
      modifies this
      ensures preview == None
    {
      preview := None;
    }
  }

  // ----- fillet and chamfer -----

  function Midpoint(p: Vec2, q: Vec2): Vec2 { Vec2(0.5 * (p.x + q.x), 0.5 * (p.y + q.y)) }

  /**
   * The fillet's trimmed lines and arc.  The arc joins the trimmed ends (the
   * `b` ends of the kernel's lines), centred half-way between them; when the
   * kernel cannot trim, the lines stay as they are and a quarter arc is placed
   * half-way between their `a` ends.
   */
  function FilletGeoms(k: Kernel, a0: Vec2, a1: Vec2, b0: Vec2, b1: Vec2, radius: real): (r: (Geom2D, Geom2D, Geom2D))
    ensures r.2.Arc? && r.2.r == radius && r.2.ccw
    ensures k.chamfer(a0, a1, b0, b1, radius).None? ==>
      r.0 == Line(a0, a1) && r.1 == Line(b0, b1) && r.2.c == Midpoint(a0, b0)
      && r.2.startAngle == 0.0 && r.2.endAngle == FALLBACK_END_ANGLE
    ensures k.chamfer(a0, a1, b0, b1, radius).Some? ==>
      r.0 == k.chamfer(a0, a1, b0, b1, radius).value.0 && r.1 == k.chamfer(a0, a1, b0, b1, radius).value.1
  {
    match k.chamfer(a0, a1, b0, b1, radius)
    case Some((g1, g2, _)) =>
      var pa := if g1.Line? then g1.b else a0;
      var pb := if g2.Line? then g2.b else b0;
      var c := Midpoint(pa, pb);
      (g1, g2, Arc(c, radius, k.math.atan2(pa.y - c.y, pa.x - c.x), k.math.atan2(pb.y - c.y, pb.x - c.x), true))
    case None =>
      (Line(a0, a1), Line(b0, b1), Arc(Midpoint(a0, b0), radius, 0.0, FALLBACK_END_ANGLE, true))
  }

  /** The entities named neither `x` nor `y`. */
  function WithoutPair(es: seq<Entity>, x: Uuid, y: Uuid): seq<Entity>
  {
    Filter(es, (e: Entity) => e.id != x && e.id != y)
  }

  /**
   * The list after fillet or chamfer: both originals removed, then the two
   * edited originals and the new joining entity appended.
   */
  function ReplacePair(es: seq<Entity>, a: Entity, b: Entity, g1: Geom2D, g2: Geom2D, joint: Geom2D,
                       newId: Uuid, tag: string): (r: seq<Entity>)
    ensures |r| >= 3 && r[..|r| - 3] == WithoutPair(es, a.id, b.id)
    ensures r[|r| - 3] == a.(geom := g1) && r[|r| - 2] == b.(geom := g2)
    ensures r[|r| - 1] == Entity(newId, a.layerId, joint, JObj([]), [tag], [])
  {
    var kept := WithoutPair(es, a.id, b.id);
    var out := kept + [a.(geom := g1), b.(geom := g2), Entity(newId, a.layerId, joint, JObj([]), [tag], [])];
    assert out[..|out| - 3] == kept;
    out
  }

  /** The two lines a fillet or chamfer joins, found by id; both must be lines. */
  function LinePair(es: seq<Entity>, e1: Uuid, e2: Uuid): (r: Result<(Entity, Entity), ReasonCode>)
    ensures r.Ok? ==>
      EntityIndex(es, e1).Some? && EntityIndex(es, e2).Some?
      && r.value.0 == es[EntityIndex(es, e1).value] && r.value.1 == es[EntityIndex(es, e2).value]
      && r.value.0.geom.Line? && r.value.1.geom.Line?
    ensures EntityIndex(es, e1).None? || EntityIndex(es, e2).None? ==> r == Err(ModelReferenceNotFound)
    ensures (EntityIndex(es, e1).Some? && EntityIndex(es, e2).Some?
             && !(es[EntityIndex(es, e1).value].geom.Line? && es[EntityIndex(es, e2).value].geom.Line?)) ==>
      r == Err(GeomOffsetNotSupported)
  {
    match EntityIndex(es, e1)
    case None => Err(ModelReferenceNotFound)
    case Some(i) =>
      match EntityIndex(es, e2)
      case None => Err(ModelReferenceNotFound)
      case Some(j) =>
        if es[i].geom.Line? && es[j].geom.Line? then Ok((es[i], es[j])) else Err(GeomOffsetNotSupported)
  }

  /** Fillet: never fails once both lines are found (a failed trim falls back to the quarter arc). */
  function FilletEdit(k: Kernel, es: seq<Entity>, e1: Uuid, e2: Uuid, radius: real): (r: Result<seq<Entity>, ReasonCode>)
    ensures r.Ok? <==> LinePair(es, e1, e2).Ok?
    ensures r.Ok? ==>
      var (a, b) := LinePair(es, e1, e2).value;
      var gs := FilletGeoms(k, a.geom.a, a.geom.b, b.geom.a, b.geom.b, radius);
      r.value == ReplacePair(es, a, b, gs.0, gs.1, gs.2, k.newId(0), "fillet")
  {
    var (a, b) :- LinePair(es, e1, e2);
    var gs := FilletGeoms(k, a.geom.a, a.geom.b, b.geom.a, b.geom.b, radius);
    Ok(ReplacePair(es, a, b, gs.0, gs.1, gs.2, k.newId(0), "fillet"))
  }

  /** Chamfer: the kernel's two trimmed lines and its joining segment; a failed trim is an error. */
  function ChamferEdit(k: Kernel, es: seq<Entity>, e1: Uuid, e2: Uuid, dist: real): (r: Result<seq<Entity>, ReasonCode>)
    ensures LinePair(es, e1, e2).Err? ==> r == Err(LinePair(es, e1, e2).error)
    ensures LinePair(es, e1, e2).Ok? ==>
      var (a, b) := LinePair(es, e1, e2).value;
      var c := k.chamfer(a.geom.a, a.geom.b, b.geom.a, b.geom.b, dist);
      (c.None? ==> r == Err(EditChamferDistanceTooLarge))
      && (c.Some? ==> r == Ok(ReplacePair(es, a, b, c.value.0, c.value.1, c.value.2, k.newId(0), "chamfer")))
  {
    var (a, b) :- LinePair(es, e1, e2);
    match k.chamfer(a.geom.a, a.geom.b, b.geom.a, b.geom.b, dist)
    case None => Err(EditChamferDistanceTooLarge)
    case Some((g1, g2, gc)) => Ok(ReplacePair(es, a, b, g1, g2, gc, k.newId(0), "chamfer"))
  }

  /**
   * Fillet and chamfer drop every entity carrying either picked id and append
   * three: the two edited lines, keeping their ids, layers, styles, tags and
   * meta, and one new entity on the first line's layer.
   */
  lemma {:induction false} PairEditShape(es: seq<Entity>, a: Entity, b: Entity, g1: Geom2D, g2: Geom2D, joint: Geom2D,
                      newId: Uuid, tag: string)
    ensures var r := ReplacePair(es, a, b, g1, g2, joint, newId, tag);
      (forall j :: 0 <= j < |r| - 3 ==> r[j].id != a.id && r[j].id != b.id && r[j] in es)
      && (forall e :: e in es && e.id != a.id && e.id != b.id ==> e in r[..|r| - 3])
      && |r| - 3 <= |es|
  {
    var r := ReplacePair(es, a, b, g1, g2, joint, newId, tag);
    forall j | 0 <= j < |r| - 3
      ensures r[j].id != a.id && r[j].id != b.id && r[j] in es
    {
      assert r[j] == r[..|r| - 3][j];
      assert r[j] in WithoutPair(es, a.id, b.id);
    }
  }

  // ----- mirror -----

  /** The mirrored copy of the entity named `sid` in `es`: its fields with the fresh id and the mirrored geometry. */
  function MirrorCopy(k: Kernel, es: seq<Entity>, sid: Uuid, axisA: Vec2, axisB: Vec2, newId: Uuid)
    : (r: Result<Entity, ReasonCode>)
    ensures EntityIndex(es, sid).None? ==> r == Err(ModelReferenceNotFound)
    ensures EntityIndex(es, sid).Some? ==>
      var src := es[EntityIndex(es, sid).value];
      (k.mirror(src.geom, axisA, axisB).None? ==> r == Err(EditMirrorAxisInvalid))
      && (k.mirror(src.geom, axisA, axisB).Some? ==>
            r == Ok(src.(id := newId, geom := k.mirror(src.geom, axisA, axisB).value)))
  {
    match EntityIndex(es, sid)
    case None => Err(ModelReferenceNotFound)
    case Some(i) =>
      var src := es[i];
      match k.mirror(src.geom, axisA, axisB)
      case None => Err(EditMirrorAxisInvalid)
      case Some(mg) => Ok(src.(id := newId, geom := mg))
  }

  /** The mirror step on the context (kernel, axis point, axis point): exactly one copy per id. */
  function MirrorStep(c: (Kernel, Vec2, Vec2), es: seq<Entity>, sid: Uuid, n: nat): Result<seq<Entity>, ReasonCode>
  {
    var m := MirrorCopy(c.0, es, sid, c.1, c.2, c.0.newId(n));
    if m.Err? then Err(m.error) else Ok([m.value])
  }

  function MirrorEdit(k: Kernel, es: seq<Entity>, ids: seq<Uuid>, axisA: Vec2, axisB: Vec2): Result<seq<Entity>, ReasonCode>
  {
    Grow(es, ids, MirrorStep, (k, axisA, axisB), 0)
  }

  /**
   * A successful mirror keeps the list as a prefix and appends exactly one
   * entity per selected id: the j-th is the mirror copy, with `newId(j)`, of that
   * id's entity in the list as grown before it.
   */
  lemma {:induction false} MirrorAppends(k: Kernel, es: seq<Entity>, ids: seq<Uuid>, axisA: Vec2, axisB: Vec2)
    requires MirrorEdit(k, es, ids, axisA, axisB).Ok?
    ensures var r := MirrorEdit(k, es, ids, axisA, axisB).value;
      |r| == |es| + |ids| && r[..|es|] == es
      && forall j :: 0 <= j < |ids| ==>
           MirrorCopy(k, r[..|es| + j], ids[j], axisA, axisB, k.newId(j)) == Ok(r[|es| + j])
  {
    MirrorStepWidth(k, axisA, axisB);
    GrowPrefix(es, ids, MirrorStep, (k, axisA, axisB), 0, 1);
    var r := MirrorEdit(k, es, ids, axisA, axisB).value;
    forall j | 0 <= j < |ids|
      ensures MirrorCopy(k, r[..|es| + j], ids[j], axisA, axisB, k.newId(j)) == Ok(r[|es| + j])
    {
      MirrorChunk(k, es, ids, axisA, axisB, j);
    }
  }

  lemma {:induction false} MirrorStepWidth(k: Kernel, axisA: Vec2, axisB: Vec2)
    ensures Appends(MirrorStep, (k, axisA, axisB), 1)
  {
  }

  /** The j-th appended entity of a successful mirror is the mirror copy of the j-th id's entity. */
  lemma {:induction false} MirrorChunk(k: Kernel, es: seq<Entity>, ids: seq<Uuid>, axisA: Vec2, axisB: Vec2, j: nat)
    requires MirrorEdit(k, es, ids, axisA, axisB).Ok? && j < |ids|
    ensures var r := MirrorEdit(k, es, ids, axisA, axisB).value;
      |es| + j < |r| && MirrorCopy(k, r[..|es| + j], ids[j], axisA, axisB, k.newId(j)) == Ok(r[|es| + j])
  {
    MirrorStepWidth(k, axisA, axisB);
    GrowChunk(es, ids, MirrorStep, (k, axisA, axisB), 0, 1, j);
    var r := MirrorEdit(k, es, ids, axisA, axisB).value;
    var at := |es| + j;
    var one := r[at..at + 1];
    assert StepAt(MirrorStep, (k, axisA, axisB), r[..at], ids[j], j) == Ok(one);
    MirrorStepOne(k, axisA, axisB, r[..at], ids[j], j, one);
    assert one[0] == r[at];
  }

  /** A successful mirror step yields just the mirror copy. */
  lemma {:induction false} MirrorStepOne(k: Kernel, axisA: Vec2, axisB: Vec2, cur: seq<Entity>, sid: Uuid, n: nat, out: seq<Entity>)
    requires StepAt(MirrorStep, (k, axisA, axisB), cur, sid, n) == Ok(out)
    ensures |out| == 1 && MirrorCopy(k, cur, sid, axisA, axisB, k.newId(n)) == Ok(out[0])
  {
  }

  /** The mirror loop as the source runs it. */
  method MirrorLoop(k: Kernel, es: seq<Entity>, ids: seq<Uuid>, axisA: Vec2, axisB: Vec2)
    returns (r: Result<seq<Entity>, ReasonCode>)
    ensures r == MirrorEdit(k, es, ids, axisA, axisB)
  {
    var cur := es;
    var i := 0;
    assert ids[0..] == ids;
    while i < |ids|
      invariant 0 <= i <= |ids|
      invariant Grow(cur, ids[i..], MirrorStep, (k, axisA, axisB), i) == MirrorEdit(k, es, ids, axisA, axisB)
    {
      GrowUnfold(cur, ids, i, MirrorStep, (k, axisA, axisB), i);
      var c := MirrorCopy(k, cur, ids[i], axisA, axisB, k.newId(i));
      if c.Err? {
        return Err(c.error);
      }
      cur := cur + [c.value];
      i := i + 1;
    }
    assert ids[i..] == [];
    r := Ok(cur);
  }

  // ----- pattern -----

  /** The instances beyond the original: `1..count` in the source. */
  function Reps(count: nat): nat { if count == 0 then 0 else count - 1 }

  /** The `pattern` meta record of a copy, the source id as hyphenated text; keys in the order serde_json's map keeps them. */
  function PatternMeta(p: PatternParams, sid: Uuid): Json
  {
    match p
    case Linear(dx, dy, c) =>
      JObj([Member("count", JNum(c as real)), Member("dx", JNum(dx)), Member("dy", JNum(dy)),
            Member("source", JStr(UuidText(sid))), Member("type", JStr("Linear"))])
    case Circular(cx, cy, step, c) =>
      JObj([Member("count", JNum(c as real)), Member("cx", JNum(cx)), Member("cy", JNum(cy)),
            Member("source", JStr(UuidText(sid))), Member("step_deg", JNum(step)), Member("type", JStr("Circular"))])
  }

  /** The geometry of instance i: i steps along the line, or i angular steps about the centre. */
  function InstanceGeom(m: Math, p: PatternParams, g: Geom2D, i: nat): Geom2D
  {
    match p
    case Linear(dx, dy, _) => EditOps.TranslateGeom(g, dx * i as real, dy * i as real)
    case Circular(cx, cy, step, _) => EditOps.RotateGeom(m, g, Vec2(cx, cy), step * DEG_TO_RAD * i as real)
  }

  /** Copy j + 1 of `src`, drawing `newId(n + j)`. */
  function Instance(k: Kernel, p: PatternParams, src: Entity, sid: Uuid, n: nat, j: nat): Entity
  {
    src.(id := k.newId(n + j), geom := InstanceGeom(k.math, p, src.geom, j + 1),
         meta := Put(src.meta, "pattern", PatternMeta(p, sid)))
  }

  /** The inner loop: the copies `1..count` of one source entity. */
  function Copies(k: Kernel, p: PatternParams, src: Entity, sid: Uuid, n: nat): (r: seq<Entity>)
    ensures |r| == Reps(Count(p))
  {
    seq(Reps(Count(p)), j requires 0 <= j < Reps(Count(p)) => Instance(k, p, src, sid, n, j))
  }

  /**
   * Copy i of a linear pattern is the source translated by (i dx, i dy), with
   * a fresh id, the same layer, style and tags, and the `pattern` meta record.
   */
  lemma {:induction false} LinearCopies(k: Kernel, dx: real, dy: real, count: nat, src: Entity, sid: Uuid, n: nat)
    ensures var cs := Copies(k, Linear(dx, dy, count), src, sid, n);
      |cs| == Reps(count)
      && forall j :: 0 <= j < |cs| ==>
           cs[j].geom == EditOps.TranslateGeom(src.geom, (j + 1) as real * dx, (j + 1) as real * dy)
           && cs[j].id == k.newId(n + j)
           && cs[j].layerId == src.layerId && cs[j].style == src.style && cs[j].tags == src.tags
           && Get(cs[j].meta, "pattern") == Some(PatternMeta(Linear(dx, dy, count), sid))
  {
    var cs := Copies(k, Linear(dx, dy, count), src, sid, n);
    forall j | 0 <= j < |cs|
      ensures cs[j].geom == EditOps.TranslateGeom(src.geom, (j + 1) as real * dx, (j + 1) as real * dy)
    {
      assert cs[j] == Instance(k, Linear(dx, dy, count), src, sid, n, j);
      assert dx * (j + 1) as real == (j + 1) as real * dx && dy * (j + 1) as real == (j + 1) as real * dy;
    }
  }

  /** The pattern step on the context (kernel, parameters): the copies of the id's entity. */
  function PatternStep(c: (Kernel, PatternParams), es: seq<Entity>, sid: Uuid, n: nat): Result<seq<Entity>, ReasonCode>
  {
    match EntityIndex(es, sid)
    case None => Err(ModelReferenceNotFound)
    case Some(i) => Ok(Copies(c.0, c.1, es[i], sid, n))
  }

  /**
   * The outer pattern loop: each selected id's entity, looked up in the list
   * as grown so far, appends its copies; a missing id ends the pattern with
   * an error.
   */
  function PatternEdit(k: Kernel, es: seq<Entity>, ids: seq<Uuid>, p: PatternParams): Result<seq<Entity>, ReasonCode>
  {
    Grow(es, ids, PatternStep, (k, p), 0)
  }

  lemma {:induction false} PatternStepWidth(k: Kernel, p: PatternParams)
    ensures Appends(PatternStep, (k, p), Reps(Count(p)))
  {
  }

  /** A successful pattern step yields the copies of the id's entity. */
  lemma {:induction false} PatternStepCopies(k: Kernel, p: PatternParams, cur: seq<Entity>, sid: Uuid, n: nat, out: seq<Entity>)
    requires StepAt(PatternStep, (k, p), cur, sid, n) == Ok(out)
    ensures EntityIndex(cur, sid).Some? && out == Copies(k, p, cur[EntityIndex(cur, sid).value], sid, n)
  {
  }

  /**
   * A successful pattern keeps the list as a prefix and appends count - 1
   * copies per selected id (`PatternChunk` says which).
   */
  lemma {:induction false} PatternAppends(k: Kernel, es: seq<Entity>, ids: seq<Uuid>, p: PatternParams)
    requires PatternEdit(k, es, ids, p).Ok?
    ensures var r := PatternEdit(k, es, ids, p).value;
      |r| == |es| + |ids| * Reps(Count(p)) && r[..|es|] == es
  {
    PatternStepWidth(k, p);
    GrowPrefix(es, ids, PatternStep, (k, p), 0, Reps(Count(p)));
  }

  /**
   * Chunk j of a successful pattern, the count - 1 entities from j (count - 1)
   * on past the original list, is what the pattern step yields for the j-th
   * id on the list as grown before it, drawing fresh ids from j (count - 1)
   * on (the pass starts with none drawn); by `PatternStepCopies` those are
   * the copies of that id's entity.
   */
  lemma {:induction false} PatternChunk(k: Kernel, es: seq<Entity>, ids: seq<Uuid>, p: PatternParams, j: nat)
    requires PatternEdit(k, es, ids, p).Ok? && j < |ids|
    ensures var r := PatternEdit(k, es, ids, p).value;
      var w := Reps(Count(p));
      |es| + j * w + w <= |r|
      && StepAt(PatternStep, (k, p), r[..|es| + j * w], ids[j], 0 + j * w) == Ok(r[|es| + j * w..|es| + j * w + w])
  {
    PatternStepWidth(k, p);
    GrowChunk(es, ids, PatternStep, (k, p), 0, Reps(Count(p)), j);
  }

  /** A pattern over an id that is not in the list as grown so far fails with the missing-reference code. */
  lemma {:induction false} PatternMissing(k: Kernel, es: seq<Entity>, ids: seq<Uuid>, p: PatternParams)
    requires ids != [] && EntityIndex(es, ids[0]).None?
    ensures PatternEdit(k, es, ids, p) == Err(ModelReferenceNotFound)
  {
  }

  /** A single-id pattern appends exactly the copies of that entity. */
  lemma {:induction false} PatternSingle(k: Kernel, es: seq<Entity>, sid: Uuid, p: PatternParams)
    requires EntityIndex(es, sid).Some?
    ensures PatternEdit(k, es, [sid], p) == Ok(es + Copies(k, p, es[EntityIndex(es, sid).value], sid, 0))
  {
    var cs := Copies(k, p, es[EntityIndex(es, sid).value], sid, 0);
    assert PatternStep((k, p), es, sid, 0) == Ok(cs);
    assert [sid][1..] == [];
    assert Grow<(Kernel, PatternParams), Entity, Uuid, ReasonCode>(es + cs, [], PatternStep, (k, p), |cs|) == Ok(es + cs);
  }

  /** The inner pattern loop: push copies 1..count of one source entity. */
  method AppendCopies(k: Kernel, p: PatternParams, src: Entity, sid: Uuid, n: nat, es: seq<Entity>)
    returns (r: seq<Entity>)
    ensures r == es + Copies(k, p, src, sid, n)
  {
    ghost var cs := Copies(k, p, src, sid, n);
    var count := Count(p);
    r := es;
    var i := 1;
    while i < count
      invariant 1 <= i <= if count == 0 then 1 else count
      invariant r == es + cs[..i - 1]
    {
      assert cs[..i] == cs[..i - 1] + [Instance(k, p, src, sid, n, i - 1)];
      r := r + [Instance(k, p, src, sid, n, i - 1)];
      i := i + 1;
    }
    assert cs[..i - 1] == cs;
  }

  /**
   * What the pattern loop has left to do at the id at position s, with `cur`
   * grown so far and `n` fresh ids drawn.
   */
  function PatternFrom(k: Kernel, p: PatternParams, cur: seq<Entity>, ids: seq<Uuid>, s: nat, n: nat)
    : Result<seq<Entity>, ReasonCode>
    requires s <= |ids|
    decreases |ids| - s
  {
    if s == |ids| then Ok(cur)
    else
      match EntityIndex(cur, ids[s])
      case None => Err(ModelReferenceNotFound)
      case Some(i) => PatternFrom(k, p, cur + Copies(k, p, cur[i], ids[s], n), ids, s + 1, n + Reps(Count(p)))
  }

  /** One pattern step of the pass: a missing source ends it, a found one appends its copies. */
  lemma {:induction false} PatternGrowStep(k: Kernel, p: PatternParams, ids: seq<Uuid>, s: nat, cur: seq<Entity>, n: nat)
    requires s < |ids|
    ensures EntityIndex(cur, ids[s]).None? ==> Grow(cur, ids[s..], PatternStep, (k, p), n) == Err(ModelReferenceNotFound)
    ensures EntityIndex(cur, ids[s]).Some? ==>
      Grow(cur, ids[s..], PatternStep, (k, p), n)
      == Grow(cur + Copies(k, p, cur[EntityIndex(cur, ids[s]).value], ids[s], n), ids[s + 1..], PatternStep, (k, p), n + Reps(Count(p)))
  {
    GrowUnfold(cur, ids, s, PatternStep, (k, p), n);
  }

  /** The loop from position s is the pass of pattern steps over the remaining ids. */
  lemma {:induction false} PatternFromIsGrow(k: Kernel, p: PatternParams, cur: seq<Entity>, ids: seq<Uuid>, s: nat, n: nat)
    requires s <= |ids|
    ensures PatternFrom(k, p, cur, ids, s, n) == Grow(cur, ids[s..], PatternStep, (k, p), n)
    decreases |ids| - s
  {
    if s < |ids| {
      var i := EntityIndex(cur, ids[s]);
      if i.Some? {
        PatternFromIsGrow(k, p, cur + Copies(k, p, cur[i.value], ids[s], n), ids, s + 1, n + Reps(Count(p)));
        PatternFromGrowFound(k, p, cur, ids, s, n);
      } else {
        PatternFromGrowMissing(k, p, cur, ids, s, n);
      }
    } else {
      assert ids[s..] == [];
    }
  }

  /** A missing source: the loop and the pass both fail with ModelReferenceNotFound. */
  lemma PatternFromGrowMissing(k: Kernel, p: PatternParams, cur: seq<Entity>, ids: seq<Uuid>, s: nat, n: nat)
    requires s < |ids| && EntityIndex(cur, ids[s]).None?
    ensures PatternFrom(k, p, cur, ids, s, n) == Grow(cur, ids[s..], PatternStep, (k, p), n)
  {
    PatternGrowStep(k, p, ids, s, cur, n);
    PatternFromStep(k, p, cur, ids, s, n);
  }

  /** A found source: if the loop and the pass agree after its copies, they agree before them. */
  lemma PatternFromGrowFound(k: Kernel, p: PatternParams, cur: seq<Entity>, ids: seq<Uuid>, s: nat, n: nat)
    requires s < |ids| && EntityIndex(cur, ids[s]).Some?
    requires var next := cur + Copies(k, p, cur[EntityIndex(cur, ids[s]).value], ids[s], n);
      PatternFrom(k, p, next, ids, s + 1, n + Reps(Count(p))) == Grow(next, ids[s + 1..], PatternStep, (k, p), n + Reps(Count(p)))
    ensures PatternFrom(k, p, cur, ids, s, n) == Grow(cur, ids[s..], PatternStep, (k, p), n)
  {
    PatternGrowStep(k, p, ids, s, cur, n);
    PatternFromStep(k, p, cur, ids, s, n);
  }

  /** One turn of the pattern loop: a missing source ends it, a found one appends its copies. */
  lemma {:induction false} PatternFromStep(k: Kernel, p: PatternParams, cur: seq<Entity>, ids: seq<Uuid>, s: nat, n: nat)
    requires s < |ids|
    ensures EntityIndex(cur, ids[s]).None? ==> PatternFrom(k, p, cur, ids, s, n) == Err(ModelReferenceNotFound)
    ensures EntityIndex(cur, ids[s]).Some? ==>
      PatternFrom(k, p, cur, ids, s, n)
      == PatternFrom(k, p, cur + Copies(k, p, cur[EntityIndex(cur, ids[s]).value], ids[s], n), ids, s + 1, n + Reps(Count(p)))
  {
  }

  /** The whole pattern edit is the loop's work from the first id. */
  lemma PatternEditIsFrom(k: Kernel, es: seq<Entity>, ids: seq<Uuid>, p: PatternParams)
    ensures PatternEdit(k, es, ids, p) == PatternFrom(k, p, es, ids, 0, 0)
  {
    PatternFromIsGrow(k, p, es, ids, 0, 0);
    assert ids[0..] == ids;
  }

  /** One turn of the outer loop: look the id up and push its copies, or fail. */
  method PatternTurn(k: Kernel, p: PatternParams, cur: seq<Entity>, ids: seq<Uuid>, s: nat, n: nat)
    returns (next: Option<seq<Entity>>)
    requires s < |ids|
    ensures next.None? <==> EntityIndex(cur, ids[s]).None?
    ensures next.Some? ==> next.value == cur + Copies(k, p, cur[EntityIndex(cur, ids[s]).value], ids[s], n)
    ensures next.None? ==> PatternFrom(k, p, cur, ids, s, n) == Err(ModelReferenceNotFound)
    ensures next.Some? ==> PatternFrom(k, p, next.value, ids, s + 1, n + Reps(Count(p))) == PatternFrom(k, p, cur, ids, s, n)
  {
    PatternFromStep(k, p, cur, ids, s, n);
    var found := EntityIndex(cur, ids[s]);
    if found.None? {
      return None;
    }
    var grown := AppendCopies(k, p, cur[found.value], ids[s], n, cur);
    next := Some(grown);
  }

  /** The nested pattern loops as the source runs them. */
  method PatternLoop(k: Kernel, es: seq<Entity>, ids: seq<Uuid>, p: PatternParams)
    returns (r: Result<seq<Entity>, ReasonCode>)
    ensures r == PatternEdit(k, es, ids, p)
  {
    var cur := es;
    var n: nat := 0;
    var s: nat := 0;
    ghost var total := PatternFrom(k, p, es, ids, 0, 0);
    PatternEditIsFrom(k, es, ids, p);
    while s < |ids|
      invariant s <= |ids|
      invariant PatternFrom(k, p, cur, ids, s, n) == total
    {
      var next := PatternTurn(k, p, cur, ids, s, n);
      if next.None? {
        return Err(ModelReferenceNotFound);
      }
      cur, n := next.value, n + Reps(Count(p));
      s := s + 1;
    }
    r := Ok(cur);
  }

  // ----- the delta -----

  /** `EditOp::apply_to` on the entity list. */
  function ApplyTo(k: Kernel, op: EditOp, es: seq<Entity>): Result<seq<Entity>, ReasonCode>
  {
    match op
    case Fillet(e1, e2, radius) => FilletEdit(k, es, e1, e2, radius)
    case Chamfer(e1, e2, dist) => ChamferEdit(k, es, e1, e2, dist)
    case Mirror(ids, a, b) => MirrorEdit(k, es, ids, a, b)
    case Pattern(ids, p) => PatternEdit(k, es, ids, p)
  }

  /**
   * Apply: on first use snapshot the list and compute the edited list; then the
   * document's list becomes the edited one.  Returns the two snapshots.
   */
  function ApplyEntities(k: Kernel, doc: Document, op: EditOp, before: Option<seq<Entity>>, after: Option<seq<Entity>>)
    : (r: Result<(Document, seq<Entity>, seq<Entity>), ReasonCode>)
    ensures before.None? ==>
      (r.Ok? <==> ApplyTo(k, op, doc.entities).Ok?)
      && (r.Ok? ==> r.value == (doc.(entities := ApplyTo(k, op, doc.entities).value), doc.entities,
                                ApplyTo(k, op, doc.entities).value))
    ensures before.Some? ==> (r.Ok? <==> after.Some?)
    ensures before.Some? && after.Some? ==> r == Ok((doc.(entities := after.value), before.value, after.value))
  {
    if before.None? then
      var es :- ApplyTo(k, op, doc.entities);
      Ok((doc.(entities := es), doc.entities, es))
    else if after.None? then Err(CoreInvariantViolation)
    else Ok((doc.(entities := after.value), before.value, after.value))
  }

  /** Revert: the document's list becomes the snapshot; without one there is nothing to restore. */
  function RevertEntities(doc: Document, before: Option<seq<Entity>>): (r: Result<Document, ReasonCode>)
    ensures before.None? ==> r == Err(CoreInvariantViolation)
    ensures before.Some? ==> r == Ok(doc.(entities := before.value))
  {
    if before.None? then Err(CoreInvariantViolation) else Ok(doc.(entities := before.value))
  }

  /**
   * Undo after the first successful apply restores the exact prior document,
   * and redo from the snapshots gives the same result as that apply.
   */
  lemma {:induction false} EntitiesRoundTrip(k: Kernel, doc: Document, op: EditOp)
    requires ApplyEntities(k, doc, op, None, None).Ok?
    ensures var (d1, b, a) := ApplyEntities(k, doc, op, None, None).value;
      RevertEntities(d1, Some(b)) == Ok(doc)
      && ApplyEntities(k, doc, op, Some(b), Some(a)) == Ok((d1, b, a))
  {
  }
}
