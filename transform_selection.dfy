/**
 * core/commands/src/commands/transform_selection.rs: the command that moves,
 * rotates or scales the selected entities, and its delta.  On first apply the
 * delta records, per selected id, the entity's layer and its geometry before
 * and after; apply writes the `after` geometries, revert the `before` ones.
 */
module TransformSelection {
  import opened Wrappers
  import opened Serialize
  import opened Model
  import opened Deltas
  import EditOps

  /** `transformed`: one edit_ops transform, with its finiteness and degeneracy guards. */
  function Transformed(m: Math, t: Transform, g: Geom2D): (r: Result<Geom2D, ReasonCode>)
    ensures r.Err? ==> r.error == EditInvalidNumeric || r.error == EditTransformWouldDegenerate
    ensures r.Ok? ==> EditOps.SameKind(g, r.value)
    ensures t.Translate? && t.dx.Finite? && t.dy.Finite? ==>
      r == Ok(EditOps.TranslateGeom(g, t.dx.v, t.dy.v))
  {
    match t
    case Translate(dx, dy) => EditOps.Translate(g, dx, dy)
    case Rotate(cx, cy, a) => EditOps.Rotate(m, g, InPoint(cx, cy), a)
    case Scale(cx, cy, sx, sy) => EditOps.Scale(g, InPoint(cx, cy), sx, sy)
  }

  /** The delta's transform as a function of the geometry. */
  function TransformOf(m: Math, t: Transform): Geom2D -> Result<Geom2D, ReasonCode>
  {
    g => Transformed(m, t, g)
  }

  class TransformSelectionCommand {
    var preview: Option<(seq<Uuid>, Transform)>

    constructor ()
      ensures preview == None
    {
      preview := None;
    }

    method Begin()
      modifies this
      ensures preview == None
    {
      preview := None;
    }

    /** An empty selection is refused and leaves the previous preview. */
    method Update(ids: seq<Uuid>, t: Transform) returns (r: Result<(), ReasonCode>)
      modifies this
      ensures r.Err? <==> ids == []
      ensures r.Err? ==> r.error == EditNoSelection && preview == old(preview)
      ensures r.Ok? ==> preview == Some((ids, t))
    {
      if ids == [] {
        return Err(EditNoSelection);
      }
      preview := Some((ids, t));
      r := Ok(());
    }

    /** The committed delta starts with an empty entry cache. */
    method Commit() returns (r: Result<Delta, ReasonCode>)
      ensures preview.None? ==> r == Err(EditNoSelection)
      ensures preview.Some? ==> r == Ok(TransformSelection(preview.value.0, preview.value.1, None))
    {
      if preview.None? {
        return Err(EditNoSelection);
      }
      r := Ok(TransformSelection(preview.value.0, preview.value.1, None));
    }

    method Cancel()
      modifies this
      ensures preview == None
    {
      preview := None;
    }
  }

  /** The index of the entity an entry names, when there is one. */
  function Target(doc: Document, id: Uuid): Option<nat>
  {
    EntityIndex(doc.entities, id)
  }

  /** The entry for one selected id, read from the document as the delta first sees it. */
  function EntryFor(doc: Document, f: Geom2D -> Result<Geom2D, ReasonCode>, id: Uuid): (r: Result<Entry, ReasonCode>)
    ensures Target(doc, id).None? ==> r == Err(ModelReferenceNotFound)
  {
    match Target(doc, id)
    case None => Err(ModelReferenceNotFound)
    case Some(k) =>
      var e := doc.entities[k];
      match LayerIndex(doc.layers, e.layerId)
      case None => Err(ModelReferenceNotFound)
      case Some(li) =>
        if !Editable(doc.layers[li]) then Err(EditTargetLockedOrHidden)
        else
          var g :- f(e.geom);
          Ok(Entry(id, e.layerId, e.geom, g))
  }

  /**
   * An entry is built exactly for an entity that exists on an existing layer
   * that accepts edits and whose geometry the transform accepts; it records the
   * entity's layer and its geometry before and after.
   */
  lemma EntryForOk(doc: Document, f: Geom2D -> Result<Geom2D, ReasonCode>, id: Uuid)
    ensures EntryFor(doc, f, id).Ok? <==>
      (Target(doc, id).Some?
       && var e := doc.entities[Target(doc, id).value];
       LayerIndex(doc.layers, e.layerId).Some?
       && Editable(doc.layers[LayerIndex(doc.layers, e.layerId).value])
       && f(e.geom).Ok?)
    ensures EntryFor(doc, f, id).Ok? ==>
      var e := doc.entities[Target(doc, id).value];
      var en := EntryFor(doc, f, id).value;
      en.id == id && en.layerId == e.layerId && en.before == e.geom && f(e.geom) == Ok(en.after)
  {
  }

  /** The entries of the ids in order, or the error of the first id that fails. */
  function EntriesFor(doc: Document, f: Geom2D -> Result<Geom2D, ReasonCode>, ids: seq<Uuid>): (r: Result<seq<Entry>, ReasonCode>)
    ensures ids != [] && EntryFor(doc, f, ids[0]).Err? ==> r == Err(EntryFor(doc, f, ids[0]).error)
  {
    if ids == [] then Ok([])
    else
      var e :- EntryFor(doc, f, ids[0]);
      var rest :- EntriesFor(doc, f, ids[1..]);
      Ok([e] + rest)
  }

  /** The entries succeed exactly when every id does, and then the k-th entry is the k-th id's. */
  lemma {:induction false} EntriesForOk(doc: Document, f: Geom2D -> Result<Geom2D, ReasonCode>, ids: seq<Uuid>)
    ensures EntriesFor(doc, f, ids).Ok? <==> forall j :: 0 <= j < |ids| ==> EntryFor(doc, f, ids[j]).Ok?
    ensures EntriesFor(doc, f, ids).Ok? ==>
      |EntriesFor(doc, f, ids).value| == |ids|
      && forall j :: 0 <= j < |ids| ==> EntryFor(doc, f, ids[j]) == Ok(EntriesFor(doc, f, ids).value[j])
  {
    if ids != [] {
      var tail := ids[1..];
      EntriesForOk(doc, f, tail);
      var e := EntryFor(doc, f, ids[0]);
      var rest := EntriesFor(doc, f, tail);
      if e.Ok? && rest.Ok? {
        var v := [e.value] + rest.value;
        assert EntriesFor(doc, f, ids) == Ok(v);
        forall j | 1 <= j < |ids|
          ensures EntryFor(doc, f, ids[j]) == Ok(v[j])
        {
          assert ids[j] == tail[j - 1];
        }
      } else if e.Ok? {
        var k :| 0 <= k < |tail| && EntryFor(doc, f, tail[k]).Err?;
        assert ids[k + 1] == tail[k];
      }
    }
  }

  /** The result of a loop that has collected `out` and has `rest` still to run. */
  function Prepend(out: seq<Entry>, rest: Result<seq<Entry>, ReasonCode>): Result<seq<Entry>, ReasonCode>
  {
    if rest.Err? then rest else Ok(out + rest.value)
  }

  /** `build_entries`: an empty selection is refused before any lookup. */
  function Entries(doc: Document, f: Geom2D -> Result<Geom2D, ReasonCode>, ids: seq<Uuid>): (r: Result<seq<Entry>, ReasonCode>)
    ensures ids == [] ==> r == Err(EditNoSelection)
    ensures ids != [] ==> r == EntriesFor(doc, f, ids)
  {
    if ids == [] then Err(EditNoSelection) else EntriesFor(doc, f, ids)
  }

  /** `build_entries` as the loop the delta runs. */
  method BuildEntries(doc: Document, f: Geom2D -> Result<Geom2D, ReasonCode>, ids: seq<Uuid>) returns (r: Result<seq<Entry>, ReasonCode>)
    ensures r == Entries(doc, f, ids)
  {
    if ids == [] {
      return Err(EditNoSelection);
    }
    var out: seq<Entry> := [];
    var i := 0;
    assert ids[0..] == ids;
    assert Prepend(out, EntriesFor(doc, f, ids)) == EntriesFor(doc, f, ids) by {
      var w := EntriesFor(doc, f, ids);
      if w.Ok? {
        assert out + w.value == w.value;
      }
    }
    while i < |ids|
      invariant 0 <= i <= |ids|
      invariant Prepend(out, EntriesFor(doc, f, ids[i..])) == EntriesFor(doc, f, ids)
    {
      var here := ids[i..];
      assert here[0] == ids[i] && here[1..] == ids[i + 1..];
      var e := EntryFor(doc, f, ids[i]);
      if e.Err? {
        assert EntriesFor(doc, f, here) == Err(e.error);
        return Err(e.error);
      }
      var rest := EntriesFor(doc, f, ids[i + 1..]);
      assert Prepend(out, EntriesFor(doc, f, here)) == Prepend(out + [e.value], rest) by {
        if rest.Ok? {
          assert EntriesFor(doc, f, here) == Ok([e.value] + rest.value);
          assert out + ([e.value] + rest.value) == (out + [e.value]) + rest.value;
        }
      }
      out := out + [e.value];
      i := i + 1;
    }
    assert ids[i..] == [];
    assert EntriesFor(doc, f, []) == Ok([]);
    assert out + [] == out;
    r := Ok(out);
  }

  /** The check an entry must pass at apply time: layer present and editable, entity present on that layer. */
  predicate EntryTargetValid(doc: Document, en: Entry)
  {
    LayerIndex(doc.layers, en.layerId).Some?
    && Editable(doc.layers[LayerIndex(doc.layers, en.layerId).value])
    && Target(doc, en.id).Some?
    && doc.entities[Target(doc, en.id).value].layerId == en.layerId
  }

  function Chosen(en: Entry, after: bool): Geom2D
  {
    if after then en.after else en.before
  }

  /** Writes one entry's before or after geometry into the entity it names. */
  function ApplyEntry(doc: Document, en: Entry, after: bool): (r: Result<Document, ReasonCode>)
    ensures r.Ok? <==> EntryTargetValid(doc, en)
    ensures LayerIndex(doc.layers, en.layerId).None? ==> r == Err(ModelReferenceNotFound)
    ensures LayerIndex(doc.layers, en.layerId).Some? && !Editable(doc.layers[LayerIndex(doc.layers, en.layerId).value]) ==>
      r == Err(EditTargetLockedOrHidden)
    ensures r.Ok? ==>
      var k := Target(doc, en.id).value;
      r.value == doc.(entities := doc.entities[k := doc.entities[k].(geom := Chosen(en, after))])
  {
    match LayerIndex(doc.layers, en.layerId)
    case None => Err(ModelReferenceNotFound)
    case Some(li) =>
      if !Editable(doc.layers[li]) then Err(EditTargetLockedOrHidden)
      else
        match Target(doc, en.id)
        case None => Err(ModelReferenceNotFound)
        case Some(k) =>
          if doc.entities[k].layerId != en.layerId then Err(CoreInvariantViolation)
          else Ok(doc.(entities := doc.entities[k := doc.entities[k].(geom := Chosen(en, after))]))
  }

  /** `apply_entries`: the entries in order, each one seeing the writes of the previous ones. */
  function ApplyEntries(doc: Document, es: seq<Entry>, after: bool): (r: Result<Document, ReasonCode>)
    decreases |es|
  {
    if es == [] then Ok(doc)
    else
      var d :- ApplyEntry(doc, es[0], after);
      ApplyEntries(d, es[1..], after)
  }

  /** `apply_entries` as the loop the delta runs. */
  method ApplyEntriesLoop(doc: Document, es: seq<Entry>, after: bool) returns (r: Result<Document, ReasonCode>)
    ensures r == ApplyEntries(doc, es, after)
  {
    var d := doc;
    var i := 0;
    while i < |es|
      invariant 0 <= i <= |es|
      invariant ApplyEntries(d, es[i..], after) == ApplyEntries(doc, es, after)
    {
      assert es[i..][1..] == es[i + 1..];
      var step := ApplyEntry(d, es[i], after);
      if step.Err? {
        return Err(step.error);
      }
      d := step.value;
      i := i + 1;
    }
    assert es[i..] == [];
    r := Ok(d);
  }

  /** Only geometries change: same layers and fields, and each entity keeps everything but its geometry. */
  predicate GeomOnly(doc: Document, d: Document)
  {
    d == doc.(entities := d.entities)
    && |d.entities| == |doc.entities|
    && forall k :: 0 <= k < |doc.entities| ==> d.entities[k] == doc.entities[k].(geom := d.entities[k].geom)
  }

  lemma GeomOnlyTrans(a: Document, b: Document, c: Document)
    requires GeomOnly(a, b) && GeomOnly(b, c)
    ensures GeomOnly(a, c)
  {
  }

  /** An edit that changes only geometries keeps every entry's target and its validity. */
  lemma GeomOnlyKeepsTargets(doc: Document, d: Document, en: Entry)
    requires GeomOnly(doc, d)
    ensures Target(d, en.id) == Target(doc, en.id)
    ensures EntryTargetValid(d, en) == EntryTargetValid(doc, en)
  {
    EntityIndexSameIds(doc.entities, d.entities, en.id);
  }

  predicate AllTargetsValid(doc: Document, es: seq<Entry>)
  {
    forall j :: 0 <= j < |es| ==> EntryTargetValid(doc, es[j])
  }

  /** The indices the entries write. */
  function TargetSet(doc: Document, es: seq<Entry>): set<nat>
    decreases |es|
  {
    if es == [] then {}
    else (if Target(doc, es[0].id).Some? then {Target(doc, es[0].id).value} else {}) + TargetSet(doc, es[1..])
  }

  /** Validity of all entries carries over to a document that differs only in geometries. */
  lemma GeomOnlyKeepsAll(doc: Document, d: Document, es: seq<Entry>)
    requires GeomOnly(doc, d) && AllTargetsValid(doc, es)
    ensures AllTargetsValid(d, es)
  {
    forall j | 0 <= j < |es|
      ensures EntryTargetValid(d, es[j])
    {
      GeomOnlyKeepsTargets(doc, d, es[j]);
    }
  }

  lemma {:induction false} TargetSetGeomOnly(doc: Document, d: Document, es: seq<Entry>)
    requires GeomOnly(doc, d)
    ensures TargetSet(d, es) == TargetSet(doc, es)
    decreases |es|
  {
    if es != [] {
      GeomOnlyKeepsTargets(doc, d, es[0]);
      TargetSetGeomOnly(doc, d, es[1..]);
    }
  }

  /** With every target valid, applying succeeds, changes only geometries, and only at written indices. */
  lemma {:induction false} ApplyEntriesEffect(doc: Document, es: seq<Entry>, after: bool)
    requires AllTargetsValid(doc, es)
    ensures ApplyEntries(doc, es, after).Ok?
    ensures GeomOnly(doc, ApplyEntries(doc, es, after).value)
    ensures forall k :: 0 <= k < |doc.entities| && k !in TargetSet(doc, es) ==>
      ApplyEntries(doc, es, after).value.entities[k].geom == doc.entities[k].geom
    decreases |es|
  {
    if es != [] {
      assert EntryTargetValid(doc, es[0]);
      var d := ApplyEntry(doc, es[0], after).value;
      assert GeomOnly(doc, d);
      var rest := es[1..];
      assert AllTargetsValid(doc, rest) by {
        forall j | 0 <= j < |rest| ensures EntryTargetValid(doc, rest[j]) {
          assert rest[j] == es[j + 1];
        }
      }
      GeomOnlyKeepsAll(doc, d, rest);
      TargetSetGeomOnly(doc, d, rest);
      ApplyEntriesEffect(d, rest, after);
      GeomOnlyTrans(doc, d, ApplyEntries(d, rest, after).value);
    }
  }

  /** Entries built from `base` record, as `before`, the geometry each target has there. */
  predicate RecordsBefore(base: Document, es: seq<Entry>)
  {
    forall j :: 0 <= j < |es| ==>
      Target(base, es[j].id).Some? && es[j].before == base.entities[Target(base, es[j].id).value].geom
  }

  /**
   * Writing back the recorded `before` geometries into a document that differs
   * from `base` only at written indices, and only in geometry, yields `base`.
   */
  lemma {:induction false} RevertRestores(base: Document, d: Document, es: seq<Entry>)
    requires GeomOnly(base, d) && AllTargetsValid(base, es) && RecordsBefore(base, es)
    requires forall k :: 0 <= k < |base.entities| && k !in TargetSet(base, es) ==>
      d.entities[k].geom == base.entities[k].geom
    ensures ApplyEntries(d, es, false) == Ok(base)
    decreases |es|
  {
    if es == [] {
      assert d.entities == base.entities;
    } else {
      GeomOnlyKeepsTargets(base, d, es[0]);
      var d1 := ApplyEntry(d, es[0], false).value;
      var rest := es[1..];
      assert AllTargetsValid(base, rest) && RecordsBefore(base, rest) by {
        forall j | 0 <= j < |rest|
          ensures EntryTargetValid(base, rest[j])
          ensures Target(base, rest[j].id).Some? && rest[j].before == base.entities[Target(base, rest[j].id).value].geom
        {
          assert rest[j] == es[j + 1];
        }
      }
      RevertRestores(base, d1, rest);
    }
  }

  /** Built entries are valid against the document they were built from and record its geometries. */
  lemma EntriesValid(doc: Document, f: Geom2D -> Result<Geom2D, ReasonCode>, ids: seq<Uuid>)
    requires Entries(doc, f, ids).Ok?
    ensures AllTargetsValid(doc, Entries(doc, f, ids).value)
    ensures RecordsBefore(doc, Entries(doc, f, ids).value)
  {
    var es := Entries(doc, f, ids).value;
    EntriesForOk(doc, f, ids);
    forall j | 0 <= j < |es|
      ensures EntryTargetValid(doc, es[j])
      ensures Target(doc, es[j].id).Some? && es[j].before == doc.entities[Target(doc, es[j].id).value].geom
    {
      assert EntryFor(doc, f, ids[j]) == Ok(es[j]);
      EntryForOk(doc, f, ids[j]);
    }
  }

  /** Writing the `after` geometries then the `before` ones gives back the document the entries came from. */
  lemma ApplyRevertEntries(doc: Document, es: seq<Entry>)
    requires AllTargetsValid(doc, es) && RecordsBefore(doc, es)
    ensures ApplyEntries(doc, es, true).Ok?
    ensures ApplyEntries(ApplyEntries(doc, es, true).value, es, false) == Ok(doc)
  {
    ApplyEntriesEffect(doc, es, true);
    RevertRestores(doc, ApplyEntries(doc, es, true).value, es);
  }

  /** Apply: build the entries on first use, then write the `after` geometries; returns the filled cache. */
  function ApplyTransform(m: Math, doc: Document, ids: seq<Uuid>, t: Transform, cached: Option<seq<Entry>>)
    : (r: Result<(Document, seq<Entry>), ReasonCode>)
    ensures cached.Some? ==> r.Ok? ==> r.value.1 == cached.value
    ensures cached.None? ==> r.Ok? ==> Entries(doc, TransformOf(m, t), ids) == Ok(r.value.1)
    ensures r.Ok? ==> ApplyEntries(doc, r.value.1, true) == Ok(r.value.0)
  {
    var es :- if cached.Some? then Ok(cached.value) else Entries(doc, TransformOf(m, t), ids);
    var d :- ApplyEntries(doc, es, true);
    Ok((d, es))
  }

  /** Revert writes back the recorded `before` geometries; there is nothing to revert without a cache. */
  function RevertTransform(doc: Document, cached: Option<seq<Entry>>): (r: Result<Document, ReasonCode>)
    ensures cached.None? ==> r == Err(CoreInvariantViolation)
    ensures cached.Some? ==> r == ApplyEntries(doc, cached.value, false)
  {
    if cached.None? then Err(CoreInvariantViolation) else ApplyEntries(doc, cached.value, false)
  }

  /**
   * Undo after a successful transform restores the exact prior document, and a
   * redo from the cache reproduces the same result.
   */
  lemma TransformRoundTrip(m: Math, doc: Document, ids: seq<Uuid>, t: Transform)
    requires ApplyTransform(m, doc, ids, t, None).Ok?
    ensures var (d1, es) := ApplyTransform(m, doc, ids, t, None).value;
      RevertTransform(d1, Some(es)) == Ok(doc)
      && ApplyTransform(m, doc, ids, t, Some(es)) == Ok((d1, es))
  {
    var f := TransformOf(m, t);
    EntriesValid(doc, f, ids);
    ApplyRevertEntries(doc, Entries(doc, f, ids).value);
  }

  /** Translating by (dx, dy) on a layer that accepts edits moves the entity's geometry by exactly that. */
  lemma TranslateSingle(m: Math, doc: Document, id: Uuid, dx: real, dy: real)
    requires Target(doc, id).Some?
    requires var e := doc.entities[Target(doc, id).value];
      LayerIndex(doc.layers, e.layerId).Some? && Editable(doc.layers[LayerIndex(doc.layers, e.layerId).value])
    ensures var k := Target(doc, id).value;
      ApplyTransform(m, doc, [id], Translate(Finite(dx), Finite(dy)), None).Ok?
      && ApplyTransform(m, doc, [id], Translate(Finite(dx), Finite(dy)), None).value.0
         == doc.(entities := doc.entities[k := doc.entities[k].(geom := EditOps.TranslateGeom(doc.entities[k].geom, dx, dy))])
  {
    var t := Translate(Finite(dx), Finite(dy));
    var f := TransformOf(m, t);
    var en := EntryFor(doc, f, id);
    assert en.Ok?;
    assert [id][1..] == [];
    assert EntriesFor(doc, f, []) == Ok([]);
    assert [en.value] + [] == [en.value];
    assert Entries(doc, f, [id]) == Ok([en.value]);
    var d := ApplyEntry(doc, en.value, true).value;
    assert [en.value][1..] == [];
    assert ApplyEntries(doc, [en.value], true) == Ok(d);
  }
}
