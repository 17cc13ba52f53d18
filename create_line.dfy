/**
 * core/commands/src/commands/create_line.rs: the line-drawing command and
 * the delta that appends the drawn entity (CreateEntityDelta of
 * create_shapes.rs behaves identically and is modelled by the same functions).
 */
module CreateLine {
  import opened Wrappers
  import opened Serialize
  import opened Model
  import opened Deltas

  function EnsureValid(v: InPoint): (r: Result<(), ReasonCode>)
    ensures r.Ok? <==> FinitePoint(v)
    ensures r.Err? ==> r.error == GeomInvalidNumeric
  {
    if !v.x.Finite? || !v.y.Finite? then Err(GeomInvalidNumeric) else Ok(())
  }

  class CreateLineCommand {
    const layerId: Uuid
    /** Drawn once per command by `Uuid::new_v4`, so redo re-adds the same id. */
    const entityId: Uuid
    var preview: Option<(Vec2, Vec2)>

    constructor (layerId: Uuid, entityId: Uuid)
      ensures this.layerId == layerId && this.entityId == entityId && preview == None
    {
      this.layerId := layerId;
      this.entityId := entityId;
      preview := None;
    }

    method Begin()
      modifies this
      ensures preview == None
    {
      preview := None;
    }

    /** Accepts the endpoints only when all four coordinates are finite. */
    method Update(a: InPoint, b: InPoint) returns (r: Result<(), ReasonCode>)
      modifies this
      ensures r.Ok? <==> FinitePoint(a) && FinitePoint(b)
      ensures r.Err? ==> r.error == GeomInvalidNumeric && preview == old(preview)
      ensures r.Ok? ==> preview == Some((ToVec2(a), ToVec2(b)))
    {
      r := EnsureValid(a);
      if r.Err? { return; }
      r := EnsureValid(b);
      if r.Err? { return; }
      preview := Some((ToVec2(a), ToVec2(b)));
    }

    /** Without an accepted preview there is nothing to commit. */
    method Commit() returns (r: Result<Delta, ReasonCode>)
      ensures preview.None? ==> r == Err(GeomInvalidNumeric)
      ensures preview.Some? ==> r.Ok? && r.value.CreateEntity?
      ensures preview.Some? ==>
        r.value.entity == NewEntity(layerId, Line(preview.value.0, preview.value.1), entityId)
    {
      if preview.None? {
        return Err(GeomInvalidNumeric);
      }
      var (a, b) := preview.value;
      r := Ok(CreateEntity(NewEntity(layerId, Line(a, b), entityId)));
    }

    method Cancel()
      modifies this
      ensures preview == None
    {
      preview := None;
    }
  }

  /** Appends the entity; its layer must exist. */
  function ApplyCreateEntity(doc: Document, e: Entity): (r: Result<Document, ReasonCode>)
    ensures r.Err? <==> !HasLayer(doc, e.layerId)
    ensures r.Err? ==> r.error == ModelReferenceNotFound
    ensures r.Ok? ==> r.value == doc.(entities := doc.entities + [e])
  {
    if LayerIndex(doc.layers, e.layerId).None? then Err(ModelReferenceNotFound)
    else Ok(doc.(entities := doc.entities + [e]))
  }

  /** Removes every entity with this id; it is an error if there is none. */
  function RevertCreateEntity(doc: Document, id: Uuid): (r: Result<Document, ReasonCode>)
    ensures r.Err? <==> !HasEntity(doc.entities, id)
    ensures r.Err? ==> r.error == ModelReferenceNotFound
    ensures r.Ok? ==> r.value == doc.(entities := WithoutEntity(doc.entities, id))
  {
    var es := WithoutEntity(doc.entities, id);
    WithoutEntityLength(doc.entities, id);
    if |es| == |doc.entities| then Err(ModelReferenceNotFound)
    else Ok(doc.(entities := es))
  }

  /** Apply then revert restores the exact prior document when the id was new. */
  lemma CreateEntityRoundTrip(doc: Document, e: Entity)
    requires HasLayer(doc, e.layerId) && !HasEntity(doc.entities, e.id)
    ensures ApplyCreateEntity(doc, e).Ok?
    ensures RevertCreateEntity(ApplyCreateEntity(doc, e).value, e.id) == Ok(doc)
  {
    var d1 := ApplyCreateEntity(doc, e).value;
    assert HasEntity(d1.entities, e.id) by {
      assert d1.entities[|doc.entities|].id == e.id;
    }
    RemoveAppendedEntity(doc.entities, e);
  }

  /** Revert then apply restores the document when the entity was the last one. */
  lemma CreateEntityRedo(doc: Document, e: Entity)
    requires |doc.entities| > 0 && doc.entities[|doc.entities| - 1] == e
    requires !HasEntity(doc.entities[..|doc.entities| - 1], e.id)
    requires HasLayer(doc, e.layerId)
    ensures RevertCreateEntity(doc, e.id).Ok?
    ensures ApplyCreateEntity(RevertCreateEntity(doc, e.id).value, e) == Ok(doc)
  {
    var prefix := doc.entities[..|doc.entities| - 1];
    assert prefix + [e] == doc.entities;
    CreateEntityRoundTrip(doc.(entities := prefix), e);
  }
}
