/**
 * core/commands/src/commands/offset_entity.rs: the offset command and its
 * delta.  The delta computes the offset copy of the source entity once, keeps
 * it, and appends it on every apply; revert removes the copy by its id.
 */
module OffsetEntity {
  import opened Wrappers
  import opened Serialize
  import opened Model
  import opened Deltas
  import opened CreateLine

  class OffsetEntityCommand {
    /** Drawn once when the command is made, so every commit names the same copy. */
    const newEntityId: Uuid
    var preview: Option<(Uuid, real)>

    constructor (newEntityId: Uuid)
      ensures this.newEntityId == newEntityId && preview == None
    {
      this.newEntityId := newEntityId;
      preview := None;
    }

    method Begin()
      modifies this
      ensures preview == None
    {
      preview := None;
    }

    /** A distance that is not finite is refused and leaves the previous preview. */
    method Update(entityId: Uuid, dist: Num) returns (r: Result<(), ReasonCode>)
      modifies this
      ensures r.Err? <==> !dist.Finite?
      ensures r.Err? ==> r.error == EditInvalidNumeric && preview == old(preview)
      ensures r.Ok? ==> preview == Some((entityId, dist.v))
    {
      if !dist.Finite? {
        return Err(EditInvalidNumeric);
      }
      preview := Some((entityId, dist.v));
      r := Ok(());
    }

    method Commit() returns (r: Result<Delta, ReasonCode>)
      ensures preview.None? ==> r == Err(EditInvalidNumeric)
      ensures preview.Some? ==> r == Ok(OffsetEntity(preview.value.0, preview.value.1, newEntityId, None))
    {
      if preview.None? {
        return Err(EditInvalidNumeric);
      }
      r := Ok(OffsetEntity(preview.value.0, preview.value.1, newEntityId, None));
    }

    method Cancel()
      modifies this
      ensures preview == None
    {
      preview := None;
    }
  }

  /**
   * The offset copy: the source must exist on an existing layer that accepts
   * edits; the copy has the new id, the kernel's offset geometry and the
   * source's layer, style, tags and meta.
   */
  function OffsetCopy(offset: (Geom2D, real) -> Result<Geom2D, ReasonCode>, doc: Document,
                      entityId: Uuid, dist: real, newId: Uuid): (r: Result<Entity, ReasonCode>)
    ensures EntityIndex(doc.entities, entityId).None? ==> r == Err(ModelReferenceNotFound)
    ensures r.Ok? ==>
      (EntityIndex(doc.entities, entityId).Some?
       && var src := doc.entities[EntityIndex(doc.entities, entityId).value];
       LayerIndex(doc.layers, src.layerId).Some?
       && Editable(doc.layers[LayerIndex(doc.layers, src.layerId).value])
       && offset(src.geom, dist) == Ok(r.value.geom)
       && r.value == src.(id := newId, geom := r.value.geom))
    ensures EntityIndex(doc.entities, entityId).Some? ==>
      var src := doc.entities[EntityIndex(doc.entities, entityId).value];
      (LayerIndex(doc.layers, src.layerId).Some?
       && Editable(doc.layers[LayerIndex(doc.layers, src.layerId).value])
       && offset(src.geom, dist).Err?) ==> r == Err(offset(src.geom, dist).error)
  {
    match EntityIndex(doc.entities, entityId)
    case None => Err(ModelReferenceNotFound)
    case Some(k) =>
      var src := doc.entities[k];
      match LayerIndex(doc.layers, src.layerId)
      case None => Err(ModelReferenceNotFound)
      case Some(li) =>
        if !Editable(doc.layers[li]) then Err(EditTargetLockedOrHidden)
        else
          var g :- offset(src.geom, dist);
          Ok(Entity(newId, src.layerId, g, src.style, src.tags, src.meta))
  }

  /** Apply: compute the copy on first use, then append it; the copy's layer must still exist. */
  function ApplyOffset(offset: (Geom2D, real) -> Result<Geom2D, ReasonCode>, doc: Document, entityId: Uuid,
                       dist: real, newId: Uuid, cached: Option<Entity>): (r: Result<(Document, Entity), ReasonCode>)
    ensures cached.Some? ==> r.Ok? ==> r.value.1 == cached.value
    ensures cached.None? ==> r.Ok? ==> OffsetCopy(offset, doc, entityId, dist, newId) == Ok(r.value.1)
    ensures r.Ok? ==> HasLayer(doc, r.value.1.layerId) && r.value.0 == doc.(entities := doc.entities + [r.value.1])
    ensures cached.Some? ==> (r.Err? <==> !HasLayer(doc, cached.value.layerId))
  {
    var ent :- if cached.Some? then Ok(cached.value) else OffsetCopy(offset, doc, entityId, dist, newId);
    var d :- ApplyCreateEntity(doc, ent);
    Ok((d, ent))
  }

  /** Revert removes every entity carrying the copy's id. */
  function RevertOffset(doc: Document, newId: Uuid): (r: Result<Document, ReasonCode>)
    ensures r.Err? <==> !HasEntity(doc.entities, newId)
    ensures r.Ok? ==> r.value == doc.(entities := WithoutEntity(doc.entities, newId))
  {
    RevertCreateEntity(doc, newId)
  }

  /**
   * When the copy's id is new to the document, undo restores the exact prior
   * document and redo from the kept copy reproduces the same result.
   */
  lemma OffsetRoundTrip(offset: (Geom2D, real) -> Result<Geom2D, ReasonCode>, doc: Document,
                        entityId: Uuid, dist: real, newId: Uuid)
    requires ApplyOffset(offset, doc, entityId, dist, newId, None).Ok?
    requires !HasEntity(doc.entities, newId)
    ensures var (d1, ent) := ApplyOffset(offset, doc, entityId, dist, newId, None).value;
      RevertOffset(d1, newId) == Ok(doc)
      && ApplyOffset(offset, doc, entityId, dist, newId, Some(ent)) == Ok((d1, ent))
  {
    var (d1, ent) := ApplyOffset(offset, doc, entityId, dist, newId, None).value;
    CreateEntityRoundTrip(doc, ent);
  }
}
