/**
 * The reversible document edits of core/commands: every `Delta` the
 * commands commit, as one closed datatype.  A delta that computes its edit
 * on first apply (transform, offset, fillet and the other entity edits)
 * carries that cache as a field; `apply` returns the delta with the cache
 * filled, which is what the Rust `Mutex` inside the boxed delta keeps.
 */
module Deltas {
  import opened Wrappers
  import opened Json
  import opened Serialize
  import opened Model

  /** A selection transform (transform_selection.rs), parameters as received. */
  datatype Transform =
    | Translate(dx: Num, dy: Num)
    | Rotate(cx: Num, cy: Num, angleRad: Num)
    | Scale(cx: Num, cy: Num, sx: Num, sy: Num)

  /** One transformed entity: its layer and its geometry before and after. */
  datatype Entry = Entry(id: Uuid, layerId: Uuid, before: Geom2D, after: Geom2D)

  datatype PatternParams =
    | Linear(dx: real, dy: real, count: nat)
    | Circular(cx: real, cy: real, stepDeg: real, count: nat)

  /** The edits of advanced_edit.rs that rewrite the entity list as a whole. */
  datatype EditOp =
    | Fillet(e1: Uuid, e2: Uuid, radius: real)
    | Chamfer(e1: Uuid, e2: Uuid, distance: real)
    | Mirror(selectionIds: seq<Uuid>, axisA: Vec2, axisB: Vec2)
    | Pattern(selectionIds: seq<Uuid>, params: PatternParams)

  datatype PlacementPose = PlacementPose(x: real, y: real, rotationDeg: real)

  datatype Delta =
    /** CreateLineDelta and CreateEntityDelta: append one entity. */
    | CreateEntity(entity: Entity)
    | CreatePart(part: Part)
    | UpdatePart(before: Part, after: Part)
    | DeletePart(part: Part)
    | TransformSelection(selectionIds: seq<Uuid>, transform: Transform, cached: Option<seq<Entry>>)
    | OffsetEntity(entityId: Uuid, dist: real, newEntityId: Uuid, cachedEntity: Option<Entity>)
    | Entities(op: EditOp, beforeEntities: Option<seq<Entity>>, afterEntities: Option<seq<Entity>>)
    | RunNesting(jobId: Uuid, beforeResult: Option<NestResult>, beforeTrace: Option<NestTrace>,
                 afterResult: Option<NestResult>, afterTrace: Option<NestTrace>)
    | EditPlacement(jobId: Uuid, partId: Uuid, sheetIndex: int, newPose: PlacementPose, oldPose: Option<PlacementPose>)
    /** DeltaGroup of history.rs: several deltas undone as one. */
    | Group(deltas: seq<Delta>)

  /**
   * What the commands call and the model does not define: the geometry
   * kernel (offset, mirror, the line chamfer used by fillet and chamfer),
   * the float library, and `Uuid::new_v4`, which yields `newId(k)` on its
   * k-th call within one edit.
   */
  datatype Kernel = Kernel(
    math: Math,
    offset: (Geom2D, real) -> Result<Geom2D, ReasonCode>,
    mirror: (Geom2D, Vec2, Vec2) -> Option<Geom2D>,
    chamfer: (Vec2, Vec2, Vec2, Vec2, real) -> Option<(Geom2D, Geom2D, Geom2D)>,
    newId: nat -> Uuid)

  /** The `{}` style and empty tags and meta of a newly drawn entity. */
  function NewEntity(layerId: Uuid, geom: Geom2D, id: Uuid): Entity
  {
    Entity(id, layerId, geom, JObj([]), [], [])
  }
}
