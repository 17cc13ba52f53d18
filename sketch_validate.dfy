/**
 * core/crates/sketch/src/validate.rs: size limits and radius checks on a
 * sketch document.  The entity count is checked first; then the entities in
 * order, the first offending one deciding the error.
 */
module SketchValidate {
  import opened Wrappers
  import opened Model
  import Utf8

  /** The entities of core/crates/sketch/src/model.rs. */
  datatype SketchEntity =
    | Segment(id: string, layerId: string, a: Vec2, b: Vec2)
    | Circle(id: string, layerId: string, c: Vec2, r: real)
    | SketchPolyline(id: string, layerId: string, closed: bool, pts: seq<Vec2>)
    | Arc(id: string, layerId: string, c: Vec2, r: real, startDeg: real, endDeg: real)
    | Text(id: string, layerId: string, text: string, at: Vec2, sizeMm: real, rotationDeg: real)

  /** A sketch document; its units, layers, constraints and metadata are not read by the checks. */
  datatype SketchDoc = SketchDoc(id: string, entities: seq<SketchEntity>)

  datatype ValidateLimits = ValidateLimits(maxEntities: nat, maxPolylinePoints: nat, maxTextLen: nat)

  const DEFAULT_LIMITS := ValidateLimits(200_000, 10_000, 4096)

  /** The code an entity violates, if any. */
  function EntityViolation(e: SketchEntity, limits: ValidateLimits): (r: Option<string>)
    ensures r.None? <==>
      (e.Circle? ==> e.r > 0.0) && (e.Arc? ==> e.r > 0.0)
      && (e.SketchPolyline? ==> |e.pts| <= limits.maxPolylinePoints)
      && (e.Text? ==> Utf8.ByteLen(e.text) <= limits.maxTextLen)
    ensures r.Some? ==> r.value in {"CAD_INVALID_RADIUS", "CAD_LIMIT_POLYLINE_POINTS", "CAD_LIMIT_TEXT_LEN"}
    ensures (e.Circle? || e.Arc?) && r.Some? ==> r.value == "CAD_INVALID_RADIUS"
  {
    match e
    case Circle(_, _, _, r) => if r <= 0.0 then Some("CAD_INVALID_RADIUS") else None
    case Arc(_, _, _, r, _, _) => if r <= 0.0 then Some("CAD_INVALID_RADIUS") else None
    case SketchPolyline(_, _, _, pts) => if |pts| > limits.maxPolylinePoints then Some("CAD_LIMIT_POLYLINE_POINTS") else None
    case Text(_, _, text, _, _, _) => if Utf8.ByteLen(text) > limits.maxTextLen then Some("CAD_LIMIT_TEXT_LEN") else None
    case Segment(_, _, _, _) => None
  }

  function FirstViolation(es: seq<SketchEntity>, limits: ValidateLimits): (r: Option<string>)
    ensures r.None? <==> forall k :: 0 <= k < |es| ==> EntityViolation(es[k], limits).None?
    ensures r.Some? ==>
      exists k :: 0 <= k < |es| && EntityViolation(es[k], limits) == r
                  && forall j :: 0 <= j < k ==> EntityViolation(es[j], limits).None?
  {
    if es == [] then None
    else if EntityViolation(es[0], limits).Some? then EntityViolation(es[0], limits)
    else
      var rest := FirstViolation(es[1..], limits);
      assert forall k :: 1 <= k < |es| ==> es[k] == es[1..][k - 1];
      if rest.Some? then
        var k :| 0 <= k < |es[1..]| && EntityViolation(es[1..][k], limits) == rest
                 && forall j :: 0 <= j < k ==> EntityViolation(es[1..][j], limits).None?;
        assert EntityViolation(es[k + 1], limits) == rest;
        rest
      else rest
  }

  /**
   * validate: too many entities gives CAD_LIMIT_ENTITIES; otherwise the
   * first entity in order that violates a rule decides the code; Ok when none
   * does.
   */
  function Validate(doc: SketchDoc, limits: ValidateLimits): (r: Result<(), string>)
    ensures |doc.entities| > limits.maxEntities ==> r == Err("CAD_LIMIT_ENTITIES")
    ensures r.Ok? <==>
      |doc.entities| <= limits.maxEntities && forall k :: 0 <= k < |doc.entities| ==> EntityViolation(doc.entities[k], limits).None?
    ensures r.Err? && |doc.entities| <= limits.maxEntities ==>
      exists k :: 0 <= k < |doc.entities| && EntityViolation(doc.entities[k], limits) == Some(r.error)
                  && forall j :: 0 <= j < k ==> EntityViolation(doc.entities[j], limits).None?
  {
    if |doc.entities| > limits.maxEntities then Err("CAD_LIMIT_ENTITIES")
    else
      match FirstViolation(doc.entities, limits)
      case Some(code) => Err(code)
      case None => Ok(())
  }
}
