/**
 * core/commands/src/commands/create_shapes.rs: rectangle, circle, arc and
 * polyline drawing commands.  Each commits a create-entity delta (modelled
 * in CreateLine) for the entity id drawn when the command was made.
 */
module CreateShapes {
  import opened Wrappers
  import opened Serialize
  import opened Model
  import opened Deltas
  import EditOps

  /** Width or height below this is a degenerate rectangle. */
  const RECT_EPS: real := 0.000000000001

  function EnsureVec2(v: InPoint): (r: Result<(), ReasonCode>)
    ensures r.Ok? <==> FinitePoint(v)
    ensures r.Err? ==> r.error == DrawInvalidNumeric
  {
    if !v.x.Finite? || !v.y.Finite? then Err(DrawInvalidNumeric) else Ok(())
  }

  /** The closed axis-aligned rectangle with opposite corners p0 and p1, counter-clockwise from the minimum corner. */
  function RectFromCorners(p0: Vec2, p1: Vec2): (g: Geom2D)
    ensures g.Polyline? && g.closed && |g.pts| == 4
  {
    var minX, minY := Min(p0.x, p1.x), Min(p0.y, p1.y);
    var maxX, maxY := Max(p0.x, p1.x), Max(p0.y, p1.y);
    Polyline([Vec2(minX, minY), Vec2(maxX, minY), Vec2(maxX, maxY), Vec2(minX, maxY)], true)
  }

  /** Both given corners are vertices, consecutive edges are axis-parallel, and the box is the corners' span. */
  lemma RectSpansCorners(p0: Vec2, p1: Vec2)
    ensures p0 in RectFromCorners(p0, p1).pts && p1 in RectFromCorners(p0, p1).pts
    ensures var q := RectFromCorners(p0, p1).pts;
      q[0].y == q[1].y && q[1].x == q[2].x && q[2].y == q[3].y && q[3].x == q[0].x
      && q[0].x <= q[2].x && q[0].y <= q[2].y
      && EditOps.Abs(q[2].x - q[0].x) == EditOps.Abs(p1.x - p0.x)
      && EditOps.Abs(q[2].y - q[0].y) == EditOps.Abs(p1.y - p0.y)
  {
    var q := RectFromCorners(p0, p1).pts;
    if p0.x <= p1.x && p0.y <= p1.y { assert p0 == q[0] && p1 == q[2]; }
    else if p0.x <= p1.x { assert p0 == q[3] && p1 == q[1]; }
    else if p0.y <= p1.y { assert p0 == q[1] && p1 == q[3]; }
    else { assert p0 == q[2] && p1 == q[0]; }
  }

  class CreateRectCommand {
    const layerId: Uuid
    const entityId: Uuid
    /** The accepted corner pair; the corner-name string of the input is not used. */
    var preview: Option<(Vec2, Vec2)>

    constructor (layerId: Uuid, entityId: Uuid)
      ensures this.layerId == layerId && this.entityId == entityId && preview == None
    {
      this.layerId := layerId;
      this.entityId := entityId;
      preview := None;
    }

    method Begin()
      modifies this
      ensures preview == None
    {
      preview := None;
    }

    /** Non-finite corners give DRAW_INVALID_NUMERIC; zero width or height gives GEOM_DEGENERATE. */
    method Update(p0: InPoint, p1: InPoint, corner: string) returns (r: Result<(), ReasonCode>)
      modifies this
      ensures !(FinitePoint(p0) && FinitePoint(p1)) <==> r == Err(DrawInvalidNumeric)
      ensures r == Err(GeomDegenerate) <==>
        (FinitePoint(p0) && FinitePoint(p1)
         && (EditOps.Abs(p0.x.v - p1.x.v) < RECT_EPS || EditOps.Abs(p0.y.v - p1.y.v) < RECT_EPS))
      ensures r.Err? ==> preview == old(preview) && (r.error == DrawInvalidNumeric || r.error == GeomDegenerate)
      ensures r.Ok? ==> preview == Some((ToVec2(p0), ToVec2(p1)))
    {
      r := EnsureVec2(p0);
      if r.Err? { return; }
      r := EnsureVec2(p1);
      if r.Err? { return; }
      if EditOps.Abs(p0.x.v - p1.x.v) < RECT_EPS || EditOps.Abs(p0.y.v - p1.y.v) < RECT_EPS {
        return Err(GeomDegenerate);
      }
      preview := Some((ToVec2(p0), ToVec2(p1)));
    }

    /** Commits the closed four-point polyline spanning the two corners. */
    method Commit() returns (r: Result<Delta, ReasonCode>)
      ensures preview.None? ==> r == Err(DrawInsufficientInput)
      ensures preview.Some? ==> r.Ok? && r.value.CreateEntity?
      ensures preview.Some? ==>
        r.value.entity == NewEntity(layerId, RectFromCorners(preview.value.0, preview.value.1), entityId)
    {
      if preview.None? {
        return Err(DrawInsufficientInput);
      }
      var (p0, p1) := preview.value;
      r := Ok(CreateEntity(NewEntity(layerId, RectFromCorners(p0, p1), entityId)));
    }

    method Cancel()
      modifies this
      ensures preview == None
    {
      preview := None;
    }
  }

  class CreateCircleCommand {
    const layerId: Uuid
    const entityId: Uuid
    var preview: Option<(Vec2, real)>

    constructor (layerId: Uuid, entityId: Uuid)
      ensures this.layerId == layerId && this.entityId == entityId && preview == None
    {
      this.layerId := layerId;
      this.entityId := entityId;
      preview := None;
    }

    method Begin()
      modifies this
      ensures preview == None
    {
      preview := None;
    }

    /** Accepts a finite centre and a finite positive radius, otherwise DRAW_INVALID_NUMERIC. */
    method Update(c: InPoint, radius: Num) returns (r: Result<(), ReasonCode>)
      modifies this
      ensures r.Ok? <==> FinitePoint(c) && radius.Finite? && radius.v > 0.0
      ensures r.Err? ==> r.error == DrawInvalidNumeric && preview == old(preview)
      ensures r.Ok? ==> preview == Some((ToVec2(c), radius.v))
    {
      r := EnsureVec2(c);
      if r.Err? { return; }
      if !radius.Finite? || radius.v <= 0.0 {
        return Err(DrawInvalidNumeric);
      }
      preview := Some((ToVec2(c), radius.v));
    }

    method Commit() returns (r: Result<Delta, ReasonCode>)
      ensures preview.None? ==> r == Err(DrawInsufficientInput)
      ensures preview.Some? ==> r.Ok? && r.value.CreateEntity?
      ensures preview.Some? ==>
        r.value.entity == NewEntity(layerId, Circle(preview.value.0, preview.value.1), entityId)
    {
      if preview.None? {
        return Err(DrawInsufficientInput);
      }
      var (c, radius) := preview.value;
      r := Ok(CreateEntity(NewEntity(layerId, Circle(c, radius), entityId)));
    }

    method Cancel()
      modifies this
      ensures preview == None
    {
      preview := None;
    }
  }

  datatype ArcInput = ArcInput(c: InPoint, r: Num, startAngle: Num, endAngle: Num, ccw: bool)

  predicate ValidArc(a: ArcInput)
  {
    FinitePoint(a.c) && a.r.Finite? && a.r.v > 0.0 && a.startAngle.Finite? && a.endAngle.Finite?
  }

  function ArcGeom(a: ArcInput): Geom2D
    requires ValidArc(a)
  {
    Arc(ToVec2(a.c), a.r.v, a.startAngle.v, a.endAngle.v, a.ccw)
  }

  class CreateArcCommand {
    const layerId: Uuid
    const entityId: Uuid
    var preview: Option<Geom2D>

    constructor (layerId: Uuid, entityId: Uuid)
      ensures this.layerId == layerId && this.entityId == entityId && preview == None
    {
      this.layerId := layerId;
      this.entityId := entityId;
      preview := None;
    }

    method Begin()
      modifies this
      ensures preview == None
    {
      preview := None;
    }

    /** Also rejects non-finite start and end angles. */
    method Update(input: ArcInput) returns (r: Result<(), ReasonCode>)
      modifies this
      ensures r.Ok? <==> ValidArc(input)
      ensures r.Err? ==> r.error == DrawInvalidNumeric && preview == old(preview)
      ensures r.Ok? ==> preview == Some(ArcGeom(input))
    {
      r := EnsureVec2(input.c);
      if r.Err? { return; }
      if !input.r.Finite? || input.r.v <= 0.0 || !input.startAngle.Finite? || !input.endAngle.Finite? {
        return Err(DrawInvalidNumeric);
      }
      preview := Some(ArcGeom(input));
    }

    method Commit() returns (r: Result<Delta, ReasonCode>)
      ensures preview.None? ==> r == Err(DrawInsufficientInput)
      ensures preview.Some? ==> r == Ok(CreateEntity(NewEntity(layerId, preview.value, entityId)))
    {
      if preview.None? {
        return Err(DrawInsufficientInput);
      }
      r := Ok(CreateEntity(NewEntity(layerId, preview.value, entityId)));
    }

    method Cancel()
      modifies this
      ensures preview == None
    {
      preview := None;
    }
  }

  predicate AllFinite(pts: seq<InPoint>)
  {
    forall i :: 0 <= i < |pts| ==> FinitePoint(pts[i])
  }

  function ToVec2s(pts: seq<InPoint>): (r: seq<Vec2>)
    requires AllFinite(pts)
    ensures |r| == |pts| && forall i :: 0 <= i < |pts| ==> r[i] == ToVec2(pts[i])
  {
    seq(|pts|, i requires 0 <= i < |pts| && FinitePoint(pts[i]) => ToVec2(pts[i]))
  }

  /** Too few vertices: fewer than two, or fewer than three for a closed polyline. */
  predicate TooFewVertices(n: nat, closed: bool)
  {
    n < 2 || (closed && n < 3)
  }

  class CreatePolylineCommand {
    const layerId: Uuid
    const entityId: Uuid
    var preview: Option<(seq<Vec2>, bool)>

    constructor (layerId: Uuid, entityId: Uuid)
      ensures this.layerId == layerId && this.entityId == entityId && preview == None
    {
      this.layerId := layerId;
      this.entityId := entityId;
      preview := None;
    }

    method Begin()
      modifies this
      ensures preview == None
    {
      preview := None;
    }

    /** Checks the vertex count first, then every vertex in order. */
    method Update(pts: seq<InPoint>, closed: bool) returns (r: Result<(), ReasonCode>)
      modifies this
      ensures r == Err(DrawInsufficientInput) <==> TooFewVertices(|pts|, closed)
      ensures r == Err(DrawInvalidNumeric) <==> !TooFewVertices(|pts|, closed) && !AllFinite(pts)
      ensures r.Err? ==> preview == old(preview) && (r.error == DrawInsufficientInput || r.error == DrawInvalidNumeric)
      ensures r.Ok? ==> AllFinite(pts) && preview == Some((ToVec2s(pts), closed))
    {
      if |pts| < 2 {
        return Err(DrawInsufficientInput);
      }
      if closed && |pts| < 3 {
        return Err(DrawInsufficientInput);
      }
      var i := 0;
      while i < |pts|
        invariant 0 <= i <= |pts|
        invariant forall j :: 0 <= j < i ==> FinitePoint(pts[j])
      {
        var e := EnsureVec2(pts[i]);
        if e.Err? {
          return Err(e.error);
        }
        i := i + 1;
      }
      r := Ok(());
      preview := Some((ToVec2s(pts), closed));
    }

    method Commit() returns (r: Result<Delta, ReasonCode>)
      ensures preview.None? ==> r == Err(DrawInsufficientInput)
      ensures preview.Some? ==> r.Ok? && r.value.CreateEntity?
      ensures preview.Some? ==>
        r.value.entity == NewEntity(layerId, Polyline(preview.value.0, preview.value.1), entityId)
    {
      if preview.None? {
        return Err(DrawInsufficientInput);
      }
      var (pts, closed) := preview.value;
      r := Ok(CreateEntity(NewEntity(layerId, Polyline(pts, closed), entityId)));
    }

    method Cancel()
      modifies this
      ensures preview == None
    {
      preview := None;
    }
  }
}
