/**
 * Rigid and scaling transforms of one geometry (core/edit_ops/src/lib.rs),
 * with the finiteness and degeneracy guards the kernel applies first.
 */
module EditOps {
  import opened Wrappers
  import opened Serialize
  import opened Model

  /** Below this magnitude a scale factor collapses the geometry. */
  const MIN_SCALE: real := 0.000000000001

  function Abs(x: real): real { if x < 0.0 then -x else x }

  function Add(v: Vec2, dx: real, dy: real): Vec2 { Vec2(v.x + dx, v.y + dy) }

  function RotatePoint(m: Math, p: Vec2, center: Vec2, angle: real): Vec2
  {
    var c := m.cos(angle);
    var s := m.sin(angle);
    var x := p.x - center.x;
    var y := p.y - center.y;
    Vec2(center.x + x * c - y * s, center.y + x * s + y * c)
  }

  function ScalePoint(p: Vec2, center: Vec2, sx: real, sy: real): Vec2
  {
    Vec2(center.x + (p.x - center.x) * sx, center.y + (p.y - center.y) * sy)
  }

  /** The same kind of geometry with the same point count and closed flag. */
  predicate SameKind(g: Geom2D, h: Geom2D)
  {
    match g
    case Line(_, _) => h.Line?
    case Circle(_, _) => h.Circle?
    case Arc(_, _, _, _, ccw) => h.Arc? && h.ccw == ccw
    case Polyline(pts, closed) => h.Polyline? && |h.pts| == |pts| && h.closed == closed
  }

  /** SameKind plus the same radius and arc angles: a rigid move changed only positions. */
  predicate SameShape(g: Geom2D, h: Geom2D)
  {
    SameKind(g, h)
    && (g.Circle? ==> h.r == g.r)
    && (g.Arc? ==> h.r == g.r && h.startAngle == g.startAngle && h.endAngle == g.endAngle)
  }

  /** Applies `f` to every defining point: endpoints, centres, vertices. */
  function MapGeom(g: Geom2D, f: Vec2 -> Vec2): (r: Geom2D)
    ensures SameShape(g, r)
    ensures r.Polyline? ==> forall i :: 0 <= i < |r.pts| ==> r.pts[i] == f(g.pts[i])
  {
    match g
    case Line(a, b) => Line(f(a), f(b))
    case Circle(c, r) => Circle(f(c), r)
    case Arc(c, r, s, e, ccw) => Arc(f(c), r, s, e, ccw)
    case Polyline(pts, closed) => Polyline(seq(|pts|, i requires 0 <= i < |pts| => f(pts[i])), closed)
  }

  function TranslateGeom(g: Geom2D, dx: real, dy: real): Geom2D
  {
    MapGeom(g, (p: Vec2) => Add(p, dx, dy))
  }

  /** `translate`: rejects a non-finite offset, otherwise moves every point. */
  function Translate(g: Geom2D, dx: Num, dy: Num): (r: Result<Geom2D, ReasonCode>)
    ensures r.Err? <==> !(dx.Finite? && dy.Finite?)
    ensures r.Err? ==> r.error == EditInvalidNumeric
    ensures r.Ok? ==> SameShape(g, r.value) && r.value == TranslateGeom(g, dx.v, dy.v)
  {
    if !dx.Finite? || !dy.Finite? then Err(EditInvalidNumeric)
    else Ok(TranslateGeom(g, dx.v, dy.v))
  }

  /** Translating back by the opposite offset restores the geometry exactly. */
  lemma TranslateGeomInverse(g: Geom2D, dx: real, dy: real)
    ensures TranslateGeom(TranslateGeom(g, dx, dy), -dx, -dy) == g
  {
    var h := TranslateGeom(g, dx, dy);
    if g.Polyline? {
      assert TranslateGeom(h, -dx, -dy).pts == g.pts;
    }
  }

  /** Two translations compose into one by the summed offset. */
  lemma TranslateGeomCompose(g: Geom2D, dx1: real, dy1: real, dx2: real, dy2: real)
    ensures TranslateGeom(TranslateGeom(g, dx1, dy1), dx2, dy2) == TranslateGeom(g, dx1 + dx2, dy1 + dy2)
  {
    if g.Polyline? {
      assert TranslateGeom(TranslateGeom(g, dx1, dy1), dx2, dy2).pts == TranslateGeom(g, dx1 + dx2, dy1 + dy2).pts;
    }
  }

  function RotateGeom(m: Math, g: Geom2D, center: Vec2, angle: real): Geom2D
  {
    var h := MapGeom(g, (p: Vec2) => RotatePoint(m, p, center, angle));
    if h.Arc? then h.(startAngle := h.startAngle + angle, endAngle := h.endAngle + angle) else h
  }

  /**
   * `rotate`: rejects a non-finite angle or centre; keeps kind, radius and
   * point count, and turns an arc's start and end angles by the rotation.
   */
  function Rotate(m: Math, g: Geom2D, center: InPoint, angle: Num): (r: Result<Geom2D, ReasonCode>)
    ensures r.Err? <==> !(angle.Finite? && FinitePoint(center))
    ensures r.Err? ==> r.error == EditInvalidNumeric
    ensures r.Ok? ==> SameKind(g, r.value)
    ensures r.Ok? && (g.Circle? || g.Arc?) ==> r.value.r == g.r
    ensures r.Ok? && g.Arc? ==>
      r.value.startAngle == g.startAngle + angle.v && r.value.endAngle == g.endAngle + angle.v
  {
    if !angle.Finite? || !FinitePoint(center) then Err(EditInvalidNumeric)
    else Ok(RotateGeom(m, g, ToVec2(center), angle.v))
  }

  /** The trigonometric facts a rotation by `a` followed by one by `-a` relies on. */
  predicate TrigSound(m: Math, a: real)
  {
    m.cos(-a) == m.cos(a) && m.sin(-a) == -m.sin(a)
    && m.cos(a) * m.cos(a) + m.sin(a) * m.sin(a) == 1.0
  }

  lemma RotatePointInverse(m: Math, p: Vec2, center: Vec2, a: real)
    requires TrigSound(m, a)
    ensures RotatePoint(m, RotatePoint(m, p, center, a), center, -a) == p
  {
    var c, s := m.cos(a), m.sin(a);
    var x, y := p.x - center.x, p.y - center.y;
    var q := RotatePoint(m, p, center, a);
    assert q.x - center.x == x * c - y * s;
    assert q.y - center.y == x * s + y * c;
    calc {
      (x * c - y * s) * c - (x * s + y * c) * (-s);
      x * (c * c + s * s);
      x;
    }
    calc {
      (x * c - y * s) * (-s) + (x * s + y * c) * c;
      y * (c * c + s * s);
      y;
    }
  }

  /** Rotating back by the opposite angle restores the geometry exactly. */
  lemma {:induction false} RotateGeomInverse(m: Math, g: Geom2D, center: Vec2, a: real)
    requires TrigSound(m, a)
    ensures RotateGeom(m, RotateGeom(m, g, center, a), center, -a) == g
  {
    var h := RotateGeom(m, g, center, a);
    var k := RotateGeom(m, h, center, -a);
    match g {
      case Line(p, q) =>
        RotatePointInverse(m, p, center, a);
        RotatePointInverse(m, q, center, a);
      case Circle(c, _) =>
        RotatePointInverse(m, c, center, a);
      case Arc(c, _, _, _, _) =>
        RotatePointInverse(m, c, center, a);
      case Polyline(pts, _) =>
        forall i | 0 <= i < |pts| ensures k.pts[i] == pts[i] {
          RotatePointInverse(m, pts[i], center, a);
        }
        assert k.pts == pts;
    }
  }

  function ScaleGeom(g: Geom2D, center: Vec2, sx: real, sy: real): Geom2D
  {
    var h := MapGeom(g, (p: Vec2) => ScalePoint(p, center, sx, sy));
    if h.Circle? || h.Arc? then h.(r := h.r * Abs(sx)) else h
  }

  /** Circles and arcs only scale uniformly in magnitude. */
  predicate KeepsRound(g: Geom2D, sx: real, sy: real)
  {
    (g.Circle? || g.Arc?) ==> Abs(Abs(sx) - Abs(sy)) <= MIN_SCALE
  }

  /**
   * `scale`: non-finite factors or centre give EDIT_INVALID_NUMERIC; a
   * factor of magnitude at most 1e-12, or a non-uniform scale of a circle or
   * arc, gives EDIT_TRANSFORM_WOULD_DEGENERATE; otherwise the radius becomes
   * r·|sx| and the kind, angles and point count are kept.
   */
  function Scale(g: Geom2D, center: InPoint, sx: Num, sy: Num): (r: Result<Geom2D, ReasonCode>)
    ensures !(sx.Finite? && sy.Finite? && FinitePoint(center)) <==> r == Err(EditInvalidNumeric)
    ensures r == Err(EditTransformWouldDegenerate) <==>
      sx.Finite? && sy.Finite? && FinitePoint(center)
      && (Abs(sx.v) <= MIN_SCALE || Abs(sy.v) <= MIN_SCALE || !KeepsRound(g, sx.v, sy.v))
    ensures r.Err? ==> r.error == EditInvalidNumeric || r.error == EditTransformWouldDegenerate
    ensures r.Ok? ==> SameKind(g, r.value)
    ensures r.Ok? && (g.Circle? || g.Arc?) ==> r.value.r == g.r * Abs(sx.v)
    ensures r.Ok? && g.Arc? ==> r.value.startAngle == g.startAngle && r.value.endAngle == g.endAngle
  {
    if !sx.Finite? || !sy.Finite? || !FinitePoint(center) then Err(EditInvalidNumeric)
    else if Abs(sx.v) <= MIN_SCALE || Abs(sy.v) <= MIN_SCALE then Err(EditTransformWouldDegenerate)
    else if !KeepsRound(g, sx.v, sy.v) then Err(EditTransformWouldDegenerate)
    else Ok(ScaleGeom(g, ToVec2(center), sx.v, sy.v))
  }

  lemma ScalePointInverse(p: Vec2, center: Vec2, sx: real, sy: real)
    requires sx != 0.0 && sy != 0.0
    ensures ScalePoint(ScalePoint(p, center, sx, sy), center, 1.0 / sx, 1.0 / sy) == p
  {
    var q := ScalePoint(p, center, sx, sy);
    assert (q.x - center.x) * (1.0 / sx) == (p.x - center.x) * (sx * (1.0 / sx));
    assert (q.y - center.y) * (1.0 / sy) == (p.y - center.y) * (sy * (1.0 / sy));
  }

  /** A radius scaled by |s| and then by |1/s| is the radius again. */
  lemma RadiusInverse(r: real, s: real)
    requires s != 0.0
    ensures r * Abs(s) * Abs(1.0 / s) == r
  {
    assert Abs(1.0 / s) * Abs(s) == 1.0;
  }

  /** Scaling by the reciprocal factors restores the geometry exactly. */
  lemma {:induction false} ScaleGeomInverse(g: Geom2D, center: Vec2, sx: real, sy: real)
    requires sx != 0.0 && sy != 0.0
    ensures ScaleGeom(ScaleGeom(g, center, sx, sy), center, 1.0 / sx, 1.0 / sy) == g
  {
    var k := ScaleGeom(ScaleGeom(g, center, sx, sy), center, 1.0 / sx, 1.0 / sy);
    match g {
      case Line(p, q) =>
        ScalePointInverse(p, center, sx, sy);
        ScalePointInverse(q, center, sx, sy);
      case Circle(c, r) =>
        ScalePointInverse(c, center, sx, sy);
        RadiusInverse(r, sx);
      case Arc(c, r, _, _, _) =>
        ScalePointInverse(c, center, sx, sy);
        RadiusInverse(r, sx);
      case Polyline(pts, _) =>
        forall i | 0 <= i < |pts| ensures k.pts[i] == pts[i] {
          ScalePointInverse(pts[i], center, sx, sy);
        }
        assert k.pts == pts;
    }
  }
}
