/**
 * core/crates/geom2d/src/aabb.rs: axis-aligned bounding boxes over the
 * sketch's points, and the closed overlap test the spatial index relies on.
 */
module Aabbs {
  import opened Model

  datatype Aabb = Aabb(minX: real, minY: real, maxX: real, maxY: real)

  predicate WellFormed(b: Aabb)
  {
    b.minX <= b.maxX && b.minY <= b.maxY
  }

  predicate Contains(b: Aabb, p: Vec2)
  {
    b.minX <= p.x <= b.maxX && b.minY <= p.y <= b.maxY
  }

  /** The box spanned by two corner points, in either order. */
  function FromPoints(a: Vec2, b: Vec2): (r: Aabb)
    ensures WellFormed(r) && Contains(r, a) && Contains(r, b)
  {
    Aabb(Min(a.x, b.x), Min(a.y, b.y), Max(a.x, b.x), Max(a.y, b.y))
  }

  /** FromPoints is the smallest box holding both points: every box that holds them holds it. */
  lemma FromPointsLeast(a: Vec2, b: Vec2, box: Aabb)
    requires Contains(box, a) && Contains(box, b)
    ensures var r := FromPoints(a, b);
      box.minX <= r.minX && box.minY <= r.minY && r.maxX <= box.maxX && r.maxY <= box.maxY
  {
  }

  /** Overlap on both axes; edges that only touch count as overlapping. */
  predicate Intersects(s: Aabb, o: Aabb)
  {
    !(s.maxX < o.minX || s.minX > o.maxX || s.maxY < o.minY || s.minY > o.maxY)
  }

  lemma IntersectsSymmetric(s: Aabb, o: Aabb)
    ensures Intersects(s, o) <==> Intersects(o, s)
  {
  }

  /** Two well-formed boxes intersect exactly when some point lies in both. */
  lemma IntersectsIffCommonPoint(s: Aabb, o: Aabb)
    requires WellFormed(s) && WellFormed(o)
    ensures Intersects(s, o) <==> exists p: Vec2 :: Contains(s, p) && Contains(o, p)
  {
    if Intersects(s, o) {
      var p := Vec2(Max(s.minX, o.minX), Max(s.minY, o.minY));
      assert Contains(s, p) && Contains(o, p);
    }
  }

  /** A box whose right edge is another's left edge still meets it. */
  lemma TouchingIntersects(s: Aabb, o: Aabb)
    requires WellFormed(s) && WellFormed(o)
    requires s.maxX == o.minX && s.minY <= o.maxY && o.minY <= s.maxY
    ensures Intersects(s, o)
  {
  }

  lemma SelfIntersects(b: Aabb)
    ensures Intersects(b, b) <==> WellFormed(b)
  {
  }
}
