/**
 * apps/desktop/src/hittest.cpp: picking the entity under the pointer.  An
 * entity is a candidate when its cached box, grown by the pick radius
 * converted to world units, contains the pointer; the kernel projects the
 * pointer onto each candidate, and the hit is the nearest projection, ties
 * going to the smaller entity id.
 */
module HitTests {
  import opened Wrappers
  import opened Model
  import opened Aabbs
  import opened Sorting
  import opened Desk

  /** A hit: the entity, the projected point, its distance and the label, always "Nearest". */
  datatype Hit = Hit(entityId: string, point: Vec2, dist: real, kind: string)

  /** The distance read when the projection reply has none. */
  const NO_DIST: real := 1.0e9

  /** `QRectF::adjusted(-d, -d, d, d)`: every side pushed out by `d`. */
  function Adjusted(b: Aabb, d: real): Aabb
  {
    Aabb(b.minX - d, b.minY - d, b.maxX + d, b.maxY + d)
  }

  /**
   * `QRectF::contains(QPointF)`: the rectangle is normalised first, a
   * rectangle of zero width or height contains nothing, and the edges count
   * as inside.
   */
  predicate QtContains(b: Aabb, p: Vec2)
  {
    var l, r := Min(b.minX, b.maxX), Max(b.minX, b.maxX);
    var t, u := Min(b.minY, b.maxY), Max(b.minY, b.maxY);
    l != r && t != u && l <= p.x <= r && t <= p.y <= u
  }

  /** A point of a well-formed box is inside the box grown by any positive margin. */
  lemma GrownBoxContains(b: Aabb, d: real, p: Vec2)
    requires WellFormed(b) && d > 0.0 && Contains(b, p)
    ensures QtContains(Adjusted(b, d), p)
  {
  }

  /** QString's `<`: strictly before in lexicographic character order. */
  predicate IdLess(a: string, b: string)
  {
    LexLeq(a, b) && a != b
  }

  /** The hit `h` replaces `b`: strictly nearer, or as near with a smaller id. */
  predicate HitAhead(h: Hit, b: Hit)
  {
    h.dist < b.dist || (h.dist == b.dist && IdLess(h.entityId, b.entityId))
  }

  lemma HitAheadAsym(x: Hit, y: Hit)
    requires HitAhead(x, y)
    ensures !HitAhead(y, x)
  {
    if x.dist == y.dist && HitAhead(y, x) {
      LexLeqAntisym(x.entityId, y.entityId);
    }
  }

  /** Whatever `b` is not behind, anything ahead of `b` is ahead of too. */
  lemma HitAheadPast(c: Hit, b: Hit, x: Hit)
    requires HitAhead(c, b) && !HitAhead(x, b)
    ensures HitAhead(c, x)
  {
    if c.dist == b.dist && x.dist == b.dist {
      LexLeqTotal(x.entityId, b.entityId);
      LexLeqTrans(c.entityId, b.entityId, x.entityId);
      if c.entityId == x.entityId {
        LexLeqAntisym(c.entityId, b.entityId);
      }
    }
  }

  /** The hit one entity yields, if its grown box holds the pointer and the projection succeeds. */
  function HitOf(g: Geometry, e: RenderEntity, w: Vec2, d: real): Option<Hit>
  {
    if !QtContains(Adjusted(e.box, d), w) then None
    else
      match g.project(e.geom, w)
      case Err(_) => None
      case Ok(pr) => Some(Hit(e.id, pr.point, if pr.dist.Some? then pr.dist.value else NO_DIST, "Nearest"))
  }

  /** The hits of all entities, in entity order. */
  function Hits(g: Geometry, es: seq<RenderEntity>, w: Vec2, d: real): seq<Hit>
  {
    if es == [] then []
    else
      var h := HitOf(g, es[|es| - 1], w, d);
      Hits(g, es[..|es| - 1], w, d) + (if h.Some? then [h.value] else [])
  }

  /** The hits are exactly what the entities yield. */
  lemma {:induction false} HitsMember(g: Geometry, es: seq<RenderEntity>, w: Vec2, d: real, h: Hit)
    ensures h in Hits(g, es, w, d) <==> exists i :: 0 <= i < |es| && HitOf(g, es[i], w, d) == Some(h)
  {
    if es != [] {
      var init := es[..|es| - 1];
      HitsMember(g, init, w, d, h);
      assert forall i :: 0 <= i < |init| ==> init[i] == es[i];
    }
  }

  /** The scan: a hit replaces the best only when it is strictly ahead. */
  function BestHit(hs: seq<Hit>): (r: Option<Hit>)
    ensures r.None? <==> hs == []
  {
    if hs == [] then None
    else
      var b := BestHit(hs[..|hs| - 1]);
      var h := hs[|hs| - 1];
      if b.None? || HitAhead(h, b.value) then Some(h) else b
  }

  /** The best hit is one of the hits and no hit is ahead of it. */
  lemma {:induction false} BestHitLeast(hs: seq<Hit>) returns (i: nat)
    requires hs != []
    ensures i < |hs| && BestHit(hs) == Some(hs[i])
    ensures forall j :: 0 <= j < |hs| ==> !HitAhead(hs[j], hs[i])
  {
    var init := hs[..|hs| - 1];
    var c := hs[|hs| - 1];
    if init == [] {
      i := 0;
    } else {
      var k := BestHitLeast(init);
      assert forall j :: 0 <= j < |init| ==> init[j] == hs[j];
      if HitAhead(c, init[k]) {
        i := |hs| - 1;
        forall j | 0 <= j < |hs|
          ensures !HitAhead(hs[j], c)
        {
          if j < |init| && HitAhead(hs[j], c) {
            HitAheadPast(c, init[k], hs[j]);
            HitAheadAsym(hs[j], c);
          }
        }
      } else {
        i := k;
      }
    }
  }

  /**
   * `hitTest`'s result: none exactly when no entity yields a hit; otherwise
   * the hit of some entity, and no entity yields a nearer hit or an equally
   * near one with a smaller id.
   */
  lemma NearestHit(g: Geometry, es: seq<RenderEntity>, w: Vec2, d: real, i: nat)
    requires i < |es| && HitOf(g, es[i], w, d).Some?
    ensures BestHit(Hits(g, es, w, d)).Some?
    ensures exists k :: 0 <= k < |es| && HitOf(g, es[k], w, d) == BestHit(Hits(g, es, w, d))
    ensures !HitAhead(HitOf(g, es[i], w, d).value, BestHit(Hits(g, es, w, d)).value)
  {
    var hs := Hits(g, es, w, d);
    HitsMember(g, es, w, d, HitOf(g, es[i], w, d).value);
    var k := BestHitLeast(hs);
    HitsMember(g, es, w, d, hs[k]);
    var j :| 0 <= j < |hs| && hs[j] == HitOf(g, es[i], w, d).value;
  }

  /** No entity yields a hit: the hit test finds nothing. */
  lemma {:induction false} NoHitWhenNoneYields(g: Geometry, es: seq<RenderEntity>, w: Vec2, d: real)
    requires forall i :: 0 <= i < |es| ==> HitOf(g, es[i], w, d).None?
    ensures BestHit(Hits(g, es, w, d)).None?
  {
    if es != [] {
      var init := es[..|es| - 1];
      assert forall i :: 0 <= i < |init| ==> init[i] == es[i];
      NoHitWhenNoneYields(g, init, w, d);
    }
  }

  /** `hitTest`: the pick radius in world units is `radiusPx / zoom`. */
  method HitTest(g: Geometry, es: seq<RenderEntity>, zoom: real, w: Vec2, radiusPx: real) returns (best: Option<Hit>)
    requires zoom != 0.0
    ensures best == BestHit(Hits(g, es, w, radiusPx / zoom))
  {
    var d := radiusPx / zoom;
    best := None;
    var i := 0;
    while i < |es|
      invariant 0 <= i <= |es|
      invariant best == BestHit(Hits(g, es[..i], w, d))
    {
      assert es[..i + 1][..i] == es[..i];
      var e := es[i];
      ghost var prev := Hits(g, es[..i], w, d);
      ghost var h0 := HitOf(g, e, w, d);
      assert Hits(g, es[..i + 1], w, d) == prev + (if h0.Some? then [h0.value] else []);
      if h0.Some? {
        assert (prev + [h0.value])[..|prev|] == prev;
        assert BestHit(prev + [h0.value]) ==
          if BestHit(prev).None? || HitAhead(h0.value, BestHit(prev).value) then h0 else BestHit(prev);
      } else {
        assert prev + [] == prev;
      }
      if QtContains(Adjusted(e.box, d), w) {
        var res := g.project(e.geom, w);
        if res.Ok? {
          var dist := if res.value.dist.Some? then res.value.dist.value else NO_DIST;
          var h := Hit(e.id, res.value.point, dist, "Nearest");
          if best.None? || dist < best.value.dist || (dist == best.value.dist && IdLess(h.entityId, best.value.entityId)) {
            best := Some(h);
          }
        }
      }
      i := i + 1;
    }
    assert es[..i] == es;
  }
}
