/**
 * core/crates/diycad_geom/src/ops/trim.rs: trimming a line or an open
 * polyline at an intersection with a cutter.  The intersection points are
 * ranked by how far their line parameter lies from the pick point's; the
 * caller may name one by its rank, or else the closest is taken unless the
 * two closest are too close to tell apart.
 */
module Trim {
  import opened Wrappers
  import opened Serialize
  import opened Model
  import opened Sorting
  import EditOps

  /** Parameter of p's projection on the line through a and b: 0 at a, 1 at b; 0 for a degenerate line. */
  function LineParam(a: Vec2, b: Vec2, p: Vec2): real
  {
    var dx := b.x - a.x;
    var dy := b.y - a.y;
    var denom := dx * dx + dy * dy;
    if denom <= 0.0 then 0.0 else ((p.x - a.x) * dx + (p.y - a.y) * dy) / denom
  }

  /** A candidate as ranked: its position in the input, the point, its parameter and its distance to the pick. */
  datatype Ranked = Ranked(index: nat, p: Vec2, t: real, dist: real)

  /** A trim failure: the reason, and for an ambiguity the ranked candidates (and the refused index, if any). */
  datatype Failure = Failure(code: ReasonCode, candidates: seq<Ranked>, invalidIndex: Option<nat>)

  function Plain(c: ReasonCode): Failure { Failure(c, [], None) }

  function Unranked(cands: seq<Vec2>, a: Vec2, b: Vec2, pick: Vec2): (r: seq<Ranked>)
    ensures |r| == |cands|
    ensures forall i :: 0 <= i < |r| ==> r[i].index == i && r[i].p == cands[i]
  {
    var tPick := LineParam(a, b, pick);
    seq(|cands|, i requires 0 <= i < |cands| =>
      Ranked(i, cands[i], LineParam(a, b, cands[i]), EditOps.Abs(LineParam(a, b, cands[i]) - tPick)))
  }

  function DistLeq(): (Ranked, Ranked) -> bool
  {
    (l: Ranked, r: Ranked) => l.dist <= r.dist
  }

  /** The candidates in order of distance, ties kept in input order (`sort_by` is stable). */
  function RankCandidates(cands: seq<Vec2>, a: Vec2, b: Vec2, pick: Vec2): (r: seq<Ranked>)
    ensures |r| == |cands|
    ensures multiset(r) == multiset(Unranked(cands, a, b, pick))
  {
    SortBy(Unranked(cands, a, b, pick), DistLeq())
  }

  function AmbiguousTop(ranked: seq<Ranked>, eqDist: real): bool
  {
    |ranked| >= 2 && EditOps.Abs(ranked[0].dist - ranked[1].dist) <= eqDist
  }

  function ChooseCandidate(cands: seq<Vec2>, a: Vec2, b: Vec2, pick: Vec2, eqDist: real, index: Option<nat>)
    : (r: Result<Vec2, Failure>)
    ensures cands == [] ==> r == Err(Plain(GeomTrimNoIntersection))
    ensures cands != [] && index.Some? && index.value >= |cands| ==>
      r == Err(Failure(EditTrimAmbiguousCandidate, RankCandidates(cands, a, b, pick), index))
    ensures cands != [] && index.Some? && index.value < |cands| ==>
      r == Ok(RankCandidates(cands, a, b, pick)[index.value].p)
    ensures cands != [] && index.None? ==>
      var ranked := RankCandidates(cands, a, b, pick);
      if AmbiguousTop(ranked, eqDist) then r == Err(Failure(EditTrimAmbiguousCandidate, ranked, None))
      else r == Ok(ranked[0].p)
  {
    if cands == [] then Err(Plain(GeomTrimNoIntersection))
    else
      var ranked := RankCandidates(cands, a, b, pick);
      match index
      case Some(i) =>
        if i >= |ranked| then Err(Failure(EditTrimAmbiguousCandidate, ranked, index)) else Ok(ranked[i].p)
      case None =>
        if AmbiguousTop(ranked, eqDist) then Err(Failure(EditTrimAmbiguousCandidate, ranked, None))
        else Ok(ranked[0].p)
  }

  lemma DistLeqTotal()
    ensures TotalPreorder(DistLeq())
  {
  }

  /**
   * The ranking is sorted by distance, holds each candidate exactly once, and
   * its first entry is at least as close to the pick as every candidate.
   */
  lemma RankingSorted(cands: seq<Vec2>, a: Vec2, b: Vec2, pick: Vec2)
    requires cands != []
    ensures var ranked := RankCandidates(cands, a, b, pick);
      SortedBy(ranked, DistLeq())
      && forall i :: 0 <= i < |cands| ==> ranked[0].dist <= Unranked(cands, a, b, pick)[i].dist
  {
    DistLeqTotal();
    var u := Unranked(cands, a, b, pick);
    var ranked := RankCandidates(cands, a, b, pick);
    SortBySorted(u, DistLeq());
    forall i | 0 <= i < |cands|
      ensures ranked[0].dist <= u[i].dist
    {
      assert u[i] in multiset(u);
      assert u[i] in multiset(ranked);
      var j :| 0 <= j < |ranked| && ranked[j] == u[i];
      if j > 0 {
        assert DistLeq()(ranked[0], ranked[j]);
      }
    }
  }

  /** Without an index, the point taken is one of the candidates, at minimal distance from the pick. */
  lemma ChosenIsClosest(cands: seq<Vec2>, a: Vec2, b: Vec2, pick: Vec2, eqDist: real)
    requires ChooseCandidate(cands, a, b, pick, eqDist, None).Ok?
    ensures var p := ChooseCandidate(cands, a, b, pick, eqDist, None).value;
      var u := Unranked(cands, a, b, pick);
      exists k :: 0 <= k < |cands| && cands[k] == p && forall i :: 0 <= i < |cands| ==> u[k].dist <= u[i].dist
  {
    RankingSorted(cands, a, b, pick);
    var u := Unranked(cands, a, b, pick);
    var ranked := RankCandidates(cands, a, b, pick);
    assert ranked[0] in multiset(ranked);
    assert ranked[0] in multiset(u);
    var k :| 0 <= k < |u| && u[k] == ranked[0];
    assert cands[k] == ranked[0].p;
  }

  /** The kernel's intersection routine: the intersection points of two geometries, or a reason. */
  type Intersector = (Geom2D, Geom2D) -> Result<seq<Vec2>, ReasonCode>

  /** "No intersection" from the intersector is reported as the trim's own reason. */
  function IntersectForTrim(intersect: Intersector, target: Geom2D, cutter: Geom2D): (r: Result<seq<Vec2>, Failure>)
    ensures intersect(target, cutter).Ok? ==> r == Ok(intersect(target, cutter).value)
    ensures intersect(target, cutter).Err? ==>
      r == Err(Plain(if intersect(target, cutter).error == GeomNoIntersection then GeomTrimNoIntersection
                     else intersect(target, cutter).error))
  {
    match intersect(target, cutter)
    case Ok(pts) => Ok(pts)
    case Err(e) => Err(Plain(if e == GeomNoIntersection then GeomTrimNoIntersection else e))
  }

  /** The line keeps the end on the pick's side and ends at the chosen point. */
  function TrimLine(intersect: Intersector, target: Geom2D, cutter: Geom2D, pick: Vec2, eqDist: real, index: Option<nat>)
    : (r: Result<Geom2D, Failure>)
    ensures !target.Line? ==> r == Err(Plain(GeomOffsetNotSupported))
    ensures r.Ok? ==> target.Line? && r.value.Line?
  {
    if !target.Line? then Err(Plain(GeomOffsetNotSupported))
    else
      var a := target.a;
      var b := target.b;
      var pts :- IntersectForTrim(intersect, target, cutter);
      var p :- ChooseCandidate(pts, a, b, pick, eqDist, index);
      if LineParam(a, b, pick) <= LineParam(a, b, p) then Ok(Line(a, p)) else Ok(Line(p, b))
  }

  /** Whatever the ranking and the index, the point chosen is one of the candidates. */
  lemma ChosenIsCandidate(cands: seq<Vec2>, a: Vec2, b: Vec2, pick: Vec2, eqDist: real, index: Option<nat>)
    requires ChooseCandidate(cands, a, b, pick, eqDist, index).Ok?
    ensures ChooseCandidate(cands, a, b, pick, eqDist, index).value in cands
  {
    var u := Unranked(cands, a, b, pick);
    var ranked := RankCandidates(cands, a, b, pick);
    var j := if index.Some? then index.value else 0;
    assert ChooseCandidate(cands, a, b, pick, eqDist, index).value == ranked[j].p;
    assert ranked[j] in multiset(ranked);
    assert ranked[j] in multiset(u);
    var k :| 0 <= k < |u| && u[k] == ranked[j];
    assert cands[k] == ranked[j].p;
  }

  /**
   * A successful line trim is the part of the line on the pick's side of
   * the cut: it runs from the start to an intersection point at or beyond
   * the pick's parameter, or from an intersection point before the pick's
   * parameter to the end.
   */
  lemma TrimLineKeepsPickSide(intersect: Intersector, a: Vec2, b: Vec2, cutter: Geom2D, pick: Vec2, eqDist: real, index: Option<nat>)
    requires TrimLine(intersect, Line(a, b), cutter, pick, eqDist, index).Ok?
    ensures intersect(Line(a, b), cutter).Ok?
    ensures
      var r := TrimLine(intersect, Line(a, b), cutter, pick, eqDist, index).value;
      var tPick := LineParam(a, b, pick);
      exists p :: p in intersect(Line(a, b), cutter).value &&
        ((r == Line(a, p) && tPick <= LineParam(a, b, p)) || (r == Line(p, b) && LineParam(a, b, p) < tPick))
  {
    var pts := intersect(Line(a, b), cutter).value;
    var p := ChooseCandidate(pts, a, b, pick, eqDist, index).value;
    ChosenIsCandidate(pts, a, b, pick, eqDist, index);
  }

  /** The kernel's projection: the global parameter in [0, 1] of the nearest point, or a reason. */
  type Projector = (Geom2D, Vec2) -> Result<real, ReasonCode>

  /** `t * n`, written as n additions of t. */
  function Times(t: real, n: nat): real
  {
    if n == 0 then 0.0 else Times(t, n - 1) + t
  }

  lemma {:induction false} TimesIsProduct(t: real, n: nat)
    ensures Times(t, n) == t * n as real
  {
    if n > 0 {
      TimesIsProduct(t, n - 1);
    }
  }

  /** `(u.floor() as usize).min(n - 1)`: the cast saturates at 0 below. */
  function ClampedFloor(u: real, n: nat): int
    requires n >= 1
  {
    var f := u.Floor;
    var c: nat := if f < 0 then 0 else f;
    if c < n - 1 then c else n - 1
  }

  /** The largest segment number below n that is at most u, or 0. */
  function LastAtMost(u: real, n: nat): (i: nat)
    requires n >= 1
    ensures i < n
  {
    if n == 1 || (n - 1) as real <= u then n - 1 else LastAtMost(u, n - 1)
  }

  lemma {:induction false} LastAtMostIsClampedFloor(u: real, n: nat)
    requires n >= 1
    ensures LastAtMost(u, n) == ClampedFloor(u, n)
  {
    if n > 1 && u < (n - 1) as real {
      LastAtMostIsClampedFloor(u, n - 1);
    }
  }

  /** The segment under the pick: `(u.floor() as usize).min(seg_count - 1)` with `u = t * seg_count`. */
  function SegmentIndex(tGlobal: real, segCount: nat): (i: nat)
    requires segCount >= 1
    ensures i < segCount
  {
    LastAtMost(Times(tGlobal, segCount), segCount)
  }

  /** The segment index is the source's clamped floor of `t * seg_count`. */
  lemma SegmentIndexIsFloor(tGlobal: real, segCount: nat)
    requires segCount >= 1
    ensures SegmentIndex(tGlobal, segCount) == ClampedFloor(tGlobal * segCount as real, segCount)
  {
    TimesIsProduct(tGlobal, segCount);
    LastAtMostIsClampedFloor(Times(tGlobal, segCount), segCount);
  }

  /**
   * The open polyline's segment under the pick is trimmed like a line and its
   * two ends written back; nothing else about the polyline changes.
   */
  function TrimPolyline(project: Projector, intersect: Intersector, target: Geom2D, cutter: Geom2D,
                        pick: Vec2, eqDist: real, index: Option<nat>): (r: Result<Geom2D, Failure>)
    ensures !target.Polyline? || target.closed || |target.pts| < 2 ==> r == Err(Plain(GeomOffsetNotSupported))
    ensures r.Ok? ==> target.Polyline? && r.value.Polyline? && !r.value.closed && |r.value.pts| == |target.pts|
  {
    if !target.Polyline? || target.closed || |target.pts| < 2 then Err(Plain(GeomOffsetNotSupported))
    else
      var pts := target.pts;
      var hit := project(target, pick);
      if hit.Err? then Err(Plain(hit.error))
      else
        var i := SegmentIndex(hit.value, |pts| - 1);
        WriteBack(pts, i, TrimLine(intersect, Line(pts[i], pts[i + 1]), cutter, pick, eqDist, index))
  }

  /**
   * The trimmed segment's ends written back as points i and i + 1 of the
   * open polyline; a failed segment trim fails the polyline's.
   */
  function WriteBack(pts: seq<Vec2>, i: nat, seg: Result<Geom2D, Failure>): (r: Result<Geom2D, Failure>)
    requires i + 1 < |pts| && (seg.Ok? ==> seg.value.Line?)
    ensures r.Ok? <==> seg.Ok?
    ensures seg.Err? ==> r == Err(seg.error)
    ensures r.Ok? ==>
      r.value.Polyline? && !r.value.closed && |r.value.pts| == |pts|
      && r.value.pts[i] == seg.value.a && r.value.pts[i + 1] == seg.value.b
      && forall j :: 0 <= j < |pts| && j != i && j != i + 1 ==> r.value.pts[j] == pts[j]
  {
    if seg.Err? then Err(seg.error)
    else Ok(Polyline(pts[i := seg.value.a][i + 1 := seg.value.b], false))
  }

  /**
   * A polyline trim changes only the two ends of the segment under the pick,
   * and writes there the ends of that segment trimmed as a line.
   */
  lemma TrimPolylineLocal(project: Projector, intersect: Intersector, target: Geom2D, cutter: Geom2D,
                          pick: Vec2, eqDist: real, index: Option<nat>)
    requires TrimPolyline(project, intersect, target, cutter, pick, eqDist, index).Ok?
    ensures target.Polyline? && !target.closed && |target.pts| >= 2 && project(target, pick).Ok?
    ensures var out := TrimPolyline(project, intersect, target, cutter, pick, eqDist, index).value;
      var i := SegmentIndex(project(target, pick).value, |target.pts| - 1);
      var seg := TrimLine(intersect, Line(target.pts[i], target.pts[i + 1]), cutter, pick, eqDist, index);
      seg.Ok? && out.pts[i] == seg.value.a && out.pts[i + 1] == seg.value.b
      && forall j :: 0 <= j < |target.pts| && j != i && j != i + 1 ==> out.pts[j] == target.pts[j]
  {
    var pts := target.pts;
    var hit := project(target, pick);
    assert hit.Ok?;
    var i := SegmentIndex(hit.value, |pts| - 1);
    var seg := TrimLine(intersect, Line(pts[i], pts[i + 1]), cutter, pick, eqDist, index);
    assert TrimPolyline(project, intersect, target, cutter, pick, eqDist, index) == WriteBack(pts, i, seg);
  }
}
