/**
 * core/crates/snapping/src/resolve.rs: snap resolution.  Candidates farther
 * than the policy's distance from the cursor are dropped, the rest are
 * stably sorted by score (highest first), then distance, x, y and kind, and
 * the first is the snapped point.  The distance function (a square root) is
 * a parameter.
 */
module Snapping {
  import opened Wrappers
  import opened Model
  import opened Seqs
  import opened Sorting

  /** A snap kind is compared by its position in the kind enumeration. */
  type SnapKind = nat

  datatype SnapPoint = SnapPoint(kind: SnapKind, pt: Vec2, score: int)

  datatype SnapResult = SnapResult(snapped: Option<SnapPoint>, candidates: seq<SnapPoint>)

  type Dist = (Vec2, Vec2) -> real

  /** The resolve ordering: score descending, then distance, x, y, kind ascending. */
  predicate Before(dist: Dist, cursor: Vec2, a: SnapPoint, b: SnapPoint)
  {
    var da, db := dist(a.pt, cursor), dist(b.pt, cursor);
    a.score > b.score
    || (a.score == b.score
        && (da < db
            || (da == db
                && (a.pt.x < b.pt.x
                    || (a.pt.x == b.pt.x
                        && (a.pt.y < b.pt.y || (a.pt.y == b.pt.y && a.kind <= b.kind)))))))
  }

  function SnapLeq(dist: Dist, cursor: Vec2): (SnapPoint, SnapPoint) -> bool
  {
    (a: SnapPoint, b: SnapPoint) => Before(dist, cursor, a, b)
  }

  lemma SnapLeqTotal(dist: Dist, cursor: Vec2)
    ensures TotalPreorder(SnapLeq(dist, cursor))
  {
    forall a, b, c | Before(dist, cursor, a, b) && Before(dist, cursor, b, c)
      ensures Before(dist, cursor, a, c)
    {
    }
  }

  function WithinReach(dist: Dist, cursor: Vec2, maxDist: real): SnapPoint -> bool
  {
    (c: SnapPoint) => dist(c.pt, cursor) <= maxDist
  }

  function Resolve(cands: seq<SnapPoint>, cursor: Vec2, maxDist: real, dist: Dist): (r: SnapResult)
    ensures forall c :: c in r.candidates <==> c in cands && dist(c.pt, cursor) <= maxDist
    ensures multiset(r.candidates) == multiset(Filter(cands, WithinReach(dist, cursor, maxDist)))
    ensures r.snapped.None? <==> forall c :: c in cands ==> dist(c.pt, cursor) > maxDist
    ensures r.snapped.Some? ==> r.candidates != [] && r.snapped.value == r.candidates[0]
  {
    var kept := Filter(cands, WithinReach(dist, cursor, maxDist));
    var sorted := SortBy(kept, SnapLeq(dist, cursor));
    assert forall c :: c in sorted <==> c in multiset(kept);
    SnapResult(if sorted == [] then None else Some(sorted[0]), sorted)
  }

  /**
   * The surviving candidates are in resolve order, and the snapped point
   * comes first against every one of them: no candidate has a higher score,
   * or the same score and a smaller distance.
   */
  lemma ResolveOrdered(cands: seq<SnapPoint>, cursor: Vec2, maxDist: real, dist: Dist)
    ensures var r := Resolve(cands, cursor, maxDist, dist);
      SortedBy(r.candidates, SnapLeq(dist, cursor))
      && (r.snapped.Some? ==> forall c :: c in r.candidates ==>
            r.snapped.value.score >= c.score
            && (r.snapped.value.score == c.score ==> dist(r.snapped.value.pt, cursor) <= dist(c.pt, cursor)))
  {
    SnapLeqTotal(dist, cursor);
    var r := Resolve(cands, cursor, maxDist, dist);
    SortBySorted(Filter(cands, WithinReach(dist, cursor, maxDist)), SnapLeq(dist, cursor));
    if r.snapped.Some? {
      forall c | c in r.candidates
        ensures Before(dist, cursor, r.candidates[0], c)
      {
        var j :| 0 <= j < |r.candidates| && r.candidates[j] == c;
        if j > 0 {
          assert SnapLeq(dist, cursor)(r.candidates[0], r.candidates[j]);
        }
      }
    }
  }

  /**
   * The determinism example: at the cursor, an Endpoint and a Grid point
   * share the cursor's position with scores 2 and 1, and a Center of score 2
   * lies 0.2 away; the Endpoint is snapped whatever the kinds' positions.
   */
  lemma HigherScoreWinsAtSamePosition(dist: Dist, grid: SnapPoint, endpoint: SnapPoint, center: SnapPoint)
    requires grid.pt == Vec2(0.0, 0.0) && grid.score == 1
    requires endpoint.pt == Vec2(0.0, 0.0) && endpoint.score == 2
    requires center.pt == Vec2(0.2, 0.0) && center.score == 2
    requires dist(Vec2(0.0, 0.0), Vec2(0.0, 0.0)) == 0.0
    requires dist(Vec2(0.2, 0.0), Vec2(0.0, 0.0)) == 0.2
    ensures var r := Resolve([grid, endpoint, center], Vec2(0.0, 0.0), 10.0, dist);
      r.snapped == Some(endpoint) && |r.candidates| == 3
  {
    var cands := [grid, endpoint, center];
    var cursor := Vec2(0.0, 0.0);
    ResolveOrdered(cands, cursor, 10.0, dist);
    FilterAllKept(cands, WithinReach(dist, cursor, 10.0));
    var r := Resolve(cands, cursor, 10.0, dist);
    assert endpoint in r.candidates;
    assert r.snapped.value in cands;
  }
}
