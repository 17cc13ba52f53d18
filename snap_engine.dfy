/**
 * apps/desktop/src/snap_engine.cpp: the snap candidates offered around the
 * pointer (both end points and the midpoint of every Line entity, and, while
 * a line is being drawn, the points where the rubber-band line meets each
 * entity) and the best of them: the lowest rank first, then the nearest.
 */
module Snap {
  import opened Wrappers
  import opened Model
  import opened Desk

  datatype SnapKind = Endpoint | Intersection | Midpoint

  /** A candidate as `SnapResult::all` holds it: point, label, rank, distance to the pointer. */
  datatype SnapCandidate = SnapCandidate(point: Vec2, kind: SnapKind, rank: int, dist: real)

  datatype SnapResult = SnapResult(all: seq<SnapCandidate>, best: Option<SnapCandidate>)

  /** The rank each kind is added with: end points 0, intersections 1, midpoints 2. */
  function Rank(k: SnapKind): int
  {
    match k
    case Endpoint => 0
    case Intersection => 1
    case Midpoint => 2
  }

  /** The `add` lambda: the candidate at `p`, `dist` measured from the pointer `w`. */
  function Cand(math: Math, w: Vec2, p: Vec2, kind: SnapKind): SnapCandidate
  {
    SnapCandidate(p, kind, Rank(kind), Norm(math, Diff(p, w)))
  }

  function Midpoint2(a: Vec2, b: Vec2): Vec2
  {
    Vec2((a.x + b.x) * 0.5, (a.y + b.y) * 0.5)
  }

  /** The three candidates of one entity: its two end points and its midpoint if it is a Line, otherwise none. */
  function EntityCands(math: Math, w: Vec2, e: RenderEntity): (r: seq<SnapCandidate>)
    ensures e.geom.DLine? ==> |r| == 3
    ensures !e.geom.DLine? ==> r == []
  {
    match e.geom
    case DLine(a, b) => [Cand(math, w, a, Endpoint), Cand(math, w, b, Endpoint), Cand(math, w, Midpoint2(a, b), Midpoint)]
    case _ => []
  }

  /** The first loop's candidates, entity by entity. */
  function LineCands(math: Math, w: Vec2, es: seq<RenderEntity>): seq<SnapCandidate>
  {
    if es == [] then [] else LineCands(math, w, es[..|es| - 1]) + EntityCands(math, w, es[|es| - 1])
  }

  /** The rubber-band line from the anchor to the pointer. */
  function ActiveLine(start: Vec2, w: Vec2): DeskGeom
  {
    DLine(start, w)
  }

  /** The points where the rubber-band line meets one entity; a failed intersection adds nothing. */
  function HitCands(g: Geometry, w: Vec2, start: Vec2, e: RenderEntity): seq<SnapCandidate>
  {
    match g.intersect(ActiveLine(start, w), e.geom)
    case Err(_) => []
    case Ok(pts) => seq(|pts|, k requires 0 <= k < |pts| => Cand(g.math, w, pts[k], Intersection))
  }

  /** The second loop's candidates, entity by entity. */
  function InterCands(g: Geometry, w: Vec2, start: Vec2, es: seq<RenderEntity>): seq<SnapCandidate>
  {
    if es == [] then [] else InterCands(g, w, start, es[..|es| - 1]) + HitCands(g, w, start, es[|es| - 1])
  }

  /** Every candidate offered, in the order the source adds them. */
  function AllCands(g: Geometry, w: Vec2, lineStart: Option<Vec2>, es: seq<RenderEntity>): seq<SnapCandidate>
  {
    LineCands(g.math, w, es) + (if lineStart.Some? then InterCands(g, w, lineStart.value, es) else [])
  }

  /** The point a tool takes from a snap: the best candidate's, or the pointer's when there is none. */
  function SnapPoint(r: SnapResult, w: Vec2): Vec2
  {
    if r.best.Some? then r.best.value.point else w
  }

  /** Candidate `c` wins over `b`: a lower rank, or the same rank and strictly nearer. */
  predicate Ahead(c: SnapCandidate, b: SnapCandidate)
  {
    c.rank < b.rank || (c.rank == b.rank && c.dist < b.dist)
  }

  /** The last loop: scanning in order, a candidate replaces the best only when it is strictly ahead. */
  function BestOf(all: seq<SnapCandidate>): (r: Option<SnapCandidate>)
    ensures r.None? <==> all == []
  {
    if all == [] then None
    else
      var b := BestOf(all[..|all| - 1]);
      var c := all[|all| - 1];
      if b.None? || Ahead(c, b.value) then Some(c) else b
  }

  /**
   * The best candidate is the earliest of the least: nothing is ahead of it,
   * and it is strictly ahead of every candidate before it.
   */
  lemma {:induction false} BestOfFirstLeast(all: seq<SnapCandidate>) returns (i: nat)
    requires all != []
    ensures i < |all| && BestOf(all) == Some(all[i])
    ensures forall j :: 0 <= j < |all| ==> !Ahead(all[j], all[i])
    ensures forall j :: 0 <= j < i ==> Ahead(all[i], all[j])
  {
    var init := all[..|all| - 1];
    var c := all[|all| - 1];
    if init == [] {
      i := 0;
    } else {
      var k := BestOfFirstLeast(init);
      assert forall j :: 0 <= j < |init| ==> init[j] == all[j];
      if Ahead(c, init[k]) {
        i := |all| - 1;
      } else {
        i := k;
      }
    }
  }

  /** Every candidate carries the rank of its kind. */
  lemma {:induction false} RanksFollowKinds(g: Geometry, w: Vec2, lineStart: Option<Vec2>, es: seq<RenderEntity>)
    ensures forall c :: c in AllCands(g, w, lineStart, es) ==> c.rank == Rank(c.kind)
    ensures lineStart.None? ==> forall c :: c in AllCands(g, w, lineStart, es) ==> c.kind != Intersection
  {
    LineCandsKinds(g.math, w, es);
    if lineStart.Some? {
      InterCandsKinds(g, w, lineStart.value, es);
    }
  }

  lemma {:induction false} LineCandsKinds(math: Math, w: Vec2, es: seq<RenderEntity>)
    ensures forall c :: c in LineCands(math, w, es) ==> c.rank == Rank(c.kind) && c.kind != Intersection
  {
    if es != [] {
      LineCandsKinds(math, w, es[..|es| - 1]);
    }
  }

  lemma {:induction false} InterCandsKinds(g: Geometry, w: Vec2, start: Vec2, es: seq<RenderEntity>)
    ensures forall c :: c in InterCands(g, w, start, es) ==> c.rank == 1 && c.kind == Intersection
  {
    if es != [] {
      InterCandsKinds(g, w, start, es[..|es| - 1]);
    }
  }

  /** A Line entity's end points are among the candidates. */
  lemma {:induction false} LineEndsOffered(math: Math, w: Vec2, es: seq<RenderEntity>, i: nat)
    requires i < |es| && es[i].geom.DLine?
    ensures Cand(math, w, es[i].geom.a, Endpoint) in LineCands(math, w, es)
    ensures Cand(math, w, es[i].geom.b, Endpoint) in LineCands(math, w, es)
  {
    if i < |es| - 1 {
      LineEndsOffered(math, w, es[..|es| - 1], i);
    }
  }

  /**
   * Whenever the document holds a Line, the best snap is an end point, and
   * no end point of any Line is nearer than it.
   */
  lemma EndpointsWin(g: Geometry, w: Vec2, lineStart: Option<Vec2>, es: seq<RenderEntity>, i: nat)
    requires i < |es| && es[i].geom.DLine?
    ensures BestOf(AllCands(g, w, lineStart, es)).Some?
    ensures BestOf(AllCands(g, w, lineStart, es)).value.kind == Endpoint
    ensures BestOf(AllCands(g, w, lineStart, es)).value.dist <= Cand(g.math, w, es[i].geom.a, Endpoint).dist
    ensures BestOf(AllCands(g, w, lineStart, es)).value.dist <= Cand(g.math, w, es[i].geom.b, Endpoint).dist
  {
    var all := AllCands(g, w, lineStart, es);
    LineEndsOffered(g.math, w, es, i);
    var ca := Cand(g.math, w, es[i].geom.a, Endpoint);
    var cb := Cand(g.math, w, es[i].geom.b, Endpoint);
    assert ca in all && cb in all;
    var k := BestOfFirstLeast(all);
    RanksFollowKinds(g, w, lineStart, es);
    assert all[k] in all;
    var ja :| 0 <= ja < |all| && all[ja] == ca;
    var jb :| 0 <= jb < |all| && all[jb] == cb;
    assert !Ahead(all[ja], all[k]) && !Ahead(all[jb], all[k]);
  }

  /** The first loop: the end points and midpoints of the Line entities. */
  method CollectLineCands(math: Math, es: seq<RenderEntity>, w: Vec2) returns (all: seq<SnapCandidate>)
    ensures all == LineCands(math, w, es)
  {
    all := [];
    var i := 0;
    while i < |es|
      invariant 0 <= i <= |es|
      invariant all == LineCands(math, w, es[..i])
    {
      assert es[..i + 1][..i] == es[..i];
      var e := es[i];
      if e.geom.DLine? {
        var a, b := e.geom.a, e.geom.b;
        all := all + [Cand(math, w, a, Endpoint)];
        all := all + [Cand(math, w, b, Endpoint)];
        all := all + [Cand(math, w, Midpoint2(a, b), Midpoint)];
      }
      i := i + 1;
    }
    assert es[..i] == es;
  }

  /** One entity of the second loop: each intersection point becomes a candidate. */
  method CollectHits(g: Geometry, e: RenderEntity, w: Vec2, start: Vec2) returns (cs: seq<SnapCandidate>)
    ensures cs == HitCands(g, w, start, e)
  {
    cs := [];
    var res := g.intersect(ActiveLine(start, w), e.geom);
    if res.Ok? {
      var pts := res.value;
      var k := 0;
      while k < |pts|
        invariant 0 <= k <= |pts|
        invariant cs == seq(k, m requires 0 <= m < k => Cand(g.math, w, pts[m], Intersection))
      {
        cs := cs + [Cand(g.math, w, pts[k], Intersection)];
        k := k + 1;
      }
    }
  }

  /** The second loop: the rubber-band line against every entity. */
  method CollectInterCands(g: Geometry, es: seq<RenderEntity>, w: Vec2, start: Vec2) returns (all: seq<SnapCandidate>)
    ensures all == InterCands(g, w, start, es)
  {
    all := [];
    var i := 0;
    while i < |es|
      invariant 0 <= i <= |es|
      invariant all == InterCands(g, w, start, es[..i])
    {
      assert es[..i + 1][..i] == es[..i];
      var cs := CollectHits(g, es[i], w, start);
      all := all + cs;
      i := i + 1;
    }
    assert es[..i] == es;
  }

  /** The last loop: the scan for the best candidate. */
  method ScanBest(all: seq<SnapCandidate>) returns (best: Option<SnapCandidate>)
    ensures best == BestOf(all)
  {
    best := None;
    var i := 0;
    while i < |all|
      invariant 0 <= i <= |all|
      invariant best == BestOf(all[..i])
    {
      assert all[..i + 1][..i] == all[..i];
      var c := all[i];
      if best.None? || Ahead(c, best.value) {
        best := Some(c);
      }
      i := i + 1;
    }
    assert all[..i] == all;
  }

  /** `computeSnap`: every candidate in order, and the best of them. */
  method ComputeSnap(g: Geometry, es: seq<RenderEntity>, w: Vec2, lineStart: Option<Vec2>) returns (out: SnapResult)
    ensures out.all == AllCands(g, w, lineStart, es)
    ensures out.best == BestOf(out.all)
  {
    var all := CollectLineCands(g.math, es, w);
    if lineStart.Some? {
      var hits := CollectInterCands(g, es, w, lineStart.value);
      all := all + hits;
    }
    var best := ScanBest(all);
    out := SnapResult(all, best);
  }
}
