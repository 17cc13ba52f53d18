/**
 * apps/desktop/src/tools/polyline_tool.cpp: drawing a polyline vertex by
 * vertex.  Each press snaps (anchored at the last vertex), applies the
 * horizontal and vertical locks and a typed length, and appends the vertex;
 * Enter commits an open polyline, C a closed one, Backspace drops the last
 * vertex.  The file reads the locks as `lockH` and `lockV`, which its header
 * declares as `lockH_` and `lockV_`; they are one pair of fields here.
 */
module PolylineTools {
  import opened Wrappers
  import opened Model
  import opened Desk
  import opened DocStores
  import opened Snap

  /**
   * Where a press puts the next vertex: the snapped point; after the first
   * vertex, the horizontal lock takes the last vertex's y, the vertical lock
   * its x, and a typed number, on a step of non-zero length, sets the step's
   * length.
   */
  function PlaceVertex(math: Math, pts: seq<Vec2>, p: Vec2, lockH: bool, lockV: bool, n: Option<real>): Vec2
  {
    if pts == [] then p
    else
      var last := pts[|pts| - 1];
      var p1 := if lockH then p.(y := last.y) else p;
      var p2 := if lockV then p1.(x := last.x) else p1;
      var d := Norm(math, Diff(p2, last));
      if n.Some? && d > 0.0 then Vec2(last.x + (p2.x - last.x) / d * n.value, last.y + (p2.y - last.y) / d * n.value)
      else p2
  }

  /** The locks hold whatever is typed: the horizontal lock keeps the last y, the vertical lock the last x. */
  lemma LocksHold(math: Math, pts: seq<Vec2>, p: Vec2, lockH: bool, lockV: bool, n: Option<real>)
    requires pts != []
    ensures lockH ==> PlaceVertex(math, pts, p, lockH, lockV, n).y == pts[|pts| - 1].y
    ensures lockV ==> PlaceVertex(math, pts, p, lockH, lockV, n).x == pts[|pts| - 1].x
    ensures n.None? && !lockH && !lockV ==> PlaceVertex(math, pts, p, lockH, lockV, n) == p
  {
    var last := pts[|pts| - 1];
    var p1 := if lockH then p.(y := last.y) else p;
    var p2 := if lockV then p1.(x := last.x) else p1;
    var d := Norm(math, Diff(p2, last));
    if n.Some? && d > 0.0 {
      ZeroStep(d, n.value);
    }
  }

  lemma ZeroStep(d: real, n: real)
    requires d > 0.0
    ensures 0.0 / d * n == 0.0
  {
  }

  /** The create-polyline call for the document's first layer. */
  function PolylineCall(doc: DeskDoc, pts: seq<Vec2>, closed: bool): Call
  {
    ApplyCreatePolyline(doc, FirstLayerId(doc), pts, closed)
  }

  class PolylineTool {
    const store: DocStore
    const numeric: NumericInput
    const math: Math
    var pts: seq<Vec2>
    var hover: Option<Vec2>
    var snap: SnapResult
    var lockH: bool
    var lockV: bool

    constructor (store: DocStore, parse: seq<KeyEvent> -> Option<real>, math: Math)
      ensures this.store == store && this.math == math && fresh(numeric)
      ensures numeric.parse == parse && numeric.keys == []
      ensures pts == [] && hover.None? && !lockH && !lockV
    {
      this.store := store;
      numeric := new NumericInput(parse);
      this.math := math;
      pts, hover := [], None;
      snap := SnapResult([], None);
      lockH, lockV := false, false;
    }

    /** The snap anchor: the last vertex, once there is one. */
    function Anchor(): Option<Vec2>
      reads this
    {
      if pts == [] then None else Some(pts[|pts| - 1])
    }

    /** `onPointerDown`: snap, place the vertex and append it; the hover point and the typed number are cleared. */
    method OnPointerDown(g: Geometry, w: Vec2)
      modifies this, numeric
      ensures snap == SnapResult(AllCands(g, w, old(Anchor()), store.entities), BestOf(AllCands(g, w, old(Anchor()), store.entities)))
      ensures pts == old(pts) + [PlaceVertex(math, old(pts), SnapPoint(snap, w), lockH, lockV, old(numeric.Value()))]
      ensures hover.None? && numeric.keys == []
      ensures lockH == old(lockH) && lockV == old(lockV)
    {
      snap := ComputeSnap(g, store.entities, w, Anchor());
      var p := PlaceVertex(math, pts, SnapPoint(snap, w), lockH, lockV, numeric.Value());
      pts := pts + [p];
      hover := None;
      numeric.Clear();
    }

    /** `onPointerMove`: after the first vertex, the hover point is the snapped pointer with the locks applied. */
    method OnPointerMove(g: Geometry, w: Vec2)
      modifies this
      ensures pts == old(pts) && lockH == old(lockH) && lockV == old(lockV)
      ensures old(pts) == [] ==> hover == old(hover) && snap == old(snap)
      ensures old(pts) != [] ==>
        var last := pts[|pts| - 1];
        var p := SnapPoint(snap, w);
        && snap == SnapResult(AllCands(g, w, Some(last), store.entities), BestOf(AllCands(g, w, Some(last), store.entities)))
        && hover == Some(Vec2(if lockV then last.x else p.x, if lockH then last.y else p.y))
    {
      if pts == [] {
        return;
      }
      var last := pts[|pts| - 1];
      snap := ComputeSnap(g, store.entities, w, Some(last));
      var h := SnapPoint(snap, w);
      if lockH {
        h := h.(y := last.y);
      }
      if lockV {
        h := h.(x := last.x);
      }
      hover := Some(h);
    }

    /**
     * `commit(closed)`: fewer than two vertices warn and drop the vertices
     * (the typed number stays); otherwise create the polyline, warn when the
     * kernel refuses it, and clear everything.
     */
    method Commit(closed: bool, reply: DocReply) returns (warn: Option<Warning>)
      requires store.Valid()
      modifies this, store, numeric
      ensures store.Valid()
      ensures pts == [] && hover.None?
      ensures |old(pts)| < 2 ==>
        && warn == Some(Warning("Polyline", Code("DRAW_INSUFFICIENT_INPUT")))
        && store.View() == old(store.View()) && numeric.keys == old(numeric.keys)
      ensures |old(pts)| >= 2 ==>
        && store.View() == Replied(old(store.View()), PolylineCall(old(store.document), old(pts), closed), reply)
        && warn == FailureWarning("Polyline", reply)
        && numeric.keys == []
      ensures lockH == old(lockH) && lockV == old(lockV)
    {
      if |pts| < 2 {
        pts, hover := [], None;
        return Some(Warning("Polyline", Code("DRAW_INSUFFICIENT_INPUT")));
      }
      store.Commit(PolylineCall(store.document, pts, closed), reply);
      warn := FailureWarning("Polyline", reply);
      pts, hover := [], None;
      numeric.Clear();
    }

    /**
     * `onKeyPress`: H and V toggle the locks, Escape drops the vertices,
     * Enter commits open and C closed, Backspace drops the last vertex; every
     * key then goes to the number entry.
     */
    method OnKeyPress(e: KeyEvent, reply: DocReply) returns (warn: Option<Warning>)
      requires store.Valid()
      modifies this, store, numeric
      ensures store.Valid()
      ensures lockH == (old(lockH) != (e.key == KeyH)) && lockV == (old(lockV) != (e.key == KeyV))
      ensures e.key == Escape ==> pts == [] && hover.None? && numeric.keys == [e] && store.View() == old(store.View())
      ensures IsEnter(e) || e.key == KeyC ==>
        var closed := e.key == KeyC;
        && pts == []
        && (|old(pts)| < 2 ==>
              warn == Some(Warning("Polyline", Code("DRAW_INSUFFICIENT_INPUT"))) && store.View() == old(store.View())
              && numeric.keys == old(numeric.keys) + [e])
        && (|old(pts)| >= 2 ==>
              && store.View() == Replied(old(store.View()), PolylineCall(old(store.document), old(pts), closed), reply)
              && warn == FailureWarning("Polyline", reply) && numeric.keys == [e])
      ensures e.key == Backspace ==> pts == (if old(pts) == [] then [] else old(pts)[..|old(pts)| - 1])
      ensures e.key != Escape && !IsEnter(e) && e.key != KeyC ==>
        store.View() == old(store.View()) && warn.None? && numeric.keys == old(numeric.keys) + [e]
      ensures e.key != Escape && !IsEnter(e) && e.key != KeyC && e.key != Backspace ==> pts == old(pts) && hover == old(hover)
    {
      warn := None;
      if e.key == KeyH {
        lockH := !lockH;
      }
      if e.key == KeyV {
        lockV := !lockV;
      }
      if e.key == Escape {
        pts, hover := [], None;
        numeric.Clear();
      }
      if IsEnter(e) {
        warn := Commit(false, reply);
      }
      if e.key == KeyC {
        warn := Commit(true, reply);
      }
      if e.key == Backspace && pts != [] {
        pts := pts[..|pts| - 1];
      }
      numeric.HandleKey(e);
    }
  }
}
