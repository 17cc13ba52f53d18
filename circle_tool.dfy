/**
 * apps/desktop/src/tools/circle_tool.cpp: drawing a circle by centre and
 * radius.  The first press snaps the centre, later presses and moves snap
 * the edge point; the release takes the radius from the edge, or from a
 * typed number, and asks the kernel for a centre-radius circle.
 */
module CircleTools {
  import opened Wrappers
  import opened Model
  import opened Desk
  import opened DocStores
  import opened Snap

  /** The radius committed: the typed number if there is one, otherwise the distance from the centre to the edge point. */
  function CircleRadius(math: Math, c: Vec2, edge: Vec2, n: Option<real>): real
  {
    if n.Some? then n.value else Norm(math, Diff(edge, c))
  }

  /** A radius that is not positive is refused before the kernel is asked. */
  predicate BadRadius(r: real)
  {
    r <= 0.0
  }

  function CircleCall(doc: DeskDoc, c: Vec2, r: real): Call
  {
    ApplyCreateCircle(doc, FirstLayerId(doc), c, r)
  }

  class CircleTool {
    const store: DocStore
    const numeric: NumericInput
    const math: Math
    var center: Option<Vec2>
    var edge: Option<Vec2>
    var snap: SnapResult

    /** An edge point is only ever taken once there is a centre. */
    ghost predicate Valid()
      reads this, store
    {
      store.Valid() && (edge.Some? ==> center.Some?)
    }

    constructor (store: DocStore, parse: seq<KeyEvent> -> Option<real>, math: Math)
      requires store.Valid()
      ensures Valid() && this.store == store && this.math == math && fresh(numeric)
      ensures numeric.parse == parse && numeric.keys == []
      ensures center.None? && edge.None?
    {
      this.store := store;
      numeric := new NumericInput(parse);
      this.math := math;
      center, edge := None, None;
      snap := SnapResult([], None);
    }

    /** `onPointerDown`: the snapped pointer becomes the centre, or once there is one, the edge point. */
    method OnPointerDown(g: Geometry, w: Vec2)
      requires Valid()
      modifies this
      ensures Valid()
      ensures snap == SnapResult(AllCands(g, w, None, store.entities), BestOf(AllCands(g, w, None, store.entities)))
      ensures old(center).None? ==> center == Some(SnapPoint(snap, w)) && edge == old(edge)
      ensures old(center).Some? ==> center == old(center) && edge == Some(SnapPoint(snap, w))
    {
      snap := ComputeSnap(g, store.entities, w, None);
      if center.None? {
        center := Some(SnapPoint(snap, w));
      } else {
        edge := Some(SnapPoint(snap, w));
      }
    }

    /** `onPointerMove`: with a centre, the edge point follows the pointer, snapped with the centre as anchor. */
    method OnPointerMove(g: Geometry, w: Vec2)
      requires Valid()
      modifies this
      ensures Valid()
      ensures center == old(center)
      ensures old(center).None? ==> edge == old(edge) && snap == old(snap)
      ensures old(center).Some? ==>
        && snap == SnapResult(AllCands(g, w, center, store.entities), BestOf(AllCands(g, w, center, store.entities)))
        && edge == Some(SnapPoint(snap, w))
    {
      if center.None? {
        return;
      }
      snap := ComputeSnap(g, store.entities, w, center);
      edge := Some(SnapPoint(snap, w));
    }

    /**
     * `onPointerUp`: with a centre and an edge point, a radius that is not
     * positive warns and drops both (the typed number stays); otherwise
     * create the circle, warn when the kernel refuses it, and clear both and
     * the number.
     */
    method OnPointerUp(reply: DocReply) returns (warn: Option<Warning>)
      requires Valid()
      modifies this, store, numeric
      ensures Valid()
      ensures old(edge).None? ==>
        warn.None? && store.View() == old(store.View()) && numeric.keys == old(numeric.keys) && center == old(center)
      ensures old(edge).Some? ==>
        var r := CircleRadius(math, old(center).value, old(edge).value, old(numeric.Value()));
        && center.None? && edge.None?
        && (BadRadius(r) ==>
              && warn == Some(Warning("Circle", Code("DRAW_INVALID_NUMERIC")))
              && store.View() == old(store.View()) && numeric.keys == old(numeric.keys))
        && (!BadRadius(r) ==>
              && store.View() == Replied(old(store.View()), CircleCall(old(store.document), old(center).value, r), reply)
              && warn == FailureWarning("Circle", reply)
              && numeric.keys == [])
    {
      if center.None? || edge.None? {
        return None;
      }
      var r := CircleRadius(math, center.value, edge.value, numeric.Value());
      if r <= 0.0 {
        center, edge := None, None;
        return Some(Warning("Circle", Code("DRAW_INVALID_NUMERIC")));
      }
      store.Commit(CircleCall(store.document, center.value, r), reply);
      warn := FailureWarning("Circle", reply);
      center, edge := None, None;
      numeric.Clear();
    }

    /** `onKeyPress`: Escape drops the points and the number; every key goes to the number entry. */
    method OnKeyPress(e: KeyEvent)
      requires Valid()
      modifies this, numeric
      ensures Valid()
      ensures e.key == Escape ==> center.None? && edge.None? && numeric.keys == [e]
      ensures e.key != Escape ==> center == old(center) && edge == old(edge) && numeric.keys == old(numeric.keys) + [e]
    {
      if e.key == Escape {
        center, edge := None, None;
        numeric.Clear();
      }
      numeric.HandleKey(e);
    }
  }

  /**
   * A whole gesture from an idle tool: press at the centre, move to the edge
   * and release.  Exactly one create-circle call is made, with the snapped
   * centre and, when nothing is typed, the distance to the snapped edge, and
   * the tool is idle again.
   */
  method DrawCircle(t: CircleTool, g: Geometry, p: Vec2, q: Vec2, reply: DocReply) returns (warn: Option<Warning>)
    requires t.Valid() && t.center.None? && t.numeric.Value().None?
    modifies t, t.store, t.numeric
    ensures t.Valid() && t.center.None? && t.edge.None?
    ensures
      var c := SnapPoint(SnapResult(AllCands(g, p, None, old(t.store.entities)), BestOf(AllCands(g, p, None, old(t.store.entities)))), p);
      var e := SnapPoint(SnapResult(AllCands(g, q, Some(c), old(t.store.entities)), BestOf(AllCands(g, q, Some(c), old(t.store.entities)))), q);
      var r := Norm(t.math, Diff(e, c));
      && (BadRadius(r) ==> t.store.View() == old(t.store.View()))
      && (!BadRadius(r) ==> t.store.sent == old(t.store.sent) + [CircleCall(old(t.store.document), c, r)])
  {
    t.OnPointerDown(g, p);
    t.OnPointerMove(g, q);
    warn := t.OnPointerUp(reply);
  }
}
