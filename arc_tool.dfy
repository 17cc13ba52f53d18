/**
 * apps/desktop/src/tools/arc_tool.cpp: drawing an arc by centre, start and
 * end.  Presses snap the centre, then the start point, then the end point;
 * moves after the start move the end; the release takes the radius from the
 * start point and the two angles from the start and end points (the end
 * rounded to 15 degree steps under the angle lock, or set a typed number of
 * degrees past the start) and asks the kernel for a counter-clockwise arc.
 */
module ArcTools {
  import opened Wrappers
  import opened Model
  import opened Rounding
  import opened Desk
  import opened DocStores
  import opened Snap

  /** The angle lock's step: `M_PI / 12`. */
  const ARC_STEP: real := PI / 12.0

  /** The end angle committed: the end point's angle, on the step grid under the lock; a typed number of degrees is added to the start angle instead. */
  function EndAngle(math: Math, c: Vec2, s: Vec2, e: Vec2, lock: bool, deg: Option<real>): real
  {
    var a0 := math.atan2(s.y - c.y, s.x - c.x);
    var a1 := math.atan2(e.y - c.y, e.x - c.x);
    var a2 := if lock then RoundHalfAway(a1 / ARC_STEP) as real * ARC_STEP else a1;
    if deg.Some? then a0 + deg.value * PI / 180.0 else a2
  }

  /** Under the lock the end angle is a whole number of steps within half a step of the pointer's; a typed number sweeps that many degrees from the start. */
  lemma EndAngleRules(math: Math, c: Vec2, s: Vec2, e: Vec2, lock: bool, deg: Option<real>)
    ensures deg.Some? ==>
      EndAngle(math, c, s, e, lock, deg) - math.atan2(s.y - c.y, s.x - c.x) == deg.value * PI / 180.0
    ensures deg.None? && lock ==>
      var a1 := math.atan2(e.y - c.y, e.x - c.x);
      && EndAngle(math, c, s, e, lock, deg) == RoundHalfAway(a1 / ARC_STEP) as real * ARC_STEP
      && a1 - ARC_STEP / 2.0 <= EndAngle(math, c, s, e, lock, deg) <= a1 + ARC_STEP / 2.0
    ensures deg.None? && !lock ==> EndAngle(math, c, s, e, lock, deg) == math.atan2(e.y - c.y, e.x - c.x)
  {
    var a1 := math.atan2(e.y - c.y, e.x - c.x);
    var k := RoundHalfAway(a1 / ARC_STEP);
    assert a1 / ARC_STEP - 0.5 <= k as real <= a1 / ARC_STEP + 0.5;
    assert (a1 / ARC_STEP - 0.5) * ARC_STEP == a1 - ARC_STEP / 2.0;
    assert (a1 / ARC_STEP + 0.5) * ARC_STEP == a1 + ARC_STEP / 2.0;
  }

  function ArcCall(doc: DeskDoc, math: Math, c: Vec2, s: Vec2, e: Vec2, lock: bool, deg: Option<real>): Call
  {
    ApplyCreateArc(doc, FirstLayerId(doc), c, Norm(math, Diff(s, c)), math.atan2(s.y - c.y, s.x - c.x), EndAngle(math, c, s, e, lock, deg))
  }

  class ArcTool {
    const store: DocStore
    const numeric: NumericInput
    const math: Math
    var center: Option<Vec2>
    var start: Option<Vec2>
    var end: Option<Vec2>
    var snap: SnapResult
    var angleLock: bool

    /** The points are taken in order: a start needs a centre and an end needs a start. */
    ghost predicate Valid()
      reads this, store
    {
      && store.Valid()
      && (start.Some? ==> center.Some?)
      && (end.Some? ==> start.Some?)
    }

    constructor (store: DocStore, parse: seq<KeyEvent> -> Option<real>, math: Math)
      requires store.Valid()
      ensures Valid() && this.store == store && this.math == math && fresh(numeric)
      ensures numeric.parse == parse && numeric.keys == []
      ensures center.None? && start.None? && end.None? && !angleLock
    {
      this.store := store;
      numeric := new NumericInput(parse);
      this.math := math;
      center, start, end := None, None, None;
      snap := SnapResult([], None);
      angleLock := false;
    }

    /** `onPointerDown`: the snapped pointer fills the centre, then the start, then the end. */
    method OnPointerDown(g: Geometry, w: Vec2)
      requires Valid()
      modifies this
      ensures Valid()
      ensures snap == SnapResult(AllCands(g, w, None, store.entities), BestOf(AllCands(g, w, None, store.entities)))
      ensures old(center).None? ==> center == Some(SnapPoint(snap, w)) && start == old(start) && end == old(end)
      ensures old(center).Some? && old(start).None? ==> center == old(center) && start == Some(SnapPoint(snap, w)) && end == old(end)
      ensures old(center).Some? && old(start).Some? ==> center == old(center) && start == old(start) && end == Some(SnapPoint(snap, w))
      ensures angleLock == old(angleLock)
    {
      snap := ComputeSnap(g, store.entities, w, None);
      var pt := SnapPoint(snap, w);
      if center.None? {
        center := Some(pt);
      } else if start.None? {
        start := Some(pt);
      } else {
        end := Some(pt);
      }
    }

    /** `onPointerMove`: with a centre and a start, the end follows the pointer, snapped with the centre as anchor. */
    method OnPointerMove(g: Geometry, w: Vec2)
      requires Valid()
      modifies this
      ensures Valid()
      ensures center == old(center) && start == old(start) && angleLock == old(angleLock)
      ensures old(start).None? ==> end == old(end) && snap == old(snap)
      ensures old(start).Some? ==>
        && snap == SnapResult(AllCands(g, w, center, store.entities), BestOf(AllCands(g, w, center, store.entities)))
        && end == Some(SnapPoint(snap, w))
    {
      if center.None? || start.None? {
        return;
      }
      snap := ComputeSnap(g, store.entities, w, center);
      end := Some(SnapPoint(snap, w));
    }

    /**
     * `onPointerUp`: with all three points, a start on the centre warns of a
     * degenerate arc and drops the points (the typed number stays);
     * otherwise create the arc, warn when the kernel refuses it, and clear
     * the points and the number.
     */
    method OnPointerUp(reply: DocReply) returns (warn: Option<Warning>)
      requires Valid()
      modifies this, store, numeric
      ensures Valid()
      ensures angleLock == old(angleLock)
      ensures old(end).None? ==>
        && warn.None? && store.View() == old(store.View()) && numeric.keys == old(numeric.keys)
        && center == old(center) && start == old(start)
      ensures old(end).Some? ==>
        var c, s := old(center).value, old(start).value;
        && center.None? && start.None? && end.None?
        && (!(Norm(math, Diff(s, c)) > 0.0) ==>
              && warn == Some(Warning("Arc", Code("GEOM_DEGENERATE")))
              && store.View() == old(store.View()) && numeric.keys == old(numeric.keys))
        && (Norm(math, Diff(s, c)) > 0.0 ==>
              && store.View() == Replied(old(store.View()), ArcCall(old(store.document), math, c, s, old(end).value, angleLock, old(numeric.Value())), reply)
              && warn == FailureWarning("Arc", reply)
              && numeric.keys == [])
    {
      if center.None? || start.None? || end.None? {
        return None;
      }
      var c, s := center.value, start.value;
      var r := Norm(math, Diff(s, c));
      if r <= 0.0 {
        center, start, end := None, None, None;
        return Some(Warning("Arc", Code("GEOM_DEGENERATE")));
      }
      store.Commit(ArcCall(store.document, math, c, s, end.value, angleLock, numeric.Value()), reply);
      warn := FailureWarning("Arc", reply);
      center, start, end := None, None, None;
      numeric.Clear();
    }

    /** `onKeyPress`: A toggles the angle lock, Escape drops the points and the number; every key goes to the number entry. */
    method OnKeyPress(e: KeyEvent)
      requires Valid()
      modifies this, numeric
      ensures Valid()
      ensures angleLock == (old(angleLock) != (e.key == KeyA))
      ensures e.key == Escape ==> center.None? && start.None? && end.None? && numeric.keys == [e]
      ensures e.key != Escape ==>
        center == old(center) && start == old(start) && end == old(end) && numeric.keys == old(numeric.keys) + [e]
    {
      if e.key == KeyA {
        angleLock := !angleLock;
      }
      if e.key == Escape {
        center, start, end := None, None, None;
        numeric.Clear();
      }
      numeric.HandleKey(e);
    }
  }
}
