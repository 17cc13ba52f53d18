/**
 * apps/desktop/src/tools/rotate_tool.cpp: rotating the selection about a
 * centre.  Alt-clicking picks the centre; otherwise a press takes the centre
 * of the selected lines' box, starts the drag and opens an undo group.  The
 * angle swept about the centre, rounded to 15 degree steps while Shift is
 * held and overridden by a typed number of degrees, rotates the preview; the
 * release (or Enter) commits it and closes the group.  The modifier keys held
 * are a parameter of each event.
 */
module RotateTools {
  import opened Wrappers
  import opened Model
  import opened Rounding
  import opened Desk
  import opened DocStores

  /** The file's `rot`: `p` turned by `a` radians about `c`. */
  function Rot(math: Math, p: Vec2, c: Vec2, a: real): Vec2
  {
    var cc, ss := math.cos(a), math.sin(a);
    var x, y := p.x - c.x, p.y - c.y;
    Vec2(c.x + x * cc - y * ss, c.y + x * ss + y * cc)
  }

  function RotBy(math: Math, c: Vec2, a: real): Vec2 -> Vec2
  {
    (p: Vec2) => Rot(math, p, c, a)
  }

  /** The centre does not move, whatever the angle. */
  lemma CentreIsFixed(math: Math, c: Vec2, a: real)
    ensures Rot(math, c, c, a) == c
  {
    assert (c.x - c.x) * math.cos(a) == 0.0 && (c.y - c.y) * math.sin(a) == 0.0;
    assert (c.x - c.x) * math.sin(a) == 0.0 && (c.y - c.y) * math.cos(a) == 0.0;
  }

  /** Fifteen degrees in radians: the Shift step. */
  const STEP: real := 15.0 * PI / 180.0

  /** `std::round(angle / step) * step`. */
  function SnapToStep(angle: real): real
  {
    RoundHalfAway(angle / STEP) as real * STEP
  }

  /**
   * The angle a gesture stands for: the swept angle `atan2(current - c) -
   * atan2(start - c)`, rounded to the step under Shift; a typed number of
   * degrees replaces it.
   */
  function RotateAngle(math: Math, c: Vec2, start: Vec2, cur: Vec2, shift: bool, n: Option<real>): real
  {
    var a := math.atan2(cur.y - c.y, cur.x - c.x) - math.atan2(start.y - c.y, start.x - c.x);
    var a1 := if shift then SnapToStep(a) else a;
    if n.Some? then n.value * PI / 180.0 else a1
  }

  /** Shift gives a whole number of 15 degree steps, at most half a step from the swept angle; a typed number gives that many degrees. */
  lemma AngleRules(math: Math, c: Vec2, start: Vec2, cur: Vec2, shift: bool, n: Option<real>)
    ensures n.Some? ==> RotateAngle(math, c, start, cur, shift, n) == n.value * PI / 180.0
    ensures n.None? && shift ==>
      var a := math.atan2(cur.y - c.y, cur.x - c.x) - math.atan2(start.y - c.y, start.x - c.x);
      && RotateAngle(math, c, start, cur, shift, n) == RoundHalfAway(a / STEP) as real * STEP
      && a - STEP / 2.0 <= RotateAngle(math, c, start, cur, shift, n) <= a + STEP / 2.0
  {
    var a := math.atan2(cur.y - c.y, cur.x - c.x) - math.atan2(start.y - c.y, start.x - c.x);
    var k := RoundHalfAway(a / STEP);
    assert a / STEP - 0.5 <= k as real <= a / STEP + 0.5;
    assert (a / STEP - 0.5) * STEP == a - STEP / 2.0;
    assert (a / STEP + 0.5) * STEP == a + STEP / 2.0;
  }

  const ROTATE_GROUP: string := "Rotate"

  function RotateCall(doc: DeskDoc, ids: seq<string>, c: Vec2, angle: real): Call
  {
    ApplyTransformSelection(doc, ids, RotateAbout(c.x, c.y, angle))
  }

  class RotateTool {
    const store: DocStore
    const numeric: NumericInput
    const math: Math
    var start: Option<Vec2>
    var center: Option<Vec2>
    var current: Option<Vec2>
    var base: seq<Seg>
    var preview: seq<Seg>
    var groupActive: bool

    /** A drag holds both points or neither, and a drag has a centre and an open group; between drags there is no base and no preview. */
    ghost predicate Valid()
      reads this, store
    {
      && store.Valid()
      && (start.Some? <==> current.Some?)
      && (start.Some? ==> center.Some? && groupActive)
      && (start.None? ==> base == [] && preview == [])
    }

    constructor (store: DocStore, parse: seq<KeyEvent> -> Option<real>, math: Math)
      requires store.Valid()
      ensures Valid() && fresh(numeric)
      ensures this.store == store && this.math == math && numeric.parse == parse && numeric.keys == []
      ensures start.None? && center.None? && current.None? && !groupActive
    {
      this.store := store;
      numeric := new NumericInput(parse);
      this.math := math;
      start, center, current := None, None, None;
      base, preview := [], [];
      groupActive := false;
    }

    /** `refreshPreview`: the base turned about the centre by the gesture's angle. */
    method RefreshPreview(shift: bool)
      requires start.Some? && current.Some? && center.Some?
      modifies this
      ensures start == old(start) && current == old(current) && center == old(center)
      ensures base == old(base) && groupActive == old(groupActive)
      ensures preview == Mapped(base, RotBy(math, center.value, RotateAngle(math, center.value, start.value, current.value, shift, numeric.Value())))
    {
      var angle := RotateAngle(math, center.value, start.value, current.value, shift, numeric.Value());
      preview := MapSegs(base, RotBy(math, center.value, angle));
    }

    /**
     * `onPointerDown`: refuse without a selection; with Alt, only set the
     * centre; otherwise recompute the centre from the selected lines, and if
     * there is one, start the drag at `w` and open the group.
     */
    method OnPointerDown(w: Vec2, mods: Mods) returns (warn: Option<Warning>)
      requires Valid()
      modifies this, store
      ensures Valid()
      ensures old(store.selection) == [] ==>
        && warn == Some(Warning("Rotate", Code("EDIT_NO_SELECTION")))
        && store.View() == old(store.View()) && center == old(center) && start == old(start)
      ensures old(store.selection) != [] && mods.alt ==>
        && warn.None? && center == Some(w)
        && store.View() == old(store.View()) && start == old(start) && current == old(current)
      ensures old(store.selection) != [] && !mods.alt ==>
        && warn.None?
        && center == CenterAfterRebuild(old(store.entities), old(store.selection), old(center))
        && (center.None? ==> store.View() == old(store.View()) && start == old(start))
        && (center.Some? ==>
              && start == Some(w) && current == Some(w) && groupActive
              && base == SelectedLines(old(store.entities), old(store.selection))
              && preview == Mapped(base, RotBy(math, center.value, RotateAngle(math, center.value, w, w, mods.shift, numeric.Value())))
              && store.View() == if old(groupActive) then old(store.View()) else Sent(old(store.View()), BeginGroup(ROTATE_GROUP)))
    {
      if store.selection == [] {
        return Some(Warning("Rotate", Code("EDIT_NO_SELECTION")));
      }
      warn := None;
      if mods.alt {
        center := Some(w);
        return;
      }
      center := RebuildCenter(store.entities, store.selection, center);
      if center.None? {
        return;
      }
      StartDrag(w, mods.shift);
    }

    /** The rest of a press once there is a centre: start the drag at `w` over the selected lines and open the group. */
    method StartDrag(w: Vec2, shift: bool)
      requires store.Valid() && center.Some?
      modifies this, store
      ensures Valid()
      ensures center == old(center) && start == Some(w) && current == Some(w) && groupActive
      ensures base == SelectedLines(old(store.entities), old(store.selection))
      ensures preview == Mapped(base, RotBy(math, center.value, RotateAngle(math, center.value, w, w, shift, numeric.Value())))
      ensures store.View() == if old(groupActive) then old(store.View()) else Sent(old(store.View()), BeginGroup(ROTATE_GROUP))
    {
      start, current := Some(w), Some(w);
      base := CollectSelectedLines(store.entities, store.selection);
      RefreshPreview(shift);
      if !groupActive {
        store.Send(BeginGroup(ROTATE_GROUP));
        groupActive := true;
      }
    }

    /** `onPointerMove`: during a drag, follow the pointer. */
    method OnPointerMove(w: Vec2, mods: Mods)
      requires Valid()
      modifies this
      ensures Valid()
      ensures old(start).None? ==> current == old(current) && preview == old(preview)
      ensures old(start).Some? ==>
        && current == Some(w)
        && preview == Mapped(base, RotBy(math, center.value, RotateAngle(math, center.value, start.value, w, mods.shift, numeric.Value())))
      ensures start == old(start) && center == old(center) && base == old(base) && groupActive == old(groupActive)
    {
      if start.None? {
        return;
      }
      current := Some(w);
      RefreshPreview(mods.shift);
    }

    /** `onPointerUp`: commit the gesture's rotation about the centre, warn on failure, close the group and reset; the centre is kept. */
    method OnPointerUp(mods: Mods, reply: DocReply) returns (warn: Option<Warning>)
      requires Valid()
      modifies this, store, numeric
      ensures Valid()
      ensures old(start).None? ==> warn.None? && store.View() == old(store.View()) && numeric.keys == old(numeric.keys)
      ensures old(start).Some? ==>
        var angle := RotateAngle(math, old(center).value, old(start).value, old(current).value, mods.shift, old(numeric.Value()));
        && store.View() == Sent(Replied(old(store.View()), RotateCall(old(store.document), old(store.selection), old(center).value, angle), reply), EndGroup)
        && warn == FailureWarning("Rotate failed", reply)
        && start.None? && current.None? && numeric.keys == [] && !groupActive
      ensures center == old(center)
      ensures old(start).None? ==> start == old(start) && groupActive == old(groupActive)
    {
      if start.None? || current.None? || center.None? {
        return None;
      }
      var angle := RotateAngle(math, center.value, start.value, current.value, mods.shift, numeric.Value());
      store.Commit(RotateCall(store.document, store.selection, center.value, angle), reply);
      warn := FailureWarning("Rotate failed", reply);
      store.Send(EndGroup);
      groupActive := false;
      start, current := None, None;
      preview, base := [], [];
      numeric.Clear();
    }

    /**
     * `onKeyPress`: Escape abandons the drag, Enter releases it; every key
     * then goes to the number entry and the preview follows.
     */
    method OnKeyPress(e: KeyEvent, mods: Mods, reply: DocReply) returns (warn: Option<Warning>)
      requires Valid()
      modifies this, store, numeric
      ensures Valid()
      ensures e.key == Escape ==>
        && store.View() == Sent(old(store.View()), EndGroup)
        && warn.None? && !groupActive && start.None? && numeric.keys == [e]
      ensures IsEnter(e) && old(start).Some? ==>
        var angle := RotateAngle(math, old(center).value, old(start).value, old(current).value, mods.shift, old(numeric.Value()));
        && store.View() == Sent(Replied(old(store.View()), RotateCall(old(store.document), old(store.selection), old(center).value, angle), reply), EndGroup)
        && warn == FailureWarning("Rotate failed", reply)
        && start.None? && numeric.keys == [e] && !groupActive
      ensures e.key != Escape && !(IsEnter(e) && old(start).Some?) ==>
        && store.View() == old(store.View()) && warn.None?
        && start == old(start) && current == old(current) && groupActive == old(groupActive)
        && numeric.keys == old(numeric.keys) + [e]
      ensures start.Some? ==>
        && base == old(base)
        && preview == Mapped(base, RotBy(math, center.value, RotateAngle(math, center.value, start.value, current.value, mods.shift, numeric.Value())))
      ensures center == old(center)
    {
      warn := None;
      if e.key == Escape {
        store.Send(EndGroup);
        groupActive := false;
        start, current := None, None;
        preview, base := [], [];
        numeric.Clear();
      }
      if IsEnter(e) {
        warn := OnPointerUp(mods, reply);
      }
      numeric.HandleKey(e);
      if current.Some? {
        RefreshPreview(mods.shift);
      }
    }
  }
}
