/**
 * apps/desktop/src/tools/scale_tool.cpp: scaling the selection about the
 * centre of the selected lines' box.  The press takes the centre, starts the
 * drag and opens an undo group; the ratio of the pointer's offset from the
 * centre to the press point's offset gives the factor on each axis (one
 * factor for both while Shift is held, a typed number for both when there is
 * one); the release commits the scale unless a factor is not positive.
 */
module ScaleTools {
  import opened Wrappers
  import opened Model
  import opened Desk
  import opened DocStores

  /** The file's `scl`: `p` scaled about `c` by `sx` across and `sy` down. */
  function Scl(p: Vec2, c: Vec2, sx: real, sy: real): Vec2
  {
    Vec2(c.x + (p.x - c.x) * sx, c.y + (p.y - c.y) * sy)
  }

  function ScaleBy(c: Vec2, f: Factors): Vec2 -> Vec2
  {
    (p: Vec2) => Scl(p, c, f.sx, f.sy)
  }

  datatype Factors = Factors(sx: real, sy: real)

  /** Offsets from the centre within 1e-9 of zero give no ratio on that axis. */
  const EPS: real := 0.000000001

  /**
   * The factors a gesture stands for: on each axis the current offset over
   * the press offset, where the press offset is not negligible; otherwise 1
   * across, and down the factor across.  Shift makes the factor down the
   * factor across, and a typed number is both.
   */
  function ScaleFactors(c: Vec2, start: Vec2, cur: Vec2, shift: bool, n: Option<real>): Factors
  {
    var dx0, dy0 := start.x - c.x, start.y - c.y;
    var dx1, dy1 := cur.x - c.x, cur.y - c.y;
    var sx := if Abs(dx0) > EPS then dx1 / dx0 else 1.0;
    var sy := if Abs(dy0) > EPS then dy1 / dy0 else sx;
    var sy1 := if shift then sx else sy;
    if n.Some? then Factors(n.value, n.value) else Factors(sx, sy1)
  }

  /** A scale the kernel is not asked for: a factor that is zero or negative. */
  predicate Degenerate(f: Factors)
  {
    f.sx <= 0.0 || f.sy <= 0.0
  }

  /**
   * The factor rules: a typed number is both factors; Shift makes them
   * equal; a measurable press offset maps onto the current offset; a
   * negligible one across gives 1 and down copies the factor across.
   */
  lemma FactorRules(c: Vec2, start: Vec2, cur: Vec2, shift: bool, n: Option<real>)
    ensures n.Some? ==> ScaleFactors(c, start, cur, shift, n) == Factors(n.value, n.value)
    ensures n.None? && shift ==> ScaleFactors(c, start, cur, shift, n).sx == ScaleFactors(c, start, cur, shift, n).sy
    ensures n.None? && Abs(start.x - c.x) > EPS ==>
      (start.x - c.x) * ScaleFactors(c, start, cur, shift, n).sx == cur.x - c.x
    ensures n.None? && !shift && Abs(start.y - c.y) > EPS ==>
      (start.y - c.y) * ScaleFactors(c, start, cur, shift, n).sy == cur.y - c.y
    ensures n.None? && Abs(start.x - c.x) <= EPS ==> ScaleFactors(c, start, cur, shift, n).sx == 1.0
    ensures n.None? && Abs(start.y - c.y) <= EPS ==>
      ScaleFactors(c, start, cur, shift, n).sy == ScaleFactors(c, start, cur, shift, n).sx
  {
  }

  /** With no typed number, the pointer back at the press point scales by one: nothing moves. */
  lemma PressPointIsIdentity(c: Vec2, start: Vec2, shift: bool, p: Vec2)
    ensures ScaleFactors(c, start, start, shift, None) == Factors(1.0, 1.0)
    ensures Scl(p, c, 1.0, 1.0) == p
  {
    var dx0, dy0 := start.x - c.x, start.y - c.y;
    if Abs(dx0) > EPS {
      DivSelf(dx0);
    }
    if Abs(dy0) > EPS {
      DivSelf(dy0);
    }
  }

  lemma DivSelf(x: real)
    requires x != 0.0
    ensures x / x == 1.0
  {
    var q := x / x;
    assert q * x == x;
    assert (q - 1.0) * x == 0.0;
  }

  /** The centre is fixed by every scale. */
  lemma CentreIsFixed(c: Vec2, f: Factors)
    ensures Scl(c, c, f.sx, f.sy) == c
  {
    assert (c.x - c.x) * f.sx == 0.0 && (c.y - c.y) * f.sy == 0.0;
  }

  const SCALE_GROUP: string := "Scale"

  function ScaleCall(doc: DeskDoc, ids: seq<string>, c: Vec2, f: Factors): Call
  {
    ApplyTransformSelection(doc, ids, ScaleAbout(c.x, c.y, f.sx, f.sy))
  }

  class ScaleTool {
    const store: DocStore
    const numeric: NumericInput
    var start: Option<Vec2>
    var center: Option<Vec2>
    var current: Option<Vec2>
    var base: seq<Seg>
    var preview: seq<Seg>
    var groupActive: bool

    /** A drag holds both points or neither, and a drag has a centre and an open group; between drags there is no base and no preview. */
    ghost predicate Valid()
      reads this, store
    {
      && store.Valid()
      && (start.Some? <==> current.Some?)
      && (start.Some? ==> center.Some? && groupActive)
      && (start.None? ==> base == [] && preview == [])
    }

    constructor (store: DocStore, parse: seq<KeyEvent> -> Option<real>)
      requires store.Valid()
      ensures Valid() && fresh(numeric)
      ensures this.store == store && numeric.parse == parse && numeric.keys == []
      ensures start.None? && center.None? && current.None? && !groupActive
    {
      this.store := store;
      numeric := new NumericInput(parse);
      start, center, current := None, None, None;
      base, preview := [], [];
      groupActive := false;
    }

    /** `refreshPreview`: the base scaled about the centre by the gesture's factors. */
    method RefreshPreview(shift: bool)
      requires start.Some? && current.Some? && center.Some?
      modifies this
      ensures start == old(start) && current == old(current) && center == old(center)
      ensures base == old(base) && groupActive == old(groupActive)
      ensures preview == Mapped(base, ScaleBy(center.value, ScaleFactors(center.value, start.value, current.value, shift, numeric.Value())))
    {
      var f := ScaleFactors(center.value, start.value, current.value, shift, numeric.Value());
      preview := MapSegs(base, ScaleBy(center.value, f));
    }

    /**
     * `onPointerDown`: refuse without a selection; recompute the centre from
     * the selected lines, and if there is one, start the drag at `w` and open
     * the group.
     */
    method OnPointerDown(w: Vec2, mods: Mods) returns (warn: Option<Warning>)
      requires Valid()
      modifies this, store
      ensures Valid()
      ensures old(store.selection) == [] ==>
        && warn == Some(Warning("Scale", Code("EDIT_NO_SELECTION")))
        && store.View() == old(store.View()) && center == old(center) && start == old(start)
      ensures old(store.selection) != [] ==>
        && warn.None?
        && center == CenterAfterRebuild(old(store.entities), old(store.selection), old(center))
        && (center.None? ==> store.View() == old(store.View()) && start == old(start))
        && (center.Some? ==>
              && start == Some(w) && current == Some(w) && groupActive
              && base == SelectedLines(old(store.entities), old(store.selection))
              && preview == Mapped(base, ScaleBy(center.value, ScaleFactors(center.value, w, w, mods.shift, numeric.Value())))
              && store.View() == if old(groupActive) then old(store.View()) else Sent(old(store.View()), BeginGroup(SCALE_GROUP)))
    {
      if store.selection == [] {
        return Some(Warning("Scale", Code("EDIT_NO_SELECTION")));
      }
      warn := None;
      center := RebuildCenter(store.entities, store.selection, center);
      if center.None? {
        return;
      }
      StartDrag(w, mods.shift);
    }

    /** The rest of a press once there is a centre: start the drag at `w` over the selected lines and open the group. */
    method StartDrag(w: Vec2, shift: bool)
      requires store.Valid() && center.Some?
      modifies this, store
      ensures Valid()
      ensures center == old(center) && start == Some(w) && current == Some(w) && groupActive
      ensures base == SelectedLines(old(store.entities), old(store.selection))
      ensures preview == Mapped(base, ScaleBy(center.value, ScaleFactors(center.value, w, w, shift, numeric.Value())))
      ensures store.View() == if old(groupActive) then old(store.View()) else Sent(old(store.View()), BeginGroup(SCALE_GROUP))
    {
      start, current := Some(w), Some(w);
      base := CollectSelectedLines(store.entities, store.selection);
      RefreshPreview(shift);
      if !groupActive {
        store.Send(BeginGroup(SCALE_GROUP));
        groupActive := true;
      }
    }

    /** `onPointerMove`: during a drag, follow the pointer. */
    method OnPointerMove(w: Vec2, mods: Mods)
      requires Valid()
      modifies this
      ensures Valid()
      ensures old(start).None? ==> current == old(current) && preview == old(preview)
      ensures old(start).Some? ==>
        && current == Some(w)
        && preview == Mapped(base, ScaleBy(center.value, ScaleFactors(center.value, start.value, w, mods.shift, numeric.Value())))
      ensures start == old(start) && center == old(center) && base == old(base) && groupActive == old(groupActive)
    {
      if start.None? {
        return;
      }
      current := Some(w);
      RefreshPreview(mods.shift);
    }

    /**
     * `onPointerUp`: a factor that is not positive warns and leaves the drag
     * and its group open; otherwise commit the scale about the centre, warn
     * on failure, close the group and reset.
     */
    method OnPointerUp(mods: Mods, reply: DocReply) returns (warn: Option<Warning>)
      requires Valid()
      modifies this, store, numeric
      ensures Valid()
      ensures old(start).None? ==> warn.None? && store.View() == old(store.View()) && numeric.keys == old(numeric.keys)
      ensures old(start).Some? ==>
        var f := ScaleFactors(old(center).value, old(start).value, old(current).value, mods.shift, old(numeric.Value()));
        && (Degenerate(f) ==>
              && warn == Some(Warning("Scale", Code("EDIT_TRANSFORM_WOULD_DEGENERATE")))
              && store.View() == old(store.View()) && numeric.keys == old(numeric.keys)
              && start == old(start) && current == old(current) && base == old(base) && preview == old(preview) && groupActive)
        && (!Degenerate(f) ==>
              && store.View() == Sent(Replied(old(store.View()), ScaleCall(old(store.document), old(store.selection), old(center).value, f), reply), EndGroup)
              && warn == FailureWarning("Scale failed", reply)
              && start.None? && current.None? && numeric.keys == [] && !groupActive)
      ensures center == old(center)
      ensures old(start).None? ==> start == old(start) && groupActive == old(groupActive)
    {
      if start.None? || current.None? || center.None? {
        return None;
      }
      var f := ScaleFactors(center.value, start.value, current.value, mods.shift, numeric.Value());
      if f.sx <= 0.0 || f.sy <= 0.0 {
        return Some(Warning("Scale", Code("EDIT_TRANSFORM_WOULD_DEGENERATE")));
      }
      store.Commit(ScaleCall(store.document, store.selection, center.value, f), reply);
      warn := FailureWarning("Scale failed", reply);
      store.Send(EndGroup);
      groupActive := false;
      start, current := None, None;
      preview, base := [], [];
      numeric.Clear();
    }

    /**
     * `onKeyPress`: Escape abandons the drag, Enter releases it; every key
     * then goes to the number entry and the preview follows.
     */
    method OnKeyPress(e: KeyEvent, mods: Mods, reply: DocReply) returns (warn: Option<Warning>)
      requires Valid()
      modifies this, store, numeric
      ensures Valid()
      ensures e.key == Escape ==>
        && store.View() == Sent(old(store.View()), EndGroup)
        && warn.None? && !groupActive && start.None? && numeric.keys == [e]
      ensures IsEnter(e) && old(start).Some? ==>
        var f := ScaleFactors(old(center).value, old(start).value, old(current).value, mods.shift, old(numeric.Value()));
        && (Degenerate(f) ==>
              && warn == Some(Warning("Scale", Code("EDIT_TRANSFORM_WOULD_DEGENERATE")))
              && store.View() == old(store.View()) && start == old(start)
              && numeric.keys == old(numeric.keys) + [e])
        && (!Degenerate(f) ==>
              && store.View() == Sent(Replied(old(store.View()), ScaleCall(old(store.document), old(store.selection), old(center).value, f), reply), EndGroup)
              && warn == FailureWarning("Scale failed", reply)
              && start.None? && numeric.keys == [e] && !groupActive)
      ensures e.key != Escape && !(IsEnter(e) && old(start).Some?) ==>
        && store.View() == old(store.View()) && warn.None?
        && start == old(start) && current == old(current) && groupActive == old(groupActive)
        && numeric.keys == old(numeric.keys) + [e]
      ensures start.Some? ==>
        && base == old(base)
        && preview == Mapped(base, ScaleBy(center.value, ScaleFactors(center.value, start.value, current.value, mods.shift, numeric.Value())))
      ensures center == old(center)
    {
      warn := None;
      if e.key == Escape {
        store.Send(EndGroup);
        groupActive := false;
        start, current := None, None;
        preview, base := [], [];
        numeric.Clear();
      }
      if IsEnter(e) {
        warn := OnPointerUp(mods, reply);
      }
      numeric.HandleKey(e);
      if current.Some? {
        RefreshPreview(mods.shift);
      }
    }
  }
}
