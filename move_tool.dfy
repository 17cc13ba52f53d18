/**
 * apps/desktop/src/tools/move_tool.cpp: moving the selection by dragging.
 * The press takes the selected lines as the base of the preview and opens an
 * undo group; the drag vector, locked to an axis by X or Y and overridden by
 * a typed number, translates the preview; the release commits that
 * translation and closes the group.
 */
module MoveTools {
  import opened Wrappers
  import opened Model
  import opened Desk
  import opened DocStores

  datatype Axis = Free | AxisX | AxisY

  /** The X and Y keys: the key of the active axis frees it, otherwise locks to it. */
  function ToggleAxis(a: Axis, k: KeyName): (r: Axis)
    ensures k == KeyX ==> (r == AxisX <==> a != AxisX)
    ensures k == KeyY ==> (r == AxisY <==> a != AxisY)
    ensures k != KeyX && k != KeyY ==> r == a
  {
    var a1 := if k == KeyX then (if a == AxisX then Free else AxisX) else a;
    if k == KeyY then (if a1 == AxisY then Free else AxisY) else a1
  }

  /**
   * The translation the preview shows: the drag with the locked axis's other
   * component zeroed; a typed number then sets the locked component, or on a
   * free drag of non-zero length rescales the drag to that length.
   */
  function PreviewDelta(math: Math, axis: Axis, start: Vec2, cur: Vec2, n: Option<real>): Vec2
  {
    var dx := if axis == AxisY then 0.0 else cur.x - start.x;
    var dy := if axis == AxisX then 0.0 else cur.y - start.y;
    if n.None? then Vec2(dx, dy)
    else if axis == AxisX then Vec2(n.value, dy)
    else if axis == AxisY then Vec2(dx, n.value)
    else
      var len := Norm(math, Vec2(dx, dy));
      if len > 0.0 then Vec2(dx / len * n.value, dy / len * n.value) else Vec2(dx, dy)
  }

  /** The translation the release commits: the previewed one, except that a typed number on a free drag of zero length aborts. */
  function ReleaseDelta(math: Math, axis: Axis, start: Vec2, cur: Vec2, n: Option<real>): Option<Vec2>
  {
    if n.Some? && axis == Free && !(Norm(math, Diff(cur, start)) > 0.0) then None
    else Some(PreviewDelta(math, axis, start, cur, n))
  }

  /** What is committed is what was previewed, and only the zero-length free drag with a typed number aborts. */
  lemma ReleaseIsPreview(math: Math, axis: Axis, start: Vec2, cur: Vec2, n: Option<real>)
    ensures ReleaseDelta(math, axis, start, cur, n).None? <==> n.Some? && axis == Free && !(Norm(math, Diff(cur, start)) > 0.0)
    ensures ReleaseDelta(math, axis, start, cur, n).Some? ==>
      ReleaseDelta(math, axis, start, cur, n).value == PreviewDelta(math, axis, start, cur, n)
  {
  }

  /** Locking to X leaves no y movement and locking to Y no x movement; a typed number sets the locked component. */
  lemma AxisLockHolds(math: Math, axis: Axis, start: Vec2, cur: Vec2, n: Option<real>)
    ensures axis == AxisX ==> PreviewDelta(math, axis, start, cur, n).y == 0.0
    ensures axis == AxisY ==> PreviewDelta(math, axis, start, cur, n).x == 0.0
    ensures axis == AxisX && n.Some? ==> PreviewDelta(math, axis, start, cur, n).x == n.value
    ensures axis == AxisY && n.Some? ==> PreviewDelta(math, axis, start, cur, n).y == n.value
    ensures n.None? && axis == Free ==> PreviewDelta(math, axis, start, cur, n) == Diff(cur, start)
  {
  }

  const MOVE_GROUP: string := "Move"

  function MoveCall(doc: DeskDoc, ids: seq<string>, d: Vec2): Call
  {
    ApplyTransformSelection(doc, ids, Translate(d.x, d.y))
  }

  class MoveTool {
    const store: DocStore
    const numeric: NumericInput
    const math: Math
    var start: Option<Vec2>
    var current: Option<Vec2>
    var base: seq<Seg>
    var preview: seq<Seg>
    var axis: Axis
    var groupActive: bool

    /**
     * A drag holds both points or neither; during a drag the group is open
     * and the preview is the base moved by the previewed translation;
     * between drags there is no base and no preview.
     */
    ghost predicate Valid()
      reads this, store, numeric
    {
      && store.Valid()
      && (start.Some? <==> current.Some?)
      && (start.Some? ==> groupActive && preview == Mapped(base, ShiftBy(PreviewDelta(math, axis, start.value, current.value, numeric.Value()))))
      && (start.None? ==> base == [] && preview == [])
    }

    constructor (store: DocStore, parse: seq<KeyEvent> -> Option<real>, math: Math)
      requires store.Valid()
      ensures Valid() && fresh(numeric)
      ensures this.store == store && this.math == math && numeric.parse == parse && numeric.keys == []
      ensures start.None? && current.None? && axis == Free && !groupActive
    {
      this.store := store;
      numeric := new NumericInput(parse);
      this.math := math;
      start, current := None, None;
      base, preview := [], [];
      axis := Free;
      groupActive := false;
    }

    /** `refreshPreview`: the base moved by the current translation. */
    method RefreshPreview()
      requires start.Some? && current.Some?
      modifies this
      ensures start == old(start) && current == old(current) && base == old(base)
      ensures axis == old(axis) && groupActive == old(groupActive)
      ensures preview == Mapped(base, ShiftBy(PreviewDelta(math, axis, start.value, current.value, numeric.Value())))
    {
      var d := PreviewDelta(math, axis, start.value, current.value, numeric.Value());
      preview := MapSegs(base, ShiftBy(d));
    }

    /** `onPointerDown`: refuse without a selection; otherwise start the drag at `w` over the selected lines and open the group. */
    method OnPointerDown(w: Vec2) returns (warn: Option<Warning>)
      requires Valid()
      modifies this, store
      ensures Valid()
      ensures old(store.selection) == [] ==>
        && warn == Some(Warning("Move", Code("EDIT_NO_SELECTION")))
        && store.View() == old(store.View())
        && start == old(start) && current == old(current) && base == old(base) && preview == old(preview)
        && groupActive == old(groupActive)
      ensures old(store.selection) != [] ==>
        && warn.None?
        && start == Some(w) && current == Some(w)
        && base == SelectedLines(old(store.entities), old(store.selection))
        && groupActive
        && store.View() == if old(groupActive) then old(store.View()) else Sent(old(store.View()), BeginGroup(MOVE_GROUP))
      ensures axis == old(axis)
    {
      if store.selection == [] {
        return Some(Warning("Move", Code("EDIT_NO_SELECTION")));
      }
      warn := None;
      start, current := Some(w), Some(w);
      base := CollectSelectedLines(store.entities, store.selection);
      RefreshPreview();
      if !groupActive {
        store.Send(BeginGroup(MOVE_GROUP));
        groupActive := true;
      }
    }

    /** `onPointerMove`: during a drag, the pointer becomes the current point. */
    method OnPointerMove(w: Vec2)
      requires Valid()
      modifies this
      ensures Valid()
      ensures old(start).Some? ==> current == Some(w)
      ensures old(start).None? ==> current == old(current) && preview == old(preview)
      ensures start == old(start) && base == old(base) && axis == old(axis) && groupActive == old(groupActive)
    {
      if start.None? {
        return;
      }
      current := Some(w);
      RefreshPreview();
    }

    /**
     * `onPointerUp`: commit the translation the preview shows, warn if the
     * kernel refuses it, close the group and reset; a typed number on a free
     * drag of zero length warns instead and leaves everything, the group
     * included, as it was.
     */
    method OnPointerUp(reply: DocReply) returns (warn: Option<Warning>)
      requires Valid()
      modifies this, store, numeric
      ensures Valid()
      ensures old(start).None? ==> warn.None? && store.View() == old(store.View()) && numeric.keys == old(numeric.keys)
      ensures old(start).Some? ==>
        var d := ReleaseDelta(math, axis, old(start).value, old(current).value, old(numeric.Value()));
        && (d.None? ==>
              && warn == Some(Warning("Move", Code("EDIT_INVALID_NUMERIC")))
              && store.View() == old(store.View()) && numeric.keys == old(numeric.keys)
              && start == old(start) && current == old(current) && preview == old(preview) && groupActive)
        && (d.Some? ==>
              && store.View() == Sent(Replied(old(store.View()), MoveCall(old(store.document), old(store.selection), d.value), reply), EndGroup)
              && warn == FailureWarning("Move failed", reply)
              && start.None? && current.None? && base == [] && preview == [] && numeric.keys == [] && !groupActive)
      ensures axis == old(axis)
    {
      if start.None? {
        return None;
      }
      var d := ReleaseDelta(math, axis, start.value, current.value, numeric.Value());
      if d.None? {
        return Some(Warning("Move", Code("EDIT_INVALID_NUMERIC")));
      }
      store.Commit(MoveCall(store.document, store.selection, d.value), reply);
      warn := FailureWarning("Move failed", reply);
      store.Send(EndGroup);
      groupActive := false;
      start, current := None, None;
      numeric.Clear();
      preview, base := [], [];
    }

    /** `onKeyPress`: X and Y toggle the axis, Escape abandons the drag; every key goes to the number entry, and the preview follows. */
    method OnKeyPress(e: KeyEvent)
      requires Valid()
      modifies this, store, numeric
      ensures Valid()
      ensures axis == ToggleAxis(old(axis), e.key)
      ensures e.key == Escape ==>
        && store.View() == Sent(old(store.View()), EndGroup)
        && !groupActive && start.None? && current.None? && numeric.keys == [e]
      ensures e.key != Escape ==>
        && store.View() == old(store.View()) && groupActive == old(groupActive)
        && start == old(start) && current == old(current) && base == old(base)
        && numeric.keys == old(numeric.keys) + [e]
    {
      if e.key == KeyX {
        axis := if axis == AxisX then Free else AxisX;
      }
      if e.key == KeyY {
        axis := if axis == AxisY then Free else AxisY;
      }
      if e.key == Escape {
        store.Send(EndGroup);
        groupActive := false;
        start, current := None, None;
        numeric.Clear();
        preview, base := [], [];
      }
      numeric.HandleKey(e);
      if current.Some? {
        RefreshPreview();
      }
    }
  }
}
