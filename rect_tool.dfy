/**
 * apps/desktop/src/tools/rect_tool.cpp: drawing a rectangle by its
 * diagonal.  The press snaps the first corner; moving snaps the opposite
 * corner (anchored at the first) and applies the horizontal and vertical
 * locks; the release rescales the diagonal to a typed length and asks the
 * kernel for a two-point rectangle with sharp corners.
 */
module RectTools {
  import opened Wrappers
  import opened Model
  import opened Desk
  import opened DocStores
  import opened Snap

  /** The opposite corner under the locks: horizontal keeps the first corner's y, vertical its x. */
  function Locked(p0: Vec2, p: Vec2, lockH: bool, lockV: bool): (r: Vec2)
    ensures r.y == (if lockH then p0.y else p.y)
    ensures r.x == (if lockV then p0.x else p.x)
  {
    var p1 := if lockH then p.(y := p0.y) else p;
    if lockV then p1.(x := p0.x) else p1
  }

  /** The corner committed: with a typed length and a diagonal of non-zero length, the diagonal is stretched to that length. */
  function ReleaseCorner(math: Math, p0: Vec2, p1: Vec2, len: Option<real>): Vec2
  {
    var dx, dy := p1.x - p0.x, p1.y - p0.y;
    var n := Norm(math, Vec2(dx, dy));
    if len.Some? && n > 0.0 then Vec2(p0.x + dx / n * len.value, p0.y + dy / n * len.value) else p1
  }

  /** Without a typed length, or on a zero diagonal, the dragged corner is committed as it is; with one, the direction is kept. */
  lemma ReleaseCornerRules(math: Math, p0: Vec2, p1: Vec2, len: Option<real>)
    ensures len.None? || !(Norm(math, Diff(p1, p0)) > 0.0) ==> ReleaseCorner(math, p0, p1, len) == p1
    ensures len.Some? && Norm(math, Diff(p1, p0)) > 0.0 ==>
      var n := Norm(math, Diff(p1, p0));
      Diff(ReleaseCorner(math, p0, p1, len), p0) == Rescaled(Diff(p1, p0), n, len.value)
  {
  }

  function RectCall(doc: DeskDoc, p0: Vec2, p1: Vec2): Call
  {
    ApplyCreateRect(doc, FirstLayerId(doc), p0, p1)
  }

  class RectTool {
    const store: DocStore
    const numeric: NumericInput
    const math: Math
    var p0: Option<Vec2>
    var p1: Option<Vec2>
    var snap: SnapResult
    var lockH: bool
    var lockV: bool

    /** The two corners are set together and cleared together. */
    ghost predicate Valid()
      reads this, store
    {
      store.Valid() && (p0.Some? <==> p1.Some?)
    }

    constructor (store: DocStore, parse: seq<KeyEvent> -> Option<real>, math: Math)
      requires store.Valid()
      ensures Valid() && this.store == store && this.math == math && fresh(numeric)
      ensures numeric.parse == parse && numeric.keys == []
      ensures p0.None? && !lockH && !lockV
    {
      this.store := store;
      numeric := new NumericInput(parse);
      this.math := math;
      p0, p1 := None, None;
      snap := SnapResult([], None);
      lockH, lockV := false, false;
    }

    /** `onPointerDown`: both corners at the snapped pointer. */
    method OnPointerDown(g: Geometry, w: Vec2)
      requires Valid()
      modifies this
      ensures Valid()
      ensures snap == SnapResult(AllCands(g, w, None, store.entities), BestOf(AllCands(g, w, None, store.entities)))
      ensures p0 == Some(SnapPoint(snap, w)) && p1 == p0
      ensures lockH == old(lockH) && lockV == old(lockV)
    {
      snap := ComputeSnap(g, store.entities, w, None);
      p0 := Some(SnapPoint(snap, w));
      p1 := p0;
    }

    /** `onPointerMove`: with a first corner, the opposite corner is the snapped pointer under the locks. */
    method OnPointerMove(g: Geometry, w: Vec2)
      requires Valid()
      modifies this
      ensures Valid()
      ensures p0 == old(p0) && lockH == old(lockH) && lockV == old(lockV)
      ensures old(p0).None? ==> p1 == old(p1) && snap == old(snap)
      ensures old(p0).Some? ==>
        && snap == SnapResult(AllCands(g, w, p0, store.entities), BestOf(AllCands(g, w, p0, store.entities)))
        && p1 == Some(Locked(p0.value, SnapPoint(snap, w), lockH, lockV))
    {
      if p0.None? {
        return;
      }
      snap := ComputeSnap(g, store.entities, w, p0);
      p1 := Some(Locked(p0.value, SnapPoint(snap, w), lockH, lockV));
    }

    /**
     * `onPointerUp`: both locks at once warn of a conflict and drop the
     * corners (the typed number stays); otherwise create the rectangle, warn
     * when the kernel refuses it, and clear the corners and the number.
     */
    method OnPointerUp(reply: DocReply) returns (warn: Option<Warning>)
      requires Valid()
      modifies this, store, numeric
      ensures Valid()
      ensures old(p0).None? ==> warn.None? && store.View() == old(store.View()) && numeric.keys == old(numeric.keys)
      ensures old(p0).Some? && lockH && lockV ==>
        && warn == Some(Warning("Rect", Code("DRAW_CONSTRAINT_CONFLICT")))
        && store.View() == old(store.View()) && numeric.keys == old(numeric.keys)
      ensures old(p0).Some? && !(lockH && lockV) ==>
        var c := ReleaseCorner(math, old(p0).value, old(p1).value, old(numeric.Value()));
        && store.View() == Replied(old(store.View()), RectCall(old(store.document), old(p0).value, c), reply)
        && warn == FailureWarning("Rect", reply)
        && numeric.keys == []
      ensures old(p0).Some? ==> p0.None? && p1.None?
      ensures old(p0).None? ==> p0 == old(p0) && p1 == old(p1)
      ensures lockH == old(lockH) && lockV == old(lockV)
    {
      if p0.None? || p1.None? {
        return None;
      }
      if lockH && lockV {
        p0, p1 := None, None;
        return Some(Warning("Rect", Code("DRAW_CONSTRAINT_CONFLICT")));
      }
      var c := ReleaseCorner(math, p0.value, p1.value, numeric.Value());
      store.Commit(RectCall(store.document, p0.value, c), reply);
      warn := FailureWarning("Rect", reply);
      p0, p1 := None, None;
      numeric.Clear();
    }

    /** `onKeyPress`: H and V toggle the locks, Escape drops the corners and the number; every key goes to the number entry. */
    method OnKeyPress(e: KeyEvent)
      requires Valid()
      modifies this, numeric
      ensures Valid()
      ensures lockH == (old(lockH) != (e.key == KeyH)) && lockV == (old(lockV) != (e.key == KeyV))
      ensures e.key == Escape ==> p0.None? && p1.None? && numeric.keys == [e]
      ensures e.key != Escape ==> p0 == old(p0) && p1 == old(p1) && numeric.keys == old(numeric.keys) + [e]
    {
      if e.key == KeyH {
        lockH := !lockH;
      }
      if e.key == KeyV {
        lockV := !lockV;
      }
      if e.key == Escape {
        p0, p1 := None, None;
        numeric.Clear();
      }
      numeric.HandleKey(e);
    }
  }
}
