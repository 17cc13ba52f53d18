/**
 * apps/desktop/src/tools/line_tool.cpp: drawing a line by dragging.  The
 * press snaps the start point and opens an undo group; moving snaps the end
 * (anchored at the start, so intersections are offered) and then applies the
 * horizontal or vertical constraint; the release commits the line, with a
 * typed length if there is one, and closes the group.
 */
module LineTools {
  import opened Wrappers
  import opened Model
  import opened Desk
  import opened DocStores
  import opened Snap

  datatype Constraint = NoConstraint | Horizontal | Vertical

  /** `applyConstraint`: a horizontal line keeps the start's y, a vertical one its x. */
  function ApplyConstraint(c: Constraint, start: Vec2, end: Vec2): (r: Vec2)
    ensures c == Horizontal ==> r.y == start.y && r.x == end.x
    ensures c == Vertical ==> r.x == start.x && r.y == end.y
    ensures c == NoConstraint ==> r == end
  {
    match c
    case NoConstraint => end
    case Horizontal => end.(y := start.y)
    case Vertical => end.(x := start.x)
  }

  /** Applying the constraint twice is applying it once. */
  lemma ConstraintIdempotent(c: Constraint, start: Vec2, end: Vec2)
    ensures ApplyConstraint(c, start, ApplyConstraint(c, start, end)) == ApplyConstraint(c, start, end)
  {
  }

  /** The H and V keys: pressing the key of the active constraint turns it off, otherwise selects it. */
  function Toggle(c: Constraint, k: KeyName): (r: Constraint)
    ensures k == KeyH ==> (r == Horizontal <==> c != Horizontal)
    ensures k == KeyV ==> (r == Vertical <==> c != Vertical)
    ensures k != KeyH && k != KeyV ==> r == c
  {
    var c1 := if k == KeyH then (if c == Horizontal then NoConstraint else Horizontal) else c;
    if k == KeyV then (if c1 == Vertical then NoConstraint else Vertical) else c1
  }

  /**
   * The end committed on release.  With a typed length and a drag of
   * non-zero length, the line runs that length from the start: along +x
   * when horizontal, along +y when vertical, otherwise along the drag.
   */
  function ReleaseEnd(math: Math, c: Constraint, start: Vec2, end: Vec2, len: Option<real>): Vec2
  {
    var d := Diff(end, start);
    var n := Norm(math, d);
    if len.None? || !(n > 0.0) then end
    else
      var dir := match c
        case Horizontal => Vec2(1.0, 0.0)
        case Vertical => Vec2(0.0, 1.0)
        case NoConstraint => Vec2(d.x / n, d.y / n);
      Vec2(start.x + dir.x * len.value, start.y + dir.y * len.value)
  }

  /** A typed length on a constrained line puts the end exactly that far along the axis. */
  lemma TypedLengthOnAxis(math: Math, c: Constraint, start: Vec2, end: Vec2, len: real)
    requires Norm(math, Diff(end, start)) > 0.0
    ensures c == Horizontal ==> ReleaseEnd(math, c, start, end, Some(len)) == Vec2(start.x + len, start.y)
    ensures c == Vertical ==> ReleaseEnd(math, c, start, end, Some(len)) == Vec2(start.x, start.y + len)
  {
  }

  /** Without a typed length, or on a zero-length drag, the dragged end is committed as it is. */
  lemma UntypedKeepsEnd(math: Math, c: Constraint, start: Vec2, end: Vec2, len: Option<real>)
    requires len.None? || !(Norm(math, Diff(end, start)) > 0.0)
    ensures ReleaseEnd(math, c, start, end, len) == end
  {
  }

  /** The create-line call for the document's first layer. */
  function LineCall(doc: DeskDoc, start: Vec2, end: Vec2): Call
  {
    ApplyCreateLine(doc, FirstLayerId(doc), start, end)
  }

  const LINE_GROUP: string := "LineToolDrag"

  /** The store as a press leaves it: the line tool's group opened unless one already was. */
  function AfterDown(v: StoreView, groupActive: bool): StoreView
  {
    if groupActive then v else Sent(v, BeginGroup(LINE_GROUP))
  }

  class LineTool {
    const store: DocStore
    const numeric: NumericInput
    const math: Math
    var start: Option<Vec2>
    var end: Option<Vec2>
    var snap: SnapResult
    var constraint: Constraint
    var groupActive: bool

    /** A gesture holds both its points or neither, and a gesture in progress has its group open. */
    ghost predicate Valid()
      reads this, store
    {
      && store.Valid()
      && (start.Some? <==> end.Some?)
      && (start.Some? ==> groupActive)
    }

    constructor (store: DocStore, parse: seq<KeyEvent> -> Option<real>, math: Math)
      requires store.Valid()
      ensures Valid() && fresh(numeric)
      ensures this.store == store && this.math == math && numeric.parse == parse && numeric.keys == []
      ensures start.None? && end.None? && snap == SnapResult([], None)
      ensures constraint == NoConstraint && !groupActive
    {
      this.store := store;
      numeric := new NumericInput(parse);
      this.math := math;
      start, end := None, None;
      snap := SnapResult([], None);
      constraint := NoConstraint;
      groupActive := false;
    }

    /** `onPointerDown`: snap without an anchor, start (and end) there, and open the group if none is open. */
    method OnPointerDown(g: Geometry, w: Vec2)
      requires Valid()
      modifies this, store
      ensures Valid()
      ensures snap == SnapResult(AllCands(g, w, None, store.entities), BestOf(AllCands(g, w, None, store.entities)))
      ensures start == Some(SnapPoint(snap, w)) && end == start && groupActive
      ensures constraint == old(constraint)
      ensures store.View() == AfterDown(old(store.View()), old(groupActive))
      ensures store.entities == old(store.entities)
    {
      snap := ComputeSnap(g, store.entities, w, None);
      start := Some(SnapPoint(snap, w));
      end := start;
      if !groupActive {
        store.Send(BeginGroup(LINE_GROUP));
        groupActive := true;
      }
    }

    /** `onPointerMove`: during a gesture, snap anchored at the start, then constrain. */
    method OnPointerMove(g: Geometry, w: Vec2)
      requires Valid()
      modifies this
      ensures Valid()
      ensures old(start).None? ==> snap == old(snap) && end == old(end)
      ensures old(start).Some? ==>
        && snap == SnapResult(AllCands(g, w, old(start), store.entities), BestOf(AllCands(g, w, old(start), store.entities)))
        && end == Some(ApplyConstraint(constraint, old(start).value, SnapPoint(snap, w)))
      ensures start == old(start) && constraint == old(constraint) && groupActive == old(groupActive)
    {
      if start.None? {
        return;
      }
      snap := ComputeSnap(g, store.entities, w, start);
      end := Some(ApplyConstraint(constraint, start.value, SnapPoint(snap, w)));
    }

    /**
     * `onPointerUp`: with a gesture in progress, commit the line (warning
     * when the kernel refuses it), close the group, and reset the gesture
     * and the typed number.  The kernel's reply is a parameter.
     */
    method OnPointerUp(reply: DocReply) returns (warn: Option<Warning>)
      requires Valid()
      modifies this, store, numeric
      ensures Valid()
      ensures old(start).None? ==>
        && warn.None? && store.View() == old(store.View()) && numeric.keys == old(numeric.keys)
        && groupActive == old(groupActive)
      ensures old(start).Some? ==>
        var e := ReleaseEnd(math, constraint, old(start).value, old(end).value, old(numeric.Value()));
        && store.View() == Sent(Replied(old(store.View()), LineCall(old(store.document), old(start).value, e), reply), EndGroup)
        && warn == FailureWarning("Line commit failed", reply)
        && numeric.keys == [] && !groupActive
      ensures start.None? && end.None?
      ensures constraint == old(constraint) && snap == old(snap)
    {
      if start.None? || end.None? {
        return None;
      }
      var s := start.value;
      var e := ReleaseEnd(math, constraint, s, end.value, numeric.Value());
      store.Commit(LineCall(store.document, s, e), reply);
      warn := FailureWarning("Line commit failed", reply);
      store.Send(EndGroup);
      groupActive := false;
      start, end := None, None;
      numeric.Clear();
    }

    /** `onKeyPress`: H and V toggle the constraint, Escape abandons the gesture; every key goes to the number entry. */
    method OnKeyPress(e: KeyEvent)
      requires Valid()
      modifies this, store, numeric
      ensures Valid()
      ensures constraint == Toggle(old(constraint), e.key)
      ensures e.key == Escape ==>
        && store.View() == Sent(old(store.View()), EndGroup)
        && !groupActive && start.None? && end.None? && numeric.keys == [e]
      ensures e.key != Escape ==>
        && store.View() == old(store.View())
        && groupActive == old(groupActive) && start == old(start) && end == old(end)
        && numeric.keys == old(numeric.keys) + [e]
    {
      if e.key == KeyH {
        constraint := if constraint == Horizontal then NoConstraint else Horizontal;
      }
      if e.key == KeyV {
        constraint := if constraint == Vertical then NoConstraint else Vertical;
      }
      if e.key == Escape {
        store.Send(EndGroup);
        groupActive := false;
        start, end := None, None;
        numeric.Clear();
      }
      numeric.HandleKey(e);
    }
  }

  /**
   * A whole drag from an idle tool: the press, one move and the release
   * send exactly one undo group holding one create-line call, and leave the
   * tool idle with the typed number cleared.
   */
  method DragLine(t: LineTool, g: Geometry, p: Vec2, q: Vec2, reply: DocReply) returns (warn: Option<Warning>)
    requires t.Valid() && !t.groupActive
    modifies t, t.store, t.numeric
    ensures t.Valid()
    ensures exists s: Vec2, e: Vec2 ::
      t.store.sent == old(t.store.sent) + [BeginGroup(LINE_GROUP), LineCall(old(t.store.document), s, e), EndGroup]
    ensures t.store.document == (if reply.Ok? then reply.value else old(t.store.document))
    ensures warn == FailureWarning("Line commit failed", reply)
    ensures t.start.None? && t.end.None? && !t.groupActive && t.numeric.keys == []
  {
    t.OnPointerDown(g, p);
    t.OnPointerMove(g, q);
    ghost var s, e0 := t.start.value, t.end.value;
    ghost var e := ReleaseEnd(t.math, t.constraint, s, e0, t.numeric.Value());
    warn := t.OnPointerUp(reply);
    assert t.store.sent == old(t.store.sent) + [BeginGroup(LINE_GROUP), LineCall(old(t.store.document), s, e), EndGroup];
  }
}
