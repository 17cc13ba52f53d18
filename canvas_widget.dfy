/**
 * apps/desktop/src/canvas_widget.cpp: the canvas's event routing.  A left
 * press selects the entity under the pointer and starts a line; moves and
 * left releases go to the line tool; the wheel zooms the camera within
 * [0.05, 100]; the undo and redo shortcuts go to the store ahead of, and
 * instead of, the line tool's key handler.
 */
module Canvas {
  import opened Wrappers
  import opened Model
  import opened Desk
  import opened DocStores
  import opened HitTests
  import opened LineTools

  const MIN_ZOOM: real := 0.05
  const MAX_ZOOM: real := 100.0
  /** The canvas's pick radius in pixels. */
  const PICK_RADIUS: real := 8.0

  /** One wheel notch: a positive delta zooms in by 1.1, anything else zooms out by 1/1.1. */
  function ZoomFactor(deltaY: int): real
  {
    if deltaY > 0 then 1.1 else 1.0 / 1.1
  }

  /** The two clamps applied after the multiplication: the zoom always ends in [0.05, 100], unchanged when already inside. */
  function ClampZoom(z: real): (r: real)
    ensures MIN_ZOOM <= r <= MAX_ZOOM
    ensures MIN_ZOOM <= z <= MAX_ZOOM ==> r == z
    ensures z < MIN_ZOOM ==> r == MIN_ZOOM
    ensures z > MAX_ZOOM ==> r == MAX_ZOOM
  {
    var z1 := if z < MIN_ZOOM then MIN_ZOOM else z;
    if z1 > MAX_ZOOM then MAX_ZOOM else z1
  }

  /** The zoom after one wheel event. */
  function Wheeled(z: real, deltaY: int): real
  {
    ClampZoom(z * ZoomFactor(deltaY))
  }

  /** The zoom after a sequence of wheel events, in order. */
  function WheelAll(z: real, deltas: seq<int>): real
    decreases |deltas|
  {
    if deltas == [] then z else WheelAll(Wheeled(z, deltas[0]), deltas[1..])
  }

  /** However many wheel events arrive, the zoom stays in [0.05, 100] once it starts there. */
  lemma {:induction false} WheelSequenceStaysClamped(z: real, deltas: seq<int>)
    requires MIN_ZOOM <= z <= MAX_ZOOM
    ensures MIN_ZOOM <= WheelAll(z, deltas) <= MAX_ZOOM
    decreases |deltas|
  {
    if deltas != [] {
      WheelSequenceStaysClamped(Wheeled(z, deltas[0]), deltas[1..]);
    }
  }

  /** At either bound, a further notch in the same direction changes nothing. */
  lemma ZoomBoundsAreFixed(up: int, down: int)
    requires up > 0 && down <= 0
    ensures Wheeled(MAX_ZOOM, up) == MAX_ZOOM
    ensures Wheeled(MIN_ZOOM, down) == MIN_ZOOM
  {
  }

  /** Zooming in then out, away from the bounds, returns to the same zoom. */
  lemma ZoomInOutReturns(z: real)
    requires MIN_ZOOM <= z && z * 1.1 <= MAX_ZOOM
    ensures Wheeled(Wheeled(z, 1), 0) == z
  {
    assert z * 1.1 * (1.0 / 1.1) == z;
  }

  /** The selection a press leaves: the hit entity alone, or the selection as it was. */
  function PressSelects(v: StoreView, hit: Option<Hit>): StoreView
  {
    if hit.Some? then v.(selection := [hit.value.entityId]) else v
  }

  class CanvasWidget {
    const store: DocStore
    const camera: Camera
    const lineTool: LineTool

    /** The line tool works on the canvas's store and the camera's zoom is within its clamp. */
    ghost predicate Valid()
      reads this, store, camera, lineTool
    {
      && lineTool.store == store
      && lineTool.Valid()
      && MIN_ZOOM <= camera.zoom <= MAX_ZOOM
    }

    /** The camera's initial zoom belongs to camera.h and is a parameter here. */
    constructor (store: DocStore, parse: seq<KeyEvent> -> Option<real>, math: Math, zoom: real)
      requires store.Valid() && MIN_ZOOM <= zoom <= MAX_ZOOM
      ensures Valid() && this.store == store && camera.zoom == zoom
      ensures fresh(camera) && fresh(lineTool) && fresh(lineTool.numeric)
    {
      this.store := store;
      camera := new Camera(zoom);
      lineTool := new LineTool(store, parse, math);
    }

    /**
     * `mousePressEvent`: a left press hit-tests with an 8-pixel radius, makes
     * the hit entity the whole selection, and passes the press to the line
     * tool; any other button does nothing.
     */
    method MousePress(left: bool, g: Geometry, w: Vec2)
      requires Valid()
      modifies store, lineTool
      ensures Valid()
      ensures !left ==> store.View() == old(store.View()) && lineTool.start == old(lineTool.start)
      ensures left ==>
        var hit := BestHit(Hits(g, old(store.entities), w, PICK_RADIUS / camera.zoom));
        && store.View() == AfterDown(PressSelects(old(store.View()), hit), old(lineTool.groupActive))
        && (hit.Some? ==> store.selection == [hit.value.entityId])
        && (hit.None? ==> store.selection == old(store.selection))
        && lineTool.start.Some?
    {
      if !left {
        return;
      }
      var hit := HitTest(g, store.entities, camera.zoom, w, PICK_RADIUS);
      if hit.Some? {
        store.SetSingle(hit.value.entityId);
      }
      lineTool.OnPointerDown(g, w);
    }

    /** `mouseMoveEvent`: straight to the line tool. */
    method MouseMove(g: Geometry, w: Vec2)
      requires Valid()
      modifies lineTool
      ensures Valid()
      ensures lineTool.start == old(lineTool.start) && lineTool.groupActive == old(lineTool.groupActive)
      ensures old(lineTool.start).Some? ==>
        lineTool.end == Some(ApplyConstraint(lineTool.constraint, old(lineTool.start).value, Snap.SnapPoint(lineTool.snap, w)))
    {
      lineTool.OnPointerMove(g, w);
    }

    /** `mouseReleaseEvent`: a left release ends the line tool's gesture; any other button does nothing. */
    method MouseRelease(left: bool, reply: DocReply) returns (warn: Option<Warning>)
      requires Valid()
      modifies store, lineTool, lineTool.numeric
      ensures Valid()
      ensures !left ==>
        && warn.None? && store.View() == old(store.View())
        && lineTool.start == old(lineTool.start) && lineTool.end == old(lineTool.end)
        && lineTool.groupActive == old(lineTool.groupActive) && lineTool.numeric.keys == old(lineTool.numeric.keys)
      ensures left && old(lineTool.start).None? ==>
        && warn.None? && store.View() == old(store.View())
        && lineTool.groupActive == old(lineTool.groupActive) && lineTool.numeric.keys == old(lineTool.numeric.keys)
      ensures left && old(lineTool.start).Some? ==>
        var e := ReleaseEnd(lineTool.math, lineTool.constraint, old(lineTool.start).value, old(lineTool.end).value, old(lineTool.numeric.Value()));
        && store.View() == Sent(Replied(old(store.View()), LineCall(old(store.document), old(lineTool.start).value, e), reply), EndGroup)
        && warn == FailureWarning("Line commit failed", reply)
        && !lineTool.groupActive && lineTool.numeric.keys == []
      ensures left ==> lineTool.start.None? && lineTool.end.None?
      ensures lineTool.constraint == old(lineTool.constraint)
    {
      warn := None;
      if left {
        warn := lineTool.OnPointerUp(reply);
      }
    }

    /** `wheelEvent`: multiply the zoom by the notch's factor, then clamp. */
    method WheelEvent(deltaY: int)
      requires Valid()
      modifies camera
      ensures Valid()
      ensures camera.zoom == Wheeled(old(camera.zoom), deltaY)
    {
      camera.zoom := camera.zoom * ZoomFactor(deltaY);
      if camera.zoom < MIN_ZOOM {
        camera.zoom := MIN_ZOOM;
      }
      if camera.zoom > MAX_ZOOM {
        camera.zoom := MAX_ZOOM;
      }
    }

    /**
     * `keyPressEvent`: the undo shortcut undoes and the redo shortcut redoes,
     * each warning with the kernel's reason on failure and leaving the line
     * tool untouched; any other key goes to the line tool.  Which keys are
     * the shortcuts belongs to shortcut_map.h, so the two tests are
     * parameters.
     */
    method KeyPress(e: KeyEvent, isUndo: bool, isRedo: bool, reply: DocReply) returns (warn: Option<Warning>)
      requires Valid()
      modifies store, lineTool, lineTool.numeric
      ensures Valid()
      ensures isUndo ==>
        && store.View() == Updated(old(store.View()), HistoryUndo(old(store.document)), reply)
        && warn == FailureWarning("Undo failed", reply)
      ensures !isUndo && isRedo ==>
        && store.View() == Updated(old(store.View()), HistoryRedo(old(store.document)), reply)
        && warn == FailureWarning("Redo failed", reply)
      ensures isUndo || isRedo ==>
        && lineTool.numeric.keys == old(lineTool.numeric.keys)
        && lineTool.constraint == old(lineTool.constraint)
        && lineTool.start == old(lineTool.start) && lineTool.end == old(lineTool.end)
        && lineTool.groupActive == old(lineTool.groupActive)
      ensures !isUndo && !isRedo ==>
        && warn.None?
        && lineTool.constraint == Toggle(old(lineTool.constraint), e.key)
      ensures !isUndo && !isRedo && e.key == Escape ==>
        && store.View() == Sent(old(store.View()), EndGroup)
        && !lineTool.groupActive && lineTool.start.None? && lineTool.end.None? && lineTool.numeric.keys == [e]
      ensures !isUndo && !isRedo && e.key != Escape ==>
        && store.View() == old(store.View())
        && lineTool.groupActive == old(lineTool.groupActive)
        && lineTool.start == old(lineTool.start) && lineTool.end == old(lineTool.end)
        && lineTool.numeric.keys == old(lineTool.numeric.keys) + [e]
    {
      warn := None;
      if isUndo {
        var ok, reason := store.Undo(reply);
        warn := FailureWarning("Undo failed", reply);
        return;
      }
      if isRedo {
        var ok, reason := store.Redo(reply);
        warn := FailureWarning("Redo failed", reply);
        return;
      }
      lineTool.OnKeyPress(e);
    }
  }
}
