/**
 * apps/desktop/src/tools/fillet_tool.cpp: filleting two entities.  The
 * first hit is the first entity, the next hit the second; once both are
 * known the kernel is asked for a fillet of the typed radius (5 when none is
 * typed) and both are forgotten.  The tool owns an ambiguity controller that
 * Tab and the wheel cycle, but nothing ever gives it candidates.
 */
module FilletTools {
  import opened Wrappers
  import opened Model
  import opened Desk
  import opened DocStores
  import opened HitTests
  import opened Ambiguity

  const DEFAULT_RADIUS: real := 5.0

  function FilletCall(doc: DeskDoc, e1: string, e2: string, n: Option<real>): Call
  {
    ApplyFillet(doc, e1, e2, ValueOr(n, DEFAULT_RADIUS))
  }

  class FilletTool {
    const store: DocStore
    const camera: Camera
    const numeric: NumericInput
    const ambiguity: AmbiguityController
    var first: string
    var second: string

    /**
     * The store's caches agree, the camera's zoom is positive (the canvas
     * clamps it), a second entity is only held with a first, and the
     * ambiguity controller never holds candidates.
     */
    ghost predicate Valid()
      reads this, store, camera, ambiguity
    {
      && store.Valid()
      && camera.zoom > 0.0
      && (first == "" ==> second == "")
      && ambiguity.Valid()
      && ambiguity.candidates == []
    }

    constructor (store: DocStore, camera: Camera, parse: seq<KeyEvent> -> Option<real>)
      requires store.Valid() && camera.zoom > 0.0
      ensures Valid() && this.store == store && this.camera == camera
      ensures fresh(numeric) && fresh(ambiguity) && numeric.parse == parse && numeric.keys == []
      ensures first == "" && second == ""
    {
      this.store := store;
      this.camera := camera;
      numeric := new NumericInput(parse);
      ambiguity := new AmbiguityController();
      first, second := "", "";
    }

    /**
     * `onPointerDown`: a miss does nothing; a hit fills the first empty id,
     * and once both are known the fillet is made (warning when the kernel
     * refuses it) and both are forgotten.
     */
    method OnPointerDown(g: Geometry, w: Vec2, reply: DocReply) returns (warn: Option<Warning>)
      requires Valid()
      modifies this, store
      ensures Valid()
      ensures
        var hit := BestHit(Hits(g, old(store.entities), w, 8.0 / camera.zoom));
        var f := if hit.None? then old(first) else if old(first) == "" then hit.value.entityId else old(first);
        var s := if hit.None? || old(first) == "" || old(second) != "" then old(second) else hit.value.entityId;
        && (hit.None? || f == "" || s == "" ==>
              warn.None? && store.View() == old(store.View()) && first == f && second == s)
        && (hit.Some? && f != "" && s != "" ==>
              && store.View() == Replied(old(store.View()), FilletCall(old(store.document), f, s, numeric.Value()), reply)
              && warn == FailureWarning("Fillet", reply)
              && first == "" && second == "")
    {
      warn := None;
      var hit := HitTest(g, store.entities, camera.zoom, w, 8.0);
      if hit.None? {
        return;
      }
      if first == "" {
        first := hit.value.entityId;
      } else if second == "" {
        second := hit.value.entityId;
      }
      if first != "" && second != "" {
        store.Commit(FilletCall(store.document, first, second, numeric.Value()), reply);
        warn := FailureWarning("Fillet", reply);
        first, second := "", "";
      }
    }

    /** `onKeyPress`: Escape forgets both ids and the candidates, Tab cycles the candidate; every key goes to the number entry. */
    method OnKeyPress(e: KeyEvent)
      requires Valid()
      modifies this, ambiguity, numeric
      ensures Valid()
      ensures e.key == Escape ==> first == "" && second == ""
      ensures e.key != Escape ==> first == old(first) && second == old(second)
      ensures ambiguity.index == old(ambiguity.index)
      ensures numeric.keys == old(numeric.keys) + [e]
    {
      if e.key == Escape {
        first, second := "", "";
        ambiguity.Clear();
      }
      if e.key == Tab {
        ambiguity.OnTab(1);
      }
      numeric.HandleKey(e);
    }

    /** `onWheel`: the notch goes to the ambiguity controller, which has nothing to cycle. */
    method OnWheel(deltaY: int)
      requires Valid()
      modifies ambiguity
      ensures Valid()
      ensures ambiguity.index == old(ambiguity.index)
    {
      ambiguity.OnWheel(deltaY);
    }
  }
}
