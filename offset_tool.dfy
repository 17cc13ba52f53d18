/**
 * apps/desktop/src/tools/offset_tool.cpp: offsetting an entity.  A press
 * picks the target and selects it; the preview is the target line moved
 * sideways by the typed distance (10 when none is typed); the release, or
 * Enter, asks the kernel to offset the target by the distance last
 * previewed.
 */
module OffsetTools {
  import opened Wrappers
  import opened Model
  import opened Desk
  import opened DocStores
  import opened HitTests

  /** The distance used when none is typed. */
  const DEFAULT_DIST: real := 10.0
  /** Lines no longer than this have no direction and no preview. */
  const EPS: real := 0.000000001

  /** The line `a`-`b` of length `len` moved by `dist` along its left normal `(-dy, dx) / len`. */
  function OffsetOf(a: Vec2, b: Vec2, len: real, dist: real): Seg
    requires len != 0.0
  {
    var nx, ny := -(b.y - a.y) / len, (b.x - a.x) / len;
    Seg(Vec2(a.x + nx * dist, a.y + ny * dist), Vec2(b.x + nx * dist, b.y + ny * dist))
  }

  /** The offset line keeps the line's direction, and both ends move by the same vector, at right angles to the line. */
  lemma OffsetIsParallel(a: Vec2, b: Vec2, len: real, dist: real)
    requires len != 0.0
    ensures Diff(OffsetOf(a, b, len, dist).b, OffsetOf(a, b, len, dist).a) == Diff(b, a)
    ensures Diff(OffsetOf(a, b, len, dist).a, a) == Diff(OffsetOf(a, b, len, dist).b, b)
    ensures
      var m := Diff(OffsetOf(a, b, len, dist).a, a);
      m.x * (b.x - a.x) + m.y * (b.y - a.y) == 0.0
  {
    var dx, dy := b.x - a.x, b.y - a.y;
    var nx, ny := -dy / len, dx / len;
    assert nx * dist * dx == -(dx * dy * dist) / len;
    assert ny * dist * dy == (dx * dy * dist) / len;
  }

  /**
   * `updatePreview`'s scan of the cached entities, in order: each line with
   * the target id replaces the preview by its offset, and a line too short
   * to have a direction stops the scan, keeping the preview found so far.
   */
  function OffsetScan(math: Math, es: seq<RenderEntity>, target: string, dist: real, cur: Option<Seg>): Option<Seg>
    decreases |es|
  {
    if es == [] then cur
    else if es[0].id == target && es[0].geom.DLine? then
      var a, b := es[0].geom.a, es[0].geom.b;
      var len := Norm(math, Diff(b, a));
      if len <= EPS then cur else OffsetScan(math, es[1..], target, dist, Some(OffsetOf(a, b, len, dist)))
    else OffsetScan(math, es[1..], target, dist, cur)
  }

  /** An entity of the target id that is a line. */
  predicate LineWithId(e: RenderEntity, target: string)
  {
    e.id == target && e.geom.DLine?
  }

  /** The preview the scan leaves is the one it started with or the offset of a line with the target id. */
  lemma {:induction false} OffsetScanSource(math: Math, es: seq<RenderEntity>, target: string, dist: real, cur: Option<Seg>)
    ensures
      var r := OffsetScan(math, es, target, dist, cur);
      || r == cur
      || exists i :: 0 <= i < |es| && LineWithId(es[i], target) &&
           Norm(math, Diff(es[i].geom.b, es[i].geom.a)) > EPS &&
           r == Some(OffsetOf(es[i].geom.a, es[i].geom.b, Norm(math, Diff(es[i].geom.b, es[i].geom.a)), dist))
    decreases |es|
  {
    if es != [] {
      var rest := es[1..];
      var next := cur;
      if LineWithId(es[0], target) {
        var len := Norm(math, Diff(es[0].geom.b, es[0].geom.a));
        if len > EPS {
          next := Some(OffsetOf(es[0].geom.a, es[0].geom.b, len, dist));
        }
      }
      OffsetScanSource(math, rest, target, dist, next);
      assert forall i :: 0 <= i < |rest| ==> rest[i] == es[i + 1];
    }
  }

  /** Without a line of the target id, the scan leaves the preview as it was. */
  lemma {:induction false} OffsetScanNoLine(math: Math, es: seq<RenderEntity>, target: string, dist: real, cur: Option<Seg>)
    requires forall i :: 0 <= i < |es| ==> !LineWithId(es[i], target)
    ensures OffsetScan(math, es, target, dist, cur) == cur
    decreases |es|
  {
    if es != [] {
      assert !LineWithId(es[0], target);
      OffsetScanNoLine(math, es[1..], target, dist, cur);
    }
  }

  class OffsetTool {
    const store: DocStore
    const camera: Camera
    const numeric: NumericInput
    const math: Math
    var targetId: string
    var previewGeom: Option<Seg>
    var previewDist: Option<real>

    /** The store's caches agree and the camera's zoom is positive (the canvas clamps it). */
    ghost predicate Valid()
      reads this, store, camera
    {
      store.Valid() && camera.zoom > 0.0
    }

    constructor (store: DocStore, camera: Camera, parse: seq<KeyEvent> -> Option<real>, math: Math)
      requires store.Valid() && camera.zoom > 0.0
      ensures Valid() && fresh(numeric)
      ensures this.store == store && this.camera == camera && this.math == math
      ensures numeric.parse == parse && numeric.keys == []
      ensures targetId == "" && previewGeom.None? && previewDist.None?
    {
      this.store := store;
      this.camera := camera;
      numeric := new NumericInput(parse);
      this.math := math;
      targetId := "";
      previewGeom, previewDist := None, None;
    }

    /** `updatePreview`: with a target, record the distance and rescan the entities for its offset. */
    method UpdatePreview()
      modifies this
      ensures targetId == old(targetId)
      ensures old(targetId) == "" ==> previewGeom == old(previewGeom) && previewDist == old(previewDist)
      ensures old(targetId) != "" ==>
        var d := ValueOr(numeric.Value(), DEFAULT_DIST);
        previewDist == Some(d) && previewGeom == OffsetScan(math, store.entities, targetId, d, old(previewGeom))
    {
      if targetId == "" {
        return;
      }
      var d := ValueOr(numeric.Value(), DEFAULT_DIST);
      previewDist := Some(d);
      var es := store.entities;
      var i := 0;
      while i < |es|
        invariant 0 <= i <= |es|
        invariant targetId == old(targetId) && previewDist == Some(d)
        invariant OffsetScan(math, es, targetId, d, old(previewGeom)) == OffsetScan(math, es[i..], targetId, d, previewGeom)
      {
        assert es[i..][1..] == es[i + 1..];
        var e := es[i];
        if e.id == targetId && e.geom.DLine? {
          var len := Norm(math, Diff(e.geom.b, e.geom.a));
          if len <= EPS {
            return;
          }
          previewGeom := Some(OffsetOf(e.geom.a, e.geom.b, len, d));
        }
        i := i + 1;
      }
    }

    /** `commit`: without a target nothing is asked; otherwise offset it by the last previewed distance and publish on success. */
    method Commit(reply: DocReply) returns (text: Option<WarnText>)
      requires Valid()
      modifies store
      ensures Valid()
      ensures targetId == "" ==> store.View() == old(store.View()) && text == Some(NoText)
      ensures targetId != "" ==>
        && store.View() == Replied(old(store.View()), ApplyOffsetEntity(old(store.document), targetId, ValueOr(previewDist, DEFAULT_DIST)), reply)
        && text == (if reply.Err? then Some(KernelText(reply.error)) else None)
    {
      if targetId == "" {
        return Some(NoText);
      }
      store.Commit(ApplyOffsetEntity(store.document, targetId, ValueOr(previewDist, DEFAULT_DIST)), reply);
      text := if reply.Err? then Some(KernelText(reply.error)) else None;
    }

    /** `onPointerDown`: a miss warns; a hit becomes the target and the whole selection, and the preview follows. */
    method OnPointerDown(g: Geometry, w: Vec2) returns (warn: Option<Warning>)
      requires Valid()
      modifies this, store
      ensures Valid()
      ensures
        var hit := BestHit(Hits(g, old(store.entities), w, 8.0 / camera.zoom));
        && (hit.None? ==>
              && warn == Some(Warning("Offset", Code("EDIT_NO_SELECTION")))
              && store.View() == old(store.View())
              && targetId == old(targetId) && previewGeom == old(previewGeom) && previewDist == old(previewDist))
        && (hit.Some? ==>
              var d := ValueOr(numeric.Value(), DEFAULT_DIST);
              && warn.None?
              && targetId == hit.value.entityId
              && store.View() == old(store.View()).(selection := [targetId])
              && (targetId != "" ==> previewDist == Some(d) && previewGeom == OffsetScan(math, store.entities, targetId, d, old(previewGeom))))
    {
      var hit := HitTest(g, store.entities, camera.zoom, w, 8.0);
      if hit.None? {
        return Some(Warning("Offset", Code("EDIT_NO_SELECTION")));
      }
      warn := None;
      targetId := hit.value.entityId;
      store.SetSingle(targetId);
      UpdatePreview();
    }

    /** `onPointerMove`: the preview follows the typed distance. */
    method OnPointerMove()
      modifies this
      ensures targetId == old(targetId)
      ensures old(targetId) != "" ==>
        var d := ValueOr(numeric.Value(), DEFAULT_DIST);
        previewDist == Some(d) && previewGeom == OffsetScan(math, store.entities, targetId, d, old(previewGeom))
    {
      UpdatePreview();
    }

    /** `onPointerUp`: commit, warn when that fails, and drop the preview; the target stays. */
    method OnPointerUp(reply: DocReply) returns (warn: Option<Warning>)
      requires Valid()
      modifies this, store
      ensures Valid()
      ensures targetId == old(targetId) && previewGeom.None? && previewDist == old(previewDist)
      ensures old(targetId) == "" ==> store.View() == old(store.View()) && warn == Some(Warning("Offset failed", NoText))
      ensures old(targetId) != "" ==>
        && store.View() == Replied(old(store.View()), ApplyOffsetEntity(old(store.document), targetId, ValueOr(previewDist, DEFAULT_DIST)), reply)
        && warn == FailureWarning("Offset failed", reply)
    {
      var text := Commit(reply);
      warn := if text.Some? then Some(Warning("Offset failed", text.value)) else None;
      previewGeom := None;
    }

    /**
     * `onKeyPress`: Escape drops the target, the preview and the typed
     * number; any other key goes to the number entry, Enter then commits
     * with the distance previewed before it, and the preview follows.
     */
    method OnKeyPress(e: KeyEvent, reply: DocReply) returns (warn: Option<Warning>)
      requires Valid()
      modifies this, store, numeric
      ensures Valid()
      ensures e.key == Escape ==>
        && targetId == "" && previewGeom.None? && numeric.keys == [] && previewDist == old(previewDist)
        && store.View() == old(store.View()) && warn.None?
      ensures e.key != Escape ==>
        && targetId == old(targetId) && numeric.keys == old(numeric.keys) + [e]
        && (targetId != "" ==>
              var d := ValueOr(numeric.Value(), DEFAULT_DIST);
              previewDist == Some(d) && previewGeom == OffsetScan(math, store.entities, targetId, d, old(previewGeom)))
      ensures e.key != Escape && IsEnter(e) && old(targetId) != "" ==>
        && store.View() == Replied(old(store.View()), ApplyOffsetEntity(old(store.document), targetId, ValueOr(old(previewDist), DEFAULT_DIST)), reply)
        && warn == FailureWarning("Offset failed", reply)
      ensures e.key != Escape && IsEnter(e) && old(targetId) == "" ==>
        store.View() == old(store.View()) && warn == Some(Warning("Offset failed", NoText))
      ensures e.key != Escape && !IsEnter(e) ==> store.View() == old(store.View()) && warn.None?
    {
      warn := None;
      if e.key == Escape {
        targetId := "";
        previewGeom := None;
        numeric.Clear();
        return;
      }
      numeric.HandleKey(e);
      if IsEnter(e) {
        var text := Commit(reply);
        warn := if text.Some? then Some(Warning("Offset failed", text.value)) else None;
      }
      UpdatePreview();
    }
  }
}
