/**
 * The desktop application's view of the kernel (apps/desktop/src): the
 * document as the canvas reads it from the kernel's JSON, the kernel calls
 * the tools make through the history handle, key events, the numeric entry
 * buffer and the camera.
 *
 * Pointer events carry the pointer's world position; the conversion from
 * screen coordinates belongs to camera.h, which is not part of this model.
 * Stateless kernel geometry (point projection, intersection) is a function
 * value; a call that changes the document is recorded in the store's trace
 * and its reply is a parameter of the event that makes it.
 */
module Desk {
  import opened Wrappers
  import opened Model
  import opened Aabbs

  /** A layer as the canvas reads it; `visible` and `locked` may be absent. */
  datatype DeskLayer = DeskLayer(id: string, visible: Option<bool>, locked: Option<bool>)

  /** An entity's `geom` object, by its `type`; any other type is `OtherGeom`. */
  datatype DeskGeom =
    | DLine(a: Vec2, b: Vec2)
    | DCircle(c: Vec2, r: real)
    | DArc(c: Vec2, r: real)
    | DPolyline(pts: seq<Vec2>)
    | OtherGeom

  datatype DeskEntity = DeskEntity(id: string, layerId: string, geom: DeskGeom)

  /** The parts of the document JSON the canvas reads. */
  datatype DeskDoc = DeskDoc(layers: seq<DeskLayer>, entities: seq<DeskEntity>)

  /** A cached, drawable entity with its world bounding rectangle (left, top, right, bottom). */
  datatype RenderEntity = RenderEntity(id: string, layerId: string, geom: DeskGeom, box: Aabb)

  /** A line segment of a tool preview. */
  datatype Seg = Seg(a: Vec2, b: Vec2)

  /** The `reason` object of a failed kernel envelope: its code and, for trims, the candidate points. */
  datatype KernelReason = KernelReason(code: string, candidates: seq<Vec2>)

  /** The reply of a document-changing kernel call: the new document, or the reason it failed. */
  type DocReply = Result<DeskDoc, KernelReason>

  /** The data of a successful projection; the hit test reads a missing distance as 1e9. */
  datatype Projection = Projection(point: Vec2, dist: Option<real>)

  /**
   * The kernel's stateless geometry calls, as seen through the FFI:
   * projecting a point onto a geometry and intersecting two geometries.
   */
  datatype Geometry = Geometry(
    math: Math,
    project: (DeskGeom, Vec2) -> Result<Projection, KernelReason>,
    intersect: (DeskGeom, DeskGeom) -> Result<seq<Vec2>, KernelReason>)

  /** The transform object sent with a transform-selection call. */
  datatype Transform =
    | Translate(dx: real, dy: real)
    | RotateAbout(cx: real, cy: real, angle: real)
    | ScaleAbout(cx: real, cy: real, sx: real, sy: real)

  /**
   * A call through the history handle (one `craftcad_history_*` entry
   * point each), with the document JSON the caller sent.  The plain trim
   * call runs the trim without a candidate index; the commit call passes one.
   */
  datatype Call =
    | BeginGroup(name: string)
    | EndGroup
    | ApplyCreateLine(doc: DeskDoc, layer: string, a: Vec2, b: Vec2)
    | ApplyTransformSelection(doc: DeskDoc, ids: seq<string>, t: Transform)
    | ApplyTrimEntity(doc: DeskDoc, target: string, cutter: string, pick: Vec2, candidate: Option<int>)
    | ApplyOffsetEntity(doc: DeskDoc, id: string, dist: real)
    | ApplyCreatePolyline(doc: DeskDoc, layer: string, pts: seq<Vec2>, closed: bool)
    | ApplyCreateRect(doc: DeskDoc, layer: string, p0: Vec2, p1: Vec2)
    | ApplyCreateCircle(doc: DeskDoc, layer: string, c: Vec2, r: real)
    | ApplyCreateArc(doc: DeskDoc, layer: string, c: Vec2, r: real, startAngle: real, endAngle: real)
    | ApplyMirror(doc: DeskDoc, ids: seq<string>, axisA: Vec2, axisB: Vec2)
    | ApplyFillet(doc: DeskDoc, e1: string, e2: string, radius: real)
    | ApplyPattern(doc: DeskDoc, ids: seq<string>, dx: real, dy: real, count: int)
    | HistoryUndo(doc: DeskDoc)
    | HistoryRedo(doc: DeskDoc)

  /** What a warning box shows: a reason code, a kernel reason, or nothing. */
  datatype WarnText = Code(code: string) | KernelText(reason: KernelReason) | NoText

  datatype Warning = Warning(title: string, text: WarnText)

  datatype KeyName =
    | KeyH | KeyV | KeyX | KeyY | KeyA | KeyC
    | Escape | Return | Enter | Tab | Backtab | Backspace
    | OtherKey(code: int)

  datatype KeyEvent = KeyEvent(key: KeyName, text: string)

  /** The keyboard modifiers held, as `QApplication::keyboardModifiers` reports them. */
  datatype Mods = Mods(shift: bool, alt: bool)

  predicate IsEnter(e: KeyEvent)
  {
    e.key == Return || e.key == Enter
  }

  /** `M_PI`. */
  const PI: real := 3.14159265358979323846

  /**
   * The id of the document's first layer, where the draw tools create their
   * entity; reading the first element of an empty array is undefined in Qt
   * and yields the empty id here.
   */
  function FirstLayerId(doc: DeskDoc): string
  {
    if |doc.layers| > 0 then doc.layers[0].id else ""
  }

  /** The warning box a tool shows when a kernel call fails: its title and the kernel's reason. */
  function FailureWarning(title: string, reply: DocReply): Option<Warning>
  {
    if reply.Err? then Some(Warning(title, KernelText(reply.error))) else None
  }

  /** The Euclidean length of a vector through the square root the tools call. */
  function Norm(math: Math, d: Vec2): real
  {
    math.sqrt(d.x * d.x + d.y * d.y)
  }

  /** `std::optional::value_or`. */
  function ValueOr(o: Option<real>, d: real): real
  {
    if o.Some? then o.value else d
  }

  /** `std::abs` on a double. */
  function Abs(x: real): real { if x < 0.0 then -x else x }

  function Diff(p: Vec2, q: Vec2): Vec2
  {
    Vec2(p.x - q.x, p.y - q.y)
  }

  /** The vector `d` divided by its length `n` and stretched to `len`. */
  function Rescaled(d: Vec2, n: real, len: real): Vec2
    requires n != 0.0
  {
    Vec2(d.x / n * len, d.y / n * len)
  }

  /**
   * NumericInput as the tools use it: the keys fed to it since it was last
   * cleared, read through a parser (numeric_input.h is not part of this
   * model, so the parser is a parameter).
   */
  class NumericInput {
    var keys: seq<KeyEvent>
    const parse: seq<KeyEvent> -> Option<real>

    constructor (parse: seq<KeyEvent> -> Option<real>)
      ensures keys == [] && this.parse == parse
    {
      keys := [];
      this.parse := parse;
    }

    /** `value()`: the number typed so far, if any. */
    function Value(): Option<real>
      reads this
    {
      parse(keys)
    }

    method HandleKey(e: KeyEvent)
      modifies this
      ensures keys == old(keys) + [e]
    {
      keys := keys + [e];
    }

    method Clear()
      modifies this
      ensures keys == []
    {
      keys := [];
    }
  }

  /** The camera's zoom factor, the part of camera.h the canvas and hit test read. */
  class Camera {
    var zoom: real

    constructor (zoom: real)
      ensures this.zoom == zoom
    {
      this.zoom := zoom;
    }
  }

  /** The segments of the selected Line entities, in entity order. */
  function SelectedLines(es: seq<RenderEntity>, selection: seq<string>): (r: seq<Seg>)
    ensures |r| <= |es|
  {
    if es == [] then []
    else
      var last := es[|es| - 1];
      SelectedLines(es[..|es| - 1], selection)
        + (if last.id in selection && last.geom.DLine? then [Seg(last.geom.a, last.geom.b)] else [])
  }

  /** A Line entity that is selected contributes its segment; nothing else does. */
  lemma {:induction false} SelectedLinesMember(es: seq<RenderEntity>, selection: seq<string>, s: Seg)
    ensures s in SelectedLines(es, selection) <==>
      exists i :: 0 <= i < |es| && es[i].id in selection && es[i].geom == DLine(s.a, s.b)
  {
    if es != [] {
      var init := es[..|es| - 1];
      SelectedLinesMember(init, selection, s);
      assert forall i :: 0 <= i < |init| ==> init[i] == es[i];
    }
  }

  /** The loop collecting the selected lines, as the move, rotate and scale tools run it. */
  method CollectSelectedLines(es: seq<RenderEntity>, selection: seq<string>) returns (base: seq<Seg>)
    ensures base == SelectedLines(es, selection)
  {
    base := [];
    var i := 0;
    while i < |es|
      invariant 0 <= i <= |es|
      invariant base == SelectedLines(es[..i], selection)
    {
      assert es[..i + 1][..i] == es[..i];
      var e := es[i];
      if e.id in selection && e.geom.DLine? {
        base := base + [Seg(e.geom.a, e.geom.b)];
      }
      i := i + 1;
    }
    assert es[..i] == es;
  }

  /** Every segment with both ends moved by `f`. */
  function Mapped(base: seq<Seg>, f: Vec2 -> Vec2): (r: seq<Seg>)
    ensures |r| == |base|
    ensures forall i :: 0 <= i < |base| ==> r[i] == Seg(f(base[i].a), f(base[i].b))
  {
    seq(|base|, i requires 0 <= i < |base| => Seg(f(base[i].a), f(base[i].b)))
  }

  /** The translation by `d`. */
  function ShiftBy(d: Vec2): Vec2 -> Vec2
  {
    (p: Vec2) => Vec2(p.x + d.x, p.y + d.y)
  }

  /** The preview loop: every base segment with both ends moved by `f`. */
  method MapSegs(base: seq<Seg>, f: Vec2 -> Vec2) returns (preview: seq<Seg>)
    ensures preview == Mapped(base, f)
  {
    preview := [];
    var i := 0;
    while i < |base|
      invariant 0 <= i <= |base| && |preview| == i
      invariant forall j :: 0 <= j < i ==> preview[j] == Seg(f(base[j].a), f(base[j].b))
    {
      preview := preview + [Seg(f(base[i].a), f(base[i].b))];
      i := i + 1;
    }
  }

  /** The end points of the segments, both ends of each, in order. */
  function Endpoints(segs: seq<Seg>): (r: seq<Vec2>)
    ensures |r| == 2 * |segs|
  {
    if segs == [] then [] else Endpoints(segs[..|segs| - 1]) + [segs[|segs| - 1].a, segs[|segs| - 1].b]
  }

  /** The box widened to take in point `p`. */
  function Widen(b: Aabb, p: Vec2): Aabb
  {
    Aabb(Min(b.minX, p.x), Min(b.minY, p.y), Max(b.maxX, p.x), Max(b.maxY, p.y))
  }

  /** The box grown point by point: the first point sets it, later ones widen it. */
  function GrowBox(box: Option<Aabb>, pts: seq<Vec2>): (r: Option<Aabb>)
    ensures box.Some? || pts != [] <==> r.Some?
    decreases |pts|
  {
    if pts == [] then box
    else
      var p := pts[0];
      var next := if box.None? then Aabb(p.x, p.y, p.x, p.y) else Widen(box.value, p);
      GrowBox(Some(next), pts[1..])
  }

  /** The grown box holds the starting box and every point, and is well formed. */
  lemma {:induction false} GrowBoxHolds(box: Option<Aabb>, pts: seq<Vec2>)
    requires box.Some? ==> WellFormed(box.value)
    ensures var r := GrowBox(box, pts);
      r.Some? ==>
        && WellFormed(r.value)
        && (box.Some? ==>
              && r.value.minX <= box.value.minX && r.value.minY <= box.value.minY
              && box.value.maxX <= r.value.maxX && box.value.maxY <= r.value.maxY)
        && forall p :: p in pts ==> Contains(r.value, p)
    decreases |pts|
  {
    if pts != [] {
      var p := pts[0];
      var next := if box.None? then Aabb(p.x, p.y, p.x, p.y) else Widen(box.value, p);
      GrowBoxHolds(Some(next), pts[1..]);
      assert forall q :: q in pts ==> q == p || q in pts[1..];
    }
  }

  /**
   * The rotate and scale tools' default centre: the middle of the bounding
   * box of the selected lines' end points, or none when no line is selected.
   */
  function SelectionCenter(es: seq<RenderEntity>, selection: seq<string>): (r: Option<Vec2>)
    ensures r.Some? <==> SelectedLines(es, selection) != []
  {
    var pts := Endpoints(SelectedLines(es, selection));
    match GrowBox(None, pts)
    case None => None
    case Some(b) => Some(Vec2((b.minX + b.maxX) * 0.5, (b.minY + b.maxY) * 0.5))
  }

  /** The default centre lies in the box of every selected end point. */
  lemma CenterInsideSelection(es: seq<RenderEntity>, selection: seq<string>)
    requires SelectedLines(es, selection) != []
    ensures var pts := Endpoints(SelectedLines(es, selection));
      var b := GrowBox(None, pts).value;
      SelectionCenter(es, selection) == Some(Vec2((b.minX + b.maxX) * 0.5, (b.minY + b.maxY) * 0.5))
      && Contains(b, SelectionCenter(es, selection).value)
      && forall p :: p in pts ==> Contains(b, p)
  {
    GrowBoxHolds(None, Endpoints(SelectedLines(es, selection)));
  }

  /** The centre after `rebuildCenter`: the selection's centre if it has one, otherwise the centre as it was. */
  function CenterAfterRebuild(es: seq<RenderEntity>, selection: seq<string>, center0: Option<Vec2>): Option<Vec2>
  {
    if SelectionCenter(es, selection).Some? then SelectionCenter(es, selection) else center0
  }

  /**
   * The loop that accumulates the selected end points' box, as the rotate
   * and scale tools' `rebuildCenter` runs it; the centre is left as it was
   * when no line is selected.
   */
  method RebuildCenter(es: seq<RenderEntity>, selection: seq<string>, center0: Option<Vec2>) returns (center: Option<Vec2>)
    ensures center == CenterAfterRebuild(es, selection, center0)
  {
    var base := CollectSelectedLines(es, selection);
    var pts := Endpoints(base);
    var box: Option<Aabb> := None;
    var i := 0;
    assert pts[0..] == pts;
    while i < |pts|
      invariant 0 <= i <= |pts|
      invariant GrowBox(box, pts[i..]) == GrowBox(None, pts)
      invariant box.Some? <==> i > 0
    {
      assert pts[i..][0] == pts[i] && pts[i..][1..] == pts[i + 1..];
      var p := pts[i];
      if box.None? {
        box := Some(Aabb(p.x, p.y, p.x, p.y));
      } else {
        box := Some(Widen(box.value, p));
      }
      i := i + 1;
    }
    assert pts[i..] == [];
    if box.Some? {
      center := Some(Vec2((box.value.minX + box.value.maxX) * 0.5, (box.value.minY + box.value.maxY) * 0.5));
    } else {
      center := center0;
    }
  }
}
