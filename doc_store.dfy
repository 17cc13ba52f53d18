/**
 * apps/desktop/src/doc_store.cpp: the desktop's copy of the document, the
 * cache of drawable entities rebuilt whenever a document is published, its
 * uniform grid, the selection, the log of failed undo/redo reasons and the
 * undo/redo entry points.  The history handle's calls are recorded in
 * `sent`; a kernel reply is a parameter of the method that receives it.
 */
module DocStores {
  import opened Wrappers
  import opened Model
  import opened Aabbs
  import opened Seqs
  import opened SpatialQuery
  import opened Desk

  /** `gridCellSize_`. */
  const CELL: real := 64.0
  /** The reason log keeps at most this many entries. */
  const LOG_CAP: nat := 200
  /** `quint64` wraps modulo 2^64. */
  const U64: nat := 0x1_0000_0000_0000_0000
  /** The polyline box fold starts from these sentinels. */
  const SENTINEL: real := 1.0e300

  /** `++revision_` on a `quint64`. */
  function NextRevision(r: nat): nat
  {
    (r + 1) % U64
  }

  // ---------------------------------------------------------------- layers

  /** `QJsonValue::toBool(default)`: the flag if it is present, else the default. */
  function OrDefault(o: Option<bool>, d: bool): bool
  {
    if o.Some? then o.value else d
  }

  function VisibleFlag(l: DeskLayer): bool { OrDefault(l.visible, true) }
  function LockedFlag(l: DeskLayer): bool { OrDefault(l.locked, false) }

  /** The flag table built by inserting each layer's flag in order, as a `QHash` assignment loop does. */
  function FlagTable(ls: seq<DeskLayer>, f: DeskLayer -> bool): map<string, bool>
  {
    if ls == [] then map[]
    else FlagTable(ls[..|ls| - 1], f)[ls[|ls| - 1].id := f(ls[|ls| - 1])]
  }

  /** `QHash::value(key, default)`. */
  function Lookup(t: map<string, bool>, id: string, d: bool): bool
  {
    if id in t then t[id] else d
  }

  /** A layer id that no layer carries reads as the default. */
  lemma {:induction false} FlagTableMissing(ls: seq<DeskLayer>, f: DeskLayer -> bool, id: string, d: bool)
    requires forall i :: 0 <= i < |ls| ==> ls[i].id != id
    ensures Lookup(FlagTable(ls, f), id, d) == d
  {
    if ls != [] {
      FlagTableMissing(ls[..|ls| - 1], f, id, d);
    }
  }

  /** Otherwise the flag of the last layer carrying the id counts, as later insertions overwrite earlier ones. */
  lemma {:induction false} FlagTableLastWins(ls: seq<DeskLayer>, f: DeskLayer -> bool, i: nat, d: bool)
    requires i < |ls| && forall k :: i < k < |ls| ==> ls[k].id != ls[i].id
    ensures Lookup(FlagTable(ls, f), ls[i].id, d) == f(ls[i])
  {
    if i < |ls| - 1 {
      var init := ls[..|ls| - 1];
      assert init[i] == ls[i];
      FlagTableLastWins(init, f, i, d);
    }
  }

  // -------------------------------------------------------------- entities

  /** The entity is drawn: its layer is visible and unlocked, an unknown layer counting as both. */
  predicate Shown(e: DeskEntity, visible: map<string, bool>, locked: map<string, bool>)
  {
    Lookup(visible, e.layerId, true) && !Lookup(locked, e.layerId, false)
  }

  /** The box widened point by point. */
  function PolyFold(b: Aabb, pts: seq<Vec2>): Aabb
    decreases |pts|
  {
    if pts == [] then b else PolyFold(Widen(b, pts[0]), pts[1..])
  }

  /** `QRectF::normalized`: the corners swapped where the width or height is negative. */
  function Normalized(b: Aabb): Aabb
  {
    Aabb(Min(b.minX, b.maxX), Min(b.minY, b.maxY), Max(b.minX, b.maxX), Max(b.minY, b.maxY))
  }

  /** The empty `QRectF()`: a zero rectangle at the origin. */
  const ZERO_BOX: Aabb := Aabb(0.0, 0.0, 0.0, 0.0)

  /**
   * The world rectangle (left, top, right, bottom) cached for a geometry.
   * A circle's or arc's rectangle is not normalized, so a negative radius
   * gives right < left.
   */
  function BoxOf(g: DeskGeom): Aabb
  {
    match g
    case DLine(a, b) => Normalized(FromPoints(a, b))
    case DCircle(c, r) => Aabb(c.x - r, c.y - r, c.x - r + r * 2.0, c.y - r + r * 2.0)
    case DArc(c, r) => Aabb(c.x - r, c.y - r, c.x - r + r * 2.0, c.y - r + r * 2.0)
    case DPolyline(pts) =>
      if pts == [] then ZERO_BOX
      else Normalized(PolyFold(Aabb(SENTINEL, SENTINEL, -SENTINEL, -SENTINEL), pts))
    case OtherGeom => ZERO_BOX
  }

  /** The fold's box holds the start box and every point. */
  lemma {:induction false} PolyFoldHolds(b: Aabb, pts: seq<Vec2>)
    ensures var r := PolyFold(b, pts);
      && r.minX <= b.minX && r.minY <= b.minY && b.maxX <= r.maxX && b.maxY <= r.maxY
      && forall p :: p in pts ==> Contains(r, p)
    decreases |pts|
  {
    if pts != [] {
      PolyFoldHolds(Widen(b, pts[0]), pts[1..]);
      assert forall q :: q in pts ==> q == pts[0] || q in pts[1..];
    }
  }

  /**
   * A line's box is the one its end points span; a non-empty polyline's box
   * is well formed and holds every vertex.
   */
  lemma BoxOfHolds(g: DeskGeom)
    ensures g.DLine? ==> BoxOf(g) == FromPoints(g.a, g.b)
    ensures g.DPolyline? && g.pts != [] ==>
      WellFormed(BoxOf(g)) && forall p :: p in g.pts ==> Contains(BoxOf(g), p)
  {
    if g.DPolyline? && g.pts != [] {
      var s := Aabb(SENTINEL, SENTINEL, -SENTINEL, -SENTINEL);
      PolyFoldHolds(s, g.pts);
      assert g.pts[0] in g.pts;
    }
  }

  /** The rectangle computation of `rebuildCache`, with the polyline's min/max loop. */
  method ComputeBox(g: DeskGeom) returns (box: Aabb)
    ensures box == BoxOf(g)
  {
    match g {
      case DLine(a, b) =>
        box := Normalized(Aabb(Min(a.x, b.x), Min(a.y, b.y), Max(a.x, b.x), Max(a.y, b.y)));
      case DCircle(c, r) =>
        box := Aabb(c.x - r, c.y - r, c.x - r + r * 2.0, c.y - r + r * 2.0);
      case DArc(c, r) =>
        box := Aabb(c.x - r, c.y - r, c.x - r + r * 2.0, c.y - r + r * 2.0);
      case DPolyline(pts) =>
        if pts == [] {
          box := ZERO_BOX;
        } else {
          var start := Aabb(SENTINEL, SENTINEL, -SENTINEL, -SENTINEL);
          var b := start;
          var i := 0;
          assert pts[0..] == pts;
          while i < |pts|
            invariant 0 <= i <= |pts|
            invariant PolyFold(b, pts[i..]) == PolyFold(start, pts)
          {
            assert pts[i..][0] == pts[i] && pts[i..][1..] == pts[i + 1..];
            b := Widen(b, pts[i]);
            i := i + 1;
          }
          box := Normalized(b);
        }
      case OtherGeom =>
        box := ZERO_BOX;
    }
  }

  /** The cache entry of an entity. */
  function Render(e: DeskEntity): RenderEntity
  {
    RenderEntity(e.id, e.layerId, e.geom, BoxOf(e.geom))
  }

  /** The cache: the shown entities in document order. */
  function Rendered(es: seq<DeskEntity>, visible: map<string, bool>, locked: map<string, bool>): (r: seq<RenderEntity>)
    ensures |r| <= |es|
  {
    if es == [] then []
    else
      var last := es[|es| - 1];
      Rendered(es[..|es| - 1], visible, locked) + (if Shown(last, visible, locked) then [Render(last)] else [])
  }

  /** The cache holds exactly the renders of the shown entities. */
  lemma {:induction false} RenderedMember(es: seq<DeskEntity>, visible: map<string, bool>, locked: map<string, bool>, x: RenderEntity)
    ensures x in Rendered(es, visible, locked) <==>
      exists i :: 0 <= i < |es| && Shown(es[i], visible, locked) && x == Render(es[i])
  {
    if es != [] {
      var init := es[..|es| - 1];
      RenderedMember(init, visible, locked, x);
      assert forall i :: 0 <= i < |init| ==> init[i] == es[i];
    }
  }

  function Boxes(es: seq<RenderEntity>): (r: seq<Aabb>)
    ensures |r| == |es| && forall j :: 0 <= j < |es| ==> r[j] == es[j].box
  {
    seq(|es|, j requires 0 <= j < |es| => es[j].box)
  }

  /** The window `querySpatialCandidates` sweeps: the point widened by the radius. */
  function Window(p: Vec2, radius: real): Aabb
  {
    Aabb(p.x - radius, p.y - radius, p.x + radius, p.y + radius)
  }

  // ------------------------------------------------------------ reason log

  /** The last `n` entries of `s`, or all of them when there are fewer. */
  function Last<T>(s: seq<T>, n: nat): (r: seq<T>)
    ensures |r| == if |s| <= n then |s| else n
  {
    if |s| <= n then s else s[|s| - n..]
  }

  /** `push_back`, then `pop_front` when the log holds more than 200 entries. */
  function LogPush(logs: seq<KernelReason>, m: KernelReason): seq<KernelReason>
  {
    var l := logs + [m];
    if |l| > LOG_CAP then l[1..] else l
  }

  /** A log within its cap keeps, after a push, the latest 200 entries. */
  lemma LogPushKeepsLatest(logs: seq<KernelReason>, m: KernelReason)
    requires |logs| <= LOG_CAP
    ensures LogPush(logs, m) == Last(logs + [m], LOG_CAP)
    ensures |LogPush(logs, m)| <= LOG_CAP
  {
  }

  /** The log after pushing each of `ms` in turn to an empty log. */
  function PushAll(ms: seq<KernelReason>): seq<KernelReason>
  {
    if ms == [] then [] else LogPush(PushAll(ms[..|ms| - 1]), ms[|ms| - 1])
  }

  /** However many failures are logged, the log is the latest 200 of them, oldest first. */
  lemma {:induction false} PushAllKeepsLatest(ms: seq<KernelReason>)
    ensures PushAll(ms) == Last(ms, LOG_CAP)
  {
    if ms != [] {
      var init, m := ms[..|ms| - 1], ms[|ms| - 1];
      PushAllKeepsLatest(init);
      assert PushAll(ms) == LogPush(Last(init, LOG_CAP), m);
      assert init + [m] == ms;
      if |init| < LOG_CAP {
        assert Last(init, LOG_CAP) == init;
      } else {
        var t := Last(init, LOG_CAP);
        assert t == init[|init| - LOG_CAP..];
        assert (t + [m])[1..] == ms[|ms| - LOG_CAP..];
      }
    }
  }

  // ----------------------------------------------------------------- views

  /** What the tools observe of the store: everything but the caches the document determines. */
  datatype StoreView = StoreView(
    document: DeskDoc, revision: nat, reasonLogs: seq<KernelReason>, selection: seq<string>, sent: seq<Call>)

  /** A call made through the history handle. */
  function Sent(v: StoreView, c: Call): StoreView
  {
    v.(sent := v.sent + [c])
  }

  /** `setDocumentJson`. */
  function Published(v: StoreView, d: DeskDoc): StoreView
  {
    v.(document := d, revision := NextRevision(v.revision))
  }

  /** A tool's commit: the call is made, and the returned document published when the kernel reports ok. */
  function Replied(v: StoreView, c: Call, reply: DocReply): StoreView
  {
    if reply.Ok? then Published(Sent(v, c), reply.value) else Sent(v, c)
  }

  class DocStore {
    var document: DeskDoc
    var revision: nat
    var entities: seq<RenderEntity>
    var layerVisible: map<string, bool>
    var layerLocked: map<string, bool>
    var buckets: map<Key, seq<nat>>
    var reasonLogs: seq<KernelReason>
    var selection: seq<string>
    var sent: seq<Call>

    function View(): StoreView
      reads this
    {
      StoreView(document, revision, reasonLogs, selection, sent)
    }

    /**
     * The caches agree with the document: the layer tables, the shown
     * entities in document order, and a grid in which each cell's bucket holds
     * exactly the positions of the cached entities whose rectangle spans it.
     */
    ghost predicate Valid()
      reads this
    {
      && layerVisible == FlagTable(document.layers, VisibleFlag)
      && layerLocked == FlagTable(document.layers, LockedFlag)
      && entities == Rendered(document.entities, layerVisible, layerLocked)
      && (forall key: Key, j: nat :: j in BucketOf(buckets, key) <==> InBlock(CELL, Boxes(entities), key, j))
      && |reasonLogs| <= LOG_CAP
      && revision < U64
    }

    /** A new store: an empty document at revision 0. */
    constructor ()
      ensures Valid()
      ensures View() == StoreView(DeskDoc([], []), 0, [], [], [])
    {
      document := DeskDoc([], []);
      revision := 0;
      entities := [];
      layerVisible := map[];
      layerLocked := map[];
      buckets := map[];
      reasonLogs := [];
      selection := [];
      sent := [];
      new;
      assert FlagTable(document.layers, VisibleFlag) == map[] && FlagTable(document.layers, LockedFlag) == map[];
    }

    /** `setDocumentJson`: store the document, advance the revision by one, rebuild the caches. */
    method SetDocumentJson(d: DeskDoc)
      requires |reasonLogs| <= LOG_CAP
      modifies this
      ensures Valid()
      ensures View() == Published(old(View()), d)
    {
      document := d;
      revision := NextRevision(revision);
      RebuildCache();
    }

    /** `rebuildCache`: the layer tables, the shown entities with their rectangles, and the grid. */
    method RebuildCache()
      requires revision < U64 && |reasonLogs| <= LOG_CAP
      modifies this
      ensures Valid()
      ensures View() == old(View())
    {
      var visible: map<string, bool> := map[];
      var locked: map<string, bool> := map[];
      var i := 0;
      while i < |document.layers|
        invariant 0 <= i <= |document.layers|
        invariant visible == FlagTable(document.layers[..i], VisibleFlag)
        invariant locked == FlagTable(document.layers[..i], LockedFlag)
      {
        assert document.layers[..i + 1][..i] == document.layers[..i];
        var l := document.layers[i];
        visible := visible[l.id := OrDefault(l.visible, true)];
        locked := locked[l.id := OrDefault(l.locked, false)];
        i := i + 1;
      }
      assert document.layers[..i] == document.layers;
      layerVisible, layerLocked := visible, locked;
      var es: seq<RenderEntity> := [];
      var k := 0;
      while k < |document.entities|
        invariant 0 <= k <= |document.entities|
        invariant es == Rendered(document.entities[..k], visible, locked)
        invariant layerVisible == visible && layerLocked == locked && View() == old(View())
      {
        assert document.entities[..k + 1][..k] == document.entities[..k];
        var e := document.entities[k];
        if Lookup(visible, e.layerId, true) && !Lookup(locked, e.layerId, false) {
          var box := ComputeBox(e.geom);
          es := es + [RenderEntity(e.id, e.layerId, e.geom, box)];
        }
        k := k + 1;
      }
      assert document.entities[..k] == document.entities;
      entities := es;
      var grid := new SpatialIndex.Build(CELL, Boxes(es));
      buckets := grid.buckets;
    }

    /** `latestReasonLogs(n)`: the last min(n, size) entries in order, none for n <= 0. */
    method LatestReasonLogs(n: int) returns (out: seq<KernelReason>)
      ensures out == if n <= 0 then [] else Last(reasonLogs, n as nat)
    {
      if n <= 0 || |reasonLogs| == 0 {
        return [];
      }
      var start := if |reasonLogs| - n > 0 then |reasonLogs| - n else 0;
      out := [];
      var i := start;
      while i < |reasonLogs|
        invariant start <= i <= |reasonLogs|
        invariant out == reasonLogs[start..i]
      {
        out := out + [reasonLogs[i]];
        i := i + 1;
      }
    }

    /**
     * `querySpatialCandidates`: each index at most once, and exactly the
     * positions of the cached entities whose rectangle's cells meet the
     * window's cells.  Nothing is filtered by exact overlap, and the order
     * is the sweep order.
     */
    method QuerySpatialCandidates(p: Vec2, radius: real) returns (out: seq<nat>)
      requires Valid()
      ensures Distinct(out)
      ensures forall j: nat :: j in out <==> j < |entities| && CellsMeet(CELL, entities[j].box, Window(p, radius))
    {
      var region := Window(p, radius);
      ghost var boxes := Boxes(entities);
      out := [];
      var seen: set<nat> := {};
      var x0, x1 := CellOf(region.minX, CELL), CellOf(region.maxX, CELL);
      var ix := x0;
      while ix <= x1
        invariant x0 <= ix && (ix <= x1 + 1 || ix == x0)
        invariant forall j: nat :: j in seen <==> j < |boxes| && SweptBy(CELL, boxes[j], region, ix, CellOf(region.minY, CELL))
        invariant forall j: nat :: j in out <==> j in seen
        invariant Distinct(out)
        decreases x1 - ix
      {
        out, seen := QueryColumn(region, ix, out, seen);
        ix := ix + 1;
      }
      assert forall j: nat :: j < |boxes| ==>
        (SweptBy(CELL, boxes[j], region, ix, CellOf(region.minY, CELL)) <==> CellsMeet(CELL, boxes[j], region));
    }

    /** The rows of one column of the window. */
    method QueryColumn(region: Aabb, ix: int, out0: seq<nat>, seen0: set<nat>) returns (out: seq<nat>, seen: set<nat>)
      requires Valid()
      requires CellOf(region.minX, CELL) <= ix <= CellOf(region.maxX, CELL)
      requires forall j: nat :: j in seen0 <==> j < |entities| && SweptBy(CELL, Boxes(entities)[j], region, ix, CellOf(region.minY, CELL))
      requires forall j: nat :: j in out0 <==> j in seen0
      requires Distinct(out0)
      ensures forall j: nat :: j in seen <==> j < |entities| && SweptBy(CELL, Boxes(entities)[j], region, ix + 1, CellOf(region.minY, CELL))
      ensures forall j: nat :: j in out <==> j in seen
      ensures Distinct(out)
    {
      out, seen := out0, seen0;
      var y0, y1 := CellOf(region.minY, CELL), CellOf(region.maxY, CELL);
      var iy := y0;
      while iy <= y1
        invariant y0 <= iy && (iy <= y1 + 1 || iy == y0)
        invariant forall j: nat :: j in seen <==> j < |entities| && SweptBy(CELL, Boxes(entities)[j], region, ix, iy)
        invariant forall j: nat :: j in out <==> j in seen
        invariant Distinct(out)
        decreases y1 - iy
      {
        out, seen := QueryCell(region, ix, iy, out, seen);
        iy := iy + 1;
      }
    }

    /** One bucket: an index not seen before is marked seen and kept. */
    method QueryCell(region: Aabb, ix: int, iy: int, out0: seq<nat>, seen0: set<nat>) returns (out: seq<nat>, seen: set<nat>)
      requires Valid()
      requires CellOf(region.minX, CELL) <= ix <= CellOf(region.maxX, CELL)
      requires CellOf(region.minY, CELL) <= iy <= CellOf(region.maxY, CELL)
      requires forall j: nat :: j in seen0 <==> j < |entities| && SweptBy(CELL, Boxes(entities)[j], region, ix, iy)
      requires forall j: nat :: j in out0 <==> j in seen0
      requires Distinct(out0)
      ensures forall j: nat :: j in seen <==> j < |entities| && SweptBy(CELL, Boxes(entities)[j], region, ix, iy + 1)
      ensures forall j: nat :: j in out <==> j in seen
      ensures Distinct(out)
    {
      out, seen := out0, seen0;
      var v := BucketOf(buckets, (ix, iy));
      var k := 0;
      while k < |v|
        invariant 0 <= k <= |v|
        invariant forall j: nat :: j in seen <==> (j in seen0 || j in v[..k])
        invariant forall j: nat :: j in out <==> j in seen
        invariant Distinct(out)
      {
        var idx := v[k];
        assert v[..k + 1] == v[..k] + [idx];
        if idx !in seen {
          seen := seen + {idx};
          out := out + [idx];
        }
        k := k + 1;
      }
      assert v[..k] == v;
      forall j: nat
        ensures j in seen <==> j < |entities| && SweptBy(CELL, Boxes(entities)[j], region, ix, iy + 1)
      {
        assert j in BucketOf(buckets, (ix, iy)) <==> InBlock(CELL, Boxes(entities), (ix, iy), j);
      }
    }

    /** `selection().setSingle(id)`: the selection becomes exactly that id. */
    method SetSingle(id: string)
      modifies this
      ensures View() == old(View()).(selection := [id])
      ensures entities == old(entities) && buckets == old(buckets)
      ensures layerVisible == old(layerVisible) && layerLocked == old(layerLocked)
    {
      selection := [id];
    }

    /** A call through the history handle whose reply the caller reads itself. */
    method Send(c: Call)
      modifies this
      ensures View() == Sent(old(View()), c)
      ensures entities == old(entities) && buckets == old(buckets)
      ensures layerVisible == old(layerVisible) && layerLocked == old(layerLocked)
    {
      sent := sent + [c];
    }

    /** A tool's commit: make the call, and publish the returned document when the kernel reports ok. */
    method Commit(c: Call, reply: DocReply)
      requires Valid()
      modifies this
      ensures Valid()
      ensures View() == Replied(old(View()), c, reply)
    {
      Send(c);
      if reply.Ok? {
        SetDocumentJson(reply.value);
      }
    }

    /** `undo`: send the current document back through the history. */
    method Undo(reply: DocReply) returns (ok: bool, reason: Option<KernelReason>)
      requires Valid()
      modifies this
      ensures Valid()
      ensures ok == reply.Ok? && reason == (if reply.Ok? then None else Some(reply.error))
      ensures View() == Updated(old(View()), HistoryUndo(old(document)), reply)
    {
      ok, reason := UpdateDocument(HistoryUndo(document), reply);
    }

    /** `redo`: send the current document forward through the history. */
    method Redo(reply: DocReply) returns (ok: bool, reason: Option<KernelReason>)
      requires Valid()
      modifies this
      ensures Valid()
      ensures ok == reply.Ok? && reason == (if reply.Ok? then None else Some(reply.error))
      ensures View() == Updated(old(View()), HistoryRedo(old(document)), reply)
    {
      ok, reason := UpdateDocument(HistoryRedo(document), reply);
    }

    /** `callDocUpdate` followed by the publish on ok that undo and redo share. */
    method UpdateDocument(c: Call, reply: DocReply) returns (ok: bool, reason: Option<KernelReason>)
      requires Valid()
      modifies this
      ensures Valid()
      ensures ok == reply.Ok? && reason == (if reply.Ok? then None else Some(reply.error))
      ensures View() == Updated(old(View()), c, reply)
    {
      Send(c);
      ok := reply.Ok?;
      if reply.Ok? {
        reason := None;
        SetDocumentJson(reply.value);
      } else {
        reason := Some(reply.error);
        LogPushKeepsLatest(reasonLogs, reply.error);
        reasonLogs := LogPush(reasonLogs, reply.error);
      }
    }
  }

  /** An undo or redo call: published on ok, logged otherwise. */
  function Updated(v: StoreView, c: Call, reply: DocReply): StoreView
  {
    if reply.Ok? then Published(Sent(v, c), reply.value)
    else Sent(v, c).(reasonLogs := LogPush(v.reasonLogs, reply.error))
  }

  /** An undo or redo replaces the document only when the kernel reports ok, and a failure is logged. */
  lemma UndoReplacesOnlyOnOk(v: StoreView, c: Call, reply: DocReply)
    requires |v.reasonLogs| <= LOG_CAP
    ensures var w := Updated(v, c, reply);
      && w.sent == v.sent + [c] && w.selection == v.selection
      && (reply.Ok? ==> w.document == reply.value && w.revision == NextRevision(v.revision) && w.reasonLogs == v.reasonLogs)
      && (reply.Err? ==> w.document == v.document && w.revision == v.revision
                         && w.reasonLogs == Last(v.reasonLogs + [reply.error], LOG_CAP))
  {
    if reply.Err? {
      LogPushKeepsLatest(v.reasonLogs, reply.error);
    }
  }
}
