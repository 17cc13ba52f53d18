/**
 * core/crates/diycad_nesting/src/pack.rs: shelf packing.  Every sheet
 * definition contributes `quantity` sheet instances, each with a cursor
 * (x, y and the height of the current row).  Parts are taken in order; for
 * each, the sheets are tried in order and on each sheet the part's upright
 * and, when allowed, quarter-turned orientation.  An orientation that does
 * not fit the row wraps the cursor to a new row, and this wrap stays even
 * when the part then does not fit below.  A part placed nowhere is reported
 * unplaced, as too large when no sheet definition could hold it in an
 * allowed orientation.
 */
module NestingPack {
  import opened Wrappers
  import opened Serialize
  import opened Model
  import opened NestingModel
  import opened Seqs

  /** A sheet instance: its size and its cursor. */
  datatype Cursor = Cursor(sw: real, sh: real, cx: real, cy: real, rowH: real)

  /** An orientation: the footprint tried and its rotation in degrees. */
  datatype Dim = Dim(w: real, h: real, rot: real)

  /** Where an orientation went: the cursor position it was placed at. */
  datatype Spot = Spot(x: real, y: real, d: Dim)

  /** An attempt on one sheet: the sheet's cursor afterwards and, if placed, where. */
  datatype Attempt = Attempt(cursor: Cursor, spot: Option<Spot>)

  /** The packer's state after some parts: sheets, placements, failure codes and statuses. */
  datatype PackState = PackState(
    sheets: seq<Cursor>, placements: seq<PlacementRect>, codes: seq<string>, statuses: seq<PartPlacementStatus>)

  // ---------------------------------------------------------------------
  // Sheet instances
  // ---------------------------------------------------------------------

  function TotalQuantity(defs: seq<SheetDef>): nat
  {
    if defs == [] then 0 else TotalQuantity(defs[..|defs| - 1]) + defs[|defs| - 1].quantity
  }

  /** A sheet instance before packing: the definition's size, the cursor at the origin, an empty row. */
  function FreshCursor(s: SheetDef): Cursor
  {
    Cursor(s.width, s.height, 0.0, 0.0, 0.0)
  }


  /** One fresh cursor per sheet instance, definitions in order. */
  function SheetCursors(defs: seq<SheetDef>): (r: seq<Cursor>)
    ensures |r| == TotalQuantity(defs)
  {
    if defs == [] then [] else SheetCursors(defs[..|defs| - 1]) + Repeat(FreshCursor(defs[|defs| - 1]), defs[|defs| - 1].quantity)
  }

  /** Every sheet has the size of one of the definitions. */
  ghost predicate SizedBy(defs: seq<SheetDef>, sheets: seq<Cursor>)
  {
    forall k :: 0 <= k < |sheets| ==> exists j :: 0 <= j < |defs| && sheets[k].sw == defs[j].width && sheets[k].sh == defs[j].height
  }

  /** The sheet instances number sum(quantity), all start at the origin with an empty row, and each has a definition's size. */
  lemma {:induction false} SheetCursorsShape(defs: seq<SheetDef>)
    ensures var r := SheetCursors(defs);
      |r| == TotalQuantity(defs) && SizedBy(defs, r)
      && forall k :: 0 <= k < |r| ==> r[k].cx == 0.0 && r[k].cy == 0.0 && r[k].rowH == 0.0
    decreases |defs|
  {
    if defs != [] {
      var init := defs[..|defs| - 1];
      var last := defs[|defs| - 1];
      SheetCursorsShape(init);
      var a := SheetCursors(init);
      var b := Repeat(FreshCursor(last), last.quantity);
      var r := SheetCursors(defs);
      assert r == a + b;
      forall k | 0 <= k < |r|
        ensures exists j :: 0 <= j < |defs| && r[k].sw == defs[j].width && r[k].sh == defs[j].height
      {
        if k < |a| {
          assert r[k] == a[k];
          var j :| 0 <= j < |init| && a[k].sw == init[j].width && a[k].sh == init[j].height;
          assert defs[j] == init[j];
        } else {
          assert r[k] == b[k - |a|];
          assert defs[|defs| - 1] == last;
        }
      }
    }
  }

  /** The sheet list as the source builds it: one push per instance. */
  method BuildSheets(defs: seq<SheetDef>) returns (sheets: seq<Cursor>)
    ensures sheets == SheetCursors(defs)
  {
    sheets := [];
    var i := 0;
    while i < |defs|
      invariant 0 <= i <= |defs|
      invariant sheets == SheetCursors(defs[..i])
    {
      assert defs[..i + 1][..i] == defs[..i];
      var q := 0;
      ghost var before := sheets;
      while q < defs[i].quantity
        invariant 0 <= q <= defs[i].quantity
        invariant sheets == before + Repeat(FreshCursor(defs[i]), q)
      {
        sheets := sheets + [Cursor(defs[i].width, defs[i].height, 0.0, 0.0, 0.0)];
        q := q + 1;
      }
      i := i + 1;
    }
    assert defs[..i] == defs;
  }

  // ---------------------------------------------------------------------
  // Trying one part
  // ---------------------------------------------------------------------

  /** The upright footprint, then the quarter-turned one when the part may rotate. */
  function Orientations(p: PartEval): (r: seq<Dim>)
    ensures 1 <= |r| <= 2 && r[0] == Dim(p.width, p.height, 0.0)
    ensures |r| == 2 <==> p.allowRotate
    ensures |r| == 2 ==> r[1] == Dim(p.height, p.width, 90.0)
  {
    [Dim(p.width, p.height, 0.0)] + (if p.allowRotate then [Dim(p.height, p.width, 90.0)] else [])
  }

  /** One orientation on one sheet: skipped if larger than the sheet, else the row wraps when full and it goes in if the rows below have room. */
  function TryDim(c: Cursor, d: Dim): (t: Attempt)
    ensures t.cursor.sw == c.sw && t.cursor.sh == c.sh
    ensures t.spot.Some? ==>
      t.spot.value.d == d && t.spot.value.x + d.w <= c.sw && t.spot.value.y + d.h <= c.sh && d.w <= c.sw && d.h <= c.sh
  {
    if d.w > c.sw || d.h > c.sh then Attempt(c, None)
    else
      var c1 := if c.cx + d.w > c.sw then c.(cx := 0.0, cy := c.cy + c.rowH, rowH := 0.0) else c;
      if c1.cy + d.h > c1.sh then Attempt(c1, None)
      else Attempt(c1.(cx := c1.cx + d.w, rowH := Max(c1.rowH, d.h)), Some(Spot(c1.cx, c1.cy, d)))
  }

  /** The orientations in turn on one sheet, stopping at the first that goes in. */
  function TryDims(c: Cursor, ds: seq<Dim>): (t: Attempt)
    decreases |ds|
    ensures t.cursor.sw == c.sw && t.cursor.sh == c.sh
    ensures t.spot.Some? ==>
      t.spot.value.d in ds
      && t.spot.value.x + t.spot.value.d.w <= c.sw && t.spot.value.y + t.spot.value.d.h <= c.sh
      && t.spot.value.d.w <= c.sw && t.spot.value.d.h <= c.sh
  {
    if ds == [] then Attempt(c, None)
    else
      var t := TryDim(c, ds[0]);
      if t.spot.Some? then t else TryDims(t.cursor, ds[1..])
  }

  /** The rectangle recorded for a part placed on sheet k. */
  function RectAt(p: PartEval, k: nat, s: Spot): PlacementRect
  {
    PlacementRect(p.partId, k, s.x, s.y, s.d.rot, s.d.w, s.d.h)
  }

  /** The sheets from k on, in order, until one takes the part; the sheets tried are left with their cursors moved. */
  function PlaceFrom(sheets: seq<Cursor>, p: PartEval, k: nat): (r: (seq<Cursor>, Option<PlacementRect>))
    requires k <= |sheets|
    decreases |sheets| - k
  {
    if k == |sheets| then (sheets, None)
    else
      var t := TryDims(sheets[k], Orientations(p));
      var next := sheets[k := t.cursor];
      if t.spot.Some? then (next, Some(RectAt(p, k, t.spot.value))) else PlaceFrom(next, p, k + 1)
  }

  /** The sheet sizes of two sheet lists agree. */
  predicate SameSizes(a: seq<Cursor>, b: seq<Cursor>)
  {
    |a| == |b| && forall k :: 0 <= k < |a| ==> a[k].sw == b[k].sw && a[k].sh == b[k].sh
  }

  /** A rectangle lies within its sheet. */
  predicate FitsSheet(sheets: seq<Cursor>, r: PlacementRect)
  {
    r.sheetInstanceIndex < |sheets|
    && r.width <= sheets[r.sheetInstanceIndex].sw && r.height <= sheets[r.sheetInstanceIndex].sh
    && r.x + r.width <= sheets[r.sheetInstanceIndex].sw && r.y + r.height <= sheets[r.sheetInstanceIndex].sh
  }

  /** The rectangle is the part upright, or quarter-turned when the part allows it. */
  predicate Oriented(p: PartEval, r: PlacementRect)
  {
    r.partId == p.partId
    && ((r.rotationDeg == 0.0 && r.width == p.width && r.height == p.height)
        || (p.allowRotate && r.rotationDeg == 90.0 && r.width == p.height && r.height == p.width))
  }

  /**
   * Placing a part keeps every sheet's size; a rectangle it records lies
   * within its sheet, in an allowed orientation of the part.
   */
  lemma {:induction false} PlaceFromSound(sheets: seq<Cursor>, p: PartEval, k: nat)
    requires k <= |sheets|
    ensures var r := PlaceFrom(sheets, p, k);
      SameSizes(r.0, sheets) && (r.1.Some? ==> FitsSheet(sheets, r.1.value) && Oriented(p, r.1.value))
    decreases |sheets| - k
  {
    if k < |sheets| {
      var t := TryDims(sheets[k], Orientations(p));
      var next := sheets[k := t.cursor];
      if t.spot.None? {
        PlaceFromSound(next, p, k + 1);
      }
    }
  }

  /** The sheet definition could hold the part in an allowed orientation. */
  predicate FitsDef(s: SheetDef, p: PartEval)
  {
    (p.width <= s.width && p.height <= s.height) || (p.allowRotate && p.height <= s.width && p.width <= s.height)
  }

  /** The part fits no sheet definition in any allowed orientation. */
  predicate TooLarge(defs: seq<SheetDef>, p: PartEval)
  {
    !exists j :: 0 <= j < |defs| && FitsDef(defs[j], p)
  }

  /** A part no definition can hold is placed on no sheet whose size comes from the definitions. */
  lemma TooLargeNeverPlaced(defs: seq<SheetDef>, sheets: seq<Cursor>, p: PartEval, k: nat)
    requires k <= |sheets| && SizedBy(defs, sheets) && TooLarge(defs, p)
    ensures PlaceFrom(sheets, p, k).1.None?
  {
    PlaceFromSound(sheets, p, k);
    var r := PlaceFrom(sheets, p, k);
    if r.1.Some? {
      var rect := r.1.value;
      var j :| 0 <= j < |defs| && sheets[rect.sheetInstanceIndex].sw == defs[j].width
        && sheets[rect.sheetInstanceIndex].sh == defs[j].height;
      assert FitsDef(defs[j], p);
    }
  }

  // ---------------------------------------------------------------------
  // pack_parts
  // ---------------------------------------------------------------------

  function FailureCode(defs: seq<SheetDef>, p: PartEval): ReasonCode
  {
    if TooLarge(defs, p) then NestPartTooLargeForAnySheet else NestNoFeasiblePositionWithMarginAndKerf
  }

  /** One part: placed on the first sheet that takes it, or reported with its failure code. */
  function PackStep(job: NestJob, st: PackState, p: PartEval): PackState
  {
    var r := PlaceFrom(st.sheets, p, 0);
    if r.1.Some? then
      PackState(r.0, st.placements + [r.1.value], st.codes, st.statuses + [PartPlacementStatus(p.partId, Placed, None)])
    else
      var code := FailureCode(job.sheetDefs, p);
      PackState(r.0, st.placements, st.codes + [AsStr(code)],
                st.statuses + [PartPlacementStatus(p.partId, Unplaced, Some(FromCode(code)))])
  }

  /** The packer's state after the given parts, starting from fresh sheets. */
  function PackAll(job: NestJob, parts: seq<PartEval>): (st: PackState)
    ensures |st.statuses| == |parts|
  {
    if parts == [] then PackState(SheetCursors(job.sheetDefs), [], [], [])
    else PackStep(job, PackAll(job, parts[..|parts| - 1]), parts[|parts| - 1])
  }

  function UnplacedCount(ss: seq<PartPlacementStatus>): nat
  {
    if ss == [] then 0 else UnplacedCount(ss[..|ss| - 1]) + (if ss[|ss| - 1].status == Unplaced then 1 else 0)
  }

  /** The status the packer reports for one part. */
  predicate StatusFor(defs: seq<SheetDef>, p: PartEval, s: PartPlacementStatus)
  {
    s.partId == p.partId
    && (s.status == Placed ==> s.reason.None? && !TooLarge(defs, p))
    && (s.status == Unplaced ==> s.reason == Some(FromCode(FailureCode(defs, p))))
  }

  /** Packing keeps the number of sheets and their sizes, so they stay sized by the definitions. */
  lemma {:induction false} PackAllSizes(job: NestJob, parts: seq<PartEval>)
    ensures SameSizes(PackAll(job, parts).sheets, SheetCursors(job.sheetDefs))
    ensures SizedBy(job.sheetDefs, PackAll(job, parts).sheets)
    decreases |parts|
  {
    SheetCursorsShape(job.sheetDefs);
    if parts != [] {
      var front := parts[..|parts| - 1];
      PackAllSizes(job, front);
      PlaceFromSound(PackAll(job, front).sheets, parts[|parts| - 1], 0);
    }
    var init := SheetCursors(job.sheetDefs);
    var now := PackAll(job, parts).sheets;
    forall k | 0 <= k < |now|
      ensures exists j :: 0 <= j < |job.sheetDefs| && now[k].sw == job.sheetDefs[j].width && now[k].sh == job.sheetDefs[j].height
    {
      assert init[k].sw == now[k].sw && init[k].sh == now[k].sh;
    }
  }

  /**
   * One status per part, in order: Placed with no reason, or Unplaced with
   * the part's failure code; a part no definition can hold is never placed.
   */
  lemma {:induction false} PackAllStatuses(job: NestJob, parts: seq<PartEval>)
    ensures forall k :: 0 <= k < |parts| ==> StatusFor(job.sheetDefs, parts[k], PackAll(job, parts).statuses[k])
    decreases |parts|
  {
    if parts != [] {
      var front := parts[..|parts| - 1];
      var p := parts[|parts| - 1];
      PackAllStatuses(job, front);
      var prev := PackAll(job, front);
      if TooLarge(job.sheetDefs, p) {
        PackAllSizes(job, front);
        TooLargeNeverPlaced(job.sheetDefs, prev.sheets, p, 0);
      }
      var st := PackAll(job, parts);
      forall k | 0 <= k < |parts|
        ensures StatusFor(job.sheetDefs, parts[k], st.statuses[k])
      {
        if k < |front| {
          assert parts[k] == front[k] && st.statuses[k] == prev.statuses[k];
        }
      }
    }
  }

  /** One failure code per unplaced part, and one rectangle per part that is not unplaced. */
  lemma {:induction false} PackAllCounts(job: NestJob, parts: seq<PartEval>)
    ensures var st := PackAll(job, parts);
      |st.codes| == UnplacedCount(st.statuses) && |st.placements| + |st.codes| == |parts|
    decreases |parts|
  {
    if parts != [] {
      var front := parts[..|parts| - 1];
      PackAllCounts(job, front);
      var st := PackAll(job, parts);
      assert st.statuses[..|st.statuses| - 1] == PackAll(job, front).statuses;
    }
  }

  /** Every rectangle lies within its sheet, in an allowed orientation of one of the parts. */
  lemma {:induction false} PackAllPlacements(job: NestJob, parts: seq<PartEval>)
    ensures forall r :: r in PackAll(job, parts).placements ==>
      FitsSheet(SheetCursors(job.sheetDefs), r) && exists k :: 0 <= k < |parts| && Oriented(parts[k], r)
    decreases |parts|
  {
    if parts != [] {
      var front := parts[..|parts| - 1];
      var p := parts[|parts| - 1];
      PackAllPlacements(job, front);
      PackAllSizes(job, front);
      var prev := PackAll(job, front);
      PlaceFromSound(prev.sheets, p, 0);
      var init := SheetCursors(job.sheetDefs);
      forall q | q in PackAll(job, parts).placements
        ensures FitsSheet(init, q) && exists k :: 0 <= k < |parts| && Oriented(parts[k], q)
      {
        if q in prev.placements {
          var k :| 0 <= k < |front| && Oriented(front[k], q);
          assert parts[k] == front[k];
        } else {
          assert Oriented(parts[|parts| - 1], q);
        }
      }
    }
  }

  /** The statuses of the parts packed so far follow the statuses pushed before. */
  predicate Packed(job: NestJob, st: PackState, statuses0: seq<PartPlacementStatus>,
                   sheets: seq<Cursor>, placements: seq<PlacementRect>, codes: seq<string>,
                   statuses: seq<PartPlacementStatus>)
  {
    sheets == st.sheets && placements == st.placements && codes == st.codes && statuses == statuses0 + st.statuses
  }

  /** The orientations of one part on one sheet, as the innermost loop runs them. */
  method TryOrientations(c: Cursor, ds: seq<Dim>) returns (t: Attempt)
    ensures t == TryDims(c, ds)
  {
    var cur := c;
    var j := 0;
    assert ds[0..] == ds;
    while j < |ds|
      invariant 0 <= j <= |ds|
      invariant TryDims(c, ds) == TryDims(cur, ds[j..])
    {
      assert ds[j..][0] == ds[j] && ds[j..][1..] == ds[j + 1..];
      var d := ds[j];
      j := j + 1;
      if d.w > cur.sw || d.h > cur.sh {
        continue;
      }
      if cur.cx + d.w > cur.sw {
        cur := cur.(cx := 0.0, cy := cur.cy + cur.rowH, rowH := 0.0);
      }
      if cur.cy + d.h > cur.sh {
        continue;
      }
      var x, y := cur.cx, cur.cy;
      cur := cur.(cx := cur.cx + d.w, rowH := Max(cur.rowH, d.h));
      return Attempt(cur, Some(Spot(x, y, d)));
    }
    t := Attempt(cur, None);
  }

  /** One part over the sheets in order, each sheet's cursor updated in place. */
  method PlacePart(sheets0: seq<Cursor>, p: PartEval) returns (sheets: seq<Cursor>, placed: Option<PlacementRect>)
    ensures (sheets, placed) == PlaceFrom(sheets0, p, 0)
  {
    sheets := sheets0;
    var k := 0;
    while k < |sheets|
      invariant 0 <= k <= |sheets| && |sheets| == |sheets0|
      invariant PlaceFrom(sheets0, p, 0) == PlaceFrom(sheets, p, k)
    {
      var t := TryOrientations(sheets[k], Orientations(p));
      sheets := sheets[k := t.cursor];
      if t.spot.Some? {
        return sheets, Some(RectAt(p, k, t.spot.value));
      }
      k := k + 1;
    }
    placed := None;
  }

  /**
   * pack_parts: the rectangles placed and the failure codes, with one status
   * per part pushed onto the caller's status list.
   */
  method PackParts(job: NestJob, parts: seq<PartEval>, statuses0: seq<PartPlacementStatus>)
    returns (placements: seq<PlacementRect>, codes: seq<string>, statuses: seq<PartPlacementStatus>)
    ensures var st := PackAll(job, parts);
      placements == st.placements && codes == st.codes && statuses == statuses0 + st.statuses
  {
    var sheets := BuildSheets(job.sheetDefs);
    placements, codes, statuses := [], [], statuses0;
    var i := 0;
    while i < |parts|
      invariant 0 <= i <= |parts|
      invariant Packed(job, PackAll(job, parts[..i]), statuses0, sheets, placements, codes, statuses)
    {
      assert parts[..i + 1][..i] == parts[..i];
      var p := parts[i];
      var placed;
      sheets, placed := PlacePart(sheets, p);
      if placed.Some? {
        placements := placements + [placed.value];
        statuses := statuses + [PartPlacementStatus(p.partId, Placed, None)];
      } else {
        var tooLarge := !exists j :: 0 <= j < |job.sheetDefs| && FitsDef(job.sheetDefs[j], p);
        var code := if tooLarge then NestPartTooLargeForAnySheet else NestNoFeasiblePositionWithMarginAndKerf;
        codes := codes + [AsStr(code)];
        statuses := statuses + [PartPlacementStatus(p.partId, Unplaced, Some(FromCode(code)))];
      }
      i := i + 1;
    }
    assert parts[..i] == parts;
  }
}
