/**
 * core/crates/diycad_nesting/src/score.rs: the metrics of one packing.  The
 * area placed on each sheet instance is accumulated (placements naming no
 * instance are ignored), turned into a utilisation per sheet, and the score
 * rewards utilisation and charges for sheets used, cuts and, heavily, for
 * every unplaced part.
 */
module NestingScore {
  import opened Model
  import opened NestingModel
  import opened NestingPack
  import opened Seqs

  const UNPLACED_PENALTY: real := 1000.0

  function SheetArea(s: SheetDef): real { s.width * s.height }

  function RectArea(r: PlacementRect): real { r.width * r.height }

  /** The area of every sheet instance, definitions in order. */
  function SheetAreas(defs: seq<SheetDef>): (r: seq<real>)
    ensures |r| == TotalQuantity(defs)
  {
    if defs == [] then []
    else
      var s := defs[|defs| - 1];
      SheetAreas(defs[..|defs| - 1]) + Repeat(SheetArea(s), s.quantity)
  }

  /** Each area is the area of the matching sheet the packer uses. */
  lemma {:induction false} SheetAreasMatchSheets(defs: seq<SheetDef>)
    ensures |SheetAreas(defs)| == |SheetCursors(defs)|
    ensures forall k :: 0 <= k < |SheetAreas(defs)| ==>
      SheetAreas(defs)[k] == SheetCursors(defs)[k].sw * SheetCursors(defs)[k].sh
    decreases |defs|
  {
    if defs != [] {
      var init := defs[..|defs| - 1];
      SheetAreasMatchSheets(init);
      var s := defs[|defs| - 1];
      var a := SheetAreas(defs);
      var c := SheetCursors(defs);
      assert a == SheetAreas(init) + Repeat(SheetArea(s), s.quantity);
      assert c == SheetCursors(init) + Repeat(FreshCursor(s), s.quantity);
      forall k | 0 <= k < |a|
        ensures a[k] == c[k].sw * c[k].sh
      {
        if k < |SheetAreas(init)| {
          assert a[k] == SheetAreas(init)[k] && c[k] == SheetCursors(init)[k];
        } else {
          assert c[k] == Repeat(FreshCursor(s), s.quantity)[k - |SheetAreas(init)|];
        }
      }
    }
  }

  /** The areas as the source collects them: one push per instance. */
  method CollectAreas(defs: seq<SheetDef>) returns (areas: seq<real>)
    ensures areas == SheetAreas(defs)
  {
    areas := [];
    var i := 0;
    while i < |defs|
      invariant 0 <= i <= |defs|
      invariant areas == SheetAreas(defs[..i])
    {
      assert defs[..i + 1][..i] == defs[..i];
      ghost var before := areas;
      var q := 0;
      while q < defs[i].quantity
        invariant 0 <= q <= defs[i].quantity
        invariant areas == before + Repeat(SheetArea(defs[i]), q)
      {
        areas := areas + [SheetArea(defs[i])];
        q := q + 1;
      }
      i := i + 1;
    }
    assert defs[..i] == defs;
  }

  /** The area of the placements on sheet instance k. */
  function AreaOn(pls: seq<PlacementRect>, k: nat): real
  {
    if pls == [] then 0.0
    else
      var p := pls[|pls| - 1];
      AreaOn(pls[..|pls| - 1], k) + (if p.sheetInstanceIndex == k then RectArea(p) else 0.0)
  }

  /** The used area per instance after the placements in turn, an out-of-range index changing nothing. */
  function Used(n: nat, pls: seq<PlacementRect>): (u: seq<real>)
    ensures |u| == n
  {
    if pls == [] then seq(n, _ => 0.0)
    else
      var u := Used(n, pls[..|pls| - 1]);
      var p := pls[|pls| - 1];
      if p.sheetInstanceIndex < n then u[p.sheetInstanceIndex := u[p.sheetInstanceIndex] + RectArea(p)] else u
  }

  /** The used area of each instance is exactly the area placed on it. */
  lemma {:induction false} UsedIsAreaOn(n: nat, pls: seq<PlacementRect>)
    ensures forall k :: 0 <= k < n ==> Used(n, pls)[k] == AreaOn(pls, k)
    decreases |pls|
  {
    if pls != [] {
      UsedIsAreaOn(n, pls[..|pls| - 1]);
    }
  }

  /** A placement naming no sheet instance leaves every used area as it was. */
  lemma OutOfRangeIgnored(n: nat, pls: seq<PlacementRect>, p: PlacementRect)
    requires p.sheetInstanceIndex >= n
    ensures Used(n, pls + [p]) == Used(n, pls)
  {
    assert (pls + [p])[..|pls|] == pls;
  }

  /** Placed area over sheet area, 0 for a sheet without area. */
  function Utilization(used: seq<real>, areas: seq<real>): (r: seq<real>)
    requires |used| == |areas|
    ensures |r| == |used|
    ensures forall k :: 0 <= k < |r| ==> (areas[k] > 0.0 ==> r[k] * areas[k] == used[k]) && (areas[k] <= 0.0 ==> r[k] == 0.0)
  {
    seq(|used|, k requires 0 <= k < |used| => if areas[k] > 0.0 then used[k] / areas[k] else 0.0)
  }

  function UsedSheets(used: seq<real>): nat
  {
    if used == [] then 0 else UsedSheets(used[..|used| - 1]) + (if used[|used| - 1] > 0.0 then 1 else 0)
  }

  function Total(xs: seq<real>): real
  {
    if xs == [] then 0.0 else Total(xs[..|xs| - 1]) + xs[|xs| - 1]
  }

  /** The number of used sheets is at most the number of sheets, and 0 exactly when no sheet has area placed on it. */
  lemma {:induction false} UsedSheetsBounds(used: seq<real>)
    ensures UsedSheets(used) <= |used|
    ensures UsedSheets(used) == 0 <==> forall k :: 0 <= k < |used| ==> used[k] <= 0.0
    decreases |used|
  {
    if used != [] {
      var init := used[..|used| - 1];
      UsedSheetsBounds(init);
      assert forall k :: 0 <= k < |init| ==> init[k] == used[k];
    }
  }

  /** The weighted score: utilisation is rewarded; sheets, cuts and unplaced parts are charged. */
  function Score(o: NestObjective, util: seq<real>, count: nat, cuts: nat, unplaced: nat): real
  {
    o.wUtilization * Total(util) - o.wSheetCount * count as real - o.wCutCount * cuts as real
    - unplaced as real * UNPLACED_PENALTY
  }

  /** The metrics as compute_metrics defines them. */
  function Metrics(job: NestJob, pls: seq<PlacementRect>, statuses: seq<PartPlacementStatus>): (m: NestMetrics)
    ensures |m.utilizationPerSheet| == TotalQuantity(job.sheetDefs)
    ensures m.cutCountEstimate == 4 * |pls|
  {
    var areas := SheetAreas(job.sheetDefs);
    var used := Used(|areas|, pls);
    var util := Utilization(used, areas);
    var count := UsedSheets(used);
    var cuts := |pls| * 4;
    NestMetrics(util, count, cuts, Score(job.objective, util, count, cuts, UnplacedCount(statuses)))
  }

  /** An unplaced part costs exactly 1000 points, and a placed part's status costs nothing. */
  lemma UnplacedPenalty(job: NestJob, pls: seq<PlacementRect>, statuses: seq<PartPlacementStatus>, s: PartPlacementStatus)
    ensures s.status == Unplaced ==> Metrics(job, pls, statuses + [s]).score == Metrics(job, pls, statuses).score - 1000.0
    ensures s.status == Placed ==> Metrics(job, pls, statuses + [s]).score == Metrics(job, pls, statuses).score
    ensures Metrics(job, pls, statuses + [s]).utilizationPerSheet == Metrics(job, pls, statuses).utilizationPerSheet
  {
    assert (statuses + [s])[..|statuses|] == statuses;
  }

  /** The used areas as the source accumulates them, in a buffer of one slot per sheet instance. */
  method AccumulateUsed(n: nat, pls: seq<PlacementRect>) returns (used: array<real>)
    ensures fresh(used) && used[..] == Used(n, pls)
  {
    used := new real[n](_ => 0.0);
    var i := 0;
    assert pls[..0] == [];
    while i < |pls|
      invariant 0 <= i <= |pls| && used.Length == n
      invariant used[..] == Used(n, pls[..i])
    {
      assert pls[..i + 1][..i] == pls[..i] && pls[..i + 1][i] == pls[i];
      var p := pls[i];
      var idx := p.sheetInstanceIndex;
      if idx < used.Length {
        used[idx] := used[idx] + RectArea(p);
      }
      i := i + 1;
    }
    assert pls[..i] == pls;
  }

  /** compute_metrics: the metrics of a packing, as `Metrics` defines them. */
  method ComputeMetrics(job: NestJob, pls: seq<PlacementRect>, statuses: seq<PartPlacementStatus>)
    returns (m: NestMetrics)
    ensures m == Metrics(job, pls, statuses)
  {
    var areas := CollectAreas(job.sheetDefs);
    var used := AccumulateUsed(|areas|, pls);
    var util := Utilization(used[..], areas);
    var count := UsedSheets(used[..]);
    var cuts := |pls| * 4;
    m := NestMetrics(util, count, cuts, Score(job.objective, util, count, cuts, UnplacedCount(statuses)));
  }
}
