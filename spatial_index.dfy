/**
 * core/crates/sketch/src/query.rs: a uniform grid over bounding boxes.  Each
 * box index is stored in every cell its box covers; a region query visits
 * the region's cells, keeps each index once, filters by the exact overlap
 * test, and returns the indices in ascending order.
 */
module SpatialQuery {
  import opened Model
  import opened Seqs
  import opened Sorting
  import opened Aabbs

  type Key = (int, int)

  /** `(v / cell).floor()`, the grid column or row of a coordinate. */
  function CellOf(v: real, cell: real): int
    requires cell > 0.0
  {
    (v / cell).Floor
  }

  /** The cell `key` lies in the block of cells spanned by box `b`. */
  predicate Covers(cell: real, b: Aabb, key: Key)
    requires cell > 0.0
  {
    CellOf(b.minX, cell) <= key.0 <= CellOf(b.maxX, cell)
    && CellOf(b.minY, cell) <= key.1 <= CellOf(b.maxY, cell)
  }

  /** The integer ranges [a, b] and [c, d] are non-empty and share a value. */
  predicate Meet(a: int, b: int, c: int, d: int)
  {
    a <= b && c <= d && a <= d && c <= b
  }

  /** The blocks of cells spanned by `b` and by `region` share a cell. */
  predicate CellsMeet(cell: real, b: Aabb, region: Aabb)
    requires cell > 0.0
  {
    Meet(CellOf(b.minX, cell), CellOf(b.maxX, cell), CellOf(region.minX, cell), CellOf(region.maxX, cell))
    && Meet(CellOf(b.minY, cell), CellOf(b.maxY, cell), CellOf(region.minY, cell), CellOf(region.maxY, cell))
  }

  lemma CellsMeetIff(cell: real, b: Aabb, region: Aabb)
    requires cell > 0.0
    ensures CellsMeet(cell, b, region) <==> exists key: Key :: Covers(cell, b, key) && Covers(cell, region, key)
  {
    if CellsMeet(cell, b, region) {
      var kx := if CellOf(b.minX, cell) <= CellOf(region.minX, cell) then CellOf(region.minX, cell) else CellOf(b.minX, cell);
      var ky := if CellOf(b.minY, cell) <= CellOf(region.minY, cell) then CellOf(region.minY, cell) else CellOf(b.minY, cell);
      assert Covers(cell, b, (kx, ky)) && Covers(cell, region, (kx, ky));
    }
  }

  lemma CellOfMonotone(x: real, y: real, cell: real)
    requires x <= y && cell > 0.0
    ensures CellOf(x, cell) <= CellOf(y, cell)
  {
    assert y / cell - x / cell == (y - x) / cell;
  }

  /** Well-formed boxes that overlap always share a grid cell, so the grid loses no hit. */
  lemma IntersectingShareCell(cell: real, b: Aabb, region: Aabb)
    requires cell > 0.0 && WellFormed(b) && WellFormed(region) && Intersects(b, region)
    ensures CellsMeet(cell, b, region)
  {
    CellOfMonotone(b.minX, b.maxX, cell);
    CellOfMonotone(b.minY, b.maxY, cell);
    CellOfMonotone(region.minX, region.maxX, cell);
    CellOfMonotone(region.minY, region.maxY, cell);
    CellOfMonotone(b.minX, region.maxX, cell);
    CellOfMonotone(region.minX, b.maxX, cell);
    CellOfMonotone(b.minY, region.maxY, cell);
    CellOfMonotone(region.minY, b.maxY, cell);
  }

  ghost predicate StrictlyIncreasing(s: seq<nat>)
  {
    forall i, j :: 0 <= i < j < |s| ==> s[i] < s[j]
  }

  function NatLeq(): (nat, nat) -> bool
  {
    (a: nat, b: nat) => a <= b
  }

  /** `sort_unstable` of distinct indices: ascending order, same elements. */
  lemma SortedDistinct(s: seq<nat>)
    requires Distinct(s)
    ensures StrictlyIncreasing(SortBy(s, NatLeq()))
    ensures forall j :: j in SortBy(s, NatLeq()) <==> j in s
  {
    var r := SortBy(s, NatLeq());
    SortBySorted(s, NatLeq());
    DistinctPermutation(s, r);
    forall j ensures j in r <==> j in s {
      assert j in r <==> j in multiset(r);
      assert j in s <==> j in multiset(s);
    }
  }

  /**
   * The cells visited so far by a query sweeping `region`'s cells column by
   * column: every full column before `ix`, and the rows of column `ix`
   * before `iy`.  `b`'s block meets that swept area.
   */
  predicate SweptBy(cell: real, b: Aabb, region: Aabb, ix: int, iy: int)
    requires cell > 0.0
  {
    var bx0, bx1 := CellOf(b.minX, cell), CellOf(b.maxX, cell);
    var by0, by1 := CellOf(b.minY, cell), CellOf(b.maxY, cell);
    var rx0 := CellOf(region.minX, cell);
    var ry0, ry1 := CellOf(region.minY, cell), CellOf(region.maxY, cell);
    (Meet(bx0, bx1, rx0, ix - 1) && Meet(by0, by1, ry0, ry1))
    || (bx0 <= ix <= bx1 && Meet(by0, by1, ry0, iy - 1))
  }

  function BucketOf(buckets: map<Key, seq<nat>>, key: Key): seq<nat>
  {
    if key in buckets then buckets[key] else []
  }

  /** Box `j` exists and its block covers cell `key`. */
  ghost predicate InBlock(cell: real, aabbs: seq<Aabb>, key: Key, j: nat)
    requires cell > 0.0
  {
    j < |aabbs| && Covers(cell, aabbs[j], key)
  }

  class SpatialIndex {
    var cell: real
    var buckets: map<Key, seq<nat>>
    var aabbs: seq<Aabb>

    /** `buckets.get(key)`, an absent cell read as empty. */
    function Bucket(key: Key): seq<nat>
      reads this
    {
      BucketOf(buckets, key)
    }

    /** Exactly the indices whose box covers a cell are in that cell's bucket. */
    ghost predicate Valid()
      reads this
    {
      cell > 0.0
      && forall key: Key, j: nat :: j in BucketOf(buckets, key) <==> InBlock(cell, aabbs, key, j)
    }

    /** build: every box index goes into each cell of its block. */
    constructor Build(cell: real, aabbs: seq<Aabb>)
      requires cell > 0.0
      ensures Valid() && this.cell == cell && this.aabbs == aabbs
    {
      this.cell := cell;
      this.aabbs := aabbs;
      buckets := map[];
      new;
      assert forall key: Key :: Bucket(key) == [];
      var idx := 0;
      while idx < |aabbs|
        invariant 0 <= idx <= |aabbs|
        invariant this.cell == cell && this.aabbs == aabbs
        invariant forall key: Key, j: nat :: j in BucketOf(buckets, key) <==> j < idx && InBlock(cell, aabbs, key, j)
      {
        AddBox(idx);
        idx := idx + 1;
      }
    }

    /** The loops over one box's block of cells. */
    method AddBox(idx: nat)
      requires cell > 0.0 && idx < |aabbs|
      requires forall key: Key, j: nat :: j in BucketOf(buckets, key) <==> j < idx && InBlock(cell, aabbs, key, j)
      modifies this
      ensures cell == old(cell) && aabbs == old(aabbs)
      ensures forall key: Key, j: nat :: j in BucketOf(buckets, key) <==> j < idx + 1 && InBlock(cell, aabbs, key, j)
    {
      var bb := aabbs[idx];
      var x0, x1 := CellOf(bb.minX, cell), CellOf(bb.maxX, cell);
      var ix := x0;
      while ix <= x1
        invariant x0 <= ix && (ix <= x1 + 1 || ix == x0)
        invariant cell == old(cell) && aabbs == old(aabbs)
        invariant forall key: Key, j: nat :: j in BucketOf(buckets, key) <==>
          (j < idx && InBlock(cell, aabbs, key, j)) || (j == idx && InBlock(cell, aabbs, key, j) && key.0 < ix)
        decreases x1 - ix
      {
        AddColumn(idx, ix);
        ix := ix + 1;
      }
    }

    method AddColumn(idx: nat, ix: int)
      requires cell > 0.0 && idx < |aabbs|
      requires CellOf(aabbs[idx].minX, cell) <= ix <= CellOf(aabbs[idx].maxX, cell)
      requires forall key: Key, j: nat :: j in BucketOf(buckets, key) <==>
        (j < idx && InBlock(cell, aabbs, key, j)) || (j == idx && InBlock(cell, aabbs, key, j) && key.0 < ix)
      modifies this
      ensures cell == old(cell) && aabbs == old(aabbs)
      ensures forall key: Key, j: nat :: j in BucketOf(buckets, key) <==>
        (j < idx && InBlock(cell, aabbs, key, j)) || (j == idx && InBlock(cell, aabbs, key, j) && key.0 < ix + 1)
    {
      var bb := aabbs[idx];
      var y0, y1 := CellOf(bb.minY, cell), CellOf(bb.maxY, cell);
      var iy := y0;
      while iy <= y1
        invariant y0 <= iy && (iy <= y1 + 1 || iy == y0)
        invariant cell == old(cell) && aabbs == old(aabbs)
        invariant forall key: Key, j: nat :: j in BucketOf(buckets, key) <==>
          (j < idx && InBlock(cell, aabbs, key, j))
          || (j == idx && InBlock(cell, aabbs, key, j) && (key.0 < ix || (key.0 == ix && key.1 < iy)))
        decreases y1 - iy
      {
        ghost var pre := buckets;
        buckets := buckets[(ix, iy) := BucketOf(buckets, (ix, iy)) + [idx]];
        assert InBlock(cell, aabbs, (ix, iy), idx);
        forall key: Key, j: nat
          ensures j in BucketOf(buckets, key) <==>
            (j < idx && InBlock(cell, aabbs, key, j))
            || (j == idx && InBlock(cell, aabbs, key, j) && (key.0 < ix || (key.0 == ix && key.1 < iy + 1)))
        {
          if key == (ix, iy) {
            assert BucketOf(buckets, key) == BucketOf(pre, key) + [idx];
          } else {
            assert BucketOf(buckets, key) == BucketOf(pre, key);
          }
        }
        iy := iy + 1;
      }
    }

    /**
     * query_aabb: the indices, ascending and each once, whose box overlaps
     * `region` among those stored in the cells the region spans.
     */
    method QueryAabb(region: Aabb) returns (r: seq<nat>)
      requires Valid()
      ensures StrictlyIncreasing(r)
      ensures forall j: nat :: j in r <==>
        j < |aabbs| && Intersects(aabbs[j], region) && CellsMeet(cell, aabbs[j], region)
    {
      var out: seq<nat> := [];
      var seen: set<nat> := {};
      var x0, x1 := CellOf(region.minX, cell), CellOf(region.maxX, cell);
      var ix := x0;
      while ix <= x1
        invariant x0 <= ix && (ix <= x1 + 1 || ix == x0)
        invariant forall j: nat :: j in seen <==> j < |aabbs| && SweptBy(cell, aabbs[j], region, ix, CellOf(region.minY, cell))
        invariant forall j: nat :: j in out <==> j in seen && Intersects(aabbs[j], region)
        invariant Distinct(out)
        decreases x1 - ix
      {
        out, seen := QueryColumn(region, ix, out, seen);
        ix := ix + 1;
      }
      assert forall j: nat :: j < |aabbs| ==>
        (SweptBy(cell, aabbs[j], region, ix, CellOf(region.minY, cell)) <==> CellsMeet(cell, aabbs[j], region));
      SortedDistinct(out);
      r := SortBy(out, NatLeq());
    }

    /** The rows of one column of the query. */
    method QueryColumn(region: Aabb, ix: int, out0: seq<nat>, seen0: set<nat>) returns (out: seq<nat>, seen: set<nat>)
      requires Valid()
      requires CellOf(region.minX, cell) <= ix <= CellOf(region.maxX, cell)
      requires forall j: nat :: j in seen0 <==> j < |aabbs| && SweptBy(cell, aabbs[j], region, ix, CellOf(region.minY, cell))
      requires forall j: nat :: j in out0 <==> j in seen0 && Intersects(aabbs[j], region)
      requires Distinct(out0)
      ensures forall j: nat :: j in seen <==> j < |aabbs| && SweptBy(cell, aabbs[j], region, ix + 1, CellOf(region.minY, cell))
      ensures forall j: nat :: j in out <==> j in seen && Intersects(aabbs[j], region)
      ensures Distinct(out)
    {
      out, seen := out0, seen0;
      var y0, y1 := CellOf(region.minY, cell), CellOf(region.maxY, cell);
      var iy := y0;
      while iy <= y1
        invariant y0 <= iy && (iy <= y1 + 1 || iy == y0)
        invariant forall j: nat :: j in seen <==> j < |aabbs| && SweptBy(cell, aabbs[j], region, ix, iy)
        invariant forall j: nat :: j in out <==> j in seen && Intersects(aabbs[j], region)
        invariant Distinct(out)
        decreases y1 - iy
      {
        out, seen := QueryCell(region, ix, iy, out, seen);
        iy := iy + 1;
      }
    }

    /** One bucket: an index not seen before is marked seen, and kept if its box overlaps. */
    method QueryCell(region: Aabb, ix: int, iy: int, out0: seq<nat>, seen0: set<nat>) returns (out: seq<nat>, seen: set<nat>)
      requires Valid()
      requires CellOf(region.minX, cell) <= ix <= CellOf(region.maxX, cell)
      requires CellOf(region.minY, cell) <= iy <= CellOf(region.maxY, cell)
      requires forall j: nat :: j in seen0 <==> j < |aabbs| && SweptBy(cell, aabbs[j], region, ix, iy)
      requires forall j: nat :: j in out0 <==> j in seen0 && Intersects(aabbs[j], region)
      requires Distinct(out0)
      ensures forall j: nat :: j in seen <==> j < |aabbs| && SweptBy(cell, aabbs[j], region, ix, iy + 1)
      ensures forall j: nat :: j in out <==> j in seen && Intersects(aabbs[j], region)
      ensures Distinct(out)
    {
      out, seen := out0, seen0;
      var v := Bucket((ix, iy));
      var k := 0;
      while k < |v|
        invariant 0 <= k <= |v|
        invariant forall j: nat :: j in seen <==> (j in seen0 || j in v[..k])
        invariant forall j: nat :: j in out <==> j in seen && j < |aabbs| && Intersects(aabbs[j], region)
        invariant Distinct(out)
      {
        var idx := v[k];
        assert v[..k + 1] == v[..k] + [idx];
        assert idx in Bucket((ix, iy));
        if idx !in seen {
          seen := seen + {idx};
          if Intersects(aabbs[idx], region) {
            out := out + [idx];
          }
        }
        k := k + 1;
      }
      assert v[..k] == v;
      forall j: nat
        ensures j in seen <==> j < |aabbs| && SweptBy(cell, aabbs[j], region, ix, iy + 1)
      {
        assert j in Bucket((ix, iy)) <==> j < |aabbs| && Covers(cell, aabbs[j], (ix, iy));
      }
    }
  }

  lemma {:induction false} AtLeastIndex(h: seq<nat>)
    requires StrictlyIncreasing(h)
    ensures forall i :: 0 <= i < |h| ==> h[i] >= h[0] + i
  {
    if |h| > 1 {
      var t := h[1..];
      assert StrictlyIncreasing(t);
      AtLeastIndex(t);
      assert forall i :: 1 <= i < |h| ==> h[i] == t[i - 1];
    }
  }

  /** An ascending, duplicate-free list holding 0 and 1 and nothing larger is [0, 1]. */
  lemma OnlyZeroAndOne(h: seq<nat>)
    requires StrictlyIncreasing(h) && 0 in h && 1 in h
    requires forall j :: j in h ==> j < 2
    ensures h == [0, 1]
  {
    var i0 :| 0 <= i0 < |h| && h[i0] == 0;
    var i1 :| 0 <= i1 < |h| && h[i1] == 1;
    assert |h| >= 2;
    AtLeastIndex(h);
    assert h[|h| - 1] in h;
    assert |h| == 2;
    assert h[0] in h && h[1] in h;
  }

  /** The overlap example: both boxes reach the region's single cell and overlap it. */
  method OverlapExample() returns (hits: seq<nat>)
    ensures hits == [0, 1]
  {
    var boxes := [Aabb(0.0, 0.0, 1.0, 1.0), Aabb(0.5, 0.5, 2.0, 2.0)];
    var index := new SpatialIndex.Build(1.0, boxes);
    var region := Aabb(0.75, 0.75, 0.9, 0.9);
    hits := index.QueryAabb(region);
    assert CellsMeet(1.0, boxes[0], region) && Intersects(boxes[0], region);
    assert CellsMeet(1.0, boxes[1], region) && Intersects(boxes[1], region);
    assert 0 in hits && 1 in hits;
    OnlyZeroAndOne(hits);
  }
}
