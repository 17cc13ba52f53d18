/**
 * core/crates/diycad_nesting/src/model.rs: the nesting engine's inputs.  A
 * job's part references are expanded into one evaluation record per copy,
 * each with its outline's extent inflated by the margins and kerfs, and
 * sorted largest first; packed rectangles become document placements; the
 * engine's pseudo-random generator is a 64-bit xorshift.
 */
module NestingModel {
  import opened Wrappers
  import opened Serialize
  import opened Model
  import opened Sorting
  import opened Seqs
  import NestingCommands

  // ---------------------------------------------------------------------
  // DeterministicRng
  // ---------------------------------------------------------------------

  const SEED_MIX: bv64 := 0x9e3779b97f4a7c15
  const OUTPUT_MUL: bv64 := 0x2545F4914F6CDD1D

  /** The three xorshift steps of `next_u32`. */
  function Xorshift(s: bv64): bv64
  {
    var a := s ^ (s >> 12);
    var b := a ^ (a << 25);
    b ^ (b >> 27)
  }

  /** The drawn value: the upper half of the state times the output multiplier, wrapping at 2^64. */
  function Output(s: bv64): bv32
  {
    (((s * OUTPUT_MUL) >> 32) & 0xffff_ffff) as bv32
  }

  /** A xorshift step never reaches the all-zero state from another state, so the stream never sticks at 0. */
  lemma XorshiftNonZero(s: bv64)
    requires s != 0
    ensures Xorshift(s) != 0
  {
  }

  /** The state after n draws from a generator seeded with `seed`. */
  function StateAfter(seed: bv64, n: nat): bv64
  {
    if n == 0 then seed ^ SEED_MIX else Xorshift(StateAfter(seed, n - 1))
  }

  /** The first n values drawn from a generator seeded with `seed`. */
  function Draws(seed: bv64, n: nat): (r: seq<bv32>)
    ensures |r| == n
    ensures forall k :: 0 <= k < n ==> r[k] == Output(StateAfter(seed, k + 1))
  {
    if n == 0 then [] else Draws(seed, n - 1) + [Output(StateAfter(seed, n))]
  }

  class DeterministicRng {
    var state: bv64

    constructor (seed: bv64)
      ensures state == StateAfter(seed, 0)
    {
      state := seed ^ SEED_MIX;
    }

    method NextU32() returns (r: bv32)
      modifies this
      ensures state == Xorshift(old(state)) && r == Output(state)
    {
      state := Xorshift(state);
      r := Output(state);
    }
  }

  /** Drawing n values from a fresh generator yields exactly `Draws(seed, n)`, whatever generator object is used. */
  method DrawFromSeed(seed: bv64, n: nat) returns (out: seq<bv32>)
    ensures out == Draws(seed, n)
  {
    var rng := new DeterministicRng(seed);
    out := [];
    var k := 0;
    while k < n
      invariant 0 <= k <= n
      invariant rng.state == StateAfter(seed, k)
      invariant out == Draws(seed, k)
    {
      var v := rng.NextU32();
      out := out + [v];
      k := k + 1;
    }
  }

  /** Two generators built from the same seed draw the same sequence. */
  method SameSeedSameDraws(seed: bv64, n: nat) returns (a: seq<bv32>, b: seq<bv32>)
    ensures a == b && |a| == n
  {
    a := DrawFromSeed(seed, n);
    b := DrawFromSeed(seed, n);
  }

  // ---------------------------------------------------------------------
  // PlacementRect::into_placement
  // ---------------------------------------------------------------------

  datatype PlacementRect = PlacementRect(
    partId: Uuid, sheetInstanceIndex: nat, x: real, y: real, rotationDeg: real, width: real, height: real)

  /** The placement's box is [x, x + width] by [y, y + height]. */
  function IntoPlacement(r: PlacementRect): (p: Placement)
    ensures p.partId == r.partId && p.sheetInstanceIndex == r.sheetInstanceIndex
    ensures p.x == r.x && p.y == r.y && p.rotationDeg == r.rotationDeg
  {
    Placement(r.partId, r.sheetInstanceIndex, r.x, r.y, r.rotationDeg,
              BBox(r.x, r.y, r.x + r.width, r.y + r.height))
  }

  /**
   * A packed placement is anchored (its box starts at its position) and its
   * box has the rectangle's size, which is what editing a placement's pose
   * later relies on to restore it.
   */
  lemma IntoPlacementAnchored(r: PlacementRect)
    ensures NestingCommands.Anchored(IntoPlacement(r))
    ensures IntoPlacement(r).bbox.maxX - IntoPlacement(r).bbox.minX == r.width
    ensures IntoPlacement(r).bbox.maxY - IntoPlacement(r).bbox.minY == r.height
  {
  }

  // ---------------------------------------------------------------------
  // dims
  // ---------------------------------------------------------------------

  /** The least of a non-empty sequence, folded from the end. */
  function MinOf(xs: seq<real>): real
    requires xs != []
  {
    if |xs| == 1 then xs[0] else Min(MinOf(xs[..|xs| - 1]), xs[|xs| - 1])
  }

  /** The greatest of a non-empty sequence, folded from the end. */
  function MaxOf(xs: seq<real>): real
    requires xs != []
  {
    if |xs| == 1 then xs[0] else Max(MaxOf(xs[..|xs| - 1]), xs[|xs| - 1])
  }

  /** MinOf and MaxOf are the least and greatest elements: they bound every element and are attained. */
  lemma {:induction false} MinMaxOfBounds(xs: seq<real>)
    requires xs != []
    ensures forall k :: 0 <= k < |xs| ==> MinOf(xs) <= xs[k] <= MaxOf(xs)
    ensures (exists k :: 0 <= k < |xs| && MinOf(xs) == xs[k]) && (exists k :: 0 <= k < |xs| && MaxOf(xs) == xs[k])
    decreases |xs|
  {
    if |xs| == 1 {
      assert MinOf(xs) == xs[0] && MaxOf(xs) == xs[0];
    } else {
      var init := xs[..|xs| - 1];
      var last := xs[|xs| - 1];
      MinMaxOfBounds(init);
      assert MinOf(xs) == Min(MinOf(init), last) && MaxOf(xs) == Max(MaxOf(init), last);
      var a :| 0 <= a < |init| && MinOf(init) == init[a];
      var b :| 0 <= b < |init| && MaxOf(init) == init[b];
      assert init[a] == xs[a] && init[b] == xs[b];
      forall k | 0 <= k < |xs|
        ensures MinOf(xs) <= xs[k] <= MaxOf(xs)
      {
        if k < |init| {
          assert init[k] == xs[k];
        }
      }
      if MinOf(init) <= last { assert MinOf(xs) == xs[a]; } else { assert MinOf(xs) == xs[|xs| - 1]; }
      if MaxOf(init) <= last { assert MaxOf(xs) == xs[|xs| - 1]; } else { assert MaxOf(xs) == xs[b]; }
    }
  }

  /** One more element folds into the running extremes. */
  lemma ExtremesStep(xs: seq<real>, i: nat)
    requires 1 <= i < |xs|
    ensures MinOf(xs[..i + 1]) == Min(MinOf(xs[..i]), xs[i])
    ensures MaxOf(xs[..i + 1]) == Max(MaxOf(xs[..i]), xs[i])
  {
    assert xs[..i + 1][..i] == xs[..i];
  }

  function Xs(pts: seq<Vec2>): (r: seq<real>)
    ensures |r| == |pts| && forall k :: 0 <= k < |pts| ==> r[k] == pts[k].x
  {
    seq(|pts|, k requires 0 <= k < |pts| => pts[k].x)
  }

  function Ys(pts: seq<Vec2>): (r: seq<real>)
    ensures |r| == |pts| && forall k :: 0 <= k < |pts| ==> r[k] == pts[k].y
  {
    seq(|pts|, k requires 0 <= k < |pts| => pts[k].y)
  }

  /** The width and height of an outline: the spread of its x and y coordinates. */
  function Extent(pts: seq<Vec2>): (r: (real, real))
    requires pts != []
    ensures r.0 >= 0.0 && r.1 >= 0.0
  {
    MinMaxOfBounds(Xs(pts));
    MinMaxOfBounds(Ys(pts));
    (MaxOf(Xs(pts)) - MinOf(Xs(pts)), MaxOf(Ys(pts)) - MinOf(Ys(pts)))
  }

  /**
   * dims: an outline of fewer than three points is invalid; otherwise its
   * extent, found by one pass with running minima and maxima.  The running
   * values start from the first point rather than from the infinities, which
   * gives the same result for a non-empty outline.
   */
  method Dims(part: Part) returns (r: Result<(real, real), ReasonCode>)
    ensures |part.outline.outer| < 3 ==> r == Err(PartInvalidOutline)
    ensures |part.outline.outer| >= 3 ==> r == Ok(Extent(part.outline.outer))
  {
    var pts := part.outline.outer;
    if |pts| < 3 {
      return Err(PartInvalidOutline);
    }
    var minX, maxX, minY, maxY := pts[0].x, pts[0].x, pts[0].y, pts[0].y;
    var i := 1;
    while i < |pts|
      invariant 1 <= i <= |pts|
      invariant minX == MinOf(Xs(pts)[..i]) && maxX == MaxOf(Xs(pts)[..i])
      invariant minY == MinOf(Ys(pts)[..i]) && maxY == MaxOf(Ys(pts)[..i])
    {
      ExtremesStep(Xs(pts), i);
      ExtremesStep(Ys(pts), i);
      minX := Min(minX, pts[i].x);
      maxX := Max(maxX, pts[i].x);
      minY := Min(minY, pts[i].y);
      maxY := Max(maxY, pts[i].y);
      i := i + 1;
    }
    assert Xs(pts)[..i] == Xs(pts) && Ys(pts)[..i] == Ys(pts);
    r := Ok((maxX - minX, maxY - minY));
  }

  // ---------------------------------------------------------------------
  // expand_parts
  // ---------------------------------------------------------------------

  datatype PartEval = PartEval(partId: Uuid, width: real, height: real, area: real, allowRotate: bool)

  function RefLeq(): (PartRef, PartRef) -> bool
  {
    (a: PartRef, b: PartRef) => a.partId <= b.partId
  }

  /** The packing order: area descending, then the larger side descending, then part id ascending. */
  predicate EvalBefore(a: PartEval, b: PartEval)
  {
    a.area > b.area
    || (a.area == b.area
        && (Max(a.width, a.height) > Max(b.width, b.height)
            || (Max(a.width, a.height) == Max(b.width, b.height) && a.partId <= b.partId)))
  }

  function EvalLeq(): (PartEval, PartEval) -> bool
  {
    (a: PartEval, b: PartEval) => EvalBefore(a, b)
  }

  lemma EvalLeqTotal()
    ensures TotalPreorder(EvalLeq())
  {
    forall a, b, c | EvalBefore(a, b) && EvalBefore(b, c)
      ensures EvalBefore(a, c)
    {
    }
  }

  /** The number of copies of a reference: the override or the part's quantity, at least 1. */
  function Copies(r: PartRef, p: Part): (n: nat)
    ensures n >= 1
    ensures r.quantityOverride.Some? && r.quantityOverride.value >= 1 ==> n == r.quantityOverride.value
    ensures r.quantityOverride.None? && p.quantity >= 1 ==> n == p.quantity
  {
    var q := if r.quantityOverride.Some? then r.quantityOverride.value else p.quantity;
    if q < 1 then 1 else q
  }

  /** One copy's record: the extent grown by twice the job's and the part's margin and kerf, clamped at 0. */
  function EvalOf(job: NestJob, p: Part, w: real, h: real): (e: PartEval)
    ensures e.partId == p.id && e.width >= 0.0 && e.height >= 0.0 && e.area == e.width * e.height
    ensures e.allowRotate == (p.allowRotate || job.constraints.allowRotateDefault)
  {
    var inflate := job.constraints.globalMargin + job.constraints.globalKerf + p.margin + p.kerf;
    var ew := Max(w + 2.0 * inflate, 0.0);
    var eh := Max(h + 2.0 * inflate, 0.0);
    PartEval(p.id, ew, eh, ew * eh, p.allowRotate || job.constraints.allowRotateDefault)
  }

  /** The records of one reference, or why it cannot be expanded. */
  function ExpandRef(job: NestJob, doc: Document, r: PartRef): (out: Result<seq<PartEval>, ReasonCode>)
    ensures PartIndex(doc.parts, r.partId).None? ==> out == Err(ModelReferenceNotFound)
  {
    match PartIndex(doc.parts, r.partId)
    case None => Err(ModelReferenceNotFound)
    case Some(i) =>
      var p := doc.parts[i];
      if |p.outline.outer| < 3 then Err(PartInvalidOutline)
      else
        var wh := Extent(p.outline.outer);
        Ok(Repeat(EvalOf(job, p, wh.0, wh.1), Copies(r, p)))
  }

  /** The references in order; the first that fails stops the expansion. */
  function ExpandRefs(job: NestJob, doc: Document, refs: seq<PartRef>): Result<seq<PartEval>, ReasonCode>
    decreases |refs|
  {
    if refs == [] then Ok([])
    else
      var first :- ExpandRef(job, doc, refs[0]);
      var rest :- ExpandRefs(job, doc, refs[1..]);
      Ok(first + rest)
  }

  /** expand_parts: references sorted by part id, expanded, then sorted into packing order. */
  function ExpandSpec(job: NestJob, doc: Document): Result<seq<PartEval>, ReasonCode>
  {
    var out :- ExpandRefs(job, doc, SortBy(job.partsRef, RefLeq()));
    Ok(SortBy(out, EvalLeq()))
  }

  /** A reference can be expanded exactly when its part exists and has an outline of at least three points. */
  predicate Expandable(doc: Document, r: PartRef)
  {
    PartIndex(doc.parts, r.partId).Some? && |doc.parts[PartIndex(doc.parts, r.partId).value].outline.outer| >= 3
  }

  /** The total number of records the references produce. */
  function CopyCount(doc: Document, refs: seq<PartRef>): nat
    requires forall k :: 0 <= k < |refs| ==> Expandable(doc, refs[k])
  {
    if refs == [] then 0
    else
      assert Expandable(doc, refs[0]);
      assert forall k :: 0 <= k < |refs| - 1 ==> refs[1..][k] == refs[k + 1];
      Copies(refs[0], doc.parts[PartIndex(doc.parts, refs[0].partId).value]) + CopyCount(doc, refs[1..])
  }

  /**
   * Expansion succeeds exactly when every reference is expandable, and then
   * yields one record per copy of each reference.
   */
  lemma {:induction false} ExpandRefsOk(job: NestJob, doc: Document, refs: seq<PartRef>)
    ensures ExpandRefs(job, doc, refs).Ok? <==> forall k :: 0 <= k < |refs| ==> Expandable(doc, refs[k])
    ensures ExpandRefs(job, doc, refs).Ok? ==> |ExpandRefs(job, doc, refs).value| == CopyCount(doc, refs)
    decreases |refs|
  {
    if refs != [] {
      ExpandRefsOk(job, doc, refs[1..]);
      assert forall k :: 1 <= k < |refs| ==> refs[1..][k - 1] == refs[k];
    }
  }

  /** A reference to an unknown part makes the whole expansion fail. */
  lemma UnknownPartFails(job: NestJob, doc: Document, r: PartRef)
    requires r in job.partsRef && !HasPart(doc.parts, r.partId)
    ensures ExpandSpec(job, doc).Err?
  {
    var refs := SortBy(job.partsRef, RefLeq());
    assert r in multiset(job.partsRef);
    assert r in refs;
    var k :| 0 <= k < |refs| && refs[k] == r;
    ExpandRefsOk(job, doc, refs);
  }

  /** A successful expansion is in packing order and holds the expanded records of every reference. */
  lemma ExpandSorted(job: NestJob, doc: Document)
    requires ExpandSpec(job, doc).Ok?
    ensures SortedBy(ExpandSpec(job, doc).value, EvalLeq())
    ensures multiset(ExpandSpec(job, doc).value) == multiset(ExpandRefs(job, doc, SortBy(job.partsRef, RefLeq())).value)
  {
    EvalLeqTotal();
    SortBySorted(ExpandRefs(job, doc, SortBy(job.partsRef, RefLeq())).value, EvalLeq());
  }

  function Prefixed(done: seq<PartEval>, rest: Result<seq<PartEval>, ReasonCode>): Result<seq<PartEval>, ReasonCode>
  {
    if rest.Ok? then Ok(done + rest.value) else rest
  }

  /** Expanding from reference i on: its records join the prefix, or its failure ends the expansion. */
  lemma ExpandStep(job: NestJob, doc: Document, out: seq<PartEval>, refs: seq<PartRef>, i: nat)
    requires i < |refs|
    ensures ExpandRef(job, doc, refs[i]).Err? ==>
      Prefixed(out, ExpandRefs(job, doc, refs[i..])) == Err(ExpandRef(job, doc, refs[i]).error)
    ensures ExpandRef(job, doc, refs[i]).Ok? ==>
      Prefixed(out, ExpandRefs(job, doc, refs[i..]))
      == Prefixed(out + ExpandRef(job, doc, refs[i]).value, ExpandRefs(job, doc, refs[i + 1..]))
  {
    assert refs[i..][0] == refs[i] && refs[i..][1..] == refs[i + 1..];
    var rest := ExpandRefs(job, doc, refs[i + 1..]);
    if ExpandRef(job, doc, refs[i]).Ok? && rest.Ok? {
      assert out + (ExpandRef(job, doc, refs[i]).value + rest.value)
          == (out + ExpandRef(job, doc, refs[i]).value) + rest.value;
    }
  }

  /** The inner loop of expand_parts: n copies of one record pushed in turn. */
  method PushCopies(out: seq<PartEval>, e: PartEval, n: nat) returns (o: seq<PartEval>)
    ensures o == out + Repeat(e, n)
  {
    o := out;
    var c := 0;
    while c < n
      invariant 0 <= c <= n
      invariant o == out + Repeat(e, c)
    {
      o := o + [e];
      c := c + 1;
    }
  }

  /** One pass of expand_parts' loop: look the part up, measure it and push its copies onto `out`. */
  method ExpandOne(job: NestJob, doc: Document, out: seq<PartEval>, ref: PartRef)
    returns (o: Result<seq<PartEval>, ReasonCode>)
    ensures ExpandRef(job, doc, ref).Err? ==> o == Err(ExpandRef(job, doc, ref).error)
    ensures ExpandRef(job, doc, ref).Ok? ==> o == Ok(out + ExpandRef(job, doc, ref).value)
  {
    var found := PartIndex(doc.parts, ref.partId);
    if found.None? {
      return Err(ModelReferenceNotFound);
    }
    var p := doc.parts[found.value];
    var qty := Copies(ref, p);
    var wh := Dims(p);
    if wh.Err? {
      return Err(wh.error);
    }
    var e := EvalOf(job, p, wh.value.0, wh.value.1);
    var pushed := PushCopies(out, e, qty);
    o := Ok(pushed);
  }

  /** expand_parts as the source runs it: the sorted references one by one, each pushed copy by copy. */
  method ExpandParts(job: NestJob, doc: Document) returns (r: Result<seq<PartEval>, ReasonCode>)
    ensures r == ExpandSpec(job, doc)
  {
    var refs := SortBy(job.partsRef, RefLeq());
    var out: seq<PartEval> := [];
    var i := 0;
    assert refs[0..] == refs;
    if ExpandRefs(job, doc, refs).Ok? {
      assert [] + ExpandRefs(job, doc, refs).value == ExpandRefs(job, doc, refs).value;
    }
    while i < |refs|
      invariant 0 <= i <= |refs|
      invariant ExpandRefs(job, doc, refs) == Prefixed(out, ExpandRefs(job, doc, refs[i..]))
    {
      ExpandStep(job, doc, out, refs, i);
      var step := ExpandOne(job, doc, out, refs[i]);
      if step.Err? {
        return Err(step.error);
      }
      out := step.value;
      i := i + 1;
    }
    assert refs[i..] == [];
    assert out + [] == out;
    r := Ok(SortBy(out, EvalLeq()));
  }
}
