/**
 * The per-id loop shared by mirror and pattern in
 * core/commands/src/commands/advanced_edit.rs: each selected id, looked up in
 * the list as grown so far, appends what one step yields for it.  Stated over
 * any element, id and error type, so the proofs about it see nothing of the
 * entities themselves.
 */
module Passes {
  import opened Wrappers

  /**
   * One pass: each id appends the elements `step` yields for it, with the
   * context `c` (the kernel and the edit's parameters), on the list
   * grown so far; `n` counts the elements appended before it.  The first
   * failing step ends the pass with its error.
   */
  function Grow<C, T, I, E>(cur: seq<T>, ids: seq<I>, step: (C, seq<T>, I, nat) -> Result<seq<T>, E>, c: C, n: nat)
    : Result<seq<T>, E>
    decreases |ids|
  {
    if ids == [] then Ok(cur)
    else
      var add :- step(c, cur, ids[0], n);
      Grow(cur + add, ids[1..], step, c, n + |add|)
  }

  /** What `step` yields, with context `c`, for one id on one list after `n` appended elements. */
  function StepAt<C, T, I, E>(step: (C, seq<T>, I, nat) -> Result<seq<T>, E>, c: C, es: seq<T>, id: I, n: nat): Result<seq<T>, E>
  {
    step(c, es, id, n)
  }

  /** Every step that succeeds appends exactly `w` elements. */
  ghost predicate Appends<C, T(!new), I(!new), E>(step: (C, seq<T>, I, nat) -> Result<seq<T>, E>, c: C, w: nat)
  {
    forall es: seq<T>, id: I, n: nat :: step(c, es, id, n).Ok? ==> |step(c, es, id, n).value| == w
  }

  /** Where chunk j starts, for chunks of width w: j additions of w. */
  function Off(j: nat, w: nat): nat
  {
    if j == 0 then 0 else Off(j - 1, w) + w
  }

  lemma {:induction false} OffIsProduct(j: nat, w: nat)
    ensures Off(j, w) == j * w
  {
    if j > 0 {
      OffIsProduct(j - 1, w);
      assert j * w == (j - 1) * w + w;
    }
  }

  /** One turn of a pass: a failing step ends it, a successful one continues on the grown list. */
  lemma {:induction false} GrowUnfold<C, T, I, E>(cur: seq<T>, ids: seq<I>, i: nat, step: (C, seq<T>, I, nat) -> Result<seq<T>, E>, c: C, n: nat)
    requires i < |ids|
    ensures Grow(cur, ids[i..], step, c, n) ==
      if step(c, cur, ids[i], n).Err? then Err(step(c, cur, ids[i], n).error)
      else Grow(cur + step(c, cur, ids[i], n).value, ids[i + 1..], step, c, n + |step(c, cur, ids[i], n).value|)
  {
    assert ids[i..][0] == ids[i] && ids[i..][1..] == ids[i + 1..];
  }

  /** With steps of fixed width w, a successful pass keeps `cur` as a prefix and adds w elements per id. */
  lemma {:induction false} GrowPrefix<C, T(!new), I(!new), E>(cur: seq<T>, ids: seq<I>, step: (C, seq<T>, I, nat) -> Result<seq<T>, E>, c: C,
                                                        n: nat, w: nat)
    requires Appends(step, c, w) && Grow(cur, ids, step, c, n).Ok?
    ensures var r := Grow(cur, ids, step, c, n).value;
      |r| == |cur| + |ids| * w && r[..|cur|] == cur
    decreases |ids|
  {
    if ids != [] {
      var cur' := cur + step(c, cur, ids[0], n).value;
      GrowPrefix(cur', ids[1..], step, c, n + w, w);
      var r := Grow(cur, ids, step, c, n).value;
      assert r == Grow(cur', ids[1..], step, c, n + w).value;
      assert r[..|cur'|][..|cur|] == r[..|cur|];
      assert |ids| * w == w + (|ids| - 1) * w;
    }
  }

  /** The first chunk of a successful pass is what the step yields for the first id on `cur`. */
  lemma {:induction false} GrowChunkFirst<C, T(!new), I(!new), E>(cur: seq<T>, ids: seq<I>, step: (C, seq<T>, I, nat) -> Result<seq<T>, E>, c: C, n: nat, w: nat)
    requires Appends(step, c, w) && Grow(cur, ids, step, c, n).Ok? && 0 < |ids|
    ensures var r := Grow(cur, ids, step, c, n).value;
      |cur| + w <= |r| && step(c, r[..|cur|], ids[0], n) == Ok(r[|cur|..|cur| + w])
  {
    var add := step(c, cur, ids[0], n).value;
    var cur' := cur + add;
    var r := Grow(cur, ids, step, c, n).value;
    assert r == Grow(cur', ids[1..], step, c, n + w).value;
    GrowPrefix(cur', ids[1..], step, c, n + w, w);
    assert r[..|cur|] == cur by { assert r[..|cur'|][..|cur|] == r[..|cur|]; }
    assert r[|cur|..|cur| + w] == add by { assert r[..|cur'|][|cur|..|cur| + w] == r[|cur|..|cur| + w]; }
  }

  /**
   * Chunk j of a successful pass, the w elements from |cur| + j w on, is what
   * the step yields for the j-th id on the list grown by the chunks before it.
   */
  lemma {:induction false} GrowChunkAt<C, T(!new), I(!new), E>(cur: seq<T>, ids: seq<I>, step: (C, seq<T>, I, nat) -> Result<seq<T>, E>, c: C,
                                                         n: nat, w: nat, j: nat)
    requires Appends(step, c, w) && Grow(cur, ids, step, c, n).Ok? && j < |ids|
    ensures var r := Grow(cur, ids, step, c, n).value;
      |cur| + Off(j, w) + w <= |r|
      && StepAt(step, c, r[..|cur| + Off(j, w)], ids[j], n + Off(j, w)) == Ok(r[|cur| + Off(j, w)..|cur| + Off(j, w) + w])
    decreases j
  {
    if j == 0 {
      GrowChunkFirst(cur, ids, step, c, n, w);
    } else {
      var cur' := cur + step(c, cur, ids[0], n).value;
      assert Grow(cur, ids, step, c, n) == Grow(cur', ids[1..], step, c, n + w);
      GrowChunkAt(cur', ids[1..], step, c, n + w, w, j - 1);
      assert ids[1..][j - 1] == ids[j];
    }
  }

  /** `GrowChunkAt` with the chunk offset written as the product j w. */
  lemma {:induction false} GrowChunk<C, T(!new), I(!new), E>(cur: seq<T>, ids: seq<I>, step: (C, seq<T>, I, nat) -> Result<seq<T>, E>, c: C,
                                                       n: nat, w: nat, j: nat)
    requires Appends(step, c, w) && Grow(cur, ids, step, c, n).Ok? && j < |ids|
    ensures var r := Grow(cur, ids, step, c, n).value;
      |cur| + j * w + w <= |r|
      && StepAt(step, c, r[..|cur| + j * w], ids[j], n + j * w) == Ok(r[|cur| + j * w..|cur| + j * w + w])
  {
    GrowChunkAt(cur, ids, step, c, n, w, j);
    OffIsProduct(j, w);
  }
}
