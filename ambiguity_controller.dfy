/**
 * apps/desktop/src/tools/ambiguity_controller.cpp: the candidate points of
 * an ambiguous edit and the index of the one currently chosen, cycled by Tab
 * and by the wheel.  The controller's header is not part of this model;
 * `SetCandidates`, `Clear`, `CurrentIndex` and `Active` are modelled from
 * their call sites, and a new candidate list is taken to start at index 0.
 */
module Ambiguity {
  import opened Model

  /** C++ `%` on `int`: the remainder truncated toward zero, with the sign of the dividend. */
  function TruncRem(a: int, n: int): (r: int)
    requires n > 0
    ensures a >= 0 ==> r == a % n
    ensures a < 0 ==> r == -((-a) % n)
  {
    if a >= 0 then a % n else -((-a) % n)
  }

  /** `onTab`'s arithmetic: the truncated remainder, lifted by n when it is negative. */
  function CycleIndex(index: int, delta: int, n: int): int
    requires n > 0
  {
    var r := TruncRem(index + delta, n);
    if r < 0 then r + n else r
  }

  /** A non-zero multiple of a positive n is at least n away from zero. */
  lemma MultipleAwayFromZero(d: int, n: int)
    requires n > 0
    ensures d >= 1 ==> d * n >= n
    ensures d <= -1 ==> d * n <= -n
  {
    if d >= 1 {
      assert d * n == (d - 1) * n + n;
    } else if d <= -1 {
      assert d * n == (d + 1) * n - n;
    }
  }

  /** Euclidean division is determined by any quotient and in-range remainder that rebuild `a`. */
  lemma ModUnique(a: int, q: int, r: int, n: int)
    requires n > 0 && a == q * n + r && 0 <= r < n
    ensures a % n == r && a / n == q
  {
    var q', r' := a / n, a % n;
    assert a == q' * n + r';
    var d := q - q';
    assert d * n == q * n - q' * n;
    MultipleAwayFromZero(d, n);
  }

  /** The truncated remainder lifted into range is the Euclidean remainder, so the index always lands in [0, n). */
  lemma CycleIndexIsMod(index: int, delta: int, n: int)
    requires n > 0
    ensures CycleIndex(index, delta, n) == (index + delta) % n
    ensures 0 <= CycleIndex(index, delta, n) < n
  {
    var a := index + delta;
    if a < 0 {
      var p, q := (-a) / n, (-a) % n;
      assert -a == p * n + q;
      if q != 0 {
        ModUnique(a, -p - 1, n - q, n);
      } else {
        ModUnique(a, -p, 0, n);
      }
    }
  }

  /** The index after `k` steps of `delta` from `index`. */
  function Steps(index: int, delta: int, n: int, k: nat): int
    requires n > 0
  {
    if k == 0 then index else CycleIndex(Steps(index, delta, n, k - 1), delta, n)
  }

  /** k steps of `delta` land where one jump of k * delta would. */
  lemma {:induction false} StepsAreOneJump(index: int, delta: int, n: int, k: nat)
    requires n > 0 && 0 <= index < n
    ensures Steps(index, delta, n, k) == (index + k * delta) % n
  {
    if k > 0 {
      StepsAreOneJump(index, delta, n, k - 1);
      var prev := Steps(index, delta, n, k - 1);
      CycleIndexIsMod(prev, delta, n);
      ModOfSum(index + (k - 1) * delta, delta, n);
      assert index + (k - 1) * delta + delta == index + k * delta;
    }
  }

  /** Reducing the first summand first does not change the remainder of a sum. */
  lemma ModOfSum(a: int, b: int, n: int)
    requires n > 0
    ensures (a % n + b) % n == (a + b) % n
  {
    var q, x := a / n, a % n + b;
    assert a == q * n + a % n;
    var p, r := x / n, x % n;
    assert x == p * n + r;
    assert a + b == (q + p) * n + r;
    ModUnique(a + b, q + p, r, n);
  }

  /** n Tabs forward, or n Tabs back, return to the starting index. */
  lemma FullCycleReturns(index: int, n: int)
    requires n > 0 && 0 <= index < n
    ensures Steps(index, 1, n, n) == index
    ensures Steps(index, -1, n, n) == index
  {
    StepsAreOneJump(index, 1, n, n);
    StepsAreOneJump(index, -1, n, n);
    ModUnique(index + n * 1, 1, index, n);
    ModUnique(index + n * -1, -1, index, n);
  }

  /** `onWheel`'s direction: +1 for a delta of zero or more, -1 otherwise. */
  function WheelDelta(deltaY: int): int
  {
    if deltaY >= 0 then 1 else -1
  }

  class AmbiguityController {
    var candidates: seq<Vec2>
    var index: int

    /** The chosen index lies in the candidate list whenever there is one. */
    ghost predicate Valid()
      reads this
    {
      && (candidates == [] ==> index == 0)
      && (candidates != [] ==> 0 <= index < |candidates|)
    }

    constructor ()
      ensures Valid() && candidates == [] && index == 0
    {
      candidates := [];
      index := 0;
    }

    /** `active()`: there are candidates to choose from. */
    predicate Active()
      reads this
    {
      candidates != []
    }

    /** `currentIndex()`. */
    function CurrentIndex(): int
      reads this
    {
      index
    }

    method SetCandidates(cs: seq<Vec2>)
      modifies this
      ensures Valid() && candidates == cs && index == 0
    {
      candidates := cs;
      index := 0;
    }

    method Clear()
      modifies this
      ensures Valid() && candidates == [] && index == 0
    {
      candidates := [];
      index := 0;
    }

    /**
     * `onTab(delta)`: no change without candidates; otherwise the index
     * moves by delta modulo the number of candidates.
     */
    method OnTab(delta: int)
      requires Valid()
      modifies this
      ensures Valid() && candidates == old(candidates)
      ensures old(candidates) == [] ==> index == old(index)
      ensures old(candidates) != [] ==> index == (old(index) + delta) % |candidates|
      ensures old(candidates) != [] ==> index == CycleIndex(old(index), delta, |candidates|)
    {
      if candidates == [] {
        return;
      }
      var n := |candidates|;
      index := TruncRem(index + delta, n);
      if index < 0 {
        index := index + n;
      }
      CycleIndexIsMod(old(index), delta, n);
    }

    /** `onWheel`: a Tab forward for a non-negative delta, back otherwise; nothing without candidates. */
    method OnWheel(deltaY: int)
      requires Valid()
      modifies this
      ensures Valid() && candidates == old(candidates)
      ensures old(candidates) == [] ==> index == old(index)
      ensures old(candidates) != [] ==> index == (old(index) + WheelDelta(deltaY)) % |candidates|
    {
      if candidates == [] {
        return;
      }
      OnTab(if deltaY >= 0 then 1 else -1);
    }
  }
}
