/**
 * Generic list operations the kernel uses through Rust's iterator library:
 * `iter().position`/`find`, `retain`, and `iter().any`.
 */
module Seqs {
  import opened Wrappers

  /** n copies of one element, as `vec![x; n]` or n pushes of a clone. */
  function Repeat<T>(x: T, n: nat): (r: seq<T>)
    ensures |r| == n && forall k :: 0 <= k < n ==> r[k] == x
  {
    if n == 0 then [] else Repeat(x, n - 1) + [x]
  }

  /** The index of the first element satisfying `p`, as `iter().position(p)`. */
  function FindFirst<T>(s: seq<T>, p: T -> bool): (r: Option<nat>)
    ensures r.Some? ==> r.value < |s| && p(s[r.value]) && forall j :: 0 <= j < r.value ==> !p(s[j])
    ensures r.None? <==> forall j :: 0 <= j < |s| ==> !p(s[j])
  {
    if s == [] then None
    else if p(s[0]) then Some(0)
    else
      var t := FindFirst(s[1..], p);
      assert forall j :: 1 <= j < |s| ==> s[j] == s[1..][j - 1];
      if t.Some? then Some(t.value + 1) else None
  }

  /** The first match is unique: any index matching with no earlier match is the one found. */
  lemma FindFirstAt<T>(s: seq<T>, p: T -> bool, i: nat)
    requires i < |s| && p(s[i]) && forall j :: 0 <= j < i ==> !p(s[j])
    ensures FindFirst(s, p) == Some(i)
  {
  }

  /** Searches that agree position by position find the same index. */
  lemma FindFirstSame<A, B>(s: seq<A>, p: A -> bool, t: seq<B>, q: B -> bool)
    requires |s| == |t| && forall i :: 0 <= i < |s| ==> p(s[i]) == q(t[i])
    ensures FindFirst(s, p) == FindFirst(t, q)
  {
    var r := FindFirst(s, p);
    if r.Some? {
      FindFirstAt(t, q, r.value);
    }
  }

  /** `retain(p)`: the elements satisfying `p`, in their original order. */
  function Filter<T>(s: seq<T>, p: T -> bool): (r: seq<T>)
    ensures |r| <= |s|
    ensures forall x :: x in r ==> x in s && p(x)
    ensures forall x :: x in s && p(x) ==> x in r
  {
    if s == [] then []
    else if p(s[0]) then [s[0]] + Filter(s[1..], p)
    else Filter(s[1..], p)
  }

  lemma {:induction false} FilterAllKept<T>(s: seq<T>, p: T -> bool)
    requires forall j :: 0 <= j < |s| ==> p(s[j])
    ensures Filter(s, p) == s
  {
    if s != [] {
      FilterAllKept(s[1..], p);
    }
  }

  lemma {:induction false} FilterAppend<T>(s: seq<T>, t: seq<T>, p: T -> bool)
    ensures Filter(s + t, p) == Filter(s, p) + Filter(t, p)
  {
    if s == [] {
      assert s + t == t;
    } else {
      assert (s + t)[1..] == s[1..] + t;
      FilterAppend(s[1..], t, p);
    }
  }

  /** The length is unchanged exactly when nothing was dropped. */
  lemma {:induction false} FilterSameLength<T>(s: seq<T>, p: T -> bool)
    ensures |Filter(s, p)| == |s| <==> forall j :: 0 <= j < |s| ==> p(s[j])
  {
    if s != [] {
      FilterSameLength(s[1..], p);
      assert forall j :: 1 <= j < |s| ==> s[j] == s[1..][j - 1];
    }
  }

  /** No element occurs twice. */
  predicate Distinct<T(==)>(s: seq<T>)
  {
    forall i, j :: 0 <= i < j < |s| ==> s[i] != s[j]
  }

  lemma {:induction false} DistinctCount<T>(s: seq<T>, x: T)
    requires Distinct(s)
    ensures multiset(s)[x] <= 1
  {
    if s != [] {
      assert s == [s[0]] + s[1..];
      DistinctCount(s[1..], x);
      if x == s[0] {
        assert x !in s[1..];
      }
    }
  }

  /** A reordering of a duplicate-free sequence is duplicate-free. */
  lemma DistinctPermutation<T>(s: seq<T>, t: seq<T>)
    requires Distinct(s) && multiset(s) == multiset(t)
    ensures Distinct(t)
  {
    forall i, j | 0 <= i < j < |t|
      ensures t[i] != t[j]
    {
      if t[i] == t[j] {
        assert t == t[..j] + t[j..];
        assert t[i] in multiset(t[..j]);
        assert t[j] in multiset(t[j..]);
        assert multiset(t)[t[i]] == multiset(t[..j])[t[i]] + multiset(t[j..])[t[i]];
        DistinctCount(s, t[i]);
        assert false;
      }
    }
  }
}
