/**
 * The stable sort the kernel relies on (Rust's `sort_by`/`sort_by_key` and
 * Qt's stable ordering), as insertion into a sorted sequence.  Every sorted
 * list of the model is built with `SortBy`.
 */
module Sorting {
  /** `leq` is total and transitive, the contract of a comparator. */
  ghost predicate TotalPreorder<T(!new)>(leq: (T, T) -> bool)
  {
    (forall a, b :: leq(a, b) || leq(b, a))
    && (forall a, b, c :: leq(a, b) && leq(b, c) ==> leq(a, c))
  }

  ghost predicate SortedBy<T>(s: seq<T>, leq: (T, T) -> bool)
  {
    forall i, j :: 0 <= i < j < |s| ==> leq(s[i], s[j])
  }

  predicate Equivalent<T>(a: T, b: T, leq: (T, T) -> bool)
  {
    leq(a, b) && leq(b, a)
  }

  /** The elements of `s` that compare equal to `y`, in their order in `s`. */
  function EquivalentTo<T>(s: seq<T>, y: T, leq: (T, T) -> bool): (r: seq<T>)
    ensures |r| <= |s|
  {
    if s == [] then []
    else if Equivalent(s[0], y, leq) then [s[0]] + EquivalentTo(s[1..], y, leq)
    else EquivalentTo(s[1..], y, leq)
  }

  /** Places `x` in front of the first element it is not greater than. */
  function Insert<T>(x: T, s: seq<T>, leq: (T, T) -> bool): (r: seq<T>)
    ensures multiset(r) == multiset(s) + multiset{x}
    ensures |r| == |s| + 1
  {
    if s == [] || leq(x, s[0]) then [x] + s
    else
      assert s == [s[0]] + s[1..];
      [s[0]] + Insert(x, s[1..], leq)
  }

  function SortBy<T>(s: seq<T>, leq: (T, T) -> bool): (r: seq<T>)
    ensures multiset(r) == multiset(s)
    ensures |r| == |s|
  {
    if s == [] then []
    else
      assert s == [s[0]] + s[1..];
      Insert(s[0], SortBy(s[1..], leq), leq)
  }

  lemma {:induction false} InsertSorted<T(!new)>(x: T, s: seq<T>, leq: (T, T) -> bool)
    requires TotalPreorder(leq) && SortedBy(s, leq)
    ensures SortedBy(Insert(x, s, leq), leq)
  {
    if s != [] && !leq(x, s[0]) {
      InsertSorted(x, s[1..], leq);
      var t := Insert(x, s[1..], leq);
      assert multiset(t) == multiset(s[1..]) + multiset{x};
      forall j | 0 <= j < |t|
        ensures leq(s[0], t[j])
      {
        assert t[j] in multiset(t);
        if t[j] != x {
          assert t[j] in multiset(s[1..]);
          var k :| 0 <= k < |s[1..]| && s[1..][k] == t[j];
          assert s[k + 1] == t[j];
        }
      }
    }
  }

  /** The result is sorted. */
  lemma {:induction false} SortBySorted<T(!new)>(s: seq<T>, leq: (T, T) -> bool)
    requires TotalPreorder(leq)
    ensures SortedBy(SortBy(s, leq), leq)
  {
    if s != [] {
      SortBySorted(s[1..], leq);
      InsertSorted(s[0], SortBy(s[1..], leq), leq);
    }
  }

  lemma {:induction false} InsertStable<T(!new)>(x: T, s: seq<T>, y: T, leq: (T, T) -> bool)
    requires TotalPreorder(leq)
    ensures EquivalentTo(Insert(x, s, leq), y, leq)
         == (if Equivalent(x, y, leq) then [x] + EquivalentTo(s, y, leq) else EquivalentTo(s, y, leq))
  {
    if s != [] && !leq(x, s[0]) {
      InsertStable(x, s[1..], y, leq);
      assert Insert(x, s, leq)[1..] == Insert(x, s[1..], leq);
      if Equivalent(x, y, leq) {
        assert !Equivalent(s[0], y, leq);
      }
    } else {
      assert ([x] + s)[1..] == s;
    }
  }

  /** Stability: among equivalent elements the input order is kept. */
  lemma {:induction false} SortByStable<T(!new)>(s: seq<T>, y: T, leq: (T, T) -> bool)
    requires TotalPreorder(leq)
    ensures EquivalentTo(SortBy(s, leq), y, leq) == EquivalentTo(s, y, leq)
  {
    if s != [] {
      SortByStable(s[1..], y, leq);
      InsertStable(s[0], SortBy(s[1..], leq), y, leq);
    }
  }

  /** Appending an element adds it at the end of its equivalence class. */
  lemma {:induction false} EquivalentToAppend<T>(s: seq<T>, x: T, y: T, leq: (T, T) -> bool)
    ensures EquivalentTo(s + [x], y, leq)
         == EquivalentTo(s, y, leq) + (if Equivalent(x, y, leq) then [x] else [])
  {
    if s == [] {
      assert [] + [x] == [x];
      assert [x][1..] == [];
    } else {
      assert (s + [x])[1..] == s[1..] + [x];
      EquivalentToAppend(s[1..], x, y, leq);
    }
  }

  /** Lexicographic order on strings, character by character (Rust's `String` ordering). */
  predicate LexLeq(a: string, b: string)
  {
    a == [] || (b != [] && (a[0] < b[0] || (a[0] == b[0] && LexLeq(a[1..], b[1..]))))
  }

  lemma {:induction false} LexLeqTotal(a: string, b: string)
    ensures LexLeq(a, b) || LexLeq(b, a)
  {
    if a != [] && b != [] && a[0] == b[0] {
      LexLeqTotal(a[1..], b[1..]);
    }
  }

  lemma {:induction false} LexLeqTrans(a: string, b: string, c: string)
    requires LexLeq(a, b) && LexLeq(b, c)
    ensures LexLeq(a, c)
  {
    if a != [] && b != [] && c != [] && a[0] == b[0] && b[0] == c[0] {
      LexLeqTrans(a[1..], b[1..], c[1..]);
    }
  }

  lemma {:induction false} LexLeqAntisym(a: string, b: string)
    requires LexLeq(a, b) && LexLeq(b, a)
    ensures a == b
  {
    if a != [] && b != [] {
      LexLeqAntisym(a[1..], b[1..]);
      assert a == [a[0]] + a[1..] && b == [b[0]] + b[1..];
    }
  }

  lemma LexLeqIsTotalPreorder()
    ensures TotalPreorder((a: string, b: string) => LexLeq(a, b))
  {
    forall a: string, b: string
      ensures LexLeq(a, b) || LexLeq(b, a)
    {
      LexLeqTotal(a, b);
    }
    forall a: string, b: string, c: string | LexLeq(a, b) && LexLeq(b, c)
      ensures LexLeq(a, c)
    {
      LexLeqTrans(a, b, c);
    }
  }
}
