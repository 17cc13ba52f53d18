/**
 * JSON values as serde_json holds them, and the merge-patch routine of the
 * desktop bridge (core/ffi_desktop/src/lib.rs).  An object is a sequence of
 * members; serde_json keeps object keys unique, which `UniqueKeys` states.
 */
module Json {
  import opened Wrappers

  datatype Json =
    | JNull
    | JBool(b: bool)
    | JNum(n: real)
    | JStr(s: string)
    | JArr(items: seq<Json>)
    | JObj(members: seq<Member>)

  datatype Member = Member(key: string, value: Json)

  predicate HasKey(ms: seq<Member>, k: string)
  {
    ms != [] && (ms[0].key == k || HasKey(ms[1..], k))
  }

  predicate UniqueKeys(ms: seq<Member>)
  {
    ms == [] || (!HasKey(ms[1..], ms[0].key) && UniqueKeys(ms[1..]))
  }

  /** The value stored under `k`, if any. */
  function Get(ms: seq<Member>, k: string): (r: Option<Json>)
    ensures r.Some? <==> HasKey(ms, k)
  {
    if ms == [] then None
    else if ms[0].key == k then Some(ms[0].value)
    else Get(ms[1..], k)
  }

  /** Map insertion: overwrite the value under `k` in place, or append a new member. */
  function Put(ms: seq<Member>, k: string, v: Json): (r: seq<Member>)
    ensures Get(r, k) == Some(v)
    ensures forall k' :: k' != k ==> Get(r, k') == Get(ms, k')
    ensures UniqueKeys(ms) ==> UniqueKeys(r)
    ensures forall k' :: HasKey(r, k') <==> HasKey(ms, k') || k' == k
  {
    if ms == [] then [Member(k, v)]
    else if ms[0].key == k then [Member(k, v)] + ms[1..]
    else [ms[0]] + Put(ms[1..], k, v)
  }

  /** Map removal: drop the member under `k`, if present. */
  function Remove(ms: seq<Member>, k: string): (r: seq<Member>)
    ensures Get(r, k) == None
    ensures forall k' :: k' != k ==> Get(r, k') == Get(ms, k')
    ensures forall k' :: HasKey(r, k') <==> HasKey(ms, k') && k' != k
    ensures UniqueKeys(ms) ==> UniqueKeys(r)
    ensures |r| <= |ms|
  {
    if ms == [] then []
    else if ms[0].key == k then Remove(ms[1..], k)
    else [ms[0]] + Remove(ms[1..], k)
  }

  function GetOr(ms: seq<Member>, k: string, d: Json): Json
  {
    match Get(ms, k)
    case Some(v) => v
    case None => d
  }

  /** Every object anywhere inside `j` has unique keys. */
  predicate WellFormed(j: Json)
    decreases j, 1
  {
    match j
    case JArr(items) => forall i :: 0 <= i < |items| ==> WellFormed(items[i])
    case JObj(ms) => UniqueKeys(ms) && MembersWellFormed(j, 0)
    case _ => true
  }

  predicate MembersWellFormed(parent: Json, i: nat)
    requires parent.JObj? && i <= |parent.members|
    decreases parent, 0, |parent.members| - i
  {
    i == |parent.members| || (WellFormed(parent.members[i].value) && MembersWellFormed(parent, i + 1))
  }

  /**
   * merge_patch as written: an object patch on an object target removes the
   * keys whose patch value is null and merges the others recursively (a
   * missing key starts out as null); any other pair replaces the target by
   * the patch, so an object patch on a non-object target is copied with its
   * null members.
   */
  function MergePatch(t: Json, p: Json): Json
    decreases p, 1
  {
    if t.JObj? && p.JObj? then JObj(MergeMembers(t.members, p, 0)) else p
  }

  /** Folds the members of patch object `p` from position `i` onward into `ts`. */
  function MergeMembers(ts: seq<Member>, p: Json, i: nat): seq<Member>
    requires p.JObj? && i <= |p.members|
    decreases p, 0, |p.members| - i
  {
    if i == |p.members| then ts
    else
      var m := p.members[i];
      var ts' := if m.value.JNull? then Remove(ts, m.key)
                 else Put(ts, m.key, MergePatch(GetOr(ts, m.key, JNull), m.value));
      MergeMembers(ts', p, i + 1)
  }

  /**
   * The merge-patch algorithm of section 2 of RFC 7396, the reference the
   * routine above is measured against: an object patch first turns a
   * non-object target into an empty object.
   */
  function RfcMergePatch(t: Json, p: Json): Json
    decreases p, 1
  {
    if p.JObj? then JObj(RfcMergeMembers(if t.JObj? then t.members else [], p, 0)) else p
  }

  function RfcMergeMembers(ts: seq<Member>, p: Json, i: nat): seq<Member>
    requires p.JObj? && i <= |p.members|
    decreases p, 0, |p.members| - i
  {
    if i == |p.members| then ts
    else
      var m := p.members[i];
      var ts' := if m.value.JNull? then Remove(ts, m.key)
                 else Put(ts, m.key, RfcMergePatch(GetOr(ts, m.key, JNull), m.value));
      RfcMergeMembers(ts', p, i + 1)
  }

  /** No object inside `j` has a null member (nulls inside arrays are data). */
  predicate NullFree(j: Json)
    decreases j, 1
  {
    j.JObj? ==> MembersNullFree(j, 0)
  }

  predicate MembersNullFree(parent: Json, i: nat)
    requires parent.JObj? && i <= |parent.members|
    decreases parent, 0, |parent.members| - i
  {
    i == |parent.members|
    || (!parent.members[i].value.JNull? && NullFree(parent.members[i].value) && MembersNullFree(parent, i + 1))
  }

  /**
   * Member lookup after merging an object patch into an object target: keys
   * the patch does not mention keep their value, a null removes the key, and
   * any other value is merged into the old value (null when the key was
   * missing).
   */
  lemma {:induction false} MergeObjectLookup(t: Json, p: Json, k: string)
    requires t.JObj? && p.JObj? && UniqueKeys(p.members)
    ensures MergePatch(t, p).JObj?
    ensures !HasKey(p.members, k) ==> Get(MergePatch(t, p).members, k) == Get(t.members, k)
    ensures HasKey(p.members, k) && Get(p.members, k).value.JNull? ==> Get(MergePatch(t, p).members, k) == None
    ensures HasKey(p.members, k) && !Get(p.members, k).value.JNull? ==>
      Get(MergePatch(t, p).members, k) == Some(MergePatch(GetOr(t.members, k, JNull), Get(p.members, k).value))
  {
    MergeMembersLookup(t.members, p, 0, k);
    assert p.members[0..] == p.members;
  }

  lemma {:induction false} MergeMembersLookup(ts: seq<Member>, p: Json, i: nat, k: string)
    requires p.JObj? && i <= |p.members| && UniqueKeys(p.members[i..])
    decreases |p.members| - i
    ensures !HasKey(p.members[i..], k) ==> Get(MergeMembers(ts, p, i), k) == Get(ts, k)
    ensures HasKey(p.members[i..], k) && Get(p.members[i..], k).value.JNull? ==> Get(MergeMembers(ts, p, i), k) == None
    ensures HasKey(p.members[i..], k) && !Get(p.members[i..], k).value.JNull? ==>
      Get(MergeMembers(ts, p, i), k) == Some(MergePatch(GetOr(ts, k, JNull), Get(p.members[i..], k).value))
  {
    if i < |p.members| {
      var m := p.members[i];
      assert p.members[i..][1..] == p.members[i + 1..];
      var ts' := if m.value.JNull? then Remove(ts, m.key)
                 else Put(ts, m.key, MergePatch(GetOr(ts, m.key, JNull), m.value));
      MergeMembersLookup(ts', p, i + 1, k);
    }
  }

  /** The lookup law the RFC algorithm satisfies, for any target. */
  lemma {:induction false} RfcMergeObjectLookup(t: Json, p: Json, k: string)
    requires p.JObj? && UniqueKeys(p.members)
    ensures RfcMergePatch(t, p).JObj?
    ensures !HasKey(p.members, k) ==>
      Get(RfcMergePatch(t, p).members, k) == (if t.JObj? then Get(t.members, k) else None)
    ensures HasKey(p.members, k) && Get(p.members, k).value.JNull? ==> Get(RfcMergePatch(t, p).members, k) == None
    ensures HasKey(p.members, k) && !Get(p.members, k).value.JNull? ==>
      Get(RfcMergePatch(t, p).members, k) ==
      Some(RfcMergePatch(if t.JObj? then GetOr(t.members, k, JNull) else JNull, Get(p.members, k).value))
  {
    RfcMergeMembersLookup(if t.JObj? then t.members else [], p, 0, k);
    assert p.members[0..] == p.members;
  }

  lemma {:induction false} RfcMergeMembersLookup(ts: seq<Member>, p: Json, i: nat, k: string)
    requires p.JObj? && i <= |p.members| && UniqueKeys(p.members[i..])
    decreases |p.members| - i
    ensures !HasKey(p.members[i..], k) ==> Get(RfcMergeMembers(ts, p, i), k) == Get(ts, k)
    ensures HasKey(p.members[i..], k) && Get(p.members[i..], k).value.JNull? ==> Get(RfcMergeMembers(ts, p, i), k) == None
    ensures HasKey(p.members[i..], k) && !Get(p.members[i..], k).value.JNull? ==>
      Get(RfcMergeMembers(ts, p, i), k) == Some(RfcMergePatch(GetOr(ts, k, JNull), Get(p.members[i..], k).value))
  {
    if i < |p.members| {
      var m := p.members[i];
      assert p.members[i..][1..] == p.members[i + 1..];
      var ts' := if m.value.JNull? then Remove(ts, m.key)
                 else Put(ts, m.key, RfcMergePatch(GetOr(ts, m.key, JNull), m.value));
      RfcMergeMembersLookup(ts', p, i + 1, k);
    }
  }

  /**
   * Where the two differ: an object patch on a non-object target is copied
   * with its null member, while the RFC algorithm drops it.
   */
  lemma NonObjectTargetKeepsNulls()
    ensures MergePatch(JNum(1.0), JObj([Member("a", JNull)])) == JObj([Member("a", JNull)])
    ensures RfcMergePatch(JNum(1.0), JObj([Member("a", JNull)])) == JObj([])
  {
    var p := JObj([Member("a", JNull)]);
    assert RfcMergeMembers([], p, 1) == [];
  }

  /** On patches without null members the routine computes what the RFC algorithm computes. */
  lemma {:induction false} MergeAgreesWithRfcWhenNullFree(t: Json, p: Json)
    requires WellFormed(p) && NullFree(p)
    decreases p, 1
    ensures MergePatch(t, p) == RfcMergePatch(t, p)
  {
    if p.JObj? {
      if t.JObj? {
        MergeMembersAgree(t.members, p, 0);
      } else {
        assert p.members[..0] == [];
        RfcMergeIntoEmpty(p, 0);
        assert p.members[..|p.members|] == p.members;
      }
    }
  }

  lemma {:induction false} MergeMembersAgree(ts: seq<Member>, p: Json, i: nat)
    requires p.JObj? && i <= |p.members| && MembersWellFormed(p, i) && MembersNullFree(p, i)
    decreases p, 0, |p.members| - i
    ensures MergeMembers(ts, p, i) == RfcMergeMembers(ts, p, i)
  {
    if i < |p.members| {
      var m := p.members[i];
      MergeAgreesWithRfcWhenNullFree(GetOr(ts, m.key, JNull), m.value);
      var ts' := Put(ts, m.key, MergePatch(GetOr(ts, m.key, JNull), m.value));
      MergeMembersAgree(ts', p, i + 1);
    }
  }

  /** Merging a null-free object patch into the empty object rebuilds the patch. */
  lemma {:induction false} RfcMergeIntoEmpty(p: Json, i: nat)
    requires p.JObj? && i <= |p.members| && UniqueKeys(p.members)
    requires MembersWellFormed(p, i) && MembersNullFree(p, i)
    decreases p, 0, |p.members| - i
    ensures RfcMergeMembers(p.members[..i], p, i) == p.members
  {
    if i == |p.members| {
      assert p.members[..i] == p.members;
    } else {
      var m := p.members[i];
      var pre := p.members[..i];
      assert WellFormed(m.value) && MembersWellFormed(p, i + 1);
      assert !m.value.JNull? && NullFree(m.value) && MembersNullFree(p, i + 1);
      UniqueKeysPrefix(p.members, i);
      MergeAgreesWithRfcWhenNullFree(JNull, m.value);
      RfcMergeAppendStep(pre, p, i);
      assert pre + [m] == p.members[..i + 1];
      RfcMergeIntoEmpty(p, i + 1);
    }
  }

  lemma RfcMergeAppendStep(pre: seq<Member>, p: Json, i: nat)
    requires p.JObj? && i < |p.members| && !p.members[i].value.JNull?
    requires !HasKey(pre, p.members[i].key)
    requires MergePatch(JNull, p.members[i].value) == RfcMergePatch(JNull, p.members[i].value)
    ensures RfcMergeMembers(pre, p, i) == RfcMergeMembers(pre + [p.members[i]], p, i + 1)
  {
    PutAbsentAppends(pre, p.members[i].key, p.members[i].value);
  }

  lemma {:induction false} UniqueKeysPrefix(ms: seq<Member>, i: nat)
    requires UniqueKeys(ms) && i < |ms|
    ensures !HasKey(ms[..i], ms[i].key)
  {
    if i > 0 {
      assert ms[..i][1..] == ms[1..][..i - 1];
      assert ms[1..][i - 1] == ms[i];
      UniqueKeysPrefix(ms[1..], i - 1);
      HasKeyAt(ms[1..], i - 1);
    }
  }

  lemma {:induction false} HasKeyAt(ms: seq<Member>, j: nat)
    requires j < |ms|
    ensures HasKey(ms, ms[j].key)
  {
    if j > 0 {
      assert ms[1..][j - 1] == ms[j];
      HasKeyAt(ms[1..], j - 1);
    }
  }

  lemma {:induction false} PutAbsentAppends(ms: seq<Member>, k: string, v: Json)
    requires !HasKey(ms, k)
    ensures Put(ms, k, v) == ms + [Member(k, v)]
  {
    if ms != [] {
      PutAbsentAppends(ms[1..], k, v);
      assert [ms[0]] + (ms[1..] + [Member(k, v)]) == ms + [Member(k, v)];
    }
  }
}
