/**
 * ucel/crates/ucel-symbol-store/src/market_meta_store.rs: the registry of
 * market rules.  A map from market id to its rules and their expiry instant,
 * a version counter bumped once per event, and the merge of a snapshot into
 * the map.  The concurrent map and the atomic counter are modelled as one
 * sequential object; instants are integers on an abstract clock passed in
 * by the caller.
 */
module MarketMetaStore {
  import opened Wrappers
  import opened MarketMeta
  import Sorting

  datatype Entry = Entry(meta: Meta, expiresAt: int)

  /** The events the store emits; receive timestamps are not modelled. */
  datatype Event =
    | Added(id: MarketMetaId, meta: Meta, storeVersion: nat)
    | Updated(id: MarketMetaId, changedFields: seq<string>, before: Meta, after: Meta, storeVersion: nat)
    | Removed(id: MarketMetaId, lastKnown: Option<Meta>, reason: string, storeVersion: nat)
    | Expired(id: MarketMetaId, lastKnown: Option<Meta>, storeVersion: nat)

  // ---------------------------------------------------------------------
  // Ordering of ids
  // ---------------------------------------------------------------------

  /**
   * The derived order of MarketMetaId: exchange, then market type, then the
   * raw symbol.  Each of the first two has a single value here, so the raw
   * symbol decides.
   */
  predicate IdLeq(a: MarketMetaId, b: MarketMetaId)
  {
    Sorting.LexLeq(a.rawSymbol, b.rawSymbol)
  }

  predicate IdLt(a: MarketMetaId, b: MarketMetaId)
  {
    IdLeq(a, b) && a != b
  }

  lemma IdLeqRefl(a: MarketMetaId)
    ensures IdLeq(a, a)
  {
    Sorting.LexLeqTotal(a.rawSymbol, a.rawSymbol);
  }

  /** Every non-empty set of ids has a least element, the next one a BTreeMap yields. */
  lemma {:induction false} LeastIdExists(s: set<MarketMetaId>)
    requires s != {}
    ensures exists k :: k in s && forall j :: j in s ==> IdLeq(k, j)
    decreases |s|
  {
    var x :| x in s;
    IdLeqRefl(x);
    if s == {x} {
      assert forall j :: j in s ==> IdLeq(x, j);
    } else {
      var rest := s - {x};
      LeastIdExists(rest);
      var m :| m in rest && forall j :: j in rest ==> IdLeq(m, j);
      Sorting.LexLeqTotal(x.rawSymbol, m.rawSymbol);
      if IdLeq(x, m) {
        LeastBefore(s, x, m);
      } else {
        IdLeqRefl(m);
        assert forall j :: j in s ==> IdLeq(m, j);
      }
    }
  }

  /** An id at or below the least of the others is the least of all. */
  lemma LeastBefore(s: set<MarketMetaId>, x: MarketMetaId, m: MarketMetaId)
    requires x in s && IdLeq(x, x) && IdLeq(x, m)
    requires forall j :: j in s - {x} ==> IdLeq(m, j)
    ensures forall j :: j in s ==> IdLeq(x, j)
  {
    forall j | j in s
      ensures IdLeq(x, j)
    {
      if j != x {
        assert j in s - {x};
        Sorting.LexLeqTrans(x.rawSymbol, m.rawSymbol, j.rawSymbol);
      }
    }
  }

  // ---------------------------------------------------------------------
  // changed_meta_fields
  // ---------------------------------------------------------------------

  /** Strictly ascending in the lexicographic order of strings. */
  ghost predicate StrictlySorted(s: seq<string>)
  {
    forall i, j :: 0 <= i < j < |s| ==> Sorting.LexLeq(s[i], s[j]) && s[i] != s[j]
  }

  /** The names changed_meta_fields can report, in ascending order. */
  const FIELD_NAMES: seq<string> := [
    "base", "contract_size", "max_qty", "meta", "min_notional", "min_qty",
    "price_precision", "qty_precision", "quote", "step_size", "tick_size"]

  /** A decimal option changes when both are present and differ, or when only one is present. */
  predicate OptDecimalChanged(a: Option<Decimal>, b: Option<Decimal>)
  {
    if a.Some? && b.Some? then a.value != b.value else a != b
  }

  /** Whether the field named FIELD_NAMES[k] differs between the two rules. */
  predicate FieldChanged(k: nat, before: Meta, after: Meta)
  {
    match k
    case 0 => before.base != after.base
    case 1 => OptDecimalChanged(before.contractSize, after.contractSize)
    case 2 => OptDecimalChanged(before.maxQty, after.maxQty)
    case 3 => before.meta != after.meta
    case 4 => OptDecimalChanged(before.minNotional, after.minNotional)
    case 5 => OptDecimalChanged(before.minQty, after.minQty)
    case 6 => before.pricePrecision != after.pricePrecision
    case 7 => before.qtyPrecision != after.qtyPrecision
    case 8 => before.quote != after.quote
    case 9 => before.stepSize != after.stepSize
    case 10 => before.tickSize != after.tickSize
    case _ => false
  }

  /** The names of the changed fields among the first k of FIELD_NAMES, in that order. */
  function ChangedAmong(k: nat, before: Meta, after: Meta): seq<string>
    requires k <= |FIELD_NAMES|
  {
    if k == 0 then []
    else ChangedAmong(k - 1, before, after) + (if FieldChanged(k - 1, before, after) then [FIELD_NAMES[k - 1]] else [])
  }

  /**
   * changed_meta_fields: the names of the fields that differ, in the
   * ascending order in which the BTreeSet yields them.
   */
  function ChangedMetaFields(before: Meta, after: Meta): seq<string>
  {
    ChangedAmong(|FIELD_NAMES|, before, after)
  }

  lemma StrictStep(a: string, b: string, c: string)
    requires Sorting.LexLeq(a, b) && a != b && Sorting.LexLeq(b, c) && b != c
    ensures Sorting.LexLeq(a, c) && a != c
  {
    Sorting.LexLeqTrans(a, b, c);
    if a == c {
      Sorting.LexLeqAntisym(a, b);
    }
  }

  /** A sequence whose neighbours ascend strictly ascends throughout. */
  lemma {:induction false} ChainSorted(s: seq<string>)
    requires forall i :: 0 <= i < |s| - 1 ==> Sorting.LexLeq(s[i], s[i + 1]) && s[i] != s[i + 1]
    ensures StrictlySorted(s)
    decreases |s|
  {
    if |s| >= 2 {
      var t := s[..|s| - 1];
      assert forall i :: 0 <= i < |t| ==> t[i] == s[i];
      ChainSorted(t);
      forall i, j | 0 <= i < j < |s|
        ensures Sorting.LexLeq(s[i], s[j]) && s[i] != s[j]
      {
        if j < |s| - 1 {
          assert t[i] == s[i] && t[j] == s[j];
        } else if i < j - 1 {
          assert t[i] == s[i] && t[j - 1] == s[j - 1];
          StrictStep(s[i], s[j - 1], s[j]);
        }
      }
    }
  }

  /** Each field name comes strictly before the next one. */
  lemma FieldNamesStep(i: nat)
    requires i < |FIELD_NAMES| - 1
    ensures Sorting.LexLeq(FIELD_NAMES[i], FIELD_NAMES[i + 1]) && FIELD_NAMES[i] != FIELD_NAMES[i + 1]
  {
    if i == 0 {
      assert FIELD_NAMES[i] == "base" && FIELD_NAMES[i + 1] == "contract_size";
      assert Sorting.LexLeq("base", "contract_size");
    } else if i == 1 {
      assert FIELD_NAMES[i] == "contract_size" && FIELD_NAMES[i + 1] == "max_qty";
      assert Sorting.LexLeq("contract_size", "max_qty");
    } else if i == 2 {
      assert FIELD_NAMES[i] == "max_qty" && FIELD_NAMES[i + 1] == "meta";
      assert Sorting.LexLeq("ax_qty", "eta");
      assert Sorting.LexLeq("max_qty", "meta");
    } else if i == 3 {
      assert FIELD_NAMES[i] == "meta" && FIELD_NAMES[i + 1] == "min_notional";
      assert Sorting.LexLeq("eta", "in_notional");
      assert Sorting.LexLeq("meta", "min_notional");
    } else if i == 4 {
      assert FIELD_NAMES[i] == "min_notional" && FIELD_NAMES[i + 1] == "min_qty";
      assert Sorting.LexLeq("notional", "qty");
      assert Sorting.LexLeq("_notional", "_qty");
      assert Sorting.LexLeq("n_notional", "n_qty");
      assert Sorting.LexLeq("in_notional", "in_qty");
      assert Sorting.LexLeq("min_notional", "min_qty");
    } else if i == 5 {
      assert FIELD_NAMES[i] == "min_qty" && FIELD_NAMES[i + 1] == "price_precision";
      assert Sorting.LexLeq("min_qty", "price_precision");
    } else if i == 6 {
      assert FIELD_NAMES[i] == "price_precision" && FIELD_NAMES[i + 1] == "qty_precision";
      assert Sorting.LexLeq("price_precision", "qty_precision");
    } else if i == 7 {
      assert FIELD_NAMES[i] == "qty_precision" && FIELD_NAMES[i + 1] == "quote";
      assert Sorting.LexLeq("ty_precision", "uote");
      assert Sorting.LexLeq("qty_precision", "quote");
    } else if i == 8 {
      assert FIELD_NAMES[i] == "quote" && FIELD_NAMES[i + 1] == "step_size";
      assert Sorting.LexLeq("quote", "step_size");
    } else {
      assert FIELD_NAMES[i] == "step_size" && FIELD_NAMES[i + 1] == "tick_size";
      assert Sorting.LexLeq("step_size", "tick_size");
    }
  }

  lemma FieldNamesSorted()
    ensures StrictlySorted(FIELD_NAMES)
  {
    forall i | 0 <= i < |FIELD_NAMES| - 1
      ensures Sorting.LexLeq(FIELD_NAMES[i], FIELD_NAMES[i + 1]) && FIELD_NAMES[i] != FIELD_NAMES[i + 1]
    {
      FieldNamesStep(i);
    }
    ChainSorted(FIELD_NAMES);
  }

  /** A name is reported from the first k exactly when it is one of them and that field changed. */
  lemma {:induction false} ChangedAmongHas(k: nat, before: Meta, after: Meta, f: string)
    requires k <= |FIELD_NAMES|
    ensures f in ChangedAmong(k, before, after) <==>
      exists j :: 0 <= j < k && FIELD_NAMES[j] == f && FieldChanged(j, before, after)
  {
    if k > 0 {
      ChangedAmongHas(k - 1, before, after, f);
    }
  }

  /** The names reported from the first k are ascending and all among the first k. */
  lemma {:induction false} ChangedAmongSorted(k: nat, before: Meta, after: Meta)
    requires k <= |FIELD_NAMES|
    ensures StrictlySorted(ChangedAmong(k, before, after))
    ensures forall x :: x in ChangedAmong(k, before, after) ==> x in FIELD_NAMES[..k]
  {
    if k > 0 {
      ChangedAmongSorted(k - 1, before, after);
      FieldNamesSorted();
      AppendName(ChangedAmong(k - 1, before, after), k - 1,
                 if FieldChanged(k - 1, before, after) then [FIELD_NAMES[k - 1]] else []);
    } else {
      assert ChangedAmong(0, before, after) == [];
    }
  }

  /** Appending the k-th name, or nothing, to names taken from before it keeps them ascending. */
  lemma AppendName(p: seq<string>, k: nat, c: seq<string>)
    requires k < |FIELD_NAMES| && StrictlySorted(FIELD_NAMES)
    requires StrictlySorted(p) && forall x :: x in p ==> x in FIELD_NAMES[..k]
    requires c == [] || c == [FIELD_NAMES[k]]
    ensures StrictlySorted(p + c)
    ensures forall x :: x in p + c ==> x in FIELD_NAMES[..k + 1]
  {
    forall x | x in p
      ensures x in FIELD_NAMES[..k + 1] && Sorting.LexLeq(x, FIELD_NAMES[k]) && x != FIELD_NAMES[k]
    {
      var j :| 0 <= j < k && FIELD_NAMES[..k][j] == x;
      assert FIELD_NAMES[..k + 1][j] == x;
    }
    assert FIELD_NAMES[..k + 1][k] == FIELD_NAMES[k];
  }

  /**
   * changed_meta_fields reports the k-th field name exactly when that field
   * differs, reports no other name, and reports them once each in ascending
   * order.
   */
  lemma ChangedMetaFieldsSpec(before: Meta, after: Meta)
    ensures forall k :: 0 <= k < |FIELD_NAMES| ==>
      (FIELD_NAMES[k] in ChangedMetaFields(before, after) <==> FieldChanged(k, before, after))
    ensures forall f :: f in ChangedMetaFields(before, after) ==> f in FIELD_NAMES
    ensures StrictlySorted(ChangedMetaFields(before, after))
  {
    FieldNamesSorted();
    ChangedAmongSorted(|FIELD_NAMES|, before, after);
    assert FIELD_NAMES[..|FIELD_NAMES|] == FIELD_NAMES;
    forall k | 0 <= k < |FIELD_NAMES|
      ensures FIELD_NAMES[k] in ChangedMetaFields(before, after) <==> FieldChanged(k, before, after)
    {
      ChangedAmongHas(|FIELD_NAMES|, before, after, FIELD_NAMES[k]);
    }
  }

  /** In the source's own words: "base" is reported exactly when the bases differ, and so on for each field. */
  lemma ChangedMetaFieldsNames(before: Meta, after: Meta)
    ensures var r := ChangedMetaFields(before, after);
      && ("base" in r <==> before.base != after.base)
      && ("quote" in r <==> before.quote != after.quote)
      && ("tick_size" in r <==> before.tickSize != after.tickSize)
      && ("step_size" in r <==> before.stepSize != after.stepSize)
      && ("min_qty" in r <==> OptDecimalChanged(before.minQty, after.minQty))
      && ("max_qty" in r <==> OptDecimalChanged(before.maxQty, after.maxQty))
      && ("min_notional" in r <==> OptDecimalChanged(before.minNotional, after.minNotional))
      && ("price_precision" in r <==> before.pricePrecision != after.pricePrecision)
      && ("qty_precision" in r <==> before.qtyPrecision != after.qtyPrecision)
      && ("contract_size" in r <==> OptDecimalChanged(before.contractSize, after.contractSize))
      && ("meta" in r <==> before.meta != after.meta)
  {
    ChangedMetaFieldsSpec(before, after);
    assert FIELD_NAMES[0] == "base" && FIELD_NAMES[1] == "contract_size" && FIELD_NAMES[2] == "max_qty";
    assert FIELD_NAMES[3] == "meta" && FIELD_NAMES[4] == "min_notional" && FIELD_NAMES[5] == "min_qty";
    assert FIELD_NAMES[6] == "price_precision" && FIELD_NAMES[7] == "qty_precision";
    assert FIELD_NAMES[8] == "quote" && FIELD_NAMES[9] == "step_size" && FIELD_NAMES[10] == "tick_size";
  }

  /**
   * Nothing is reported exactly when the two rules agree everywhere except
   * in the id and the schema version, which are not compared.
   */
  lemma ChangedMetaFieldsEmpty(before: Meta, after: Meta)
    ensures ChangedMetaFields(before, after) == [] <==>
      after == before.(id := after.id, schemaVersion := after.schemaVersion)
  {
    ChangedMetaFieldsSpec(before, after);
    var r := ChangedMetaFields(before, after);
    if r == [] {
      assert forall k :: 0 <= k < |FIELD_NAMES| ==> !FieldChanged(k, before, after);
      UnchangedFieldsAgree(before, after);
    } else {
      assert r[0] in r;
      var k :| 0 <= k < |FIELD_NAMES| && FIELD_NAMES[k] == r[0];
      assert FieldChanged(k, before, after);
    }
  }

  /** Rules none of whose compared fields changed agree but for the id and the schema version. */
  lemma UnchangedFieldsAgree(before: Meta, after: Meta)
    requires forall k :: 0 <= k < |FIELD_NAMES| ==> !FieldChanged(k, before, after)
    ensures after == before.(id := after.id, schemaVersion := after.schemaVersion)
  {
    assert !FieldChanged(0, before, after) && !FieldChanged(1, before, after) && !FieldChanged(2, before, after);
    assert !FieldChanged(3, before, after) && !FieldChanged(4, before, after) && !FieldChanged(5, before, after);
    assert !FieldChanged(6, before, after) && !FieldChanged(7, before, after) && !FieldChanged(8, before, after);
    assert !FieldChanged(9, before, after) && !FieldChanged(10, before, after);
  }

  // ---------------------------------------------------------------------
  // Incoming rules
  // ---------------------------------------------------------------------

  /** The rules a snapshot brings: the valid ones by id, a later one replacing an earlier. */
  function Incoming(markets: seq<Meta>): (r: map<MarketMetaId, Meta>)
    ensures forall id :: id in r ==> r[id].id == id && MetaValid(r[id])
  {
    if markets == [] then map[]
    else
      var prev := Incoming(markets[..|markets| - 1]);
      var m := markets[|markets| - 1];
      if ValidateMeta(m).Ok? then prev[m.id := m] else prev
  }

  /** An id comes in exactly when a valid rule carries it. */
  lemma {:induction false} IncomingHas(markets: seq<Meta>, id: MarketMetaId)
    ensures id in Incoming(markets) <==> exists i :: 0 <= i < |markets| && markets[i].id == id && MetaValid(markets[i])
    decreases |markets|
  {
    if markets != [] {
      var n := |markets|;
      var pre := markets[..n - 1];
      IncomingHas(pre, id);
      if id in Incoming(markets) {
        if !(markets[n - 1].id == id && MetaValid(markets[n - 1])) {
          var i :| 0 <= i < |pre| && pre[i].id == id && MetaValid(pre[i]);
          assert markets[i] == pre[i];
        }
      } else {
        forall i | 0 <= i < n && markets[i].id == id
          ensures !MetaValid(markets[i])
        {
          if i < n - 1 {
            assert markets[i] == pre[i];
          }
        }
      }
    }
  }

  /** An id that comes in carries the last valid rule with that id. */
  lemma {:induction false} IncomingLast(markets: seq<Meta>, id: MarketMetaId)
    requires id in Incoming(markets)
    ensures exists i :: (0 <= i < |markets| && markets[i] == Incoming(markets)[id]
      && forall j :: i < j < |markets| && markets[j].id == id ==> !MetaValid(markets[j]))
    decreases |markets|
  {
    var n := |markets|;
    var pre := markets[..n - 1];
    var m := markets[n - 1];
    if m.id == id && MetaValid(m) {
      assert markets[n - 1] == Incoming(markets)[id];
    } else {
      assert Incoming(markets)[id] == Incoming(pre)[id];
      IncomingLast(pre, id);
      var i :| 0 <= i < |pre| && pre[i] == Incoming(pre)[id]
        && forall j :: i < j < |pre| && pre[j].id == id ==> !MetaValid(pre[j]);
      assert markets[i] == pre[i];
      forall j | i < j < n && markets[j].id == id
        ensures !MetaValid(markets[j])
      {
        if j < n - 1 {
          assert markets[j] == pre[j];
        }
      }
    }
  }

  /** The loop that fills the BTreeMap of incoming rules. */
  method CollectIncoming(markets: seq<Meta>) returns (incoming: map<MarketMetaId, Meta>)
    ensures incoming == Incoming(markets)
  {
    incoming := map[];
    for i := 0 to |markets|
      invariant incoming == Incoming(markets[..i])
    {
      assert markets[..i + 1][..i] == markets[..i];
      var m := markets[i];
      if ValidateMeta(m).Ok? {
        incoming := incoming[m.id := m];
      }
    }
    assert markets[..|markets|] == markets;
  }

  // ---------------------------------------------------------------------
  // Events
  // ---------------------------------------------------------------------

  datatype RemovalKind = SnapshotMissing | TtlExpired

  /** The event for dropping an entry: Removed by a full snapshot, Expired by the collector. */
  function RemovalEvent(kind: RemovalKind, id: MarketMetaId, meta: Meta, ver: nat): (e: Event)
    ensures e.id == id && e.storeVersion == ver
    ensures kind == SnapshotMissing <==> e.Removed?
    ensures e.Removed? ==> e.lastKnown == Some(meta) && e.reason == "snapshot_missing"
    ensures e.Expired? ==> e.lastKnown == Some(meta)
  {
    match kind
    case SnapshotMissing => Removed(id, Some(meta), "snapshot_missing", ver)
    case TtlExpired => Expired(id, Some(meta), ver)
  }

  /** Each id at most once: none occurs again before its position. */
  predicate Distinct(ids: seq<MarketMetaId>)
  {
    forall i :: 0 <= i < |ids| ==> ids[i] !in ids[..i]
  }

  /** Strictly ascending ids, as a BTreeMap yields its keys. */
  predicate Ascending(ids: seq<MarketMetaId>)
  {
    forall i, j {:trigger IdLt(ids[i], ids[j])} :: 0 <= i < j < |ids| ==> IdLt(ids[i], ids[j])
  }

  /** The events of dropping the keys of order from before one after the other, versions counting on from v0. */
  function RemovalsOf(order: seq<MarketMetaId>, before: map<MarketMetaId, Entry>, kind: RemovalKind, v0: nat): (r: seq<Event>)
    requires forall i :: 0 <= i < |order| ==> order[i] in before
    ensures |r| == |order|
  {
    if order == [] then []
    else
      var n := |order|;
      RemovalsOf(order[..n - 1], before, kind, v0) + [RemovalEvent(kind, order[n - 1], before[order[n - 1]].meta, v0 + n)]
  }

  /** Dropping one more key, at the version ver reached so far, appends its event. */
  lemma RemovalsOfSnoc(order: seq<MarketMetaId>, before: map<MarketMetaId, Entry>, kind: RemovalKind, v0: nat, k: MarketMetaId, ver: nat)
    requires forall i :: 0 <= i < |order| ==> order[i] in before
    requires k in before
    requires ver == v0 + |order|
    ensures RemovalsOf(order + [k], before, kind, v0)
      == RemovalsOf(order, before, kind, v0) + [RemovalEvent(kind, k, before[k].meta, ver + 1)]
  {
    assert (order + [k])[..|order|] == order;
  }

  /**
   * The i-th removal drops the i-th key with the rules held for it and
   * carries the i-th version after v0.
   */
  lemma {:induction false} RemovalsOfAt(order: seq<MarketMetaId>, before: map<MarketMetaId, Entry>, kind: RemovalKind, v0: nat)
    requires forall i :: 0 <= i < |order| ==> order[i] in before
    ensures forall i :: 0 <= i < |order| ==>
      RemovalsOf(order, before, kind, v0)[i] == RemovalEvent(kind, order[i], before[order[i]].meta, v0 + i + 1)
    decreases |order|
  {
    if order != [] {
      var n := |order|;
      var pre := order[..n - 1];
      RemovalsOfAt(pre, before, kind, v0);
      assert forall i :: 0 <= i < n - 1 ==> pre[i] == order[i];
    }
  }

  /** The rules held for id, if any. */
  function Held(before: map<MarketMetaId, Entry>, id: MarketMetaId): (r: Option<Meta>)
    ensures r.Some? <==> id in before
    ensures r.Some? ==> r.value == before[id].meta
  {
    if id in before then Some(before[id].meta) else None
  }

  /** The event merging meta under id emits, given the rules held before: none when nothing changed. */
  function MergeOutcome(held: Option<Meta>, id: MarketMetaId, meta: Meta, ver: nat): seq<Event>
  {
    match held
    case None => [Added(id, meta, ver)]
    case Some(before) =>
      var changed := ChangedMetaFields(before, meta);
      if changed != [] then [Updated(id, changed, before, meta, ver)] else []
  }

  /** The events of merging the incoming rules of ids, in this order, into before. */
  function MergesOf(ids: seq<MarketMetaId>, before: map<MarketMetaId, Entry>, incoming: map<MarketMetaId, Meta>, v0: nat): (r: seq<Event>)
    requires forall i :: 0 <= i < |ids| ==> ids[i] in incoming
    ensures |r| <= |ids|
  {
    if ids == [] then []
    else
      var n := |ids|;
      var prev := MergesOf(ids[..n - 1], before, incoming, v0);
      prev + MergeOutcome(Held(before, ids[n - 1]), ids[n - 1], incoming[ids[n - 1]], v0 + |prev| + 1)
  }

  /** Merging one more id of ids appends that id's outcome. */
  lemma MergesOfPrefix(ids: seq<MarketMetaId>, i: nat, before: map<MarketMetaId, Entry>, incoming: map<MarketMetaId, Meta>, v0: nat,
                       events: seq<Event>, out: seq<Event>)
    requires i < |ids|
    requires forall j :: 0 <= j < |ids| ==> ids[j] in incoming
    requires events == MergesOf(ids[..i], before, incoming, v0)
    requires out == MergeOutcome(Held(before, ids[i]), ids[i], incoming[ids[i]], v0 + |events| + 1)
    ensures events + out == MergesOf(ids[..i + 1], before, incoming, v0)
  {
    assert ids[..i + 1][..i] == ids[..i];
  }

  /** A merge reads the held rules only at the ids it merges. */
  lemma {:induction false} MergesOfSameHeld(ids: seq<MarketMetaId>, a: map<MarketMetaId, Entry>, b: map<MarketMetaId, Entry>, incoming: map<MarketMetaId, Meta>, v0: nat)
    requires forall i :: 0 <= i < |ids| ==> ids[i] in incoming && Held(a, ids[i]) == Held(b, ids[i])
    ensures MergesOf(ids, a, incoming, v0) == MergesOf(ids, b, incoming, v0)
    decreases |ids|
  {
    if ids != [] {
      MergesOfSameHeld(ids[..|ids| - 1], a, b, incoming, v0);
    }
  }

  /**
   * A merge event is an Added for an id not held, with its incoming rules,
   * or an Updated for a held id whose rules changed, with the rules before
   * and after and the names of the changed fields.
   */
  ghost predicate MergeEventFits(e: Event, before: map<MarketMetaId, Entry>, incoming: map<MarketMetaId, Meta>)
  {
    && e.id in incoming
    && (e.Added? || e.Updated?)
    && (e.Added? ==> e.id !in before && e.meta == incoming[e.id])
    && (e.Updated? ==>
          && e.id in before
          && e.before == before[e.id].meta
          && e.after == incoming[e.id]
          && e.changedFields == ChangedMetaFields(e.before, e.after)
          && e.changedFields != [])
  }

  /** The i-th merge event fits its id, is about a merged id, and carries the i-th version after v0. */
  ghost predicate MergeEventAt(e: Event, i: int, ids: seq<MarketMetaId>, before: map<MarketMetaId, Entry>, incoming: map<MarketMetaId, Meta>, v0: nat)
  {
    e.storeVersion == v0 + i + 1 && e.id in ids && MergeEventFits(e, before, incoming)
  }

  /** Every merge event fits its id, is about a merged id, and carries the next version. */
  lemma {:induction false} MergesOfEvents(ids: seq<MarketMetaId>, before: map<MarketMetaId, Entry>, incoming: map<MarketMetaId, Meta>, v0: nat)
    requires forall i :: 0 <= i < |ids| ==> ids[i] in incoming
    ensures forall i :: 0 <= i < |MergesOf(ids, before, incoming, v0)| ==>
      MergeEventAt(MergesOf(ids, before, incoming, v0)[i], i, ids, before, incoming, v0)
    decreases |ids|
  {
    if ids != [] {
      var n := |ids|;
      var pre := ids[..n - 1];
      var last := ids[n - 1];
      MergesOfEvents(pre, before, incoming, v0);
      var prev := MergesOf(pre, before, incoming, v0);
      var o := MergeOutcome(Held(before, last), last, incoming[last], v0 + |prev| + 1);
      var r := MergesOf(ids, before, incoming, v0);
      assert r == prev + o;
      forall i | 0 <= i < |r|
        ensures MergeEventAt(r[i], i, ids, before, incoming, v0)
      {
        if i < |prev| {
          assert r[i] == prev[i];
          assert MergeEventAt(prev[i], i, pre, before, incoming, v0);
          var k :| 0 <= k < |pre| && pre[k] == prev[i].id;
          assert ids[k] == pre[k];
        } else {
          assert r[i] == o[0];
          assert o[0].id == last && o[0].storeVersion == v0 + |prev| + 1;
          assert MergeEventFits(o[0], before, incoming);
        }
      }
    }
  }

  /** Some event of r is about id. */
  ghost predicate Reported(r: seq<Event>, id: MarketMetaId)
  {
    exists i :: 0 <= i < |r| && r[i].id == id
  }

  /** Two event runs one after the other report what either reports. */
  lemma ReportedAppend(a: seq<Event>, b: seq<Event>, id: MarketMetaId)
    ensures Reported(a + b, id) <==> Reported(a, id) || Reported(b, id)
  {
    if Reported(a + b, id) {
      var i :| 0 <= i < |a + b| && (a + b)[i].id == id;
      if i >= |a| {
        assert b[i - |a|].id == id;
      }
    }
    if Reported(a, id) {
      var i :| 0 <= i < |a| && a[i].id == id;
      assert (a + b)[i].id == id;
    }
    if Reported(b, id) {
      var i :| 0 <= i < |b| && b[i].id == id;
      assert (a + b)[|a| + i].id == id;
    }
  }

  /** Merging one rule reports its id exactly when the id is new or its rules changed. */
  lemma OutcomeReports(held: Option<Meta>, last: MarketMetaId, meta: Meta, ver: nat, id: MarketMetaId)
    ensures Reported(MergeOutcome(held, last, meta, ver), id) <==>
      id == last && (held.None? || ChangedMetaFields(held.value, meta) != [])
  {
    var o := MergeOutcome(held, last, meta, ver);
    if o != [] {
      assert o[0].id == last;
    }
  }

  /** Whether merging id from incoming into before reports it: it is new, or its rules changed. */
  ghost predicate Reportable(before: map<MarketMetaId, Entry>, incoming: map<MarketMetaId, Meta>, id: MarketMetaId)
    requires id in incoming
  {
    id !in before || ChangedMetaFields(before[id].meta, incoming[id]) != []
  }

  /** Every id a merge reports is one it merges, new or with changed rules. */
  lemma {:induction false} ReportedIsReportable(ids: seq<MarketMetaId>, before: map<MarketMetaId, Entry>, incoming: map<MarketMetaId, Meta>, v0: nat, id: MarketMetaId)
    requires forall i :: 0 <= i < |ids| ==> ids[i] in incoming
    requires Reported(MergesOf(ids, before, incoming, v0), id)
    ensures id in ids && Reportable(before, incoming, id)
    decreases |ids|
  {
    var n := |ids|;
    var pre := ids[..n - 1];
    var last := ids[n - 1];
    var prev := MergesOf(pre, before, incoming, v0);
    var o := MergeOutcome(Held(before, last), last, incoming[last], v0 + |prev| + 1);
    ReportedAppend(prev, o, id);
    if Reported(prev, id) {
      ReportedIsReportable(pre, before, incoming, v0, id);
      var i :| 0 <= i < |pre| && pre[i] == id;
      assert ids[i] == id;
    } else {
      OutcomeReports(Held(before, last), last, incoming[last], v0 + |prev| + 1, id);
    }
  }

  /** Every merged id that is new or has changed rules is reported. */
  lemma {:induction false} ReportableIsReported(ids: seq<MarketMetaId>, before: map<MarketMetaId, Entry>, incoming: map<MarketMetaId, Meta>, v0: nat, id: MarketMetaId)
    requires forall i :: 0 <= i < |ids| ==> ids[i] in incoming
    requires id in ids && Reportable(before, incoming, id)
    ensures Reported(MergesOf(ids, before, incoming, v0), id)
    decreases |ids|
  {
    var n := |ids|;
    var pre := ids[..n - 1];
    var last := ids[n - 1];
    var prev := MergesOf(pre, before, incoming, v0);
    var o := MergeOutcome(Held(before, last), last, incoming[last], v0 + |prev| + 1);
    ReportedAppend(prev, o, id);
    if id == last {
      OutcomeReports(Held(before, last), last, incoming[last], v0 + |prev| + 1, id);
    } else {
      var i :| 0 <= i < n && ids[i] == id;
      assert pre[i] == id;
      ReportableIsReported(pre, before, incoming, v0, id);
    }
  }

  /**
   * A merge reports an id exactly when it merges it and the id is new or
   * its rules changed: nothing is reported for unchanged rules.
   */
  lemma MergesOfReports(ids: seq<MarketMetaId>, before: map<MarketMetaId, Entry>, incoming: map<MarketMetaId, Meta>, v0: nat, id: MarketMetaId)
    requires forall i :: 0 <= i < |ids| ==> ids[i] in incoming
    ensures Reported(MergesOf(ids, before, incoming, v0), id) <==>
      id in ids && (id !in before || ChangedMetaFields(before[id].meta, incoming[id]) != [])
  {
    if Reported(MergesOf(ids, before, incoming, v0), id) {
      ReportedIsReportable(ids, before, incoming, v0, id);
    }
    if id in ids && Reportable(before, incoming, id) {
      ReportableIsReported(ids, before, incoming, v0, id);
    }
  }

  /** The events of r come in strictly ascending id order. */
  ghost predicate EventsAscending(r: seq<Event>)
  {
    forall i, j :: 0 <= i < j < |r| ==> IdLt(r[i].id, r[j].id)
  }

  /** Merging ascending ids reports them in ascending order. */
  lemma {:induction false} MergesOfAscending(ids: seq<MarketMetaId>, before: map<MarketMetaId, Entry>, incoming: map<MarketMetaId, Meta>, v0: nat)
    requires forall i :: 0 <= i < |ids| ==> ids[i] in incoming
    requires Ascending(ids)
    ensures EventsAscending(MergesOf(ids, before, incoming, v0))
    decreases |ids|
  {
    if ids != [] {
      var n := |ids|;
      var pre := ids[..n - 1];
      var last := ids[n - 1];
      MergesOfAscending(pre, before, incoming, v0);
      MergesOfEvents(pre, before, incoming, v0);
      var prev := MergesOf(pre, before, incoming, v0);
      var o := MergeOutcome(Held(before, last), last, incoming[last], v0 + |prev| + 1);
      var r := MergesOf(ids, before, incoming, v0);
      assert r == prev + o;
      forall i, j | 0 <= i < j < |r|
        ensures IdLt(r[i].id, r[j].id)
      {
        assert r[i] == prev[i];
        if j < |prev| {
          assert r[j] == prev[j];
        } else {
          assert r[j] == o[0];
          assert MergeEventAt(prev[i], i, pre, before, incoming, v0);
          var k :| 0 <= k < |pre| && pre[k] == prev[i].id;
          assert ids[k] == pre[k];
        }
      }
    }
  }

  /** Rules keyed by their own id and accepted by validate_meta. */
  ghost predicate ValidRules(rules: map<MarketMetaId, Meta>)
  {
    forall id :: id in rules ==> rules[id].id == id && MetaValid(rules[id])
  }

  /** The ids a snapshot removes: those held but not brought, and only by a full snapshot. */
  function StaleIds(held: map<MarketMetaId, Entry>, incoming: map<MarketMetaId, Meta>, isFull: bool): (r: set<MarketMetaId>)
    ensures forall k :: k in r <==> isFull && k in held && k !in incoming
  {
    if isFull then set k | k in held && k !in incoming else {}
  }

  /**
   * The keys of a map collected into a vector, in an order the concurrent
   * map leaves open: each once.
   */
  method CollectKeys(s: set<MarketMetaId>) returns (ks: seq<MarketMetaId>)
    ensures forall k :: k in ks <==> k in s
    ensures Distinct(ks)
  {
    ks := [];
    var rest := s;
    while rest != {}
      invariant forall k :: k in ks <==> k in s && k !in rest
      invariant rest <= s
      invariant Distinct(ks)
      decreases |rest|
    {
      var k :| k in rest;
      ks := ks + [k];
      rest := rest - {k};
    }
  }

  /** The keys of a BTreeMap in the order it yields them: ascending. */
  method SortedKeys(s: set<MarketMetaId>) returns (ids: seq<MarketMetaId>)
    ensures forall k :: k in ids <==> k in s
    ensures Ascending(ids)
  {
    ids := [];
    var rest := s;
    while rest != {}
      invariant forall k :: k in ids <==> k in s && k !in rest
      invariant rest <= s
      invariant Ascending(ids)
      invariant forall i, k :: 0 <= i < |ids| && k in rest ==> IdLt(ids[i], k)
      decreases |rest|
    {
      LeastIdExists(rest);
      var id :| id in rest && forall j :: j in rest ==> IdLeq(id, j);
      ids := ids + [id];
      rest := rest - {id};
    }
  }

  /** The entries of before outside gone. */
  function Without(before: map<MarketMetaId, Entry>, gone: seq<MarketMetaId>): (r: map<MarketMetaId, Entry>)
    ensures forall k :: k in r <==> k in before && k !in gone
    ensures forall k :: k in r ==> r[k] == before[k]
  {
    map k | k in before && k !in gone :: before[k]
  }

  lemma WithoutSnoc(before: map<MarketMetaId, Entry>, gone: seq<MarketMetaId>, x: MarketMetaId)
    ensures Without(before, gone + [x]) == Without(before, gone) - {x}
  {
  }

  /** One step of dropping keys in turn: the next key is still held, and its event comes next. */
  lemma RemoveStep(keys: seq<MarketMetaId>, i: nat, before: map<MarketMetaId, Entry>, kind: RemovalKind, v0: nat,
                   m: map<MarketMetaId, Entry>, ver: nat, events: seq<Event>)
    requires i < |keys| && Distinct(keys)
    requires forall j :: 0 <= j < |keys| ==> keys[j] in before
    requires m == Without(before, keys[..i])
    requires ver == v0 + i
    requires events == RemovalsOf(keys[..i], before, kind, v0)
    ensures keys[i] in m && m[keys[i]] == before[keys[i]]
    ensures m - {keys[i]} == Without(before, keys[..i + 1])
    ensures events + [RemovalEvent(kind, keys[i], m[keys[i]].meta, ver + 1)] == RemovalsOf(keys[..i + 1], before, kind, v0)
  {
    var pre := keys[..i];
    assert keys[..i + 1] == pre + [keys[i]];
    assert keys[i] !in pre;
    RemovalsOfSnoc(pre, before, kind, v0, keys[i], ver);
    WithoutSnoc(before, pre, keys[i]);
  }

  /** Dropping the keys of a set, taken in any order, leaves the same map. */
  lemma WithoutSet(before: map<MarketMetaId, Entry>, gone: seq<MarketMetaId>, s: set<MarketMetaId>)
    requires forall k :: k in gone <==> k in s
    ensures Without(before, gone) == map k | k in before && k !in s :: before[k]
  {
  }

  /** Entries keyed by the id of the rules they hold, all accepted by validate_meta. */
  ghost predicate EntriesValid(m: map<MarketMetaId, Entry>)
  {
    forall id :: id in m ==> m[id].meta.id == id && MetaValid(m[id].meta)
  }

  /**
   * The rules a merge stores for an id: the incoming ones, except that
   * rules whose compared fields did not change are kept as held, so that
   * only their expiry moves.
   */
  function MergedMeta(held: Option<Meta>, meta: Meta): (r: Meta)
    ensures held.None? ==> r == meta
    ensures held.Some? && ChangedMetaFields(held.value, meta) != [] ==> r == meta
    ensures held.Some? && ChangedMetaFields(held.value, meta) == [] ==> r == held.value
    ensures held.Some? && held.value.id == meta.id ==> r == meta.(schemaVersion := r.schemaVersion)
  {
    match held
    case None => meta
    case Some(before) =>
      if ChangedMetaFields(before, meta) != [] then meta
      else
        ChangedMetaFieldsEmpty(before, meta);
        before
  }

  /** The entries a merge writes for the incoming ids, all expiring at exp. */
  function Arrivals(held: map<MarketMetaId, Entry>, incoming: map<MarketMetaId, Meta>, exp: int): (r: map<MarketMetaId, Entry>)
    ensures r.Keys == incoming.Keys
    ensures forall id :: id in r ==> r[id] == Entry(MergedMeta(Held(held, id), incoming[id]), exp)
  {
    map id | id in incoming :: Entry(MergedMeta(Held(held, id), incoming[id]), exp)
  }

  /** The entries after merging the incoming rules of ids, one after the other, into before. */
  function Refreshed(before: map<MarketMetaId, Entry>, ids: seq<MarketMetaId>, incoming: map<MarketMetaId, Meta>, exp: int): (r: map<MarketMetaId, Entry>)
    requires forall i :: 0 <= i < |ids| ==> ids[i] in incoming
    ensures forall k :: k in r <==> k in before || k in ids
    ensures forall k :: k in r ==>
      r[k] == if k in ids then Entry(MergedMeta(Held(before, k), incoming[k]), exp) else before[k]
  {
    if ids == [] then before
    else
      var n := |ids|;
      assert forall k :: k in ids <==> k in ids[..n - 1] || k == ids[n - 1];
      Refreshed(before, ids[..n - 1], incoming, exp)[ids[n - 1] := Entry(MergedMeta(Held(before, ids[n - 1]), incoming[ids[n - 1]]), exp)]
  }

  /** One step of the merge: the next id is held as before, since ascending ids do not repeat. */
  lemma MergeStepHeld(ids: seq<MarketMetaId>, i: nat, before: map<MarketMetaId, Entry>, incoming: map<MarketMetaId, Meta>, exp: int)
    requires i < |ids| && Ascending(ids)
    requires forall j :: 0 <= j < |ids| ==> ids[j] in incoming
    ensures Held(Refreshed(before, ids[..i], incoming, exp), ids[i]) == Held(before, ids[i])
  {
    forall k | 0 <= k < i
      ensures ids[..i][k] != ids[i]
    {
      assert IdLt(ids[k], ids[i]);
    }
    assert ids[i] !in ids[..i];
  }

  /** Merging one more id of ids writes that id's entry. */
  lemma RefreshedPrefix(ids: seq<MarketMetaId>, i: nat, before: map<MarketMetaId, Entry>, incoming: map<MarketMetaId, Meta>, exp: int)
    requires i < |ids|
    requires forall j :: 0 <= j < |ids| ==> ids[j] in incoming
    ensures Refreshed(before, ids[..i + 1], incoming, exp)
      == Refreshed(before, ids[..i], incoming, exp)[ids[i] := Entry(MergedMeta(Held(before, ids[i]), incoming[ids[i]]), exp)]
  {
    assert ids[..i + 1][..i] == ids[..i];
  }

  /** One turn of the merge loop keeps the loop's account of the events. */
  lemma MergeLoopEvents(ids: seq<MarketMetaId>, i: nat, before: map<MarketMetaId, Entry>, incoming: map<MarketMetaId, Meta>, exp: int, v0: nat,
                        m: map<MarketMetaId, Entry>, ver: nat, events: seq<Event>, out: seq<Event>)
    requires i < |ids| && Ascending(ids)
    requires forall j :: 0 <= j < |ids| ==> ids[j] in incoming
    requires m == Refreshed(before, ids[..i], incoming, exp)
    requires ver == v0 + |events|
    requires events == MergesOf(ids[..i], before, incoming, v0)
    requires out == MergeOutcome(Held(m, ids[i]), ids[i], incoming[ids[i]], ver + 1)
    ensures events + out == MergesOf(ids[..i + 1], before, incoming, v0)
  {
    MergeStepHeld(ids, i, before, incoming, exp);
    MergesOfPrefix(ids, i, before, incoming, v0, events, out);
  }

  /** One turn of the merge loop keeps the loop's account of the entries. */
  lemma MergeLoopEntries(ids: seq<MarketMetaId>, i: nat, before: map<MarketMetaId, Entry>, incoming: map<MarketMetaId, Meta>, exp: int,
                         m: map<MarketMetaId, Entry>, m': map<MarketMetaId, Entry>)
    requires i < |ids| && Ascending(ids)
    requires forall j :: 0 <= j < |ids| ==> ids[j] in incoming
    requires m == Refreshed(before, ids[..i], incoming, exp)
    requires m' == m[ids[i] := Entry(MergedMeta(Held(m, ids[i]), incoming[ids[i]]), exp)]
    ensures m' == Refreshed(before, ids[..i + 1], incoming, exp)
  {
    MergeStepHeld(ids, i, before, incoming, exp);
    RefreshedPrefix(ids, i, before, incoming, exp);
  }


  /** Merging valid rules into valid entries leaves valid entries. */
  lemma RefreshedValid(before: map<MarketMetaId, Entry>, ids: seq<MarketMetaId>, incoming: map<MarketMetaId, Meta>, exp: int)
    requires forall i :: 0 <= i < |ids| ==> ids[i] in incoming
    requires EntriesValid(before) && ValidRules(incoming)
    ensures EntriesValid(Refreshed(before, ids, incoming, exp))
  {
  }

  /** Merging every incoming id, in any order, gives the held entries overwritten by the arrivals. */
  lemma RefreshedAll(before: map<MarketMetaId, Entry>, ids: seq<MarketMetaId>, incoming: map<MarketMetaId, Meta>, exp: int)
    requires forall k :: k in ids <==> k in incoming
    ensures Refreshed(before, ids, incoming, exp) == before + Arrivals(before, incoming, exp)
  {
  }

  /** The arrivals read the held entries only at the incoming ids. */
  lemma ArrivalsSameHeld(a: map<MarketMetaId, Entry>, b: map<MarketMetaId, Entry>, incoming: map<MarketMetaId, Meta>, exp: int)
    requires forall id :: id in incoming ==> Held(a, id) == Held(b, id)
    ensures Arrivals(a, incoming, exp) == Arrivals(b, incoming, exp)
  {
  }

  /**
   * The body of the merge loop for one incoming id: add it, update it and
   * report the changed fields, or only move its expiry; the version is
   * bumped once per event.
   */
  method MergeEntry(m: map<MarketMetaId, Entry>, ver: nat, id: MarketMetaId, meta: Meta, expiresAt: int)
    returns (m': map<MarketMetaId, Entry>, ver': nat, out: seq<Event>)
    ensures out == MergeOutcome(Held(m, id), id, meta, ver + 1)
    ensures m' == m[id := Entry(MergedMeta(Held(m, id), meta), expiresAt)]
    ensures ver' == ver + |out|
  {
    if id in m {
      var before := m[id].meta;
      var changed := ChangedMetaFields(before, meta);
      if changed != [] {
        m' := m[id := Entry(meta, expiresAt)];
        ver' := ver + 1;
        out := [Updated(id, changed, before, meta, ver')];
      } else {
        m' := m[id := Entry(before, expiresAt)];
        ver' := ver;
        out := [];
      }
    } else {
      m' := m[id := Entry(meta, expiresAt)];
      ver' := ver + 1;
      out := [Added(id, meta, ver')];
    }
  }

  /**
   * The removal loop over the entries before and the store version v0: each
   * key is removed in order with one removal event of the given kind, the
   * version bumped once per key.
   */
  method RemoveAll(before: map<MarketMetaId, Entry>, v0: nat, keys: seq<MarketMetaId>, kind: RemovalKind)
    returns (m: map<MarketMetaId, Entry>, ver: nat, events: seq<Event>)
    requires forall i :: 0 <= i < |keys| ==> keys[i] in before
    requires Distinct(keys)
    ensures m == Without(before, keys)
    ensures ver == v0 + |keys|
    ensures events == RemovalsOf(keys, before, kind, v0)
  {
    m, ver, events := before, v0, [];
    assert keys[..0] == [];
    for i := 0 to |keys|
      invariant m == Without(before, keys[..i])
      invariant ver == v0 + i
      invariant events == RemovalsOf(keys[..i], before, kind, v0)
    {
      RemoveStep(keys, i, before, kind, v0, m, ver, events);
      m, ver, events := m - {keys[i]}, ver + 1, events + [RemovalEvent(kind, keys[i], m[keys[i]].meta, ver + 1)];
    }
    assert keys[..|keys|] == keys;
  }

  /**
   * The merge loop of apply_snapshot over the entries before and the store
   * version v0: the incoming ids are taken in ascending order, each merged
   * by MergeEntry, and the expiry of every written entry is exp.
   */
  method MergeAll(before: map<MarketMetaId, Entry>, v0: nat, incoming: map<MarketMetaId, Meta>, exp: int)
    returns (m: map<MarketMetaId, Entry>, ver: nat, events: seq<Event>, ids: seq<MarketMetaId>)
    requires EntriesValid(before) && ValidRules(incoming)
    ensures EntriesValid(m)
    ensures m == before + Arrivals(before, incoming, exp)
    ensures ver == v0 + |events|
    ensures forall k :: k in ids <==> k in incoming
    ensures Ascending(ids)
    ensures events == MergesOf(ids, before, incoming, v0)
  {
    ids := SortedKeys(incoming.Keys);
    assert forall j :: 0 <= j < |ids| ==> ids[j] in ids;
    m, ver, events := before, v0, [];
    assert ids[..0] == [];
    for i := 0 to |ids|
      invariant m == Refreshed(before, ids[..i], incoming, exp)
      invariant ver == v0 + |events|
      invariant events == MergesOf(ids[..i], before, incoming, v0)
    {
      var id := ids[i];
      var m', ver', out := MergeEntry(m, ver, id, incoming[id], exp);
      MergeLoopEvents(ids, i, before, incoming, exp, v0, m, ver, events, out);
      MergeLoopEntries(ids, i, before, incoming, exp, m, m');
      m, ver, events := m', ver', events + out;
    }
    assert ids[..|ids|] == ids;
    RefreshedValid(before, ids, incoming, exp);
    RefreshedAll(before, ids, incoming, exp);
  }

  /** The entries a snapshot keeps from before: only those it brings when it is full, all when it is partial. */
  function Kept(before: map<MarketMetaId, Entry>, incoming: map<MarketMetaId, Meta>, isFull: bool): (r: map<MarketMetaId, Entry>)
    ensures forall k :: k in r <==> k in before && !(isFull && k !in incoming)
    ensures forall k :: k in r ==> r[k] == before[k]
  {
    if isFull then map k | k in before && k in incoming :: before[k] else before
  }

  /** The ids a snapshot keeps read the same held rules as before. */
  lemma KeptHeld(before: map<MarketMetaId, Entry>, incoming: map<MarketMetaId, Meta>, isFull: bool, kept: map<MarketMetaId, Entry>)
    requires kept == Kept(before, incoming, isFull)
    ensures forall id :: id in incoming ==> Held(kept, id) == Held(before, id)
  {
  }

  /**
   * The events of a snapshot: the removals, then a merge after them that
   * reports what a merge into the entries before would, counting from the
   * version after the removals.
   */
  lemma SnapshotEvents(ids: seq<MarketMetaId>, stale: seq<MarketMetaId>, mid: map<MarketMetaId, Entry>, before: map<MarketMetaId, Entry>,
                       incoming: map<MarketMetaId, Meta>, markets: seq<Meta>, v0: nat, midVer: nat,
                       removed: seq<Event>, merged: seq<Event>)
    requires incoming == Incoming(markets)
    requires forall i :: 0 <= i < |ids| ==> ids[i] in incoming
    requires forall id :: id in incoming ==> Held(mid, id) == Held(before, id)
    requires forall i :: 0 <= i < |stale| ==> stale[i] in before
    requires removed == RemovalsOf(stale, before, SnapshotMissing, v0)
    requires merged == MergesOf(ids, mid, incoming, midVer)
    requires midVer == v0 + |stale|
    ensures removed + merged == RemovalsOf(stale, before, SnapshotMissing, v0)
                                + MergesOf(ids, before, Incoming(markets), v0 + |stale|)
  {
    MergesOfSameHeld(ids, mid, before, incoming, midVer);
  }

  /**
   * The first half of apply_snapshot: a full snapshot removes every held id
   * it does not bring, in the order stale, with a Removed event each; a
   * partial one removes nothing.
   */
  method RemoveStale(before: map<MarketMetaId, Entry>, v0: nat, incoming: map<MarketMetaId, Meta>, isFull: bool)
    returns (m: map<MarketMetaId, Entry>, ver: nat, events: seq<Event>, stale: seq<MarketMetaId>)
    requires EntriesValid(before)
    ensures EntriesValid(m)
    ensures m == Kept(before, incoming, isFull)
    ensures ver == v0 + |stale|
    ensures forall k :: k in stale <==> k in StaleIds(before, incoming, isFull)
    ensures !isFull ==> stale == []
    ensures Distinct(stale)
    ensures forall i :: 0 <= i < |stale| ==> stale[i] in before
    ensures events == RemovalsOf(stale, before, SnapshotMissing, v0)
  {
    m, ver, events, stale := before, v0, [], [];
    if isFull {
      var missing := CollectKeys(set k | k in before && k !in incoming);
      assert forall i :: 0 <= i < |missing| ==> missing[i] in missing;
      m, ver, events := RemoveAll(before, v0, missing, SnapshotMissing);
      stale := missing;
      WithoutSet(before, stale, set k | k in before && k !in incoming);
    }
  }

  /**
   * What apply_snapshot does to the entries before and the store version
   * v0, giving the entries after, the version ver and events: the accepted
   * rules of markets come in; a full snapshot first removes the held ids it
   * does not bring, in the order stale, with a Removed event each; then the
   * incoming rules are merged in the ascending order ids, every written
   * entry expiring at exp.
   */
  ghost predicate SnapshotApplied(before: map<MarketMetaId, Entry>, v0: nat, markets: seq<Meta>, isFull: bool, exp: int,
                                  events: seq<Event>, after: map<MarketMetaId, Entry>, ver: nat,
                                  stale: seq<MarketMetaId>, ids: seq<MarketMetaId>)
  {
    && EntriesValid(after)
    && after == Kept(before, Incoming(markets), isFull) + Arrivals(before, Incoming(markets), exp)
    && ver == v0 + |events|
    && (forall k :: k in stale <==> k in StaleIds(before, Incoming(markets), isFull))
    && (!isFull ==> stale == [])
    && Distinct(stale)
    && (forall i :: 0 <= i < |stale| ==> stale[i] in before)
    && (forall k :: k in ids <==> k in Incoming(markets))
    && Ascending(ids)
    && (forall i :: 0 <= i < |ids| ==> ids[i] in Incoming(markets))
    && events == RemovalsOf(stale, before, SnapshotMissing, v0) + MergesOf(ids, before, Incoming(markets), v0 + |stale|)
  }

  /** apply_snapshot over the entries before and the store version v0, every written entry expiring at exp. */
  method Snapshot(before: map<MarketMetaId, Entry>, v0: nat, markets: seq<Meta>, isFull: bool, exp: int)
    returns (events: seq<Event>, m: map<MarketMetaId, Entry>, ver: nat, stale: seq<MarketMetaId>, ids: seq<MarketMetaId>)
    requires EntriesValid(before)
    ensures SnapshotApplied(before, v0, markets, isFull, exp, events, m, ver, stale, ids)
  {
    var incoming := CollectIncoming(markets);
    var mid, midVer, removed;
    mid, midVer, removed, stale := RemoveStale(before, v0, incoming, isFull);
    var merged, keys;
    m, ver, merged, keys := MergeAll(mid, midVer, incoming, exp);
    ids := keys;
    assert forall i :: 0 <= i < |ids| ==> ids[i] in ids;
    KeptHeld(before, incoming, isFull, mid);
    ArrivalsSameHeld(mid, before, incoming, exp);
    SnapshotEvents(ids, stale, mid, before, incoming, markets, v0, midVer, removed, merged);
    events := removed + merged;
  }

  // ---------------------------------------------------------------------
  // The store
  // ---------------------------------------------------------------------

  class Store {
    /** The DashMap of entries. */
    var entries: map<MarketMetaId, Entry>
    /** The AtomicU64 store version. */
    var version: nat
    const ttl: nat

    /** Every entry holds valid rules under their own id: only snapshots fill the map. */
    ghost predicate Valid()
      reads this
    {
      EntriesValid(entries)
    }

    /** MarketMetaStore::new: empty, at version 0. */
    constructor(ttl: nat)
      ensures entries == map[] && version == 0 && this.ttl == ttl
      ensures Valid()
    {
      entries := map[];
      version := 0;
      this.ttl := ttl;
    }

    /** bump_version: one more than before, returned. */
    method BumpVersion() returns (v: nat)
      modifies this
      ensures version == old(version) + 1 && v == version
      ensures entries == old(entries)
    {
      version := version + 1;
      v := version;
    }

    /**
     * get: the rules under id while they have not expired at now; an expired
     * entry is dropped and hidden.  Dropping emits no event and leaves the
     * version alone.
     */
    method Get(id: MarketMetaId, now: int) returns (r: Option<Meta>)
      modifies this
      ensures id in old(entries) && old(entries)[id].expiresAt > now ==>
        r == Some(old(entries)[id].meta) && entries == old(entries)
      ensures id in old(entries) && old(entries)[id].expiresAt <= now ==>
        r.None? && entries == old(entries) - {id}
      ensures id !in old(entries) ==> r.None? && entries == old(entries)
      ensures version == old(version)
    {
      if id in entries {
        var entry := entries[id];
        if entry.expiresAt <= now {
          entries := entries - {id};
          return None;
        }
        return Some(entry.meta);
      }
      return None;
    }

    /** get_by_parts: get under the id built from its parts. */
    method GetByParts(exchange: Exchange, marketType: MarketType, rawSymbol: string, now: int) returns (r: Option<Meta>)
      modifies this
      ensures var id := MarketMetaId(exchange, marketType, rawSymbol);
        && (id in old(entries) && old(entries)[id].expiresAt > now ==> r == Some(old(entries)[id].meta) && entries == old(entries))
        && (id in old(entries) && old(entries)[id].expiresAt <= now ==> r.None? && entries == old(entries) - {id})
        && (id !in old(entries) ==> r.None? && entries == old(entries))
      ensures version == old(version)
    {
      r := Get(MarketMetaId(exchange, marketType, rawSymbol), now);
    }

    /**
     * snapshot: the store version and the rules of every entry, expired or
     * not, in the order keys, which the concurrent map leaves open; the
     * receive time is not modelled.
     */
    method Registry() returns (storeVersion: nat, markets: seq<Meta>, ghost keys: seq<MarketMetaId>)
      ensures storeVersion == version
      ensures forall k :: k in keys <==> k in entries
      ensures Distinct(keys) && |markets| == |keys|
      ensures forall i :: 0 <= i < |keys| ==> keys[i] in entries && markets[i] == entries[keys[i]].meta
    {
      var m := entries;
      var ks := CollectKeys(m.Keys);
      assert forall i :: 0 <= i < |ks| ==> ks[i] in ks;
      markets := seq(|ks|, i requires 0 <= i < |ks| => m[ks[i]].meta);
      storeVersion, keys := version, ks;
    }

    /** Each key is removed in order with one removal event of the given kind, bumping the version once per key. */
    method RemoveEach(keys: seq<MarketMetaId>, kind: RemovalKind) returns (events: seq<Event>)
      requires forall i :: 0 <= i < |keys| ==> keys[i] in entries
      requires Distinct(keys)
      modifies this
      ensures entries == Without(old(entries), keys)
      ensures version == old(version) + |keys|
      ensures events == RemovalsOf(keys, old(entries), kind, old(version))
    {
      entries, version, events := RemoveAll(entries, version, keys, kind);
    }

    /**
     * gc_expired: every entry whose expiry is not after now is dropped, in
     * the order keys, which the concurrent map leaves open, with an Expired
     * event; the rest are kept.
     */
    method GcExpired(now: int) returns (events: seq<Event>, ghost keys: seq<MarketMetaId>)
      modifies this
      ensures entries == map k | k in old(entries) && old(entries)[k].expiresAt > now :: old(entries)[k]
      ensures version == old(version) + |events|
      ensures forall k :: k in keys <==> k in old(entries) && old(entries)[k].expiresAt <= now
      ensures Distinct(keys)
      ensures events == RemovalsOf(keys, old(entries), TtlExpired, old(version))
    {
      var expired := CollectKeys(set k | k in entries && entries[k].expiresAt <= now);
      assert forall i :: 0 <= i < |expired| ==> expired[i] in expired;
      events := RemoveEach(expired, TtlExpired);
      keys := expired;
      WithoutSet(old(entries), keys, set k | k in old(entries) && old(entries)[k].expiresAt <= now);
    }

    /**
     * apply_snapshot: only the rules validate_meta accepts come in; a full
     * snapshot first removes every held id it does not bring, in the order
     * stale, which the concurrent map leaves open; then the incoming rules
     * are merged in ascending id order ids.
     */
    method ApplySnapshot(markets: seq<Meta>, isFull: bool, now: int) returns (events: seq<Event>, ghost stale: seq<MarketMetaId>, ghost ids: seq<MarketMetaId>)
      requires Valid()
      modifies this
      ensures Valid()
      ensures SnapshotApplied(old(entries), old(version), markets, isFull, now + ttl, events, entries, version, stale, ids)
    {
      var e, m, v, st, ks := Snapshot(entries, version, markets, isFull, now + ttl);
      entries, version, events, stale, ids := m, v, e, st, ks;
    }

    /** apply_snapshot_full. */
    method ApplySnapshotFull(markets: seq<Meta>, now: int) returns (events: seq<Event>, ghost stale: seq<MarketMetaId>, ghost ids: seq<MarketMetaId>)
      requires Valid()
      modifies this
      ensures Valid()
      ensures entries == (map k | k in old(entries) && k in Incoming(markets) :: old(entries)[k])
        + Arrivals(old(entries), Incoming(markets), now + ttl)
      ensures version == old(version) + |events|
      ensures forall k :: k in stale <==> k in old(entries) && k !in Incoming(markets)
      ensures Distinct(stale)
      ensures forall k :: k in ids <==> k in Incoming(markets)
      ensures Ascending(ids)
      ensures events == RemovalsOf(stale, old(entries), SnapshotMissing, old(version))
                        + MergesOf(ids, old(entries), Incoming(markets), old(version) + |stale|)
    {
      events, stale, ids := ApplySnapshot(markets, true, now);
    }

    /** apply_snapshot_partial: nothing is removed. */
    method ApplySnapshotPartial(markets: seq<Meta>, now: int) returns (events: seq<Event>, ghost ids: seq<MarketMetaId>)
      requires Valid()
      modifies this
      ensures Valid()
      ensures entries == old(entries) + Arrivals(old(entries), Incoming(markets), now + ttl)
      ensures version == old(version) + |events|
      ensures forall k :: k in ids <==> k in Incoming(markets)
      ensures Ascending(ids)
      ensures events == MergesOf(ids, old(entries), Incoming(markets), old(version))
    {
      ghost var stale;
      events, stale, ids := ApplySnapshot(markets, false, now);
    }
  }
}
