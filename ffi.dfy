/**
 * core/ffi_desktop/src/lib.rs: the table of history handles behind the C
 * interface, the shared wrapper that runs one history operation on a
 * document, and the mapping of the trim candidate index.  JSON and C-string
 * marshalling are not modelled; the document arrives already parsed.
 */
module Ffi {
  import opened Wrappers
  import opened Serialize
  import opened Model
  import opened Deltas
  import opened CommandHistory

  /** `AtomicU64::fetch_add(1)` wraps around at 2^64. */
  const U64_LIMIT: nat := 0x1_0000_0000_0000_0000

  function NextHandle(id: nat): (r: nat)
    requires id < U64_LIMIT
    ensures r < U64_LIMIT
    ensures id + 1 < U64_LIMIT ==> r == id + 1
    ensures id + 1 == U64_LIMIT ==> r == 0
  {
    (id + 1) % U64_LIMIT
  }

  /** The process-wide map from handle to history, and the next handle to issue. */
  class HistoryTable {
    var table: map<nat, History>
    var nextId: nat

    /** Handles below 2^64, each mapping to its own history. */
    ghost predicate Valid()
      reads this
    {
      nextId < U64_LIMIT
      && forall a, b :: a in table && b in table && a != b ==> table[a] != table[b]
    }

    /** The table starts empty with handle 1 next. */
    constructor ()
      ensures Valid() && table == map[] && nextId == 1
    {
      table := map[];
      nextId := 1;
    }

    /** history_new: the next handle is issued and maps to a fresh, empty history. */
    method New() returns (handle: nat)
      requires Valid()
      modifies this
      ensures Valid()
      ensures handle == old(nextId) && nextId == NextHandle(old(nextId))
      ensures handle in table && fresh(table[handle]) && table[handle].State() == Stacks([], [], None)
      ensures table == old(table)[handle := table[handle]]
    {
      handle := nextId;
      nextId := NextHandle(nextId);
      var h := new History();
      table := table[handle := h];
    }

    /** history_free: the handle is forgotten; an unknown handle is ignored. */
    method Free(handle: nat)
      requires Valid()
      modifies this
      ensures Valid()
      ensures table == old(table) - {handle} && nextId == old(nextId)
    {
      table := table - {handle};
    }

    /** history_undo through with_history_doc: an unknown handle is refused. */
    method Undo(handle: nat, doc: Document) returns (r: Result<Document, ReasonCode>)
      requires Valid()
      modifies if handle in table then {table[handle]} else {}
      ensures handle !in table ==> r == Err(CoreInvariantViolation)
      ensures handle in table ==> (table[handle].State(), r) == UndoState(old(table[handle].State()), doc, RevertOf())
    {
      if handle !in table {
        return Err(CoreInvariantViolation);
      }
      r := table[handle].Undo(doc);
    }

    /** history_redo through with_history_doc. */
    method Redo(k: Kernel, handle: nat, doc: Document) returns (r: Result<Document, ReasonCode>)
      requires Valid()
      modifies if handle in table then {table[handle]} else {}
      ensures handle !in table ==> r == Err(CoreInvariantViolation)
      ensures handle in table ==> (table[handle].State(), r) == RedoState(old(table[handle].State()), doc, ApplyOf(k))
    {
      if handle !in table {
        return Err(CoreInvariantViolation);
      }
      r := table[handle].Redo(k, doc);
    }

    /**
     * The shape of every `history_apply_*` entry point: with a known handle,
     * the command's committed delta (or its error) is applied to the document
     * and, only if that succeeds, pushed as applied.
     */
    method ApplyAndPush(k: Kernel, handle: nat, doc: Document, committed: Result<Delta, ReasonCode>)
      returns (r: Result<Document, ReasonCode>)
      requires Valid()
      modifies if handle in table then {table[handle]} else {}
      ensures handle !in table ==> r == Err(CoreInvariantViolation)
      ensures handle in table && committed.Err? ==> r == Err(committed.error) && unchanged(table[handle])
      ensures handle in table && committed.Ok? ==>
        var out := Apply(k, doc, committed.value);
        (out.Err? ==> r == Err(out.error) && unchanged(table[handle]))
        && (out.Ok? ==> r == Ok(out.value.0) && table[handle].State() == PushState(old(table[handle].State()), out.value.1))
    {
      if handle !in table {
        return Err(CoreInvariantViolation);
      }
      if committed.Err? {
        return Err(committed.error);
      }
      var out := Apply(k, doc, committed.value);
      if out.Err? {
        return Err(out.error);
      }
      table[handle].Push(out.value.1);
      r := Ok(out.value.0);
    }

    /** history_begin_group: an unknown handle is refused. */
    method BeginGroup(handle: nat, name: string) returns (r: Result<(), ReasonCode>)
      requires Valid()
      modifies if handle in table then {table[handle]} else {}
      ensures handle !in table ==> r == Err(CoreInvariantViolation)
      ensures handle in table ==> r == Ok(()) && table[handle].State() == BeginGroupState(old(table[handle].State()), name)
    {
      if handle !in table {
        return Err(CoreInvariantViolation);
      }
      table[handle].BeginGroup(name);
      r := Ok(());
    }

    /** history_end_group: an unknown handle is refused. */
    method EndGroup(handle: nat) returns (r: Result<(), ReasonCode>)
      requires Valid()
      modifies if handle in table then {table[handle]} else {}
      ensures handle !in table ==> r == Err(CoreInvariantViolation)
      ensures handle in table ==> r == Ok(()) && table[handle].State() == EndGroupState(old(table[handle].State()))
    {
      if handle !in table {
        return Err(CoreInvariantViolation);
      }
      table[handle].EndGroup();
      r := Ok(());
    }
  }

  /**
   * The handles issued by n calls of history_new from `start`: before the
   * counter wraps they are strictly increasing, hence distinct.
   */
  function Issued(start: nat, n: nat): (r: seq<nat>)
    requires start < U64_LIMIT
    ensures |r| == n
    decreases n
  {
    if n == 0 then [] else [start] + Issued(NextHandle(start), n - 1)
  }

  lemma {:induction false} IssuedIncreasing(start: nat, n: nat)
    requires start < U64_LIMIT && start + n <= U64_LIMIT
    ensures forall i :: 0 <= i < n ==> Issued(start, n)[i] == start + i
    ensures forall i, j :: 0 <= i < j < n ==> Issued(start, n)[i] < Issued(start, n)[j]
    decreases n
  {
    if n > 0 {
      var rest := Issued(NextHandle(start), n - 1);
      if n > 1 {
        IssuedIncreasing(start + 1, n - 1);
      }
      assert forall i :: 1 <= i < n ==> Issued(start, n)[i] == rest[i - 1];
    }
  }

  /** After 2^64 - 1 calls from the first handle the counter wraps to 0: distinctness ends there. */
  lemma IssuedWraps()
    ensures NextHandle(U64_LIMIT - 1) == 0
  {
  }

  /** The trim entry point's candidate index: negative means "no choice", otherwise the index itself. */
  function CandidateIndex(i: int): (r: Option<nat>)
    ensures r.None? <==> i < 0
    ensures r.Some? ==> r.value == i
  {
    if i < 0 then None else Some(i)
  }
}
