/**
 * apps/desktop/src/tools/pattern_tool.cpp: a linear pattern of the
 * selection.  Keys go to the number entry; Enter asks the kernel for a
 * linear pattern of the selected ids, 10 units apart along x, with the
 * typed count (3 when none is typed), converted to an integer by `int(...)`.
 */
module PatternTools {
  import opened Wrappers
  import opened Model
  import opened Rounding
  import opened Desk
  import opened DocStores

  const DEFAULT_COUNT: real := 3.0
  const PATTERN_DX: real := 10.0
  const PATTERN_DY: real := 0.0

  /** `int(value_or(3))`: the typed count truncated toward zero. */
  function PatternCount(n: Option<real>): (r: int)
    ensures n.None? ==> r == 3
    ensures n.Some? && n.value >= 0.0 ==> r as real <= n.value < r as real + 1.0
    ensures n.Some? && n.value < 0.0 ==> r as real - 1.0 < n.value <= r as real
  {
    Trunc(ValueOr(n, DEFAULT_COUNT))
  }

  function PatternCall(doc: DeskDoc, ids: seq<string>, n: Option<real>): Call
  {
    ApplyPattern(doc, ids, PATTERN_DX, PATTERN_DY, PatternCount(n))
  }

  class PatternTool {
    const store: DocStore
    const numeric: NumericInput

    constructor (store: DocStore, parse: seq<KeyEvent> -> Option<real>)
      ensures this.store == store && fresh(numeric) && numeric.parse == parse && numeric.keys == []
    {
      this.store := store;
      numeric := new NumericInput(parse);
    }

    /** `onKeyPress`: the key goes to the number entry first; Enter then makes the pattern, warns when the kernel refuses it, and clears the number. */
    method OnKeyPress(e: KeyEvent, reply: DocReply) returns (warn: Option<Warning>)
      requires store.Valid()
      modifies store, numeric
      ensures store.Valid()
      ensures !IsEnter(e) ==> store.View() == old(store.View()) && warn.None? && numeric.keys == old(numeric.keys) + [e]
      ensures IsEnter(e) ==>
        && store.View() == Replied(old(store.View()), PatternCall(old(store.document), old(store.selection), numeric.parse(old(numeric.keys) + [e])), reply)
        && warn == FailureWarning("Pattern", reply)
        && numeric.keys == []
    {
      numeric.HandleKey(e);
      warn := None;
      if IsEnter(e) {
        store.Commit(PatternCall(store.document, store.selection, numeric.Value()), reply);
        warn := FailureWarning("Pattern", reply);
        numeric.Clear();
      }
    }
  }
}
