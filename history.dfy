/**
 * core/commands/src/history.rs: applying and reverting any delta, delta
 * groups, and the undo/redo history with its group bracket.
 *
 * Deltas are values here: `Apply` returns the document and the delta with its
 * cache filled, and that filled delta is what the caller pushes.
 */
module CommandHistory {
  import opened Wrappers
  import opened Serialize
  import opened Model
  import opened Deltas
  import CreateLine
  import CreatePart
  import TransformSelection
  import OffsetEntity
  import AdvancedEdit
  import NestingCommands

  // ----- apply and revert -----

  /** `Delta::apply` for every kind of delta; a group applies its members in order. */
  function Apply(k: Kernel, doc: Document, d: Delta): Result<(Document, Delta), ReasonCode>
    decreases d
  {
    match d
    case CreateEntity(e) =>
      var d1 :- CreateLine.ApplyCreateEntity(doc, e);
      Ok((d1, d))
    case CreatePart(p) => Ok((CreatePart.AppendPart(doc, p), d))
    case UpdatePart(_, after) =>
      var d1 :- CreatePart.ReplacePart(doc, after);
      Ok((d1, d))
    case DeletePart(p) =>
      var d1 :- CreatePart.RemovePart(doc, p.id);
      Ok((d1, d))
    case TransformSelection(ids, t, cached) =>
      var out :- TransformSelection.ApplyTransform(k.math, doc, ids, t, cached);
      Ok((out.0, d.(cached := Some(out.1))))
    case OffsetEntity(id, dist, newId, cached) =>
      var out :- OffsetEntity.ApplyOffset(k.offset, doc, id, dist, newId, cached);
      Ok((out.0, d.(cachedEntity := Some(out.1))))
    case Entities(op, before, after) =>
      var out :- AdvancedEdit.ApplyEntities(k, doc, op, before, after);
      Ok((out.0, Entities(op, Some(out.1), Some(out.2))))
    case RunNesting(jobId, _, _, afterResult, afterTrace) =>
      var d1 :- NestingCommands.SetJobOutput(doc, jobId, afterResult, afterTrace);
      Ok((d1, d))
    case EditPlacement(jobId, partId, sheetIndex, newPose, _) =>
      var d1 :- NestingCommands.ApplyEditPlacement(doc, jobId, partId, sheetIndex, newPose);
      Ok((d1, d))
    case Group(ds) =>
      var out :- ApplyAll(k, doc, ds);
      Ok((out.0, Group(out.1)))
  }

  /** The members of a group applied in order; the first failure ends it. */
  function ApplyAll(k: Kernel, doc: Document, ds: seq<Delta>): (r: Result<(Document, seq<Delta>), ReasonCode>)
    ensures r.Ok? ==> |r.value.1| == |ds|
    decreases ds
  {
    if ds == [] then Ok((doc, []))
    else
      var first :- Apply(k, doc, ds[0]);
      var rest :- ApplyAll(k, first.0, ds[1..]);
      Ok((rest.0, [first.1] + rest.1))
  }

  /** `Delta::revert` for every kind of delta; a group reverts its members last first. */
  function Revert(doc: Document, d: Delta): Result<Document, ReasonCode>
    decreases d
  {
    match d
    case CreateEntity(e) => CreateLine.RevertCreateEntity(doc, e.id)
    case CreatePart(p) => CreatePart.RemovePart(doc, p.id)
    case UpdatePart(before, _) => CreatePart.ReplacePart(doc, before)
    case DeletePart(p) => Ok(CreatePart.AppendPart(doc, p))
    case TransformSelection(_, _, cached) => TransformSelection.RevertTransform(doc, cached)
    case OffsetEntity(_, _, newId, _) => OffsetEntity.RevertOffset(doc, newId)
    case Entities(_, before, _) => AdvancedEdit.RevertEntities(doc, before)
    case RunNesting(jobId, beforeResult, beforeTrace, _, _) =>
      NestingCommands.SetJobOutput(doc, jobId, beforeResult, beforeTrace)
    case EditPlacement(jobId, partId, sheetIndex, _, oldPose) =>
      NestingCommands.RevertEditPlacement(doc, jobId, partId, sheetIndex, oldPose)
    case Group(ds) => RevertAll(doc, ds)
  }

  function RevertAll(doc: Document, ds: seq<Delta>): Result<Document, ReasonCode>
    decreases ds
  {
    if ds == [] then Ok(doc)
    else
      var d1 :- Revert(doc, ds[|ds| - 1]);
      RevertAll(d1, ds[..|ds| - 1])
  }

  /** Reverting `[c] + cs` reverts `cs` (last first) and then `c`. */
  lemma {:induction false} RevertAllCons(doc: Document, c: Delta, cs: seq<Delta>)
    ensures RevertAll(doc, [c] + cs) ==
      if RevertAll(doc, cs).Err? then Err(RevertAll(doc, cs).error) else Revert(RevertAll(doc, cs).value, c)
    decreases |cs|
  {
    var t := [c] + cs;
    if cs == [] {
      assert t[..|t| - 1] == [];
    } else {
      assert t[|t| - 1] == cs[|cs| - 1];
      assert t[..|t| - 1] == [c] + cs[..|cs| - 1];
      var r := Revert(doc, cs[|cs| - 1]);
      if r.Ok? {
        RevertAllCons(r.value, c, cs[..|cs| - 1]);
      }
    }
  }

  /** The group's apply loop: run each member in order. */
  method ApplyGroup(k: Kernel, doc: Document, ds: seq<Delta>) returns (r: Result<(Document, seq<Delta>), ReasonCode>)
    ensures r == ApplyAll(k, doc, ds)
  {
    var cur := doc;
    var done: seq<Delta> := [];
    var i := 0;
    assert ds[0..] == ds;
    PrefixedEmpty(ApplyAll(k, doc, ds));
    while i < |ds|
      invariant 0 <= i <= |ds|
      invariant ApplyAll(k, doc, ds) == Prefixed(done, ApplyAll(k, cur, ds[i..]))
    {
      assert ds[i..][0] == ds[i] && ds[i..][1..] == ds[i + 1..];
      var out := Apply(k, cur, ds[i]);
      if out.Err? {
        return Err(out.error);
      }
      PrefixedStep(done, out.value.1, ApplyAll(k, out.value.0, ds[i + 1..]));
      cur := out.value.0;
      done := done + [out.value.1];
      i := i + 1;
    }
    assert ds[i..] == [];
    assert done + [] == done;
    r := Ok((cur, done));
  }

  /** The members already applied in front of the outcome of the rest. */
  function Prefixed(done: seq<Delta>, rest: Result<(Document, seq<Delta>), ReasonCode>): Result<(Document, seq<Delta>), ReasonCode>
  {
    if rest.Err? then rest else Ok((rest.value.0, done + rest.value.1))
  }

  lemma PrefixedEmpty(rest: Result<(Document, seq<Delta>), ReasonCode>)
    ensures Prefixed([], rest) == rest
  {
    if rest.Ok? {
      assert [] + rest.value.1 == rest.value.1;
    }
  }

  lemma PrefixedStep(done: seq<Delta>, c: Delta, rest: Result<(Document, seq<Delta>), ReasonCode>)
    ensures Prefixed(done, if rest.Err? then Err(rest.error) else Ok((rest.value.0, [c] + rest.value.1)))
            == Prefixed(done + [c], rest)
  {
    if rest.Ok? {
      assert done + ([c] + rest.value.1) == (done + [c]) + rest.value.1;
    }
  }

  /** The group's revert loop: `iter().rev()` over the members. */
  method RevertGroup(doc: Document, ds: seq<Delta>) returns (r: Result<Document, ReasonCode>)
    ensures r == RevertAll(doc, ds)
  {
    var cur := doc;
    var i := |ds|;
    assert ds[..|ds|] == ds;
    while i > 0
      invariant 0 <= i <= |ds|
      invariant RevertAll(cur, ds[..i]) == RevertAll(doc, ds)
    {
      assert ds[..i][i - 1] == ds[i - 1] && ds[..i][..i - 1] == ds[..i - 1];
      var out := Revert(cur, ds[i - 1]);
      if out.Err? {
        return Err(out.error);
      }
      cur := out.value;
      i := i - 1;
    }
    r := Ok(cur);
  }

  // ----- round trips -----

  /**
   * Undo right after an apply restores the exact prior document, and redo
   * with the delta as the apply left it gives the same document and delta.
   */
  predicate RoundTrips(k: Kernel, doc: Document, d: Delta)
  {
    Apply(k, doc, d).Ok?
    && var out := Apply(k, doc, d).value;
    Revert(out.0, out.1) == Ok(doc) && Apply(k, doc, out.1) == Ok(out)
  }

  /** Each member round-trips on the document the members before it produced. */
  predicate StepsRoundTrip(k: Kernel, doc: Document, ds: seq<Delta>)
    decreases |ds|
  {
    ds == [] || (RoundTrips(k, doc, ds[0]) && StepsRoundTrip(k, Apply(k, doc, ds[0]).value.0, ds[1..]))
  }

  /** A group whose members round-trip one by one round-trips as a whole. */
  lemma {:induction false} ApplyAllRoundTrip(k: Kernel, doc: Document, ds: seq<Delta>)
    requires StepsRoundTrip(k, doc, ds)
    ensures ApplyAll(k, doc, ds).Ok?
    ensures var out := ApplyAll(k, doc, ds).value;
      RevertAll(out.0, out.1) == Ok(doc) && ApplyAll(k, doc, out.1) == Ok(out)
    decreases |ds|
  {
    if ds != [] {
      var first := Apply(k, doc, ds[0]).value;
      ApplyAllRoundTrip(k, first.0, ds[1..]);
      var rest := ApplyAll(k, first.0, ds[1..]).value;
      var cs := [first.1] + rest.1;
      assert ApplyAll(k, doc, ds) == Ok((rest.0, cs));
      RevertAllCons(rest.0, first.1, rest.1);
      assert cs[0] == first.1 && cs[1..] == rest.1;
    }
  }

  lemma {:induction false} GroupRoundTrip(k: Kernel, doc: Document, ds: seq<Delta>)
    requires StepsRoundTrip(k, doc, ds)
    ensures RoundTrips(k, doc, Group(ds))
  {
    ApplyAllRoundTrip(k, doc, ds);
  }

  /**
   * The condition under which each kind of delta, as its command makes it,
   * undoes exactly: the ids it creates are new, the values it restores are the
   * document's own, its cache is still empty, and a deleted part is the last
   * one.
   */
  predicate Undoable(k: Kernel, doc: Document, d: Delta)
    decreases d
  {
    match d
    case CreateEntity(e) => HasLayer(doc, e.layerId) && !HasEntity(doc.entities, e.id)
    case CreatePart(p) => !HasPart(doc.parts, p.id)
    case UpdatePart(before, after) =>
      before.id == after.id && PartIndex(doc.parts, before.id).Some?
      && doc.parts[PartIndex(doc.parts, before.id).value] == before
    case DeletePart(p) =>
      doc.parts != [] && doc.parts[|doc.parts| - 1] == p && !HasPart(doc.parts[..|doc.parts| - 1], p.id)
    case TransformSelection(_, _, cached) => cached.None?
    case OffsetEntity(_, _, newId, cached) => cached.None? && !HasEntity(doc.entities, newId)
    case Entities(_, before, after) => before.None? && after.None?
    case RunNesting(jobId, beforeResult, beforeTrace, _, _) =>
      JobIndex(doc.jobs, jobId).Some?
      && doc.jobs[JobIndex(doc.jobs, jobId).value].result == beforeResult
      && doc.jobs[JobIndex(doc.jobs, jobId).value].trace == beforeTrace
    case EditPlacement(jobId, partId, sheetIndex, _, oldPose) =>
      oldPose.Some? && JobIndex(doc.jobs, jobId).Some?
      && var job := doc.jobs[JobIndex(doc.jobs, jobId).value];
      job.result.Some?
      && var ps := job.result.value.placements;
      NestingCommands.PlacementIndex(ps, partId, sheetIndex).Some?
      && var plc := ps[NestingCommands.PlacementIndex(ps, partId, sheetIndex).value];
      NestingCommands.PoseOf(plc) == oldPose.value && NestingCommands.Anchored(plc)
    case Group(ds) => StepsUndoable(k, doc, ds)
  }

  predicate StepsUndoable(k: Kernel, doc: Document, ds: seq<Delta>)
    decreases ds
  {
    ds == [] ||
    (Undoable(k, doc, ds[0]) && Apply(k, doc, ds[0]).Ok? && StepsUndoable(k, Apply(k, doc, ds[0]).value.0, ds[1..]))
  }

  /** Every delta that applies under its condition round-trips. */
  lemma {:induction false} UndoableRoundTrips(k: Kernel, doc: Document, d: Delta)
    requires Undoable(k, doc, d) && Apply(k, doc, d).Ok?
    ensures RoundTrips(k, doc, d)
    decreases d, 1
  {
    match d
    case Group(ds) =>
      StepsUndoableRoundTrip(k, doc, ds);
      GroupRoundTrip(k, doc, ds);
    case _ =>
      if d.CreateEntity? || d.CreatePart? || d.UpdatePart? || d.DeletePart? || d.TransformSelection? {
        DocumentEditRoundTrips(k, doc, d);
      } else {
        EntityJobEditRoundTrips(k, doc, d);
      }
  }

  /** The entity and part commands and the transform round-trip under their conditions. */
  lemma {:induction false} DocumentEditRoundTrips(k: Kernel, doc: Document, d: Delta)
    requires d.CreateEntity? || d.CreatePart? || d.UpdatePart? || d.DeletePart? || d.TransformSelection?
    requires Undoable(k, doc, d) && Apply(k, doc, d).Ok?
    ensures RoundTrips(k, doc, d)
  {
    match d
    case CreateEntity(e) => CreateLine.CreateEntityRoundTrip(doc, e);
    case CreatePart(p) => CreatePart.CreatePartRoundTrip(doc, p);
    case UpdatePart(before, after) => CreatePart.UpdatePartRoundTrip(doc, before, after);
    case DeletePart(p) => CreatePart.DeletePartRoundTrip(doc, doc.parts[..|doc.parts| - 1], p);
    case TransformSelection(ids, t, _) => TransformSelection.TransformRoundTrip(k.math, doc, ids, t);
  }

  /** The offset, the advanced edits and the nesting commands round-trip under their conditions. */
  lemma {:induction false} EntityJobEditRoundTrips(k: Kernel, doc: Document, d: Delta)
    requires d.OffsetEntity? || d.Entities? || d.RunNesting? || d.EditPlacement?
    requires Undoable(k, doc, d) && Apply(k, doc, d).Ok?
    ensures RoundTrips(k, doc, d)
  {
    match d
    case OffsetEntity(id, dist, newId, _) => OffsetEntity.OffsetRoundTrip(k.offset, doc, id, dist, newId);
    case Entities(op, _, _) => AdvancedEdit.EntitiesRoundTrip(k, doc, op);
    case RunNesting(jobId, _, _, afterResult, afterTrace) =>
      NestingCommands.RunNestingRoundTrip(doc, jobId, afterResult, afterTrace);
    case EditPlacement(jobId, partId, sheetIndex, newPose, oldPose) =>
      NestingCommands.EditPlacementRoundTrip(doc, jobId, partId, sheetIndex, oldPose.value, newPose);
  }

  lemma {:induction false} StepsUndoableRoundTrip(k: Kernel, doc: Document, ds: seq<Delta>)
    requires StepsUndoable(k, doc, ds)
    ensures StepsRoundTrip(k, doc, ds)
    decreases ds, 0
  {
    if ds != [] {
      UndoableRoundTrips(k, doc, ds[0]);
      StepsUndoableRoundTrip(k, Apply(k, doc, ds[0]).value.0, ds[1..]);
    }
  }

  // ----- the history -----

  /** DeltaGroup: the deltas pushed while the group is open, under its name. */
  datatype OpenGroup = OpenGroup(name: string, deltas: seq<Delta>)

  /** The history's three parts; the last element of a stack is its top. */
  datatype Stacks = Stacks(undo: seq<Delta>, redo: seq<Delta>, active: Option<OpenGroup>)

  /** push: into the open group if there is one, else onto undo; redo is cleared either way. */
  function PushState(s: Stacks, d: Delta): (r: Stacks)
    ensures r.redo == []
    ensures s.active.Some? ==> r.undo == s.undo && r.active == Some(s.active.value.(deltas := s.active.value.deltas + [d]))
    ensures s.active.None? ==> r.undo == s.undo + [d] && r.active == None
  {
    if s.active.Some? then Stacks(s.undo, [], Some(s.active.value.(deltas := s.active.value.deltas + [d])))
    else Stacks(s.undo + [d], [], None)
  }

  /** A delta's revert and apply, as the history calls them through the `Delta` trait. */
  type Reverter = (Document, Delta) -> Result<Document, ReasonCode>
  type Applier = (Document, Delta) -> Result<(Document, Delta), ReasonCode>

  function RevertOf(): Reverter
  {
    (doc: Document, d: Delta) => Revert(doc, d)
  }

  function ApplyOf(k: Kernel): Applier
  {
    (doc: Document, d: Delta) => Apply(k, doc, d)
  }

  /**
   * undo: nothing to do on an empty stack; else the top is popped and
   * reverted, and moves to redo only if the revert succeeds — a delta whose
   * revert fails is on neither stack afterwards.
   */
  function UndoState(s: Stacks, doc: Document, revert: Reverter): (r: (Stacks, Result<Document, ReasonCode>))
    ensures s.undo == [] ==> r == (s, Ok(doc))
    ensures s.undo != [] ==>
      var d := s.undo[|s.undo| - 1];
      r.1 == revert(doc, d) && r.0.undo == s.undo[..|s.undo| - 1] && r.0.active == s.active
      && r.0.redo == (if r.1.Ok? then s.redo + [d] else s.redo)
  {
    if s.undo == [] then (s, Ok(doc))
    else
      var d := s.undo[|s.undo| - 1];
      var undo := s.undo[..|s.undo| - 1];
      match revert(doc, d)
      case Err(e) => (s.(undo := undo), Err(e))
      case Ok(d1) => (s.(undo := undo, redo := s.redo + [d]), Ok(d1))
  }

  /** redo: the mirror of undo, applying the top of redo and pushing the delta as applied onto undo. */
  function RedoState(s: Stacks, doc: Document, apply: Applier): (r: (Stacks, Result<Document, ReasonCode>))
    ensures s.redo == [] ==> r == (s, Ok(doc))
    ensures s.redo != [] ==>
      var d := s.redo[|s.redo| - 1];
      var out := apply(doc, d);
      r.0.redo == s.redo[..|s.redo| - 1] && r.0.active == s.active
      && (out.Err? ==> r.1 == Err(out.error) && r.0.undo == s.undo)
      && (out.Ok? ==> r.1 == Ok(out.value.0) && r.0.undo == s.undo + [out.value.1])
  {
    if s.redo == [] then (s, Ok(doc))
    else
      var d := s.redo[|s.redo| - 1];
      var redo := s.redo[..|s.redo| - 1];
      match apply(doc, d)
      case Err(e) => (s.(redo := redo), Err(e))
      case Ok(out) => (s.(undo := s.undo + [out.1], redo := redo), Ok(out.0))
  }

  /** begin_group opens a group only when none is open. */
  function BeginGroupState(s: Stacks, name: string): (r: Stacks)
    ensures s.active.Some? ==> r == s
    ensures s.active.None? ==> r == s.(active := Some(OpenGroup(name, [])))
  {
    if s.active.None? then s.(active := Some(OpenGroup(name, []))) else s
  }

  /**
   * end_group closes the open group: a non-empty one becomes a single undo
   * entry and clears redo; an empty one is dropped.
   */
  function EndGroupState(s: Stacks): (r: Stacks)
    ensures r.active == None
    ensures s.active.None? ==> r == s
    ensures s.active.Some? && s.active.value.deltas == [] ==> r == s.(active := None)
    ensures s.active.Some? && s.active.value.deltas != [] ==>
      r == Stacks(s.undo + [Group(s.active.value.deltas)], [], None)
  {
    match s.active
    case None => s
    case Some(g) => if g.deltas == [] then s.(active := None) else Stacks(s.undo + [Group(g.deltas)], [], None)
  }

  class History {
    var undoStack: seq<Delta>
    var redoStack: seq<Delta>
    var activeGroup: Option<OpenGroup>

    function State(): Stacks
      reads this
    {
      Stacks(undoStack, redoStack, activeGroup)
    }

    constructor ()
      ensures State() == Stacks([], [], None)
    {
      undoStack := [];
      redoStack := [];
      activeGroup := None;
    }

    method Push(d: Delta)
      modifies this
      ensures State() == PushState(old(State()), d)
    {
      if activeGroup.Some? {
        activeGroup := Some(activeGroup.value.(deltas := activeGroup.value.deltas + [d]));
      } else {
        undoStack := undoStack + [d];
      }
      redoStack := [];
    }

    method Undo(doc: Document) returns (r: Result<Document, ReasonCode>)
      modifies this
      ensures (State(), r) == UndoState(old(State()), doc, RevertOf())
    {
      if undoStack == [] {
        return Ok(doc);
      }
      var d := undoStack[|undoStack| - 1];
      undoStack := undoStack[..|undoStack| - 1];
      r := Revert(doc, d);
      if r.Err? {
        return;
      }
      redoStack := redoStack + [d];
    }

    method Redo(k: Kernel, doc: Document) returns (r: Result<Document, ReasonCode>)
      modifies this
      ensures (State(), r) == RedoState(old(State()), doc, ApplyOf(k))
    {
      if redoStack == [] {
        return Ok(doc);
      }
      var d := redoStack[|redoStack| - 1];
      redoStack := redoStack[..|redoStack| - 1];
      var out := Apply(k, doc, d);
      if out.Err? {
        return Err(out.error);
      }
      undoStack := undoStack + [out.value.1];
      r := Ok(out.value.0);
    }

    method BeginGroup(name: string)
      modifies this
      ensures State() == BeginGroupState(old(State()), name)
    {
      if activeGroup.None? {
        activeGroup := Some(OpenGroup(name, []));
      }
    }

    method EndGroup()
      modifies this
      ensures State() == EndGroupState(old(State()))
    {
      if activeGroup.Some? {
        var g := activeGroup.value;
        activeGroup := None;
        if g.deltas != [] {
          undoStack := undoStack + [Group(g.deltas)];
          redoStack := [];
        }
      }
    }
  }

  // ----- what the history promises -----

  /**
   * Push then undo restores the document and leaves the applied delta alone
   * on redo; redo then brings back the applied document and the pushed state.
   */
  lemma {:induction false} PushUndoRedo(k: Kernel, s: Stacks, doc: Document, d: Delta)
    requires s.active.None? && Undoable(k, doc, d) && Apply(k, doc, d).Ok?
    ensures var out := Apply(k, doc, d).value;
      var s1 := PushState(s, out.1);
      var u := UndoState(s1, out.0, RevertOf());
      u == (s.(redo := [out.1]), Ok(doc))
      && RedoState(u.0, doc, ApplyOf(k)) == (s1, Ok(out.0))
  {
    UndoableRoundTrips(k, doc, d);
    var out := Apply(k, doc, d).value;
    PushUndoRedoOf(s, doc, out.0, out.1, RevertOf(), ApplyOf(k));
  }

  /** The stack half of `PushUndoRedo`, for any delta whose revert and re-apply are exact. */
  lemma {:induction false} PushUndoRedoOf(s: Stacks, doc: Document, d1: Document, c: Delta, revert: Reverter, apply: Applier)
    requires s.active.None? && revert(d1, c) == Ok(doc) && apply(doc, c) == Ok((d1, c))
    ensures var s1 := PushState(s, c);
      var u := UndoState(s1, d1, revert);
      u == (s.(redo := [c]), Ok(doc))
      && RedoState(u.0, doc, apply) == (s1, Ok(d1))
  {
    var s1 := PushState(s, c);
    assert s1 == Stacks(s.undo + [c], [], None);
    assert s1.undo[..|s1.undo| - 1] == s.undo;
    assert [] + [c] == [c];
    var u := UndoState(s1, d1, revert);
    assert u == (Stacks(s.undo, [c], None), Ok(doc));
    assert [c][..0] == [];
    assert RedoState(u.0, doc, apply) == (Stacks(s.undo + [c], [], None), Ok(d1));
  }

  /** Undo then redo is the identity on the stacks when the undone delta re-applies to itself. */
  lemma {:induction false} UndoThenRedo(s: Stacks, doc: Document, revert: Reverter, apply: Applier)
    requires s.undo != []
    requires UndoState(s, doc, revert).1.Ok?
    requires var d := s.undo[|s.undo| - 1];
      apply(UndoState(s, doc, revert).1.value, d) == Ok((doc, d))
    ensures var u := UndoState(s, doc, revert);
      RedoState(u.0, u.1.value, apply) == (s, Ok(doc))
  {
    var d := s.undo[|s.undo| - 1];
    var u := UndoState(s, doc, revert);
    assert u.0.redo[..|u.0.redo| - 1] == s.redo;
    assert s.undo[..|s.undo| - 1] + [d] == s.undo;
  }

  /** The group bracket around two pushes leaves one undo entry holding both, in order, that one undo takes back. */
  lemma {:induction false} BracketTwoUndo(s: Stacks, name: string, c1: Delta, c2: Delta, d2: Document, doc: Document, revert: Reverter)
    requires s.active.None? && revert(d2, Group([c1, c2])) == Ok(doc)
    ensures var top := EndGroupState(PushState(PushState(BeginGroupState(s, name), c1), c2));
      top == Stacks(s.undo + [Group([c1, c2])], [], None)
      && UndoState(top, d2, revert) == (s.(redo := [Group([c1, c2])]), Ok(doc))
  {
    assert [] + [c1] + [c2] == [c1, c2];
    var top := Stacks(s.undo + [Group([c1, c2])], [], None);
    assert top.undo[..|top.undo| - 1] == s.undo;
    assert [] + [Group([c1, c2])] == [Group([c1, c2])];
  }

  /** Reverting the two creations as a group removes both. */
  lemma {:induction false} RevertTwoCreates(doc: Document, e1: Entity, e2: Entity)
    requires HasLayer(doc, e1.layerId) && HasLayer(doc, e2.layerId)
    requires !HasEntity(doc.entities, e1.id) && !HasEntity(doc.entities, e2.id) && e1.id != e2.id
    ensures RevertAll(doc.(entities := doc.entities + [e1] + [e2]), [CreateEntity(e1), CreateEntity(e2)]) == Ok(doc)
  {
    var d1 := doc.(entities := doc.entities + [e1]);
    var d2 := d1.(entities := d1.entities + [e2]);
    assert forall i :: 0 <= i < |doc.entities| ==> d1.entities[i] == doc.entities[i];
    assert d1.entities[|doc.entities|] == e1;
    CreateLine.CreateEntityRoundTrip(doc, e1);
    CreateLine.CreateEntityRoundTrip(d1, e2);
    var g := [CreateEntity(e1), CreateEntity(e2)];
    assert g[..1] == [CreateEntity(e1)] && [CreateEntity(e1)][..0] == [];
    assert Revert(d2, CreateEntity(e2)) == Ok(d1);
    assert Revert(d1, CreateEntity(e1)) == Ok(doc);
    assert RevertAll(d1, [CreateEntity(e1)]) == Ok(doc);
  }

  lemma {:induction false} ApplyCreate(k: Kernel, doc: Document, e: Entity)
    requires HasLayer(doc, e.layerId)
    ensures Apply(k, doc, CreateEntity(e)) == Ok((doc.(entities := doc.entities + [e]), CreateEntity(e)))
  {
  }

  /**
   * Two entity creations pushed inside one group are undone by a single undo,
   * back to the exact prior document, and the group is the only redo entry.
   */
  lemma {:induction false} GroupedCreatesUndoneInOneStep(k: Kernel, s: Stacks, doc: Document, e1: Entity, e2: Entity)
    requires s.active.None?
    requires HasLayer(doc, e1.layerId) && HasLayer(doc, e2.layerId)
    requires !HasEntity(doc.entities, e1.id) && !HasEntity(doc.entities, e2.id) && e1.id != e2.id
    ensures var a1 := Apply(k, doc, CreateEntity(e1));
      a1.Ok?
      && var a2 := Apply(k, a1.value.0, CreateEntity(e2));
      a2.Ok?
      && |a2.value.0.entities| == |doc.entities| + 2
      && var s1 := PushState(PushState(BeginGroupState(s, "drag"), a1.value.1), a2.value.1);
      var u := UndoState(EndGroupState(s1), a2.value.0, RevertOf());
      u == (s.(redo := [Group([CreateEntity(e1), CreateEntity(e2)])]), Ok(doc))
  {
    var d1 := doc.(entities := doc.entities + [e1]);
    assert HasLayer(d1, e2.layerId);
    ApplyCreate(k, doc, e1);
    ApplyCreate(k, d1, e2);
    RevertTwoCreates(doc, e1, e2);
    BracketTwoUndo(s, "drag", CreateEntity(e1), CreateEntity(e2), d1.(entities := d1.entities + [e2]), doc, RevertOf());
  }
}
