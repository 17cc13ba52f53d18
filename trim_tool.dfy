/**
 * apps/desktop/src/tools/trim_tool.cpp: trimming an entity against a
 * cutter.  The first pick chooses the target (and selects it), the second
 * the cutter, which runs the trim at the last pointer position without
 * committing.  When the kernel reports that the pick is ambiguous, its
 * candidate points go to the ambiguity controller; Tab, Backtab and the
 * wheel cycle through them, and Enter runs the trim again with the chosen
 * candidate and publishes the result.  The release does nothing.
 */
module TrimTools {
  import opened Wrappers
  import opened Model
  import opened Desk
  import opened DocStores
  import opened HitTests
  import opened Ambiguity

  datatype TrimStep = PickTarget | PickCutter | PreviewOrAmbiguous

  /** The kernel's reason code for a pick that lies between several trim candidates. */
  const AMBIGUOUS: string := "EDIT_TRIM_AMBIGUOUS_CANDIDATE"

  /** The tool's state: its step, the two ids, and the ambiguity controller's candidates and index. */
  datatype TrimState = TrimState(step: TrimStep, target: string, cutter: string, candidates: seq<Vec2>, index: int)

  const IDLE: TrimState := TrimState(PickTarget, "", "", [], 0)

  /** Candidates are on offer only while choosing among them, and the chosen index lies among them. */
  predicate ChoiceOk(s: TrimState)
  {
    && (s.step != PreviewOrAmbiguous ==> s.candidates == [])
    && (s.candidates == [] ==> s.index == 0)
    && (s.candidates != [] ==> 0 <= s.index < |s.candidates|)
  }

  /** Both ids are known, so a trim can be asked for. */
  predicate Ready(s: TrimState)
  {
    s.target != "" && s.cutter != ""
  }

  /** The trim call: the plain one without a candidate, the committing one with the chosen index. */
  function TrimCall(doc: DeskDoc, s: TrimState, pick: Vec2, commit: bool, idx: int): Call
  {
    ApplyTrimEntity(doc, s.target, s.cutter, pick, if commit then Some(idx) else None)
  }

  /**
   * `runTrim`'s effect on the store: nothing without both ids; otherwise
   * the call is made, and the trimmed document is published only when the
   * run commits and the kernel reports ok.
   */
  function RunStore(v: StoreView, s: TrimState, pick: Vec2, commit: bool, idx: int, reply: DocReply): (r: StoreView)
    ensures !Ready(s) ==> r == v
    ensures Ready(s) ==> r.sent == v.sent + [TrimCall(v.document, s, pick, commit, idx)]
    ensures r.document == (if Ready(s) && commit && reply.Ok? then reply.value else v.document)
    ensures r.selection == v.selection && r.reasonLogs == v.reasonLogs
  {
    if !Ready(s) then v
    else
      var c := TrimCall(v.document, s, pick, commit, idx);
      if commit then Replied(v, c, reply) else Sent(v, c)
  }

  /**
   * `runTrim`'s effect on the tool: an ok reply returns it to its first
   * step with nothing chosen; an ambiguous one offers the reply's candidates,
   * starting from the first; any other failure changes nothing.
   */
  function RunOutcome(s: TrimState, reply: DocReply): (r: TrimState)
    ensures ChoiceOk(s) ==> ChoiceOk(r)
    ensures Ready(s) && reply.Ok? ==> r == IDLE
    ensures Ready(s) && reply.Err? && reply.error.code == AMBIGUOUS ==>
      r == s.(step := PreviewOrAmbiguous, candidates := reply.error.candidates, index := 0)
    ensures !Ready(s) || (reply.Err? && reply.error.code != AMBIGUOUS) ==> r == s
  {
    if !Ready(s) then s
    else if reply.Ok? then IDLE
    else if reply.error.code == AMBIGUOUS then s.(step := PreviewOrAmbiguous, candidates := reply.error.candidates, index := 0)
    else s
  }

  /** The text of the warning a failed run shows: the kernel's reason, or nothing when an id was missing. */
  function RunFailure(s: TrimState, reply: DocReply): (r: Option<WarnText>)
    ensures r.None? <==> Ready(s) && reply.Ok?
  {
    if !Ready(s) then Some(NoText)
    else if reply.Err? then Some(KernelText(reply.error))
    else None
  }

  /** `onTab(delta)` on the state: the index moves by delta modulo the number of candidates. */
  function Tabbed(s: TrimState, delta: int): (r: TrimState)
    ensures ChoiceOk(s) ==> ChoiceOk(r)
    ensures r.candidates == s.candidates && r.step == s.step
  {
    if s.candidates == [] then s else s.(index := CycleIndex(s.index, delta, |s.candidates|))
  }

  /** An ambiguous run followed by as many Tabs as there are candidates comes back to the first candidate. */
  lemma FullTabCycleReturnsToFirst(s: TrimState, reply: DocReply)
    requires Ready(s) && reply.Err? && reply.error.code == AMBIGUOUS && reply.error.candidates != []
    ensures Steps(RunOutcome(s, reply).index, 1, |reply.error.candidates|, |reply.error.candidates|) == 0
  {
    var n := |reply.error.candidates|;
    StepsAreOneJump(0, 1, n, n);
    ModUnique(n, 1, 0, n);
  }

  class TrimTool {
    const store: DocStore
    const camera: Camera
    const ambiguity: AmbiguityController
    var step: TrimStep
    var targetId: string
    var cutterId: string
    /** The world position of the last press or move, where the trim is picked. */
    var lastPick: Vec2

    function State(): TrimState
      reads this, ambiguity
    {
      TrimState(step, targetId, cutterId, ambiguity.candidates, ambiguity.index)
    }

    /** The store's caches agree, the camera's zoom is positive (the canvas clamps it), and the choice is consistent. */
    ghost predicate Valid()
      reads this, store, camera, ambiguity
    {
      && store.Valid()
      && camera.zoom > 0.0
      && ambiguity.Valid()
      && ChoiceOk(State())
    }

    constructor (store: DocStore, camera: Camera)
      requires store.Valid() && camera.zoom > 0.0
      ensures Valid() && fresh(ambiguity)
      ensures this.store == store && this.camera == camera && State() == IDLE
    {
      this.store := store;
      this.camera := camera;
      ambiguity := new AmbiguityController();
      step := PickTarget;
      targetId, cutterId := "", "";
      lastPick := Vec2(0.0, 0.0);
    }

    /** `runTrim(reason, commit, candidateIndex)`; the reply is the kernel's answer to the call. */
    method RunTrim(commit: bool, idx: int, reply: DocReply) returns (text: Option<WarnText>)
      requires Valid()
      modifies this, store, ambiguity
      ensures Valid()
      ensures State() == RunOutcome(old(State()), reply)
      ensures store.View() == RunStore(old(store.View()), old(State()), lastPick, commit, idx, reply)
      ensures text == RunFailure(old(State()), reply)
      ensures lastPick == old(lastPick)
    {
      if targetId == "" || cutterId == "" {
        return Some(NoText);
      }
      var c := TrimCall(store.document, State(), lastPick, commit, idx);
      store.Send(c);
      if reply.Err? {
        if reply.error.code == AMBIGUOUS {
          ambiguity.SetCandidates(reply.error.candidates);
          step := PreviewOrAmbiguous;
        }
        return Some(KernelText(reply.error));
      }
      if commit {
        store.SetDocumentJson(reply.value);
      }
      step := PickTarget;
      targetId, cutterId := "", "";
      ambiguity.Clear();
      text := None;
    }

    /**
     * `onPointerDown`: remember the pick; on a hit, the first step takes the
     * target and selects it, the second takes the cutter and, unless it is
     * the target, runs the trim without committing (its failure is not
     * shown); while choosing, a press changes nothing else.
     */
    method OnPointerDown(g: Geometry, w: Vec2, reply: DocReply)
      requires Valid()
      modifies this, store, ambiguity
      ensures Valid()
      ensures lastPick == w
      ensures
        var hit := BestHit(Hits(g, old(store.entities), w, 8.0 / camera.zoom));
        && (hit.None? || old(step) == PreviewOrAmbiguous ==>
              State() == old(State()) && store.View() == old(store.View()))
        && (hit.Some? && old(step) == PickTarget ==>
              && State() == old(State()).(step := PickCutter, target := hit.value.entityId)
              && store.View() == old(store.View()).(selection := [hit.value.entityId]))
        && (hit.Some? && old(step) == PickCutter && hit.value.entityId == old(targetId) ==>
              State() == old(State()).(cutter := hit.value.entityId) && store.View() == old(store.View()))
        && (hit.Some? && old(step) == PickCutter && hit.value.entityId != old(targetId) ==>
              var s := old(State()).(cutter := hit.value.entityId);
              && State() == RunOutcome(s, reply)
              && store.View() == RunStore(old(store.View()), s, w, false, -1, reply))
    {
      lastPick := w;
      var hit := HitTest(g, store.entities, camera.zoom, w, 8.0);
      if hit.None? {
        return;
      }
      if step == PickTarget {
        targetId := hit.value.entityId;
        store.SetSingle(targetId);
        step := PickCutter;
      } else if step == PickCutter {
        cutterId := hit.value.entityId;
        if cutterId == targetId {
          return;
        }
        var _ := RunTrim(false, -1, reply);
      }
    }

    /** `onPointerMove`: only the pick position follows the pointer. */
    method OnPointerMove(w: Vec2)
      modifies this
      ensures lastPick == w
      ensures step == old(step) && targetId == old(targetId) && cutterId == old(cutterId)
    {
      lastPick := w;
    }

    /**
     * `onKeyPress`: Escape returns to the first step with nothing chosen;
     * while choosing, Tab and Backtab cycle the candidate and Enter commits
     * the trim with the chosen one, warning when it fails.
     */
    method OnKeyPress(e: KeyEvent, reply: DocReply) returns (warn: Option<Warning>)
      requires Valid()
      modifies this, store, ambiguity
      ensures Valid()
      ensures e.key == Escape ==> State() == IDLE && store.View() == old(store.View()) && warn.None?
      ensures e.key != Escape && old(step) == PreviewOrAmbiguous && e.key == Tab ==>
        State() == Tabbed(old(State()), 1) && store.View() == old(store.View()) && warn.None?
      ensures e.key != Escape && old(step) == PreviewOrAmbiguous && e.key == Backtab ==>
        State() == Tabbed(old(State()), -1) && store.View() == old(store.View()) && warn.None?
      ensures e.key != Escape && old(step) == PreviewOrAmbiguous && IsEnter(e) ==>
        var text := RunFailure(old(State()), reply);
        && State() == RunOutcome(old(State()), reply)
        && store.View() == RunStore(old(store.View()), old(State()), lastPick, true, old(ambiguity.index), reply)
        && warn == (if text.Some? then Some(Warning("Trim failed", text.value)) else None)
      ensures e.key != Escape && (old(step) != PreviewOrAmbiguous || (e.key != Tab && e.key != Backtab && !IsEnter(e))) ==>
        State() == old(State()) && store.View() == old(store.View()) && warn.None?
      ensures lastPick == old(lastPick)
    {
      warn := None;
      if e.key == Escape {
        step := PickTarget;
        targetId, cutterId := "", "";
        ambiguity.Clear();
        return;
      }
      if step == PreviewOrAmbiguous {
        if e.key == Tab {
          ambiguity.OnTab(1);
        }
        if e.key == Backtab {
          ambiguity.OnTab(-1);
        }
        if IsEnter(e) {
          var text := RunTrim(true, ambiguity.CurrentIndex(), reply);
          if text.Some? {
            warn := Some(Warning("Trim failed", text.value));
          }
        }
      }
    }

    /** `onWheel`: while choosing among candidates, a notch cycles the candidate. */
    method OnWheel(deltaY: int)
      requires Valid()
      modifies ambiguity
      ensures Valid()
      ensures step == PreviewOrAmbiguous && old(ambiguity.Active()) ==> State() == Tabbed(old(State()), WheelDelta(deltaY))
      ensures !(step == PreviewOrAmbiguous && old(ambiguity.Active())) ==> State() == old(State())
    {
      if step != PreviewOrAmbiguous || !ambiguity.Active() {
        return;
      }
      ambiguity.OnWheel(deltaY);
    }
  }
}
