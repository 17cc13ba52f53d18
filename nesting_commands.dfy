/**
 * core/commands/src/commands/nesting.rs: running a nesting job and moving
 * one placement of its result, as reversible deltas.  Both deltas locate the
 * job by id; the placement edit then locates the first placement with the
 * part id and sheet instance index.
 */
module NestingCommands {
  import opened Wrappers
  import opened Seqs
  import opened Serialize
  import opened Model
  import opened Deltas

  // ----- run nesting -----

  /**
   * The nesting engine as the command calls it, the epsilon policy and the run
   * limits of the input already bound: the job and the document snapshot give
   * a result and a trace, or a reason.
   */
  type Nester = (NestJob, Document) -> Result<(NestResult, NestTrace), ReasonCode>

  /** What both nesting commands commit: the previewed delta, or CORE_INVARIANT_VIOLATION when nothing was previewed. */
  function Committed(preview: Option<Delta>): (r: Result<Delta, ReasonCode>)
    ensures preview.None? <==> r == Err(CoreInvariantViolation)
    ensures preview.Some? ==> r == Ok(preview.value)
  {
    if preview.None? then Err(CoreInvariantViolation) else Ok(preview.value)
  }

  class RunNestingCommand {
    var preview: Option<Delta>

    constructor ()
      ensures preview == None
    {
      preview := None;
    }

    method Begin()
      modifies this
      ensures preview == None
    {
      preview := None;
    }

    /**
     * Runs the job of the snapshot and previews a delta whose before values are
     * the job's current result and trace.  A missing job, or a run that fails,
     * leaves the previous preview.
     */
    method Update(nest: Nester, jobId: Uuid, snapshot: Document) returns (r: Result<(), ReasonCode>)
      modifies this
      ensures JobIndex(snapshot.jobs, jobId).None? ==> r == Err(ModelReferenceNotFound)
      ensures r.Err? ==> preview == old(preview)
      ensures r.Ok? <==>
        (JobIndex(snapshot.jobs, jobId).Some?
         && nest(snapshot.jobs[JobIndex(snapshot.jobs, jobId).value], snapshot).Ok?)
      ensures r.Ok? ==>
        var job := snapshot.jobs[JobIndex(snapshot.jobs, jobId).value];
        var out := nest(job, snapshot).value;
        preview == Some(RunNesting(jobId, job.result, job.trace, Some(out.0), Some(out.1)))
    {
      var i := JobIndex(snapshot.jobs, jobId);
      if i.None? {
        return Err(ModelReferenceNotFound);
      }
      var job := snapshot.jobs[i.value];
      var out := nest(job, snapshot);
      if out.Err? {
        return Err(out.error);
      }
      preview := Some(RunNesting(jobId, job.result, job.trace, Some(out.value.0), Some(out.value.1)));
      r := Ok(());
    }

    method Commit() returns (r: Result<Delta, ReasonCode>)
      ensures preview.None? ==> r == Err(CoreInvariantViolation)
      ensures preview.Some? ==> r == Ok(preview.value)
    {
      r := Committed(preview);
    }

    method Cancel()
      modifies this
      ensures preview == None
    {
      preview := None;
    }
  }

  /**
   * Sets the result and trace of the first job with this id; the rest of the
   * document is unchanged.  A missing job is an error.
   */
  function SetJobOutput(doc: Document, jobId: Uuid, result: Option<NestResult>, trace: Option<NestTrace>)
    : (r: Result<Document, ReasonCode>)
    ensures r.Err? <==> JobIndex(doc.jobs, jobId).None?
    ensures r.Err? ==> r.error == ModelReferenceNotFound
    ensures r.Ok? ==>
      var i := JobIndex(doc.jobs, jobId).value;
      r.value == doc.(jobs := doc.jobs[i := doc.jobs[i].(result := result, trace := trace)])
  {
    match JobIndex(doc.jobs, jobId)
    case None => Err(ModelReferenceNotFound)
    case Some(i) => Ok(doc.(jobs := doc.jobs[i := doc.jobs[i].(result := result, trace := trace)]))
  }

  /** Replacing a job by one with the same id leaves every job lookup as it was. */
  lemma JobIndexSameIds(js: seq<NestJob>, i: nat, job: NestJob, id: Uuid)
    requires i < |js| && job.id == js[i].id
    ensures JobIndex(js[i := job], id) == JobIndex(js, id)
  {
    FindFirstSame(js[i := job], (j: NestJob) => j.id == id, js, (j: NestJob) => j.id == id);
  }

  /** The last output written to a job is the one it holds. */
  lemma {:induction false} SetJobOutputTwice(doc: Document, jobId: Uuid, r1: Option<NestResult>, t1: Option<NestTrace>,
                                             r2: Option<NestResult>, t2: Option<NestTrace>)
    requires SetJobOutput(doc, jobId, r1, t1).Ok?
    ensures SetJobOutput(SetJobOutput(doc, jobId, r1, t1).value, jobId, r2, t2) == SetJobOutput(doc, jobId, r2, t2)
  {
    var i := JobIndex(doc.jobs, jobId).value;
    var d1 := SetJobOutput(doc, jobId, r1, t1).value;
    JobIndexSameIds(doc.jobs, i, doc.jobs[i].(result := r1, trace := t1), jobId);
    assert d1.jobs[i := d1.jobs[i].(result := r2, trace := t2)] == doc.jobs[i := doc.jobs[i].(result := r2, trace := t2)];
  }

  /**
   * Apply and revert of a run both write one output into the job, the after
   * one and the before one.  A run previewed on the document it is applied
   * to is undone exactly: the before values are the job's own, so revert
   * restores the prior document, and redo after undo reproduces the applied one.
   */
  lemma RunNestingRoundTrip(doc: Document, jobId: Uuid, afterResult: Option<NestResult>, afterTrace: Option<NestTrace>)
    requires JobIndex(doc.jobs, jobId).Some?
    ensures var job := doc.jobs[JobIndex(doc.jobs, jobId).value];
      var d1 := SetJobOutput(doc, jobId, afterResult, afterTrace);
      d1.Ok?
      && SetJobOutput(d1.value, jobId, job.result, job.trace) == Ok(doc)
      && SetJobOutput(SetJobOutput(d1.value, jobId, job.result, job.trace).value, jobId, afterResult, afterTrace) == d1
  {
    var i := JobIndex(doc.jobs, jobId).value;
    var job := doc.jobs[i];
    SetJobOutputTwice(doc, jobId, afterResult, afterTrace, job.result, job.trace);
    assert doc.jobs[i := job.(result := job.result, trace := job.trace)] == doc.jobs;
  }

  // ----- edit placement -----

  class EditPlacementCommand {
    var preview: Option<Delta>

    constructor ()
      ensures preview == None
    {
      preview := None;
    }

    method Begin()
      modifies this
      ensures preview == None
    {
      preview := None;
    }

    /** Any input is accepted; the old pose the caller gives is kept for undo. */
    method Update(jobId: Uuid, partId: Uuid, sheetIndex: int, oldPose: PlacementPose, newPose: PlacementPose)
      modifies this
      ensures preview == Some(EditPlacement(jobId, partId, sheetIndex, newPose, Some(oldPose)))
    {
      preview := Some(EditPlacement(jobId, partId, sheetIndex, newPose, Some(oldPose)));
    }

    method Commit() returns (r: Result<Delta, ReasonCode>)
      ensures preview.None? ==> r == Err(CoreInvariantViolation)
      ensures preview.Some? ==> r == Ok(preview.value)
    {
      r := Committed(preview);
    }

    method Cancel()
      modifies this
      ensures preview == None
    {
      preview := None;
    }
  }

  /** `sheet_index as u32` on an `i32`: a negative index wraps around by 2^32. */
  function AsU32(i: int): (r: nat)
    ensures r < 0x1_0000_0000
    ensures -0x8000_0000 <= i < 0 ==> r == i + 0x1_0000_0000
    ensures 0 <= i < 0x1_0000_0000 ==> r == i
  {
    i % 0x1_0000_0000
  }

  /** The first placement of this part on this sheet instance. */
  function PlacementIndex(ps: seq<Placement>, partId: Uuid, sheetIndex: int): Option<nat>
  {
    FindFirst(ps, (p: Placement) => p.partId == partId && p.sheetInstanceIndex == AsU32(sheetIndex))
  }

  /**
   * The placement moved to a pose: position and rotation from the pose, the
   * bounding box moved so that its lower corner is the new position, keeping
   * its width and height.
   */
  function Posed(plc: Placement, pose: PlacementPose): (r: Placement)
    ensures r.x == pose.x && r.y == pose.y && r.rotationDeg == pose.rotationDeg
    ensures r.bbox.minX == pose.x && r.bbox.minY == pose.y
    ensures r.bbox.maxX - r.bbox.minX == plc.bbox.maxX - plc.bbox.minX
    ensures r.bbox.maxY - r.bbox.minY == plc.bbox.maxY - plc.bbox.minY
    ensures r.partId == plc.partId && r.sheetInstanceIndex == plc.sheetInstanceIndex
  {
    var w := plc.bbox.maxX - plc.bbox.minX;
    var h := plc.bbox.maxY - plc.bbox.minY;
    plc.(x := pose.x, y := pose.y, rotationDeg := pose.rotationDeg,
         bbox := BBox(pose.x, pose.y, pose.x + w, pose.y + h))
  }

  /** The pose a placement is at. */
  function PoseOf(plc: Placement): PlacementPose
  {
    PlacementPose(plc.x, plc.y, plc.rotationDeg)
  }

  /** A placement whose bounding box has its lower corner at its position, as nesting produces them. */
  predicate Anchored(plc: Placement)
  {
    plc.bbox.minX == plc.x && plc.bbox.minY == plc.y
  }

  /** Posing twice is posing once with the second pose. */
  lemma PosedTwice(plc: Placement, a: PlacementPose, b: PlacementPose)
    ensures Posed(Posed(plc, a), b) == Posed(plc, b)
  {
  }

  /** Posing an anchored placement at its own pose changes nothing, and only then. */
  lemma PosedOwnPose(plc: Placement)
    ensures Posed(plc, PoseOf(plc)) == plc <==> Anchored(plc)
  {
  }

  /**
   * Moves the chosen placement to a pose.  The job, its result and the
   * placement must all exist.
   */
  function SetPlacement(doc: Document, jobId: Uuid, partId: Uuid, sheetIndex: int, pose: PlacementPose)
    : (r: Result<Document, ReasonCode>)
    ensures r.Err? ==> r.error == ModelReferenceNotFound
    ensures r.Ok? <==>
      (JobIndex(doc.jobs, jobId).Some?
       && doc.jobs[JobIndex(doc.jobs, jobId).value].result.Some?
       && PlacementIndex(doc.jobs[JobIndex(doc.jobs, jobId).value].result.value.placements, partId, sheetIndex).Some?)
    ensures r.Ok? ==>
      var i := JobIndex(doc.jobs, jobId).value;
      var res := doc.jobs[i].result.value;
      var k := PlacementIndex(res.placements, partId, sheetIndex).value;
      r.value == doc.(jobs := doc.jobs[i := doc.jobs[i].(result :=
        Some(res.(placements := res.placements[k := Posed(res.placements[k], pose)])))])
  {
    var i :- if JobIndex(doc.jobs, jobId).Some? then Ok(JobIndex(doc.jobs, jobId).value) else Err(ModelReferenceNotFound);
    var job := doc.jobs[i];
    var res :- if job.result.Some? then Ok(job.result.value) else Err(ModelReferenceNotFound);
    var k :- if PlacementIndex(res.placements, partId, sheetIndex).Some?
             then Ok(PlacementIndex(res.placements, partId, sheetIndex).value)
             else Err(ModelReferenceNotFound);
    Ok(doc.(jobs := doc.jobs[i := job.(result := Some(res.(placements := res.placements[k := Posed(res.placements[k], pose)])))]))
  }

  function ApplyEditPlacement(doc: Document, jobId: Uuid, partId: Uuid, sheetIndex: int, newPose: PlacementPose)
    : (r: Result<Document, ReasonCode>)
    ensures r == SetPlacement(doc, jobId, partId, sheetIndex, newPose)
  {
    SetPlacement(doc, jobId, partId, sheetIndex, newPose)
  }

  /** Revert needs the old pose before it looks anything up. */
  function RevertEditPlacement(doc: Document, jobId: Uuid, partId: Uuid, sheetIndex: int, oldPose: Option<PlacementPose>)
    : (r: Result<Document, ReasonCode>)
    ensures oldPose.None? ==> r == Err(CoreInvariantViolation)
    ensures oldPose.Some? ==> r == SetPlacement(doc, jobId, partId, sheetIndex, oldPose.value)
  {
    if oldPose.None? then Err(CoreInvariantViolation) else SetPlacement(doc, jobId, partId, sheetIndex, oldPose.value)
  }

  /** Moving a placement keeps every lookup the edit uses: the job and the placement are found again. */
  lemma SetPlacementKeepsLookups(doc: Document, jobId: Uuid, partId: Uuid, sheetIndex: int, pose: PlacementPose)
    requires SetPlacement(doc, jobId, partId, sheetIndex, pose).Ok?
    ensures var d1 := SetPlacement(doc, jobId, partId, sheetIndex, pose).value;
      var i := JobIndex(doc.jobs, jobId).value;
      var k := PlacementIndex(doc.jobs[i].result.value.placements, partId, sheetIndex).value;
      JobIndex(d1.jobs, jobId) == Some(i)
      && d1.jobs[i].result.Some?
      && PlacementIndex(d1.jobs[i].result.value.placements, partId, sheetIndex) == Some(k)
      && d1.jobs[i].result.value.placements[k] == Posed(doc.jobs[i].result.value.placements[k], pose)
  {
    var d1 := SetPlacement(doc, jobId, partId, sheetIndex, pose).value;
    var i := JobIndex(doc.jobs, jobId).value;
    var res := doc.jobs[i].result.value;
    var k := PlacementIndex(res.placements, partId, sheetIndex).value;
    JobIndexSameIds(doc.jobs, i, d1.jobs[i], jobId);
    var ps := res.placements;
    var qs := ps[k := Posed(ps[k], pose)];
    FindFirstSame(qs, (p: Placement) => p.partId == partId && p.sheetInstanceIndex == AsU32(sheetIndex),
                  ps, (p: Placement) => p.partId == partId && p.sheetInstanceIndex == AsU32(sheetIndex));
  }

  /**
   * Undo after an edit restores the document when the stored old pose is the
   * placement's pose and its box is anchored at it; redo after undo gives the
   * edited document again.
   */
  lemma EditPlacementRoundTrip(doc: Document, jobId: Uuid, partId: Uuid, sheetIndex: int,
                               oldPose: PlacementPose, newPose: PlacementPose)
    requires SetPlacement(doc, jobId, partId, sheetIndex, newPose).Ok?
    requires var i := JobIndex(doc.jobs, jobId).value;
      var ps := doc.jobs[i].result.value.placements;
      var plc := ps[PlacementIndex(ps, partId, sheetIndex).value];
      PoseOf(plc) == oldPose && Anchored(plc)
    ensures var d1 := ApplyEditPlacement(doc, jobId, partId, sheetIndex, newPose).value;
      RevertEditPlacement(d1, jobId, partId, sheetIndex, Some(oldPose)) == Ok(doc)
  {
    var d1 := SetPlacement(doc, jobId, partId, sheetIndex, newPose).value;
    var i := JobIndex(doc.jobs, jobId).value;
    var res := doc.jobs[i].result.value;
    var k := PlacementIndex(res.placements, partId, sheetIndex).value;
    SetPlacementKeepsLookups(doc, jobId, partId, sheetIndex, newPose);
    var plc := res.placements[k];
    PosedTwice(plc, newPose, oldPose);
    PosedOwnPose(plc);
    var res1 := d1.jobs[i].result.value;
    assert res1.placements[k := Posed(res1.placements[k], oldPose)] == res.placements;
    assert d1.jobs[i].(result := Some(res1.(placements := res.placements))) == doc.jobs[i];
    assert d1.jobs[i := doc.jobs[i]] == doc.jobs;
  }

  /**
   * Undo after an edit whose placement is NOT anchored leaves the box moved:
   * revert restores the pose but anchors the box, so the prior document is not
   * restored.
   */
  lemma EditPlacementUnanchored(doc: Document, jobId: Uuid, partId: Uuid, sheetIndex: int,
                                oldPose: PlacementPose, newPose: PlacementPose)
    requires SetPlacement(doc, jobId, partId, sheetIndex, newPose).Ok?
    requires var i := JobIndex(doc.jobs, jobId).value;
      var ps := doc.jobs[i].result.value.placements;
      !Anchored(ps[PlacementIndex(ps, partId, sheetIndex).value])
    ensures var d1 := ApplyEditPlacement(doc, jobId, partId, sheetIndex, newPose).value;
      RevertEditPlacement(d1, jobId, partId, sheetIndex, Some(oldPose)) != Ok(doc)
  {
    var d1 := SetPlacement(doc, jobId, partId, sheetIndex, newPose).value;
    var i := JobIndex(doc.jobs, jobId).value;
    var k := PlacementIndex(doc.jobs[i].result.value.placements, partId, sheetIndex).value;
    SetPlacementKeepsLookups(doc, jobId, partId, sheetIndex, newPose);
    var d2 := RevertEditPlacement(d1, jobId, partId, sheetIndex, Some(oldPose));
    SetPlacementKeepsLookups(d1, jobId, partId, sheetIndex, oldPose);
    assert Anchored(d2.value.jobs[i].result.value.placements[k]);
  }
}
