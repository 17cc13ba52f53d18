/**
 * core/crates/diycad_nesting/src/constraints.rs: a nesting job is checked
 * before it runs.  It needs at least one sheet definition, every definition
 * a positive size and at least one instance, and every part reference a
 * part of the document; the first failing check decides the reason.
 */
module NestingConstraints {
  import opened Wrappers
  import opened Seqs
  import opened Serialize
  import opened Model

  predicate SheetUsable(s: SheetDef)
  {
    s.width > 0.0 && s.height > 0.0 && s.quantity >= 1
  }

  function ValidateJob(job: NestJob, doc: Document): (r: Result<(), ReasonCode>)
    ensures r.Ok? <==>
      job.sheetDefs != []
      && (forall k :: 0 <= k < |job.sheetDefs| ==> SheetUsable(job.sheetDefs[k]))
      && (forall k :: 0 <= k < |job.partsRef| ==> HasPart(doc.parts, job.partsRef[k].partId))
    ensures job.sheetDefs == [] ==> r == Err(NestInternalInfeasible)
    ensures (exists k :: 0 <= k < |job.sheetDefs| && !SheetUsable(job.sheetDefs[k])) ==> r == Err(NestInternalInfeasible)
    ensures r == Err(ModelReferenceNotFound) <==>
      job.sheetDefs != []
      && (forall k :: 0 <= k < |job.sheetDefs| ==> SheetUsable(job.sheetDefs[k]))
      && (exists k :: 0 <= k < |job.partsRef| && !HasPart(doc.parts, job.partsRef[k].partId))
    ensures r.Err? ==> r.error == NestInternalInfeasible || r.error == ModelReferenceNotFound
  {
    var badSheet := FindFirst(job.sheetDefs, (s: SheetDef) => !SheetUsable(s));
    var missing := FindFirst(job.partsRef, (r: PartRef) => PartIndex(doc.parts, r.partId).None?);
    if job.sheetDefs == [] then Err(NestInternalInfeasible)
    else if badSheet.Some? then Err(NestInternalInfeasible)
    else if missing.Some? then
      assert !HasPart(doc.parts, job.partsRef[missing.value].partId);
      Err(ModelReferenceNotFound)
    else
      assert forall k :: 0 <= k < |job.partsRef| ==> PartIndex(doc.parts, job.partsRef[k].partId).Some?;
      Ok(())
  }

  /**
   * A valid job is one the expansion step can look up completely: every
   * reference names a part of the document.
   */
  lemma ValidReferencesResolve(job: NestJob, doc: Document, r: PartRef)
    requires ValidateJob(job, doc).Ok? && r in job.partsRef
    ensures PartIndex(doc.parts, r.partId).Some?
  {
    var k :| 0 <= k < |job.partsRef| && job.partsRef[k] == r;
    assert HasPart(doc.parts, r.partId);
    var i :| 0 <= i < |doc.parts| && doc.parts[i].id == r.partId;
  }
}
