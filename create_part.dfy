/**
 * core/commands/src/commands/create_part.rs: part validation (outline rings
 * and numeric fields), the create / create-from-face / update / delete part
 * commands and their deltas over the document's part list.
 */
module CreatePart {
  import opened Wrappers
  import opened Serialize
  import opened Model
  import opened Seqs
  import opened Deltas
  import EditOps

  /** Twice the signed area below this is a degenerate ring. */
  const AREA_EPS: real := 0.000000000001

  function Cross(p: Vec2, q: Vec2): real { p.x * q.y - q.x * p.y }

  /** The shoelace terms from vertex i on, each edge closing back to vertex 0. */
  function ShoelaceFrom(ring: seq<Vec2>, i: nat): real
    requires i <= |ring|
    decreases |ring| - i
  {
    if i == |ring| then 0.0 else Cross(ring[i], ring[(i + 1) % |ring|]) + ShoelaceFrom(ring, i + 1)
  }

  /** Twice the signed area of the closed ring. */
  function TwiceArea(ring: seq<Vec2>): real { ShoelaceFrom(ring, 0) }

  /**
   * At least three vertices enclosing a non-zero area.  Document coordinates
   * are finite, so the finiteness test of `is_valid_ring` always passes here.
   */
  predicate ValidRing(ring: seq<Vec2>)
  {
    |ring| >= 3 && EditOps.Abs(TwiceArea(ring)) > AREA_EPS
  }

  /** `is_valid_ring`: the shoelace sum accumulated edge by edge. */
  method IsValidRing(ring: seq<Vec2>) returns (ok: bool)
    ensures ok == ValidRing(ring)
  {
    if |ring| < 3 {
      return false;
    }
    var a := 0.0;
    var i := 0;
    while i < |ring|
      invariant 0 <= i <= |ring|
      invariant a + ShoelaceFrom(ring, i) == TwiceArea(ring)
    {
      var p := ring[i];
      var q := ring[(i + 1) % |ring|];
      a := a + (p.x * q.y - q.x * p.y);
      i := i + 1;
    }
    ok := EditOps.Abs(a) > AREA_EPS;
  }

  /** One shoelace step, with the wrap of the last edge spelled out. */
  lemma ShoelaceStep(ring: seq<Vec2>, i: nat, c: real, rest: real)
    requires i < |ring| && Cross(ring[i], ring[if i + 1 == |ring| then 0 else i + 1]) == c
    requires ShoelaceFrom(ring, i + 1) == rest
    ensures ShoelaceFrom(ring, i) == c + rest
  {
    if i + 1 < |ring| {
      assert (i + 1) % |ring| == i + 1;
    } else {
      assert (i + 1) % |ring| == 0;
    }
  }

  /** An axis-parallel w x h rectangle, counter-clockwise, has twice-area 2wh. */
  lemma RectRingArea(x: real, y: real, w: real, h: real)
    ensures TwiceArea([Vec2(x, y), Vec2(x + w, y), Vec2(x + w, y + h), Vec2(x, y + h)]) == 2.0 * w * h
  {
    var r := [Vec2(x, y), Vec2(x + w, y), Vec2(x + w, y + h), Vec2(x, y + h)];
    var c0 := Cross(r[0], r[1]);
    var c1 := Cross(r[1], r[2]);
    var c2 := Cross(r[2], r[3]);
    var c3 := Cross(r[3], r[0]);
    ShoelaceStep(r, 3, c3, 0.0);
    ShoelaceStep(r, 2, c2, c3);
    ShoelaceStep(r, 1, c1, c2 + c3);
    ShoelaceStep(r, 0, c0, c1 + c2 + c3);
    assert c0 + c1 + c2 + c3 == 2.0 * w * h by {
      assert c0 == x * y - (x + w) * y;
      assert c1 == (x + w) * (y + h) - (x + w) * y;
      assert c2 == (x + w) * (y + h) - x * (y + h);
      assert c3 == x * y - x * (y + h);
    }
  }

  /** So a rectangle is a valid ring exactly when its area is not degenerate. */
  lemma RectRingValid(x: real, y: real, w: real, h: real)
    ensures ValidRing([Vec2(x, y), Vec2(x + w, y), Vec2(x + w, y + h), Vec2(x, y + h)])
      <==> EditOps.Abs(2.0 * w * h) > AREA_EPS
  {
    RectRingArea(x, y, w, h);
  }

  /** Three equally spaced points on one line enclose no area. */
  lemma CollinearRingInvalid(p: Vec2, d: Vec2)
    ensures !ValidRing([p, Vec2(p.x + d.x, p.y + d.y), Vec2(p.x + 2.0 * d.x, p.y + 2.0 * d.y)])
  {
    var r := [p, Vec2(p.x + d.x, p.y + d.y), Vec2(p.x + 2.0 * d.x, p.y + 2.0 * d.y)];
    var c0 := Cross(r[0], r[1]);
    var c1 := Cross(r[1], r[2]);
    var c2 := Cross(r[2], r[0]);
    ShoelaceStep(r, 2, c2, 0.0);
    ShoelaceStep(r, 1, c1, c2);
    ShoelaceStep(r, 0, c0, c1 + c2);
    assert c0 + c1 + c2 == 0.0 by {
      assert c0 == p.x * (p.y + d.y) - (p.x + d.x) * p.y;
      assert c1 == (p.x + d.x) * (p.y + 2.0 * d.y) - (p.x + 2.0 * d.x) * (p.y + d.y);
      assert c2 == (p.x + 2.0 * d.x) * p.y - p.x * (p.y + 2.0 * d.y);
    }
  }

  /** The characters `char::is_whitespace` accepts (Unicode White_Space). */
  predicate IsWhitespace(c: char)
  {
    ('\U{9}' <= c <= '\U{D}') || c == ' ' || c == '\U{85}' || c == '\U{A0}' || c == '\U{1680}'
    || ('\U{2000}' <= c <= '\U{200A}') || c == '\U{2028}' || c == '\U{2029}' || c == '\U{202F}'
    || c == '\U{205F}' || c == '\U{3000}'
  }

  /** `name.trim().is_empty()`. */
  predicate IsBlank(s: string)
  {
    forall i :: 0 <= i < |s| ==> IsWhitespace(s[i])
  }

  predicate ValidOutline(o: Polygon2D)
  {
    ValidRing(o.outer) && forall i :: 0 <= i < |o.holes| ==> ValidRing(o.holes[i])
  }

  predicate BadFields(p: Part)
  {
    p.quantity == 0 || p.thickness < 0.0 || p.margin < 0.0 || p.kerf < 0.0 || IsBlank(p.name)
  }

  /** The outline is checked first, then the numeric fields and the name. */
  function Validate(p: Part): (r: Result<(), ReasonCode>)
    ensures r == Err(PartInvalidOutline) <==> !ValidOutline(p.outline)
    ensures r == Err(PartInvalidFields) <==> ValidOutline(p.outline) && BadFields(p)
    ensures r.Ok? <==> ValidOutline(p.outline) && !BadFields(p)
  {
    if !ValidOutline(p.outline) then Err(PartInvalidOutline)
    else if BadFields(p) then Err(PartInvalidFields)
    else Ok(())
  }

  class CreatePartCommand {
    var preview: Option<Part>

    constructor ()
      ensures preview == None
    {
      preview := None;
    }

    method Begin()
      modifies this
      ensures preview == None
    {
      preview := None;
    }

    method Update(part: Part) returns (r: Result<(), ReasonCode>)
      modifies this
      ensures r == Validate(part)
      ensures r.Ok? ==> preview == Some(part)
      ensures r.Err? ==> preview == old(preview)
    {
      r := Validate(part);
      if r.Ok? {
        preview := Some(part);
      }
    }

    /** Commit re-validates the previewed part. */
    method Commit() returns (r: Result<Delta, ReasonCode>)
      ensures preview.None? ==> r == Err(PartInvalidOutline)
      ensures preview.Some? && Validate(preview.value).Err? ==> r == Err(Validate(preview.value).error)
      ensures preview.Some? && Validate(preview.value).Ok? ==> r == Ok(CreatePart(preview.value))
    {
      if preview.None? {
        return Err(PartInvalidOutline);
      }
      var v := Validate(preview.value);
      if v.Err? {
        return Err(v.error);
      }
      r := Ok(CreatePart(preview.value));
    }

    method Cancel()
      modifies this
      ensures preview == None
    {
      preview := None;
    }
  }

  /** A face found by the face extractor: an outer ring and holes. */
  datatype Face = Face(outer: seq<Vec2>, holes: seq<seq<Vec2>>)

  datatype PartProps = PartProps(
    name: string, thickness: real, quantity: nat, materialId: Uuid, grainDir: Option<real>,
    allowRotate: bool, margin: real, kerf: real)

  /** The part the props describe, with an empty outline and a fresh id. */
  function PartFromProps(id: Uuid, props: PartProps): Part
  {
    Part(id, props.name, Polygon2D([], []), props.thickness, props.quantity, props.materialId,
         props.grainDir, props.allowRotate, props.margin, props.kerf)
  }

  class CreatePartFromFaceCommand {
    var preview: Option<(Face, PartProps)>

    constructor ()
      ensures preview == None
    {
      preview := None;
    }

    method Begin()
      modifies this
      ensures preview == None
    {
      preview := None;
    }

    method Update(face: Face, props: PartProps)
      modifies this
      ensures preview == Some((face, props))
    {
      preview := Some((face, props));
    }

    /**
     * `fromFace` is `create_part_from_face` of the part-ops crate, which is
     * not part of this model; its result is validated before it is committed.
     */
    method Commit(newId: Uuid, fromFace: (Face, Part) -> Result<Part, ReasonCode>) returns (r: Result<Delta, ReasonCode>)
      ensures preview.None? ==> r == Err(PartInvalidOutline)
      ensures preview.Some? ==>
        var n := fromFace(preview.value.0, PartFromProps(newId, preview.value.1));
        r == (if n.Err? then Err(n.error)
              else if Validate(n.value).Err? then Err(Validate(n.value).error)
              else Ok(CreatePart(n.value)))
    {
      if preview.None? {
        return Err(PartInvalidOutline);
      }
      var (face, props) := preview.value;
      var n := fromFace(face, PartFromProps(newId, props));
      if n.Err? {
        return Err(n.error);
      }
      var v := Validate(n.value);
      if v.Err? {
        return Err(v.error);
      }
      r := Ok(CreatePart(n.value));
    }

    method Cancel()
      modifies this
      ensures preview == None
    {
      preview := None;
    }
  }

  class UpdatePartCommand {
    var preview: Option<(Part, Part)>

    constructor ()
      ensures preview == None
    {
      preview := None;
    }

    method Begin()
      modifies this
      ensures preview == None
    {
      preview := None;
    }

    /** An id change is refused before the new part is validated. */
    method Update(before: Part, after: Part) returns (r: Result<(), ReasonCode>)
      modifies this
      ensures before.id != after.id ==> r == Err(PartInvalidFields)
      ensures before.id == after.id ==> r == Validate(after)
      ensures r.Ok? ==> preview == Some((before, after))
      ensures r.Err? ==> preview == old(preview)
    {
      if before.id != after.id {
        return Err(PartInvalidFields);
      }
      r := Validate(after);
      if r.Ok? {
        preview := Some((before, after));
      }
    }

    method Commit() returns (r: Result<Delta, ReasonCode>)
      ensures preview.None? ==> r == Err(PartInvalidFields)
      ensures preview.Some? ==> r == Ok(UpdatePart(preview.value.0, preview.value.1))
    {
      if preview.None? {
        return Err(PartInvalidFields);
      }
      r := Ok(UpdatePart(preview.value.0, preview.value.1));
    }

    method Cancel()
      modifies this
      ensures preview == None
    {
      preview := None;
    }
  }

  class DeletePartCommand {
    var preview: Option<Part>

    constructor ()
      ensures preview == None
    {
      preview := None;
    }

    method Begin()
      modifies this
      ensures preview == None
    {
      preview := None;
    }

    method Update(part: Part)
      modifies this
      ensures preview == Some(part)
    {
      preview := Some(part);
    }

    method Commit() returns (r: Result<Delta, ReasonCode>)
      ensures preview.None? ==> r == Err(ModelReferenceNotFound)
      ensures preview.Some? ==> r == Ok(DeletePart(preview.value))
    {
      if preview.None? {
        return Err(ModelReferenceNotFound);
      }
      r := Ok(DeletePart(preview.value));
    }

    method Cancel()
      modifies this
      ensures preview == None
    {
      preview := None;
    }
  }

  /** Appends the part. */
  function AppendPart(doc: Document, p: Part): (r: Document)
    ensures r.parts == doc.parts + [p] && r == doc.(parts := r.parts)
  {
    doc.(parts := doc.parts + [p])
  }

  /** Removes every part with this id; an error if there was none. */
  function RemovePart(doc: Document, id: Uuid): (r: Result<Document, ReasonCode>)
    ensures r.Err? <==> !HasPart(doc.parts, id)
    ensures r.Err? ==> r.error == ModelReferenceNotFound
    ensures r.Ok? ==> r.value == doc.(parts := WithoutPart(doc.parts, id))
  {
    var ps := WithoutPart(doc.parts, id);
    WithoutPartLength(doc.parts, id);
    if |ps| == |doc.parts| then Err(ModelReferenceNotFound) else Ok(doc.(parts := ps))
  }

  /** Overwrites the first part with the replacement's id; an error if there is none. */
  function ReplacePart(doc: Document, p: Part): (r: Result<Document, ReasonCode>)
    ensures r.Err? <==> !HasPart(doc.parts, p.id)
    ensures r.Err? ==> r.error == ModelReferenceNotFound
    ensures r.Ok? ==>
      (PartIndex(doc.parts, p.id).Some?
       && r.value == doc.(parts := doc.parts[PartIndex(doc.parts, p.id).value := p]))
  {
    var i := PartIndex(doc.parts, p.id);
    if i.None? then Err(ModelReferenceNotFound) else Ok(doc.(parts := doc.parts[i.value := p]))
  }

  /** Create-part apply then revert restores the document when the id was new. */
  lemma CreatePartRoundTrip(doc: Document, p: Part)
    requires !HasPart(doc.parts, p.id)
    ensures RemovePart(AppendPart(doc, p), p.id) == Ok(doc)
  {
    var d1 := AppendPart(doc, p);
    assert d1.parts[|doc.parts|] == p;
    RemoveAppendedPart(doc.parts, p);
  }

  /**
   * Update apply then revert restores the document when the first part with
   * the id is `before` (the command guarantees the ids agree).
   */
  lemma UpdatePartRoundTrip(doc: Document, before: Part, after: Part)
    requires before.id == after.id
    requires PartIndex(doc.parts, before.id).Some? && doc.parts[PartIndex(doc.parts, before.id).value] == before
    ensures ReplacePart(doc, after).Ok?
    ensures ReplacePart(ReplacePart(doc, after).value, before) == Ok(doc)
  {
    var i := PartIndex(doc.parts, before.id).value;
    var d1 := ReplacePart(doc, after).value;
    assert d1.parts == doc.parts[i := after];
    assert forall j :: 0 <= j < i ==> d1.parts[j] == doc.parts[j];
    FindFirstAt(d1.parts, (x: Part) => x.id == before.id, i);
    assert d1.parts[i := before] == doc.parts;
  }

  /**
   * Delete then undo brings the part back at the end of the list: with the
   * part first of two, the restored list has the other part first.
   */
  lemma DeletePartUndoMovesToEnd(doc: Document, p: Part, q: Part)
    requires doc.parts == [p, q] && p.id != q.id
    ensures RemovePart(doc, p.id).Ok?
    ensures AppendPart(RemovePart(doc, p.id).value, p).parts == [q, p]
  {
    assert HasPart(doc.parts, p.id) by { assert doc.parts[0].id == p.id; }
    assert WithoutPart([q], p.id) == [q];
    assert [p, q] == [p] + [q];
    assert WithoutPart([p, q], p.id) == [q];
  }

  /** Delete then undo restores the document when the part is the last one and its id is unique. */
  lemma DeletePartRoundTrip(doc: Document, ps: seq<Part>, p: Part)
    requires doc.parts == ps + [p] && !HasPart(ps, p.id)
    ensures RemovePart(doc, p.id).Ok?
    ensures AppendPart(RemovePart(doc, p.id).value, p) == doc
  {
    assert HasPart(doc.parts, p.id) by { assert doc.parts[|ps|].id == p.id; }
    RemoveAppendedPart(ps, p);
  }
}
