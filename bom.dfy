/**
 * core/bom/src/lib.rs: the bill of materials.  One row per part, with its
 * material's name and rounded outline measurements, sorted by material name,
 * thickness, part name and part id; and its CSV form: a UTF-8 byte order
 * mark, a 13-column header, then one CRLF-terminated line per row, fields
 * quoted as section 2 of RFC 4180 describes.
 */
module Bom {
  import opened Wrappers
  import opened Json
  import opened Serialize
  import opened Model
  import opened Sorting
  import opened Decimal
  import opened Rounding
  import NestingModel
  import CreatePart
  import EditOps
  import Utf8

  datatype BomRow = BomRow(
    partId: Uuid, partName: string, qty: nat, materialName: string, thickness: real,
    bboxW: Num, bboxH: Num, area: real, perimeter: real, grainDir: Option<real>,
    allowRotate: bool, margin: real, kerf: real)

  // ---------------------------------------------------------------------
  // Rounding
  // ---------------------------------------------------------------------

  /** An infinite measurement stays infinite when rounded. */
  function RoundNum(n: Num, d: nat): Num
  {
    if n.Finite? then Finite(RoundTo(n.v, d)) else NonFinite
  }

  /** `f64::consts::PI`. */
  const PI: real := 3.141592653589793

  function ToDegrees(r: real): real { r * 180.0 / PI }

  // ---------------------------------------------------------------------
  // Outline measurements
  // ---------------------------------------------------------------------

  function Sq(x: real): real { x * x }

  /** The length of the edge from p to q. */
  function EdgeLen(math: Math, p: Vec2, q: Vec2): real
  {
    math.sqrt(Sq(q.x - p.x) + Sq(q.y - p.y))
  }

  /** The edge lengths from vertex i on, each edge closing back to vertex 0. */
  function PerimeterFrom(math: Math, ring: seq<Vec2>, i: nat): real
    requires i <= |ring|
    decreases |ring| - i
  {
    if i == |ring| then 0.0
    else EdgeLen(math, ring[i], ring[(i + 1) % |ring|]) + PerimeterFrom(math, ring, i + 1)
  }

  /**
   * The measurements `metrics` returns: bounding-box width and height, area
   * and perimeter.  An empty outline leaves the running extremes at the
   * infinities, so its width and height are not finite.
   */
  datatype OutlineMetrics = OutlineMetrics(w: Num, h: Num, area: real, perimeter: real)

  function MetricsOf(math: Math, pts: seq<Vec2>): (r: OutlineMetrics)
    ensures r.area >= 0.0
    ensures pts == [] <==> r.w.NonFinite?
    ensures r.w.Finite? ==> r.w.v >= 0.0 && r.h.Finite? && r.h.v >= 0.0
  {
    var area := EditOps.Abs(CreatePart.TwiceArea(pts)) * 0.5;
    var peri := PerimeterFrom(math, pts, 0);
    if pts == [] then OutlineMetrics(NonFinite, NonFinite, area, peri)
    else OutlineMetrics(Finite(NestingModel.Extent(pts).0), Finite(NestingModel.Extent(pts).1), area, peri)
  }

  /** `metrics`: one pass over the edges with running extremes and sums. */
  method Metrics(math: Math, pts: seq<Vec2>) returns (m: OutlineMetrics)
    ensures m == MetricsOf(math, pts)
  {
    var area2 := 0.0;
    var peri := 0.0;
    if pts == [] {
      return OutlineMetrics(NonFinite, NonFinite, EditOps.Abs(area2) * 0.5, peri);
    }
    ghost var xs, ys := NestingModel.Xs(pts), NestingModel.Ys(pts);
    var minX, maxX, minY, maxY := pts[0].x, pts[0].x, pts[0].y, pts[0].y;
    var i := 0;
    while i < |pts|
      invariant 0 <= i <= |pts|
      invariant area2 + CreatePart.ShoelaceFrom(pts, i) == CreatePart.TwiceArea(pts)
      invariant peri + PerimeterFrom(math, pts, i) == PerimeterFrom(math, pts, 0)
      invariant i >= 1 ==> minX == NestingModel.MinOf(xs[..i]) && maxX == NestingModel.MaxOf(xs[..i])
      invariant i >= 1 ==> minY == NestingModel.MinOf(ys[..i]) && maxY == NestingModel.MaxOf(ys[..i])
      invariant i == 0 ==> minX == maxX == pts[0].x && minY == maxY == pts[0].y
    {
      var p := pts[i];
      var q := pts[(i + 1) % |pts|];
      if i >= 1 {
        NestingModel.ExtremesStep(xs, i);
        NestingModel.ExtremesStep(ys, i);
      }
      minX := Min(minX, p.x);
      maxX := Max(maxX, p.x);
      minY := Min(minY, p.y);
      maxY := Max(maxY, p.y);
      area2 := area2 + CreatePart.Cross(p, q);
      peri := peri + EdgeLen(math, p, q);
      i := i + 1;
    }
    assert xs[..i] == xs && ys[..i] == ys;
    m := OutlineMetrics(Finite(maxX - minX), Finite(maxY - minY), EditOps.Abs(area2) * 0.5, peri);
  }

  // ---------------------------------------------------------------------
  // generate_bom
  // ---------------------------------------------------------------------

  /**
   * The material the id map finds: the map is collected from the material
   * list, so of several materials with one id the last is kept.
   */
  function MaterialFor(mats: seq<Material>, id: Uuid): (r: Option<Material>)
    ensures r.None? <==> forall k :: 0 <= k < |mats| ==> mats[k].id != id
    ensures r.Some? ==>
      exists k :: 0 <= k < |mats| && mats[k] == r.value && r.value.id == id
                  && forall j :: k < j < |mats| ==> mats[j].id != id
  {
    if mats == [] then None
    else if mats[|mats| - 1].id == id then Some(mats[|mats| - 1])
    else
      var r := MaterialFor(mats[..|mats| - 1], id);
      MaterialForStep(mats, id, r);
      r
  }

  /** A lookup that skips the last material answers for the whole list as it did for the rest. */
  lemma MaterialForStep(mats: seq<Material>, id: Uuid, r: Option<Material>)
    requires mats != [] && mats[|mats| - 1].id != id
    requires var init := mats[..|mats| - 1];
      (r.None? <==> forall k :: 0 <= k < |init| ==> init[k].id != id)
      && (r.Some? ==>
            exists k :: 0 <= k < |init| && init[k] == r.value && r.value.id == id
                        && forall j :: k < j < |init| ==> init[j].id != id)
    ensures r.None? <==> forall k :: 0 <= k < |mats| ==> mats[k].id != id
    ensures r.Some? ==>
      exists k :: 0 <= k < |mats| && mats[k] == r.value && r.value.id == id
                  && forall j :: k < j < |mats| ==> mats[j].id != id
  {
    var init := mats[..|mats| - 1];
    assert forall k :: 0 <= k < |init| ==> init[k] == mats[k];
    if r.Some? {
      var k :| 0 <= k < |init| && init[k] == r.value && r.value.id == id
               && forall j :: k < j < |init| ==> init[j].id != id;
      assert mats[k] == r.value;
    }
  }

  function RowOf(math: Math, p: Part, m: Material): BomRow
  {
    var om := MetricsOf(math, p.outline.outer);
    BomRow(
      p.id, p.name, p.quantity, m.name, RoundTo(p.thickness, 2),
      RoundNum(om.w, 2), RoundNum(om.h, 2), RoundTo(om.area, 2), RoundTo(om.perimeter, 2),
      if p.grainDir.Some? then Some(RoundTo(ToDegrees(p.grainDir.value), 1)) else None,
      p.allowRotate, RoundTo(p.margin, 2), RoundTo(p.kerf, 2))
  }

  /** MATERIAL_NOT_FOUND, with the part's id and its material id, as hyphenated text, as debug entries. */
  function MissingMaterial(p: Part): (r: Reason)
    ensures r.code == "MATERIAL_NOT_FOUND"
    ensures Get(r.debug, "part_id") == Some(JStr(UuidText(p.id)))
    ensures Get(r.debug, "material_id") == Some(JStr(UuidText(p.materialId)))
  {
    WithDebug(WithDebug(FromCode(MaterialNotFound), "part_id", JStr(UuidText(p.id))), "material_id", JStr(UuidText(p.materialId)))
  }

  /** The rows in part order, or the error for the first part whose material is missing. */
  function BuildRows(math: Math, parts: seq<Part>, mats: seq<Material>): (r: Result<seq<BomRow>, Reason>)
    ensures r.Ok? ==> |r.value| == |parts|
    decreases |parts|
  {
    if parts == [] then Ok([])
    else
      var rest :- BuildRows(math, parts[..|parts| - 1], mats);
      var p := parts[|parts| - 1];
      var m := MaterialFor(mats, p.materialId);
      if m.None? then Err(MissingMaterial(p))
      else Ok(rest + [RowOf(math, p, m.value)])
  }

  predicate HasMaterial(mats: seq<Material>, p: Part)
  {
    MaterialFor(mats, p.materialId).Some?
  }

  /** Rows are built exactly when every part's material exists. */
  lemma {:induction false} BuildRowsOk(math: Math, parts: seq<Part>, mats: seq<Material>)
    ensures BuildRows(math, parts, mats).Ok? <==> forall k :: 0 <= k < |parts| ==> HasMaterial(mats, parts[k])
    decreases |parts|
  {
    if parts != [] {
      var init := parts[..|parts| - 1];
      BuildRowsOk(math, init, mats);
      assert forall k :: 0 <= k < |init| ==> init[k] == parts[k];
    }
  }

  /** Row k describes part k and its material. */
  lemma {:induction false} BuildRowsRows(math: Math, parts: seq<Part>, mats: seq<Material>, k: nat)
    requires BuildRows(math, parts, mats).Ok? && k < |parts|
    ensures HasMaterial(mats, parts[k])
    ensures BuildRows(math, parts, mats).value[k] == RowOf(math, parts[k], MaterialFor(mats, parts[k].materialId).value)
    decreases |parts|
  {
    var init := parts[..|parts| - 1];
    if k < |init| {
      BuildRowsRows(math, init, mats, k);
      assert init[k] == parts[k];
    }
  }

  /** One more part: its row follows the rows of the parts before it, or its missing material fails. */
  lemma BuildRowsStep(math: Math, parts: seq<Part>, mats: seq<Material>, i: nat)
    requires i < |parts|
    ensures BuildRows(math, parts[..i + 1], mats) ==
      if BuildRows(math, parts[..i], mats).Err? then BuildRows(math, parts[..i], mats)
      else if MaterialFor(mats, parts[i].materialId).None? then Err(MissingMaterial(parts[i]))
      else Ok(BuildRows(math, parts[..i], mats).value + [RowOf(math, parts[i], MaterialFor(mats, parts[i].materialId).value)])
  {
    assert parts[..i + 1][..i] == parts[..i];
  }

  /** Once a prefix of the parts fails, the whole list fails the same way. */
  lemma {:induction false} PrefixErrPersists(math: Math, parts: seq<Part>, mats: seq<Material>, i: nat)
    requires i <= |parts| && BuildRows(math, parts[..i], mats).Err?
    ensures BuildRows(math, parts, mats) == BuildRows(math, parts[..i], mats)
    decreases |parts| - i
  {
    if i < |parts| {
      var init := parts[..|parts| - 1];
      assert init[..i] == parts[..i];
      PrefixErrPersists(math, init, mats, i);
    } else {
      assert parts[..i] == parts;
    }
  }

  /** A failing prefix of all but the last part is the failure of the whole list. */
  lemma InitErrIsErr(math: Math, parts: seq<Part>, mats: seq<Material>)
    requires parts != [] && BuildRows(math, parts[..|parts| - 1], mats).Err?
    ensures BuildRows(math, parts, mats) == BuildRows(math, parts[..|parts| - 1], mats)
  {
  }

  /** With all but the last part built, a failure is the last part's missing material. */
  lemma LastErrIsMissing(math: Math, parts: seq<Part>, mats: seq<Material>)
    requires parts != [] && BuildRows(math, parts[..|parts| - 1], mats).Ok? && BuildRows(math, parts, mats).Err?
    ensures !HasMaterial(mats, parts[|parts| - 1])
    ensures BuildRows(math, parts, mats).error == MissingMaterial(parts[|parts| - 1])
  {
  }

  /** A failure names the first part whose material is missing: part k. */
  lemma {:induction false} BuildRowsErr(math: Math, parts: seq<Part>, mats: seq<Material>) returns (k: nat)
    requires BuildRows(math, parts, mats).Err?
    ensures k < |parts| && !HasMaterial(mats, parts[k])
    ensures BuildRows(math, parts, mats).error == MissingMaterial(parts[k])
    ensures forall j :: 0 <= j < k ==> HasMaterial(mats, parts[j])
    decreases |parts|
  {
    var init := parts[..|parts| - 1];
    if BuildRows(math, init, mats).Err? {
      InitErrIsErr(math, parts, mats);
      k := BuildRowsErr(math, init, mats);
      assert init[k] == parts[k];
      forall j | 0 <= j < k
        ensures HasMaterial(mats, parts[j])
      {
        assert init[j] == parts[j];
      }
    } else {
      LastErrIsMissing(math, parts, mats);
      k := |parts| - 1;
      BuildRowsOk(math, init, mats);
      forall j | 0 <= j < k
        ensures HasMaterial(mats, parts[j])
      {
        assert init[j] == parts[j];
      }
    }
  }



  /** The row order: material name, thickness, part name, part id. */
  predicate RowBefore(a: BomRow, b: BomRow)
  {
    if a.materialName != b.materialName then LexLeq(a.materialName, b.materialName)
    else if a.thickness != b.thickness then a.thickness < b.thickness
    else if a.partName != b.partName then LexLeq(a.partName, b.partName)
    else a.partId <= b.partId
  }

  function RowLeq(): (BomRow, BomRow) -> bool
  {
    (a: BomRow, b: BomRow) => RowBefore(a, b)
  }

  lemma RowBeforeTrans(a: BomRow, b: BomRow, c: BomRow)
    requires RowBefore(a, b) && RowBefore(b, c)
    ensures RowBefore(a, c)
  {
    if a.materialName != b.materialName && b.materialName != c.materialName {
      LexLeqTrans(a.materialName, b.materialName, c.materialName);
      if a.materialName == c.materialName {
        LexLeqAntisym(a.materialName, b.materialName);
      }
    } else if a.materialName == b.materialName && b.materialName == c.materialName
           && a.thickness == b.thickness && b.thickness == c.thickness
           && a.partName != b.partName && b.partName != c.partName {
      LexLeqTrans(a.partName, b.partName, c.partName);
      if a.partName == c.partName {
        LexLeqAntisym(a.partName, b.partName);
      }
    }
  }

  lemma RowLeqTotal()
    ensures TotalPreorder(RowLeq())
  {
    forall a: BomRow, b: BomRow
      ensures RowBefore(a, b) || RowBefore(b, a)
    {
      LexLeqTotal(a.materialName, b.materialName);
      LexLeqTotal(a.partName, b.partName);
    }
    forall a: BomRow, b: BomRow, c: BomRow | RowBefore(a, b) && RowBefore(b, c)
      ensures RowBefore(a, c)
    {
      RowBeforeTrans(a, b, c);
    }
  }

  /** generate_bom: the rows in part order, then stably sorted. */
  function GenerateBomSpec(math: Math, doc: Document): Result<seq<BomRow>, Reason>
  {
    var rows :- BuildRows(math, doc.parts, doc.materials);
    Ok(SortBy(rows, RowLeq()))
  }

  /**
   * A bill of materials exists when every part's material does; it then has
   * one row per part, is ordered, and holds each part's row.
   */
  lemma GenerateBomOk(math: Math, doc: Document)
    ensures GenerateBomSpec(math, doc).Ok? <==> forall k :: 0 <= k < |doc.parts| ==> HasMaterial(doc.materials, doc.parts[k])
    ensures GenerateBomSpec(math, doc).Ok? ==>
      var rows := GenerateBomSpec(math, doc).value;
      |rows| == |doc.parts| && SortedBy(rows, RowLeq())
      && multiset(rows) == multiset(BuildRows(math, doc.parts, doc.materials).value)
  {
    BuildRowsOk(math, doc.parts, doc.materials);
    if GenerateBomSpec(math, doc).Ok? {
      RowLeqTotal();
      SortBySorted(BuildRows(math, doc.parts, doc.materials).value, RowLeq());
    }
  }

  /** A missing material is reported with MATERIAL_NOT_FOUND and the first such part's ids. */
  lemma GenerateBomErr(math: Math, doc: Document)
    requires GenerateBomSpec(math, doc).Err?
    ensures GenerateBomSpec(math, doc).error.code == "MATERIAL_NOT_FOUND"
    ensures exists k :: 0 <= k < |doc.parts| && !HasMaterial(doc.materials, doc.parts[k])
                        && GenerateBomSpec(math, doc).error == MissingMaterial(doc.parts[k])
                        && forall j :: 0 <= j < k ==> HasMaterial(doc.materials, doc.parts[j])
  {
    var k := BuildRowsErr(math, doc.parts, doc.materials);
  }

  /** The source's example: a part of material B listed before one of material A; the A row comes first. */
  lemma MaterialOrderExample(math: Math, doc: Document, z: Part, a: Part, mA: Material, mB: Material)
    requires doc.parts == [z, a] && doc.materials == [mA, mB]
    requires mA.name == "A" && mB.name == "B" && mA.id != mB.id
    requires z.materialId == mB.id && a.materialId == mA.id
    ensures GenerateBomSpec(math, doc).Ok?
    ensures GenerateBomSpec(math, doc).value[0].materialName == "A"
    ensures GenerateBomSpec(math, doc).value[1].materialName == "B"
  {
    var rz := RowOf(math, z, mB);
    var ra := RowOf(math, a, mA);
    ExampleRows(math, doc, z, a, mA, mB);
    ExampleSorted(rz, ra);
  }

  /** The example's rows, in part order. */
  lemma ExampleRows(math: Math, doc: Document, z: Part, a: Part, mA: Material, mB: Material)
    requires doc.parts == [z, a] && doc.materials == [mA, mB]
    requires mA.id != mB.id
    requires z.materialId == mB.id && a.materialId == mA.id
    ensures BuildRows(math, doc.parts, doc.materials) == Ok([RowOf(math, z, mB), RowOf(math, a, mA)])
  {
    assert MaterialFor(doc.materials, mB.id) == Some(mB);
    assert MaterialFor(doc.materials, mA.id) == Some(mA);
    var rz := RowOf(math, z, mB);
    var ra := RowOf(math, a, mA);
    assert BuildRows(math, [z], doc.materials) == Ok([rz]) by {
      assert [z][..0] == [];
      assert BuildRows(math, [], doc.materials) == Ok([]);
      assert [] + [rz] == [rz];
    }
    assert doc.parts[..1] == [z];
    assert [rz] + [ra] == [rz, ra];
  }

  /** Sorting puts the row of material A before the row of material B. */
  lemma ExampleSorted(rz: BomRow, ra: BomRow)
    requires rz.materialName == "B" && ra.materialName == "A"
    ensures SortBy([rz, ra], RowLeq()) == [ra, rz]
  {
    assert !RowBefore(rz, ra);
    assert SortBy([ra], RowLeq()) == [ra];
    assert SortBy([rz, ra], RowLeq()) == Insert(rz, [ra], RowLeq()) by {
      assert [rz, ra][1..] == [ra];
    }
    assert Insert(rz, [ra], RowLeq()) == [ra, rz];
  }

  /** generate_bom as its loop runs: rows pushed in part order, then sorted. */
  method GenerateBom(math: Math, doc: Document) returns (r: Result<seq<BomRow>, Reason>)
    ensures r == GenerateBomSpec(math, doc)
  {
    var rows: seq<BomRow> := [];
    for i := 0 to |doc.parts|
      invariant BuildRows(math, doc.parts[..i], doc.materials) == Ok(rows)
    {
      var p := doc.parts[i];
      var m := MaterialFor(doc.materials, p.materialId);
      BuildRowsStep(math, doc.parts, doc.materials, i);
      if m.None? {
        PrefixErrPersists(math, doc.parts, doc.materials, i + 1);
        return Err(MissingMaterial(p));
      }
      var row := MakeRow(math, p, m.value);
      rows := rows + [row];
    }
    assert doc.parts[..|doc.parts|] == doc.parts;
    r := Ok(SortBy(rows, RowLeq()));
  }

  /** One row: the outline measured, the numbers rounded. */
  method MakeRow(math: Math, p: Part, m: Material) returns (row: BomRow)
    ensures row == RowOf(math, p, m)
  {
    var om := Metrics(math, p.outline.outer);
    var grain := if p.grainDir.Some? then Some(RoundTo(ToDegrees(p.grainDir.value), 1)) else None;
    row := BomRow(
      p.id, p.name, p.quantity, m.name, RoundTo(p.thickness, 2),
      RoundNum(om.w, 2), RoundNum(om.h, 2), RoundTo(om.area, 2), RoundTo(om.perimeter, 2),
      grain, p.allowRotate, RoundTo(p.margin, 2), RoundTo(p.kerf, 2));
  }

  // ---------------------------------------------------------------------
  // CSV
  // ---------------------------------------------------------------------

  predicate NeedsQuoting(s: string, d: char)
  {
    d in s || '"' in s || '\n' in s || '\r' in s
  }

  /** Each quote written twice. */
  function DoubleQuotes(s: string): (r: string)
    ensures |r| >= |s|
  {
    if s == [] then []
    else if s[0] == '"' then "\"\"" + DoubleQuotes(s[1..])
    else [s[0]] + DoubleQuotes(s[1..])
  }

  /** `csv_escape`: a field needing quotes is wrapped in quotes with inner quotes doubled. */
  function CsvEscape(s: string, d: char): string
  {
    if !NeedsQuoting(s, d) then s else "\"" + DoubleQuotes(s) + "\""
  }

  /** Reads a doubled quote back as one. */
  function Undouble(s: string): string
  {
    if s == [] then []
    else if |s| >= 2 && s[0] == '"' && s[1] == '"' then "\"" + Undouble(s[2..])
    else [s[0]] + Undouble(s[1..])
  }

  /** A CSV reader's view of one field: a quoted field loses its quotes and its doubled quotes. */
  function CsvUnescape(f: string): string
  {
    if |f| >= 2 && f[0] == '"' && f[|f| - 1] == '"' then Undouble(f[1..|f| - 1]) else f
  }

  lemma {:induction false} UndoubleDoubleQuotes(s: string)
    ensures Undouble(DoubleQuotes(s)) == s
    decreases |s|
  {
    if s != [] {
      UndoubleDoubleQuotes(s[1..]);
      if s[0] == '"' {
        assert ("\"\"" + DoubleQuotes(s[1..]))[2..] == DoubleQuotes(s[1..]);
      } else {
        assert ([s[0]] + DoubleQuotes(s[1..]))[1..] == DoubleQuotes(s[1..]);
      }
    }
  }

  /** Escaping loses nothing: a reader recovers the text. */
  lemma CsvEscapeRoundTrip(s: string, d: char)
    ensures CsvUnescape(CsvEscape(s, d)) == s
  {
    if NeedsQuoting(s, d) {
      var f := "\"" + DoubleQuotes(s) + "\"";
      assert f[1..|f| - 1] == DoubleQuotes(s);
      UndoubleDoubleQuotes(s);
    } else if |s| >= 2 {
      assert s[0] in s;
    }
  }

  /** A field is written as it is exactly when it holds no delimiter, quote, CR or LF. */
  lemma CsvEscapeIdentity(s: string, d: char)
    ensures CsvEscape(s, d) == s <==> !NeedsQuoting(s, d)
  {
  }

  /** `join`: the fields with the delimiter between them. */
  function Join(fields: seq<string>, d: char): string
  {
    if fields == [] then ""
    else if |fields| == 1 then fields[0]
    else fields[0] + [d] + Join(fields[1..], d)
  }

  /** Splitting at every delimiter, the inverse of Join for fields free of it. */
  function SplitOn(s: string, d: char): (r: seq<string>)
    ensures |r| >= 1
  {
    if s == [] then [""]
    else if s[0] == d then [""] + SplitOn(s[1..], d)
    else
      var rest := SplitOn(s[1..], d);
      [[s[0]] + rest[0]] + rest[1..]
  }

  lemma {:induction false} SplitField(f: string, d: char, tail: Option<string>)
    requires d !in f
    ensures tail.None? ==> SplitOn(f, d) == [f]
    ensures tail.Some? ==> SplitOn(f + [d] + tail.value, d) == [f] + SplitOn(tail.value, d)
    decreases |f|
  {
    if f != [] {
      SplitField(f[1..], d, tail);
      if tail.Some? {
        assert (f + [d] + tail.value)[1..] == f[1..] + [d] + tail.value;
      }
      assert f == [f[0]] + f[1..];
    } else if tail.Some? {
      assert f + [d] + tail.value == [d] + tail.value;
    }
  }

  lemma {:induction false} SplitJoin(fields: seq<string>, d: char)
    requires fields != [] && forall k :: 0 <= k < |fields| ==> d !in fields[k]
    ensures SplitOn(Join(fields, d), d) == fields
    decreases |fields|
  {
    if |fields| == 1 {
      SplitField(fields[0], d, None);
    } else {
      var rest := fields[1..];
      assert forall k :: 0 <= k < |rest| ==> d !in rest[k] by {
        forall k | 0 <= k < |rest| ensures d !in rest[k] { assert rest[k] == fields[k + 1]; }
      }
      SplitJoin(rest, d);
      assert d !in fields[0];
      SplitField(fields[0], d, Some(Join(rest, d)));
      assert Join(fields, d) == fields[0] + [d] + Join(rest, d);
      assert [fields[0]] + rest == fields;
    }
  }

  const HEADER: seq<string> := [
    "part_id", "part_name", "qty", "material_name", "thickness", "bbox_w", "bbox_h",
    "area", "perimeter", "grain_dir", "allow_rotate", "margin", "kerf"]

  /** With a delimiter that no column name contains, the header splits back into its 13 names. */
  lemma HeaderColumns(d: char)
    requires forall k :: 0 <= k < |HEADER| ==> d !in HEADER[k]
    ensures |SplitOn(Join(HEADER, d), d)| == 13 && SplitOn(Join(HEADER, d), d) == HEADER
  {
    SplitJoin(HEADER, d);
  }

  /** How the source's format strings render numbers: `{:.2}` and `{:.1}`. */
  datatype Formats = Formats(fixed2: Num -> string, fixed1: real -> string)

  function BoolStr(b: bool): string { if b then "true" else "false" }

  function Cells(r: BomRow, d: char, f: Formats): (c: seq<string>)
    ensures |c| == |HEADER|
  {
    [CsvEscape(UuidText(r.partId), d), CsvEscape(r.partName, d), NatStr(r.qty), CsvEscape(r.materialName, d),
     f.fixed2(Finite(r.thickness)), f.fixed2(r.bboxW), f.fixed2(r.bboxH), f.fixed2(Finite(r.area)),
     f.fixed2(Finite(r.perimeter)), if r.grainDir.Some? then f.fixed1(r.grainDir.value) else "",
     BoolStr(r.allowRotate), f.fixed2(Finite(r.margin)), f.fixed2(Finite(r.kerf))]
  }

  const CRLF := "\r\n"

  function RowLine(r: BomRow, d: char, f: Formats): string
  {
    Join(Cells(r, d, f), d) + CRLF
  }

  /** The lines of the rows, in row order. */
  function RowLines(rows: seq<BomRow>, d: char, f: Formats): string
  {
    if rows == [] then "" else RowLines(rows[..|rows| - 1], d, f) + RowLine(rows[|rows| - 1], d, f)
  }

  const UTF8_BOM: seq<Utf8.Byte> := [0xEF, 0xBB, 0xBF]

  function CsvText(rows: seq<BomRow>, d: char, f: Formats): string
  {
    Join(HEADER, d) + CRLF + RowLines(rows, d, f)
  }

  /** write_bom_csv: the byte order mark, then the text in UTF-8. */
  function CsvBytes(rows: seq<BomRow>, d: char, f: Formats): seq<Utf8.Byte>
  {
    UTF8_BOM + Utf8.EncodeString(CsvText(rows, d, f))
  }

  /** The bytes open with the byte order mark, the encoding of U+FEFF, and end with CRLF. */
  lemma CsvFraming(rows: seq<BomRow>, d: char, f: Formats)
    ensures CsvBytes(rows, d, f)[..3] == Utf8.Encode('\U{FEFF}')
    ensures var t := CsvText(rows, d, f); |t| >= 2 && t[|t| - 2..] == CRLF
  {
    Utf8.ByteOrderMark();
    var t := CsvText(rows, d, f);
    if rows == [] {
      assert t == Join(HEADER, d) + CRLF;
    } else {
      assert t == (Join(HEADER, d) + CRLF + RowLines(rows[..|rows| - 1], d, f)) + (Join(Cells(rows[|rows| - 1], d, f), d) + CRLF);
    }
  }

  lemma ConcatAssoc(a: string, b: string, c: string, e: string)
    ensures a + b + c + e == a + (b + (c + e))
  {
  }

  /** One more row: its line and CRLF follow the text of the rows before it. */
  lemma TextStep(pre: string, rows: seq<BomRow>, i: nat, d: char, f: Formats)
    requires i < |rows|
    ensures pre + RowLines(rows[..i + 1], d, f) == pre + RowLines(rows[..i], d, f) + Join(Cells(rows[i], d, f), d) + CRLF
  {
    assert rows[..i + 1][..i] == rows[..i];
    ConcatAssoc(pre, RowLines(rows[..i], d, f), Join(Cells(rows[i], d, f), d), CRLF);
  }

  lemma EncodedLineStep(out: seq<Utf8.Byte>, text: string, line: string)
    requires out == UTF8_BOM + Utf8.EncodeString(text)
    ensures out + Utf8.EncodeString(line) + Utf8.EncodeString(CRLF) == UTF8_BOM + Utf8.EncodeString(text + line + CRLF)
  {
    var t, l, c := Utf8.EncodeString(text), Utf8.EncodeString(line), Utf8.EncodeString(CRLF);
    Utf8.EncodeAppend(text, line);
    Utf8.EncodeAppend(text + line, CRLF);
    calc {
      out + l + c;
      { AppendAssoc(UTF8_BOM, t, l); }
      UTF8_BOM + (t + l) + c;
      { AppendAssoc(UTF8_BOM, t + l, c); }
      UTF8_BOM + (t + l + c);
    }
  }

  lemma AppendAssoc<T>(a: seq<T>, b: seq<T>, c: seq<T>)
    ensures a + b + c == a + (b + c)
  {
  }

  /** write_bom_csv as its loop runs: header, then each row's line appended as bytes. */
  method WriteBomCsv(rows: seq<BomRow>, d: char, f: Formats) returns (out: seq<Utf8.Byte>)
    ensures out == CsvBytes(rows, d, f)
  {
    var header := Join(HEADER, d);
    out := UTF8_BOM;
    out := out + Utf8.EncodeString(header);
    out := out + Utf8.EncodeString(CRLF);
    Utf8.EncodeAppend(header, CRLF);
    ghost var pre := header + CRLF;
    ghost var text := pre;
    assert rows[..0] == [];
    assert pre + RowLines([], d, f) == pre;
    for i := 0 to |rows|
      invariant out == UTF8_BOM + Utf8.EncodeString(text)
      invariant text == pre + RowLines(rows[..i], d, f)
    {
      var line := Join(Cells(rows[i], d, f), d);
      TextStep(pre, rows, i, d, f);
      EncodedLineStep(out, text, line);
      out := out + Utf8.EncodeString(line);
      out := out + Utf8.EncodeString(CRLF);
      text := text + line + CRLF;
    }
    assert rows[..|rows|] == rows;
    assert CsvText(rows, d, f) == pre + RowLines(rows, d, f);
  }
}
