/**
 * The document model of core/serialize/src/lib.rs: layers, entities with 2D
 * geometry, parts, nesting jobs and materials.  Coordinates are exact reals;
 * every number stored in a document is finite (documents are read from JSON,
 * which has no NaN or infinity), while numbers handed to commands may not be,
 * so command inputs use `Num`.
 */
module Model {
  import opened Wrappers
  import opened Json
  import opened Serialize
  import opened Seqs

  /**
   * A v4 UUID as its 128-bit value.  The kernel only compares them; where
   * one is written into JSON it takes serde's form, the hyphenated text.
   */
  type Uuid = nat

  /** 16^n. */
  function Pow16(n: nat): (r: nat)
    ensures r >= 1
  {
    if n == 0 then 1 else 16 * Pow16(n - 1)
  }

  /** A lower-case hexadecimal digit, as the uuid crate writes them. */
  function HexDigit(v: nat): char
    requires v < 16
  {
    "0123456789abcdef"[v]
  }

  /** The value of a hexadecimal digit; the inverse of HexDigit. */
  function HexValue(c: char): nat
  {
    if '0' <= c <= '9' then c as nat - '0' as nat
    else if 'a' <= c <= 'f' then c as nat - 'a' as nat + 10
    else 0
  }

  lemma HexDigitValue(v: nat)
    requires v < 16
    ensures HexValue(HexDigit(v)) == v
  {
  }

  /** The n low hexadecimal digits of x, most significant first. */
  function HexDigits(x: nat, n: nat): (s: string)
    ensures |s| == n
  {
    if n == 0 then [] else HexDigits(x / 16, n - 1) + [HexDigit(x % 16)]
  }

  /** The number a string of hexadecimal digits spells. */
  function HexNumber(s: string): nat
  {
    if s == [] then 0 else 16 * HexNumber(s[..|s| - 1]) + HexValue(s[|s| - 1])
  }

  /** Digits enough for x spell x back. */
  lemma {:induction false} HexDigitsValue(x: nat, n: nat)
    requires x < Pow16(n)
    ensures HexNumber(HexDigits(x, n)) == x
  {
    if n > 0 {
      var s := HexDigits(x, n);
      assert s[..|s| - 1] == HexDigits(x / 16, n - 1);
      HexDigitsValue(x / 16, n - 1);
      HexDigitValue(x % 16);
    }
  }

  /** The hyphenated form of a Uuid: 32 lower-case hexadecimal digits grouped 8-4-4-4-12. */
  function UuidText(id: Uuid): (s: string)
    ensures |s| == 36 && s[8] == '-' && s[13] == '-' && s[18] == '-' && s[23] == '-'
  {
    var h := HexDigits(id, 32);
    h[..8] + "-" + h[8..12] + "-" + h[12..16] + "-" + h[16..20] + "-" + h[20..]
  }

  /** The digits of a hyphenated Uuid, hyphens dropped. */
  function UuidDigits(s: string): string
    requires |s| == 36
  {
    s[..8] + s[9..13] + s[14..18] + s[19..23] + s[24..]
  }

  /** A Uuid's text reads back as the Uuid, so distinct Uuids are written differently. */
  lemma UuidTextRoundTrip(id: Uuid)
    requires id < Pow16(32)
    ensures HexNumber(UuidDigits(UuidText(id))) == id
  {
    var h := HexDigits(id, 32);
    var t := UuidText(id);
    assert t[..8] == h[..8] && t[9..13] == h[8..12] && t[14..18] == h[12..16] && t[19..23] == h[16..20] && t[24..] == h[20..];
    assert h == h[..8] + h[8..12] + h[12..16] + h[16..20] + h[20..];
    HexDigitsValue(id, 32);
  }

  lemma UuidTextInjective(a: Uuid, b: Uuid)
    requires a < Pow16(32) && b < Pow16(32) && a != b
    ensures UuidText(a) != UuidText(b)
  {
    UuidTextRoundTrip(a);
    UuidTextRoundTrip(b);
  }

  /** An IEEE double as far as the kernel's `is_finite` guards see it. */
  datatype Num = Finite(v: real) | NonFinite

  /** A point whose coordinates may be non-finite (a command input). */
  datatype InPoint = InPoint(x: Num, y: Num)

  predicate FinitePoint(p: InPoint) { p.x.Finite? && p.y.Finite? }

  function ToVec2(p: InPoint): Vec2
    requires FinitePoint(p)
  {
    Vec2(p.x.v, p.y.v)
  }

  /**
   * The floating-point library the kernel calls and the model does not
   * define: cosine, sine, square root and atan2 are uninterpreted.
   */
  datatype Math = Math(cos: real -> real, sin: real -> real, sqrt: real -> real, atan2: (real, real) -> real)

  datatype Vec2 = Vec2(x: real, y: real)

  /** `f64::min` and `f64::max` on finite values. */
  function Min(a: real, b: real): real { if a <= b then a else b }
  function Max(a: real, b: real): real { if a <= b then b else a }

  datatype Geom2D =
    | Line(a: Vec2, b: Vec2)
    | Circle(c: Vec2, r: real)
    | Arc(c: Vec2, r: real, startAngle: real, endAngle: real, ccw: bool)
    | Polyline(pts: seq<Vec2>, closed: bool)

  datatype Layer = Layer(id: Uuid, name: string, visible: bool, locked: bool, editable: bool)

  /** Visible, unlocked and editable: the only layers edits may touch. */
  predicate Editable(l: Layer) { l.visible && !l.locked && l.editable }

  datatype Entity = Entity(id: Uuid, layerId: Uuid, geom: Geom2D, style: Json, tags: seq<string>, meta: seq<Member>)

  datatype Polygon2D = Polygon2D(outer: seq<Vec2>, holes: seq<seq<Vec2>>)

  datatype Part = Part(
    id: Uuid, name: string, outline: Polygon2D, thickness: real, quantity: nat,
    materialId: Uuid, grainDir: Option<real>, allowRotate: bool, margin: real, kerf: real)

  datatype MaterialCategory = Wood | Leather | Other
  datatype SheetDefault = SheetDefault(width: real, height: real, quantity: nat)
  datatype Material = Material(
    id: Uuid, name: string, category: MaterialCategory, thicknessMm: Option<real>,
    sheetDefault: Option<SheetDefault>, notes: string)

  datatype SheetDef = SheetDef(id: Uuid, materialId: Uuid, width: real, height: real, quantity: nat)
  datatype GrainPolicy = Strict | Prefer | Ignore
  datatype NoGoZone = NoGoRect(x: real, y: real, width: real, height: real)
  datatype NestConstraints = NestConstraints(
    globalMargin: real, globalKerf: real, allowRotateDefault: bool,
    noGoZones: seq<NoGoZone>, grainPolicy: GrainPolicy)
  datatype NestObjective = NestObjective(wUtilization: real, wSheetCount: real, wCutCount: real)
  datatype PartRef = PartRef(partId: Uuid, quantityOverride: Option<nat>)
  datatype BBox = BBox(minX: real, minY: real, maxX: real, maxY: real)
  datatype Placement = Placement(
    partId: Uuid, sheetInstanceIndex: nat, x: real, y: real, rotationDeg: real, bbox: BBox)
  datatype NestMetrics = NestMetrics(
    utilizationPerSheet: seq<real>, sheetCountUsed: nat, cutCountEstimate: nat, score: real)
  datatype PlacementStatusKind = Placed | Unplaced
  datatype PartPlacementStatus = PartPlacementStatus(partId: Uuid, status: PlacementStatusKind, reason: Option<Reason>)
  datatype NestResult = NestResult(placements: seq<Placement>, metrics: NestMetrics, perPartStatus: seq<PartPlacementStatus>)
  datatype TraceBestUpdate = TraceBestUpdate(iter: nat, score: real, sheetUsed: nat, utilization: real)
  datatype NestTrace = NestTrace(
    seed: nat, iterations: nat, timeMs: nat, stopReason: string,
    bestUpdates: seq<TraceBestUpdate>, failureStats: map<string, nat>)
  datatype NestJob = NestJob(
    id: Uuid, sheetDefs: seq<SheetDef>, partsRef: seq<PartRef>, constraints: NestConstraints,
    objective: NestObjective, seed: nat, result: Option<NestResult>, trace: Option<NestTrace>)

  datatype ProjectSettings = ProjectSettings(bomDelimiter: Option<string>)

  datatype Document = Document(
    schemaVersion: nat, id: Uuid, units: string, layers: seq<Layer>, entities: seq<Entity>,
    parts: seq<Part>, jobs: seq<NestJob>, materials: seq<Material>, settings: ProjectSettings)

  /** The first entity with this id (`entities.iter().find`). */
  function EntityIndex(es: seq<Entity>, id: Uuid): Option<nat>
  {
    FindFirst(es, (e: Entity) => e.id == id)
  }

  function LayerIndex(ls: seq<Layer>, id: Uuid): Option<nat>
  {
    FindFirst(ls, (l: Layer) => l.id == id)
  }

  function PartIndex(ps: seq<Part>, id: Uuid): Option<nat>
  {
    FindFirst(ps, (p: Part) => p.id == id)
  }

  function JobIndex(js: seq<NestJob>, id: Uuid): Option<nat>
  {
    FindFirst(js, (j: NestJob) => j.id == id)
  }

  predicate HasLayer(doc: Document, id: Uuid)
  {
    exists i :: 0 <= i < |doc.layers| && doc.layers[i].id == id
  }

  predicate HasEntity(es: seq<Entity>, id: Uuid)
  {
    exists i :: 0 <= i < |es| && es[i].id == id
  }

  predicate HasPart(ps: seq<Part>, id: Uuid)
  {
    exists i :: 0 <= i < |ps| && ps[i].id == id
  }

  /** `retain(|e| e.id != id)` on the entity list. */
  function WithoutEntity(es: seq<Entity>, id: Uuid): seq<Entity>
  {
    Filter(es, (e: Entity) => e.id != id)
  }

  function WithoutPart(ps: seq<Part>, id: Uuid): seq<Part>
  {
    Filter(ps, (p: Part) => p.id != id)
  }

  /** Removing an id that is absent changes nothing; removing a present one shortens the list. */
  lemma WithoutEntityLength(es: seq<Entity>, id: Uuid)
    ensures |WithoutEntity(es, id)| == |es| <==> !HasEntity(es, id)
    ensures !HasEntity(es, id) ==> WithoutEntity(es, id) == es
  {
    FilterSameLength(es, (e: Entity) => e.id != id);
    if !HasEntity(es, id) {
      FilterAllKept(es, (e: Entity) => e.id != id);
    }
  }

  lemma WithoutPartLength(ps: seq<Part>, id: Uuid)
    ensures |WithoutPart(ps, id)| == |ps| <==> !HasPart(ps, id)
    ensures !HasPart(ps, id) ==> WithoutPart(ps, id) == ps
  {
    FilterSameLength(ps, (p: Part) => p.id != id);
    if !HasPart(ps, id) {
      FilterAllKept(ps, (p: Part) => p.id != id);
    }
  }

  /** Appending an entity with a fresh id and removing that id restores the list. */
  lemma {:induction false} RemoveAppendedEntity(es: seq<Entity>, e: Entity)
    requires !HasEntity(es, e.id)
    ensures WithoutEntity(es + [e], e.id) == es
  {
    FilterAppend(es, [e], (x: Entity) => x.id != e.id);
    WithoutEntityLength(es, e.id);
  }

  lemma {:induction false} RemoveAppendedPart(ps: seq<Part>, p: Part)
    requires !HasPart(ps, p.id)
    ensures WithoutPart(ps + [p], p.id) == ps
  {
    FilterAppend(ps, [p], (x: Part) => x.id != p.id);
    WithoutPartLength(ps, p.id);
  }

  /** Two entity lists with the same ids, position by position. */
  predicate SameIds(es: seq<Entity>, fs: seq<Entity>)
  {
    |es| == |fs| && forall k :: 0 <= k < |es| ==> es[k].id == fs[k].id
  }

  /** Lookup by id only sees the ids. */
  lemma EntityIndexSameIds(es: seq<Entity>, fs: seq<Entity>, id: Uuid)
    requires SameIds(es, fs)
    ensures EntityIndex(es, id) == EntityIndex(fs, id)
  {
    FindFirstSame(es, (e: Entity) => e.id == id, fs, (e: Entity) => e.id == id);
  }
}
