/**
 * core/crates/drawing_style/src/lib.rs: turning dimension and annotation
 * specifications into an ordered list of render commands.  Dimensions are
 * sorted by id and emitted first, each checked for degenerate geometry;
 * annotations follow, sorted by id, their text checked for length and
 * control characters.  The first failing item decides the error.
 */
module DrawingStyle {
  import opened Wrappers
  import opened Model
  import opened Sorting
  import Bom
  import opened Rounding

  /** The parts of the style preset the plan reads. */
  datatype Style = Style(epsilon: real, metricDecimals: nat, collisionStepMm: real)

  datatype DimensionSpec =
    | Linear(id: string, start: Vec2, end: Vec2, baseline: bool)
    | Angular(id: string, center: Vec2, p1: Vec2, p2: Vec2)
    | Radius(id: string, center: Vec2, edge: Vec2)
    | Diameter(id: string, p1: Vec2, p2: Vec2)

  datatype AnnotationSpec =
    | Text(id: string, at: Vec2, value: string)
    | Leader(id: string, anchor: Vec2, textAt: Vec2, value: string)
    | HoleCallout(id: string, at: Vec2, diameter: real)
    | ChamferCallout(id: string, at: Vec2, size: real, angleDeg: real)

  datatype RenderCommand =
    | DimensionLine(key: string, from: Vec2, to: Vec2)
    | DimensionText(key: string, at: Vec2, value: string)
    | AnnotationText(key: string, at: Vec2, value: string)
    | LeaderLine(key: string, from: Vec2, to: Vec2)

  const ZERO_LENGTH := "CAD_DIMENSION_ZERO_LENGTH"
  const GEOMETRY_INSUFFICIENT := "CAD_DIMENSION_GEOMETRY_INSUFFICIENT"
  const TEXT_TOO_LONG := "CAD_ANNOT_TEXT_TOO_LONG"
  const UNSUPPORTED_CHAR := "CAD_ANNOT_UNSUPPORTED_CHAR"

  /** The longest annotation text, in characters. */
  const MAX_TEXT_CHARS := 120

  // ---------------------------------------------------------------------
  // Annotation text
  // ---------------------------------------------------------------------

  /** `char::is_control`: the Unicode control characters U+0000–U+001F and U+007F–U+009F. */
  predicate IsControl(c: char)
  {
    c <= '\U{1F}' || ('\U{7F}' <= c <= '\U{9F}')
  }

  /** A control character other than line feed and tab. */
  predicate Unsupported(c: char)
  {
    IsControl(c) && c != '\n' && c != '\t'
  }

  function HasUnsupported(value: string): (b: bool)
    ensures b <==> exists k :: 0 <= k < |value| && Unsupported(value[k])
  {
    if value == [] then false
    else
      assert forall k :: 1 <= k < |value| ==> value[k] == value[1..][k - 1];
      Unsupported(value[0]) || HasUnsupported(value[1..])
  }

  /**
   * validate_annotation_text: over 120 characters is too long; otherwise a
   * control character other than line feed and tab is unsupported.
   */
  function ValidateText(value: string): (r: Result<(), string>)
    ensures r.Ok? <==> |value| <= MAX_TEXT_CHARS && forall k :: 0 <= k < |value| ==> !Unsupported(value[k])
    ensures |value| > MAX_TEXT_CHARS ==> r == Err(TEXT_TOO_LONG)
    ensures |value| <= MAX_TEXT_CHARS && (exists k :: 0 <= k < |value| && Unsupported(value[k])) ==>
      r == Err(UNSUPPORTED_CHAR)
  {
    if |value| > MAX_TEXT_CHARS then Err(TEXT_TOO_LONG)
    else if HasUnsupported(value) then Err(UNSUPPORTED_CHAR)
    else Ok(())
  }

  // ---------------------------------------------------------------------
  // Points
  // ---------------------------------------------------------------------

  function RoundPoint(p: Vec2, d: nat): Vec2
  {
    Vec2(RoundTo(p.x, d), RoundTo(p.y, d))
  }

  /** The point moved up by y: the lane a linear dimension is drawn in. */
  function Shift(p: Vec2, y: real): Vec2 { Vec2(p.x, p.y + y) }

  function Mid(a: Vec2, b: Vec2): Vec2 { Vec2((a.x + b.x) * 0.5, (a.y + b.y) * 0.5) }

  // ---------------------------------------------------------------------
  // Commands
  // ---------------------------------------------------------------------


  predicate DimLeq(a: DimensionSpec, b: DimensionSpec) { LexLeq(a.id, b.id) }
  predicate AnnLeq(a: AnnotationSpec, b: AnnotationSpec) { LexLeq(a.id, b.id) }

  /** The geometry check a dimension must pass, and the code it fails with. */
  function DimCheck(math: Math, style: Style, d: DimensionSpec): Option<string>
  {
    match d
    case Linear(_, s, e, _) => if Bom.EdgeLen(math, s, e) <= style.epsilon then Some(ZERO_LENGTH) else None
    case Angular(_, c, p1, p2) =>
      if Bom.EdgeLen(math, c, p1) <= style.epsilon || Bom.EdgeLen(math, c, p2) <= style.epsilon
      then Some(GEOMETRY_INSUFFICIENT) else None
    case Radius(_, c, e) => if Bom.EdgeLen(math, c, e) <= style.epsilon then Some(GEOMETRY_INSUFFICIENT) else None
    case Diameter(_, p1, p2) => if Bom.EdgeLen(math, p1, p2) <= style.epsilon then Some(ZERO_LENGTH) else None
  }

  /**
   * The command of the dimension at position idx of the sorted list.  `fmt`
   * is Rust's `{}` rendering of an `f64`.  A linear dimension is lifted into
   * lane idx, idx collision steps up.
   */
  function DimCommand(math: Math, fmt: real -> string, style: Style, idx: nat, d: DimensionSpec): (r: Result<RenderCommand, string>)
    ensures r.Ok? <==> DimCheck(math, style, d).None?
    ensures r.Err? ==> Some(r.error) == DimCheck(math, style, d)
    ensures r.Ok? ==> r.value.key == d.id && (r.value.DimensionLine? <==> d.Linear?)
  {
    var dec := style.metricDecimals;
    if DimCheck(math, style, d).Some? then Err(DimCheck(math, style, d).value)
    else
      match d
      case Linear(id, s, e, _) =>
        var lane := idx as real * style.collisionStepMm;
        Ok(DimensionLine(id, RoundPoint(Shift(s, lane), dec), RoundPoint(Shift(e, lane), dec)))
      case Angular(id, c, p1, p2) =>
        Ok(DimensionText(id, RoundPoint(c, dec), fmt(RoundTo(Bom.EdgeLen(math, p1, p2), dec)) + "°"))
      case Radius(id, c, e) =>
        Ok(DimensionText(id, RoundPoint(e, dec), "R" + fmt(RoundTo(Bom.EdgeLen(math, c, e), dec))))
      case Diameter(id, p1, p2) =>
        Ok(DimensionText(id, RoundPoint(Mid(p1, p2), dec), "⌀" + fmt(RoundTo(Bom.EdgeLen(math, p1, p2), dec))))
  }

  /** The commands of a list of dimensions in order; the first failing one decides the error. */
  function DimPlan(math: Math, fmt: real -> string, style: Style, ds: seq<DimensionSpec>): Result<seq<RenderCommand>, string>
  {
    if ds == [] then Ok([])
    else
      var init :- DimPlan(math, fmt, style, ds[..|ds| - 1]);
      var c :- DimCommand(math, fmt, style, |ds| - 1, ds[|ds| - 1]);
      Ok(init + [c])
  }

  /** The text an annotation must pass: Text and Leader carry free text, callouts none. */
  function AnnCheck(a: AnnotationSpec): Result<(), string>
  {
    if a.Text? || a.Leader? then ValidateText(a.value) else Ok(())
  }

  /** The commands of one annotation: a leader draws its line, then its text, under its id. */
  function AnnCommands(fmt: real -> string, style: Style, a: AnnotationSpec): (r: Result<seq<RenderCommand>, string>)
    ensures r.Ok? <==> AnnCheck(a).Ok?
    ensures r.Err? ==> r.error == AnnCheck(a).error
    ensures r.Ok? ==> |r.value| == (if a.Leader? then 2 else 1)
    ensures r.Ok? ==> forall k :: 0 <= k < |r.value| ==> r.value[k].key == a.id
    ensures r.Ok? && a.Leader? ==>
      r.value[0].LeaderLine? && r.value[1].AnnotationText? && r.value[1].value == a.value
    ensures r.Ok? && !a.Leader? ==> r.value[0].AnnotationText?
  {
    var dec := style.metricDecimals;
    var _ :- AnnCheck(a);
    match a
    case Text(id, at, value) => Ok([AnnotationText(id, RoundPoint(at, dec), value)])
    case Leader(id, anchor, textAt, value) =>
      Ok([LeaderLine(id, RoundPoint(anchor, dec), RoundPoint(textAt, dec)),
          AnnotationText(id, RoundPoint(textAt, dec), value)])
    case HoleCallout(id, at, diameter) =>
      Ok([AnnotationText(id, RoundPoint(at, dec), "⌀" + fmt(RoundTo(diameter, dec)))])
    case ChamferCallout(id, at, size, angleDeg) =>
      Ok([AnnotationText(id, RoundPoint(at, dec), "C" + fmt(RoundTo(size, 2)) + "x" + fmt(RoundTo(angleDeg, 1)) + "°")])
  }

  function AnnPlan(fmt: real -> string, style: Style, as_: seq<AnnotationSpec>): Result<seq<RenderCommand>, string>
  {
    if as_ == [] then Ok([])
    else
      var init :- AnnPlan(fmt, style, as_[..|as_| - 1]);
      var cs :- AnnCommands(fmt, style, as_[|as_| - 1]);
      Ok(init + cs)
  }

  /** build_render_plan: the sorted dimensions' commands, then the sorted annotations'. */
  function RenderPlanOf(math: Math, fmt: real -> string, style: Style, dims: seq<DimensionSpec>, anns: seq<AnnotationSpec>)
    : Result<seq<RenderCommand>, string>
  {
    var dc :- DimPlan(math, fmt, style, SortBy(dims, DimLeq));
    var ac :- AnnPlan(fmt, style, SortBy(anns, AnnLeq));
    Ok(dc + ac)
  }

  // ---------------------------------------------------------------------
  // Properties of the plan
  // ---------------------------------------------------------------------

  /** The keys a list of annotations contributes: a leader's id twice. */
  function AnnKeys(as_: seq<AnnotationSpec>): seq<string>
  {
    if as_ == [] then [] else AnnKeys(as_[..|as_| - 1]) + (if as_[|as_| - 1].Leader? then [as_[|as_| - 1].id, as_[|as_| - 1].id] else [as_[|as_| - 1].id])
  }

  function Ids(ds: seq<DimensionSpec>): (r: seq<string>)
    ensures |r| == |ds| && forall k :: 0 <= k < |ds| ==> r[k] == ds[k].id
  {
    if ds == [] then [] else Ids(ds[..|ds| - 1]) + [ds[|ds| - 1].id]
  }

  function Keys(cs: seq<RenderCommand>): (r: seq<string>)
    ensures |r| == |cs| && forall k :: 0 <= k < |cs| ==> r[k] == cs[k].key
  {
    if cs == [] then [] else Keys(cs[..|cs| - 1]) + [cs[|cs| - 1].key]
  }

  lemma {:induction false} KeysAppend(a: seq<RenderCommand>, b: seq<RenderCommand>)
    ensures Keys(a + b) == Keys(a) + Keys(b)
  {
  }

  /** The dimension commands come one per dimension, in order, each a line exactly for a linear dimension. */
  lemma {:induction false} DimPlanShape(math: Math, fmt: real -> string, style: Style, ds: seq<DimensionSpec>)
    requires DimPlan(math, fmt, style, ds).Ok?
    ensures var cs := DimPlan(math, fmt, style, ds).value;
      Keys(cs) == Ids(ds) && forall k :: 0 <= k < |ds| ==> (cs[k].DimensionLine? <==> ds[k].Linear?)
  {
    if ds != [] {
      DimPlanShape(math, fmt, style, ds[..|ds| - 1]);
    }
  }

  lemma {:induction false} AnnPlanKeys(fmt: real -> string, style: Style, as_: seq<AnnotationSpec>)
    requires AnnPlan(fmt, style, as_).Ok?
    ensures Keys(AnnPlan(fmt, style, as_).value) == AnnKeys(as_)
  {
    if as_ != [] {
      var init := as_[..|as_| - 1];
      AnnPlanKeys(fmt, style, init);
      var cs := AnnCommands(fmt, style, as_[|as_| - 1]).value;
      KeysAppend(AnnPlan(fmt, style, init).value, cs);
      assert Keys(cs) == (if as_[|as_| - 1].Leader? then [as_[|as_| - 1].id, as_[|as_| - 1].id] else [as_[|as_| - 1].id]);
    }
  }

  /**
   * The plan's keys are the dimensions' ids in id order, then the
   * annotations' ids in id order, a leader's twice.
   */
  lemma PlanOrder(math: Math, fmt: real -> string, style: Style, dims: seq<DimensionSpec>, anns: seq<AnnotationSpec>)
    requires RenderPlanOf(math, fmt, style, dims, anns).Ok?
    ensures Keys(RenderPlanOf(math, fmt, style, dims, anns).value)
         == Ids(SortBy(dims, DimLeq)) + AnnKeys(SortBy(anns, AnnLeq))
    ensures SortedBy(SortBy(dims, DimLeq), DimLeq) && SortedBy(SortBy(anns, AnnLeq), AnnLeq)
  {
    var sd, sa := SortBy(dims, DimLeq), SortBy(anns, AnnLeq);
    DimPlanShape(math, fmt, style, sd);
    AnnPlanKeys(fmt, style, sa);
    KeysAppend(DimPlan(math, fmt, style, sd).value, AnnPlan(fmt, style, sa).value);
    DimLeqTotal();
    AnnLeqTotal();
    SortBySorted(dims, DimLeq);
    SortBySorted(anns, AnnLeq);
  }

  lemma DimLeqTotal()
    ensures TotalPreorder(DimLeq)
  {
    forall a: DimensionSpec, b: DimensionSpec
      ensures DimLeq(a, b) || DimLeq(b, a)
    {
      LexLeqTotal(a.id, b.id);
    }
    forall a: DimensionSpec, b: DimensionSpec, c: DimensionSpec | DimLeq(a, b) && DimLeq(b, c)
      ensures DimLeq(a, c)
    {
      LexLeqTrans(a.id, b.id, c.id);
    }
  }

  lemma AnnLeqTotal()
    ensures TotalPreorder(AnnLeq)
  {
    forall a: AnnotationSpec, b: AnnotationSpec
      ensures AnnLeq(a, b) || AnnLeq(b, a)
    {
      LexLeqTotal(a.id, b.id);
    }
    forall a: AnnotationSpec, b: AnnotationSpec, c: AnnotationSpec | AnnLeq(a, b) && AnnLeq(b, c)
      ensures AnnLeq(a, c)
    {
      LexLeqTrans(a.id, b.id, c.id);
    }
  }

  lemma {:induction false} DimPlanOk(math: Math, fmt: real -> string, style: Style, ds: seq<DimensionSpec>)
    ensures DimPlan(math, fmt, style, ds).Ok? <==> forall k :: 0 <= k < |ds| ==> DimCheck(math, style, ds[k]).None?
  {
    if ds != [] {
      DimPlanOk(math, fmt, style, ds[..|ds| - 1]);
      assert forall k :: 0 <= k < |ds| - 1 ==> ds[..|ds| - 1][k] == ds[k];
    }
  }

  lemma {:induction false} AnnPlanOk(fmt: real -> string, style: Style, as_: seq<AnnotationSpec>)
    ensures AnnPlan(fmt, style, as_).Ok? <==> forall k :: 0 <= k < |as_| ==> AnnCheck(as_[k]).Ok?
  {
    if as_ != [] {
      AnnPlanOk(fmt, style, as_[..|as_| - 1]);
      assert forall k :: 0 <= k < |as_| - 1 ==> as_[..|as_| - 1][k] == as_[k];
    }
  }

  /**
   * The plan is built exactly when every dimension passes its geometry check
   * and every annotation its text check, whatever their order.
   */
  lemma PlanOk(math: Math, fmt: real -> string, style: Style, dims: seq<DimensionSpec>, anns: seq<AnnotationSpec>)
    ensures RenderPlanOf(math, fmt, style, dims, anns).Ok? <==>
      (forall d :: d in dims ==> DimCheck(math, style, d).None?) && (forall a :: a in anns ==> AnnCheck(a).Ok?)
  {
    var sd, sa := SortBy(dims, DimLeq), SortBy(anns, AnnLeq);
    DimPlanOk(math, fmt, style, sd);
    AnnPlanOk(fmt, style, sa);
    assert forall d :: d in dims <==> d in multiset(sd);
    assert forall a :: a in anns <==> a in multiset(sa);
    assert forall d :: d in sd <==> exists k :: 0 <= k < |sd| && sd[k] == d;
  }

  /**
   * The example of render_plan_is_deterministic: dimensions d2 and d1 and one
   * leader, all of them drawable; the plan starts with d1's dimension line.
   */
  lemma ExampleStartsWithD1(math: Math, fmt: real -> string, style: Style)
    requires math.sqrt(Bom.Sq(100.0) + Bom.Sq(0.0)) > style.epsilon
    requires math.sqrt(Bom.Sq(50.0) + Bom.Sq(0.0)) > style.epsilon
    ensures var d2 := Linear("d2", Vec2(100.0, 10.0), Vec2(200.0, 10.0), false);
      var d1 := Linear("d1", Vec2(0.0, 10.0), Vec2(50.0, 10.0), true);
      var a1 := Leader("a1", Vec2(5.0, 5.0), Vec2(25.0, 15.0), "穴加工");
      var r := RenderPlanOf(math, fmt, style, [d2, d1], [a1]);
      r.Ok? && |r.value| == 4 && r.value[0].DimensionLine? && r.value[0].key == "d1"
  {
    var d2 := Linear("d2", Vec2(100.0, 10.0), Vec2(200.0, 10.0), false);
    var d1 := Linear("d1", Vec2(0.0, 10.0), Vec2(50.0, 10.0), true);
    var a1 := Leader("a1", Vec2(5.0, 5.0), Vec2(25.0, 15.0), "穴加工");
    ExampleSorts(d1, d2, a1);
    ExampleDims(math, fmt, style, d1, d2);
    ExampleText();
    AnnPlanSingle(fmt, style, a1);
    var dc := DimPlan(math, fmt, style, [d1, d2]).value;
    var ac := AnnCommands(fmt, style, a1).value;
    assert RenderPlanOf(math, fmt, style, [d2, d1], [a1]) == Ok(dc + ac);
    assert (dc + ac)[0] == dc[0];
  }

  /** The example's dimensions in id order give two commands, d1's line first. */
  lemma ExampleDims(math: Math, fmt: real -> string, style: Style, d1: DimensionSpec, d2: DimensionSpec)
    requires d1 == Linear("d1", Vec2(0.0, 10.0), Vec2(50.0, 10.0), true)
    requires d2 == Linear("d2", Vec2(100.0, 10.0), Vec2(200.0, 10.0), false)
    requires math.sqrt(Bom.Sq(100.0) + Bom.Sq(0.0)) > style.epsilon
    requires math.sqrt(Bom.Sq(50.0) + Bom.Sq(0.0)) > style.epsilon
    ensures DimPlan(math, fmt, style, [d1, d2]).Ok?
    ensures var dc := DimPlan(math, fmt, style, [d1, d2]).value;
      |dc| == 2 && dc[0].DimensionLine? && dc[0].key == "d1"
  {
    ExampleChecks(math, style, d1, d2);
    DimPlanOk(math, fmt, style, [d1, d2]);
    DimPlanShape(math, fmt, style, [d1, d2]);
    var dc := DimPlan(math, fmt, style, [d1, d2]).value;
    assert Keys(dc)[0] == dc[0].key && Ids([d1, d2])[0] == "d1";
  }

  lemma AnnPlanSingle(fmt: real -> string, style: Style, a: AnnotationSpec)
    ensures AnnPlan(fmt, style, [a]) == AnnCommands(fmt, style, a)
  {
    assert [a][..0] == [];
    var cs := AnnCommands(fmt, style, a);
    if cs.Ok? {
      assert [] + cs.value == cs.value;
    }
  }

  lemma ExampleSorts(d1: DimensionSpec, d2: DimensionSpec, a1: AnnotationSpec)
    requires d1.id == "d1" && d2.id == "d2"
    ensures SortBy([d2, d1], DimLeq) == [d1, d2] && SortBy([a1], AnnLeq) == [a1]
  {
    assert !LexLeq("d2", "d1");
    assert SortBy([d1], DimLeq) == [d1];
    assert [d2, d1][1..] == [d1];
  }

  lemma ExampleChecks(math: Math, style: Style, d1: DimensionSpec, d2: DimensionSpec)
    requires d1 == Linear("d1", Vec2(0.0, 10.0), Vec2(50.0, 10.0), true)
    requires d2 == Linear("d2", Vec2(100.0, 10.0), Vec2(200.0, 10.0), false)
    requires math.sqrt(Bom.Sq(100.0) + Bom.Sq(0.0)) > style.epsilon
    requires math.sqrt(Bom.Sq(50.0) + Bom.Sq(0.0)) > style.epsilon
    ensures DimCheck(math, style, d1).None? && DimCheck(math, style, d2).None?
  {
    assert Bom.EdgeLen(math, d1.start, d1.end) == math.sqrt(Bom.Sq(50.0) + Bom.Sq(0.0));
    assert Bom.EdgeLen(math, d2.start, d2.end) == math.sqrt(Bom.Sq(100.0) + Bom.Sq(0.0));
  }

  lemma ExampleText()
    ensures ValidateText("穴加工") == Ok(())
  {
    assert !Unsupported('穴') && !Unsupported('加') && !Unsupported('工');
  }

  /** The example of invalid_dimension_returns_reason_code: a diameter over two equal points. */
  lemma DegenerateDiameter(math: Math, fmt: real -> string, style: Style, id: string, p: Vec2)
    requires math.sqrt(0.0) <= style.epsilon
    ensures RenderPlanOf(math, fmt, style, [Diameter(id, p, p)], []) == Err(ZERO_LENGTH)
  {
    assert Bom.Sq(p.x - p.x) + Bom.Sq(p.y - p.y) == 0.0;
    assert Bom.EdgeLen(math, p, p) == math.sqrt(0.0);
    var d := Diameter(id, p, p);
    assert SortBy([d], DimLeq) == [d];
    assert [d][..0] == [];
    assert DimCheck(math, style, d) == Some(ZERO_LENGTH);
    assert DimPlan(math, fmt, style, [d]) == Err(ZERO_LENGTH);
  }

  // ---------------------------------------------------------------------
  // build_render_plan, as the source loops
  // ---------------------------------------------------------------------

  lemma {:induction false} DimPlanErrPersists(math: Math, fmt: real -> string, style: Style, ds: seq<DimensionSpec>, i: nat)
    requires i <= |ds| && DimPlan(math, fmt, style, ds[..i]).Err?
    ensures DimPlan(math, fmt, style, ds) == DimPlan(math, fmt, style, ds[..i])
    decreases |ds| - i
  {
    if i < |ds| {
      var init := ds[..|ds| - 1];
      assert init[..i] == ds[..i];
      DimPlanErrPersists(math, fmt, style, init, i);
    } else {
      assert ds[..i] == ds;
    }
  }

  lemma {:induction false} AnnPlanErrPersists(fmt: real -> string, style: Style, as_: seq<AnnotationSpec>, i: nat)
    requires i <= |as_| && AnnPlan(fmt, style, as_[..i]).Err?
    ensures AnnPlan(fmt, style, as_) == AnnPlan(fmt, style, as_[..i])
    decreases |as_| - i
  {
    if i < |as_| {
      var init := as_[..|as_| - 1];
      assert init[..i] == as_[..i];
      AnnPlanErrPersists(fmt, style, init, i);
    } else {
      assert as_[..i] == as_;
    }
  }

  /** A failing dimension list fails with the code of its first failing dimension. */
  lemma {:induction false} DimPlanFirstErr(math: Math, fmt: real -> string, style: Style, ds: seq<DimensionSpec>)
    requires DimPlan(math, fmt, style, ds).Err?
    ensures exists k :: 0 <= k < |ds| && DimCheck(math, style, ds[k]) == Some(DimPlan(math, fmt, style, ds).error)
                        && forall j :: 0 <= j < k ==> DimCheck(math, style, ds[j]).None?
  {
    var init := ds[..|ds| - 1];
    assert forall k :: 0 <= k < |init| ==> init[k] == ds[k];
    if DimPlan(math, fmt, style, init).Err? {
      DimPlanFirstErr(math, fmt, style, init);
      var k :| 0 <= k < |init| && DimCheck(math, style, init[k]) == Some(DimPlan(math, fmt, style, init).error)
               && forall j :: 0 <= j < k ==> DimCheck(math, style, init[j]).None?;
      assert ds[k] == init[k];
    } else {
      DimPlanOk(math, fmt, style, init);
      assert DimCheck(math, style, ds[|ds| - 1]) == Some(DimPlan(math, fmt, style, ds).error);
    }
  }

  // ---------------------------------------------------------------------
  // build_render_plan, as the source loops
  // ---------------------------------------------------------------------

  /** The first loop: one command per sorted dimension, stopping at the first failure. */
  method PushDimensions(math: Math, fmt: real -> string, style: Style, dimSorted: seq<DimensionSpec>)
    returns (r: Result<seq<RenderCommand>, string>)
    ensures r == DimPlan(math, fmt, style, dimSorted)
  {
    var commands: seq<RenderCommand> := [];
    for idx := 0 to |dimSorted|
      invariant DimPlan(math, fmt, style, dimSorted[..idx]) == Ok(commands)
    {
      assert dimSorted[..idx + 1][..idx] == dimSorted[..idx];
      var c := DimCommand(math, fmt, style, idx, dimSorted[idx]);
      if c.Err? {
        DimPlanErrPersists(math, fmt, style, dimSorted, idx + 1);
        return Err(c.error);
      }
      commands := commands + [c.value];
    }
    assert dimSorted[..|dimSorted|] == dimSorted;
    r := Ok(commands);
  }

  /** The second loop: each sorted annotation's commands appended after the given ones. */
  method PushAnnotations(fmt: real -> string, style: Style, annSorted: seq<AnnotationSpec>, front: seq<RenderCommand>)
    returns (r: Result<seq<RenderCommand>, string>)
    ensures AnnPlan(fmt, style, annSorted).Err? ==> r == Err(AnnPlan(fmt, style, annSorted).error)
    ensures AnnPlan(fmt, style, annSorted).Ok? ==> r == Ok(front + AnnPlan(fmt, style, annSorted).value)
  {
    var commands := front;
    for i := 0 to |annSorted|
      invariant AnnPlan(fmt, style, annSorted[..i]).Ok?
      invariant commands == front + AnnPlan(fmt, style, annSorted[..i]).value
    {
      assert annSorted[..i + 1][..i] == annSorted[..i];
      var cs := AnnCommands(fmt, style, annSorted[i]);
      if cs.Err? {
        AnnPlanErrPersists(fmt, style, annSorted, i + 1);
        return Err(cs.error);
      }
      commands := commands + cs.value;
    }
    assert annSorted[..|annSorted|] == annSorted;
    r := Ok(commands);
  }

  method BuildRenderPlan(math: Math, fmt: real -> string, style: Style, dims: seq<DimensionSpec>, anns: seq<AnnotationSpec>)
    returns (r: Result<seq<RenderCommand>, string>)
    ensures r == RenderPlanOf(math, fmt, style, dims, anns)
  {
    var dimSorted := SortBy(dims, DimLeq);
    var dc := PushDimensions(math, fmt, style, dimSorted);
    if dc.Err? {
      return Err(dc.error);
    }
    var annSorted := SortBy(anns, AnnLeq);
    r := PushAnnotations(fmt, style, annSorted, dc.value);
  }
}
