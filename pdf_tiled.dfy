/**
 * core/export/src/pdf_tiled.rs: splitting a drawing over printed pages.  The
 * document's points (line ends, polyline vertices, part outlines) give a
 * bounding box; its size in millimetres, divided by the drawable page area
 * and rounded up, gives the number of tile columns and rows; the pages are
 * labelled "R<row>C<column>" row by row.
 */
module PdfTiled {
  import opened Wrappers
  import opened Serialize
  import opened Model
  import opened Decimal
  import opened Rounding
  import NestingModel

  datatype PageSize = A4 | Letter
  datatype Orientation = Portrait | Landscape

  /** The options the layout reads; crop marks, gauge drawing, title and metadata only shape the PDF bytes. */
  datatype TiledPdfOptions = TiledPdfOptions(pageSize: PageSize, orientation: Orientation, marginMm: Num)

  datatype TileLayout = TileLayout(
    pageCount: nat, tilesX: nat, tilesY: nat, pageLabels: seq<string>,
    gaugeLengthDocUnits: real, bboxMin: (real, real), bboxMax: (real, real))

  /** page_mm: the sheet size in millimetres, width first. */
  function PageMm(size: PageSize, o: Orientation): (real, real)
  {
    var (w, h) := if size == A4 then (210.0, 297.0) else (215.9, 279.4);
    if o == Portrait then (w, h) else (h, w)
  }

  /** Landscape is portrait turned: width and height swap, and every page is taller than wide in portrait. */
  lemma LandscapeSwaps(size: PageSize)
    ensures PageMm(size, Landscape) == (PageMm(size, Portrait).1, PageMm(size, Portrait).0)
    ensures PageMm(size, Portrait).0 < PageMm(size, Portrait).1
  {
  }

  /** gauge_length_in_doc_units: a 100 mm gauge measured in the document's units. */
  function GaugeLength(units: string): (r: Result<real, ReasonCode>)
    ensures r.Ok? <==> units == "mm" || units == "inch"
    ensures r.Ok? ==> r.value * (if units == "inch" then 25.4 else 1.0) == 100.0
    ensures r.Err? ==> r.error == ExportUnsupportedFeature
  {
    if units == "mm" then Ok(100.0)
    else if units == "inch" then Ok(100.0 / 25.4)
    else Err(ExportUnsupportedFeature)
  }

  // ---------------------------------------------------------------------
  // The points
  // ---------------------------------------------------------------------

  function GeomPoints(g: Geom2D): seq<Vec2>
  {
    match g
    case Line(a, b) => [a, b]
    case Polyline(pts, _) => pts
    case _ => []
  }

  function EntityPoints(es: seq<Entity>): seq<Vec2>
  {
    if es == [] then [] else GeomPoints(es[0].geom) + EntityPoints(es[1..])
  }

  function PartPoints(ps: seq<Part>): seq<Vec2>
  {
    if ps == [] then [] else ps[0].outline.outer + PartPoints(ps[1..])
  }

  /** iter_points: the entities' points, then the parts' outline points. */
  function Points(doc: Document): seq<Vec2>
  {
    EntityPoints(doc.entities) + PartPoints(doc.parts)
  }

  /** The box of the points, or the unit box when there are none. */
  function BBox(pts: seq<Vec2>): (r: ((real, real), (real, real)))
    ensures pts == [] ==> r == ((0.0, 0.0), (1.0, 1.0))
    ensures forall k :: 0 <= k < |pts| ==> r.0.0 <= pts[k].x <= r.1.0 && r.0.1 <= pts[k].y <= r.1.1
  {
    if pts == [] then ((0.0, 0.0), (1.0, 1.0))
    else
      var xs, ys := NestingModel.Xs(pts), NestingModel.Ys(pts);
      NestingModel.MinMaxOfBounds(xs);
      NestingModel.MinMaxOfBounds(ys);
      ((NestingModel.MinOf(xs), NestingModel.MinOf(ys)), (NestingModel.MaxOf(xs), NestingModel.MaxOf(ys)))
  }

  // ---------------------------------------------------------------------
  // Tiles
  // ---------------------------------------------------------------------

  function Abs(x: real): real { if x < 0.0 then -x else x }

  /**
   * The number of tiles along one side: the least whole number of drawable
   * widths that covers the drawing, the ceiling of their ratio.
   */
  function TileCount(sizeMm: real, drawMm: real): (n: nat)
    requires sizeMm >= 1.0 && drawMm >= 1.0
    ensures n >= 1 && sizeMm / drawMm <= n as real < sizeMm / drawMm + 1.0
  {
    DivPositive(sizeMm, drawMm);
    Ceil(sizeMm / drawMm)
  }

  lemma DivPositive(a: real, b: real)
    requires a > 0.0 && b > 0.0
    ensures a / b > 0.0
  {
    DivTimes(a, b);
    if a / b <= 0.0 {
      MulMonotone(a / b, 0.0, b);
    }
  }

  /** A span no wider than the drawable width is at most one width. */
  lemma DivAtMostOne(a: real, b: real)
    requires 0.0 < a <= b
    ensures a / b <= 1.0
  {
    DivTimes(a, b);
  }

  lemma DivTimes(a: real, b: real)
    requires b > 0.0
    ensures (a / b) * b == a
  {
  }

  lemma MulMonotone(a: real, b: real, m: real)
    requires a <= b && m >= 0.0
    ensures a * m <= b * m
  {
  }

  function Label(row: nat, col: nat): string
  {
    "R" + NatStr(row + 1) + "C" + NatStr(col + 1)
  }

  /** The labels of one row, column by column. */
  function RowLabels(row: nat, cols: nat): (r: seq<string>)
    ensures |r| == cols && forall x :: 0 <= x < cols ==> r[x] == Label(row, x)
  {
    if cols == 0 then [] else RowLabels(row, cols - 1) + [Label(row, cols - 1)]
  }

  /** All labels, row by row. */
  function Labels(cols: nat, rows: nat): (r: seq<string>)
    ensures |r| == cols * rows
  {
    if rows == 0 then [] else Labels(cols, rows - 1) + RowLabels(rows - 1, cols)
  }

  lemma MulComm(a: nat, b: nat)
    ensures a * b == b * a
  {
  }

  /** Row-major order: the label of row y, column x sits at y·cols + x. */
  lemma LabelsRowMajor(cols: nat, rows: nat, y: nat, x: nat)
    requires y < rows && x < cols
    ensures y * cols + x < |Labels(cols, rows)| && Labels(cols, rows)[y * cols + x] == Label(y, x)
  {
    LabelsAt(cols, rows, y, x, y * cols + x);
  }

  /** LabelsRowMajor with the position i = y·cols + x named, by induction on the rows. */
  lemma {:induction false} LabelsAt(cols: nat, rows: nat, y: nat, x: nat, i: nat)
    requires y < rows && x < cols && i == y * cols + x
    ensures i < |Labels(cols, rows)| && Labels(cols, rows)[i] == Label(y, x)
    decreases rows
  {
    var init := Labels(cols, rows - 1);
    var row := RowLabels(rows - 1, cols);
    assert Labels(cols, rows) == init + row;
    var n := |init|;
    if y < rows - 1 {
      LabelsAt(cols, rows - 1, y, x, i);
      assert (init + row)[i] == init[i];
    } else {
      MulComm(y, cols);
      assert n == y * cols;
      assert i == n + x;
      assert (init + row)[i] == row[x];
    }
  }

  /** A longer digit run puts a digit where the shorter one has its "C". */
  lemma ColumnMarkAt(a1: string, b1: string, a2: string, b2: string)
    requires forall k :: 0 <= k < |a2| ==> IsDigit(a2[k])
    requires |a1| < |a2|
    ensures "R" + a1 + "C" + b1 != "R" + a2 + "C" + b2
  {
    assert ("R" + a1 + "C" + b1)[1 + |a1|] == 'C';
    assert ("R" + a2 + "C" + b2)[1 + |a1|] == a2[|a1|];
  }

  /** "R" a "C" b determines a and b when both are digit strings. */
  lemma SplitLabel(a1: string, b1: string, a2: string, b2: string)
    requires forall k :: 0 <= k < |a1| ==> IsDigit(a1[k])
    requires forall k :: 0 <= k < |a2| ==> IsDigit(a2[k])
    requires "R" + a1 + "C" + b1 == "R" + a2 + "C" + b2
    ensures a1 == a2 && b1 == b2
  {
    var s := "R" + a1 + "C" + b1;
    var t := "R" + a2 + "C" + b2;
    if |a1| < |a2| {
      ColumnMarkAt(a1, b1, a2, b2);
    } else if |a2| < |a1| {
      ColumnMarkAt(a2, b2, a1, b1);
    }
    assert a1 == s[1..1 + |a1|];
    assert a2 == t[1..1 + |a2|];
    assert b1 == s[2 + |a1|..];
    assert b2 == t[2 + |a2|..];
  }

  /** Different tiles get different labels. */
  lemma LabelsDistinct(y1: nat, x1: nat, y2: nat, x2: nat)
    requires Label(y1, x1) == Label(y2, x2)
    ensures y1 == y2 && x1 == x2
  {
    SplitLabel(NatStr(y1 + 1), NatStr(x1 + 1), NatStr(y2 + 1), NatStr(x2 + 1));
    NatStrInjective(y1 + 1, y2 + 1);
    NatStrInjective(x1 + 1, x2 + 1);
  }

  // ---------------------------------------------------------------------
  // compute_tiled_layout
  // ---------------------------------------------------------------------

  function UnitToMm(units: string): real { if units == "inch" then 25.4 else 1.0 }

  function DrawMm(pageMm: real, margin: real): (r: real)
    ensures r >= 1.0
  {
    Max(pageMm - margin * 2.0, 1.0)
  }

  function SpanMm(lo: real, hi: real, units: string): (r: real)
    ensures r >= 1.0
  {
    Max(Abs(hi - lo) * UnitToMm(units), 1.0)
  }

  /**
   * The tiles along one side: they cover the drawing's extent on that side,
   * and one tile fewer would not.
   */
  function TilesAlong(lo: real, hi: real, units: string, pageMm: real, margin: real): (n: nat)
    ensures n >= 1
    ensures SpanMm(lo, hi, units) / DrawMm(pageMm, margin) <= n as real < SpanMm(lo, hi, units) / DrawMm(pageMm, margin) + 1.0
  {
    TileCount(SpanMm(lo, hi, units), DrawMm(pageMm, margin))
  }

  /** The layout for an accepted margin, with the gauge length already found. */
  function LayoutFor(doc: Document, opts: TiledPdfOptions, gauge: real): (l: TileLayout)
    requires opts.marginMm.Finite?
    ensures l.pageCount == l.tilesX * l.tilesY == |l.pageLabels|
    ensures (l.bboxMin, l.bboxMax) == BBox(Points(doc))
    ensures l.pageLabels == Labels(l.tilesX, l.tilesY) && l.gaugeLengthDocUnits == gauge
    ensures l.tilesX == TilesAlong(l.bboxMin.0, l.bboxMax.0, doc.units, PageMm(opts.pageSize, opts.orientation).0, opts.marginMm.v)
    ensures l.tilesY == TilesAlong(l.bboxMin.1, l.bboxMax.1, doc.units, PageMm(opts.pageSize, opts.orientation).1, opts.marginMm.v)
  {
    var box := BBox(Points(doc));
    var page := PageMm(opts.pageSize, opts.orientation);
    var tx := TilesAlong(box.0.0, box.1.0, doc.units, page.0, opts.marginMm.v);
    var ty := TilesAlong(box.0.1, box.1.1, doc.units, page.1, opts.marginMm.v);
    TileLayout(tx * ty, tx, ty, Labels(tx, ty), gauge, box.0, box.1)
  }

  /**
   * compute_tiled_layout: a negative or non-finite margin and units other
   * than mm or inch are rejected with EXPORT_UNSUPPORTED_FEATURE.
   */
  function LayoutOf(doc: Document, opts: TiledPdfOptions): (r: Result<TileLayout, ReasonCode>)
    ensures r.Ok? <==> opts.marginMm.Finite? && opts.marginMm.v >= 0.0 && GaugeLength(doc.units).Ok?
    ensures r.Err? ==> r.error == ExportUnsupportedFeature
  {
    if !opts.marginMm.Finite? || opts.marginMm.v < 0.0 then Err(ExportUnsupportedFeature)
    else
      var gauge :- GaugeLength(doc.units);
      Ok(LayoutFor(doc, opts, gauge))
  }

  /** A drawing that fits one drawable page area gets a single page labelled R1C1. */
  lemma OnePage(doc: Document, opts: TiledPdfOptions, gauge: real)
    requires opts.marginMm.Finite?
    requires var box := BBox(Points(doc));
      var page := PageMm(opts.pageSize, opts.orientation);
      SpanMm(box.0.0, box.1.0, doc.units) <= DrawMm(page.0, opts.marginMm.v)
      && SpanMm(box.0.1, box.1.1, doc.units) <= DrawMm(page.1, opts.marginMm.v)
    ensures LayoutFor(doc, opts, gauge).pageLabels == ["R1C1"]
  {
    var l := LayoutFor(doc, opts, gauge);
    var page := PageMm(opts.pageSize, opts.orientation);
    OneTile(l.bboxMin.0, l.bboxMax.0, doc.units, page.0, opts.marginMm.v);
    OneTile(l.bboxMin.1, l.bboxMax.1, doc.units, page.1, opts.marginMm.v);
    assert l.tilesX == 1 && l.tilesY == 1;
    assert DigitChar(1) == '1';
    assert NatStr(1) == "1";
    assert Label(0, 0) == "R1C1";
    assert RowLabels(0, 1) == [Label(0, 0)];
    assert Labels(1, 1) == Labels(1, 0) + RowLabels(0, 1);
  }

  lemma OneTile(lo: real, hi: real, units: string, pageMm: real, margin: real)
    requires SpanMm(lo, hi, units) <= DrawMm(pageMm, margin)
    ensures TilesAlong(lo, hi, units, pageMm, margin) == 1
  {
    DivAtMostOne(SpanMm(lo, hi, units), DrawMm(pageMm, margin));
  }

  /** The running box of the points, one pass as the source's loop. */
  method PointsBox(pts: seq<Vec2>) returns (lo: (real, real), hi: (real, real))
    ensures (lo, hi) == BBox(pts)
  {
    if pts == [] {
      return (0.0, 0.0), (1.0, 1.0);
    }
    ghost var xs, ys := NestingModel.Xs(pts), NestingModel.Ys(pts);
    var minX, minY, maxX, maxY := pts[0].x, pts[0].y, pts[0].x, pts[0].y;
    var i := 1;
    while i < |pts|
      invariant 1 <= i <= |pts|
      invariant minX == NestingModel.MinOf(xs[..i]) && maxX == NestingModel.MaxOf(xs[..i])
      invariant minY == NestingModel.MinOf(ys[..i]) && maxY == NestingModel.MaxOf(ys[..i])
    {
      NestingModel.ExtremesStep(xs, i);
      NestingModel.ExtremesStep(ys, i);
      minX := Min(minX, pts[i].x);
      minY := Min(minY, pts[i].y);
      maxX := Max(maxX, pts[i].x);
      maxY := Max(maxY, pts[i].y);
      i := i + 1;
    }
    assert xs[..i] == xs && ys[..i] == ys;
    lo, hi := (minX, minY), (maxX, maxY);
  }

  /** The label loop: rows outside, columns inside. */
  method BuildLabels(cols: nat, rows: nat) returns (labels: seq<string>)
    ensures labels == Labels(cols, rows)
  {
    labels := [];
    for y := 0 to rows
      invariant labels == Labels(cols, y)
    {
      ghost var before := labels;
      for x := 0 to cols
        invariant labels == before + RowLabels(y, x)
      {
        labels := labels + ["R" + NatStr(y + 1) + "C" + NatStr(x + 1)];
      }
    }
  }

  /** compute_tiled_layout: the margin check, the box of the points, the tile counts, the labels, the gauge. */
  method ComputeTiledLayout(doc: Document, opts: TiledPdfOptions) returns (r: Result<TileLayout, ReasonCode>)
    ensures r == LayoutOf(doc, opts)
  {
    if !opts.marginMm.Finite? || opts.marginMm.v < 0.0 {
      return Err(ExportUnsupportedFeature);
    }
    var lo, hi := PointsBox(Points(doc));
    var (pw, ph) := PageMm(opts.pageSize, opts.orientation);
    var drawW := Max(pw - opts.marginMm.v * 2.0, 1.0);
    var drawH := Max(ph - opts.marginMm.v * 2.0, 1.0);
    var unitToMm := if doc.units == "inch" then 25.4 else 1.0;
    var widthMm := Max(Abs(hi.0 - lo.0) * unitToMm, 1.0);
    var heightMm := Max(Abs(hi.1 - lo.1) * unitToMm, 1.0);
    assert drawW == DrawMm(pw, opts.marginMm.v) && drawH == DrawMm(ph, opts.marginMm.v);
    assert widthMm == SpanMm(lo.0, hi.0, doc.units) && heightMm == SpanMm(lo.1, hi.1, doc.units);
    var tx := TileCount(widthMm, drawW);
    var ty := TileCount(heightMm, drawH);
    var labels := BuildLabels(tx, ty);
    var gauge := GaugeLength(doc.units);
    if gauge.Err? {
      return Err(gauge.error);
    }
    r := Ok(TileLayout(tx * ty, tx, ty, labels, gauge.value, lo, hi));
  }

  // ---------------------------------------------------------------------
  // pdf_escape
  // ---------------------------------------------------------------------

  /** `str::replace` of one character by a string. */
  function ReplaceChar(s: string, c: char, rep: string): string
  {
    if s == [] then [] else ReplaceChar(s[..|s| - 1], c, rep) + (if s[|s| - 1] == c then rep else [s[|s| - 1]])
  }

  lemma {:induction false} ReplaceCharAppend(a: string, b: string, c: char, rep: string)
    ensures ReplaceChar(a + b, c, rep) == ReplaceChar(a, c, rep) + ReplaceChar(b, c, rep)
    decreases |b|
  {
    if b == [] {
      assert a + b == a;
    } else {
      var b0 := b[..|b| - 1];
      assert (a + b)[..|a + b| - 1] == a + b0;
      ReplaceCharAppend(a, b0, c, rep);
    }
  }

  /** pdf_escape: backslashes doubled first, then each parenthesis preceded by a backslash. */
  function PdfEscape(s: string): string
  {
    ReplaceChar(ReplaceChar(ReplaceChar(s, '\\', "\\\\"), '(', "\\("), ')', "\\)")
  }

  /** The literal-string escape of one character (section 7.3.4.2 of ISO 32000-1). */
  function EscapeChar(c: char): string
  {
    if c == '\\' || c == '(' || c == ')' then ['\\', c] else [c]
  }

  function EscapeEach(s: string): string
  {
    if s == [] then [] else EscapeEach(s[..|s| - 1]) + EscapeChar(s[|s| - 1])
  }

  lemma {:induction false} ReplaceCharAbsent(s: string, c: char, rep: string)
    requires c !in s
    ensures ReplaceChar(s, c, rep) == s
    decreases |s|
  {
    if s != [] {
      assert s[|s| - 1] in s;
      assert forall k :: 0 <= k < |s| - 1 ==> s[..|s| - 1][k] == s[k];
      ReplaceCharAbsent(s[..|s| - 1], c, rep);
    }
  }

  lemma ReplaceCharOne(c: char, ch: char, rep: string)
    ensures ReplaceChar([c], ch, rep) == if c == ch then rep else [c]
  {
    assert [c][..0] == [];
  }

  lemma PdfEscapeAppend(a: string, b: string)
    ensures PdfEscape(a + b) == PdfEscape(a) + PdfEscape(b)
  {
    var a1, b1 := ReplaceChar(a, '\\', "\\\\"), ReplaceChar(b, '\\', "\\\\");
    ReplaceCharAppend(a, b, '\\', "\\\\");
    var a2, b2 := ReplaceChar(a1, '(', "\\("), ReplaceChar(b1, '(', "\\(");
    ReplaceCharAppend(a1, b1, '(', "\\(");
    ReplaceCharAppend(a2, b2, ')', "\\)");
  }

  lemma PdfEscapeOne(c: char)
    ensures PdfEscape([c]) == EscapeChar(c)
  {
    if c == '\\' {
      EscapeBackslash();
    } else if c == '(' {
      EscapeOpen();
    } else if c == ')' {
      EscapeClose();
    } else {
      EscapePlain(c);
    }
  }

  lemma EscapeBackslash()
    ensures PdfEscape("\\") == "\\\\"
  {
    ReplaceCharOne('\\', '\\', "\\\\");
    ReplaceCharAbsent("\\\\", '(', "\\(");
    ReplaceCharAbsent("\\\\", ')', "\\)");
  }

  lemma EscapeOpen()
    ensures PdfEscape("(") == "\\("
  {
    ReplaceCharOne('(', '\\', "\\\\");
    assert ReplaceChar("(", '\\', "\\\\") == "(";
    ReplaceCharOne('(', '(', "\\(");
    assert ReplaceChar("(", '(', "\\(") == "\\(";
    assert ')' !in "\\(";
    ReplaceCharAbsent("\\(", ')', "\\)");
  }

  lemma EscapeClose()
    ensures PdfEscape(")") == "\\)"
  {
    ReplaceCharOne(')', '\\', "\\\\");
    ReplaceCharOne(')', '(', "\\(");
    ReplaceCharOne(')', ')', "\\)");
  }

  lemma EscapePlain(c: char)
    requires c != '\\' && c != '(' && c != ')'
    ensures PdfEscape([c]) == [c]
  {
    ReplaceCharOne(c, '\\', "\\\\");
    ReplaceCharOne(c, '(', "\\(");
    ReplaceCharOne(c, ')', "\\)");
  }

  /** The three passes escape each character on its own: a later pass never rewrites an earlier one's output. */
  lemma {:induction false} PdfEscapeIsPerChar(s: string)
    ensures PdfEscape(s) == EscapeEach(s)
    decreases |s|
  {
    if s != [] {
      var init, c := s[..|s| - 1], s[|s| - 1];
      assert s == init + [c];
      PdfEscapeIsPerChar(init);
      PdfEscapeAppend(init, [c]);
      PdfEscapeOne(c);
    }
  }

  /** A PDF reader's view of a literal string: a backslash takes the next character as it is. */
  function PdfUnescape(s: string): string
    decreases |s|
  {
    if s == [] then []
    else if s[0] == '\\' && |s| >= 2 then [s[1]] + PdfUnescape(s[2..])
    else [s[0]] + PdfUnescape(s[1..])
  }

  function EscapeForward(s: string): string
  {
    if s == [] then [] else EscapeChar(s[0]) + EscapeForward(s[1..])
  }

  lemma {:induction false} EscapeEachForward(s: string)
    ensures EscapeEach(s) == EscapeForward(s)
    decreases |s|
  {
    if s != [] {
      var init := s[..|s| - 1];
      EscapeEachForward(init);
      EscapeForwardAppend(init, s[|s| - 1]);
      assert init + [s[|s| - 1]] == s;
    }
  }

  lemma {:induction false} EscapeForwardAppend(s: string, c: char)
    ensures EscapeForward(s + [c]) == EscapeForward(s) + EscapeChar(c)
    decreases |s|
  {
    if s == [] {
      assert [] + [c] == [c];
      assert [c][1..] == [];
    } else {
      assert (s + [c])[1..] == s[1..] + [c];
      EscapeForwardAppend(s[1..], c);
    }
  }

  lemma {:induction false} UnescapeForward(s: string)
    ensures PdfUnescape(EscapeForward(s)) == s
    decreases |s|
  {
    if s != [] {
      UnescapeForward(s[1..]);
      var e := EscapeForward(s);
      assert e == EscapeChar(s[0]) + EscapeForward(s[1..]);
      if s[0] == '\\' || s[0] == '(' || s[0] == ')' {
        assert e[2..] == EscapeForward(s[1..]);
      } else {
        assert e[1..] == EscapeForward(s[1..]);
      }
    }
  }

  /** A reader recovers the label text from the escaped string. */
  lemma PdfEscapeRoundTrip(s: string)
    ensures PdfUnescape(PdfEscape(s)) == s
  {
    PdfEscapeIsPerChar(s);
    EscapeEachForward(s);
    UnescapeForward(s);
  }
}
