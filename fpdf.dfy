/**
 * An abstract FPDF document context (unit "mm", format A4). Instead of
 * PDF bytes it keeps the state FPDF carries from call to call (fill,
 * text and draw colour, font, cursor) and the list of drawing operations
 * emitted on the page, each stamped with the state that applied to it.
 */
module Fpdf {
  import opened Options
  import opened Theme

  /** A4 in millimetres. */
  const PageWidth := 210
  const PageHeight := 297
  /** FPDF's default margins: one centimetre. */
  const LeftMargin := 10
  const TopMargin := 10

  datatype Point = Point(x: int, y: int)

  datatype Font = Font(family: string, style: string, size: int)

  /** A cell's `align`: FPDF's default (left) or "C". */
  datatype Align = Left | Center

  /** A cell's `ln`: 0 keeps the cursor on the line to the right of the cell, 1 moves it to the next line. */
  datatype LineBreak = Right | NextLine

  /**
   * An emitted operation. Shapes are drawn with style 'F' and record the
   * fill colour; a line records the draw colour; text records where it
   * starts (`None` where the cursor depends on text wrapping), its font
   * and its text colour.
   */
  datatype Op =
    | Rect(x: int, y: int, w: int, h: int, fill: Rgb)
    | Ellipse(x: int, y: int, w: int, h: int, fill: Rgb)
    | Line(x1: int, y1: int, x2: int, y2: int, stroke: Rgb)
    | Cell(at: Option<Point>, w: int, h: int, text: string, align: Align, font: Option<Font>, color: Rgb)
    | MultiCell(at: Option<Point>, w: int, h: int, text: string, font: Option<Font>, color: Rgb)

  /** FPDF's coordinate convention: a negative coordinate counts back from the far edge. */
  function FromEdge(v: int, extent: int): int {
    if v < 0 then extent + v else v
  }

  /** The cursor after a cell of width `w` and height `h` started at `p`. */
  function AfterCell(p: Option<Point>, w: int, h: int, ln: LineBreak): Option<Point> {
    match p
    case None => None
    case Some(q) => Some(if ln == NextLine then Point(LeftMargin, q.y + h) else Point(q.x + w, q.y))
  }

  /** What one operation contributes to each of the filters below. */
  function CellText(op: Op): seq<string> {
    if op.Cell? then [op.text] else []
  }

  function MultiCellText(op: Op): seq<string> {
    if op.MultiCell? then [op.text] else []
  }

  function Fill(op: Op): seq<Rgb> {
    if op.Rect? || op.Ellipse? then [op.fill] else []
  }

  /** The contributions of `f` over a list of operations, in drawing order. */
  function Collect<T>(f: Op -> seq<T>, ops: seq<Op>): seq<T> {
    if ops == [] then [] else f(ops[0]) + Collect(f, ops[1..])
  }

  /** The texts of the `cell` operations, in drawing order. */
  function CellTexts(ops: seq<Op>): seq<string> {
    Collect(CellText, ops)
  }

  /** The texts of the `multi_cell` operations, in drawing order. */
  function MultiCellTexts(ops: seq<Op>): seq<string> {
    Collect(MultiCellText, ops)
  }

  /** The fill colours of the filled shapes, in drawing order. */
  function Fills(ops: seq<Op>): seq<Rgb> {
    Collect(Fill, ops)
  }

  /** A page of seven operations contributes its operations' parts in order. */
  lemma CollectOfSeven<T>(f: Op -> seq<T>, o1: Op, o2: Op, o3: Op, o4: Op, o5: Op, o6: Op, o7: Op)
    ensures Collect(f, [o1, o2, o3, o4, o5, o6, o7]) == f(o1) + (f(o2) + (f(o3) + (f(o4) + (f(o5) + (f(o6) + f(o7))))))
  {
    var r7 := [o7];
    var r6 := [o6] + r7;
    var r5 := [o5] + r6;
    var r4 := [o4] + r5;
    var r3 := [o3] + r4;
    var r2 := [o2] + r3;
    assert [o1, o2, o3, o4, o5, o6, o7] == [o1] + r2;
    assert Collect(f, r7) == f(o7) by { assert r7[1..] == []; }
    assert Collect(f, r6) == f(o6) + Collect(f, r7) by { assert r6[1..] == r7; }
    assert Collect(f, r5) == f(o5) + Collect(f, r6) by { assert r5[1..] == r6; }
    assert Collect(f, r4) == f(o4) + Collect(f, r5) by { assert r4[1..] == r5; }
    assert Collect(f, r3) == f(o3) + Collect(f, r4) by { assert r3[1..] == r4; }
    assert Collect(f, r2) == f(o2) + Collect(f, r3) by { assert r2[1..] == r3; }
    assert Collect(f, [o1] + r2) == f(o1) + Collect(f, r2) by { assert ([o1] + r2)[1..] == r2; }
  }

  /**
   * FPDF's core fonts (helvetica among them) encode text as Latin-1, so
   * `cell` and `multi_cell` raise on a character above U+00FF, such as a
   * typographic apostrophe or an emoji.
   */
  predicate Encodable(s: string) {
    forall i :: 0 <= i < |s| ==> s[i] as int < 256
  }

  lemma EncodableConcat(a: string, b: string)
    ensures Encodable(a + b) <==> Encodable(a) && Encodable(b)
  {
    if Encodable(a + b) {
      forall i | 0 <= i < |a| ensures a[i] as int < 256 {
        assert (a + b)[i] == a[i];
      }
      forall i | 0 <= i < |b| ensures b[i] as int < 256 {
        assert (a + b)[|a| + i] == b[i];
      }
    }
  }

  class Context {
    var pages: nat
    var autoPageBreak: bool
    var fillColor: Rgb
    var textColor: Rgb
    var drawColor: Rgb
    var font: Option<Font>
    /** `None` once the position depends on text wrapping, which the model does not compute. */
    var cursor: Option<Point>
    /** Append-only: every drawing call adds exactly one operation. */
    var ops: seq<Op>

    /** `FPDF(unit="mm", format="A4")`: no page, black colours, no font. */
    constructor ()
      ensures pages == 0 && autoPageBreak
      ensures fillColor == Black && textColor == Black && drawColor == Black
      ensures font == None && cursor == Some(Point(LeftMargin, TopMargin)) && ops == []
    {
      pages := 0;
      autoPageBreak := true;
      fillColor, textColor, drawColor := Black, Black, Black;
      font := None;
      cursor := Some(Point(LeftMargin, TopMargin));
      ops := [];
    }

    /** `add_page()`: colours and font carry over; the cursor goes to the top-left margin. */
    method AddPage()
      modifies this`pages, this`cursor
      ensures pages == old(pages) + 1
      ensures cursor == Some(Point(LeftMargin, TopMargin))
    {
      pages := pages + 1;
      cursor := Some(Point(LeftMargin, TopMargin));
    }

    /** `set_auto_page_break(auto)` */
    method SetAutoPageBreak(auto: bool)
      modifies this`autoPageBreak
      ensures autoPageBreak == auto
    {
      autoPageBreak := auto;
    }

    /** `set_fill_color(r, g, b)`: applies to every later filled shape. */
    method SetFillColor(r: Channel, g: Channel, b: Channel)
      modifies this`fillColor
      ensures fillColor == Rgb(r, g, b)
    {
      fillColor := Rgb(r, g, b);
    }

    /** `set_text_color(r, g, b)`: applies to every later text. */
    method SetTextColor(r: Channel, g: Channel, b: Channel)
      modifies this`textColor
      ensures textColor == Rgb(r, g, b)
    {
      textColor := Rgb(r, g, b);
    }

    /** `set_font(family, style, size)` */
    method SetFont(family: string, style: string, size: int)
      modifies this`font
      ensures font == Some(Font(family, style, size))
    {
      font := Some(Font(family, style, size));
    }

    /** `set_xy(x, y)` */
    method SetXY(x: int, y: int)
      modifies this`cursor
      ensures cursor == Some(Point(FromEdge(x, PageWidth), FromEdge(y, PageHeight)))
    {
      cursor := Some(Point(FromEdge(x, PageWidth), FromEdge(y, PageHeight)));
    }

    /** `rect(x, y, w, h, 'F')`, in the current fill colour. */
    method Rect(x: int, y: int, w: int, h: int)
      modifies this`ops
      ensures ops == old(ops) + [Op.Rect(x, y, w, h, fillColor)]
    {
      ops := ops + [Op.Rect(x, y, w, h, fillColor)];
    }

    /** `ellipse(x, y, w, h, 'F')`, in the current fill colour. */
    method Ellipse(x: int, y: int, w: int, h: int)
      modifies this`ops
      ensures ops == old(ops) + [Op.Ellipse(x, y, w, h, fillColor)]
    {
      ops := ops + [Op.Ellipse(x, y, w, h, fillColor)];
    }

    /** `line(x1, y1, x2, y2)`, in the current draw colour. */
    method Line(x1: int, y1: int, x2: int, y2: int)
      modifies this`ops
      ensures ops == old(ops) + [Op.Line(x1, y1, x2, y2, drawColor)]
    {
      ops := ops + [Op.Line(x1, y1, x2, y2, drawColor)];
    }

    /**
     * `cell(w, h, text, ln=..., align=...)` at the cursor, in the current
     * font and text colour. `ok` is false where FPDF raises because the
     * text cannot be encoded; then nothing is drawn.
     */
    method Cell(w: int, h: int, text: string, ln: LineBreak, align: Align) returns (ok: bool)
      modifies this`ops, this`cursor
      ensures ok <==> Encodable(text)
      ensures ok ==> ops == old(ops) + [Op.Cell(old(cursor), w, h, text, align, font, textColor)]
      ensures ok ==> cursor == AfterCell(old(cursor), w, h, ln)
      ensures !ok ==> ops == old(ops) && cursor == old(cursor)
    {
      ok := Encodable(text);
      if ok {
        ops := ops + [Op.Cell(cursor, w, h, text, align, font, textColor)];
        cursor := AfterCell(cursor, w, h, ln);
      }
    }

    /**
     * `multi_cell(w, h, text)` at the cursor; where it leaves the cursor
     * depends on wrapping. `ok` is false where FPDF raises because the
     * text cannot be encoded; then nothing is drawn.
     */
    method MultiCell(w: int, h: int, text: string) returns (ok: bool)
      modifies this`ops, this`cursor
      ensures ok <==> Encodable(text)
      ensures ok ==> ops == old(ops) + [Op.MultiCell(old(cursor), w, h, text, font, textColor)]
      ensures ok ==> cursor == None
      ensures !ok ==> ops == old(ops) && cursor == old(cursor)
    {
      ok := Encodable(text);
      if ok {
        ops := ops + [Op.MultiCell(cursor, w, h, text, font, textColor)];
        cursor := None;
      }
    }
  }
}
