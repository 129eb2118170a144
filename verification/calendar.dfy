/** repaintCalendar and repaintSymbolicCalendar: the calendar page, an optional
    weekday/month header and the day of the month, each line centred horizontally.
    Positions and font sizes are fractions of the icon's pixel size (a 96-unit grid
    for the full-colour page, 16 units for the symbolic one). */
module Calendar {
  import opened Transform
  import opened Canvas
  import opened IconSize
  import opened Artwork
  import opened Numeral

  /** What the callback reads from `new Date()`: the short weekday and month names in
      the current locale, and the day of the month. */
  datatype Today = Today(weekday: string, month: string, date: nat)

  /** The header parts the two flags select, weekday first. */
  function Selected(showWeekday: bool, showMonth: bool, weekday: string, month: string): seq<string> {
    (if showWeekday then [weekday] else []) + (if showMonth then [month] else [])
  }

  /** Words separated by single spaces. */
  function JoinWords(words: seq<string>): string
    decreases |words|
  {
    if |words| == 0 then ""
    else if |words| == 1 then words[0]
    else words[0] + " " + JoinWords(words[1..])
  }

  /** The header line: the selected parts joined by a space, so "Mon Jan", "Mon",
      "Jan" or nothing. */
  function HeaderText(showWeekday: bool, showMonth: bool, weekday: string, month: string): (text: string)
    ensures text == JoinWords(Selected(showWeekday, showMonth, weekday, month))
  {
    if showWeekday then
      (if showMonth then weekday + " " + month else weekday)
    else
      (if showMonth then month else "")
  }

  lemma HeaderExamples()
    ensures HeaderText(true, true, "Mon", "Jan") == "Mon Jan"
    ensures HeaderText(true, false, "Mon", "Jan") == "Mon"
    ensures HeaderText(false, true, "Mon", "Jan") == "Jan"
    ensures HeaderText(false, false, "Mon", "Jan") == ""
  {
  }

  /** The x at which a line `width` wide starts so that its middle is the icon's. */
  function Centered(size: real, width: real): (x: real)
    ensures x + width / 2.0 == size / 2.0
  {
    (size - width) / 2.0
  }

  const HeaderFont: Font := Font("sans-serif", true)
  const DateFont: Font := Font("Cantarell", true)
  const HeaderColor: Rgb := Rgb(0.965, 0.961, 0.957)
  const DateColor: Rgb := Rgb(0.929, 0.2, 0.231)
  const SymbolicDateColor: Rgb := Rgb(0.949, 0.949, 0.949)

  /** select_font_face, set_font_size, set_source_rgb, then move_to the centred start
      on the baseline `y` and show the text. `measure` is cairo's text_extents width
      for a font, size and text. */
  function Label(font: Font, fontSize: real, color: Rgb, size: real, y: real, text: string,
                 measure: (Font, real, string) -> real): seq<Op> {
    [SelectFont(font), SetFontSize(fontSize), SetSourceRgb(color),
     MoveTo(Centered(size, measure(font, fontSize, text)), y), ShowText(text)]
  }

  /** A label's word writes its text once and neither rotates nor paints a layer. */
  lemma LabelWord(font: Font, fontSize: real, color: Rgb, size: real, y: real, text: string,
                                     measure: (Font, real, string) -> real)
    ensures Layers(Label(font, fontSize, color, size, y, text, measure)) == []
    ensures Shown(Label(font, fontSize, color, size, y, text, measure)) == [text]
    ensures TotalTurn(Label(font, fontSize, color, size, y, text, measure)) == 0.0
  {
    var ops := Label(font, fontSize, color, size, y, text, measure);
    var tail := ops[4..];
    assert tail[1..] == [];
    assert Layers(tail[1..]) == [] && Shown(tail[1..]) == [] && TotalTurn(tail[1..]) == 0.0;
    assert Layers(tail) == [] && Shown(tail) == [text] && TotalTurn(tail) == 0.0;
    assert ops[3..][1..] == tail && ops[2..][1..] == ops[3..] && ops[1..][1..] == ops[2..];
    assert Layers(ops[3..]) == [] && Shown(ops[3..]) == [text] && TotalTurn(ops[3..]) == 0.0;
    assert Layers(ops[2..]) == [] && Shown(ops[2..]) == [text] && TotalTurn(ops[2..]) == 0.0;
    assert Layers(ops[1..]) == [] && Shown(ops[1..]) == [text] && TotalTurn(ops[1..]) == 0.0;
  }

  /** The page painted scaled by `f` from its canvas to the icon, then the scale
      undone (`scale(1 / f)`) for the text. */
  function Page(fit: Fit, f: real, face: Layer): seq<Op> {
    Background(fit, f, face) + [Scale(Reciprocal(f))]
  }

  /** The page scaled from its canvas and back, then no rotation, no further layer
      and no text. */
  lemma PageWord(fit: Fit, f: real, face: Layer)
    ensures Layers(Page(fit, f, face)) == [face]
    ensures Shown(Page(fit, f, face)) == [] && TotalTurn(Page(fit, f, face)) == 0.0
  {
    BackgroundWord(fit, f, face);
    QuietOp(Scale(Reciprocal(f)));
    WordAppend(Background(fit, f, face), [Scale(Reciprocal(f))]);
  }

  /** repaintCalendar: the full-colour page, then the header line and the day of the
      month, in that order. */
  function RegularCalendar(today: Today, showWeekday: bool, showMonth: bool, fit: Fit,
                           measure: (Font, real, string) -> real): (r: seq<Op>)
    ensures Layers(r) == [CalendarFace]
    ensures Shown(r) == [HeaderText(showWeekday, showMonth, today.weekday, today.month), Decimal(today.date)]
    ensures TotalTurn(r) == 0.0
  {
    RegularCalendarWord(today, showWeekday, showMonth, fit, measure);
    Page(fit, fit.size / FaceCanvas, CalendarFace)
    + (Label(HeaderFont, fit.size / 96.0 * 14.0, HeaderColor, fit.size, fit.size / 96.0 * 25.0,
             HeaderText(showWeekday, showMonth, today.weekday, today.month), measure)
       + Label(DateFont, fit.size / 96.0 * 28.0, DateColor, fit.size, fit.size / 96.0 * 68.0,
               Decimal(today.date), measure))
  }

  /** The page and the two labels of repaintCalendar, summarised together. */
  lemma RegularCalendarWord(today: Today, showWeekday: bool, showMonth: bool, fit: Fit,
                            measure: (Font, real, string) -> real)
    ensures var w := Page(fit, fit.size / FaceCanvas, CalendarFace)
      + (Label(HeaderFont, fit.size / 96.0 * 14.0, HeaderColor, fit.size, fit.size / 96.0 * 25.0,
               HeaderText(showWeekday, showMonth, today.weekday, today.month), measure)
         + Label(DateFont, fit.size / 96.0 * 28.0, DateColor, fit.size, fit.size / 96.0 * 68.0,
                 Decimal(today.date), measure));
      Layers(w) == [CalendarFace]
      && Shown(w) == [HeaderText(showWeekday, showMonth, today.weekday, today.month), Decimal(today.date)]
      && TotalTurn(w) == 0.0
  {
    var header := HeaderText(showWeekday, showMonth, today.weekday, today.month);
    var date := Decimal(today.date);
    var page := Page(fit, fit.size / FaceCanvas, CalendarFace);
    var l1 := Label(HeaderFont, fit.size / 96.0 * 14.0, HeaderColor, fit.size, fit.size / 96.0 * 25.0, header, measure);
    var l2 := Label(DateFont, fit.size / 96.0 * 28.0, DateColor, fit.size, fit.size / 96.0 * 68.0, date, measure);
    assert Layers(page) == [CalendarFace] && Shown(page) == [] && TotalTurn(page) == 0.0 by {
      PageWord(fit, fit.size / FaceCanvas, CalendarFace);
    }
    assert Layers(l1) == [] && Shown(l1) == [header] && TotalTurn(l1) == 0.0 by {
      LabelWord(HeaderFont, fit.size / 96.0 * 14.0, HeaderColor, fit.size, fit.size / 96.0 * 25.0, header, measure);
    }
    assert Layers(l2) == [] && Shown(l2) == [date] && TotalTurn(l2) == 0.0 by {
      LabelWord(DateFont, fit.size / 96.0 * 28.0, DateColor, fit.size, fit.size / 96.0 * 68.0, date, measure);
    }
    PageLabelsWord(page, l1, l2, CalendarFace, header, date);
  }

  /** A page followed by two labels paints the page's face and writes the labels' texts in order. */
  lemma PageLabelsWord(page: seq<Op>, l1: seq<Op>, l2: seq<Op>, face: Layer, a: string, b: string)
    requires Layers(page) == [face] && Shown(page) == [] && TotalTurn(page) == 0.0
    requires Layers(l1) == [] && Shown(l1) == [a] && TotalTurn(l1) == 0.0
    requires Layers(l2) == [] && Shown(l2) == [b] && TotalTurn(l2) == 0.0
    ensures Layers(page + (l1 + l2)) == [face]
    ensures Shown(page + (l1 + l2)) == [a, b]
    ensures TotalTurn(page + (l1 + l2)) == 0.0
  {
    WordAppend(l1, l2);
    WordAppend(page, l1 + l2);
  }

  /** repaintSymbolicCalendar: the symbolic page and only the day of the month, in
      half the icon's size. */
  function SymbolicCalendar(today: Today, fit: Fit, measure: (Font, real, string) -> real): (r: seq<Op>)
    ensures Layers(r) == [SymbolicCalendarFace]
    ensures Shown(r) == [Decimal(today.date)]
    ensures TotalTurn(r) == 0.0
  {
    var page := Page(fit, fit.size / SymbolicCanvas, SymbolicCalendarFace);
    var l := Label(DateFont, fit.size / 2.0, SymbolicDateColor, fit.size, fit.size / 16.0 * 12.0,
                   Decimal(today.date), measure);
    PageWord(fit, fit.size / SymbolicCanvas, SymbolicCalendarFace);
    LabelWord(DateFont, fit.size / 2.0, SymbolicDateColor, fit.size, fit.size / 16.0 * 12.0,
              Decimal(today.date), measure);
    WordAppend(page, l);
    page + l
  }

  /** The repaint callback: icon style 2 always takes the symbolic path, which shows
      the symbolic page and the date alone; otherwise the header comes first. The day
      of the month is always the last text written. */
  function RepaintCalendar(iconStyle: int, today: Today, showWeekday: bool, showMonth: bool,
                           requested: int, width: real, height: real,
                           measure: (Font, real, string) -> real): (r: seq<Op>)
    ensures Layers(r) == [if iconStyle == SymbolicStyle then SymbolicCalendarFace else CalendarFace]
    ensures |Shown(r)| == (if iconStyle == SymbolicStyle then 1 else 2)
    ensures Shown(r)[|Shown(r)| - 1] == Decimal(today.date)
    ensures iconStyle != SymbolicStyle ==> Shown(r)[0] == HeaderText(showWeekday, showMonth, today.weekday, today.month)
  {
    var fit := GetIconSize(requested, width, height);
    if iconStyle == SymbolicStyle then SymbolicCalendar(today, fit, measure)
    else RegularCalendar(today, showWeekday, showMonth, fit, measure)
  }

  /** The text mark a label leaves, if its text is not empty. */
  function LabelMark(c: Ctx, font: Font, fontSize: real, color: Rgb, size: real, y: real, text: string,
                     measure: (Font, real, string) -> real): seq<Mark> {
    if text == [] then []
    else [Text(text, c.ctm, Point(Centered(size, measure(font, fontSize, text)), y),
               font, fontSize, Solid(color), c.operator)]
  }

  lemma LabelRun(c: Ctx, font: Font, fontSize: real, color: Rgb, size: real, y: real,
                                    text: string, measure: (Font, real, string) -> real, cis: real -> Dir)
    requires c.ok
    ensures Run(c, Label(font, fontSize, color, size, y, text, measure), cis)
      == c.(font := font, fontSize := fontSize, source := Solid(color),
            at := Point(Centered(size, measure(font, fontSize, text)), y),
            marks := c.marks + LabelMark(c, font, fontSize, color, size, y, text, measure))
  {
    var ops := Label(font, fontSize, color, size, y, text, measure);
    var c1 := Step(c, ops[0], cis);
    var c2 := Step(c1, ops[1], cis);
    var c3 := Step(c2, ops[2], cis);
    var c4 := Step(c3, ops[3], cis);
    var c5 := Step(c4, ops[4], cis);
    assert Run(c, ops, cis) == Run(c1, ops[1..], cis);
    assert Run(c1, ops[1..], cis) == Run(c2, ops[2..], cis);
    assert Run(c2, ops[2..], cis) == Run(c3, ops[3..], cis);
    assert Run(c3, ops[3..], cis) == Run(c4, ops[4..], cis);
    assert Run(c4, ops[4..], cis) == Run(c5, ops[5..], cis);
    assert ops[5..] == [];
  }

  /** Painting the page and undoing its scale: the page is painted under the scaled
      CTM and the text that follows is laid out under the centred, unscaled one. */
  lemma PageRun(c: Ctx, fit: Fit, canvas: real, face: Layer, cis: real -> Dir)
    requires c.ok && fit.size != 0.0 && canvas != 0.0
    ensures var centred := Translated(c.ctm, fit.dx, fit.dy);
      var f := fit.size / canvas;
      Run(c, Page(fit, f, face), cis)
        == c.(ctm := centred, source := Surface(face),
              marks := c.marks + [Painted(Surface(face), Scaled(centred, f), c.angle, c.operator)])
  {
    var f := fit.size / canvas;
    var centred := Translated(c.ctm, fit.dx, fit.dy);
    RunAppend(c, Background(fit, f, face), [Scale(Reciprocal(f))], cis);
    BackgroundRun(c, fit, f, face, cis);
    var c1 := Run(c, Background(fit, f, face), cis);
    assert Run(c1, [Scale(Reciprocal(f))], cis) == Step(c1, Scale(Reciprocal(f)), cis);
    ScaleCancel(centred, f);
  }

  /** The full-colour page: the page painted under the scaled CTM, then the header
      (only when it is not empty) and the day of the month, both centred on the icon,
      in their fonts, sizes and colours, under the unscaled CTM. */
  lemma RegularCalendarRun(today: Today, showWeekday: bool, showMonth: bool, fit: Fit,
                                              measure: (Font, real, string) -> real, m0: Matrix, cis: real -> Dir)
    requires fit.size != 0.0
    ensures var centred := Translated(m0, fit.dx, fit.dy);
      var header := HeaderText(showWeekday, showMonth, today.weekday, today.month);
      var date := Decimal(today.date);
      var headerSize := fit.size / 96.0 * 14.0;
      var dateSize := fit.size / 96.0 * 28.0;
      Run(Fresh(m0), RegularCalendar(today, showWeekday, showMonth, fit, measure), cis).marks
        == [Painted(Surface(CalendarFace), Scaled(centred, fit.size / FaceCanvas), 0.0, Over)]
           + (if header == "" then []
              else [Text(header, centred,
                         Point(Centered(fit.size, measure(HeaderFont, headerSize, header)), fit.size / 96.0 * 25.0),
                         HeaderFont, headerSize, Solid(HeaderColor), Over)])
           + [Text(date, centred,
                   Point(Centered(fit.size, measure(DateFont, dateSize, date)), fit.size / 96.0 * 68.0),
                   DateFont, dateSize, Solid(DateColor), Over)]
  {
    var f := fit.size / FaceCanvas;
    var page := Page(fit, fit.size / FaceCanvas, CalendarFace);
    var header := HeaderText(showWeekday, showMonth, today.weekday, today.month);
    var l1 := Label(HeaderFont, fit.size / 96.0 * 14.0, HeaderColor, fit.size, fit.size / 96.0 * 25.0, header, measure);
    var l2 := Label(DateFont, fit.size / 96.0 * 28.0, DateColor, fit.size, fit.size / 96.0 * 68.0,
                    Decimal(today.date), measure);
    var c0 := Fresh(m0);
    RunAppend(c0, page, l1 + l2, cis);
    PageRun(c0, fit, FaceCanvas, CalendarFace, cis);
    var c1 := Run(c0, page, cis);
    assert Run(c0, RegularCalendar(today, showWeekday, showMonth, fit, measure), cis) == Run(c1, l1 + l2, cis);
    var centred := Translated(m0, fit.dx, fit.dy);
    assert c1.ok && c1.ctm == centred && c1.operator == Over;
    assert c1.marks == [Painted(Surface(CalendarFace), Scaled(centred, f), 0.0, Over)];
    TextLinesRun(c1, header, Decimal(today.date), fit.size, measure, cis);
  }

  /** The header and date lines of the full-colour page. */
  lemma TextLinesRun(c: Ctx, header: string, date: string, size: real,
                                        measure: (Font, real, string) -> real, cis: real -> Dir)
    requires c.ok && date != []
    ensures var headerSize := size / 96.0 * 14.0;
      var dateSize := size / 96.0 * 28.0;
      Run(c, Label(HeaderFont, headerSize, HeaderColor, size, size / 96.0 * 25.0, header, measure)
             + Label(DateFont, dateSize, DateColor, size, size / 96.0 * 68.0, date, measure), cis).marks
        == c.marks
           + (if header == "" then []
              else [Text(header, c.ctm,
                         Point(Centered(size, measure(HeaderFont, headerSize, header)), size / 96.0 * 25.0),
                         HeaderFont, headerSize, Solid(HeaderColor), c.operator)])
           + [Text(date, c.ctm,
                   Point(Centered(size, measure(DateFont, dateSize, date)), size / 96.0 * 68.0),
                   DateFont, dateSize, Solid(DateColor), c.operator)]
  {
    var l1 := Label(HeaderFont, size / 96.0 * 14.0, HeaderColor, size, size / 96.0 * 25.0, header, measure);
    var l2 := Label(DateFont, size / 96.0 * 28.0, DateColor, size, size / 96.0 * 68.0, date, measure);
    RunAppend(c, l1, l2, cis);
    LabelRun(c, HeaderFont, size / 96.0 * 14.0, HeaderColor, size, size / 96.0 * 25.0, header, measure, cis);
    LabelRun(Run(c, l1, cis), DateFont, size / 96.0 * 28.0, DateColor, size, size / 96.0 * 68.0, date, measure, cis);
  }

  /** The symbolic page: the page, then only the day of the month, centred, in half
      the icon's size, on the baseline three quarters of the way down. */
  lemma SymbolicCalendarRun(today: Today, fit: Fit, measure: (Font, real, string) -> real,
                                               m0: Matrix, cis: real -> Dir)
    requires fit.size != 0.0
    ensures var centred := Translated(m0, fit.dx, fit.dy);
      var date := Decimal(today.date);
      Run(Fresh(m0), SymbolicCalendar(today, fit, measure), cis).marks
        == [Painted(Surface(SymbolicCalendarFace), Scaled(centred, fit.size / SymbolicCanvas), 0.0, Over),
            Text(date, centred,
                 Point(Centered(fit.size, measure(DateFont, fit.size / 2.0, date)), fit.size / 16.0 * 12.0),
                 DateFont, fit.size / 2.0, Solid(SymbolicDateColor), Over)]
  {
    var page := Page(fit, fit.size / SymbolicCanvas, SymbolicCalendarFace);
    var l := Label(DateFont, fit.size / 2.0, SymbolicDateColor, fit.size, fit.size / 16.0 * 12.0,
                   Decimal(today.date), measure);
    var c0 := Fresh(m0);
    RunAppend(c0, page, l, cis);
    PageRun(c0, fit, SymbolicCanvas, SymbolicCalendarFace, cis);
    LabelRun(Run(c0, page, cis), DateFont, fit.size / 2.0, SymbolicDateColor, fit.size, fit.size / 16.0 * 12.0,
             Decimal(today.date), measure, cis);
  }

  /** An icon whose square has no size draws nothing at all. */
  lemma EmptyCalendar(iconStyle: int, today: Today, showWeekday: bool, showMonth: bool,
                                         requested: int, width: real, height: real,
                                         measure: (Font, real, string) -> real, m0: Matrix, cis: real -> Dir)
    requires GetIconSize(requested, width, height).size == 0.0
    ensures Run(Fresh(m0), RepaintCalendar(iconStyle, today, showWeekday, showMonth, requested, width, height,
                                           measure), cis).marks == []
  {
    var fit := GetIconSize(requested, width, height);
    var ops := RepaintCalendar(iconStyle, today, showWeekday, showMonth, requested, width, height, measure);
    if iconStyle == SymbolicStyle {
      var face := SymbolicCalendarFace;
      assert ops == Background(fit, 0.0, face) + ops[4..];
      EmptyBackground(Fresh(m0), fit, face, ops[4..], cis);
    } else {
      var face := CalendarFace;
      assert ops == Background(fit, 0.0, face) + ops[4..];
      EmptyBackground(Fresh(m0), fit, face, ops[4..], cis);
    }
  }
}
