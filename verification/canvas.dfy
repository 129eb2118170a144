/** The slice of a cairo drawing context the repaint callbacks use, as a word of
    operations and an interpreter that records what each `paint` and `show_text`
    puts on the icon. The interpreter tracks the CTM exactly (see Transform) and, in
    parallel, the running sum of the angles passed to `rotate`, in degrees. */
module Canvas {
  import opened Transform

  /** The nine PNG surfaces loaded at enable time. */
  datatype Layer =
    | CalendarFace | SymbolicCalendarFace | ClocksFace | SymbolicClocksFace
    | HourHand | SymbolicHourHand | MinuteHand | SymbolicMinuteHand | SecondHand

  /** Compositing operators the code selects: the default OVER and DEST_OUT, which
      cuts the source's shape out of what is already drawn. */
  datatype Operator = Over | DestOut

  datatype Rgb = Rgb(r: real, g: real, b: real)

  /** select_font_face(family, slant, weight); the code always passes the normal slant,
      so only the family and whether the weight is bold are kept. */
  datatype Font = Font(family: string, bold: bool)

  datatype Source = Surface(layer: Layer) | Solid(color: Rgb)

  datatype Op =
    | Translate(dx: real, dy: real)
    | Scale(f: real)
    | Rotate(degrees: real)
    | SetSourceSurface(layer: Layer)
    | SetSourceRgb(color: Rgb)
    | SetOperator(operator: Operator)
    | SelectFont(font: Font)
    | SetFontSize(size: real)
    | MoveTo(x: real, y: real)
    | ShowText(text: string)
    | Paint

  /** What ended up on the icon: a painted source under a CTM (with the accumulated
      rotation in degrees), or a run of text placed at a user-space point. */
  datatype Mark =
    | Painted(source: Source, ctm: Matrix, angle: real, operator: Operator)
    | Text(text: string, ctm: Matrix, at: Point, font: Font, size: real, source: Source, operator: Operator)

  /** The drawing state. `ok` is false once cairo has entered its error state. The
      program's cairo binding throws at that point and the callback ends; the model
      instead ignores every later operation, which leaves the same marks. */
  datatype Ctx = Ctx(
    ok: bool,
    ctm: Matrix,
    angle: real,
    source: Source,
    operator: Operator,
    font: Font,
    fontSize: real,
    at: Point,
    marks: seq<Mark>)

  /** St.IconStyle.SYMBOLIC, the icon style under which both callbacks switch to their
      monochrome variant. */
  const SymbolicStyle: int := 2

  const Black: Rgb := Rgb(0.0, 0.0, 0.0)

  /** A fresh context as St.DrawingArea.get_context hands it out: CTM `m0`, opaque
      black source, OVER, cairo's default 10-unit font, nothing drawn yet. */
  function Fresh(m0: Matrix): Ctx {
    Ctx(true, m0, 0.0, Solid(Black), Over, Font("", false), 10.0, Point(0.0, 0.0), [])
  }

  /** One cairo call. `cis` turns an angle in degrees into the rotation cairo builds
      from it (the code converts to radians, cairo takes cosine and sine). A scale by
      zero makes the matrix singular, which cairo refuses with its error state;
      showing the empty string draws nothing. */
  function Step(c: Ctx, op: Op, cis: real -> Dir): Ctx {
    if !c.ok then c
    else
      match op
      case Translate(dx, dy) => c.(ctm := Translated(c.ctm, dx, dy))
      case Scale(f) => if f == 0.0 then c.(ok := false) else c.(ctm := Scaled(c.ctm, f))
      case Rotate(deg) => c.(ctm := Rotated(c.ctm, cis(deg)), angle := c.angle + deg)
      case SetSourceSurface(layer) => c.(source := Surface(layer))
      case SetSourceRgb(color) => c.(source := Solid(color))
      case SetOperator(operator) => c.(operator := operator)
      case SelectFont(font) => c.(font := font)
      case SetFontSize(size) => c.(fontSize := size)
      case MoveTo(x, y) => c.(at := Point(x, y))
      case ShowText(text) =>
        if text == [] then c
        else c.(marks := c.marks + [Text(text, c.ctm, c.at, c.font, c.fontSize, c.source, c.operator)])
      case Paint => c.(marks := c.marks + [Painted(c.source, c.ctm, c.angle, c.operator)])
  }

  /** Runs a word of operations, one cairo call after the other. */
  function Run(c: Ctx, ops: seq<Op>, cis: real -> Dir): Ctx
    decreases |ops|
  {
    if |ops| == 0 then c else Run(Step(c, ops[0], cis), ops[1..], cis)
  }

  /** Marks are only ever appended, a context in the error state stays exactly as it
      is, and only a scale by zero puts it there. */
  lemma {:induction false} RunLaws(c: Ctx, ops: seq<Op>, cis: real -> Dir)
    ensures c.marks <= Run(c, ops, cis).marks
    ensures !c.ok ==> Run(c, ops, cis) == c
    ensures c.ok && !Run(c, ops, cis).ok ==> exists i :: 0 <= i < |ops| && ops[i] == Scale(0.0)
    decreases |ops|
  {
    if |ops| > 0 {
      var c1 := Step(c, ops[0], cis);
      RunLaws(c1, ops[1..], cis);
      if c.ok && !Run(c, ops, cis).ok {
        if c1.ok {
          var i :| 0 <= i < |ops[1..]| && ops[1..][i] == Scale(0.0);
          assert ops[i + 1] == Scale(0.0);
        } else {
          assert ops[0] == Scale(0.0);
        }
      }
    }
  }

  lemma {:induction false} RunAppend(c: Ctx, a: seq<Op>, b: seq<Op>, cis: real -> Dir)
    ensures Run(c, a + b, cis) == Run(Run(c, a, cis), b, cis)
    decreases |a|
  {
    if |a| == 0 {
      assert a + b == b;
    } else {
      assert (a + b)[1..] == a[1..] + b;
      RunAppend(Step(c, a[0], cis), a[1..], b, cis);
    }
  }

  /** The layers a word sets as its source, in order. */
  function Layers(ops: seq<Op>): seq<Layer>
    decreases |ops|
  {
    if |ops| == 0 then []
    else (if ops[0].SetSourceSurface? then [ops[0].layer] else []) + Layers(ops[1..])
  }

  /** The strings a word passes to `show_text`, in order. */
  function Shown(ops: seq<Op>): seq<string>
    decreases |ops|
  {
    if |ops| == 0 then []
    else (if ops[0].ShowText? then [ops[0].text] else []) + Shown(ops[1..])
  }

  /** The sum of the angles a word passes to `rotate`. */
  function TotalTurn(ops: seq<Op>): real
    decreases |ops|
  {
    if |ops| == 0 then 0.0
    else (if ops[0].Rotate? then ops[0].degrees else 0.0) + TotalTurn(ops[1..])
  }

  /** A single call that sets no layer, writes no text and does not rotate. */
  lemma QuietOp(op: Op)
    requires !op.SetSourceSurface? && !op.ShowText? && !op.Rotate?
    ensures Layers([op]) == [] && Shown([op]) == [] && TotalTurn([op]) == 0.0
  {
    assert [op][1..] == [];
  }

  lemma {:induction false} LayersAppend(a: seq<Op>, b: seq<Op>)
    ensures Layers(a + b) == Layers(a) + Layers(b)
    decreases |a|
  {
    if |a| == 0 {
      assert a + b == b;
    } else {
      assert (a + b)[0] == a[0] && (a + b)[1..] == a[1..] + b;
      LayersAppend(a[1..], b);
      assert Layers(a + b) == (if a[0].SetSourceSurface? then [a[0].layer] else []) + Layers(a[1..] + b);
      assert Layers(a) == (if a[0].SetSourceSurface? then [a[0].layer] else []) + Layers(a[1..]);
    }
  }

  lemma {:induction false} ShownAppend(a: seq<Op>, b: seq<Op>)
    ensures Shown(a + b) == Shown(a) + Shown(b)
    decreases |a|
  {
    if |a| == 0 {
      assert a + b == b;
    } else {
      assert (a + b)[0] == a[0] && (a + b)[1..] == a[1..] + b;
      ShownAppend(a[1..], b);
      assert Shown(a + b) == (if a[0].ShowText? then [a[0].text] else []) + Shown(a[1..] + b);
      assert Shown(a) == (if a[0].ShowText? then [a[0].text] else []) + Shown(a[1..]);
    }
  }

  lemma {:induction false} TurnAppend(a: seq<Op>, b: seq<Op>)
    ensures TotalTurn(a + b) == TotalTurn(a) + TotalTurn(b)
    decreases |a|
  {
    if |a| == 0 {
      assert a + b == b;
    } else {
      assert (a + b)[0] == a[0] && (a + b)[1..] == a[1..] + b;
      TurnAppend(a[1..], b);
      assert TotalTurn(a + b) == (if a[0].Rotate? then a[0].degrees else 0.0) + TotalTurn(a[1..] + b);
      assert TotalTurn(a) == (if a[0].Rotate? then a[0].degrees else 0.0) + TotalTurn(a[1..]);
    }
  }

  /** The three summaries of a word split in two are those of the halves, joined. */
  lemma WordAppend(a: seq<Op>, b: seq<Op>)
    ensures Layers(a + b) == Layers(a) + Layers(b)
    ensures Shown(a + b) == Shown(a) + Shown(b)
    ensures TotalTurn(a + b) == TotalTurn(a) + TotalTurn(b)
  {
    LayersAppend(a, b);
    ShownAppend(a, b);
    TurnAppend(a, b);
  }
}
