/** The opening every repaint callback shares: getIconSize's centring translation,
    the scale from the artwork's logical canvas to the icon's pixel size, and the
    background PNG painted under it. */
module Artwork {
  import opened Transform
  import opened Canvas
  import opened IconSize

  /** The full-colour artwork is drawn on a 512-unit canvas, the symbolic artwork on
      a 128-unit one. */
  const FaceCanvas: real := 512.0
  const SymbolicCanvas: real := 128.0

  function Background(fit: Fit, factor: real, face: Layer): seq<Op> {
    [Translate(fit.dx, fit.dy), Scale(factor), SetSourceSurface(face), Paint]
  }

  /** The background word sets the face as its source and neither rotates nor
      writes text. */
  lemma BackgroundWord(fit: Fit, factor: real, face: Layer)
    ensures Layers(Background(fit, factor, face)) == [face]
    ensures Shown(Background(fit, factor, face)) == []
    ensures TotalTurn(Background(fit, factor, face)) == 0.0
  {
    var ops := Background(fit, factor, face);
    var tail := ops[3..];
    assert tail[1..] == [];
    assert Layers(tail[1..]) == [] && Shown(tail[1..]) == [] && TotalTurn(tail[1..]) == 0.0;
    assert Layers(tail) == [] && Shown(tail) == [] && TotalTurn(tail) == 0.0;
    assert ops[2..][1..] == tail && ops[1..][1..] == ops[2..];
    assert Layers(ops[2..]) == [face] && Shown(ops[2..]) == [] && TotalTurn(ops[2..]) == 0.0;
    assert Layers(ops[1..]) == [face] && Shown(ops[1..]) == [] && TotalTurn(ops[1..]) == 0.0;
  }

  /** `1 / f` as the calendar callbacks compute it to undo their scale. For f = 0 the
      program never gets this far: the cairo binding throws at scale(0), ending the
      callback. The model keeps going in the error state instead, so some value is
      needed here, and 0 stands in for it. */
  function Reciprocal(f: real): real {
    if f == 0.0 then 0.0 else 1.0 / f
  }

  /** Painting the face: the CTM becomes the centred, scaled one and the face is
      painted under it. */
  lemma BackgroundRun(c: Ctx, fit: Fit, factor: real, face: Layer, cis: real -> Dir)
    requires c.ok && factor != 0.0
    ensures var base := Scaled(Translated(c.ctm, fit.dx, fit.dy), factor);
      Run(c, Background(fit, factor, face), cis)
        == c.(ctm := base, source := Surface(face),
              marks := c.marks + [Painted(Surface(face), base, c.angle, c.operator)])
  {
    var ops := Background(fit, factor, face);
    var c1 := Step(c, ops[0], cis);
    var c2 := Step(c1, ops[1], cis);
    var c3 := Step(c2, ops[2], cis);
    var c4 := Step(c3, ops[3], cis);
    assert Run(c, ops, cis) == Run(c1, ops[1..], cis);
    assert Run(c1, ops[1..], cis) == Run(c2, ops[2..], cis);
    assert Run(c2, ops[2..], cis) == Run(c3, ops[3..], cis);
    assert Run(c3, ops[3..], cis) == Run(c4, ops[4..], cis);
    assert ops[4..] == [];
  }

  /** A square of size zero scales by zero: cairo refuses it before the face is
      painted, and nothing after it is drawn. */
  lemma EmptyBackground(c: Ctx, fit: Fit, face: Layer, rest: seq<Op>, cis: real -> Dir)
    requires c.ok
    ensures Run(c, Background(fit, 0.0, face) + rest, cis).marks == c.marks
  {
    var ops := Background(fit, 0.0, face) + rest;
    var c1 := Step(c, ops[0], cis);
    var c2 := Step(c1, ops[1], cis);
    assert Run(c, ops, cis) == Run(c1, ops[1..], cis);
    assert Run(c1, ops[1..], cis) == Run(c2, ops[2..], cis);
    RunLaws(c2, ops[2..], cis);
    assert !c2.ok && c2.marks == c.marks;
  }
}
